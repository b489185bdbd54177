/** The exporter's own series: what poll records about each poll that is over. */
module SelfMetrics {
  import opened Wrappers
  import opened Metrics
  import opened PollRunner
  import opened PollSafety
  import opened PollWitness
  import opened PollHistory
  import Arithmetic

  /** The exporter's own three vecs. */
  predicate SelfVec(v: Vec) {
    v == ScrapeErrorsTotal || v == LastSuccessTimestamp || v == ScrapeDuration
  }

  const NANOSECONDS := 1_000_000_000

  /** time.Time.Unix, for an instant in nanoseconds since the epoch. */
  function UnixSeconds(at: nat): real {
    (at / NANOSECONDS) as real
  }

  function Seconds(elapsed: int): real {
    elapsed as real / NANOSECONDS as real
  }

  function RecordOps(name: string, f: Finished): seq<Op> {
    if f.ok
      then [] + SetIf(LastSuccessTimestamp, [name], Some(UnixSeconds(f.at)))
           + SetIf(ScrapeDuration, [name], Some(Seconds(f.elapsed)))
      else [Inc(ScrapeErrorsTotal, [name])]
  }

  /** The tail of poll, from the test of err on. */
  method Record(store: MetricStore, name: string, failed: bool, elapsed: int, now: nat)
    requires store.Valid()
    modifies store
    ensures store.Valid() && store.log == old(store.log) + RecordOps(name, Finished(!failed, elapsed, now))
    ensures forall k :: k !in {Key(ScrapeErrorsTotal, [name]), Key(LastSuccessTimestamp, [name]), Key(ScrapeDuration, [name])} ==>
              Lookup(store.series, k) == Lookup(old(store.series), k)
    ensures failed ==>
              && Lookup(store.series, Key(ScrapeErrorsTotal, [name]))
                 == Some(Count(Lookup(old(store.series), Key(ScrapeErrorsTotal, [name]))) + 1.0)
              && Lookup(store.series, Key(LastSuccessTimestamp, [name])) == Lookup(old(store.series), Key(LastSuccessTimestamp, [name]))
              && Lookup(store.series, Key(ScrapeDuration, [name])) == Lookup(old(store.series), Key(ScrapeDuration, [name]))
    ensures !failed ==>
              && Lookup(store.series, Key(ScrapeErrorsTotal, [name])) == Lookup(old(store.series), Key(ScrapeErrorsTotal, [name]))
              && Lookup(store.series, Key(LastSuccessTimestamp, [name])) == Some(UnixSeconds(now))
              && Lookup(store.series, Key(ScrapeDuration, [name])) == Some(Seconds(elapsed))
  {
    if failed {
      store.Inc(ScrapeErrorsTotal, [name]);
      return;
    }
    store.Set(LastSuccessTimestamp, [name], UnixSeconds(now));
    store.Set(ScrapeDuration, [name], Seconds(elapsed));
  }

  /** What a domain records over a sequence of finished polls. */
  function History(name: string, finished: seq<Finished>): seq<Op> {
    if |finished| == 0 then []
    else History(name, finished[..|finished| - 1]) + RecordOps(name, finished[|finished| - 1])
  }

  function Failures(finished: seq<Finished>): nat {
    if |finished| == 0 then 0
    else Failures(finished[..|finished| - 1]) + (if finished[|finished| - 1].ok then 0 else 1)
  }

  function Failed(finished: seq<Finished>): set<nat> {
    set i | 0 <= i < |finished| && !finished[i].ok
  }

  function Succeeded(finished: seq<Finished>): set<nat> {
    set i | 0 <= i < |finished| && finished[i].ok
  }

  lemma {:induction false} FailuresCounted(finished: seq<Finished>)
    ensures Failures(finished) == |Failed(finished)|
    decreases |finished|
  {
    if |finished| > 0 {
      var n := |finished| - 1;
      FailuresCounted(finished[..n]);
      if finished[n].ok {
        assert Failed(finished) == Failed(finished[..n]);
      } else {
        assert Failed(finished) == Failed(finished[..n]) + {n};
      }
    }
  }

  lemma {:induction false} SuccessesCounted(finished: seq<Finished>)
    ensures |finished| - Failures(finished) == |Succeeded(finished)|
    decreases |finished|
  {
    if |finished| > 0 {
      var n := |finished| - 1;
      SuccessesCounted(finished[..n]);
      if finished[n].ok {
        assert Succeeded(finished) == Succeeded(finished[..n]) + {n};
      } else {
        assert Succeeded(finished) == Succeeded(finished[..n]);
      }
    }
  }

  lemma EveryPollCounted(finished: seq<Finished>)
    ensures |Failed(finished)| + |Succeeded(finished)| == |finished|
  {
    FailuresCounted(finished);
    SuccessesCounted(finished);
  }

  /** The position of the latest poll that succeeded. */
  function LatestSuccess(finished: seq<Finished>): (r: Option<nat>)
    ensures r.Some? ==> r.value < |finished|
  {
    if |finished| == 0 then None
    else if finished[|finished| - 1].ok then Some(|finished| - 1)
    else LatestSuccess(finished[..|finished| - 1])
  }

  /** Poll i succeeded and no later one did. */
  predicate IsLatest(finished: seq<Finished>, i: nat) {
    i < |finished| && finished[i].ok && forall j :: i < j < |finished| ==> !finished[j].ok
  }

  lemma {:induction false} LatestSuccessIff(finished: seq<Finished>, i: nat)
    ensures LatestSuccess(finished) == Some(i) <==> IsLatest(finished, i)
    ensures LatestSuccess(finished).None? <==> forall j :: 0 <= j < |finished| ==> !finished[j].ok
    decreases |finished|
  {
    if |finished| > 0 {
      var n := |finished| - 1;
      LatestSuccessIff(finished[..n], i);
      assert forall j :: 0 <= j < n ==> finished[..n][j] == finished[j];
      if !finished[n].ok {
        assert IsLatest(finished, i) <==> IsLatest(finished[..n], i);
      }
    }
  }

  lemma RecordEffect(name: string, f: Finished, k: Key, v: Option<real>)
    ensures KeyRun(v, RecordOps(name, f), k) ==
            if f.ok && k == Key(LastSuccessTimestamp, [name]) then Some(UnixSeconds(f.at))
            else if f.ok && k == Key(ScrapeDuration, [name]) then Some(Seconds(f.elapsed))
            else if !f.ok && k == Key(ScrapeErrorsTotal, [name]) then Some(Count(v) + 1.0)
            else v
  {
    if f.ok {
      var a := [] + SetIf(LastSuccessTimestamp, [name], Some(UnixSeconds(f.at)));
      ThenSetIf(v, [], LastSuccessTimestamp, [name], Some(UnixSeconds(f.at)), k);
      ThenSetIf(v, a, ScrapeDuration, [name], Some(Seconds(f.elapsed)), k);
    } else {
      assert RecordOps(name, f)[..0] == [];
    }
  }

  /** What the series `k` of domain `name` holds after these polls. */
  function Recorded(name: string, finished: seq<Finished>, k: Key): Option<real> {
    if k == Key(ScrapeErrorsTotal, [name]) && Failures(finished) > 0 then Some(Failures(finished) as real)
    else if k == Key(LastSuccessTimestamp, [name]) && LatestSuccess(finished).Some? then
      Some(UnixSeconds(finished[LatestSuccess(finished).value].at))
    else if k == Key(ScrapeDuration, [name]) && LatestSuccess(finished).Some? then
      Some(Seconds(finished[LatestSuccess(finished).value].elapsed))
    else None
  }

  lemma RecordedNext(name: string, finished: seq<Finished>, k: Key)
    requires |finished| > 0
    ensures KeyRun(Recorded(name, finished[..|finished| - 1], k), RecordOps(name, finished[|finished| - 1]), k)
         == Recorded(name, finished, k)
  {
    RecordEffect(name, finished[|finished| - 1], k, Recorded(name, finished[..|finished| - 1], k));
  }

  /** Accounting over any sequence of polls of one domain: the error counter is the number of
      failed ones, the two gauges are those of the latest successful one, each is absent when there
      is none, and nothing else is recorded. */
  lemma {:induction false} Accounting(name: string, finished: seq<Finished>, k: Key)
    ensures KeyRun(None, History(name, finished), k) == Recorded(name, finished, k)
    decreases |finished|
  {
    if |finished| > 0 {
      var n := |finished| - 1;
      Accounting(name, finished[..n], k);
      KeyRunAppend(None, History(name, finished[..n]), RecordOps(name, finished[n]), k);
      RecordedNext(name, finished, k);
    }
  }

  function ErrorsKey(name: string): Key { Key(ScrapeErrorsTotal, [name]) }

  function StampKey(name: string): Key { Key(LastSuccessTimestamp, [name]) }

  function DurationKey(name: string): Key { Key(ScrapeDuration, [name]) }

  /** The same on the registry, by positions: the counter is the number of polls that failed, and the
      two gauges are those of the poll that succeeded and after which none did, its instant in whole
      seconds and its duration in seconds. */
  lemma AccountingByPolls(name: string, finished: seq<Finished>, i: nat)
    ensures var st := Run(map[], History(name, finished));
            && Count(Lookup(st, ErrorsKey(name))) == |Failed(finished)| as real
            && (ErrorsKey(name) in st <==> Failed(finished) != {})
            && (StampKey(name) in st <==> Succeeded(finished) != {})
            && (DurationKey(name) in st <==> Succeeded(finished) != {})
            && (IsLatest(finished, i) ==> Lookup(st, StampKey(name)) == Some((finished[i].at / 1_000_000_000) as real))
            && (IsLatest(finished, i) ==> Lookup(st, DurationKey(name)) == Some(finished[i].elapsed as real / 1_000_000_000.0))
  {
    ErrorsShown(name, finished);
    GaugesPresent(name, finished);
    if IsLatest(finished, i) {
      GaugesShown(name, finished, i);
    }
  }

  lemma ErrorsShown(name: string, finished: seq<Finished>)
    ensures var st := Run(map[], History(name, finished));
            && Count(Lookup(st, ErrorsKey(name))) == |Failed(finished)| as real
            && (ErrorsKey(name) in st <==> Failed(finished) != {})
  {
    OnRegistry(name, finished, ErrorsKey(name));
    FailuresCounted(finished);
  }

  lemma GaugesPresent(name: string, finished: seq<Finished>)
    ensures var st := Run(map[], History(name, finished));
            && (StampKey(name) in st <==> Succeeded(finished) != {})
            && (DurationKey(name) in st <==> Succeeded(finished) != {})
  {
    OnRegistry(name, finished, StampKey(name));
    OnRegistry(name, finished, DurationKey(name));
    SomeSuccess(finished);
  }

  lemma GaugesShown(name: string, finished: seq<Finished>, i: nat)
    requires IsLatest(finished, i)
    ensures var st := Run(map[], History(name, finished));
            && Lookup(st, StampKey(name)) == Some((finished[i].at / 1_000_000_000) as real)
            && Lookup(st, DurationKey(name)) == Some(finished[i].elapsed as real / 1_000_000_000.0)
  {
    OnRegistry(name, finished, StampKey(name));
    OnRegistry(name, finished, DurationKey(name));
    RecordedGauges(name, finished, i);
  }

  lemma RecordedGauges(name: string, finished: seq<Finished>, i: nat)
    requires IsLatest(finished, i)
    ensures Recorded(name, finished, StampKey(name)) == Some((finished[i].at / 1_000_000_000) as real)
    ensures Recorded(name, finished, DurationKey(name)) == Some(finished[i].elapsed as real / 1_000_000_000.0)
  {
    LatestSuccessIff(finished, i);
  }

  lemma OnRegistry(name: string, finished: seq<Finished>, k: Key)
    ensures Lookup(Run(map[], History(name, finished)), k) == Recorded(name, finished, k)
  {
    Pointwise(map[], History(name, finished), k);
    Accounting(name, finished, k);
  }

  lemma SomeSuccess(finished: seq<Finished>)
    ensures LatestSuccess(finished).Some? <==> Succeeded(finished) != {}
  {
    LatestSuccessIff(finished, 0);
    forall j | 0 <= j < |finished| && finished[j].ok ensures j in Succeeded(finished) {
    }
  }

  /** ScrapeDuration is described as the duration of the last poll. It is, exactly if that poll
      succeeded or the gauge already showed its duration. */
  lemma DurationOfLastPollIff(name: string, finished: seq<Finished>)
    requires |finished| > 0
    ensures var last := finished[|finished| - 1];
            var k := Key(ScrapeDuration, [name]);
            KeyRun(None, History(name, finished), k) == Some(Seconds(last.elapsed)) <==>
            last.ok || KeyRun(None, History(name, finished[..|finished| - 1]), k) == Some(Seconds(last.elapsed))
  {
    var n := |finished| - 1;
    var k := Key(ScrapeDuration, [name]);
    KeyRunAppend(None, History(name, finished[..n]), RecordOps(name, finished[n]), k);
    RecordEffect(name, finished[n], k, KeyRun(None, History(name, finished[..n]), k));
  }

  /** A run that shows the difference: a poll of one second that succeeds, then one of two seconds
      that fails. One second stays on display. */
  lemma DurationNotOfLastPoll(p: Params, name: string) returns (s: State)
    requires p.shutdown.None? && p.pollTimeout >= 2 * NANOSECONDS && p.interval >= 2 * NANOSECONDS
    ensures Reaches(p, Init(0), s) && |s.finished| == 2
    ensures s.finished[1].elapsed == 2 * NANOSECONDS && Seconds(2 * NANOSECONDS) == 2.0
    ensures Lookup(Run(map[], History(name, s.finished)), DurationKey(name)) == Some(1.0)
  {
    s := OneSecondPoll(p);
    s := TwoSecondFailure(p, s);
    assert IsLatest(s.finished, 0);
    AccountingByPolls(name, s.finished, 0);
  }

  lemma OneSecondPoll(p: Params) returns (s: State)
    requires p.shutdown.None? && p.pollTimeout >= 2 * NANOSECONDS && p.interval >= 2 * NANOSECONDS
    ensures Reaches(p, Init(0), s) && Lagging(p, s, 0) && s.finished == [Finished(true, NANOSECONDS, NANOSECONDS)]
  {
    Here(p, Init(0));
    s := Go(p, Init(0), Init(0), CreateContext);
    s := Pass(p, Init(0), s, NANOSECONDS);
    s := Go(p, Init(0), s, PollReturns(true));
    s := Go(p, Init(0), s, MainCancels);
    s := MonitorGoes(p, Init(0), s);
    s := Go(p, Init(0), s, MainJoins);
    s := AfterFirst(p, s);
  }

  lemma AfterFirst(p: Params, r: State) returns (s: State)
    requires p.shutdown.None? && Reaches(p, Init(0), r)
    requires r.main == Recording(r.now, Outcome(true, NANOSECONDS)) && r.now == NANOSECONDS && r.finished == []
    requires r.mon.Closed? && r.ctx.Done? && r.ticker.NoTicker?
    ensures Reaches(p, Init(0), s) && Lagging(p, s, 0) && s.finished == [Finished(true, NANOSECONDS, NANOSECONDS)]
  {
    s := Go(p, Init(0), r, MainRecords);
    s := Go(p, Init(0), s, CreateTicker);
    s := Pass(p, Init(0), s, NANOSECONDS + p.interval);
    s := FireOnTime(p, Init(0), s);
  }

  lemma TwoSecondFailure(p: Params, r: State) returns (s: State)
    requires p.shutdown.None? && p.pollTimeout >= 2 * NANOSECONDS && p.interval >= 2 * NANOSECONDS
    requires Reaches(p, Init(0), r) && Lagging(p, r, 0)
    ensures Reaches(p, Init(0), s) && s.finished == r.finished + [Finished(false, 2 * NANOSECONDS, r.now + 2 * NANOSECONDS)]
  {
    s := EnterFresh(p, Init(0), r, 0);
    s := Pass(p, Init(0), s, r.now + 2 * NANOSECONDS);
    s := Go(p, Init(0), s, PollReturns(false));
    s := Go(p, Init(0), s, MainCancels);
    s := MonitorGoes(p, Init(0), s);
    s := Go(p, Init(0), s, MainJoins);
    s := Go(p, Init(0), s, MainRecords);
  }

  // ----- along a run of the poll runner -----

  lemma {:induction false} FinishedGrows(p: Params, s: State, acts: seq<Action>)
    requires Legal(p, s, acts)
    ensures s.finished <= Exec(p, s, acts).finished
    decreases |acts|
  {
    if |acts| > 0 {
      FinishedGrows(p, Do(p, s, acts[0]), acts[1..]);
    }
  }

  /** Polls are recorded in the order of time. */
  predicate InSequence(finished: seq<Finished>) {
    forall i, j :: 0 <= i <= j < |finished| ==> finished[i].at <= finished[j].at
  }

  lemma RecordedInSequence(s: State)
    requires Sequential(s)
    ensures InSequence(s.finished)
  {
    forall i, j | 0 <= i < j < |s.finished| ensures s.finished[i].at <= s.finished[j].at {
      assert s.finished[i].at <= s.starts[j];
    }
  }

  lemma LatestGrows(a: seq<Finished>, b: seq<Finished>)
    requires a <= b && LatestSuccess(a).Some?
    ensures LatestSuccess(b).Some? && LatestSuccess(a).value <= LatestSuccess(b).value
  {
    var i := LatestSuccess(a).value;
    LatestSuccessIff(a, i);
    assert b[i].ok;
    LatestSuccessIff(b, 0);
    LatestSuccessIff(b, LatestSuccess(b).value);
  }

  lemma FailedGrows(a: seq<Finished>, b: seq<Finished>)
    requires a <= b
    ensures Failed(a) <= Failed(b) && |Failed(a)| <= |Failed(b)|
  {
    assert Failed(b) == Failed(a) + (Failed(b) - Failed(a));
  }

  lemma StampNeverFalls(name: string, a: seq<Finished>, b: seq<Finished>)
    requires a <= b && InSequence(b) && Recorded(name, a, StampKey(name)).Some?
    ensures Recorded(name, b, StampKey(name)).Some?
    ensures Recorded(name, a, StampKey(name)).value <= Recorded(name, b, StampKey(name)).value
  {
    LatestGrows(a, b);
    var i, j := LatestSuccess(a).value, LatestSuccess(b).value;
    assert a[i].at <= b[j].at;
    Arithmetic.QuotientMono(NANOSECONDS, a[i].at, b[j].at);
  }

  /** Nothing recorded is taken back: the error counter and the timestamp never fall. */
  lemma NeverFalls(name: string, a: seq<Finished>, b: seq<Finished>)
    requires a <= b && InSequence(b)
    ensures var was, now := Run(map[], History(name, a)), Run(map[], History(name, b));
            && Count(Lookup(was, ErrorsKey(name))) <= Count(Lookup(now, ErrorsKey(name)))
            && (StampKey(name) in was ==> StampKey(name) in now && was[StampKey(name)] <= now[StampKey(name)])
  {
    AccountingByPolls(name, a, 0);
    AccountingByPolls(name, b, 0);
    FailedGrows(a, b);
    OnRegistry(name, a, StampKey(name));
    OnRegistry(name, b, StampKey(name));
    if Recorded(name, a, StampKey(name)).Some? {
      StampNeverFalls(name, a, b);
    }
  }

  /** Along any run of the poll runner what is recorded are exactly the completed polls: on the
      registry errors and successes add up to them, and the error counter and the timestamp of the
      last success never fall. */
  lemma RunAccounting(p: Params, begin: nat, acts: seq<Action>, s: State, more: seq<Action>, t: State, name: string)
    requires Legal(p, Init(begin), acts) && s == Exec(p, Init(begin), acts)
    requires Legal(p, s, more) && t == Exec(p, s, more)
    ensures |s.starts| - 1 <= |s.finished| <= |s.starts|
    ensures var was, now := Run(map[], History(name, s.finished)), Run(map[], History(name, t.finished));
            && Count(Lookup(was, ErrorsKey(name))) + |Succeeded(s.finished)| as real == |s.finished| as real
            && Count(Lookup(was, ErrorsKey(name))) <= Count(Lookup(now, ErrorsKey(name)))
            && (StampKey(name) in was ==> StampKey(name) in now && was[StampKey(name)] <= now[StampKey(name)])
  {
    EveryPollCounted(s.finished);
    AccountingByPolls(name, s.finished, 0);
    FinishedInOrder(p, begin, acts, s, more, t);
    NeverFalls(name, s.finished, t.finished);
  }

  /** The positions at which Poll returned an error. */
  function Errors(oks: seq<bool>): set<nat> {
    set i | 0 <= i < |oks| && !oks[i]
  }

  /** The recorded Poll i succeeded and no later recorded one did. */
  predicate LatestReturn(oks: seq<bool>, i: nat) {
    i < |oks| && oks[i] && forall j :: i < j < |oks| ==> !oks[j]
  }

  /** What a run shows, read off its actions: the error counter is the number of recorded polls whose
      Poll returned an error, and the gauges are the instant of recording and the duration of the
      latest recorded one whose Poll returned without. */
  lemma RegistryOfRun(p: Params, begin: nat, acts: seq<Action>, s: State, name: string, i: nat)
    requires Legal(p, Init(begin), acts) && s == Exec(p, Init(begin), acts)
    ensures var t := TraceOf(begin, acts);
            var st := Run(map[], History(name, s.finished));
            && |t.recorded| <= |t.oks| == |t.returned| <= |t.created|
            && var oks := t.oks[..|t.recorded|];
            && Count(Lookup(st, ErrorsKey(name))) == |Errors(oks)| as real
            && (StampKey(name) in st <==> exists j :: 0 <= j < |oks| && oks[j])
            && (LatestReturn(oks, i) ==>
                  && Lookup(st, StampKey(name)) == Some((t.recorded[i] / 1_000_000_000) as real)
                  && DurationKey(name) in st
                  && t.created[i] as real + st[DurationKey(name)] * 1_000_000_000.0 == t.returned[i] as real)
  {
    var t := TraceOf(begin, acts);
    RecordsWhatHappened(p, begin, acts, s);
    CountsOfTrace(s.finished, t.oks[..|t.recorded|], name);
    SameSuccesses(s.finished, t.oks[..|t.recorded|], i);
    if IsLatest(s.finished, i) {
      GaugesOfTrace(s.finished, t, name, i);
    }
  }

  lemma CountsOfTrace(finished: seq<Finished>, oks: seq<bool>, name: string)
    requires |finished| == |oks| && forall j :: 0 <= j < |oks| ==> finished[j].ok == oks[j]
    ensures var st := Run(map[], History(name, finished));
            && Count(Lookup(st, ErrorsKey(name))) == |Errors(oks)| as real
            && (StampKey(name) in st <==> exists j :: 0 <= j < |oks| && oks[j])
  {
    ErrorsShown(name, finished);
    GaugesPresent(name, finished);
    assert Failed(finished) == Errors(oks);
    SameSuccesses(finished, oks, 0);
  }

  lemma GaugesOfTrace(finished: seq<Finished>, t: Trace, name: string, i: nat)
    requires Records(finished, t) && IsLatest(finished, i)
    ensures var st := Run(map[], History(name, finished));
            && Lookup(st, StampKey(name)) == Some((t.recorded[i] / 1_000_000_000) as real)
            && DurationKey(name) in st
            && t.created[i] as real + st[DurationKey(name)] * 1_000_000_000.0 == t.returned[i] as real
  {
    var st := Run(map[], History(name, finished));
    GaugesShown(name, finished, i);
    SecondsBack(t.created[i], t.returned[i], finished[i].elapsed, st[DurationKey(name)]);
  }

  lemma SameSuccesses(finished: seq<Finished>, oks: seq<bool>, i: nat)
    requires |finished| == |oks| && forall j :: 0 <= j < |oks| ==> finished[j].ok == oks[j]
    ensures LatestReturn(oks, i) <==> IsLatest(finished, i)
    ensures Succeeded(finished) != {} <==> exists j :: 0 <= j < |oks| && oks[j]
  {
    if j :| 0 <= j < |oks| && oks[j] {
      assert j in Succeeded(finished);
    }
    if j :| j in Succeeded(finished) {
      assert oks[j];
    }
  }

  lemma SecondsBack(start: nat, end: nat, elapsed: int, seconds: real)
    requires start + elapsed == end && seconds == elapsed as real / 1_000_000_000.0
    ensures start as real + seconds * 1_000_000_000.0 == end as real
  {
  }

  lemma FinishedInOrder(p: Params, begin: nat, acts: seq<Action>, s: State, more: seq<Action>, t: State)
    requires Legal(p, Init(begin), acts) && s == Exec(p, Init(begin), acts)
    requires Legal(p, s, more) && t == Exec(p, s, more)
    ensures |s.starts| - 1 <= |s.finished| <= |s.starts|
    ensures s.finished <= t.finished && InSequence(t.finished)
  {
    AlwaysSafe(p, Init(begin), acts);
    AlwaysSafe(p, s, more);
    FinishedGrows(p, s, more);
    RecordedInSequence(t);
  }
}
