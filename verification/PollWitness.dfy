/**
 When the interval does not exceed one turn, select may keep choosing the tick: runs with any
 number of polls after shutdown. Together with the bound this is an exact condition, and where there
 is a bound the largest number of polls is known.
 */
module PollWitness {
  import opened Wrappers
  import opened Arithmetic
  import opened PollRunner
  import opened PollTiming
  import opened PollIdle

  /** Some run leads from `s0` to `s`. */
  ghost predicate Reaches(p: Params, s0: State, s: State) {
    exists acts: seq<Action> :: Timely(p, s0, acts) && Exec(p, s0, acts) == s
  }

  lemma Here(p: Params, s: State)
    ensures Reaches(p, s, s)
  {
    assert Timely(p, s, []) && Exec(p, s, []) == s;
  }

  lemma OneAction(p: Params, s: State, a: Action)
    requires Enabled(p, s, a) && Punctual(p, s, a)
    ensures Timely(p, s, [a]) && Exec(p, s, [a]) == Do(p, s, a)
  {
    var t := Do(p, s, a);
    assert [a][1..] == [];
    assert Timely(p, t, []) && Exec(p, t, []) == t;
    assert Timely(p, t, [a][1..]);
  }

  lemma Go(p: Params, s0: State, s: State, a: Action) returns (t: State)
    requires Reaches(p, s0, s) && Enabled(p, s, a) && Punctual(p, s, a)
    ensures t == Do(p, s, a) && Reaches(p, s0, t)
  {
    t := Do(p, s, a);
    var acts: seq<Action> :| Timely(p, s0, acts) && Exec(p, s0, acts) == s;
    OneAction(p, s, a);
    LegalAppend(p, s0, acts, [a]);
    TimelyAppend(p, s0, acts, [a]);
  }

  /** At the select with the parent done, a tick waiting, and the next tick due `d` from now. */
  predicate ReadyIn(p: Params, s: State, d: nat) {
    && ParentDone(p, s)
    && s.main.Selecting?
    && s.mon.Closed? && s.ctx.Done?
    && s.ticker.Ticker? && s.ticker.slot.Some? && s.ticker.next == s.now + d
  }

  predicate Ready(p: Params, s: State) {
    ReadyIn(p, s, p.interval)
  }

  /** The longest a poll started after shutdown can last when no step is delayed. */
  function LongestPoll(p: Params): nat {
    Min(p.shutdownGrace, p.pollTimeout) + p.work
  }

  /** The poll just entered, its monitor waiting out the grace period. */
  function Entered(s: State): State
    requires s.ticker.Ticker? && s.ticker.slot.Some?
  {
    s.(main := InPoll(s.now), mon := Waiting(s.now), ctx := Live, born := s.now,
       ticker := s.ticker.(slot := None), starts := s.starts + [s.now],
       ticks := s.ticks + [s.ticker.slot.value.grid])
  }

  lemma EnterPoll(p: Params, s0: State, s: State, d: nat) returns (t: State)
    requires Reaches(p, s0, s) && ReadyIn(p, s, d)
    ensures Reaches(p, s0, t) && t == Entered(s)
  {
    t := Go(p, s0, s, SelectTick);
    t := Go(p, s0, t, CreateContext);
    t := Go(p, s0, t, WatchSeesParent);
    t := Go(p, s0, t, ArmTimer);
  }

  lemma Pass(p: Params, s0: State, s: State, to: nat) returns (t: State)
    requires Reaches(p, s0, s) && s.now <= to && MayReach(p, s, to) && !s.main.Exited?
    ensures t == s.(now := to) && Reaches(p, s0, t)
  {
    t := s;
    if s.now < to {
      t := Go(p, s0, s, Advance(to));
    }
  }

  /** The context is cut off at the first instant it can be, and the monitor goes. */
  lemma CutOffNow(p: Params, s0: State, s: State) returns (t: State)
    requires Reaches(p, s0, s) && s.ctx.Live? && s.mon == Waiting(s.born)
    requires s.now == s.born + Min(p.shutdownGrace, p.pollTimeout)
    ensures Reaches(p, s0, t) && t.ctx.Done? && t == s.(ctx := Done(t.ctx.cause, s.now), mon := Closed(s.now))
  {
    if p.pollTimeout <= p.shutdownGrace {
      t := Go(p, s0, s, DeadlineFires);
      t := Go(p, s0, t, WaitSeesContext);
    } else {
      t := Go(p, s0, s, WaitSeesTimer);
      t := Go(p, s0, t, MonitorCancels);
    }
    t := Go(p, s0, t, MonitorCloses);
  }

  /** Poll returns, the monitor being gone or going now, and the loop is back at its select. */
  lemma BackAtSelect(p: Params, s0: State, s: State) returns (t: State)
    requires Reaches(p, s0, s) && s.main.InPoll? && s.ticker.Ticker?
    requires (s.ctx.Live? && (s.mon.Watching? || s.mon.Waiting?)) || (s.ctx.Done? && s.mon.Closed?)
    ensures Reaches(p, s0, t) && t.main == Selecting(s.now) && t.mon.Closed? && t.ctx.Done?
    ensures t.now == s.now && t.ticker == s.ticker && t.starts == s.starts && t.ticks == s.ticks
  {
    t := Go(p, s0, s, PollReturns(true));
    t := Go(p, s0, t, MainCancels);
    t := MonitorGoes(p, s0, t);
    t := Go(p, s0, t, MainJoins);
    t := Go(p, s0, t, MainRecords);
  }

  lemma MonitorGoes(p: Params, s0: State, s: State) returns (t: State)
    requires Reaches(p, s0, s) && s.ctx.Done? && (s.mon.Watching? || s.mon.Waiting? || s.mon.Closed?)
    ensures Reaches(p, s0, t) && t == s.(mon := if s.mon.Closed? then s.mon else Closed(s.now))
  {
    t := s;
    if s.mon.Watching? {
      t := Go(p, s0, s, WatchSeesContext);
      t := Go(p, s0, t, MonitorCloses);
    } else if s.mon.Waiting? {
      t := Go(p, s0, s, WaitSeesContext);
      t := Go(p, s0, t, MonitorCloses);
    }
  }

  lemma FireOnTime(p: Params, s0: State, s: State) returns (t: State)
    requires Reaches(p, s0, s) && s.ticker.Ticker? && s.ticker.slot.None? && s.ticker.next == s.now && !s.main.Exited?
    ensures Reaches(p, s0, t)
    ensures t == s.(ticker := Ticker(s.ticker.born, s.now + p.interval, Some(Tick(s.now, s.now))))
  {
    t := Go(p, s0, s, TickerFires);
    assert (s.now - s.ticker.next) / p.interval == 0;
  }

  /** Poll returns by itself after one interval. */
  lemma LastInterval(p: Params, s0: State, s: State) returns (t: State)
    requires Reaches(p, s0, s) && Turning(p, s) && s.mon == Waiting(s.now) && s.ctx.Live? && s.born == s.now
    requires p.interval <= Min(p.shutdownGrace, p.pollTimeout)
    ensures Reaches(p, s0, t) && Finishing(p, s, t)
  {
    t := Pass(p, s0, s, s.now + p.interval);
  }

  /** Poll is told to stop and takes until the end of the interval to do so. */
  lemma OutlastCutOff(p: Params, s0: State, s: State) returns (t: State)
    requires Reaches(p, s0, s) && Turning(p, s) && s.mon == Waiting(s.now) && s.ctx.Live? && s.born == s.now
    requires Min(p.shutdownGrace, p.pollTimeout) < p.interval <= LongestPoll(p)
    ensures Reaches(p, s0, t) && Finishing(p, s, t)
  {
    t := Pass(p, s0, s, s.now + Min(p.shutdownGrace, p.pollTimeout));
    t := CutOffNow(p, s0, t);
    t := Pass(p, s0, t, s.now + p.interval);
  }

  /** In poll, with the next tick one interval away and the channel empty. */
  predicate Turning(p: Params, s: State) {
    && ParentDone(p, s)
    && s.main == InPoll(s.now)
    && s.ticker.Ticker? && s.ticker.slot.None? && s.ticker.next == s.now + p.interval
  }

  /** One interval later, the next tick being due. */
  predicate Finishing(p: Params, s: State, t: State) {
    && t.now == s.now + p.interval
    && t.main.InPoll?
    && ((t.ctx.Live? && t.mon.Waiting?) || (t.ctx.Done? && t.mon.Closed?))
    && t.ticker == s.ticker && t.starts == s.starts && t.ticks == s.ticks
  }

  lemma FinishPoll(p: Params, s0: State, s: State, r: State) returns (t: State)
    requires Turning(p, r) && Finishing(p, r, s) && Reaches(p, s0, s)
    ensures Reaches(p, s0, t) && Ready(p, t) && t.starts == s.starts
  {
    t := FireOnTime(p, s0, s);
    t := BackAtSelect(p, s0, t);
  }

  /** Poll lasts exactly one interval, so at its end the next tick is waiting. */
  lemma OneMorePoll(p: Params, s0: State, s: State) returns (t: State)
    requires Reaches(p, s0, s) && Ready(p, s) && p.interval <= LongestPoll(p)
    ensures Reaches(p, s0, t) && Ready(p, t) && t.starts == s.starts + [s.now]
  {
    var r := EnterPoll(p, s0, s, p.interval);
    if p.interval <= Min(p.shutdownGrace, p.pollTimeout) {
      t := LastInterval(p, s0, r);
    } else {
      t := OutlastCutOff(p, s0, r);
    }
    t := FinishPoll(p, s0, t, r);
  }

  /** The first poll returns at once. */
  lemma FirstPoll(p: Params) returns (s: State)
    ensures Reaches(p, Init(0), s) && s.now == 0 && s.main == Recording(0, Outcome(true, 0))
    ensures s.mon.Closed? && s.ctx.Done? && s.ticker.NoTicker? && s.starts == [0]
  {
    Here(p, Init(0));
    s := Go(p, Init(0), Init(0), CreateContext);
    s := Go(p, Init(0), s, PollReturns(true));
    s := Go(p, Init(0), s, MainCancels);
    s := Go(p, Init(0), s, WatchSeesContext);
    s := Go(p, Init(0), s, MonitorCloses);
    s := Go(p, Init(0), s, MainJoins);
  }

  /** The loop is back at its select with a tick delivered, on time, at the end of the interval. */
  lemma FirstTick(p: Params) returns (s: State)
    requires p.shutdown.Some? && p.interval <= p.shutdown.value
    ensures Reaches(p, Init(0), s) && Lagging(p, s, 0) && s.now == p.interval && s.starts == [0]
  {
    var r := FirstPoll(p);
    s := Go(p, Init(0), r, MainRecords);
    s := Go(p, Init(0), s, CreateTicker);
    s := Pass(p, Init(0), s, p.interval);
    s := FireOnTime(p, Init(0), s);
  }

  /** At the select `lag` after the instant of the tick that waits there. */
  predicate Lagging(p: Params, s: State, lag: nat) {
    && s.main.Selecting?
    && s.mon.Closed? && s.ctx.Done?
    && s.ticker.Ticker? && s.ticker.slot.Some? && s.ticker.next == s.now + p.interval - lag
  }

  /** The parent is done just as a tick is delivered. */
  lemma ReachReady(p: Params) returns (s: State)
    requires p.shutdown == Some(p.interval)
    ensures Reaches(p, Init(0), s) && Ready(p, s) && s.starts == [0]
  {
    s := FirstTick(p);
  }

  lemma {:induction false} ManyPolls(p: Params, n: nat) returns (s: State)
    requires p.shutdown == Some(p.interval) && p.interval <= LongestPoll(p)
    ensures Reaches(p, Init(0), s) && Ready(p, s) && StartedSince(s.starts, p.interval) >= n
  {
    if n == 0 {
      s := ReachReady(p);
    } else {
      var r := ManyPolls(p, n - 1);
      s := OneMorePoll(p, Init(0), r);
      assert s.starts[..|s.starts| - 1] == r.starts;
    }
  }

  /** No run enters more than `bound` polls at or after shutdown, whenever shutdown comes. */
  ghost predicate BoundedBy(p: Params, bound: nat) {
    forall shutdown: nat, begin: nat, acts: seq<Action> ::
      var q := p.(shutdown := Some(shutdown));
      Timely(q, Init(begin), acts) ==> StartedSince(Exec(q, Init(begin), acts).starts, shutdown) <= bound
  }

  /** No bound holds: for intervals up to the longest poll, every number of polls is exceeded. */
  lemma Unbounded(p: Params, bound: nat)
    requires p.interval <= LongestPoll(p)
    ensures !BoundedBy(p, bound)
  {
    var q := p.(shutdown := Some(p.interval));
    var s := ManyPolls(q, bound + 1);
    var acts: seq<Action> :| Timely(q, Init(0), acts) && Exec(q, Init(0), acts) == s;
    assert StartedSince(Exec(q, Init(0), acts).starts, p.interval) > bound;
  }

  lemma PollsAfterIsBound(p: Params)
    requires p.interval > Turn(p)
    ensures BoundedBy(p, PollsAfter(p))
  {
    forall shutdown: nat, begin: nat, acts: seq<Action> |
      Timely(p.(shutdown := Some(shutdown)), Init(begin), acts)
      ensures StartedSince(Exec(p.(shutdown := Some(shutdown)), Init(begin), acts).starts, shutdown) <= PollsAfter(p)
    {
      var q := p.(shutdown := Some(shutdown));
      BoundedAfterShutdown(q, begin, acts, Exec(q, Init(begin), acts));
    }
  }

  /** The exact condition. When no step is delayed, the work after shutdown is bounded if and only
      if the interval exceeds the longest poll. */
  lemma BoundedIff(p: Params)
    requires p.latency == 0
    ensures (exists bound: nat :: BoundedBy(p, bound)) <==> p.interval > Min(p.shutdownGrace, p.pollTimeout) + p.work
  {
    if p.interval > LongestPoll(p) {
      PollsAfterIsBound(p);
    } else {
      forall bound: nat ensures !BoundedBy(p, bound) {
        Unbounded(p, bound);
      }
    }
  }

  // ----- the largest number of polls -----

  /** The longest poll has been cut off, and the next tick, due by its end, has been delivered. */
  lemma CutOffAndTick(p: Params, s0: State, s: State, d: nat) returns (t: State)
    requires Reaches(p, s0, s) && s.main.InPoll? && s.ctx.Live? && s.mon == Waiting(s.now) && s.born == s.now
    requires s.ticker.Ticker? && s.ticker.slot.None? && s.ticker.next == s.now + d
    requires d <= LongestPoll(p) < p.interval
    ensures Reaches(p, s0, t) && t.now == s.now + Max(d, Min(p.shutdownGrace, p.pollTimeout))
    ensures t.main == s.main && t.ctx.Done? && t.mon.Closed? && t.starts == s.starts
    ensures t.ctx.at == s.now + Min(p.shutdownGrace, p.pollTimeout)
    ensures t.ticker == Ticker(s.ticker.born, s.now + d + p.interval, Some(Tick(s.now + d, s.now + d)))
  {
    var limit := s.now + Min(p.shutdownGrace, p.pollTimeout);
    if s.now + d <= limit {
      t := Pass(p, s0, s, s.now + d);
      t := FireOnTime(p, s0, t);
      t := Pass(p, s0, t, limit);
      t := CutOffNow(p, s0, t);
    } else {
      t := Pass(p, s0, s, limit);
      t := CutOffNow(p, s0, t);
      t := Pass(p, s0, t, s.now + d);
      t := FireOnTime(p, s0, t);
    }
  }

  /** The longest poll, with the next tick falling into it. */
  lemma LongPoll(p: Params, s0: State, s: State, d: nat) returns (t: State)
    requires Reaches(p, s0, s) && s.main.InPoll? && s.ctx.Live? && s.mon == Waiting(s.now) && s.born == s.now
    requires s.ticker.Ticker? && s.ticker.slot.None? && s.ticker.next == s.now + d
    requires d <= LongestPoll(p) < p.interval
    ensures Reaches(p, s0, t) && t.now == s.now + LongestPoll(p)
    ensures t.main == s.main && t.ctx.Done? && t.mon.Closed? && t.starts == s.starts
    ensures t.ticker == Ticker(s.ticker.born, s.now + d + p.interval, Some(Tick(s.now + d, s.now + d)))
  {
    t := CutOffAndTick(p, s0, s, d);
    t := Pass(p, s0, t, s.now + LongestPoll(p));
  }

  /** One such poll moves the next tick later by the difference. */
  lemma OneLongPoll(p: Params, s0: State, s: State, d: nat) returns (t: State)
    requires Reaches(p, s0, s) && ReadyIn(p, s, d) && d <= LongestPoll(p) < p.interval
    ensures Reaches(p, s0, t) && ReadyIn(p, t, d + (p.interval - LongestPoll(p))) && t.starts == s.starts + [s.now]
  {
    var r := EnterPoll(p, s0, s, d);
    t := LongPoll(p, s0, r, d);
    t := BackAtSelect(p, s0, t);
  }

  lemma {:induction false} LongPolls(p: Params, s0: State, s: State, k: nat) returns (t: State)
    requires Reaches(p, s0, s) && ReadyIn(p, s, 0) && LongestPoll(p) < p.interval
    requires k > 0 ==> (p.interval - LongestPoll(p)) * (k - 1) <= LongestPoll(p)
    ensures Reaches(p, s0, t) && ReadyIn(p, t, (p.interval - LongestPoll(p)) * k)
    ensures StartedSince(t.starts, p.shutdown.value) == StartedSince(s.starts, p.shutdown.value) + k
  {
    var gap := p.interval - LongestPoll(p);
    if k == 0 {
      t := s;
    } else {
      MulMono(gap, k - 2, k - 1);
      var r := LongPolls(p, s0, s, k - 1);
      t := OneLongPoll(p, s0, r, gap * (k - 1));
      Distribute(gap, k - 1, 1);
      assert t.starts[..|t.starts| - 1] == r.starts;
    }
  }

  /** A poll before shutdown, entered just now. */
  predicate Fresh(s: State) {
    && s.main == InPoll(s.now) && s.ctx.Live? && s.born == s.now
    && s.mon == Watching(s.now)
    && s.ticker.Ticker? && s.ticker.slot.None?
  }

  lemma EnterFresh(p: Params, s0: State, s: State, lag: nat) returns (t: State)
    requires Reaches(p, s0, s) && Lagging(p, s, lag)
    ensures Reaches(p, s0, t) && Fresh(t) && t.now == s.now && t.ticker.next == s.ticker.next && t.finished == s.finished
  {
    t := Go(p, s0, s, SelectTick);
    t := Go(p, s0, t, CreateContext);
  }

  lemma DeadlineNow(p: Params, s0: State, s: State) returns (t: State)
    requires Reaches(p, s0, s) && s.ctx.Live? && s.mon.Watching? && s.now == s.born + p.pollTimeout
    ensures Reaches(p, s0, t) && t == s.(ctx := Done(DeadlineExceeded, s.now), mon := Closed(s.now))
  {
    t := Go(p, s0, s, DeadlineFires);
    t := MonitorGoes(p, s0, t);
  }

  /** Poll is still running `d` later, before shutdown, and the tick due by then is delivered. */
  lemma StillRunning(p: Params, s0: State, s: State, d: nat, lasts: nat) returns (t: State)
    requires Reaches(p, s0, s) && Fresh(s) && s.ticker.next == s.now + d
    requires d <= lasts <= d + p.interval && lasts <= p.pollTimeout + p.work
    requires p.shutdown.Some? && s.now + lasts <= p.shutdown.value
    ensures Reaches(p, s0, t) && t.now == s.now + lasts && t.main == s.main
    ensures (t.ctx.Live? && t.mon.Watching?) || (t.ctx.Done? && t.mon.Closed?)
    ensures t.ticker.Ticker? && t.ticker.slot.Some? && t.ticker.next == s.now + d + p.interval
  {
    if lasts <= p.pollTimeout {
      t := Pass(p, s0, s, s.now + d);
      t := FireOnTime(p, s0, t);
    } else if d <= p.pollTimeout {
      t := Pass(p, s0, s, s.now + d);
      t := FireOnTime(p, s0, t);
      t := Pass(p, s0, t, s.now + p.pollTimeout);
      t := DeadlineNow(p, s0, t);
    } else {
      t := Pass(p, s0, s, s.now + p.pollTimeout);
      t := DeadlineNow(p, s0, t);
      t := Pass(p, s0, t, s.now + d);
      t := FireOnTime(p, s0, t);
    }
    t := Pass(p, s0, t, s.now + lasts);
  }

  /** A poll one unit longer than the interval puts the loop one unit further behind its ticks. */
  lemma FallBehind(p: Params, s0: State, s: State, lag: nat) returns (t: State)
    requires Reaches(p, s0, s) && Lagging(p, s, lag) && lag < p.interval < p.pollTimeout + p.work
    requires p.shutdown.Some? && s.now + p.interval + 1 <= p.shutdown.value
    ensures Reaches(p, s0, t) && Lagging(p, t, lag + 1) && t.now == s.now + p.interval + 1
  {
    t := EnterFresh(p, s0, s, lag);
    t := StillRunning(p, s0, t, p.interval - lag, p.interval + 1);
    t := BackAtSelect(p, s0, t);
  }

  /** When that has happened `lag` times. */
  function BehindAt(p: Params, lag: nat): nat {
    p.interval + lag * (p.interval + 1)
  }

  lemma BehindNext(p: Params, lag: nat)
    ensures BehindAt(p, lag + 1) == BehindAt(p, lag) + p.interval + 1
    ensures lag < p.interval ==> BehindAt(p, lag) + p.interval + 1 <= BehindAt(p, p.interval)
  {
    Distribute(p.interval + 1, lag, 1);
    if lag < p.interval {
      MulMono(p.interval + 1, lag + 1, p.interval);
    }
  }

  lemma {:induction false} ReachLagging(p: Params, lag: nat) returns (s: State)
    requires lag <= p.interval < p.pollTimeout + p.work
    requires p.shutdown.Some? && BehindAt(p, p.interval) <= p.shutdown.value
    ensures Reaches(p, Init(0), s) && Lagging(p, s, lag) && s.now == BehindAt(p, lag)
  {
    if lag == 0 {
      MulMono(p.interval + 1, 0, p.interval);
      s := FirstTick(p);
    } else {
      var r := ReachLagging(p, lag - 1);
      BehindNext(p, lag - 1);
      s := FallBehind(p, Init(0), r, lag - 1);
    }
  }

  /** The loop is a whole interval behind; the poll in flight at shutdown lasts one interval more,
      so that one tick waits and the next is due. */
  lemma ReachBacklog(p: Params) returns (s: State)
    requires p.interval < p.pollTimeout + p.work
    requires p.shutdown == Some(BehindAt(p, p.interval) + p.interval)
    ensures Reaches(p, Init(0), s) && ReadyIn(p, s, 0)
  {
    s := ReachLagging(p, p.interval);
    s := EnterFresh(p, Init(0), s, p.interval);
    s := StillRunning(p, Init(0), s, 0, p.interval);
    s := BackAtSelect(p, Init(0), s);
  }

  lemma BacklogCount(p: Params)
    requires p.latency == 0 && p.interval > LongestPoll(p)
    ensures var gap := p.interval - LongestPoll(p);
            PollsAfter(p) == 2 + LongestPoll(p) / gap && gap * (LongestPoll(p) / gap) <= LongestPoll(p)
  {
    var gap := p.interval - LongestPoll(p);
    var k := LongestPoll(p) / gap;
    QuotientBelow(gap, LongestPoll(p));
    Distribute(gap, k, 1);
    Distribute(gap, k + 1, 1);
    QuotientBelow(gap, p.interval);
    QuotientAtLeast(gap, k + 1, p.interval);
    if p.interval / gap > k + 1 {
      MulMono(gap, k + 2, p.interval / gap);
    }
  }

  /** Some run enters exactly `n` polls at or after shutdown. */
  ghost predicate Attained(p: Params, n: nat) {
    exists shutdown: nat, s: State ::
      Reaches(p.(shutdown := Some(shutdown)), Init(0), s) && StartedSince(s.starts, shutdown) == n
  }

  lemma BoundAttained(p: Params)
    requires p.latency == 0 && LongestPoll(p) < p.interval < p.pollTimeout + p.work
    ensures Attained(p, PollsAfter(p))
  {
    var shutdown := BehindAt(p, p.interval) + p.interval;
    var q := p.(shutdown := Some(shutdown));
    var s := AttainBound(q);
    assert Reaches(q, Init(0), s) && StartedSince(s.starts, shutdown) == PollsAfter(p);
  }

  lemma AttainBound(p: Params) returns (s: State)
    requires p.latency == 0 && LongestPoll(p) < p.interval < p.pollTimeout + p.work
    requires p.shutdown == Some(BehindAt(p, p.interval) + p.interval)
    ensures Reaches(p, Init(0), s) && StartedSince(s.starts, p.shutdown.value) == PollsAfter(p)
  {
    var r := ReachBacklog(p);
    var k := 1 + LongestPoll(p) / (p.interval - LongestPoll(p));
    BacklogCount(p);
    var t := LongPolls(p, Init(0), r, k);
    s := Go(p, Init(0), t, SelectTick);
    assert s.starts[..|s.starts| - 1] == t.starts;
    ReachedBound(p, s);
  }

  lemma ReachedBound(p: Params, s: State)
    requires Reaches(p, Init(0), s) && p.shutdown.Some? && p.interval > Turn(p)
    ensures StartedSince(s.starts, p.shutdown.value) <= PollsAfter(p)
  {
    var acts: seq<Action> :| Timely(p, Init(0), acts) && Exec(p, Init(0), acts) == s;
    BoundedAfterShutdown(p, 0, acts, s);
  }

  /** Some run enters a poll after shutdown, whatever the interval. */
  lemma OneAttained(p: Params)
    ensures Attained(p, 1)
  {
    var q := p.(shutdown := Some(p.interval));
    var r := ReachReady(q);
    var s := Go(q, Init(0), r, SelectTick);
    assert s.starts[..1] == r.starts && Last(r.starts) == 0 && StartedSince(r.starts[..0], p.interval) == 0;
    assert StartedSince(r.starts, p.interval) == 0;
    assert Reaches(q, Init(0), s) && StartedSince(s.starts, p.interval) == 1;
  }

  lemma OneIsBound(p: Params)
    requires p.latency == 0 && LongestPoll(p) < p.interval && p.pollTimeout + p.work <= p.interval
    ensures BoundedBy(p, 1)
  {
    forall shutdown: nat, begin: nat, acts: seq<Action> |
      Timely(p.(shutdown := Some(shutdown)), Init(begin), acts)
      ensures StartedSince(Exec(p.(shutdown := Some(shutdown)), Init(begin), acts).starts, shutdown) <= 1
    {
      var q := p.(shutdown := Some(shutdown));
      AtMostOneAfter(q, begin, acts, Exec(q, Init(begin), acts));
    }
  }

  /** The largest number of polls after shutdown. If a poll before shutdown can outlast the interval,
      a loop may be late when shutdown comes, and the bound is what it can still get through; if none
      can, one poll. */
  function MostPolls(p: Params): nat
    requires p.interval > Turn(p)
  {
    if p.interval < p.pollTimeout + p.work then PollsAfter(p) else 1
  }

  /** Without latency, for every interval above the longest poll, that number is exact: no run
      exceeds it and some run reaches it. */
  lemma MostPollsExact(p: Params)
    requires p.latency == 0 && p.interval > LongestPoll(p)
    ensures BoundedBy(p, MostPolls(p)) && Attained(p, MostPolls(p))
  {
    if p.interval < p.pollTimeout + p.work {
      PollsAfterIsBound(p);
      BoundAttained(p);
    } else {
      OneIsBound(p);
      OneAttained(p);
    }
  }
}
