/**
 What every run of the poll runner keeps, whatever the scheduler does: the join with the monitor,
 the earliest instant at which a context may be cut off, the first cause sticking, one poll at a
 time, and the bookkeeping of ticks.
 */
module PollSafety {
  import opened Arithmetic
  import opened PollRunner

  /** The earliest instant at which a poll whose context was created at `born` may be told to stop. */
  function CutOff(p: Params, born: nat): nat {
    if p.shutdown.Some?
      then Min(born + p.pollTimeout, Max(born, p.shutdown.value) + p.shutdownGrace)
      else born + p.pollTimeout
  }

  predicate Active(m: Main) { m.InPoll? || m.Unwinding? || m.Joining? }

  /** How the two goroutines and the context move together. */
  predicate Joined(s: State) {
    && s.born <= s.now
    && (s.main.Starting? ==> s.ctx.Absent? && (s.mon.Idle? || s.mon.Closed?))
    && (Active(s.main) ==> !s.ctx.Absent? && !s.mon.Idle?)
    && (s.main.InPoll? ==> s.main.start == s.born)
    && (s.main.Joining? ==> s.ctx.Done?)
    && (s.ctx.Live? ==> (s.main.InPoll? || s.main.Unwinding?))
    && (s.ctx.Live? ==> !s.mon.Closing? && !s.mon.Closed?)
    && (!s.main.Starting? && !Active(s.main) ==> s.mon.Closed? && s.ctx.Done?)
  }

  /** Where a cancellation can have come from before poll itself calls cancel(), and a return of
      loop. */
  predicate CutOffKept(p: Params, s: State) {
    && (s.main.Exited? ==> p.shutdown.Some? && p.shutdown.value <= s.now)
    && ((s.mon.Arming? || s.mon.Waiting? || s.mon.Firing?) ==> p.shutdown.Some? && Max(s.born, p.shutdown.value) <= s.now)
    && (s.mon.Waiting? ==> Max(s.born, p.shutdown.value) <= s.mon.since)
    && (s.mon.Firing? ==> Max(s.born, p.shutdown.value) + p.shutdownGrace <= s.now)
    && (s.ctx.Done? ==> s.ctx.at <= s.now)
    && (s.ctx.Done? && (s.main.InPoll? || s.main.Unwinding?) ==>
          if s.ctx.cause.DeadlineExceeded? then s.born + p.pollTimeout <= s.ctx.at
          else p.shutdown.Some? && Max(s.born, p.shutdown.value) + p.shutdownGrace <= s.ctx.at)
  }

  function Pending(t: Ticker): nat {
    if t.Ticker? && t.slot.Some? then 1 else 0
  }

  /** Grid instants accounted for, the one to come included. */
  function GridCount(s: State): nat {
    1 + |s.ticks| + Pending(s.ticker) + s.lost
  }

  /** How far the loop is with its polls and its ticker. */
  predicate Counted(p: Params, s: State) {
    && |s.starts| == |s.ticks| + 1
    && Last(s.starts) <= s.now
    && |s.finished| == |s.starts| - (if s.main.Starting? || Active(s.main) || s.main.Recording? then 1 else 0)
    && (s.ticker.NoTicker? ==> |s.starts| == 1 && s.lost == 0 && !s.main.Selecting? && !s.main.Exited?)
    && (s.main.MakingTicker? ==> s.ticker.NoTicker?)
    && (s.ticker.Ticker? ==> s.ticker.born <= s.now && s.ticker.next <= s.now + p.interval)
    && (s.ticker.Ticker? && s.ticker.slot.Some? ==>
          s.ticker.slot.value.grid <= s.now && s.ticker.slot.value.grid + p.interval <= s.ticker.next)
  }

  /** Every tick of the grid is consumed, in the channel, or lost. */
  predicate Balanced(p: Params, s: State) {
    s.ticker.Ticker? ==>
      s.ticker.next == s.ticker.born + p.interval * GridCount(s)
  }

  /** Poll i + 1 was entered no earlier than the grid instant of the tick it consumed. */
  predicate Consumed(starts: seq<nat>, ticks: seq<nat>) {
    forall i, j :: 0 <= i < |ticks| && j == i + 1 < |starts| ==> ticks[i] <= starts[j]
  }

  /** Each entry is at least `interval` after the one before. */
  predicate Apart(xs: seq<nat>, interval: nat) {
    forall i, j :: 0 <= i && j == i + 1 < |xs| ==> xs[i] + interval <= xs[j]
  }

  /** Consumed ticks are at least one interval apart, and none was consumed before its instant. */
  predicate Spaced(p: Params, s: State) {
    && |s.starts| == |s.ticks| + 1
    && Consumed(s.starts, s.ticks)
    && Apart(s.ticks, p.interval)
    && (s.ticker.Ticker? && |s.ticks| > 0 ==>
          Last(s.ticks) + p.interval <= (if s.ticker.slot.Some? then s.ticker.slot.value.grid else s.ticker.next))
  }

  /** One poll at a time: each is recorded before the next is entered. */
  predicate Sequential(s: State) {
    && |s.starts| > 0
    && InOrder(s.starts, s.finished, s.now)
    && (s.main.InPoll? ==> Last(s.starts) <= s.main.start <= s.now)
    && (s.main.Unwinding? || s.main.Joining? || s.main.Recording? ==>
          0 <= s.main.outcome.elapsed <= s.now - Last(s.starts))
  }

  predicate InOrder(starts: seq<nat>, finished: seq<Finished>, now: nat) {
    && |finished| <= |starts|
    && (forall i :: 0 <= i < |starts| ==> starts[i] <= now)
    && (forall i, j :: 0 <= i < j < |starts| ==> starts[i] <= starts[j])
    && (forall i :: 0 <= i < |finished| ==> finished[i].at <= now)
    && (forall i :: 0 <= i < |finished| ==> 0 <= finished[i].elapsed <= finished[i].at - starts[i])
    && (forall i, j :: 0 <= i < |finished| && i < j < |starts| ==> finished[i].at <= starts[j])
  }

  lemma RecordInOrder(starts: seq<nat>, finished: seq<Finished>, now: nat, f: Finished)
    requires InOrder(starts, finished, now) && |finished| + 1 == |starts|
    requires f.at == now && 0 <= f.elapsed <= now - Last(starts)
    ensures InOrder(starts, finished + [f], now)
  {
    var all := finished + [f];
    forall i | 0 <= i < |all| ensures all[i].at <= now && 0 <= all[i].elapsed <= all[i].at - starts[i] {
      if i < |finished| { assert all[i] == finished[i]; }
    }
  }

  lemma EnterInOrder(starts: seq<nat>, finished: seq<Finished>, now: nat)
    requires InOrder(starts, finished, now)
    ensures InOrder(starts + [now], finished, now)
  {
    var all := starts + [now];
    forall i | 0 <= i < |all| ensures all[i] <= now {
      if i < |starts| { assert all[i] == starts[i]; }
    }
  }

  predicate Safe(p: Params, s: State) {
    Joined(s) && CutOffKept(p, s) && Counted(p, s) && Balanced(p, s) && Spaced(p, s) && Sequential(s)
  }

  lemma JoinedStep(p: Params, s: State, a: Action)
    requires Joined(s) && Enabled(p, s, a)
    ensures Joined(Do(p, s, a))
  {
  }

  lemma CutOffStep(p: Params, s: State, a: Action)
    requires Joined(s) && CutOffKept(p, s) && Enabled(p, s, a)
    ensures CutOffKept(p, Do(p, s, a))
  {
  }

  lemma CountedFire(p: Params, s: State)
    requires Counted(p, s) && Enabled(p, s, TickerFires)
    ensures Counted(p, Do(p, s, TickerFires))
  {
    var late := (s.now - s.ticker.next) / p.interval;
    QuotientBelow(p.interval, s.now - s.ticker.next);
    MulMono(p.interval, 1, late + 1);
    Distribute(p.interval, late, 1);
    assert Do(p, s, TickerFires).ticker.next >= s.ticker.next + p.interval;
  }

  lemma CountedStep(p: Params, s: State, a: Action)
    requires Joined(s) && Counted(p, s) && Enabled(p, s, a)
    ensures Counted(p, Do(p, s, a))
  {
    if a.TickerFires? {
      CountedFire(p, s);
    }
  }

  lemma BalancedStep(p: Params, s: State, a: Action)
    requires Joined(s) && Counted(p, s) && Balanced(p, s) && Enabled(p, s, a)
    ensures Balanced(p, Do(p, s, a))
  {
    var t := Do(p, s, a);
    if a.TickerFires? {
      var late := (s.now - s.ticker.next) / p.interval;
      Distribute(p.interval, GridCount(s), late + 1);
      assert GridCount(t) == GridCount(s) + (late + 1);
    } else if !a.CreateTicker? {
      assert GridCount(t) == GridCount(s);
    }
  }

  lemma AppendSpaced(starts: seq<nat>, ticks: seq<nat>, interval: nat, start: nat, tick: nat)
    requires |starts| == |ticks| + 1 && Consumed(starts, ticks) && Apart(ticks, interval) && tick <= start
    requires |ticks| > 0 ==> Last(ticks) + interval <= tick
    ensures Consumed(starts + [start], ticks + [tick]) && Apart(ticks + [tick], interval)
  {
  }

  lemma SpacedFire(p: Params, s: State)
    requires Counted(p, s) && Spaced(p, s) && Enabled(p, s, TickerFires)
    ensures Spaced(p, Do(p, s, TickerFires))
  {
    var t := Do(p, s, TickerFires);
    assert t.starts == s.starts && t.ticks == s.ticks;
    MulMono(p.interval, 1, (s.now - s.ticker.next) / p.interval + 1);
  }

  lemma SpacedStep(p: Params, s: State, a: Action)
    requires Counted(p, s) && Spaced(p, s) && Enabled(p, s, a)
    ensures Spaced(p, Do(p, s, a))
  {
    if a.SelectTick? {
      AppendSpaced(s.starts, s.ticks, p.interval, s.now, s.ticker.slot.value.grid);
    } else if a.TickerFires? {
      SpacedFire(p, s);
    } else {
      var t := Do(p, s, a);
      assert t.starts == s.starts && t.ticks == s.ticks;
    }
  }

  lemma RecordStep(p: Params, s: State)
    requires Counted(p, s) && Sequential(s) && Enabled(p, s, MainRecords)
    ensures Sequential(Do(p, s, MainRecords))
  {
    var o := s.main.outcome;
    RecordInOrder(s.starts, s.finished, s.now, Finished(o.ok, o.elapsed, s.now));
  }

  lemma EnterStep(p: Params, s: State)
    requires Joined(s) && Counted(p, s) && Sequential(s) && Enabled(p, s, SelectTick)
    ensures Sequential(Do(p, s, SelectTick))
  {
    EnterInOrder(s.starts, s.finished, s.now);
  }

  lemma SequentialStep(p: Params, s: State, a: Action)
    requires Joined(s) && Counted(p, s) && Sequential(s) && Enabled(p, s, a)
    ensures Sequential(Do(p, s, a))
  {
    if a.MainRecords? {
      RecordStep(p, s);
    } else if a.SelectTick? {
      EnterStep(p, s);
    } else {
      OtherStep(p, s, a);
    }
  }

  lemma OtherStep(p: Params, s: State, a: Action)
    requires Joined(s) && Sequential(s) && Enabled(p, s, a) && !a.MainRecords? && !a.SelectTick?
    ensures Sequential(Do(p, s, a))
  {
    var t := Do(p, s, a);
    assert t.starts == s.starts && t.finished == s.finished && s.now <= t.now;
  }

  lemma SafeStep(p: Params, s: State, a: Action)
    requires Safe(p, s) && Enabled(p, s, a)
    ensures Safe(p, Do(p, s, a))
  {
    JoinedStep(p, s, a);
    CutOffStep(p, s, a);
    CountedStep(p, s, a);
    BalancedStep(p, s, a);
    SpacedStep(p, s, a);
    SequentialStep(p, s, a);
  }

  lemma {:induction false} AlwaysSafe(p: Params, s: State, acts: seq<Action>)
    requires Safe(p, s) && Legal(p, s, acts)
    ensures Safe(p, Exec(p, s, acts))
    decreases |acts|
  {
    if |acts| > 0 {
      SafeStep(p, s, acts[0]);
      AlwaysSafe(p, Do(p, s, acts[0]), acts[1..]);
    }
  }

  /** While Poll runs, its context is never done before the cut-off instant, in any interleaving;
      a deadline is recorded only once the timeout is over, a cancellation only once the grace
      after shutdown is. */
  lemma NeverCutOffEarly(p: Params, begin: nat, acts: seq<Action>, s: State)
    requires Legal(p, Init(begin), acts) && s == Exec(p, Init(begin), acts)
    requires s.main.InPoll? && s.ctx.Done?
    ensures s.ctx.at <= s.now
    ensures (if p.shutdown.Some?
               then Min(s.main.start + p.pollTimeout, Max(s.main.start, p.shutdown.value) + p.shutdownGrace)
               else s.main.start + p.pollTimeout) <= s.ctx.at
    ensures s.ctx.cause.DeadlineExceeded? ==> s.main.start + p.pollTimeout <= s.ctx.at
    ensures s.ctx.cause.Canceled? ==>
              p.shutdown.Some? && Max(s.main.start, p.shutdown.value) + p.shutdownGrace <= s.ctx.at
  {
    AlwaysSafe(p, Init(begin), acts);
  }

  /** Once the context of a poll is done, its cause and instant stay what they are for as long as
      that poll lasts. */
  lemma {:induction false} FirstCauseSticks(p: Params, s: State, acts: seq<Action>)
    requires Safe(p, s) && Legal(p, s, acts) && s.ctx.Done?
    ensures var t := Exec(p, s, acts);
            |s.starts| <= |t.starts| && (|s.starts| == |t.starts| ==> t.ctx == s.ctx)
    decreases |acts|
  {
    if |acts| > 0 {
      var t := Do(p, s, acts[0]);
      SafeStep(p, s, acts[0]);
      if t.ctx.Done? {
        FirstCauseSticks(p, t, acts[1..]);
      } else {
        StartsGrow(p, t, acts[1..]);
      }
    }
  }

  lemma {:induction false} StartsGrow(p: Params, s: State, acts: seq<Action>)
    requires Legal(p, s, acts)
    ensures s.starts <= Exec(p, s, acts).starts
    decreases |acts|
  {
    if |acts| > 0 {
      StartsGrow(p, Do(p, s, acts[0]), acts[1..]);
    }
  }

  /** poll does not record, return to loop, or let loop return before its monitor has closed
      monitorDone; loop does not return before shutdown; and polls of one domain never overlap: the next one is entered only after the
      previous one has been recorded. */
  lemma JoinedAndSequential(p: Params, begin: nat, acts: seq<Action>, s: State)
    requires Legal(p, Init(begin), acts) && s == Exec(p, Init(begin), acts)
    ensures s.main.Recording? || s.main.MakingTicker? || s.main.Selecting? || s.main.Exited? ==>
              s.mon.Closed? && s.ctx.Done?
    ensures s.main.Exited? ==> p.shutdown.Some? && p.shutdown.value <= s.now
    ensures |s.starts| - 1 <= |s.finished| <= |s.starts|
    ensures forall i :: 0 <= i < |s.finished| ==> 0 <= s.finished[i].elapsed <= s.finished[i].at - s.starts[i]
    ensures forall i, j :: 0 <= i < |s.finished| && i < j < |s.starts| ==> s.finished[i].at <= s.starts[j]
  {
    AlwaysSafe(p, Init(begin), acts);
  }

  /** A tick in the channel stays there until the loop takes it: later ones are dropped, none
      replaces it. */
  lemma {:induction false} WaitingTickStays(p: Params, s: State, acts: seq<Action>)
    requires Legal(p, s, acts) && s.ticker.Ticker? && s.ticker.slot.Some? && !s.main.MakingTicker?
    ensures var t := Exec(p, s, acts);
            s.ticks <= t.ticks && (|s.ticks| == |t.ticks| ==> t.ticker.Ticker? && t.ticker.slot == s.ticker.slot)
    decreases |acts|
  {
    if |acts| > 0 {
      var t := Do(p, s, acts[0]);
      if acts[0].SelectTick? {
        TicksGrow(p, t, acts[1..]);
      } else {
        WaitingTickStays(p, t, acts[1..]);
      }
    }
  }

  lemma {:induction false} TicksGrow(p: Params, s: State, acts: seq<Action>)
    requires Legal(p, s, acts)
    ensures s.ticks <= Exec(p, s, acts).ticks
    decreases |acts|
  {
    if |acts| > 0 {
      TicksGrow(p, Do(p, s, acts[0]), acts[1..]);
    }
  }

  /** Conservation of ticks: the grid instants that have passed are exactly the ticks consumed,
      the one waiting in the channel and those lost. */
  lemma TicksConserved(p: Params, begin: nat, acts: seq<Action>, s: State)
    requires Legal(p, Init(begin), acts) && s == Exec(p, Init(begin), acts)
    requires s.ticker.Ticker?
    ensures (s.ticker.next - s.ticker.born) / p.interval - 1 == |s.ticks| + Pending(s.ticker) + s.lost
  {
    AlwaysSafe(p, Init(begin), acts);
    ExactQuotient(p.interval, GridCount(s));
  }

  /** The rate bound: beyond the immediate poll, at most one per interval since the ticker exists,
      however long polls take. A dropped tick is never made up for: each loss lowers the bound. */
  lemma RateBound(p: Params, begin: nat, acts: seq<Action>, s: State)
    requires Legal(p, Init(begin), acts) && s == Exec(p, Init(begin), acts)
    ensures if s.ticker.NoTicker? then |s.starts| == 1
            else |s.starts| + Pending(s.ticker) + s.lost <= 1 + (s.now - s.ticker.born) / p.interval
  {
    AlwaysSafe(p, Init(begin), acts);
    if s.ticker.Ticker? {
      var taken := GridCount(s) - 1;
      Distribute(p.interval, 1, taken);
      QuotientAtLeast(p.interval, taken, s.now - s.ticker.born);
    }
  }
}
