/**
 What runs under bounded scheduling latency achieve: an in-flight poll is cut off on time, no
 state is stuck, and after shutdown the loop returns by an explicit instant after a bounded
 number of further polls, whatever select chooses.
 */
module PollTiming {
  import opened Arithmetic
  import opened PollRunner
  import opened PollSafety

  /** The latest instant at which the context of a poll created at `born` is still live. Four
      steps lie on the monitor's path: see the parent, arm the timer, see the timer, cancel. */
  function CutOffBy(p: Params, born: nat): nat {
    var deadline := born + p.pollTimeout + p.latency;
    if p.shutdown.Some?
      then Min(deadline, Max(born, p.shutdown.value) + p.shutdownGrace + 4 * p.latency)
      else deadline
  }

  /** How long one turn of the loop takes at most once the parent is done, from entering poll to
      leaving the select after it: 14 scheduling steps beside the waiting itself. */
  function Turn(p: Params): nat {
    Min(p.shutdownGrace, p.pollTimeout) + p.work + 14 * p.latency
  }

  /** Where the monitor can be before the context is done. */
  predicate MonitorWhileLive(p: Params, s: State) {
    && (s.mon.Watching? && s.ctx.Live? ==> s.mon.since == s.born)
    && (s.ctx.Live? && p.shutdown.Some? ==>
          var base := Max(s.born, p.shutdown.value);
          && (s.mon.Arming? ==> s.mon.since <= base + p.latency)
          && (s.mon.Waiting? ==> s.mon.since <= base + 2 * p.latency)
          && (s.mon.Firing? ==> s.mon.since <= base + p.shutdownGrace + 3 * p.latency))
  }

  /** How soon after it the monitor closes. */
  predicate MonitorOnceDone(p: Params, s: State) {
    s.ctx.Done? ==>
      && (s.mon.Watching? ==> s.mon.since <= s.ctx.at)
      && (s.mon.Arming? ==> s.mon.since <= s.ctx.at + p.latency)
      && (s.mon.Waiting? ==> s.mon.since <= s.ctx.at + 2 * p.latency)
      && (s.mon.Firing? ==> s.mon.since <= s.ctx.at + 3 * p.latency)
      && (s.mon.Closing? ==> s.mon.since <= s.ctx.at + 4 * p.latency)
      && (s.mon.Closed? ==> s.mon.at <= s.ctx.at + 5 * p.latency)
  }

  predicate MonitorOnTime(p: Params, s: State) {
    MonitorWhileLive(p, s) && MonitorOnceDone(p, s)
  }

  predicate ContextOnTime(p: Params, s: State) {
    && |s.starts| > 0
    && (!s.ctx.Absent? ==> s.born <= Last(s.starts) + p.latency)
    && (s.ctx.Done? ==> s.ctx.at <= CutOffBy(p, s.born))
  }

  predicate LoopOnTime(p: Params, s: State) {
    var cut := CutOffBy(p, s.born);
    |s.starts| > 0 &&
    match s.main
    case Starting(x) => x == Last(s.starts)
    case InPoll(x) => true
    case Unwinding(x, _) => x <= cut + p.work
    case Joining(x, _) => x <= cut + p.work + p.latency
    case Recording(x, _) => x <= cut + p.work + 6 * p.latency
    case MakingTicker(x) => x <= cut + p.work + 7 * p.latency
    case Selecting(x) => x <= cut + p.work + 8 * p.latency
    case Exited => p.shutdown.Some? && s.now <= Max(Last(s.starts), p.shutdown.value) + Turn(p)
  }

  predicate MainOnTime(p: Params, s: State) {
    ContextOnTime(p, s) && LoopOnTime(p, s)
  }

  /** From `from` on, each entry is at most `turn` after the one before. */
  predicate Close(xs: seq<nat>, from: nat, turn: nat) {
    forall i, j :: 0 <= i && j == i + 1 < |xs| ==> xs[j] <= Max(xs[i], from) + turn
  }

  /** The tick poll i + 1 consumed was not due long before poll i was entered. */
  predicate Prompt(starts: seq<nat>, ticks: seq<nat>, latency: nat) {
    |ticks| <= |starts| && forall i :: 0 <= i < |ticks| ==> starts[i] <= ticks[i] + latency
  }

  /** A turn that ends after shutdown is short, and a consumed tick was not long overdue. */
  predicate TurnsOnTime(p: Params, s: State) {
    && |s.starts| == |s.ticks| + 1
    && (p.shutdown.Some? ==> Close(s.starts, p.shutdown.value, Turn(p)))
    && Prompt(s.starts, s.ticks, p.latency)
    && (s.ticker.Ticker? && s.ticker.slot.Some? ==> Last(s.starts) <= s.ticker.slot.value.grid + p.latency)
  }

  predicate OnTime(p: Params, s: State) {
    && Safe(p, s)
    && MayReach(p, s, s.now)
    && MonitorOnTime(p, s)
    && MainOnTime(p, s)
    && TurnsOnTime(p, s)
  }

  lemma MainClock(p: Params, s: State, a: Action)
    requires Safe(p, s) && MayReach(p, s, s.now) && Enabled(p, s, a) && Punctual(p, s, a)
    ensures MainMayWait(p, Do(p, s, a), Do(p, s, a).now)
  {
  }

  lemma MonitorClock(p: Params, s: State, a: Action)
    requires Safe(p, s) && MayReach(p, s, s.now) && Enabled(p, s, a) && Punctual(p, s, a)
    ensures MonitorMayWait(p, Do(p, s, a), Do(p, s, a).now)
  {
  }

  lemma TickerClock(p: Params, s: State)
    requires Safe(p, s) && MayReach(p, s, s.now) && Enabled(p, s, TickerFires)
    ensures s.now <= Do(p, s, TickerFires).ticker.next
  {
    QuotientBelow(p.interval, s.now - s.ticker.next);
  }

  lemma ClockStep(p: Params, s: State, a: Action)
    requires Safe(p, s) && MayReach(p, s, s.now) && Enabled(p, s, a) && Punctual(p, s, a)
    ensures MayReach(p, Do(p, s, a), Do(p, s, a).now)
  {
    MainClock(p, s, a);
    MonitorClock(p, s, a);
    if a.TickerFires? {
      TickerClock(p, s);
    }
  }

  lemma MonitorLiveStep(p: Params, s: State, a: Action)
    requires Joined(s) && CutOffKept(p, s) && MayReach(p, s, s.now) && MonitorOnTime(p, s)
    requires Enabled(p, s, a) && Punctual(p, s, a)
    ensures MonitorWhileLive(p, Do(p, s, a))
  {
  }

  /** The context becomes done. */
  predicate Cancels(a: Action) {
    a.DeadlineFires? || a.MainCancels? || a.MonitorCancels?
  }

  lemma MonitorCancelStep(p: Params, s: State, a: Action)
    requires Joined(s) && CutOffKept(p, s) && MayReach(p, s, s.now) && MonitorOnTime(p, s)
    requires Enabled(p, s, a) && Cancels(a)
    ensures MonitorOnceDone(p, Do(p, s, a))
  {
  }

  lemma MonitorDoneStep(p: Params, s: State, a: Action)
    requires Joined(s) && MayReach(p, s, s.now) && MonitorOnceDone(p, s)
    requires Enabled(p, s, a) && !Cancels(a)
    ensures MonitorOnceDone(p, Do(p, s, a))
  {
  }

  lemma MonitorStep(p: Params, s: State, a: Action)
    requires Safe(p, s) && MayReach(p, s, s.now) && MonitorOnTime(p, s)
    requires Enabled(p, s, a) && Punctual(p, s, a)
    ensures MonitorOnTime(p, Do(p, s, a))
  {
    MonitorLiveStep(p, s, a);
    if Cancels(a) {
      MonitorCancelStep(p, s, a);
    } else {
      MonitorDoneStep(p, s, a);
    }
  }

  lemma LiveUntil(p: Params, s: State)
    requires Joined(s) && MayReach(p, s, s.now) && MonitorOnTime(p, s) && s.ctx.Live?
    ensures s.now <= CutOffBy(p, s.born)
  {
  }

  predicate Placed(p: Params, s: State) {
    Joined(s) && CutOffKept(p, s) && Counted(p, s) && MayReach(p, s, s.now) && MonitorOnTime(p, s) && MainOnTime(p, s)
  }

  /** The cut-off of a poll entered before or after shutdown, measured from the later of the two. */
  lemma CutOffByTurn(p: Params, s: State)
    requires Placed(p, s) && p.shutdown.Some? && !s.ctx.Absent?
    ensures CutOffBy(p, s.born) + p.work + 9 * p.latency <= Max(Last(s.starts), p.shutdown.value) + Turn(p)
  {
  }

  /** Once a poll has its context, the loop is soon done with it. */
  lemma SoonAfterCutOff(p: Params, s: State)
    requires Placed(p, s) && p.shutdown.Some? && !s.main.Starting? && !s.main.Exited?
    ensures s.now <= Max(CutOffBy(p, s.born) + p.work + 8 * p.latency, p.shutdown.value) + p.latency
  {
    if s.ctx.Live? {
      LiveUntil(p, s);
    }
  }

  /** Whatever the loop is doing, the clock is within one turn of its latest poll or of shutdown. */
  lemma WithinTurn(p: Params, s: State)
    requires Placed(p, s) && p.shutdown.Some?
    ensures s.now <= Max(Last(s.starts), p.shutdown.value) + Turn(p)
  {
    if !s.main.Starting? && !s.main.Exited? {
      SoonAfterCutOff(p, s);
      CutOffByTurn(p, s);
    }
  }

  lemma ContextStep(p: Params, s: State, a: Action)
    requires Placed(p, s) && Enabled(p, s, a)
    ensures ContextOnTime(p, Do(p, s, a))
  {
    if s.ctx.Live? {
      LiveUntil(p, s);
    }
  }

  lemma ReturnStep(p: Params, s: State, a: Action)
    requires Placed(p, s) && Enabled(p, s, a) && (a.PollReturns? || a.MainCancels?)
    ensures LoopOnTime(p, Do(p, s, a))
  {
    if s.ctx.Live? {
      LiveUntil(p, s);
    }
  }

  lemma JoinStep(p: Params, s: State, a: Action)
    requires Placed(p, s) && Enabled(p, s, a) && (a.MainJoins? || a.MainRecords? || a.CreateTicker?)
    ensures LoopOnTime(p, Do(p, s, a))
  {
  }

  lemma LoopStep(p: Params, s: State, a: Action)
    requires Placed(p, s) && Enabled(p, s, a) && Punctual(p, s, a)
    ensures LoopOnTime(p, Do(p, s, a))
  {
    if a.PollReturns? || a.MainCancels? {
      ReturnStep(p, s, a);
    } else if a.MainJoins? || a.MainRecords? || a.CreateTicker? {
      JoinStep(p, s, a);
    } else if a.SelectShutdown? {
      WithinTurn(p, s);
    }
  }

  lemma MainStep(p: Params, s: State, a: Action)
    requires Placed(p, s) && Enabled(p, s, a) && Punctual(p, s, a)
    ensures MainOnTime(p, Do(p, s, a))
  {
    ContextStep(p, s, a);
    LoopStep(p, s, a);
  }

  /** What TurnsOnTime says is about the starts, the ticks and the ticker alone. */
  lemma TurnsSelect(p: Params, s: State)
    requires Placed(p, s) && TurnsOnTime(p, s) && Enabled(p, s, SelectTick)
    ensures TurnsOnTime(p, Do(p, s, SelectTick))
  {
    if p.shutdown.Some? {
      WithinTurn(p, s);
    }
  }

  lemma TurnsStep(p: Params, s: State, a: Action)
    requires Placed(p, s) && TurnsOnTime(p, s) && Enabled(p, s, a) && Punctual(p, s, a)
    ensures TurnsOnTime(p, Do(p, s, a))
  {
    if a.SelectTick? {
      TurnsSelect(p, s);
    } else {
      assert Do(p, s, a).starts == s.starts && Do(p, s, a).ticks == s.ticks;
    }
  }

  lemma OnTimeStep(p: Params, s: State, a: Action)
    requires OnTime(p, s) && Enabled(p, s, a) && Punctual(p, s, a)
    ensures OnTime(p, Do(p, s, a))
  {
    SafeStep(p, s, a);
    ClockStep(p, s, a);
    MonitorStep(p, s, a);
    MainStep(p, s, a);
    TurnsStep(p, s, a);
  }

  lemma {:induction false} AlwaysOnTime(p: Params, s: State, acts: seq<Action>)
    requires OnTime(p, s) && Timely(p, s, acts)
    ensures OnTime(p, Exec(p, s, acts))
    decreases |acts|
  {
    if |acts| > 0 {
      OnTimeStep(p, s, acts[0]);
      AlwaysOnTime(p, Do(p, s, acts[0]), acts[1..]);
    }
  }

  lemma ReachedOnTime(p: Params, begin: nat, acts: seq<Action>, s: State)
    requires Timely(p, Init(begin), acts) && s == Exec(p, Init(begin), acts)
    ensures OnTime(p, s)
  {
    AlwaysOnTime(p, Init(begin), acts);
  }

  /** With no latency at all the cut-off instant is met exactly. */
  lemma CutOffExact(p: Params, s: State)
    requires Joined(s) && CutOffKept(p, s) && ContextOnTime(p, s)
    requires p.latency == 0 && s.main.InPoll? && s.ctx.Done?
    ensures s.ctx.at == CutOff(p, s.main.start)
  {
  }

  lemma PollOver(p: Params, s: State)
    requires Joined(s) && MayReach(p, s, s.now) && MonitorOnTime(p, s) && ContextOnTime(p, s) && s.main.InPoll?
    ensures s.now <= CutOffBy(p, s.born) + p.work
  {
    if s.ctx.Live? {
      LiveUntil(p, s);
    }
  }

  /** Under bounded latency the context is done by CutOffBy; with no latency at all a poll still
      running has been cut off at the cut-off instant exactly. */
  lemma CutOffOnTime(p: Params, begin: nat, acts: seq<Action>, s: State)
    requires Timely(p, Init(begin), acts) && s == Exec(p, Init(begin), acts)
    ensures var limit := if p.shutdown.Some?
                        then Min(s.born + p.pollTimeout + p.latency,
                                 Max(s.born, p.shutdown.value) + p.shutdownGrace + 4 * p.latency)
                        else s.born + p.pollTimeout + p.latency;
            && (s.ctx.Live? ==> s.now <= limit)
            && (s.ctx.Done? ==> s.ctx.at <= limit)
            && (s.main.InPoll? ==> s.now <= limit + p.work)
    ensures p.latency == 0 && s.main.InPoll? && s.ctx.Done? ==>
              s.ctx.at == if p.shutdown.Some?
                            then Min(s.main.start + p.pollTimeout, Max(s.main.start, p.shutdown.value) + p.shutdownGrace)
                            else s.main.start + p.pollTimeout
  {
    ReachedOnTime(p, begin, acts, s);
    if s.ctx.Live? {
      LiveUntil(p, s);
    }
    if s.main.InPoll? {
      PollOver(p, s);
    }
    if p.latency == 0 && s.main.InPoll? && s.ctx.Done? {
      CutOffExact(p, s);
    }
  }

  // ----- polls started after shutdown -----

  /** How many of the polls were entered at or after `from`. */
  function StartedSince(starts: seq<nat>, from: nat): nat {
    if |starts| == 0 then 0
    else StartedSince(starts[..|starts| - 1], from) + (if Last(starts) >= from then 1 else 0)
  }

  predicate Sorted(xs: seq<nat>) {
    forall i, j :: 0 <= i < j < |xs| ==> xs[i] <= xs[j]
  }

  lemma {:induction false} StartedSinceIsSuffix(starts: seq<nat>, from: nat)
    requires Sorted(starts)
    ensures var n := StartedSince(starts, from);
            && n <= |starts|
            && (n > 0 ==> starts[|starts| - n] >= from)
            && (n < |starts| ==> starts[|starts| - n - 1] < from)
    decreases |starts|
  {
    if |starts| > 0 {
      StartedSinceIsSuffix(starts[..|starts| - 1], from);
    }
  }

  lemma {:induction false} TicksApart(ticks: seq<nat>, interval: nat, i: nat, j: nat)
    requires i <= j < |ticks|
    requires Apart(ticks, interval)
    ensures ticks[i] + interval * (j - i) <= ticks[j]
    decreases j
  {
    if i < j {
      TicksApart(ticks, interval, i, j - 1);
      Distribute(interval, j - 1 - i, 1);
    }
  }

  lemma {:induction false} StartsClose(starts: seq<nat>, from: nat, turn: nat, i: nat, j: nat)
    requires i <= j < |starts|
    requires Close(starts, from, turn)
    ensures starts[j] <= Max(starts[i], from) + turn * (j - i)
    decreases j
  {
    if i < j {
      StartsClose(starts, from, turn, i, j - 1);
      Distribute(turn, j - 1 - i, 1);
    }
  }

  /** The bound on polls entered after shutdown. */
  function PollsAfter(p: Params): nat
    requires p.interval > Turn(p)
  {
    1 + (p.interval + p.latency) / (p.interval - Turn(p))
  }

  /** n polls in a row from poll m on, all after shutdown: n - 1 ticks fit into n - 1 turns. */
  lemma PollsInARow(starts: seq<nat>, ticks: seq<nat>, from: nat, interval: nat, turn: nat, latency: nat, n: nat)
    requires |starts| == |ticks| + 1 && 2 <= n <= |starts| && from <= starts[|starts| - n]
    requires Apart(ticks, interval)
    requires Close(starts, from, turn)
    requires Consumed(starts, ticks) && Prompt(starts, ticks, latency)
    ensures interval * (n - 2) <= turn * (n - 1) + latency
  {
    var m := |starts| - n;
    TicksApart(ticks, interval, m, |ticks| - 1);
    StartsClose(starts, from, turn, m, |starts| - 1);
  }

  lemma AtMostTurns(interval: nat, turn: nat, latency: nat, n: nat)
    requires interval > turn && n >= 1 && interval * (n - 2) <= turn * (n - 1) + latency
    ensures n <= 1 + (interval + latency) / (interval - turn)
  {
    Distribute(interval, n - 2, 1);
    Distribute(n - 1, interval, 0 - turn);
    QuotientAtLeast(interval - turn, n - 1, interval + latency);
  }

  lemma FewStarts(starts: seq<nat>, ticks: seq<nat>, from: nat, interval: nat, turn: nat, latency: nat)
    requires |starts| == |ticks| + 1 && Sorted(starts) && interval > turn
    requires Apart(ticks, interval) && Close(starts, from, turn)
    requires Consumed(starts, ticks) && Prompt(starts, ticks, latency)
    ensures StartedSince(starts, from) <= 1 + (interval + latency) / (interval - turn)
  {
    var n := StartedSince(starts, from);
    StartedSinceIsSuffix(starts, from);
    if n >= 2 {
      PollsInARow(starts, ticks, from, interval, turn, latency, n);
      AtMostTurns(interval, turn, latency, n);
    }
  }

  lemma FewPolls(p: Params, s: State)
    requires Spaced(p, s) && Sequential(s) && TurnsOnTime(p, s) && p.shutdown.Some? && p.interval > Turn(p)
    ensures StartedSince(s.starts, p.shutdown.value) <= PollsAfter(p)
  {
    FewStarts(s.starts, s.ticks, p.shutdown.value, p.interval, Turn(p), p.latency);
  }

  /** Bounded work after shutdown: if the interval exceeds one turn, no run enters more than
      PollsAfter polls at or after the instant the parent is done, whichever ready case each
      select takes. */
  lemma BoundedAfterShutdown(p: Params, begin: nat, acts: seq<Action>, s: State)
    requires Timely(p, Init(begin), acts) && s == Exec(p, Init(begin), acts)
    requires p.shutdown.Some? && p.interval > Turn(p)
    ensures StartedSince(s.starts, p.shutdown.value)
         <= 1 + (p.interval + p.latency) / (p.interval - (Min(p.shutdownGrace, p.pollTimeout) + p.work + 14 * p.latency))
  {
    ReachedOnTime(p, begin, acts, s);
    FewPolls(p, s);
  }

  /** The instant by which loop has returned. */
  function ReturnBy(p: Params, begin: nat): nat
    requires p.shutdown.Some? && p.interval > Turn(p)
  {
    Max(begin, p.shutdown.value) + Turn(p) * (PollsAfter(p) + 1)
  }

  /** The latest start is no further from shutdown than the polls entered since allow. */
  lemma LatestStart(starts: seq<nat>, from: nat, turn: nat)
    requires |starts| > 0 && Sorted(starts)
    requires Close(starts, from, turn)
    ensures Max(Last(starts), from) <= Max(starts[0], from) + turn * StartedSince(starts, from)
  {
    var n := StartedSince(starts, from);
    StartedSinceIsSuffix(starts, from);
    MulMono(turn, 0, n);
    if 0 < n {
      var m := if n == |starts| then 0 else |starts| - n - 1;
      var span := |starts| - 1 - m;
      StartsClose(starts, from, turn, m, |starts| - 1);
      MulMono(turn, span, n);
      assert Max(starts[m], from) <= Max(starts[0], from);
      assert Last(starts) <= Max(starts[m], from) + turn * span;
    }
  }

  lemma NotPastReturnBy(p: Params, s: State)
    requires OnTime(p, s) && p.shutdown.Some? && p.interval > Turn(p)
    ensures s.now <= ReturnBy(p, s.starts[0])
  {
    FewPolls(p, s);
    WithinTurn(p, s);
    LatestStart(s.starts, p.shutdown.value, Turn(p));
    OneMoreTurn(Turn(p), StartedSince(s.starts, p.shutdown.value), PollsAfter(p));
  }

  lemma OneMoreTurn(turn: nat, n: nat, bound: nat)
    requires n <= bound
    ensures turn * n + turn <= turn * (bound + 1)
  {
    Distribute(turn, n, 1);
    MulMono(turn, n + 1, bound + 1);
  }

  // ----- progress and termination -----

  /** Poll returns although nothing has told it to stop. A request that hangs never does this. */
  predicate Spontaneous(s: State, a: Action) {
    a.PollReturns? && s.ctx.Live?
  }

  /** Some step is enabled now, or the clock may move on by one unit, without counting on Poll to
      return before its context is done. */
  ghost predicate CanMove(p: Params, s: State) {
    || (exists a: Action :: !a.Advance? && Enabled(p, s, a) && !Spontaneous(s, a))
    || (Enabled(p, s, Advance(s.now + 1)) && Punctual(p, s, Advance(s.now + 1)))
  }

  /** No reachable state is stuck before loop has returned, however tight the latency, even if Poll
      hangs until it is told to stop: neither a deadlock nor a clock that can never move on. */
  lemma NeverStuck(p: Params, s: State)
    requires OnTime(p, s) && !s.main.Exited?
    ensures CanMove(p, s)
  {
    if !MayReach(p, s, s.now + 1) {
      var a := DueMove(p, s);
    }
  }

  /** Whatever holds the clock back is enabled, and it is never a Poll that may still hang. */
  lemma DueMove(p: Params, s: State) returns (a: Action)
    requires Joined(s) && MayReach(p, s, s.now) && !MayReach(p, s, s.now + 1)
    ensures !a.Advance? && Enabled(p, s, a) && !Spontaneous(s, a)
  {
    if !MainMayWait(p, s, s.now + 1) {
      a := match s.main
        case Starting(_) => CreateContext
        case InPoll(_) => PollReturns(false)
        case Unwinding(_, _) => MainCancels
        case Joining(_, _) => MainJoins
        case Recording(_, _) => MainRecords
        case MakingTicker(_) => CreateTicker
        case _ => if ParentDone(p, s) then SelectShutdown else SelectTick;
    } else if !MonitorMayWait(p, s, s.now + 1) {
      a := match s.mon
        case Watching(_) => if s.ctx.Done? then WatchSeesContext else WatchSeesParent
        case Arming(_) => ArmTimer
        case Waiting(_) => if s.ctx.Done? then WaitSeesContext else WaitSeesTimer
        case Firing(_) => MonitorCancels
        case _ => MonitorCloses;
    } else if s.ctx.Live? && s.born + p.pollTimeout + p.latency < s.now + 1 {
      a := DeadlineFires;
    } else {
      a := TickerFires;
    }
  }

  function MainRank(m: Main): nat {
    match m
    case Starting(_) => 20
    case InPoll(_) => 12
    case Unwinding(_, _) => 11
    case Joining(_, _) => 10
    case Recording(_, _) => 9
    case MakingTicker(_) => 8
    case Selecting(_) => 7
    case Exited => 0
  }

  function MonitorRank(m: Monitor): nat {
    match m
    case Watching(_) => 5
    case Arming(_) => 4
    case Waiting(_) => 3
    case Firing(_) => 2
    case Closing(_) => 1
    case _ => 0
  }

  /** Steps left at most, if the clock stops at `horizon` and no more than `polls` polls are entered. */
  function StepsLeft(s: State, horizon: nat, polls: nat): int {
    20 * (polls - |s.starts|) + 2 * (horizon - s.now)
    + MainRank(s.main) + MonitorRank(s.mon) + (if s.ctx.Live? then 1 else 0)
    + (if s.ticker.Ticker? && s.ticker.next <= s.now then 1 else 0)
  }

  lemma StepsLeftFalls(p: Params, s: State, a: Action, horizon: nat, polls: nat)
    requires Safe(p, s) && Enabled(p, s, a)
    ensures StepsLeft(Do(p, s, a), horizon, polls) < StepsLeft(s, horizon, polls)
  {
    if a.TickerFires? {
      QuotientBelow(p.interval, s.now - s.ticker.next);
      assert p.interval * ((s.now - s.ticker.next) / p.interval + 1) > s.now - s.ticker.next;
    }
  }

  lemma {:induction false} RunCosts(p: Params, s: State, acts: seq<Action>, horizon: nat, polls: nat)
    requires Safe(p, s) && Legal(p, s, acts)
    ensures StepsLeft(Exec(p, s, acts), horizon, polls) + |acts| <= StepsLeft(s, horizon, polls)
    decreases |acts|
  {
    if |acts| > 0 {
      SafeStep(p, s, acts[0]);
      StepsLeftFalls(p, s, acts[0], horizon, polls);
      RunCosts(p, Do(p, s, acts[0]), acts[1..], horizon, polls);
    }
  }

  /** The longest a poll can take from being entered to being recorded, shut down or not. */
  function LongestTurn(p: Params): nat {
    p.pollTimeout + p.work + 10 * p.latency
  }

  lemma StillPolling(p: Params, s: State)
    requires Placed(p, s) && !s.main.Selecting? && !s.main.Exited?
    ensures s.now <= Last(s.starts) + LongestTurn(p)
  {
    if s.ctx.Live? {
      LiveUntil(p, s);
    }
  }

  /** A hung request cannot wedge the loop. From the moment a poll is entered (state s), as long as
      the run has not left it (state t), with or without shutdown: the clock is within the longest
      turn, the number of steps is bounded, and there is a further step that does not count on Poll
      returning of its own accord. So the poll ends in every run carried on far enough. */
  lemma PollEnds(p: Params, begin: nat, before: seq<Action>, s: State, acts: seq<Action>, t: State)
    requires Timely(p, Init(begin), before) && s == Exec(p, Init(begin), before) && s.main.Starting?
    requires Timely(p, s, acts) && t == Exec(p, s, acts)
    requires |t.starts| == |s.starts| > 0 && !t.main.Selecting? && !t.main.Exited?
    ensures t.now <= Last(t.starts) + (p.pollTimeout + p.work + 10 * p.latency)
    ensures |acts| <= 2 * (p.pollTimeout + p.work + 10 * p.latency) + 21
    ensures CanMove(p, t)
  {
    ReachedOnTime(p, begin, before, s);
    PollEndsFrom(p, s, acts, t);
  }

  lemma PollEndsFrom(p: Params, s: State, acts: seq<Action>, t: State)
    requires OnTime(p, s) && s.main.Starting? && Timely(p, s, acts) && t == Exec(p, s, acts)
    requires |t.starts| == |s.starts| > 0 && !t.main.Selecting? && !t.main.Exited?
    ensures t.now <= Last(t.starts) + LongestTurn(p)
    ensures |acts| <= 2 * LongestTurn(p) + 21
    ensures CanMove(p, t)
  {
    AlwaysOnTime(p, s, acts);
    OnTimeInPoll(p, t);
    InPollCosts(p, s, acts, t);
  }

  lemma InPollCosts(p: Params, s: State, acts: seq<Action>, t: State)
    requires OnTime(p, s) && s.main.Starting? && Legal(p, s, acts) && t == Exec(p, s, acts)
    requires |t.starts| == |s.starts| > 0 && t.now <= Last(t.starts) + LongestTurn(p)
    ensures |acts| <= 2 * LongestTurn(p) + 21
  {
    StartsGrow(p, s, acts);
    RunCosts(p, s, acts, Last(t.starts) + LongestTurn(p), |t.starts|);
    EntryCosts(p, s, t);
  }

  lemma OnTimeInPoll(p: Params, t: State)
    requires OnTime(p, t) && !t.main.Selecting? && !t.main.Exited?
    ensures t.now <= Last(t.starts) + LongestTurn(p)
    ensures CanMove(p, t)
  {
    StillPolling(p, t);
    NeverStuck(p, t);
  }

  lemma EntryCosts(p: Params, s: State, t: State)
    requires Joined(s) && s.main.Starting? && s.starts == t.starts && |t.starts| > 0 && Last(s.starts) <= s.now
    requires t.now <= Last(t.starts) + LongestTurn(p)
    ensures var horizon := Last(t.starts) + LongestTurn(p);
            && StepsLeft(s, horizon, |t.starts|) <= 2 * LongestTurn(p) + 21
            && StepsLeft(t, horizon, |t.starts|) >= 0
  {
  }

  /** A bound on the length of every run. */
  function StepBound(p: Params, begin: nat): int
    requires p.shutdown.Some? && p.interval > Turn(p)
  {
    StepsLeft(Init(begin), ReturnBy(p, begin), 1 + ReturnBy(p, begin) / p.interval)
  }

  /** Shutdown ends the loop. If the interval exceeds one turn, the clock never passes ReturnBy, no
      run is longer than StepBound steps, and a run can stop only once loop has returned, even if
      every Poll hangs until it is told to stop: so every run that is carried on as far as it goes
      ends with loop returned by that instant. */
  lemma LoopReturns(p: Params, begin: nat, acts: seq<Action>, s: State)
    requires Timely(p, Init(begin), acts) && s == Exec(p, Init(begin), acts)
    requires p.shutdown.Some? && p.interval > Turn(p)
    ensures s.now <= ReturnBy(p, begin)
    ensures |acts| <= StepBound(p, begin)
    ensures !s.main.Exited? ==> CanMove(p, s)
  {
    ReachedOnTime(p, begin, acts, s);
    StartsGrow(p, Init(begin), acts);
    assert s.starts[0] == begin;
    NotPastReturnBy(p, s);
    if !s.main.Exited? {
      NeverStuck(p, s);
    }
    var polls := 1 + ReturnBy(p, begin) / p.interval;
    PollsWithin(p, begin, acts, s, ReturnBy(p, begin));
    RunCosts(p, Init(begin), acts, ReturnBy(p, begin), polls);
    SomeLeft(s, ReturnBy(p, begin), polls);
  }

  lemma PollsWithin(p: Params, begin: nat, acts: seq<Action>, s: State, horizon: nat)
    requires Legal(p, Init(begin), acts) && s == Exec(p, Init(begin), acts) && s.now <= horizon
    ensures |s.starts| <= 1 + horizon / p.interval
  {
    RateBound(p, begin, acts, s);
    if s.ticker.Ticker? {
      AlwaysSafe(p, Init(begin), acts);
      QuotientMono(p.interval, s.now - s.ticker.born, horizon);
    }
  }

  lemma SomeLeft(s: State, horizon: nat, polls: nat)
    requires s.now <= horizon && |s.starts| <= polls
    ensures StepsLeft(s, horizon, polls) >= 0
  {
  }
}
