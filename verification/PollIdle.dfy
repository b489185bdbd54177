/**
 Intervals no shorter than any poll: every tick is taken as soon as it comes, so at most one poll is
 entered after shutdown.
 */
module PollIdle {
  import Arithmetic
  import opened PollRunner
  import opened PollTiming

  /** The interval outlasts every poll, shut down or not. Without latency that is: it is at least
      the timeout plus the time Poll takes to give up, and longer than any poll after shutdown. */
  predicate Roomy(p: Params) {
    && p.interval >= p.pollTimeout + p.work + 11 * p.latency
    && (p.interval > p.pollTimeout + p.work + 13 * p.latency || p.interval > Turn(p) + 2 * p.latency)
  }

  /** Ticks are consumed soon after they are due, and only the latest poll can have been entered
      after shutdown. */
  predicate NoBacklog(p: Params, s: State)
    requires |s.starts| > 0
  {
    && (s.ticker.Ticker? ==> Last(s.starts) + p.interval <= s.ticker.next + 2 * p.latency)
    && (s.ticker.Ticker? && s.ticker.slot.Some? ==> Waited(p, s, s.ticker.slot.value))
    && (p.shutdown.Some? ==> OnlyLatestSince(s.starts, p.shutdown.value))
  }

  predicate OnlyLatestSince(starts: seq<nat>, from: nat) {
    forall i :: 0 <= i < |starts| - 1 ==> starts[i] < from
  }

  /** The tick was delivered on time, and not before the poll in flight should be over. */
  predicate Waited(p: Params, s: State, tick: Tick)
    requires |s.starts| > 0
  {
    tick.at <= tick.grid + p.latency && Last(s.starts) + p.interval <= tick.grid + 2 * p.latency
  }

  lemma SelectSoon(p: Params, s: State)
    requires Placed(p, s) && s.main.Selecting?
    ensures s.main.since <= Last(s.starts) + p.pollTimeout + p.work + 10 * p.latency
  {
  }

  /** A waiting tick is taken soon after its instant. */
  lemma TakenSoon(p: Params, s: State)
    requires Placed(p, s) && Roomy(p) && NoBacklog(p, s) && Enabled(p, s, SelectTick)
    ensures s.now <= s.ticker.slot.value.grid + 2 * p.latency
  {
    SelectSoon(p, s);
  }

  /** After shutdown the select is over before another tick can come. */
  lemma SelectBeforeShutdown(p: Params, s: State)
    requires Placed(p, s) && Roomy(p) && NoBacklog(p, s) && Enabled(p, s, SelectTick) && p.shutdown.Some?
    ensures Last(s.starts) < p.shutdown.value
  {
    SelectSoon(p, s);
    WithinTurn(p, s);
  }

  lemma FireStep(p: Params, s: State)
    requires Placed(p, s) && Roomy(p) && NoBacklog(p, s) && Enabled(p, s, TickerFires)
    ensures NoBacklog(p, Do(p, s, TickerFires))
  {
    NextIsLater(p, s);
  }

  lemma NextIsLater(p: Params, s: State)
    requires Enabled(p, s, TickerFires)
    ensures s.ticker.next <= Do(p, s, TickerFires).ticker.next
  {
    Arithmetic.MulMono(p.interval, 0, (s.now - s.ticker.next) / p.interval + 1);
  }

  lemma SelectTickStep(p: Params, s: State)
    requires Placed(p, s) && Roomy(p) && NoBacklog(p, s) && Enabled(p, s, SelectTick)
    ensures NoBacklog(p, Do(p, s, SelectTick))
  {
    var t := Do(p, s, SelectTick);
    TakenSoon(p, s);
    if p.shutdown.Some? {
      SelectBeforeShutdown(p, s);
      assert OnlyLatestSince(t.starts, p.shutdown.value);
    }
  }

  lemma NoBacklogStep(p: Params, s: State, a: Action)
    requires Placed(p, s) && Roomy(p) && NoBacklog(p, s) && Enabled(p, s, a) && Punctual(p, s, a)
    ensures NoBacklog(p, Do(p, s, a))
  {
    if a.TickerFires? {
      FireStep(p, s);
    } else if a.SelectTick? {
      SelectTickStep(p, s);
    } else {
      assert Do(p, s, a).starts == s.starts;
    }
  }

  lemma {:induction false} NeverBacklog(p: Params, s: State, acts: seq<Action>)
    requires OnTime(p, s) && Roomy(p) && NoBacklog(p, s) && Timely(p, s, acts)
    ensures OnTime(p, Exec(p, s, acts)) && NoBacklog(p, Exec(p, s, acts))
    decreases |acts|
  {
    if |acts| > 0 {
      OnTimeStep(p, s, acts[0]);
      NoBacklogStep(p, s, acts[0]);
      NeverBacklog(p, Do(p, s, acts[0]), acts[1..]);
    }
  }

  /** With an interval no shorter than any poll, a run enters at most one poll after shutdown. */
  lemma AtMostOneAfter(p: Params, begin: nat, acts: seq<Action>, s: State)
    requires Timely(p, Init(begin), acts) && s == Exec(p, Init(begin), acts)
    requires Roomy(p) && p.shutdown.Some?
    ensures StartedSince(s.starts, p.shutdown.value) <= 1
  {
    NeverBacklog(p, Init(begin), acts);
    StartedSinceIsSuffix(s.starts, p.shutdown.value);
  }
}
