/**
 One domain of the poll runner as a timed transition system: the loop goroutine, the monitor
 goroutine of the poll in flight, the context they share, the ticker and the clock.

 A control point carries the instant at which it was reached. A run is a sequence of actions;
 at each point any enabled action may come next, so an interleaving is a choice of actions.
 */
module PollRunner {
  import opened Wrappers

  /** NewTicker panics unless its interval is positive. */
  type Positive = n: nat | n > 0 witness 1

  /** Durations and instants are whole numbers of one time unit. `latency` bounds the delay of one
      enabled step and `work` how long Poll keeps running once its context is done; neither
      restricts Legal runs, only Timely ones. `shutdown` is the instant the parent context is done. */
  datatype Params = Params(
    pollTimeout: nat,
    shutdownGrace: nat,
    interval: Positive,
    latency: nat,
    work: nat,
    shutdown: Option<nat>)

  datatype Cause = DeadlineExceeded | Canceled

  /** callCtx. Absent: the poll has not created it yet. */
  datatype Ctx = Absent | Live | Done(cause: Cause, at: nat)

  datatype Outcome = Outcome(ok: bool, elapsed: int)

  /** Control points of the goroutine that runs loop and poll. */
  datatype Main =
    | Starting(since: nat)                      // poll entered, callCtx not yet created
    | InPoll(start: nat)                        // inside d.Poll(callCtx)
    | Unwinding(since: nat, outcome: Outcome)   // Poll returned, before cancel()
    | Joining(since: nat, outcome: Outcome)     // at <-monitorDone
    | Recording(since: nat, outcome: Outcome)   // joined, before the self-metrics update
    | MakingTicker(since: nat)                  // first poll over, before NewTicker
    | Selecting(since: nat)                     // at the select of loop
    | Exited                                    // loop has returned

  /** Control points of the monitor goroutine. */
  datatype Monitor =
    | Idle                  // no poll has spawned one yet
    | Watching(since: nat)  // first select: callCtx.Done or parent.Done
    | Arming(since: nat)    // saw parent.Done, before time.After
    | Waiting(since: nat)   // second select: callCtx.Done or the grace timer armed at `since`
    | Firing(since: nat)    // the timer fired, before cancel()
    | Closing(since: nat)   // before the deferred close(monitorDone)
    | Closed(at: nat)

  /** A tick in the channel: the grid instant it stands for and when it was delivered. */
  datatype Tick = Tick(grid: nat, at: nat)

  datatype Ticker = NoTicker | Ticker(born: nat, next: nat, slot: Option<Tick>)

  datatype Finished = Finished(ok: bool, elapsed: int, at: nat)

  /** `starts`, `ticks`, `lost` and `finished` are history: when each poll was entered, the grid
      instant of the tick each poll but the first consumed, the ticks dropped or skipped, and
      what each completed poll recorded. */
  datatype State = State(
    now: nat,
    main: Main,
    mon: Monitor,
    ctx: Ctx,
    born: nat,
    ticker: Ticker,
    starts: seq<nat>,
    ticks: seq<nat>,
    lost: nat,
    finished: seq<Finished>)

  datatype Action =
    | CreateContext            // WithTimeout, make(chan), go func, start := time.Now()
    | PollReturns(ok: bool)    // d.Poll returns, with or without having been told to stop
    | MainCancels              // cancel() after Poll
    | MainJoins                // <-monitorDone
    | MainRecords              // self-metrics, then poll returns
    | CreateTicker             // time.NewTicker(interval)
    | SelectShutdown           // loop takes <-ctx.Done()
    | SelectTick               // loop takes <-ticker.C and calls poll
    | TickerFires
    | DeadlineFires            // the timer of WithTimeout
    | WatchSeesContext
    | WatchSeesParent
    | ArmTimer
    | WaitSeesContext
    | WaitSeesTimer
    | MonitorCancels
    | MonitorCloses
    | Advance(to: nat)         // the clock

  function Min(a: nat, b: nat): nat { if a <= b then a else b }

  function Max(a: nat, b: nat): nat { if a <= b then b else a }

  function Last<T>(xs: seq<T>): T
    requires |xs| > 0
  {
    xs[|xs| - 1]
  }

  predicate ParentDone(p: Params, s: State) {
    p.shutdown.Some? && p.shutdown.value <= s.now
  }

  /** cancel(): the first cause sticks. */
  function Cancel(c: Ctx, now: nat): Ctx {
    if c.Live? then Done(Canceled, now) else c
  }

  function Init(start: nat): State {
    State(start, Starting(start), Idle, Absent, start, NoTicker, [start], [], 0, [])
  }

  predicate Enabled(p: Params, s: State, a: Action) {
    match a
    case CreateContext => s.main.Starting?
    case PollReturns(_) => s.main.InPoll?
    case MainCancels => s.main.Unwinding?
    case MainJoins => s.main.Joining? && s.mon.Closed?
    case MainRecords => s.main.Recording?
    case CreateTicker => s.main.MakingTicker?
    case SelectShutdown => s.main.Selecting? && ParentDone(p, s)
    case SelectTick => s.main.Selecting? && s.ticker.Ticker? && s.ticker.slot.Some?
    case TickerFires => s.ticker.Ticker? && s.ticker.next <= s.now && !s.main.Exited?
    case DeadlineFires => s.ctx.Live? && s.born + p.pollTimeout <= s.now
    case WatchSeesContext => s.mon.Watching? && s.ctx.Done?
    case WatchSeesParent => s.mon.Watching? && ParentDone(p, s)
    case ArmTimer => s.mon.Arming?
    case WaitSeesContext => s.mon.Waiting? && s.ctx.Done?
    case WaitSeesTimer => s.mon.Waiting? && s.mon.since + p.shutdownGrace <= s.now
    case MonitorCancels => s.mon.Firing?
    case MonitorCloses => s.mon.Closing?
    case Advance(to) => s.now < to && !s.main.Exited?
  }

  function Do(p: Params, s: State, a: Action): State
    requires Enabled(p, s, a)
  {
    match a
    case CreateContext => s.(main := InPoll(s.now), mon := Watching(s.now), ctx := Live, born := s.now)
    case PollReturns(ok) => s.(main := Unwinding(s.now, Outcome(ok, s.now - s.main.start)))
    case MainCancels => s.(main := Joining(s.now, s.main.outcome), ctx := Cancel(s.ctx, s.now))
    case MainJoins => s.(main := Recording(s.now, s.main.outcome))
    case MainRecords =>
      s.(main := if s.ticker.NoTicker? then MakingTicker(s.now) else Selecting(s.now),
         finished := s.finished + [Finished(s.main.outcome.ok, s.main.outcome.elapsed, s.now)])
    case CreateTicker => s.(main := Selecting(s.now), ticker := Ticker(s.now, s.now + p.interval, None))
    case SelectShutdown => s.(main := Exited)
    case SelectTick =>
      s.(main := Starting(s.now), ctx := Absent, ticker := s.ticker.(slot := None),
         starts := s.starts + [s.now], ticks := s.ticks + [s.ticker.slot.value.grid])
    case TickerFires => FireTicker(p, s)
    case DeadlineFires => s.(ctx := Done(DeadlineExceeded, s.now))
    case WatchSeesContext => s.(mon := Closing(s.now))
    case WatchSeesParent => s.(mon := Arming(s.now))
    case ArmTimer => s.(mon := Waiting(s.now))
    case WaitSeesContext => s.(mon := Closing(s.now))
    case WaitSeesTimer => s.(mon := Firing(s.now))
    case MonitorCancels => s.(mon := Closing(s.now), ctx := Cancel(s.ctx, s.now))
    case MonitorCloses => s.(mon := Closed(s.now))
    case Advance(to) => s.(now := to)
  }

  /** The channel holds one tick: a further one is dropped. A ticker that fires late skips the
      grid instants it has missed. */
  function FireTicker(p: Params, s: State): State
    requires Enabled(p, s, TickerFires)
  {
    var late := (s.now - s.ticker.next) / p.interval;
    var full := s.ticker.slot.Some?;
    s.(ticker := s.ticker.(next := s.ticker.next + p.interval * (late + 1),
                           slot := if full then s.ticker.slot else Some(Tick(s.ticker.next, s.now))),
       lost := s.lost + late + (if full then 1 else 0))
  }

  /** Runs with no scheduling assumption. */
  predicate Legal(p: Params, s: State, acts: seq<Action>)
    decreases |acts|
  {
    |acts| == 0 || (Enabled(p, s, acts[0]) && Legal(p, Do(p, s, acts[0]), acts[1..]))
  }

  function Exec(p: Params, s: State, acts: seq<Action>): State
    requires Legal(p, s, acts)
    decreases |acts|
  {
    if |acts| == 0 then s else Exec(p, Do(p, s, acts[0]), acts[1..])
  }

  /** The clock may read `t` in control state `s`: nothing that was able to move has been kept
      waiting longer than `latency`, and Poll has not outlived its context by more than `work`. */
  predicate MayReach(p: Params, s: State, t: nat) {
    && MainMayWait(p, s, t)
    && MonitorMayWait(p, s, t)
    && (s.ctx.Live? ==> t <= s.born + p.pollTimeout + p.latency)
    && (s.ticker.Ticker? && !s.main.Exited? ==> t <= s.ticker.next + p.latency)
  }

  predicate MainMayWait(p: Params, s: State, t: nat) {
    match s.main
    case Starting(x) => t <= x + p.latency
    case InPoll(_) => s.ctx.Done? ==> t <= s.ctx.at + p.work
    case Unwinding(x, _) => t <= x + p.latency
    case Joining(x, _) => s.mon.Closed? ==> t <= Max(x, s.mon.at) + p.latency
    case Recording(x, _) => t <= x + p.latency
    case MakingTicker(x) => t <= x + p.latency
    case Selecting(x) =>
      && (p.shutdown.Some? ==> t <= Max(x, p.shutdown.value) + p.latency)
      && (s.ticker.Ticker? && s.ticker.slot.Some? ==> t <= Max(x, s.ticker.slot.value.at) + p.latency)
    case Exited => true
  }

  predicate MonitorMayWait(p: Params, s: State, t: nat) {
    match s.mon
    case Idle => true
    case Watching(x) =>
      && (s.ctx.Done? ==> t <= Max(x, s.ctx.at) + p.latency)
      && (p.shutdown.Some? ==> t <= Max(x, p.shutdown.value) + p.latency)
    case Arming(x) => t <= x + p.latency
    case Waiting(x) =>
      && (s.ctx.Done? ==> t <= Max(x, s.ctx.at) + p.latency)
      && t <= x + p.shutdownGrace + p.latency
    case Firing(x) => t <= x + p.latency
    case Closing(x) => t <= x + p.latency
    case Closed(_) => true
  }

  predicate Punctual(p: Params, s: State, a: Action) {
    a.Advance? ==> MayReach(p, s, a.to)
  }

  /** Runs under bounded scheduling latency. */
  predicate Timely(p: Params, s: State, acts: seq<Action>): (timely: bool)
    ensures timely ==> Legal(p, s, acts)
    decreases |acts|
  {
    |acts| == 0
    || (Enabled(p, s, acts[0]) && Punctual(p, s, acts[0]) && Timely(p, Do(p, s, acts[0]), acts[1..]))
  }

  /** A run may be continued from where it stands. */
  lemma {:induction false} LegalAppend(p: Params, s: State, a: seq<Action>, b: seq<Action>)
    requires Legal(p, s, a) && Legal(p, Exec(p, s, a), b)
    ensures Legal(p, s, a + b) && Exec(p, s, a + b) == Exec(p, Exec(p, s, a), b)
    decreases |a|
  {
    if |a| == 0 {
      assert a + b == b;
    } else {
      LegalAppend(p, Do(p, s, a[0]), a[1..], b);
      assert (a + b)[1..] == a[1..] + b;
    }
  }

  lemma {:induction false} TimelyAppend(p: Params, s: State, a: seq<Action>, b: seq<Action>)
    requires Timely(p, s, a) && Timely(p, Exec(p, s, a), b)
    ensures Timely(p, s, a + b)
    decreases |a|
  {
    if |a| == 0 {
      assert a + b == b;
    } else {
      TimelyAppend(p, Do(p, s, a[0]), a[1..], b);
      assert (a + b)[1..] == a[1..] + b;
    }
  }
}
