/**
 Run: one loop per domain and a WaitGroup. The loops interleave arbitrarily and share the clock.
 */
module Fleet {
  import opened Arithmetic
  import opened PollRunner
  import opened PollSafety
  import opened PollTiming
  import opened PollWitness

  /** The loops started so far, in the order of the domains, and the WaitGroup counter. `since` is
      the instant from which Run itself has been able to spawn its next loop or to return. */
  datatype Fleet = Fleet(now: nat, since: nat, loops: seq<State>, wg: int, returned: bool)

  datatype Move =
    | Spawn                        // wg.Add(1); go func { defer wg.Done(); loop(...) }
    | Step(i: nat, action: Action) // loop i, its monitor, its ticker or its timers
    | Clock(to: nat)
    | Return                       // wg.Wait() lets Run return

  function Begin(now: nat): Fleet { Fleet(now, now, [], 0, false) }

  predicate Can(ps: seq<Params>, f: Fleet, m: Move) {
    match m
    case Spawn => |f.loops| < |ps|
    case Step(i, a) => i < |f.loops| <= |ps| && !a.Advance? && Enabled(ps[i], f.loops[i], a)
    case Clock(to) => f.now < to && !f.returned
    case Return => |f.loops| == |ps| && f.wg == 0 && !f.returned
  }

  function Make(ps: seq<Params>, f: Fleet, m: Move): Fleet
    requires Can(ps, f, m)
  {
    match m
    case Spawn => f.(loops := f.loops + [Init(f.now)], wg := f.wg + 1, since := f.now)
    case Step(i, a) =>
      f.(loops := f.loops[i := Do(ps[i], f.loops[i], a)],
         wg := if a.SelectShutdown? then f.wg - 1 else f.wg,
         since := if a.SelectShutdown? && |f.loops| == |ps| then f.now else f.since)
    case Clock(to) => f.(now := to, loops := AllLater(f.loops, to))
    case Return => f.(returned := true)
  }

  /** The clock seen by a loop; one that has returned no longer looks at it. */
  function Later(s: State, to: nat): State {
    if s.main.Exited? then s else s.(now := to)
  }

  function AllLater(loops: seq<State>, to: nat): seq<State> {
    seq(|loops|, i requires 0 <= i < |loops| => Later(loops[i], to))
  }

  /** Run itself is kept waiting for at most `delay`, and the clock passes no loop's latest instant. */
  predicate OnSchedule(ps: seq<Params>, delay: nat, f: Fleet, m: Move) {
    m.Clock? ==>
      && (Can(ps, f, Spawn) || Can(ps, f, Return) ==> m.to <= f.since + delay)
      && forall i :: 0 <= i < |f.loops| && i < |ps| && !f.loops[i].main.Exited? ==> MayReach(ps[i], f.loops[i], m.to)
  }

  predicate FleetLegal(ps: seq<Params>, f: Fleet, moves: seq<Move>)
    decreases |moves|
  {
    |moves| == 0 || (Can(ps, f, moves[0]) && FleetLegal(ps, Make(ps, f, moves[0]), moves[1..]))
  }

  predicate FleetTimely(ps: seq<Params>, delay: nat, f: Fleet, moves: seq<Move>): (timely: bool)
    ensures timely ==> FleetLegal(ps, f, moves)
    decreases |moves|
  {
    |moves| == 0
    || (Can(ps, f, moves[0]) && OnSchedule(ps, delay, f, moves[0]) && FleetTimely(ps, delay, Make(ps, f, moves[0]), moves[1..]))
  }

  function FleetExec(ps: seq<Params>, f: Fleet, moves: seq<Move>): Fleet
    requires FleetLegal(ps, f, moves)
    decreases |moves|
  {
    if |moves| == 0 then f else FleetExec(ps, Make(ps, f, moves[0]), moves[1..])
  }

  function Running(loops: seq<State>): nat {
    if |loops| == 0 then 0
    else (if loops[0].main.Exited? then 0 else 1) + Running(loops[1..])
  }

  lemma {:induction false} RunningUpdate(loops: seq<State>, i: nat, s: State)
    requires i < |loops|
    ensures Running(loops[i := s])
         == Running(loops) - (if loops[i].main.Exited? then 0 else 1) + (if s.main.Exited? then 0 else 1)
  {
    if i > 0 {
      RunningUpdate(loops[1..], i - 1, s);
      assert loops[i := s][1..] == loops[1..][i - 1 := s];
    } else {
      assert loops[i := s][1..] == loops[1..];
    }
  }

  lemma {:induction false} RunningAppend(loops: seq<State>, s: State)
    requires !s.main.Exited?
    ensures Running(loops + [s]) == Running(loops) + 1
  {
    if |loops| == 0 {
      assert (loops + [s])[1..] == [];
    } else {
      RunningAppend(loops[1..], s);
      assert (loops + [s])[1..] == loops[1..] + [s];
    }
  }

  lemma {:induction false} RunningSame(a: seq<State>, b: seq<State>)
    requires |a| == |b| && forall i :: 0 <= i < |a| ==> a[i].main.Exited? == b[i].main.Exited?
    ensures Running(a) == Running(b)
    decreases |a|
  {
    if |a| > 0 {
      RunningSame(a[1..], b[1..]);
    }
  }

  lemma {:induction false} NoneRunning(loops: seq<State>)
    requires Running(loops) == 0
    ensures forall i :: 0 <= i < |loops| ==> loops[i].main.Exited?
  {
    if |loops| > 0 {
      NoneRunning(loops[1..]);
      assert forall i :: 0 < i < |loops| ==> loops[i] == loops[1..][i - 1];
    }
  }

  /** The counter is the number of loops that have not returned. */
  predicate Accounted(ps: seq<Params>, f: Fleet) {
    && |f.loops| <= |ps|
    && f.wg == Running(f.loops)
    && (f.returned ==> |f.loops| == |ps| && f.wg == 0)
    && forall i :: 0 <= i < |f.loops| ==> Safe(ps[i], f.loops[i]) && (f.loops[i].main.Exited? || f.loops[i].now == f.now)
  }

  lemma OnlyShutdownExits(p: Params, s: State, a: Action)
    requires Enabled(p, s, a) && !a.Advance?
    ensures Do(p, s, a).now == s.now
    ensures Do(p, s, a).main.Exited? <==> a.SelectShutdown? || s.main.Exited?
    ensures a.SelectShutdown? ==> !s.main.Exited?
  {
  }

  lemma AccountedLoop(ps: seq<Params>, f: Fleet, i: nat, a: Action)
    requires Accounted(ps, f) && Can(ps, f, Step(i, a))
    ensures Accounted(ps, Make(ps, f, Step(i, a)))
  {
    var s := Do(ps[i], f.loops[i], a);
    var loops := f.loops[i := s];
    SafeStep(ps[i], f.loops[i], a);
    OnlyShutdownExits(ps[i], f.loops[i], a);
    RunningUpdate(f.loops, i, s);
    forall j | 0 <= j < |loops| ensures Safe(ps[j], loops[j]) && (loops[j].main.Exited? || loops[j].now == f.now) {
      if j != i {
        assert loops[j] == f.loops[j];
      }
    }
  }

  lemma AccountedClock(ps: seq<Params>, f: Fleet, to: nat)
    requires Accounted(ps, f) && Can(ps, f, Clock(to))
    ensures Accounted(ps, Make(ps, f, Clock(to)))
  {
    var loops := AllLater(f.loops, to);
    RunningSame(f.loops, loops);
    forall i | 0 <= i < |loops|
      ensures Safe(ps[i], loops[i]) && (loops[i].main.Exited? || loops[i].now == to)
    {
      if !f.loops[i].main.Exited? {
        SafeStep(ps[i], f.loops[i], Advance(to));
      }
    }
  }

  lemma AccountedStep(ps: seq<Params>, f: Fleet, m: Move)
    requires Accounted(ps, f) && Can(ps, f, m)
    ensures Accounted(ps, Make(ps, f, m))
  {
    match m
    case Spawn =>
      RunningAppend(f.loops, Init(f.now));
    case Step(i, a) =>
      AccountedLoop(ps, f, i, a);
    case Clock(to) =>
      AccountedClock(ps, f, to);
    case Return =>
  }

  lemma {:induction false} AlwaysAccounted(ps: seq<Params>, f: Fleet, moves: seq<Move>)
    requires Accounted(ps, f) && FleetLegal(ps, f, moves)
    ensures Accounted(ps, FleetExec(ps, f, moves))
    decreases |moves|
  {
    if |moves| > 0 {
      AccountedStep(ps, f, moves[0]);
      AlwaysAccounted(ps, Make(ps, f, moves[0]), moves[1..]);
    }
  }

  /** Run returns only when every domain has had its loop and no loop, poll or monitor is alive,
      for any number of domains and any interleaving. */
  lemma RunJoinsEverything(ps: seq<Params>, now: nat, moves: seq<Move>, f: Fleet)
    requires FleetLegal(ps, Begin(now), moves) && f == FleetExec(ps, Begin(now), moves) && f.returned
    ensures |f.loops| == |ps|
    ensures forall i :: 0 <= i < |f.loops| ==>
              && f.loops[i].main.Exited? && f.loops[i].mon.Closed? && f.loops[i].ctx.Done?
              && ps[i].shutdown.Some? && ps[i].shutdown.value <= f.loops[i].now
    ensures forall i :: 0 <= i < |f.loops| ==> |f.loops[i].finished| == |f.loops[i].starts|
  {
    AlwaysAccounted(ps, Begin(now), moves);
    NoneRunning(f.loops);
  }

  // ----- every loop of the fleet behaves as it would alone -----

  ghost predicate Faithful(ps: seq<Params>, f: Fleet) {
    && |f.loops| <= |ps|
    && forall i :: 0 <= i < |f.loops| ==> FaithfulLoop(ps[i], f.loops[i])
  }

  ghost predicate FaithfulLoop(p: Params, s: State) {
    |s.starts| > 0 && Reaches(p, Init(s.starts[0]), s)
  }

  lemma FaithfulGo(p: Params, s: State, a: Action)
    requires FaithfulLoop(p, s) && Enabled(p, s, a) && Punctual(p, s, a)
    ensures FaithfulLoop(p, Do(p, s, a))
  {
    var t := Go(p, Init(s.starts[0]), s, a);
  }

  lemma FaithfulStep(ps: seq<Params>, delay: nat, f: Fleet, m: Move)
    requires Accounted(ps, f) && Faithful(ps, f) && Can(ps, f, m) && OnSchedule(ps, delay, f, m)
    ensures Faithful(ps, Make(ps, f, m))
  {
    match m
    case Spawn =>
      Here(ps[|f.loops|], Init(f.now));
    case Step(i, a) =>
      FaithfulGo(ps[i], f.loops[i], a);
    case Clock(to) =>
      forall i | 0 <= i < |f.loops| ensures FaithfulLoop(ps[i], Later(f.loops[i], to)) {
        if !f.loops[i].main.Exited? {
          FaithfulGo(ps[i], f.loops[i], Advance(to));
        }
      }
    case Return =>
  }

  lemma {:induction false} AlwaysFaithful(ps: seq<Params>, delay: nat, f: Fleet, moves: seq<Move>)
    requires Accounted(ps, f) && Faithful(ps, f) && FleetTimely(ps, delay, f, moves)
    ensures Faithful(ps, FleetExec(ps, f, moves))
    decreases |moves|
  {
    if |moves| > 0 {
      AccountedStep(ps, f, moves[0]);
      FaithfulStep(ps, delay, f, moves[0]);
      AlwaysFaithful(ps, delay, Make(ps, f, moves[0]), moves[1..]);
    }
  }

  /** Shutdown reaches every domain: a loop whose interval exceeds its turn obeys its own bounds
      inside any fleet, however many other loops run beside it. */
  lemma EveryLoopReturns(ps: seq<Params>, delay: nat, now: nat, moves: seq<Move>, f: Fleet, i: nat)
    requires FleetTimely(ps, delay, Begin(now), moves) && f == FleetExec(ps, Begin(now), moves)
    requires i < |f.loops| <= |ps| && ps[i].shutdown.Some? && ps[i].interval > Turn(ps[i])
    ensures |f.loops[i].starts| > 0
    ensures f.loops[i].now <= ReturnBy(ps[i], f.loops[i].starts[0])
    ensures StartedSince(f.loops[i].starts, ps[i].shutdown.value) <= PollsAfter(ps[i])
  {
    AlwaysFaithful(ps, delay, Begin(now), moves);
    var s := f.loops[i];
    var acts: seq<Action> :| Timely(ps[i], Init(s.starts[0]), acts) && Exec(ps[i], Init(s.starts[0]), acts) == s;
    LoopReturns(ps[i], s.starts[0], acts, s);
    BoundedAfterShutdown(ps[i], s.starts[0], acts, s);
  }

  /** A Poll of some loop returns although nothing has told it to stop. */
  predicate OfItsOwn(f: Fleet, m: Move) {
    m.Step? && m.i < |f.loops| && Spontaneous(f.loops[m.i], m.action)
  }

  /** Run, a goroutine, a timer or the clock can move, without counting on a Poll to return before
      its context is done. */
  ghost predicate FleetCanMove(ps: seq<Params>, delay: nat, f: Fleet) {
    exists m: Move :: Can(ps, f, m) && OnSchedule(ps, delay, f, m) && !OfItsOwn(f, m)
  }

  /** As long as Run has not returned nothing is stuck, even if every Poll hangs until told to stop. */
  lemma FleetNeverStuck(ps: seq<Params>, delay: nat, f: Fleet)
    requires Accounted(ps, f) && Faithful(ps, f) && !f.returned
    ensures FleetCanMove(ps, delay, f)
  {
    if Can(ps, f, Spawn) {
      assert OnSchedule(ps, delay, f, Spawn) && !OfItsOwn(f, Spawn);
    } else if Can(ps, f, Return) {
      assert OnSchedule(ps, delay, f, Return) && !OfItsOwn(f, Return);
    } else if OnSchedule(ps, delay, f, Clock(f.now + 1)) {
      assert Can(ps, f, Clock(f.now + 1)) && !OfItsOwn(f, Clock(f.now + 1));
    } else {
      var i :| 0 <= i < |f.loops| && !f.loops[i].main.Exited? && !MayReach(ps[i], f.loops[i], f.now + 1);
      LoopGoesOn(ps, delay, f, i);
    }
  }

  lemma LoopGoesOn(ps: seq<Params>, delay: nat, f: Fleet, i: nat)
    requires Accounted(ps, f) && Faithful(ps, f) && i < |f.loops|
    requires !f.loops[i].main.Exited? && !MayReach(ps[i], f.loops[i], f.now + 1)
    ensures FleetCanMove(ps, delay, f)
  {
    var a := LoopMove(ps[i], f.loops[i]);
    assert Can(ps, f, Step(i, a)) && OnSchedule(ps, delay, f, Step(i, a)) && !OfItsOwn(f, Step(i, a));
  }

  lemma LoopMove(p: Params, s: State) returns (a: Action)
    requires |s.starts| > 0 && Reaches(p, Init(s.starts[0]), s)
    requires !s.main.Exited? && !MayReach(p, s, s.now + 1)
    ensures !a.Advance? && Enabled(p, s, a) && !Spontaneous(s, a)
  {
    var acts: seq<Action> :| Timely(p, Init(s.starts[0]), acts) && Exec(p, Init(s.starts[0]), acts) == s;
    AlwaysOnTime(p, Init(s.starts[0]), acts);
    a := DueMove(p, s);
  }

  // ----- Run returns -----

  /** Every domain's interval exceeds its turn, and shutdown comes. */
  predicate AllBounded(ps: seq<Params>) {
    forall i :: 0 <= i < |ps| ==> ps[i].shutdown.Some? && ps[i].interval > Turn(ps[i])
  }

  /** The latest instant at which a loop of these parameters begun by `start` still runs. */
  function LastReturn(ps: seq<Params>, start: nat): nat
    requires AllBounded(ps)
  {
    if |ps| == 0 then start else Max(LastReturn(ps[..|ps| - 1], start), ReturnBy(Last(ps), start))
  }

  lemma {:induction false} StartIsEarlier(ps: seq<Params>, start: nat)
    requires AllBounded(ps)
    ensures start <= LastReturn(ps, start)
    decreases |ps|
  {
    if |ps| > 0 {
      StartIsEarlier(ps[..|ps| - 1], start);
    }
  }

  lemma {:induction false} LastReturnIsLast(ps: seq<Params>, start: nat, i: nat, begin: nat)
    requires AllBounded(ps) && i < |ps| && begin <= start
    ensures ReturnBy(ps[i], begin) <= LastReturn(ps, start)
    decreases |ps|
  {
    if i < |ps| - 1 {
      LastReturnIsLast(ps[..|ps| - 1], start, i, begin);
    } else {
      EarlierReturn(ps[i], begin, start);
    }
  }

  lemma EarlierReturn(p: Params, begin: nat, start: nat)
    requires p.shutdown.Some? && p.interval > Turn(p) && begin <= start
    ensures ReturnBy(p, begin) <= ReturnBy(p, start)
  {
  }

  /** The instant by which Run has spawned all its loops. */
  function SpawnedBy(ps: seq<Params>, delay: nat, now: nat): nat {
    now + delay * |ps|
  }

  /** The instant by which Run has returned. */
  function RunReturnBy(ps: seq<Params>, delay: nat, now: nat): nat
    requires AllBounded(ps)
  {
    LastReturn(ps, SpawnedBy(ps, delay, now)) + delay
  }

  /** Loops begin one after the other, none too late. */
  predicate Spawning(ps: seq<Params>, delay: nat, now: nat, f: Fleet) {
    && now <= f.now
    && (forall i :: 0 <= i < |f.loops| ==> |f.loops[i].starts| > 0 && f.loops[i].starts[0] <= SpawnedBy(ps, delay, now))
    && (|f.loops| < |ps| ==> f.since <= now + delay * |f.loops| && f.now <= f.since + delay)
  }

  /** The clock is held back by the loops still running, and then by Run. */
  predicate InTime(ps: seq<Params>, delay: nat, now: nat, f: Fleet)
    requires AllBounded(ps)
  {
    f.since <= LastReturn(ps, SpawnedBy(ps, delay, now)) && f.now <= RunReturnBy(ps, delay, now)
  }

  lemma LoopWithin(p: Params, now: nat, s: State)
    requires p.shutdown.Some? && p.interval > Turn(p)
    requires Reaches(p, Init(now), s)
    ensures s.now <= ReturnBy(p, now) && |s.starts| <= 1 + ReturnBy(p, now) / p.interval
  {
    var acts: seq<Action> :| Timely(p, Init(now), acts) && Exec(p, Init(now), acts) == s;
    LoopReturns(p, now, acts, s);
    PollsWithin(p, now, acts, s, ReturnBy(p, now));
  }

  lemma RunningWithin(ps: seq<Params>, delay: nat, now: nat, f: Fleet, i: nat, to: nat)
    requires Accounted(ps, f) && Faithful(ps, f) && Spawning(ps, delay, now, f) && AllBounded(ps)
    requires i < |f.loops| && !f.loops[i].main.Exited? && f.now <= to && MayReach(ps[i], f.loops[i], to)
    ensures to <= LastReturn(ps, SpawnedBy(ps, delay, now))
  {
    var t := Pass(ps[i], Init(f.loops[i].starts[0]), f.loops[i], to);
    LoopWithin(ps[i], f.loops[i].starts[0], t);
    LastReturnIsLast(ps, SpawnedBy(ps, delay, now), i, f.loops[i].starts[0]);
  }

  lemma NowWithin(ps: seq<Params>, delay: nat, now: nat, f: Fleet, i: nat)
    requires Accounted(ps, f) && Faithful(ps, f) && Spawning(ps, delay, now, f) && AllBounded(ps)
    requires i < |f.loops| && !f.loops[i].main.Exited?
    ensures f.now <= LastReturn(ps, SpawnedBy(ps, delay, now))
  {
    LoopWithin(ps[i], f.loops[i].starts[0], f.loops[i]);
    LastReturnIsLast(ps, SpawnedBy(ps, delay, now), i, f.loops[i].starts[0]);
  }

  lemma ClockWithin(ps: seq<Params>, delay: nat, now: nat, f: Fleet, to: nat)
    requires Accounted(ps, f) && Faithful(ps, f) && Spawning(ps, delay, now, f) && AllBounded(ps) && InTime(ps, delay, now, f)
    requires Can(ps, f, Clock(to)) && OnSchedule(ps, delay, f, Clock(to))
    ensures to <= RunReturnBy(ps, delay, now)
  {
    if f.wg != 0 {
      StillRunning(f.loops);
      var i :| 0 <= i < |f.loops| && !f.loops[i].main.Exited?;
      RunningWithin(ps, delay, now, f, i, to);
    } else {
      assert Can(ps, f, Spawn) || Can(ps, f, Return);
    }
  }

  lemma StartsKept(p: Params, s: State, a: Action)
    requires Enabled(p, s, a) && |s.starts| > 0
    ensures |Do(p, s, a).starts| > 0 && Do(p, s, a).starts[0] == s.starts[0]
  {
  }

  lemma SpawningSpawn(ps: seq<Params>, delay: nat, now: nat, f: Fleet)
    requires Spawning(ps, delay, now, f) && Can(ps, f, Spawn)
    ensures Spawning(ps, delay, now, Make(ps, f, Spawn))
    ensures f.now <= SpawnedBy(ps, delay, now)
  {
    Distribute(delay, |f.loops|, 1);
    MulMono(delay, |f.loops| + 1, |ps|);
  }

  lemma SpawningClock(ps: seq<Params>, delay: nat, now: nat, f: Fleet, to: nat)
    requires Spawning(ps, delay, now, f) && Can(ps, f, Clock(to)) && OnSchedule(ps, delay, f, Clock(to))
    ensures Spawning(ps, delay, now, Make(ps, f, Clock(to)))
  {
    var loops := AllLater(f.loops, to);
    forall i | 0 <= i < |loops| ensures loops[i].starts == f.loops[i].starts {
    }
  }

  lemma SpawningStep(ps: seq<Params>, delay: nat, now: nat, f: Fleet, m: Move)
    requires Spawning(ps, delay, now, f) && Can(ps, f, m) && OnSchedule(ps, delay, f, m)
    ensures Spawning(ps, delay, now, Make(ps, f, m))
  {
    match m
    case Spawn => SpawningSpawn(ps, delay, now, f);
    case Step(i, a) => StartsKept(ps[i], f.loops[i], a);
    case Clock(to) => SpawningClock(ps, delay, now, f, to);
    case Return =>
  }

  lemma InTimeStep(ps: seq<Params>, delay: nat, now: nat, f: Fleet, m: Move)
    requires Accounted(ps, f) && Faithful(ps, f) && Spawning(ps, delay, now, f) && AllBounded(ps) && InTime(ps, delay, now, f)
    requires Can(ps, f, m) && OnSchedule(ps, delay, f, m)
    ensures InTime(ps, delay, now, Make(ps, f, m))
  {
    match m
    case Spawn =>
      SpawningSpawn(ps, delay, now, f);
      StartIsEarlier(ps, SpawnedBy(ps, delay, now));
    case Step(i, a) => if a.SelectShutdown? { NowWithin(ps, delay, now, f, i); }
    case Clock(to) => ClockWithin(ps, delay, now, f, to);
    case Return =>
  }

  lemma {:induction false} StillRunning(loops: seq<State>)
    requires Running(loops) != 0
    ensures exists i :: 0 <= i < |loops| && !loops[i].main.Exited?
  {
    if loops[0].main.Exited? {
      StillRunning(loops[1..]);
      var i :| 0 <= i < |loops[1..]| && !loops[1..][i].main.Exited?;
      assert !loops[i + 1].main.Exited?;
    }
  }

  /** Moves left at most, when the clock stops at `horizon`. */
  function MovesLeft(ps: seq<Params>, now: nat, f: Fleet, horizon: nat): int {
    LoopsLeft(f.loops, horizon) + (horizon - f.now)
    + (|ps| - |f.loops|) * (1 + StepsLeft(Init(now), horizon, 1 + horizon))
    + (if f.returned then 0 else 1)
  }

  function LoopsLeft(loops: seq<State>, horizon: nat): int {
    if |loops| == 0 then 0 else LoopsLeft(loops[..|loops| - 1], horizon) + StepsLeft(Last(loops), horizon, 1 + horizon)
  }

  lemma {:induction false} LoopsLeftUpdate(loops: seq<State>, i: nat, s: State, horizon: nat)
    requires i < |loops|
    ensures LoopsLeft(loops[i := s], horizon)
         == LoopsLeft(loops, horizon) - StepsLeft(loops[i], horizon, 1 + horizon) + StepsLeft(s, horizon, 1 + horizon)
    decreases |loops|
  {
    var n := |loops| - 1;
    if i < n {
      LoopsLeftUpdate(loops[..n], i, s, horizon);
      assert loops[i := s][..n] == loops[..n][i := s];
    } else {
      assert loops[i := s][..n] == loops[..n];
    }
  }

  /** The clock gives no loop a further step. */
  lemma {:induction false} ClockCosts(loops: seq<State>, to: nat, horizon: nat)
    requires forall i :: 0 <= i < |loops| ==> loops[i].main.Exited? || loops[i].now < to
    ensures LoopsLeft(AllLater(loops, to), horizon) <= LoopsLeft(loops, horizon)
    decreases |loops|
  {
    if |loops| > 0 {
      var n := |loops| - 1;
      ClockCosts(loops[..n], to, horizon);
      assert AllLater(loops, to)[..n] == AllLater(loops[..n], to);
    }
  }

  lemma SpawnFalls(ps: seq<Params>, now: nat, f: Fleet, horizon: nat)
    requires now <= f.now && Can(ps, f, Spawn)
    ensures MovesLeft(ps, now, Make(ps, f, Spawn), horizon) < MovesLeft(ps, now, f, horizon)
  {
    var g := Make(ps, f, Spawn);
    assert g.loops[..|f.loops|] == f.loops;
    SpawnPays(|ps| - |f.loops|, 1 + StepsLeft(Init(now), horizon, 1 + horizon));
  }

  lemma SpawnPays(n: int, cost: int)
    ensures (n - 1) * cost == n * cost - cost
  {
  }

  lemma LoopFalls(p: Params, loops: seq<State>, i: nat, a: Action, horizon: nat)
    requires i < |loops| && Safe(p, loops[i]) && Enabled(p, loops[i], a)
    ensures LoopsLeft(loops[i := Do(p, loops[i], a)], horizon) < LoopsLeft(loops, horizon)
  {
    var s := Do(p, loops[i], a);
    StepsLeftFalls(p, loops[i], a, horizon, 1 + horizon);
    LoopsLeftUpdate(loops, i, s, horizon);
  }

  lemma StepFalls(ps: seq<Params>, now: nat, f: Fleet, i: nat, a: Action, horizon: nat)
    requires Can(ps, f, Step(i, a)) && Safe(ps[i], f.loops[i])
    ensures MovesLeft(ps, now, Make(ps, f, Step(i, a)), horizon) < MovesLeft(ps, now, f, horizon)
  {
    LoopFalls(ps[i], f.loops, i, a, horizon);
  }

  lemma LoopsDecide(ps: seq<Params>, now: nat, f: Fleet, g: Fleet, horizon: nat)
    requires |g.loops| == |f.loops| && g.returned == f.returned
    requires LoopsLeft(g.loops, horizon) - g.now < LoopsLeft(f.loops, horizon) - f.now
    ensures MovesLeft(ps, now, g, horizon) < MovesLeft(ps, now, f, horizon)
  {
  }

  lemma ClockFalls(ps: seq<Params>, now: nat, f: Fleet, to: nat, horizon: nat)
    requires Accounted(ps, f) && Can(ps, f, Clock(to))
    ensures MovesLeft(ps, now, Make(ps, f, Clock(to)), horizon) < MovesLeft(ps, now, f, horizon)
  {
    ClockCosts(f.loops, to, horizon);
    LoopsDecide(ps, now, f, Make(ps, f, Clock(to)), horizon);
  }

  lemma MovesLeftFalls(ps: seq<Params>, now: nat, f: Fleet, m: Move, horizon: nat)
    requires Accounted(ps, f) && now <= f.now && Can(ps, f, m)
    ensures MovesLeft(ps, now, Make(ps, f, m), horizon) < MovesLeft(ps, now, f, horizon)
  {
    match m
    case Spawn => SpawnFalls(ps, now, f, horizon);
    case Step(i, a) => StepFalls(ps, now, f, i, a, horizon);
    case Clock(to) => ClockFalls(ps, now, f, to, horizon);
    case Return =>
  }

  lemma {:induction false} FleetCosts(ps: seq<Params>, now: nat, f: Fleet, moves: seq<Move>, horizon: nat)
    requires Accounted(ps, f) && now <= f.now && FleetLegal(ps, f, moves)
    ensures MovesLeft(ps, now, FleetExec(ps, f, moves), horizon) + |moves| <= MovesLeft(ps, now, f, horizon)
    decreases |moves|
  {
    if |moves| > 0 {
      AccountedStep(ps, f, moves[0]);
      MovesLeftFalls(ps, now, f, moves[0], horizon);
      FleetCosts(ps, now, Make(ps, f, moves[0]), moves[1..], horizon);
    }
  }

  /** What a timely fleet keeps. */
  ghost predicate Together(ps: seq<Params>, delay: nat, now: nat, f: Fleet)
    requires AllBounded(ps)
  {
    Accounted(ps, f) && Faithful(ps, f) && Spawning(ps, delay, now, f) && InTime(ps, delay, now, f)
  }

  lemma TogetherStep(ps: seq<Params>, delay: nat, now: nat, f: Fleet, m: Move)
    requires AllBounded(ps) && Together(ps, delay, now, f) && Can(ps, f, m) && OnSchedule(ps, delay, f, m)
    ensures Together(ps, delay, now, Make(ps, f, m))
  {
    AccountedStep(ps, f, m);
    FaithfulStep(ps, delay, f, m);
    SpawningStep(ps, delay, now, f, m);
    InTimeStep(ps, delay, now, f, m);
  }

  lemma {:induction false} AlwaysTogether(ps: seq<Params>, delay: nat, now: nat, f: Fleet, moves: seq<Move>)
    requires AllBounded(ps) && Together(ps, delay, now, f) && FleetTimely(ps, delay, f, moves)
    ensures Together(ps, delay, now, FleetExec(ps, f, moves))
    decreases |moves|
  {
    if |moves| > 0 {
      TogetherStep(ps, delay, now, f, moves[0]);
      AlwaysTogether(ps, delay, now, Make(ps, f, moves[0]), moves[1..]);
    }
  }

  lemma {:induction false} LoopsLeftNatural(loops: seq<State>, horizon: nat)
    requires forall i :: 0 <= i < |loops| ==> loops[i].now <= horizon && |loops[i].starts| <= 1 + horizon
    ensures LoopsLeft(loops, horizon) >= 0
    decreases |loops|
  {
    if |loops| > 0 {
      LoopsLeftNatural(loops[..|loops| - 1], horizon);
      SomeLeft(Last(loops), horizon, 1 + horizon);
    }
  }

  /** Run terminates. With shutdown and every interval above its turn, for any number of domains:
      the clock stays within RunReturnBy, every run is finite with an explicit bound, and a run
      can only stop once Run has returned, even if every Poll hangs until it is told to stop. */
  lemma RunReturns(ps: seq<Params>, delay: nat, now: nat, moves: seq<Move>, f: Fleet)
    requires FleetTimely(ps, delay, Begin(now), moves) && f == FleetExec(ps, Begin(now), moves) && AllBounded(ps)
    ensures f.now <= RunReturnBy(ps, delay, now)
    ensures |moves| <= MovesLeft(ps, now, Begin(now), RunReturnBy(ps, delay, now))
    ensures !f.returned ==> FleetCanMove(ps, delay, f)
  {
    ReachedTogether(ps, delay, now, moves, f);
    TogetherCosts(ps, delay, now, moves, f);
    TogetherMoves(ps, delay, now, f);
  }

  lemma ReachedTogether(ps: seq<Params>, delay: nat, now: nat, moves: seq<Move>, f: Fleet)
    requires FleetTimely(ps, delay, Begin(now), moves) && f == FleetExec(ps, Begin(now), moves) && AllBounded(ps)
    ensures Together(ps, delay, now, f)
  {
    BeginTogether(ps, delay, now);
    AlwaysTogether(ps, delay, now, Begin(now), moves);
  }

  lemma BeginTogether(ps: seq<Params>, delay: nat, now: nat)
    requires AllBounded(ps)
    ensures Together(ps, delay, now, Begin(now))
  {
    StartIsEarlier(ps, SpawnedBy(ps, delay, now));
  }

  lemma TogetherCosts(ps: seq<Params>, delay: nat, now: nat, moves: seq<Move>, f: Fleet)
    requires FleetLegal(ps, Begin(now), moves) && f == FleetExec(ps, Begin(now), moves)
    requires AllBounded(ps) && Together(ps, delay, now, f)
    ensures |moves| <= MovesLeft(ps, now, Begin(now), RunReturnBy(ps, delay, now))
  {
    FleetCosts(ps, now, Begin(now), moves, RunReturnBy(ps, delay, now));
    TogetherLeft(ps, delay, now, f);
  }

  lemma TogetherMoves(ps: seq<Params>, delay: nat, now: nat, f: Fleet)
    requires AllBounded(ps) && Together(ps, delay, now, f)
    ensures f.now <= RunReturnBy(ps, delay, now)
    ensures !f.returned ==> FleetCanMove(ps, delay, f)
  {
    if !f.returned {
      FleetNeverStuck(ps, delay, f);
    }
  }

  lemma TogetherLeft(ps: seq<Params>, delay: nat, now: nat, f: Fleet)
    requires AllBounded(ps) && Together(ps, delay, now, f)
    ensures MovesLeft(ps, now, f, RunReturnBy(ps, delay, now)) >= 0
  {
    var horizon := RunReturnBy(ps, delay, now);
    forall i | 0 <= i < |f.loops| ensures f.loops[i].now <= horizon && |f.loops[i].starts| <= 1 + horizon {
      var begin := f.loops[i].starts[0];
      LoopWithin(ps[i], begin, f.loops[i]);
      LastReturnIsLast(ps, SpawnedBy(ps, delay, now), i, begin);
      SmallQuotient(ps[i].interval, ReturnBy(ps[i], begin));
    }
    MovesLeftNatural(ps, now, f, horizon);
  }

  lemma MovesLeftNatural(ps: seq<Params>, now: nat, f: Fleet, horizon: nat)
    requires |f.loops| <= |ps| && now <= f.now <= horizon
    requires forall i :: 0 <= i < |f.loops| ==> f.loops[i].now <= horizon && |f.loops[i].starts| <= 1 + horizon
    ensures MovesLeft(ps, now, f, horizon) >= 0
  {
    LoopsLeftNatural(f.loops, horizon);
    SomeLeft(Init(now), horizon, 1 + horizon);
    MulMono(|ps| - |f.loops|, 0, 1 + StepsLeft(Init(now), horizon, 1 + horizon));
  }
}
