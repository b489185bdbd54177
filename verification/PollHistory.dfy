/**
 What a run records is what happened in it. The trace of a run is read off its actions alone: when
 each poll was entered, when it created its context, when Poll returned and with what, and when the
 outcome was recorded.
 */
module PollHistory {
  import opened PollRunner
  import opened PollSafety

  datatype Trace = Trace(
    now: nat,
    entered: seq<nat>,
    created: seq<nat>,
    returned: seq<nat>,
    oks: seq<bool>,
    recorded: seq<nat>)

  function Observe(t: Trace, a: Action): Trace {
    match a
    case Advance(to) => t.(now := to)
    case SelectTick => t.(entered := t.entered + [t.now])
    case CreateContext => t.(created := t.created + [t.now])
    case PollReturns(ok) => t.(returned := t.returned + [t.now], oks := t.oks + [ok])
    case MainRecords => t.(recorded := t.recorded + [t.now])
    case _ => t
  }

  function TraceOf(begin: nat, acts: seq<Action>): Trace {
    if |acts| == 0 then Trace(begin, [begin], [], [], [], [])
    else Observe(TraceOf(begin, acts[..|acts| - 1]), acts[|acts| - 1])
  }

  lemma {:induction false} LastStep(p: Params, s: State, acts: seq<Action>)
    requires |acts| > 0 && Legal(p, s, acts)
    ensures var front := acts[..|acts| - 1];
            && Legal(p, s, front) && Enabled(p, Exec(p, s, front), acts[|acts| - 1])
            && Exec(p, s, acts) == Do(p, Exec(p, s, front), acts[|acts| - 1])
    decreases |acts|
  {
    if |acts| > 1 {
      var rest := acts[1..];
      LastStep(p, Do(p, s, acts[0]), rest);
      assert acts[..|acts| - 1][1..] == rest[..|rest| - 1];
    }
  }

  /** Polls whose Poll has returned but whose outcome is not yet recorded. */
  function Unrecorded(m: Main): nat {
    if m.Unwinding? || m.Joining? || m.Recording? then 1 else 0
  }

  /** Where the loop is in its latest poll. */
  predicate InStep(s: State, t: Trace) {
    && s.now == t.now && s.starts == t.entered
    && |t.oks| == |t.returned| == |s.finished| + Unrecorded(s.main)
    && |t.created| == |t.returned| + (if s.main.InPoll? then 1 else 0)
    && (s.main.InPoll? ==> s.main.start == t.created[|t.returned|])
    && (Unrecorded(s.main) == 1 ==>
          && s.main.outcome.ok == t.oks[|s.finished|]
          && t.created[|s.finished|] + s.main.outcome.elapsed == t.returned[|s.finished|])
  }

  predicate Records(finished: seq<Finished>, t: Trace) {
    && |finished| == |t.recorded| <= |t.returned| <= |t.created| && |t.oks| == |t.returned|
    && forall i :: 0 <= i < |finished| ==>
         && finished[i].ok == t.oks[i]
         && t.created[i] + finished[i].elapsed == t.returned[i]
         && finished[i].at == t.recorded[i]
  }

  lemma InStepStep(p: Params, s: State, a: Action, t: Trace)
    requires Enabled(p, s, a) && InStep(s, t) && Records(s.finished, t)
    ensures InStep(Do(p, s, a), Observe(t, a))
  {
  }

  lemma RecordsStep(p: Params, s: State, a: Action, t: Trace)
    requires Enabled(p, s, a) && InStep(s, t) && Records(s.finished, t)
    ensures Records(Do(p, s, a).finished, Observe(t, a))
  {
    if !a.MainRecords? {
      assert Do(p, s, a).finished == s.finished;
    }
  }

  lemma {:induction false} AlwaysInStep(p: Params, begin: nat, acts: seq<Action>)
    requires Legal(p, Init(begin), acts)
    ensures InStep(Exec(p, Init(begin), acts), TraceOf(begin, acts))
    ensures Records(Exec(p, Init(begin), acts).finished, TraceOf(begin, acts))
    decreases |acts|
  {
    if |acts| > 0 {
      var front := acts[..|acts| - 1];
      LastStep(p, Init(begin), acts);
      AlwaysInStep(p, begin, front);
      InStepStep(p, Exec(p, Init(begin), front), acts[|acts| - 1], TraceOf(begin, front));
      RecordsStep(p, Exec(p, Init(begin), front), acts[|acts| - 1], TraceOf(begin, front));
    }
  }

  /** In every legal run the i-th record is true to the i-th poll: its outcome is what the i-th
      Poll returned, its duration the time from creating the context to that return, its instant
      that of recording it; and the polls were entered when the loop took their ticks. */
  lemma RecordsWhatHappened(p: Params, begin: nat, acts: seq<Action>, s: State)
    requires Legal(p, Init(begin), acts) && s == Exec(p, Init(begin), acts)
    ensures var t := TraceOf(begin, acts);
            && s.now == t.now && s.starts == t.entered
            && |s.finished| == |t.recorded| <= |t.returned| == |t.oks| <= |t.recorded| + 1
            && |t.returned| <= |t.created| <= |t.entered|
            && (s.main.Selecting? || s.main.Exited? ==> |s.finished| == |t.returned|)
            && forall i :: 0 <= i < |s.finished| ==>
                 && s.finished[i].ok == t.oks[i]
                 && t.created[i] + s.finished[i].elapsed == t.returned[i]
                 && s.finished[i].at == t.recorded[i]
  {
    AlwaysInStep(p, begin, acts);
    AlwaysSafe(p, Init(begin), acts);
  }
}
