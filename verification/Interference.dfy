/**
 Several domains at work on one registry. Their loops interleave operation by operation; as long
 as the domain names differ, each sees its own series as if it ran alone.
 */
module Interference {
  import opened Wrappers
  import opened Metrics
  import opened PollRunner
  import opened SelfMetrics
  import opened Domains
  import opened Serving
  import Pod

  /** The series a domain writes: those of its vecs, and its own label in the exporter's vecs. */
  predicate Owns(name: string, k: Key) {
    if Owner(k.vec).Some? then Name(Owner(k.vec).value) == name else k.labels == [name]
  }

  predicate Confined(name: string, op: Op) {
    match op
    case Reset(v) => Owner(v).Some? && Name(Owner(v).value) == name
    case Gauge(v, _) => Owner(v).Some? && Name(Owner(v).value) == name
    case Set(v, labels, _) => Owns(name, Key(v, labels))
    case Inc(v, labels) => Owns(name, Key(v, labels))
  }

  /** One operation, and the position in the domain list of the loop that performs it. */
  datatype Step = Step(dom: nat, op: Op)

  predicate Schedule(names: seq<string>, steps: seq<Step>) {
    forall i :: 0 <= i < |steps| ==> steps[i].dom < |names| && Confined(names[steps[i].dom], steps[i].op)
  }

  function All(steps: seq<Step>): seq<Op> {
    if |steps| == 0 then [] else All(steps[..|steps| - 1]) + [steps[|steps| - 1].op]
  }

  /** The operations of one loop, in its own order. */
  function Own(steps: seq<Step>, i: nat): seq<Op> {
    if |steps| == 0 then []
    else Own(steps[..|steps| - 1], i) + (if steps[|steps| - 1].dom == i then [steps[|steps| - 1].op] else [])
  }

  predicate Distinct(names: seq<string>) {
    forall i, j :: 0 <= i < j < |names| ==> names[i] != names[j]
  }

  lemma Foreign(name: string, other: string, op: Op, k: Key, v: Option<real>)
    requires name != other && Owns(name, k) && Confined(other, op)
    ensures Effect(op, k, v) == v
  {
    assert [name][0] != [other][0];
  }

  lemma {:induction false} AsIfAlone(names: seq<string>, steps: seq<Step>, i: nat, k: Key, v: Option<real>)
    requires Distinct(names) && Schedule(names, steps) && i < |names| && Owns(names[i], k)
    ensures KeyRun(v, All(steps), k) == KeyRun(v, Own(steps, i), k)
    decreases |steps|
  {
    if |steps| > 0 {
      var n := |steps| - 1;
      var last := steps[n];
      AsIfAlone(names, steps[..n], i, k, v);
      assert All(steps)[..|All(steps)| - 1] == All(steps[..n]);
      if last.dom == i {
        assert Own(steps, i)[..|Own(steps, i)| - 1] == Own(steps[..n], i);
      } else {
        assert Own(steps, i) == Own(steps[..n], i);
        Foreign(names[i], names[last.dom], last.op, k, KeyRun(v, All(steps[..n]), k));
      }
    }
  }

  /** No interleaving lets one domain disturb another. */
  ghost predicate InterferenceFree(names: seq<string>) {
    forall st: Series, steps: seq<Step>, i: nat, k: Key ::
      Schedule(names, steps) && i < |names| && Owns(names[i], k) ==>
        Lookup(Run(st, All(steps)), k) == Lookup(Run(st, Own(steps, i)), k)
  }

  /** Distinct names are exactly what rules interference out. */
  lemma InterferenceFreeIff(names: seq<string>)
    ensures InterferenceFree(names) <==> Distinct(names)
  {
    if Distinct(names) {
      forall st: Series, steps: seq<Step>, i: nat, k: Key |
        Schedule(names, steps) && i < |names| && Owns(names[i], k)
        ensures Lookup(Run(st, All(steps)), k) == Lookup(Run(st, Own(steps, i)), k)
      {
        Pointwise(st, All(steps), k);
        Pointwise(st, Own(steps, i), k);
        AsIfAlone(names, steps, i, k, Lookup(st, k));
      }
    } else {
      var i, j :| 0 <= i < j < |names| && names[i] == names[j];
      SharedErrorCounter(names, i, j);
    }
  }

  /** Two loops of the same name share their error counter: one failed poll shows up in both. */
  lemma SharedErrorCounter(names: seq<string>, i: nat, j: nat)
    requires i < j < |names| && names[i] == names[j]
    ensures !InterferenceFree(names)
  {
    var k := Key(ScrapeErrorsTotal, [names[i]]);
    var op := Op.Inc(ScrapeErrorsTotal, [names[i]]);
    var steps := [Step(j, op)];
    assert steps == [] + Tagged(j, [op]);
    TaggedAll([], j, [op], i);
    assert All(steps) == [op] && Own(steps, i) == [];
    assert [op][..0] == [];
    assert Lookup(Run(map[], [op]), k) == Some(1.0);
    assert Lookup(Run(map[], Own(steps, i)), k) == None;
    assert Schedule(names, steps) && Owns(names[i], k);
  }

  // ----- two loops of the same domain -----

  function Tagged(dom: nat, ops: seq<Op>): seq<Step> {
    seq(|ops|, i requires 0 <= i < |ops| => Step(dom, ops[i]))
  }

  lemma {:induction false} TaggedAll(steps: seq<Step>, dom: nat, ops: seq<Op>, i: nat)
    ensures All(steps + Tagged(dom, ops)) == All(steps) + ops
    ensures Own(steps + Tagged(dom, ops), i) == Own(steps, i) + (if dom == i then ops else [])
    decreases |ops|
  {
    if |ops| == 0 {
      assert steps + Tagged(dom, ops) == steps;
    } else {
      var n := |ops| - 1;
      var before := steps + Tagged(dom, ops[..n]);
      TaggedAll(steps, dom, ops[..n], i);
      assert steps + Tagged(dom, ops) == before + [Step(dom, ops[n])];
      OneStep(before, Step(dom, ops[n]), i);
      assert ops == ops[..n] + [ops[n]];
    }
  }

  lemma OneStep(steps: seq<Step>, step: Step, i: nat)
    ensures All(steps + [step]) == All(steps) + [step.op]
    ensures Own(steps + [step], i) == Own(steps, i) + (if step.dom == i then [step.op] else [])
  {
    assert (steps + [step])[..|steps|] == steps;
  }

  /** Both loops reset before either repopulates. */
  function Overlap(a: Pod.Pod, b: Pod.Pod): seq<Step> {
    [] + Tagged(0, Resets(Pod.VECS)) + Tagged(1, Resets(Pod.VECS)) + Tagged(0, Pod.PodOps(a)) + Tagged(1, Pod.PodOps(b))
  }

  /** With the domain list pod,pod two complete polls, each for a list of one pod, can leave a
      registry that shows both pods: a mixture that neither response contains. */
  lemma DuplicateDomainsMix(a: Pod.Pod, b: Pod.Pod)
    requires a.id != b.id
    ensures var st := Run(map[], All(Overlap(a, b)));
            && Own(Overlap(a, b), 0) == Pod.PollOps([a])
            && Own(Overlap(a, b), 1) == Pod.PollOps([b])
            && Key(PodCostPerHourDollars, [a.id]) in st && Key(PodCostPerHourDollars, [b.id]) in st
            && Key(PodCostPerHourDollars, [a.id]) !in Run(map[], Pod.PollOps([b]))
            && Key(PodCostPerHourDollars, [b.id]) !in Run(map[], Pod.PollOps([a]))
  {
    OverlapOwn(a, b, 0);
    OverlapOwn(a, b, 1);
    OneBlock(a);
    OneBlock(b);
    SinglePod(a, b);
    SinglePod(b, a);
    BothThere(a, b, Key(PodCostPerHourDollars, [a.id]));
    BothThere(a, b, Key(PodCostPerHourDollars, [b.id]));
  }

  lemma OverlapAll(a: Pod.Pod, b: Pod.Pod)
    ensures All(Overlap(a, b)) == Resets(Pod.VECS) + Resets(Pod.VECS) + Pod.PodOps(a) + Pod.PodOps(b)
  {
    FourRuns(Resets(Pod.VECS), Resets(Pod.VECS), Pod.PodOps(a), Pod.PodOps(b), 0);
  }

  lemma OverlapOwn(a: Pod.Pod, b: Pod.Pod, i: nat)
    requires i < 2
    ensures Own(Overlap(a, b), i) == Resets(Pod.VECS) + Pod.PodOps(if i == 0 then a else b)
  {
    FourRuns(Resets(Pod.VECS), Resets(Pod.VECS), Pod.PodOps(a), Pod.PodOps(b), i);
  }

  lemma TwoRuns(steps: seq<Step>, a: seq<Op>, b: seq<Op>, i: nat)
    requires i < 2
    ensures var all := steps + Tagged(0, a) + Tagged(1, b);
            && All(all) == All(steps) + a + b
            && Own(all, i) == Own(steps, i) + if i == 0 then a else b
  {
    TaggedAll(steps, 0, a, i);
    TaggedAll(steps + Tagged(0, a), 1, b, i);
  }

  lemma FourRuns(a: seq<Op>, b: seq<Op>, c: seq<Op>, d: seq<Op>, i: nat)
    requires i < 2
    ensures var steps := [] + Tagged(0, a) + Tagged(1, b) + Tagged(0, c) + Tagged(1, d);
            && All(steps) == a + b + c + d
            && Own(steps, i) == if i == 0 then a + c else b + d
  {
    TwoRuns([], a, b, i);
    TwoRuns([] + Tagged(0, a) + Tagged(1, b), c, d, i);
  }

  lemma OneBlock(a: Pod.Pod)
    ensures Pod.PollOps([a]) == Resets(Pod.VECS) + Pod.PodOps(a)
  {
    assert [a][..0] == [];
    assert Blocks([a], Pod.PodOps) == Pod.PodOps(a);
  }

  lemma SinglePod(a: Pod.Pod, b: Pod.Pod)
    requires a.id != b.id
    ensures Key(PodCostPerHourDollars, [b.id]) !in Run(map[], Pod.PollOps([a]))
  {
    var k := Key(PodCostPerHourDollars, [b.id]);
    Pod.PollShows(map[], [a]);
    assert Lookup(Run(map[], Pod.PollOps([a])), k) == Pod.View([a])(k);
    assert [a.id][0] != [b.id][0];
    assert Pod.Reading(a, k).None?;
    LastReadingIff([a], Pod.Reading, k, 0.0);
  }

  lemma BothThere(a: Pod.Pod, b: Pod.Pod, k: Key)
    requires k == Key(PodCostPerHourDollars, [a.id]) || k == Key(PodCostPerHourDollars, [b.id])
    ensures k in Run(map[], All(Overlap(a, b)))
  {
    var r := Resets(Pod.VECS);
    OverlapAll(a, b);
    Pointwise(map[], All(Overlap(a, b)), k);
    KeyRunAppend(None, r + r + Pod.PodOps(a), Pod.PodOps(b), k);
    KeyRunAppend(None, r + r, Pod.PodOps(a), k);
    Pod.PodWrites(a);
    Pod.PodWrites(b);
  }

  // ----- every domain, concurrently -----

  /** A loop of domain `domain` that has completed `polls` and performed the first n operations of
      its next poll, those of Poll and then those of the record. */
  datatype Loop = Loop(domain: Domain, polls: seq<Completed>, next: Completed, n: nat)

  ghost predicate Proper(l: Loop) {
    && ArePolls(l.domain, l.polls) && IsPoll(l.domain, l.next)
    && l.n <= |CompletedOps(Name(l.domain), l.next)|
  }

  function LoopOps(l: Loop): seq<Op>
    requires l.n <= |CompletedOps(Name(l.domain), l.next)|
  {
    DomainOps(Name(l.domain), l.polls) + CompletedOps(Name(l.domain), l.next)[..l.n]
  }

  /** The steps are an interleaving of what the loops have done so far. */
  ghost predicate Interleaves(steps: seq<Step>, loops: seq<Loop>) {
    && (forall i :: 0 <= i < |loops| ==> Proper(loops[i]) && Own(steps, i) == LoopOps(loops[i]))
    && (forall j :: 0 <= j < |steps| ==> steps[j].dom < |loops|)
  }

  function LoopNames(loops: seq<Loop>): seq<string> {
    seq(|loops|, i requires 0 <= i < |loops| => Name(loops[i].domain))
  }

  lemma {:induction false} StepIsOwn(steps: seq<Step>, j: nat)
    requires j < |steps|
    ensures steps[j].op in Own(steps, steps[j].dom)
    decreases |steps|
  {
    if j < |steps| - 1 {
      StepIsOwn(steps[..|steps| - 1], j);
    }
  }

  lemma PollConfined(d: Domain, c: Completed)
    requires IsPoll(d, c)
    ensures forall op :: op in CompletedOps(Name(d), c) ==> Confined(Name(d), op)
  {
    forall op | op in CompletedOps(Name(d), c) ensures Confined(Name(d), op) {
      if op in c.program {
        assert Owner(op.vec) == Some(d);
      } else {
        RecordConfined(Name(d), c.record);
      }
    }
  }

  lemma RecordConfined(name: string, f: Finished)
    ensures forall op :: op in RecordOps(name, f) ==> Confined(name, op)
  {
  }

  lemma {:induction false} DomainConfined(d: Domain, polls: seq<Completed>)
    requires ArePolls(d, polls)
    ensures forall op :: op in DomainOps(Name(d), polls) ==> Confined(Name(d), op)
    decreases |polls|
  {
    if |polls| > 0 {
      DomainConfined(d, polls[..|polls| - 1]);
      PollConfined(d, polls[|polls| - 1]);
    }
  }

  /** Loops confine themselves, so every interleaving of them is a schedule. */
  lemma LoopsAreScheduled(steps: seq<Step>, loops: seq<Loop>)
    requires Interleaves(steps, loops)
    ensures Schedule(LoopNames(loops), steps)
  {
    forall j | 0 <= j < |steps| ensures Confined(LoopNames(loops)[steps[j].dom], steps[j].op) {
      var l := loops[steps[j].dom];
      StepIsOwn(steps, j);
      DomainConfined(l.domain, l.polls);
      PollConfined(l.domain, l.next);
    }
  }

  /** In every interleaving each loop's own series are as if it had run alone. */
  lemma LoopAlone(steps: seq<Step>, loops: seq<Loop>, i: nat, k: Key)
    requires Interleaves(steps, loops) && Distinct(LoopNames(loops)) && i < |loops|
    requires Owns(Name(loops[i].domain), k)
    ensures Lookup(Run(map[], All(steps)), k) == Lookup(Run(map[], LoopOps(loops[i])), k)
  {
    LoopsAreScheduled(steps, loops);
    Pointwise(map[], All(steps), k);
    Pointwise(map[], Own(steps, i), k);
    AsIfAlone(LoopNames(loops), steps, i, k, None);
  }

  /** One generation at a time survives concurrency: for any number of loops with distinct names, at
      every point of every interleaving, each vec of each domain shows the last fully successful
      answer of that domain, or the part of the next one written so far, and nothing else. */
  lemma ConcurrentOneGeneration(steps: seq<Step>, loops: seq<Loop>, i: nat, v: Vec)
    requires Interleaves(steps, loops) && Distinct(LoopNames(loops)) && i < |loops|
    requires Owner(v) == Some(loops[i].domain)
    ensures OneGeneration(Run(map[], All(steps)), loops[i].polls, loops[i].next, loops[i].n, v)
  {
    var l := loops[i];
    AlwaysOneGeneration(l.domain, l.polls, l.next, l.n, v);
    forall k: Key | k.vec == v
      ensures Lookup(Run(map[], All(steps)), k) == Lookup(Run(map[], LoopOps(l)), k)
    {
      LoopAlone(steps, loops, i, k);
    }
    SameGeneration(Run(map[], All(steps)), Run(map[], LoopOps(l)), l.polls, l.next, l.n, v);
  }

  lemma SameGeneration(a: Series, b: Series, polls: seq<Completed>, next: Completed, n: nat, v: Vec)
    requires forall k: Key :: k.vec == v ==> Lookup(a, k) == Lookup(b, k)
    requires OneGeneration(b, polls, next, n, v)
    ensures OneGeneration(a, polls, next, n, v)
  {
    forall k: Key | k.vec == v && k in a ensures k in b && a[k] == b[k] {
      assert Lookup(a, k) == Lookup(b, k);
    }
  }

  // ----- the accounting, concurrently -----

  lemma ProgramLeavesSelf(c: Completed, n: nat, k: Key, v: Option<real>)
    requires LeavesSelf(c) && SelfVec(k.vec)
    ensures KeyRun(v, Written(c, n), k) == v
  {
    forall op | op in Written(c, n) ensures op.vec != k.vec {
      assert op in c.program;
    }
    Untouched(v, Written(c, n), k);
  }

  lemma WholePoll(name: string, c: Completed, k: Key, v: Option<real>)
    requires LeavesSelf(c) && SelfVec(k.vec)
    ensures KeyRun(v, CompletedOps(name, c), k) == KeyRun(v, RecordOps(name, c.record), k)
  {
    KeyRunAppend(v, c.program, RecordOps(name, c.record), k);
    ProgramLeavesSelf(c, |c.program|, k, v);
    assert Written(c, |c.program|) == c.program;
  }

  predicate LeavesSelf(c: Completed) {
    forall op :: op in c.program ==> !SelfVec(op.vec)
  }

  lemma PollLeavesSelf(d: Domain, c: Completed)
    requires IsPoll(d, c)
    ensures LeavesSelf(c)
  {
    forall op | op in c.program ensures !SelfVec(op.vec) {
      assert Owner(op.vec) == Some(d);
    }
  }

  lemma NextOwnRecord(name: string, polls: seq<Completed>, c: Completed, k: Key)
    requires SelfVec(k.vec) && LeavesSelf(c)
    ensures KeyRun(None, DomainOps(name, polls) + CompletedOps(name, c), k)
         == KeyRun(KeyRun(None, DomainOps(name, polls), k), RecordOps(name, c.record), k)
  {
    KeyRunAppend(None, DomainOps(name, polls), CompletedOps(name, c), k);
    WholePoll(name, c, k, KeyRun(None, DomainOps(name, polls), k));
  }

  lemma HistoryNext(name: string, finished: seq<Finished>, f: Finished, k: Key)
    ensures KeyRun(None, History(name, finished + [f]), k) == KeyRun(KeyRun(None, History(name, finished), k), RecordOps(name, f), k)
  {
    assert (finished + [f])[..|finished|] == finished;
    KeyRunAppend(None, History(name, finished), RecordOps(name, f), k);
  }

  lemma RecordsSplit(polls: seq<Completed>)
    requires |polls| > 0
    ensures Records(polls) == Records(polls[..|polls| - 1]) + [polls[|polls| - 1].record]
  {
  }

  lemma {:induction false} RecordsAlone(name: string, polls: seq<Completed>, k: Key)
    requires SelfVec(k.vec) && forall i :: 0 <= i < |polls| ==> LeavesSelf(polls[i])
    ensures KeyRun(None, DomainOps(name, polls), k) == KeyRun(None, History(name, Records(polls)), k)
    decreases |polls|
  {
    if |polls| > 0 {
      var n := |polls| - 1;
      RecordsAlone(name, polls[..n], k);
      NextOwnRecord(name, polls[..n], polls[n], k);
      HistoryNext(name, Records(polls[..n]), polls[n].record, k);
      RecordsSplit(polls);
    }
  }

  /** A domain's own series after its polls. */
  lemma OwnRecords(d: Domain, polls: seq<Completed>, k: Key)
    requires SelfVec(k.vec) && ArePolls(d, polls)
    ensures KeyRun(None, DomainOps(Name(d), polls), k) == Recorded(Name(d), Records(polls), k)
  {
    forall i | 0 <= i < |polls| ensures LeavesSelf(polls[i]) {
      PollLeavesSelf(d, polls[i]);
    }
    RecordsAlone(Name(d), polls, k);
    Accounting(Name(d), Records(polls), k);
  }

  lemma WithNext(d: Domain, polls: seq<Completed>, next: Completed, k: Key)
    requires SelfVec(k.vec)
    ensures Recorded(Name(d), Records(polls + [next]), k)
         == KeyRun(Recorded(Name(d), Records(polls), k), RecordOps(Name(d), next.record), k)
  {
    assert Records(polls + [next])[..|polls|] == Records(polls);
    RecordedNext(Name(d), Records(polls + [next]), k);
  }

  lemma PartOfSets(a: Op, b: Op, n: nat, k: Key, v: Option<real>)
    requires a.Set? && b.Set? && a.vec != b.vec && n <= 2
    ensures var part := KeyRun(v, [a, b][..n], k);
            part == v || part == KeyRun(v, [a, b], k)
  {
    assert [a, b][..1] == [a] && [a][..0] == [];
    if n == 2 {
      assert [a, b][..2] == [a, b];
    }
  }

  /** Part of a record leaves each series as it was or as the whole record makes it. */
  lemma PartOfRecord(name: string, f: Finished, n: nat, k: Key, v: Option<real>)
    requires n <= |RecordOps(name, f)|
    ensures var part := KeyRun(v, RecordOps(name, f)[..n], k);
            && (part == v || part == KeyRun(v, RecordOps(name, f), k))
            && (n == 0 ==> part == v)
            && (n == |RecordOps(name, f)| ==> part == KeyRun(v, RecordOps(name, f), k))
  {
    var ops := RecordOps(name, f);
    assert ops[..0] == [] && ops[..|ops|] == ops;
    if f.ok {
      assert ops == [ops[0], ops[1]];
      PartOfSets(ops[0], ops[1], n, k, v);
    }
  }

  /** So does the accounting: at every point of every interleaving, also between the two writes of a
      record, each of a domain's own three series is what its completed polls make it or, once its
      next poll is recording, what they make it with that poll included. */
  lemma ConcurrentAccounting(steps: seq<Step>, loops: seq<Loop>, i: nat, k: Key)
    requires Interleaves(steps, loops) && Distinct(LoopNames(loops)) && i < |loops|
    requires SelfVec(k.vec) && k.labels == [Name(loops[i].domain)]
    ensures var l := loops[i];
            var name := Name(l.domain);
            var shown := Lookup(Run(map[], All(steps)), k);
            && (shown == Recorded(name, Records(l.polls), k) || shown == Recorded(name, Records(l.polls + [l.next]), k))
            && (l.n <= |l.next.program| ==> shown == Recorded(name, Records(l.polls), k))
            && (l.n == |CompletedOps(name, l.next)| ==> shown == Recorded(name, Records(l.polls + [l.next]), k))
  {
    LoopAlone(steps, loops, i, k);
    Pointwise(map[], LoopOps(loops[i]), k);
    LoopAccounting(loops[i], k);
  }

  lemma LoopAccounting(l: Loop, k: Key)
    requires Proper(l) && SelfVec(k.vec)
    ensures var name := Name(l.domain);
            var shown := KeyRun(None, LoopOps(l), k);
            && (shown == Recorded(name, Records(l.polls), k) || shown == Recorded(name, Records(l.polls + [l.next]), k))
            && (l.n <= |l.next.program| ==> shown == Recorded(name, Records(l.polls), k))
            && (l.n == |CompletedOps(name, l.next)| ==> shown == Recorded(name, Records(l.polls + [l.next]), k))
  {
    var name := Name(l.domain);
    var was := KeyRun(None, DomainOps(name, l.polls), k);
    KeyRunAppend(None, DomainOps(name, l.polls), CompletedOps(name, l.next)[..l.n], k);
    OwnRecords(l.domain, l.polls, k);
    PollLeavesSelf(l.domain, l.next);
    PartAccounting(l.domain, l.next, l.n, k, was);
    WithNext(l.domain, l.polls, l.next, k);
  }

  lemma PartAccounting(d: Domain, c: Completed, n: nat, k: Key, was: Option<real>)
    requires LeavesSelf(c) && SelfVec(k.vec) && n <= |CompletedOps(Name(d), c)|
    ensures var part := KeyRun(was, CompletedOps(Name(d), c)[..n], k);
            && (part == was || part == KeyRun(was, RecordOps(Name(d), c.record), k))
            && (n <= |c.program| ==> part == was)
            && (n == |CompletedOps(Name(d), c)| ==> part == KeyRun(was, RecordOps(Name(d), c.record), k))
  {
    OnlyRecordCounts(d, c, n, k, was);
    PartOfRecord(Name(d), c.record, n - |Written(c, n)|, k, was);
  }

  lemma OnlyRecordCounts(d: Domain, c: Completed, n: nat, k: Key, was: Option<real>)
    requires LeavesSelf(c) && SelfVec(k.vec) && n <= |CompletedOps(Name(d), c)|
    ensures KeyRun(was, CompletedOps(Name(d), c)[..n], k)
         == KeyRun(was, RecordOps(Name(d), c.record)[..n - |Written(c, n)|], k)
  {
    PartOfPoll(Name(d), c, n);
    KeyRunAppend(was, Written(c, n), RecordOps(Name(d), c.record)[..n - |Written(c, n)|], k);
    ProgramLeavesSelf(c, n, k, was);
  }
}
