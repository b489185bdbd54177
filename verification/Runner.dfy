/**
 Polls as the runner performs them on the registry: d.Poll followed by the self-metrics update,
 once and over a whole sequence of API answers.
 */
module Runner {
  import opened Wrappers
  import opened Metrics
  import opened Domains
  import opened PollRunner
  import opened SelfMetrics
  import opened Answers
  import opened Programs
  import opened Serving
  import opened Interference
  import Pod
  import Serverless
  import Catalog
  import Cluster
  import Registry

  /** The operations of a Poll that got answer `a`: all or nothing. */
  ghost predicate AllOrNothing(a: Answer, program: seq<Op>) {
    if Good(a) then IsProgram(a, program) else program == []
  }

  /** d.Poll, whichever of the five domains. */
  method PollDomain(store: MetricStore, a: Answer) returns (failed: bool, ghost program: seq<Op>)
    requires store.Valid() && !a.OtherAnswer?
    modifies store
    ensures store.Valid()
    ensures failed <==> !Good(a)
    ensures AllOrNothing(a, program) && store.log == old(store.log) + program
  {
    program := [];
    match a
    case PodAnswer(pods) =>
      var r := Pod.Poll(store, pods);
      failed := r.Failure?;
      if r.Success? {
        PodProgram(a);
        program := Pod.PollOps(pods.value);
      }
    case ServerlessAnswer(endpoints, workers) =>
      var r := Serverless.Poll(store, endpoints, workers);
      failed := r.Failure?;
      if r.Success? {
        ServerlessProgram(a);
        program := Serverless.PollOps(Serverless.Listed(endpoints.value, workers));
      }
    case CatalogAnswer(gpus, cpus) =>
      var r := Catalog.Poll(store, gpus, cpus);
      failed := r.Failure?;
      if r.Success? {
        CatalogProgram(a);
        program := Catalog.PollOps(Catalog.Responses(gpus), cpus.value);
      }
    case ClusterAnswer(clusters) =>
      var r, visits := Cluster.Poll(store, clusters);
      failed := r.Failure?;
      if r.Success? {
        ClusterProgram(a, visits);
        program := Cluster.PollOps(visits);
      }
    case RegistryAnswer(registries, delegations) =>
      var r := Registry.Poll(store, registries, delegations);
      failed := r.Failure?;
      if r.Success? {
        RegistryProgram(a);
        program := Registry.PollOps(registries.value, |delegations.value|);
      }
  }

  /** A poll's timing, as measured. */
  datatype Timing = Timing(elapsed: int, at: nat)

  function RecordOf(a: Answer, t: Timing): Finished {
    Finished(Good(a), t.elapsed, t.at)
  }

  /** One poll as the runner performs it: a successful answer is what the domain's series show
      afterwards, and a failed one leaves them. */
  method PollOnce(store: MetricStore, a: Answer, t: Timing) returns (ghost c: Completed)
    requires store.Valid() && !a.OtherAnswer?
    modifies store
    ensures store.Valid()
    ensures IsPoll(DomainOf(a), c) && c.answer == a && c.record == RecordOf(a, t)
    ensures store.log == old(store.log) + CompletedOps(Name(DomainOf(a)), c)
    ensures forall k: Key :: Owner(k.vec).Some? ==>
              Lookup(store.series, k)
              == if Good(a) && Owner(k.vec) == Some(DomainOf(a)) then View(a)(k) else Lookup(old(store.series), k)
  {
    ghost var d := DomainOf(a);
    var failed, program := PollDomain(store, a);
    Record(store, Name(DomainOf(a)), failed, t.elapsed, t.at);
    c := Completed(a, program, RecordOf(a, t));
    Assoc(old(store.log), program, RecordOps(Name(d), c.record));
    RunAppend(map[], old(store.log), CompletedOps(Name(d), c));
    forall k: Key | Owner(k.vec).Some?
      ensures Lookup(store.series, k)
           == if Good(a) && Owner(k.vec) == Some(d) then View(a)(k) else Lookup(old(store.series), k)
    {
      OnePoll(Name(d), d, c, old(store.series), k);
    }
  }

  function RecordsOf(answers: seq<Answer>, timings: seq<Timing>): seq<Finished>
    requires |answers| == |timings|
  {
    seq(|answers|, i requires 0 <= i < |answers| => RecordOf(answers[i], timings[i]))
  }

  /** The completed polls are one per answer, in order. */
  ghost predicate Performed(d: Domain, polls: seq<Completed>, answers: seq<Answer>, timings: seq<Timing>)
    requires |answers| == |timings|
  {
    ArePolls(d, polls) && AnswersOf(polls) == answers && Records(polls) == RecordsOf(answers, timings)
  }

  lemma PerformedMore(d: Domain, polls: seq<Completed>, c: Completed, answers: seq<Answer>, timings: seq<Timing>, i: nat)
    requires i < |answers| == |timings| && Performed(d, polls, answers[..i], timings[..i])
    requires IsPoll(d, c) && c.answer == answers[i] && c.record == RecordOf(answers[i], timings[i])
    ensures Performed(d, polls + [c], answers[..i + 1], timings[..i + 1])
    ensures DomainOps(Name(d), polls + [c]) == DomainOps(Name(d), polls) + CompletedOps(Name(d), c)
  {
    assert (polls + [c])[..|polls|] == polls;
    assert AnswersOf(polls + [c]) == AnswersOf(polls) + [c.answer];
    assert Records(polls + [c]) == Records(polls) + [c.record];
    assert answers[..i + 1] == answers[..i] + [answers[i]];
    assert RecordsOf(answers[..i + 1], timings[..i + 1])
        == RecordsOf(answers[..i], timings[..i]) + [RecordOf(answers[i], timings[i])];
  }

  /** What the registry shows of a domain after these answers: each of its series is the projection of
      the last fully successful one, or absent if there was none; its own series are those of the
      polls, failed or not. */
  ghost predicate Serves(st: Series, d: Domain, answers: seq<Answer>, timings: seq<Timing>)
    requires |answers| == |timings|
  {
    && (forall k: Key :: Owner(k.vec) == Some(d) ==> Lookup(st, k) == Shown(answers, k))
    && (forall k: Key :: SelfVec(k.vec) && k.labels == [Name(d)] ==>
          Lookup(st, k) == Recorded(Name(d), RecordsOf(answers, timings), k))
  }

  lemma DomainServes(d: Domain, polls: seq<Completed>, answers: seq<Answer>, timings: seq<Timing>)
    requires |answers| == |timings| && Performed(d, polls, answers, timings)
    ensures Serves(Run(map[], DomainOps(Name(d), polls)), d, answers, timings)
  {
    forall k: Key | Owner(k.vec) == Some(d)
      ensures Lookup(Run(map[], DomainOps(Name(d), polls)), k) == Shown(answers, k)
    {
      StaleServe(d, polls, map[], k);
    }
    forall k: Key | SelfVec(k.vec) && k.labels == [Name(d)]
      ensures Lookup(Run(map[], DomainOps(Name(d), polls)), k) == Recorded(Name(d), RecordsOf(answers, timings), k)
    {
      Pointwise(map[], DomainOps(Name(d), polls), k);
      OwnRecords(d, polls, k);
    }
  }

  /** The polls of one domain over any sequence of answers, from an empty registry. */
  method PollRepeatedly(store: MetricStore, d: Domain, answers: seq<Answer>, timings: seq<Timing>)
    requires store.Valid() && store.log == [] && |timings| == |answers|
    requires forall i :: 0 <= i < |answers| ==> DomainOf(answers[i]) == d && !answers[i].OtherAnswer?
    modifies store
    ensures store.Valid()
    ensures Serves(store.series, d, answers, timings)
  {
    ghost var polls: seq<Completed> := [];
    for i := 0 to |answers|
      invariant store.Valid() && store.log == DomainOps(Name(d), polls)
      invariant Performed(d, polls, answers[..i], timings[..i])
    {
      ghost var c := PollOnce(store, answers[i], timings[i]);
      PerformedMore(d, polls, c, answers, timings, i);
      polls := polls + [c];
    }
    assert answers[..|answers|] == answers && timings[..|timings|] == timings;
    DomainServes(d, polls, answers, timings);
  }
}
