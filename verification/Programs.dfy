/** The operations of each domain's successful Poll: confined to its vecs, fresh in each, and a
    projection of what the API answered. */
module Programs {
  import opened Wrappers
  import opened Metrics
  import opened Domains
  import opened Generations
  import opened Answers
  import Pod
  import Serverless
  import Catalog
  import Cluster
  import Registry

  /** It stays within the vecs of the domain and refreshes each. */
  ghost predicate Refreshes(d: Domain, ops: seq<Op>) {
    && (forall op :: op in ops ==> Owner(op.vec) == Some(d))
    && forall v: Vec :: Owner(v) == Some(d) ==> Fresh(ops, v) && Touches(ops, v)
  }

  /** Nothing is written, even for a moment, that the answer does not report. */
  ghost predicate Truthful(a: Answer, ops: seq<Op>)
    requires Good(a)
  {
    forall op :: op in ops ==>
      match op
      case Reset(_) => true
      case Set(v, labels, x) => Reports(a, Key(v, labels), x)
      case Gauge(v, x) => Reports(a, Key(v, []), x)
      case Inc(_, _) => false
  }

  /** What a Poll does that got answer `a`: it refreshes its vecs so that they show the answer, and
      writes nothing else on the way. */
  ghost predicate IsProgram(a: Answer, ops: seq<Op>)
    requires Good(a)
  {
    Refreshes(DomainOf(a), ops) && Projects(a, ops) && Truthful(a, ops)
  }

  /** So a series that part of such a program has written is one the answer reports. */
  lemma {:induction false} TruthfulSoFar(a: Answer, ops: seq<Op>, n: nat, k: Key)
    requires Good(a) && Truthful(a, ops) && n <= |ops|
    ensures Lookup(Run(map[], ops[..n]), k).Some? ==> Reports(a, k, Run(map[], ops[..n])[k])
    decreases n
  {
    if n > 0 {
      TruthfulSoFar(a, ops, n - 1, k);
      assert ops[..n][..n - 1] == ops[..n - 1];
      assert ops[n - 1] in ops;
    }
  }

  // ----- what loops write -----

  /** The operation sets a reading of `t`, in one of the vecs. */
  predicate SetsReading<T>(op: Op, t: T, reading: (T, Key) -> Option<real>, vs: seq<Vec>) {
    op.Set? && op.vec in vs && reading(t, Key(op.vec, op.labels)) == Some(op.value)
  }

  /** Every operation for `t` does. */
  ghost predicate SetsReadings<T>(t: T, opsOf: T -> seq<Op>, reading: (T, Key) -> Option<real>, vs: seq<Vec>) {
    forall op :: op in opsOf(t) ==> SetsReading(op, t, reading, vs)
  }

  /** The operation sets what some item of the list reports. */
  ghost predicate SetsReported<T(!new)>(op: Op, items: seq<T>, reading: (T, Key) -> Option<real>, vs: seq<Vec>) {
    op.Set? && op.vec in vs && Reported(items, reading, Key(op.vec, op.labels), op.value)
  }

  lemma {:induction false} BlocksSetReadings<T(!new)>(items: seq<T>, opsOf: T -> seq<Op>,
                                                     reading: (T, Key) -> Option<real>, vs: seq<Vec>)
    requires forall t :: t in items ==> SetsReadings(t, opsOf, reading, vs)
    ensures forall op :: op in Blocks(items, opsOf) ==> SetsReported(op, items, reading, vs)
    decreases |items|
  {
    if |items| > 0 {
      var n := |items| - 1;
      BlocksSetReadings(items[..n], opsOf, reading, vs);
      forall op | op in Blocks(items, opsOf) ensures SetsReported(op, items, reading, vs) {
        if op in Blocks(items[..n], opsOf) {
          var t :| t in items[..n] && reading(t, Key(op.vec, op.labels)) == Some(op.value);
          assert t in items;
        } else {
          assert items[n] in items && SetsReadings(items[n], opsOf, reading, vs);
          assert SetsReading(op, items[n], reading, vs);
        }
      }
    }
  }

  /** What a domain module proves of its Poll is a projection. */
  lemma ShowsProjects(a: Answer, vs: seq<Vec>, ops: seq<Op>)
    requires Good(a) && Footprint(DomainOf(a), vs)
    requires forall st: Series :: Shows(Run(st, ops), st, vs, View(a))
    ensures Projects(a, ops)
  {
    forall st: Series, k: Key
      ensures Lookup(Run(st, ops), k) == if Owner(k.vec) == Some(DomainOf(a)) then View(a)(k) else Lookup(st, k)
    {
      assert Shows(Run(st, ops), st, vs, View(a));
    }
  }

  predicate Footprint(d: Domain, vs: seq<Vec>) {
    forall v: Vec :: v in vs <==> Owner(v) == Some(d)
  }

  /** Resets of all the vecs, then sets of readings: such a Poll is a program. */
  lemma ProgramOfSets(a: Answer, vs: seq<Vec>, rest: seq<Op>)
    requires Good(a) && Footprint(DomainOf(a), vs)
    requires forall op :: op in rest ==> op.Set? && op.vec in vs && Reports(a, Key(op.vec, op.labels), op.value)
    requires forall st: Series :: Shows(Run(st, Resets(vs) + rest), st, vs, View(a))
    ensures IsProgram(a, Resets(vs) + rest)
  {
    var ops := Resets(vs) + rest;
    ShowsProjects(a, vs, ops);
    forall v: Vec | Owner(v) == Some(DomainOf(a)) ensures Fresh(ops, v) && Touches(ops, v) {
      ResetFirst(vs, rest, v);
      var r :| 0 <= r < |vs| && vs[r] == v;
      assert ops[r] == Op.Reset(v);
    }
  }

  lemma PodFootprint()
    ensures Footprint(PodDomain, Pod.VECS)
  {
  }

  lemma ServerlessFootprint()
    ensures Footprint(ServerlessDomain, Serverless.VECS)
  {
  }

  lemma CatalogFootprint()
    ensures Footprint(CatalogDomain, Catalog.VECS)
  {
  }

  lemma ClusterFootprint()
    ensures Footprint(ClusterDomain, Cluster.VECS)
  {
  }

  lemma RegistryFootprint()
    ensures Footprint(RegistryDomain, Registry.VECS)
  {
  }

  // ----- pod -----

  lemma HeadSetsReadings(pod: Pod.Pod, op: Op)
    requires op in Pod.HeadOps(pod)
    ensures op.Set? && op.vec in Pod.VECS && Pod.HeadReading(pod, Key(op.vec, op.labels)) == Some(op.value)
  {
  }

  lemma ScalarSetsReadings(id: string, rt: Pod.Runtime, op: Op)
    requires op in Pod.ScalarOps(id, rt)
    ensures op.Set? && op.vec in Pod.VECS && Pod.ScalarReading(id, rt, Key(op.vec, op.labels)) == Some(op.value)
  {
  }

  lemma {:induction false} GpusSetReadings(id: string, gpus: seq<Pod.GpuUtilization>)
    ensures forall op :: op in Pod.GpuOps(id, gpus) ==>
              && op.Set? && (op.vec == PodGPUUtilPercent || op.vec == PodGPUMemoryUtilPercent)
              && Pod.GpuReading(id, gpus, op.labels, op.vec == PodGPUMemoryUtilPercent) == Some(op.value)
    decreases |gpus|
  {
    if |gpus| > 0 {
      var n := |gpus| - 1;
      GpusSetReadings(id, gpus[..n]);
      forall op | op in Pod.GpuOps(id, gpus)
        ensures op.Set? && (op.vec == PodGPUUtilPercent || op.vec == PodGPUMemoryUtilPercent)
        ensures Pod.GpuReading(id, gpus, op.labels, op.vec == PodGPUMemoryUtilPercent) == Some(op.value)
      {
        Pod.OneMoreGpu(id, gpus, if op.Set? then op.labels else [], op.vec == PodGPUMemoryUtilPercent);
      }
    }
  }

  lemma PodSetsReadings(pod: Pod.Pod)
    ensures SetsReadings(pod, Pod.PodOps, Pod.Reading, Pod.VECS)
  {
    forall op | op in Pod.PodOps(pod) ensures SetsReading(op, pod, Pod.Reading, Pod.VECS) {
      if op in Pod.HeadOps(pod) {
        HeadSetsReadings(pod, op);
      } else {
        RuntimeSetsReadings(pod, op);
      }
    }
  }

  lemma RuntimeSetsReadings(pod: Pod.Pod, op: Op)
    requires pod.runtime.Some? && op in Pod.RuntimeOps(pod.id, pod.runtime.value)
    ensures SetsReading(op, pod, Pod.Reading, Pod.VECS)
  {
    var rt := pod.runtime.value;
    if op in Pod.ScalarOps(pod.id, rt) {
      ScalarSetsReadings(pod.id, rt, op);
    } else {
      GpusSetReadings(pod.id, Pod.GpusOf(rt));
    }
  }

  lemma PodProgram(a: Answer)
    requires a.PodAnswer? && Good(a)
    ensures IsProgram(a, Pod.PollOps(a.pods.value))
  {
    var pods := a.pods.value;
    forall pod | pod in pods ensures SetsReadings(pod, Pod.PodOps, Pod.Reading, Pod.VECS) {
      PodSetsReadings(pod);
    }
    BlocksSetReadings(pods, Pod.PodOps, Pod.Reading, Pod.VECS);
    PodFootprint();
    var sets := Blocks(pods, Pod.PodOps);
    forall st: Series ensures Shows(Run(st, Resets(Pod.VECS) + sets), st, Pod.VECS, View(a)) {
      Pod.PollShows(st, pods);
    }
    ProgramOfSets(a, Pod.VECS, sets);
  }

  // ----- serverless -----

  lemma ConfigSetsReadings(f: Serverless.Fetched, op: Op)
    requires op in Serverless.ConfigOps(f.ep)
    ensures SetsReading(op, f, Serverless.Reading, Serverless.VECS)
  {
  }

  lemma SummarySetsReadings(f: Serverless.Fetched, op: Op)
    requires op in Serverless.SummaryOps(f.ep.id, f.resp.summary)
    ensures SetsReading(op, f, Serverless.Reading, Serverless.VECS)
  {
  }

  lemma EndpointSetsReadings(f: Serverless.Fetched)
    ensures SetsReadings(f, Serverless.EndpointOps, Serverless.Reading, Serverless.VECS)
  {
    forall op | op in Serverless.EndpointOps(f) ensures SetsReading(op, f, Serverless.Reading, Serverless.VECS) {
      if op in Serverless.ConfigOps(f.ep) {
        ConfigSetsReadings(f, op);
      } else if op in Serverless.SummaryOps(f.ep.id, f.resp.summary) {
        SummarySetsReadings(f, op);
      } else {
        Serverless.StaleCountIsCardinality(f.resp.workers);
      }
    }
  }

  lemma ServerlessProgram(a: Answer)
    requires a.ServerlessAnswer? && Good(a)
    ensures IsProgram(a, Serverless.PollOps(Serverless.Listed(a.endpoints.value, a.workers)))
  {
    var items := Serverless.Listed(a.endpoints.value, a.workers);
    forall f | f in items ensures SetsReadings(f, Serverless.EndpointOps, Serverless.Reading, Serverless.VECS) {
      EndpointSetsReadings(f);
    }
    BlocksSetReadings(items, Serverless.EndpointOps, Serverless.Reading, Serverless.VECS);
    ServerlessFootprint();
    var sets := Blocks(items, Serverless.EndpointOps);
    forall st: Series ensures Shows(Run(st, Resets(Serverless.VECS) + sets), st, Serverless.VECS, View(a)) {
      Serverless.PollShows(st, items);
    }
    ProgramOfSets(a, Serverless.VECS, sets);
  }

  // ----- catalog -----

  lemma CatalogSetsReadings(gpus: seq<Catalog.Gpu>, offers: seq<Catalog.Offer>, cpus: seq<Catalog.Cpu>)
    ensures forall op :: op in Blocks(gpus, Catalog.PriceOps) ==> SetsReported(op, gpus, Catalog.PriceReading, Catalog.VECS)
    ensures forall op :: op in Blocks(offers, Catalog.OfferOps) ==> SetsReported(op, offers, Catalog.OfferReading, Catalog.VECS)
    ensures forall op :: op in Blocks(cpus, Catalog.CpuOps) ==> SetsReported(op, cpus, Catalog.CpuReading, Catalog.VECS)
  {
    Catalog.CloudsDiffer();
    forall gpu: Catalog.Gpu ensures SetsReadings(gpu, Catalog.PriceOps, Catalog.PriceReading, Catalog.VECS) {
      assert [gpu.id, "SECURE"][1] != [gpu.id, "COMMUNITY"][1];
    }
    forall cpu: Catalog.Cpu ensures SetsReadings(cpu, Catalog.CpuOps, Catalog.CpuReading, Catalog.VECS) {
      assert [cpu.id, "SECURE"][1] != [cpu.id, "SERVERLESS"][1];
    }
    BlocksSetReadings(gpus, Catalog.PriceOps, Catalog.PriceReading, Catalog.VECS);
    BlocksSetReadings(offers, Catalog.OfferOps, Catalog.OfferReading, Catalog.VECS);
    BlocksSetReadings(cpus, Catalog.CpuOps, Catalog.CpuReading, Catalog.VECS);
  }

  lemma CatalogProgram(a: Answer)
    requires a.CatalogAnswer? && Good(a)
    ensures IsProgram(a, Catalog.PollOps(Catalog.Responses(a.gpus), a.cpus.value))
  {
    var resps, cpus := Catalog.Responses(a.gpus), a.cpus.value;
    var offers := Catalog.AllOffers(Catalog.PRODUCTS, resps);
    var b := Blocks(resps[0], Catalog.PriceOps);
    var c := Blocks(offers, Catalog.OfferOps);
    var d := Blocks(cpus, Catalog.CpuOps);
    CatalogFootprint();
    CatalogSetsReadings(resps[0], offers, cpus);
    Assoc(Resets(Catalog.VECS), b, c);
    Assoc(Resets(Catalog.VECS), b + c, d);
    forall st: Series ensures Shows(Run(st, Resets(Catalog.VECS) + (b + c + d)), st, Catalog.VECS, View(a)) {
      Catalog.PollShows(st, resps, cpus);
    }
    ProgramOfSets(a, Catalog.VECS, b + c + d);
  }

  // ----- cluster -----

  lemma {:induction false} StatusSets(id: string, m: map<string, int>, order: seq<string>, op: Op)
    requires op in Cluster.StatusOps(id, m, order)
    ensures op.Set? && op.vec == ClusterPods && |op.labels| == 2 && op.labels[0] == id
    ensures op.labels[1] in m && op.value == m[op.labels[1]] as real
    decreases |order|
  {
    if op in Cluster.StatusOps(id, m, order[..|order| - 1]) {
      StatusSets(id, m, order[..|order| - 1], op);
    }
  }

  lemma VisitSetsReadings(v: Cluster.Visit)
    ensures SetsReadings(v, Cluster.VisitOps, Cluster.VisitReading, Cluster.VECS)
  {
    forall op | op in Cluster.VisitOps(v) ensures SetsReading(op, v, Cluster.VisitReading, Cluster.VECS) {
      if op in Cluster.StatusOps(v.cluster.id, v.cluster.byStatus, v.order) {
        StatusSets(v.cluster.id, v.cluster.byStatus, v.order, op);
      }
    }
  }

  lemma VisitsReport(visits: seq<Cluster.Visit>, clusters: seq<Cluster.Cluster>, op: Op)
    requires Cluster.Walks(visits, clusters) && SetsReported(op, visits, Cluster.VisitReading, Cluster.VECS)
    ensures SetsReported(op, clusters, Cluster.Reading, Cluster.VECS)
  {
    var v :| v in visits && Cluster.VisitReading(v, Key(op.vec, op.labels)) == Some(op.value);
    var i :| 0 <= i < |visits| && visits[i] == v;
    assert clusters[i] in clusters;
  }

  lemma VisitsSet(visits: seq<Cluster.Visit>, clusters: seq<Cluster.Cluster>)
    requires Cluster.Walks(visits, clusters)
    ensures forall op :: op in Blocks(visits, Cluster.VisitOps) ==> SetsReported(op, clusters, Cluster.Reading, Cluster.VECS)
  {
    forall v | v in visits ensures SetsReadings(v, Cluster.VisitOps, Cluster.VisitReading, Cluster.VECS) {
      VisitSetsReadings(v);
    }
    BlocksSetReadings(visits, Cluster.VisitOps, Cluster.VisitReading, Cluster.VECS);
    forall op | op in Blocks(visits, Cluster.VisitOps) ensures SetsReported(op, clusters, Cluster.Reading, Cluster.VECS) {
      VisitsReport(visits, clusters, op);
    }
  }

  lemma ClusterProgram(a: Answer, visits: seq<Cluster.Visit>)
    requires a.ClusterAnswer? && Good(a) && Cluster.Walks(visits, a.clusters.value)
    ensures IsProgram(a, Cluster.PollOps(visits))
  {
    VisitsSet(visits, a.clusters.value);
    ClusterFootprint();
    var sets := Blocks(visits, Cluster.VisitOps);
    forall st: Series ensures Shows(Run(st, Resets(Cluster.VECS) + sets), st, Cluster.VECS, View(a)) {
      Cluster.PollShows(st, visits, a.clusters.value);
    }
    ProgramOfSets(a, Cluster.VECS, sets);
  }

  // ----- registry -----

  /** The one Poll that does not reset all it writes: the plain gauge is set once, at the end. */
  lemma RegistryRefreshes(registries: seq<Registry.Registry>, delegations: nat)
    requires forall op :: op in Blocks(registries, Registry.InfoOps) ==> op.vec == RegistryInfo
    ensures Refreshes(RegistryDomain, Registry.PollOps(registries, delegations))
  {
    var a := Resets([RegistryInfo]);
    var b := Blocks(registries, Registry.InfoOps);
    var c := [Op.Gauge(RegistryDelegationCount, delegations as real)];
    var ops := Registry.PollOps(registries, delegations);
    Assoc(a, b, c);
    ResetFirst([RegistryInfo], b + c, RegistryInfo);
    GaugeOnce(a + b, RegistryDelegationCount, delegations as real);
    assert ops[0] == Op.Reset(RegistryInfo);
    assert ops[|ops| - 1] == c[0];
    RegistryFootprint();
  }

  lemma InfoSetsReadings(registries: seq<Registry.Registry>)
    ensures forall op :: op in Blocks(registries, Registry.InfoOps) ==>
              SetsReported(op, registries, Registry.InfoReading, [RegistryInfo])
  {
    forall r: Registry.Registry ensures SetsReadings(r, Registry.InfoOps, Registry.InfoReading, [RegistryInfo]) {
    }
    BlocksSetReadings(registries, Registry.InfoOps, Registry.InfoReading, [RegistryInfo]);
  }

  lemma RegistryTruthful(a: Answer)
    requires a.RegistryAnswer? && Good(a)
    ensures var ops := Registry.PollOps(a.registries.value, |a.delegations.value|);
            Refreshes(RegistryDomain, ops) && Truthful(a, ops)
  {
    InfoSetsReadings(a.registries.value);
    RegistryRefreshes(a.registries.value, |a.delegations.value|);
  }

  lemma RegistryProgram(a: Answer)
    requires a.RegistryAnswer? && Good(a)
    ensures IsProgram(a, Registry.PollOps(a.registries.value, |a.delegations.value|))
  {
    var registries, delegations := a.registries.value, |a.delegations.value|;
    var ops := Registry.PollOps(registries, delegations);
    RegistryTruthful(a);
    RegistryFootprint();
    forall st: Series ensures Shows(Run(st, ops), st, Registry.VECS, View(a)) {
      Registry.PollShows(st, registries, delegations);
    }
    ShowsProjects(a, Registry.VECS, ops);
  }
}
