/** ClusterDomain.Poll: two vecs, one filled by iterating a Go map, whose order is arbitrary. */
module Cluster {
  import opened Wrappers
  import opened Metrics
  import opened Api

  datatype Cluster = Cluster(id: string, kind: string, dataCenterId: Option<string>, byStatus: map<string, int>)

  /** A cluster with the order in which its ByStatus map is walked. */
  datatype Visit = Visit(cluster: Cluster, order: seq<string>)

  const VECS: seq<Vec> := [ClusterPods, ClusterInfo]

  /** Each status of the map once, in some order. */
  ghost predicate IsOrder(order: seq<string>, m: map<string, int>) {
    && (forall i, j :: 0 <= i < j < |order| ==> order[i] != order[j])
    && (forall status :: status in order <==> status in m)
  }

  function StatusOps(id: string, m: map<string, int>, order: seq<string>): seq<Op> {
    if |order| == 0 then []
    else
      var status := order[|order| - 1];
      StatusOps(id, m, order[..|order| - 1])
      + SetIf(ClusterPods, [id, status], if status in m then Some(m[status] as real) else None)
  }

  function InfoLabels(c: Cluster): Labels {
    [c.id, c.kind, OrEmpty(c.dataCenterId)]
  }

  function VisitOps(v: Visit): seq<Op> {
    [] + SetIf(ClusterInfo, InfoLabels(v.cluster), Some(1.0)) + StatusOps(v.cluster.id, v.cluster.byStatus, v.order)
  }

  function PollOps(visits: seq<Visit>): seq<Op> {
    Resets(VECS) + Blocks(visits, VisitOps)
  }

  /** What a cluster reports: no order appears in it. */
  function Reading(c: Cluster, k: Key): Option<real> {
    if k.vec == ClusterInfo then if k.labels == InfoLabels(c) then Some(1.0) else None
    else if k.vec == ClusterPods && |k.labels| == 2 && k.labels[0] == c.id && k.labels[1] in c.byStatus
      then Some(c.byStatus[k.labels[1]] as real)
    else None
  }

  function VisitReading(v: Visit, k: Key): Option<real> {
    Reading(v.cluster, k)
  }

  lemma {:induction false} StatusOpsWrite(id: string, m: map<string, int>, order: seq<string>, k: Key, was: Option<real>)
    requires forall status :: status in order ==> status in m
    ensures KeyRun(was, StatusOps(id, m, order), k) ==
            if k.vec == ClusterPods && |k.labels| == 2 && k.labels[0] == id && k.labels[1] in order
              then Some(m[k.labels[1]] as real) else was
    decreases |order|
  {
    if |order| > 0 {
      var n := |order| - 1;
      var status := order[n];
      assert order == order[..n] + [status];
      StatusOpsWrite(id, m, order[..n], k, was);
      ThenSetIf(was, StatusOps(id, m, order[..n]), ClusterPods, [id, status], Some(m[status] as real), k);
      if k.vec == ClusterPods && |k.labels| == 2 && k.labels[0] == id {
        assert k.labels == [id, k.labels[1]];
        assert k == Key(ClusterPods, [id, status]) <==> k.labels[1] == status;
      } else {
        assert k != Key(ClusterPods, [id, status]);
      }
    }
  }

  lemma VisitWrites(v: Visit)
    requires IsOrder(v.order, v.cluster.byStatus)
    ensures Writes(v, VisitOps, VisitReading)
  {
    forall k: Key, was: Option<real> ensures KeyRun(was, VisitOps(v), k) == Or(VisitReading(v, k), was) {
      var info := [] + SetIf(ClusterInfo, InfoLabels(v.cluster), Some(1.0));
      ThenSetIf(was, [], ClusterInfo, InfoLabels(v.cluster), Some(1.0), k);
      KeyRunAppend(was, info, StatusOps(v.cluster.id, v.cluster.byStatus, v.order), k);
      StatusOpsWrite(v.cluster.id, v.cluster.byStatus, v.order, k, KeyRun(was, info, k));
    }
  }

  function View(clusters: seq<Cluster>): Key -> Option<real> {
    k => LastReading(clusters, Reading, k)
  }

  /** The visits walk the clusters of the list in order, each map in some order. */
  ghost predicate Walks(visits: seq<Visit>, clusters: seq<Cluster>) {
    && |visits| == |clusters|
    && forall i :: 0 <= i < |visits| ==> visits[i].cluster == clusters[i] && IsOrder(visits[i].order, clusters[i].byStatus)
  }

  lemma {:induction false} SameReading(visits: seq<Visit>, clusters: seq<Cluster>, k: Key)
    requires Walks(visits, clusters)
    ensures LastReading(visits, VisitReading, k) == LastReading(clusters, Reading, k)
    ensures k.vec !in VECS ==> LastReading(clusters, Reading, k).None?
    decreases |visits|
  {
    if |visits| > 0 {
      SameReading(visits[..|visits| - 1], clusters[..|clusters| - 1], k);
    }
  }

  /** Determinism: after a poll the two vecs show a view in which no iteration order appears. */
  lemma PollShows(st: Series, visits: seq<Visit>, clusters: seq<Cluster>)
    requires Walks(visits, clusters)
    ensures Shows(Run(st, PollOps(visits)), st, VECS, View(clusters))
  {
    forall k: Key
      ensures Lookup(Run(st, PollOps(visits)), k) == if k.vec in VECS then View(clusters)(k) else Lookup(st, k)
    {
      var v := Lookup(st, k);
      Pointwise(st, PollOps(visits), k);
      KeyRunAppend(v, Resets(VECS), Blocks(visits, VisitOps), k);
      ResetsClear(v, VECS, k);
      forall visit | visit in visits ensures Writes(visit, VisitOps, VisitReading) {
        VisitWrites(visit);
      }
      BlocksWrite(visits, VisitOps, VisitReading, k, KeyRun(v, Resets(VECS), k));
      SameReading(visits, clusters, k);
    }
  }

  /** Any two iteration orders leave the same registry. */
  lemma OrderDoesNotMatter(st: Series, clusters: seq<Cluster>, a: seq<Visit>, b: seq<Visit>)
    requires Walks(a, clusters) && Walks(b, clusters)
    ensures Run(st, PollOps(a)) == Run(st, PollOps(b))
  {
    PollShows(st, a, clusters);
    PollShows(st, b, clusters);
    forall k: Key ensures Lookup(Run(st, PollOps(a)), k) == Lookup(Run(st, PollOps(b)), k) {
    }
    SeriesEqual(Run(st, PollOps(a)), Run(st, PollOps(b)));
  }

  /** With repeated cluster ids the list order decides a shared series: the last one reporting it. */
  lemma LastClusterWins(st: Series, visits: seq<Visit>, clusters: seq<Cluster>, k: Key, x: real)
    requires Walks(visits, clusters) && k.vec in VECS
    ensures Lookup(Run(st, PollOps(visits)), k) == Some(x) <==>
            exists j :: 0 <= j < |clusters| && Reading(clusters[j], k) == Some(x)
                        && forall l :: j < l < |clusters| ==> Reading(clusters[l], k).None?
  {
    PollShows(st, visits, clusters);
    assert Lookup(Run(st, PollOps(visits)), k) == View(clusters)(k);
    LastReadingIff(clusters, Reading, k, x);
  }

  /** A cluster's series if no later one of the list has its id: its id, kind and data center (or
      nothing) in the info labels, in that order, and the count of each of its statuses. */
  lemma OwnCluster(st: Series, visits: seq<Visit>, clusters: seq<Cluster>, j: nat)
    requires Walks(visits, clusters) && j < |clusters|
    requires forall l :: j < l < |clusters| ==> clusters[l].id != clusters[j].id
    ensures var after := Run(st, PollOps(visits));
            var c := clusters[j];
            && Lookup(after, Key(ClusterInfo, [c.id, c.kind, if c.dataCenterId.Some? then c.dataCenterId.value else ""])) == Some(1.0)
            && (forall status :: status in c.byStatus ==>
                  Lookup(after, Key(ClusterPods, [c.id, status])) == Some(c.byStatus[status] as real))
  {
    var c := clusters[j];
    OwnSeries(st, visits, clusters, j, Key(ClusterInfo, InfoLabels(c)));
    forall status | status in c.byStatus
      ensures Lookup(Run(st, PollOps(visits)), Key(ClusterPods, [c.id, status])) == Some(c.byStatus[status] as real)
    {
      OwnSeries(st, visits, clusters, j, Key(ClusterPods, [c.id, status]));
    }
  }

  lemma OwnSeries(st: Series, visits: seq<Visit>, clusters: seq<Cluster>, j: nat, k: Key)
    requires Walks(visits, clusters) && j < |clusters| && Reading(clusters[j], k).Some?
    requires forall l :: j < l < |clusters| ==> clusters[l].id != clusters[j].id
    ensures Lookup(Run(st, PollOps(visits)), k) == Reading(clusters[j], k)
  {
    assert k.labels[0] == clusters[j].id;
    forall l | j < l < |clusters| ensures Reading(clusters[l], k).None? {
    }
    LastClusterWins(st, visits, clusters, k, Reading(clusters[j], k).value);
  }

  /** No series is shown that is not a listed cluster's. */
  lemma NoOtherCluster(st: Series, visits: seq<Visit>, clusters: seq<Cluster>, k: Key)
    requires Walks(visits, clusters) && k in Run(st, PollOps(visits))
    ensures k.vec == ClusterInfo ==>
              exists j :: 0 <= j < |clusters| && k.labels == [clusters[j].id, clusters[j].kind, OrEmpty(clusters[j].dataCenterId)]
    ensures k.vec == ClusterPods ==>
              |k.labels| == 2 && exists j :: 0 <= j < |clusters| && k.labels[0] == clusters[j].id && k.labels[1] in clusters[j].byStatus
  {
    if k.vec in VECS {
      LastClusterWins(st, visits, clusters, k, Run(st, PollOps(visits))[k]);
    }
  }

  // ----- the poll -----

  lemma StatusNext(id: string, m: map<string, int>, order: seq<string>, status: string, log: seq<Op>)
    requires status in m
    ensures log + StatusOps(id, m, order + [status]) == log + StatusOps(id, m, order) + [Op.Set(ClusterPods, [id, status], m[status] as real)]
  {
    assert (order + [status])[..|order|] == order;
  }

  /** What has been walked so far, each status once, and what is left. */
  ghost predicate Split(order: seq<string>, left: set<string>, m: map<string, int>) {
    && (forall i, j :: 0 <= i < j < |order| ==> order[i] != order[j])
    && (forall status :: status in m <==> status in order || status in left)
    && (forall status :: status in order ==> status !in left)
  }

  /** The inner loop: each status of the map once, in an order of the runtime's choosing. */
  method PublishStatuses(store: MetricStore, id: string, m: map<string, int>) returns (ghost order: seq<string>)
    requires store.Valid()
    modifies store
    ensures store.Valid() && store.log == old(store.log) + StatusOps(id, m, order)
    ensures IsOrder(order, m)
  {
    order := [];
    var left := m.Keys;
    while left != {}
      invariant store.Valid() && store.log == old(store.log) + StatusOps(id, m, order)
      invariant Split(order, left, m)
      decreases left
    {
      var status :| status in left;
      store.Set(ClusterPods, [id, status], m[status] as real);
      StatusNext(id, m, order, status, old(store.log));
      left := left - {status};
      order := order + [status];
    }
  }

  method PublishCluster(store: MetricStore, c: Cluster) returns (ghost order: seq<string>)
    requires store.Valid()
    modifies store
    ensures store.Valid() && store.log == old(store.log) + VisitOps(Visit(c, order))
    ensures IsOrder(order, c.byStatus)
  {
    var dataCenterID := "";
    if c.dataCenterId.Some? {
      dataCenterID := c.dataCenterId.value;
    }
    store.Set(ClusterInfo, [c.id, c.kind, dataCenterID], 1.0);
    order := PublishStatuses(store, c.id, c.byStatus);
    Assoc(old(store.log), [] + SetIf(ClusterInfo, InfoLabels(c), Some(1.0)), StatusOps(c.id, c.byStatus, order));
  }

  lemma NextVisit(visits: seq<Visit>, clusters: seq<Cluster>, i: nat, order: seq<string>, log: seq<Op>)
    requires i < |clusters| && Walks(visits, clusters[..i]) && IsOrder(order, clusters[i].byStatus)
    ensures Walks(visits + [Visit(clusters[i], order)], clusters[..i + 1])
    ensures log + Blocks(visits + [Visit(clusters[i], order)], VisitOps)
         == log + Blocks(visits, VisitOps) + VisitOps(Visit(clusters[i], order))
  {
    var visit := Visit(clusters[i], order);
    assert (visits + [visit])[..|visits|] == visits;
    Assoc(log, Blocks(visits, VisitOps), VisitOps(visit));
  }

  method Publish(store: MetricStore, clusters: seq<Cluster>) returns (ghost visits: seq<Visit>)
    requires store.Valid()
    modifies store
    ensures store.Valid() && store.log == old(store.log) + PollOps(visits)
    ensures Walks(visits, clusters)
  {
    store.ResetAll(VECS);
    ghost var start := store.log;
    visits := [];
    for i := 0 to |clusters|
      invariant store.Valid() && store.log == start + Blocks(visits, VisitOps)
      invariant Walks(visits, clusters[..i])
    {
      ghost var order := PublishCluster(store, clusters[i]);
      NextVisit(visits, clusters, i, order, start);
      visits := visits + [Visit(clusters[i], order)];
    }
    assert clusters[..|clusters|] == clusters;
    Assoc(old(store.log), Resets(VECS), Blocks(visits, VisitOps));
  }

  method Poll(store: MetricStore, resp: Call<seq<Cluster>>) returns (r: Result<(), PollError>, ghost visits: seq<Visit>)
    requires store.Valid()
    modifies store
    ensures store.Valid()
    ensures r.Success? <==> resp.Ok?
    ensures r.Failure? ==> store.log == old(store.log) && store.series == old(store.series)
    ensures r.Failure? ==> r.error == PollError(if resp.Transport? then "list clusters" else "", FaultOf(resp))
    ensures r.Success? ==> Walks(visits, resp.value) && store.log == old(store.log) + PollOps(visits)
    ensures r.Success? ==> Shows(store.series, old(store.series), VECS, View(resp.value))
  {
    visits := [];
    match resp
    case Transport(message) =>
      r := Failure(PollError("list clusters", Unreachable(message)));
    case Status(code, body) =>
      r := Failure(PollError("", HttpError(code, body)));
    case Ok(clusters) =>
      visits := Publish(store, clusters);
      RunAppend(map[], old(store.log), PollOps(visits));
      PollShows(old(store.series), visits, clusters);
      r := Success(());
  }
}
