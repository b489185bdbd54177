/** PodDomain.Poll: one call, nine vecs, optional runtime readings and per-GPU index labels. */
module Pod {
  import opened Wrappers
  import opened Metrics
  import opened Api
  import opened Decimal

  datatype GpuUtilization = GpuUtilization(util: Option<real>, memoryUtil: Option<real>)

  /** cpu and memory: a nil Utilization and one without util are different values. */
  datatype Runtime = Runtime(
    uptime: Option<int>,
    cpu: Option<Option<real>>,
    memory: Option<Option<real>>,
    gpus: Option<seq<GpuUtilization>>)

  datatype Pod = Pod(
    id: string, name: string, status: string, cost: real, disk: int, image: string, cloud: string,
    dataCenterId: Option<string>, gpu: Option<string>, runtime: Option<Runtime>)

  const VECS: seq<Vec> := [
    PodUp, PodCPUUtilPercent, PodMemoryUtilPercent, PodGPUUtilPercent, PodGPUMemoryUtilPercent,
    PodUptimeSeconds, PodCostPerHourDollars, PodDiskGB, PodInfo]

  function UpValue(pod: Pod): real {
    if pod.status == "RUNNING" then 1.0 else 0.0
  }

  function Util(u: Option<Option<real>>): Option<real> {
    if u.Some? then u.value else None
  }

  function Uptime(rt: Runtime): Option<real> {
    if rt.uptime.Some? then Some(rt.uptime.value as real) else None
  }

  // ----- the operations of one pass of the loop -----

  function GpuOps(id: string, gpus: seq<GpuUtilization>): seq<Op> {
    if |gpus| == 0 then []
    else
      var n := |gpus| - 1;
      GpuOps(id, gpus[..n])
      + SetIf(PodGPUUtilPercent, [id, Itoa(n)], gpus[n].util)
      + SetIf(PodGPUMemoryUtilPercent, [id, Itoa(n)], gpus[n].memoryUtil)
  }

  function ScalarOps(id: string, rt: Runtime): seq<Op> {
    []
    + SetIf(PodUptimeSeconds, [id], Uptime(rt))
    + SetIf(PodCPUUtilPercent, [id], Util(rt.cpu))
    + SetIf(PodMemoryUtilPercent, [id], Util(rt.memory))
  }

  function GpusOf(rt: Runtime): seq<GpuUtilization> {
    if rt.gpus.Some? then rt.gpus.value else []
  }

  function RuntimeOps(id: string, rt: Runtime): seq<Op> {
    ScalarOps(id, rt) + GpuOps(id, GpusOf(rt))
  }

  function InfoLabels(pod: Pod): Labels {
    [pod.id, pod.image, OrEmpty(pod.dataCenterId), pod.cloud, OrEmpty(pod.gpu)]
  }

  function HeadOps(pod: Pod): seq<Op> {
    []
    + SetIf(PodUp, [pod.id, pod.name, pod.status], Some(UpValue(pod)))
    + SetIf(PodCostPerHourDollars, [pod.id], Some(pod.cost))
    + SetIf(PodDiskGB, [pod.id], Some(pod.disk as real))
    + SetIf(PodInfo, InfoLabels(pod), Some(1.0))
  }

  function PodOps(pod: Pod): seq<Op> {
    HeadOps(pod) + (if pod.runtime.Some? then RuntimeOps(pod.id, pod.runtime.value) else [])
  }

  function PollOps(pods: seq<Pod>): seq<Op> {
    Resets(VECS) + Blocks(pods, PodOps)
  }

  // ----- what a pod reads, key by key -----

  function GpuReading(id: string, gpus: seq<GpuUtilization>, labels: Labels, memory: bool): Option<real> {
    if |labels| == 2 && labels[0] == id && ParseIndex(labels[1]).Some? && ParseIndex(labels[1]).value < |gpus|
      then var gpu := gpus[ParseIndex(labels[1]).value]; if memory then gpu.memoryUtil else gpu.util
      else None
  }

  function ScalarReading(id: string, rt: Runtime, k: Key): Option<real> {
    if k.labels != [id] then None
    else match k.vec
      case PodUptimeSeconds => Uptime(rt)
      case PodCPUUtilPercent => Util(rt.cpu)
      case PodMemoryUtilPercent => Util(rt.memory)
      case _ => None
  }

  function RuntimeReading(id: string, rt: Runtime, k: Key): Option<real> {
    match k.vec
    case PodGPUUtilPercent => GpuReading(id, GpusOf(rt), k.labels, false)
    case PodGPUMemoryUtilPercent => GpuReading(id, GpusOf(rt), k.labels, true)
    case _ => ScalarReading(id, rt, k)
  }

  function HeadReading(pod: Pod, k: Key): Option<real> {
    match k.vec
    case PodUp => if k.labels == [pod.id, pod.name, pod.status] then Some(UpValue(pod)) else None
    case PodCostPerHourDollars => if k.labels == [pod.id] then Some(pod.cost) else None
    case PodDiskGB => if k.labels == [pod.id] then Some(pod.disk as real) else None
    case PodInfo => if k.labels == InfoLabels(pod) then Some(1.0) else None
    case _ => None
  }

  /** The value pod `pod` reports for series `k`, if it reports one. */
  function Reading(pod: Pod, k: Key): Option<real> {
    Or(HeadReading(pod, k), if pod.runtime.Some? then RuntimeReading(pod.id, pod.runtime.value, k) else None)
  }

  /** One more GPU adds the reading of its own index and leaves the others. */
  lemma OneMoreGpu(id: string, gpus: seq<GpuUtilization>, labels: Labels, memory: bool)
    requires |gpus| > 0
    ensures var n := |gpus| - 1;
            GpuReading(id, gpus, labels, memory) ==
            if labels == [id, Itoa(n)] then (if memory then gpus[n].memoryUtil else gpus[n].util)
            else GpuReading(id, gpus[..n], labels, memory)
    ensures labels == [id, Itoa(|gpus| - 1)] ==> GpuReading(id, gpus[..|gpus| - 1], labels, memory).None?
  {
    ParsesBack(|gpus| - 1);
  }

  lemma {:induction false} GpuOpsWrite(id: string, gpus: seq<GpuUtilization>, k: Key, was: Option<real>)
    ensures KeyRun(was, GpuOps(id, gpus), k) ==
            if k.vec == PodGPUUtilPercent then Or(GpuReading(id, gpus, k.labels, false), was)
            else if k.vec == PodGPUMemoryUtilPercent then Or(GpuReading(id, gpus, k.labels, true), was)
            else was
    decreases |gpus|
  {
    if |gpus| > 0 {
      var n := |gpus| - 1;
      var first := GpuOps(id, gpus[..n]);
      GpuOpsWrite(id, gpus[..n], k, was);
      ThenSetIf(was, first, PodGPUUtilPercent, [id, Itoa(n)], gpus[n].util, k);
      ThenSetIf(was, first + SetIf(PodGPUUtilPercent, [id, Itoa(n)], gpus[n].util),
                PodGPUMemoryUtilPercent, [id, Itoa(n)], gpus[n].memoryUtil, k);
      OneMoreGpu(id, gpus, k.labels, k.vec == PodGPUMemoryUtilPercent);
    }
  }

  lemma ScalarOpsRun(id: string, rt: Runtime, k: Key, was: Option<real>)
    ensures KeyRun(was, ScalarOps(id, rt), k)
         == Wrote(Wrote(Wrote(was, PodUptimeSeconds, [id], Uptime(rt), k),
                        PodCPUUtilPercent, [id], Util(rt.cpu), k),
                  PodMemoryUtilPercent, [id], Util(rt.memory), k)
  {
    var two := [] + SetIf(PodUptimeSeconds, [id], Uptime(rt)) + SetIf(PodCPUUtilPercent, [id], Util(rt.cpu));
    ThenTwoSetIfs(was, [], PodUptimeSeconds, [id], Uptime(rt), PodCPUUtilPercent, [id], Util(rt.cpu), k);
    ThenSetIf(was, two, PodMemoryUtilPercent, [id], Util(rt.memory), k);
  }

  lemma ScalarOpsWrite(id: string, rt: Runtime, k: Key, was: Option<real>)
    ensures KeyRun(was, ScalarOps(id, rt), k) == Or(ScalarReading(id, rt, k), was)
  {
    ScalarOpsRun(id, rt, k, was);
    if k.labels != [id] {
      assert forall v: Vec :: k != Key(v, [id]);
    } else {
      assert k == Key(k.vec, [id]);
    }
  }

  lemma RuntimeOpsWrite(id: string, rt: Runtime, k: Key, was: Option<real>)
    ensures KeyRun(was, RuntimeOps(id, rt), k) == Or(RuntimeReading(id, rt, k), was)
  {
    ScalarOpsWrite(id, rt, k, was);
    KeyRunAppend(was, ScalarOps(id, rt), GpuOps(id, GpusOf(rt)), k);
    GpuOpsWrite(id, GpusOf(rt), k, KeyRun(was, ScalarOps(id, rt), k));
  }

  lemma HeadOpsRun(pod: Pod, k: Key, was: Option<real>)
    ensures KeyRun(was, HeadOps(pod), k)
         == Wrote(Wrote(Wrote(Wrote(was, PodUp, [pod.id, pod.name, pod.status], Some(UpValue(pod)), k),
                              PodCostPerHourDollars, [pod.id], Some(pod.cost), k),
                        PodDiskGB, [pod.id], Some(pod.disk as real), k),
                  PodInfo, InfoLabels(pod), Some(1.0), k)
  {
    var two := [] + SetIf(PodUp, [pod.id, pod.name, pod.status], Some(UpValue(pod)))
               + SetIf(PodCostPerHourDollars, [pod.id], Some(pod.cost));
    ThenTwoSetIfs(was, [], PodUp, [pod.id, pod.name, pod.status], Some(UpValue(pod)),
                  PodCostPerHourDollars, [pod.id], Some(pod.cost), k);
    ThenTwoSetIfs(was, two, PodDiskGB, [pod.id], Some(pod.disk as real), PodInfo, InfoLabels(pod), Some(1.0), k);
  }

  lemma HeadOpsWrite(pod: Pod, k: Key, was: Option<real>)
    ensures KeyRun(was, HeadOps(pod), k) == Or(HeadReading(pod, k), was)
  {
    HeadOpsRun(pod, k, was);
  }

  lemma PodKeyWrites(pod: Pod, k: Key, v: Option<real>)
    ensures KeyRun(v, PodOps(pod), k) == Or(Reading(pod, k), v)
  {
    HeadOpsWrite(pod, k, v);
    if pod.runtime.Some? {
      KeyRunAppend(v, HeadOps(pod), RuntimeOps(pod.id, pod.runtime.value), k);
      RuntimeOpsWrite(pod.id, pod.runtime.value, k, KeyRun(v, HeadOps(pod), k));
    } else {
      assert PodOps(pod) == HeadOps(pod);
    }
  }

  lemma PodWrites(pod: Pod)
    ensures Writes(pod, PodOps, Reading)
  {
    forall k: Key, v: Option<real> ensures KeyRun(v, PodOps(pod), k) == Or(Reading(pod, k), v) {
      PodKeyWrites(pod, k, v);
    }
  }

  // ----- the poll -----

  method PublishGpu(store: MetricStore, id: string, i: nat, gpu: GpuUtilization)
    requires store.Valid()
    modifies store
    ensures store.Valid()
    ensures store.log == old(store.log) + SetIf(PodGPUUtilPercent, [id, Itoa(i)], gpu.util)
                                        + SetIf(PodGPUMemoryUtilPercent, [id, Itoa(i)], gpu.memoryUtil)
  {
    var idx := Itoa(i);
    if gpu.util.Some? {
      store.Set(PodGPUUtilPercent, [id, idx], gpu.util.value);
    }
    if gpu.memoryUtil.Some? {
      store.Set(PodGPUMemoryUtilPercent, [id, idx], gpu.memoryUtil.value);
    }
  }

  lemma GpuOpsNext(id: string, gpus: seq<GpuUtilization>, i: nat, log: seq<Op>)
    requires i < |gpus|
    ensures log + GpuOps(id, gpus[..i + 1])
         == log + GpuOps(id, gpus[..i]) + SetIf(PodGPUUtilPercent, [id, Itoa(i)], gpus[i].util)
            + SetIf(PodGPUMemoryUtilPercent, [id, Itoa(i)], gpus[i].memoryUtil)
  {
    assert gpus[..i + 1][..i] == gpus[..i];
  }

  /** The loop over rt.Gpus. */
  method PublishGpus(store: MetricStore, id: string, gpus: seq<GpuUtilization>)
    requires store.Valid()
    modifies store
    ensures store.Valid() && store.log == old(store.log) + GpuOps(id, gpus)
  {
    for i := 0 to |gpus|
      invariant store.Valid() && store.log == old(store.log) + GpuOps(id, gpus[..i])
    {
      PublishGpu(store, id, i, gpus[i]);
      GpuOpsNext(id, gpus, i, old(store.log));
    }
    assert gpus[..|gpus|] == gpus;
  }

  lemma HeadOpsAre(pod: Pod, log: seq<Op>)
    ensures log + HeadOps(pod)
         == log + [Op.Set(PodUp, [pod.id, pod.name, pod.status], UpValue(pod))]
            + [Op.Set(PodCostPerHourDollars, [pod.id], pod.cost)]
            + [Op.Set(PodDiskGB, [pod.id], pod.disk as real)]
            + [Op.Set(PodInfo, InfoLabels(pod), 1.0)]
  {
  }

  /** The part of the pass that every pod goes through. */
  method PublishHead(store: MetricStore, pod: Pod)
    requires store.Valid()
    modifies store
    ensures store.Valid() && store.log == old(store.log) + HeadOps(pod)
  {
    var up := 0.0;
    if pod.status == "RUNNING" {
      up := 1.0;
    }
    store.Set(PodUp, [pod.id, pod.name, pod.status], up);
    store.Set(PodCostPerHourDollars, [pod.id], pod.cost);
    store.Set(PodDiskGB, [pod.id], pod.disk as real);

    var dataCenterID := "";
    if pod.dataCenterId.Some? {
      dataCenterID := pod.dataCenterId.value;
    }
    var gpuID := "";
    if pod.gpu.Some? {
      gpuID := pod.gpu.value;
    }
    store.Set(PodInfo, [pod.id, pod.image, dataCenterID, pod.cloud, gpuID], 1.0);
    HeadOpsAre(pod, old(store.log));
  }

  lemma ScalarOpsAre(id: string, rt: Runtime, log: seq<Op>)
    ensures log + ScalarOps(id, rt)
         == log + SetIf(PodUptimeSeconds, [id], Uptime(rt)) + SetIf(PodCPUUtilPercent, [id], Util(rt.cpu))
            + SetIf(PodMemoryUtilPercent, [id], Util(rt.memory))
  {
  }

  method PublishScalars(store: MetricStore, id: string, rt: Runtime)
    requires store.Valid()
    modifies store
    ensures store.Valid() && store.log == old(store.log) + ScalarOps(id, rt)
  {
    if rt.uptime.Some? {
      store.Set(PodUptimeSeconds, [id], rt.uptime.value as real);
    }
    assert store.log == old(store.log) + SetIf(PodUptimeSeconds, [id], Uptime(rt));
    ghost var was := store.log;
    if rt.cpu.Some? && rt.cpu.value.Some? {
      store.Set(PodCPUUtilPercent, [id], rt.cpu.value.value);
    }
    assert store.log == was + SetIf(PodCPUUtilPercent, [id], Util(rt.cpu));
    was := store.log;
    if rt.memory.Some? && rt.memory.value.Some? {
      store.Set(PodMemoryUtilPercent, [id], rt.memory.value.value);
    }
    assert store.log == was + SetIf(PodMemoryUtilPercent, [id], Util(rt.memory));
    ScalarOpsAre(id, rt, old(store.log));
  }

  /** One pass of the loop over the pods. */
  method PublishPod(store: MetricStore, pod: Pod)
    requires store.Valid()
    modifies store
    ensures store.Valid() && store.log == old(store.log) + PodOps(pod)
  {
    PublishHead(store, pod);
    if pod.runtime.None? {
      return;
    }
    var rt := pod.runtime.value;
    ghost var head := store.log;
    PublishScalars(store, pod.id, rt);
    if rt.gpus.Some? {
      PublishGpus(store, pod.id, rt.gpus.value);
    }
    Assoc(head, ScalarOps(pod.id, rt), GpuOps(pod.id, GpusOf(rt)));
    Assoc(old(store.log), HeadOps(pod), RuntimeOps(pod.id, rt));
  }

  /** Reset and repopulate. */
  method Publish(store: MetricStore, pods: seq<Pod>)
    requires store.Valid()
    modifies store
    ensures store.Valid() && store.log == old(store.log) + PollOps(pods)
  {
    store.ResetAll(VECS);
    ghost var start := store.log;
    for i := 0 to |pods|
      invariant store.Valid() && store.log == start + Blocks(pods[..i], PodOps)
    {
      PublishPod(store, pods[i]);
      BlocksNext(pods, i, PodOps);
      Assoc(start, Blocks(pods[..i], PodOps), PodOps(pods[i]));
    }
    assert pods[..|pods|] == pods;
    Assoc(old(store.log), Resets(VECS), Blocks(pods, PodOps));
  }

  /** The view of a poll: each series shows the last pod in the list that reports it. */
  function View(pods: seq<Pod>): Key -> Option<real> {
    k => LastReading(pods, Reading, k)
  }

  method Poll(store: MetricStore, resp: Call<seq<Pod>>) returns (r: Result<(), PollError>)
    requires store.Valid()
    modifies store
    ensures store.Valid()
    ensures r.Success? <==> resp.Ok?
    ensures resp.Ok? ==> store.log == old(store.log) + PollOps(resp.value)
    ensures resp.Ok? ==> Shows(store.series, old(store.series), VECS, View(resp.value))
    ensures !resp.Ok? ==> store.log == old(store.log) && store.series == old(store.series)
    ensures !resp.Ok? ==> r.error == PollError(if resp.Transport? then "list pods" else "", FaultOf(resp))
  {
    match resp
    case Transport(message) =>
      return Failure(PollError("list pods", Unreachable(message)));
    case Status(code, body) =>
      return Failure(PollError("", HttpError(code, body)));
    case Ok(pods) =>
      Publish(store, pods);
      RunAppend(map[], old(store.log), PollOps(pods));
      PollShows(old(store.series), pods);
      return Success(());
  }

  lemma ReadsInVecs(pod: Pod, k: Key)
    requires k.vec !in VECS
    ensures Reading(pod, k).None?
  {
  }

  lemma PollKey(pods: seq<Pod>, k: Key, v: Option<real>)
    ensures KeyRun(v, PollOps(pods), k) == if k.vec in VECS then View(pods)(k) else v
  {
    KeyRunAppend(v, Resets(VECS), Blocks(pods, PodOps), k);
    ResetsClear(v, VECS, k);
    forall pod | pod in pods ensures Writes(pod, PodOps, Reading) {
      PodWrites(pod);
    }
    BlocksWrite(pods, PodOps, Reading, k, KeyRun(v, Resets(VECS), k));
    if k.vec !in VECS {
      forall pod | pod in pods ensures Reading(pod, k).None? {
        ReadsInVecs(pod, k);
      }
      NoReading(pods, Reading, k);
    }
  }

  lemma PollShows(st: Series, pods: seq<Pod>)
    ensures Shows(Run(st, PollOps(pods)), st, VECS, View(pods))
  {
    forall k: Key
      ensures Lookup(Run(st, PollOps(pods)), k) == if k.vec in VECS then View(pods)(k) else Lookup(st, k)
    {
      Pointwise(st, PollOps(pods), k);
      PollKey(pods, k, Lookup(st, k));
    }
  }
}
