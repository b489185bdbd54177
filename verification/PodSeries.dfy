/** What the series published by a pod poll mean, for any list of pods and for distinct ids. */
module PodSeries {
  import opened Wrappers
  import opened Metrics
  import opened Decimal
  import opened Pod

  /** Last write wins, duplicates included: a series has value x exactly if some pod reports x for
      it and no later pod reports anything; it is absent exactly if no pod reports it. */
  lemma LastPodWins(before: Series, pods: seq<Pod>, k: Key, x: real)
    requires k.vec in VECS
    ensures var st := Run(before, PollOps(pods));
            Lookup(st, k) == Some(x) <==>
            exists j :: 0 <= j < |pods| && Reading(pods[j], k) == Some(x)
                        && forall l :: j < l < |pods| ==> Reading(pods[l], k).None?
    ensures k !in Run(before, PollOps(pods)) <==> forall j :: 0 <= j < |pods| ==> Reading(pods[j], k).None?
  {
    PollShows(before, pods);
    assert Lookup(Run(before, PollOps(pods)), k) == View(pods)(k);
    LastReadingIff(pods, Reading, k, x);
  }

  predicate DistinctIds(pods: seq<Pod>) {
    forall i, j :: 0 <= i < j < |pods| ==> pods[i].id != pods[j].id
  }

  lemma ReadsOwnId(pod: Pod, k: Key)
    requires Reading(pod, k).Some?
    ensures |k.labels| > 0 && k.labels[0] == pod.id
  {
  }

  /** With distinct ids every series belongs to one pod and shows that pod's own reading; a series
      whose first label is no pod's id does not exist. */
  lemma EachPodItsOwn(before: Series, pods: seq<Pod>, k: Key)
    requires DistinctIds(pods) && k.vec in VECS
    ensures var st := Run(before, PollOps(pods));
            && (forall j :: 0 <= j < |pods| && |k.labels| > 0 && k.labels[0] == pods[j].id ==>
                  Lookup(st, k) == Reading(pods[j], k))
            && (k in st ==> |k.labels| > 0 && exists j :: 0 <= j < |pods| && k.labels[0] == pods[j].id)
  {
    var st := Run(before, PollOps(pods));
    forall j | 0 <= j < |pods| && |k.labels| > 0 && k.labels[0] == pods[j].id
      ensures Lookup(st, k) == Reading(pods[j], k)
    {
      forall l | 0 <= l < |pods| && l != j ensures Reading(pods[l], k).None? {
        if Reading(pods[l], k).Some? {
          ReadsOwnId(pods[l], k);
        }
      }
      LastPodWins(before, pods, k, if Reading(pods[j], k).Some? then Reading(pods[j], k).value else 0.0);
    }
    if k in st {
      LastPodWins(before, pods, k, st[k]);
      var j :| 0 <= j < |pods| && Reading(pods[j], k).Some?;
      ReadsOwnId(pods[j], k);
    }
  }

  /** Each pod has one series in the vec. */
  ghost predicate OneEach(v: Vec, labels: Pod -> Labels, value: Pod -> real) {
    forall pod: Pod, k: Key :: k.vec == v ==> Reading(pod, k) == if k.labels == labels(pod) then Some(value(pod)) else None
  }

  lemma OneEachKey(before: Series, pods: seq<Pod>, v: Vec, labels: Pod -> Labels, value: Pod -> real, k: Key)
    requires k.vec == v && v in VECS && OneEach(v, labels, value)
    ensures k in Run(before, PollOps(pods)) <==> exists j :: 0 <= j < |pods| && k.labels == labels(pods[j])
  {
    LastPodWins(before, pods, k, 0.0);
    forall j | 0 <= j < |pods| ensures Reading(pods[j], k).Some? <==> k.labels == labels(pods[j]) {
    }
  }

  lemma OneEachValue(before: Series, pods: seq<Pod>, v: Vec, labels: Pod -> Labels, value: Pod -> real, j: nat)
    requires DistinctIds(pods) && j < |pods| && v in VECS && OneEach(v, labels, value)
    ensures Lookup(Run(before, PollOps(pods)), Key(v, labels(pods[j]))) == Some(value(pods[j]))
  {
    var k := Key(v, labels(pods[j]));
    assert Reading(pods[j], k) == Some(value(pods[j]));
    ReadsOwnId(pods[j], k);
    EachPodItsOwn(before, pods, k);
  }

  /** Its keys and values are those of the listed pods. */
  lemma OnePerPod(before: Series, pods: seq<Pod>, v: Vec, labels: Pod -> Labels, value: Pod -> real)
    requires DistinctIds(pods) && v in VECS && OneEach(v, labels, value)
    ensures var st := Run(before, PollOps(pods));
            && (set k | k in st && k.vec == v) == (set j | 0 <= j < |pods| :: Key(v, labels(pods[j])))
            && (forall j :: 0 <= j < |pods| ==> Lookup(st, Key(v, labels(pods[j]))) == Some(value(pods[j])))
  {
    var st := Run(before, PollOps(pods));
    forall k: Key | k.vec == v
      ensures k in st <==> k in (set j | 0 <= j < |pods| :: Key(v, labels(pods[j])))
    {
      OneEachKey(before, pods, v, labels, value, k);
    }
    forall j | 0 <= j < |pods| ensures Lookup(st, Key(v, labels(pods[j]))) == Some(value(pods[j])) {
      OneEachValue(before, pods, v, labels, value, j);
    }
  }

  /** The cost and disk series are exactly those of the listed pods, with the pods' own values. */
  lemma CostAndDiskKeys(before: Series, pods: seq<Pod>)
    requires DistinctIds(pods)
    ensures var st := Run(before, PollOps(pods));
            && (set k | k in st && k.vec == PodCostPerHourDollars) == (set j | 0 <= j < |pods| :: Key(PodCostPerHourDollars, [pods[j].id]))
            && (forall j :: 0 <= j < |pods| ==> Lookup(st, Key(PodCostPerHourDollars, [pods[j].id])) == Some(pods[j].cost))
            && (set k | k in st && k.vec == PodDiskGB) == (set j | 0 <= j < |pods| :: Key(PodDiskGB, [pods[j].id]))
            && (forall j :: 0 <= j < |pods| ==> Lookup(st, Key(PodDiskGB, [pods[j].id])) == Some(pods[j].disk as real))
  {
    OnePerPod(before, pods, PodCostPerHourDollars, (pod: Pod) => [pod.id], (pod: Pod) => pod.cost);
    OnePerPod(before, pods, PodDiskGB, (pod: Pod) => [pod.id], (pod: Pod) => pod.disk as real);
  }

  /** There is one up series per pod, and it is 1 exactly if the pod is running, and 0 otherwise. */
  lemma UpSeries(before: Series, pods: seq<Pod>)
    requires DistinctIds(pods)
    ensures var st := Run(before, PollOps(pods));
            && (set k | k in st && k.vec == PodUp)
               == (set j | 0 <= j < |pods| :: Key(PodUp, [pods[j].id, pods[j].name, pods[j].status]))
            && (forall j :: 0 <= j < |pods| ==>
                  Lookup(st, Key(PodUp, [pods[j].id, pods[j].name, pods[j].status]))
                  == Some(if pods[j].status == "RUNNING" then 1.0 else 0.0))
  {
    OnePerPod(before, pods, PodUp, (pod: Pod) => [pod.id, pod.name, pod.status],
              (pod: Pod) => if pod.status == "RUNNING" then 1.0 else 0.0);
  }

  /** There is one info series per pod: id, image, data center, cloud and GPU id, in that order, an
      absent one being empty. */
  lemma InfoSeries(before: Series, pods: seq<Pod>)
    requires DistinctIds(pods)
    ensures var st := Run(before, PollOps(pods));
            var labels := (pod: Pod) => [pod.id, pod.image, if pod.dataCenterId.Some? then pod.dataCenterId.value else "",
                                         pod.cloud, if pod.gpu.Some? then pod.gpu.value else ""];
            && (set k | k in st && k.vec == PodInfo) == (set j | 0 <= j < |pods| :: Key(PodInfo, labels(pods[j])))
            && (forall j :: 0 <= j < |pods| ==> Lookup(st, Key(PodInfo, labels(pods[j]))) == Some(1.0))
  {
    var labels := (pod: Pod) => [pod.id, pod.image, if pod.dataCenterId.Some? then pod.dataCenterId.value else "",
                                 pod.cloud, if pod.gpu.Some? then pod.gpu.value else ""];
    OnePerPod(before, pods, PodInfo, labels, (pod: Pod) => 1.0);
  }

  /** The runtime series show the runtime's own values, and exist exactly if every optional value on
      their path is present. */
  lemma RuntimeSeries(before: Series, pods: seq<Pod>, j: nat)
    requires DistinctIds(pods) && j < |pods|
    ensures var st := Run(before, PollOps(pods));
            var id := pods[j].id;
            var rt := pods[j].runtime;
            && Lookup(st, Key(PodUptimeSeconds, [id]))
               == (if rt.Some? && rt.value.uptime.Some? then Some(rt.value.uptime.value as real) else None)
            && Lookup(st, Key(PodCPUUtilPercent, [id]))
               == (if rt.Some? && rt.value.cpu.Some? then rt.value.cpu.value else None)
            && Lookup(st, Key(PodMemoryUtilPercent, [id]))
               == (if rt.Some? && rt.value.memory.Some? then rt.value.memory.value else None)
  {
    EachPodItsOwn(before, pods, Key(PodUptimeSeconds, [pods[j].id]));
    EachPodItsOwn(before, pods, Key(PodCPUUtilPercent, [pods[j].id]));
    EachPodItsOwn(before, pods, Key(PodMemoryUtilPercent, [pods[j].id]));
  }

  /** The series of GPU i is the one labelled with i printed in decimal. */
  lemma GpuSeries(before: Series, pods: seq<Pod>, j: nat, i: nat)
    requires DistinctIds(pods) && j < |pods|
    requires pods[j].runtime.Some? && pods[j].runtime.value.gpus.Some? && i < |pods[j].runtime.value.gpus.value|
    ensures var st := Run(before, PollOps(pods));
            var gpu := pods[j].runtime.value.gpus.value[i];
            && Lookup(st, Key(PodGPUUtilPercent, [pods[j].id, Itoa(i)])) == gpu.util
            && Lookup(st, Key(PodGPUMemoryUtilPercent, [pods[j].id, Itoa(i)])) == gpu.memoryUtil
  {
    ParsesBack(i);
    EachPodItsOwn(before, pods, Key(PodGPUUtilPercent, [pods[j].id, Itoa(i)]));
    EachPodItsOwn(before, pods, Key(PodGPUMemoryUtilPercent, [pods[j].id, Itoa(i)]));
  }

  // ----- counting GPU series -----

  /** How many GPUs report a utilisation. */
  function Readings(gpus: seq<GpuUtilization>): nat {
    if |gpus| == 0 then 0
    else Readings(gpus[..|gpus| - 1]) + (if gpus[|gpus| - 1].util.Some? then 1 else 0)
  }

  function PodGpus(pod: Pod): seq<GpuUtilization> {
    if pod.runtime.Some? then GpusOf(pod.runtime.value) else []
  }

  function AllReadings(pods: seq<Pod>): nat {
    if |pods| == 0 then 0 else AllReadings(pods[..|pods| - 1]) + Readings(PodGpus(pods[|pods| - 1]))
  }

  function GpuKeys(id: string, gpus: seq<GpuUtilization>): set<Key> {
    if |gpus| == 0 then {}
    else
      var n := |gpus| - 1;
      GpuKeys(id, gpus[..n]) + (if gpus[n].util.Some? then {Key(PodGPUUtilPercent, [id, Itoa(n)])} else {})
  }

  function AllGpuKeys(pods: seq<Pod>): set<Key> {
    if |pods| == 0 then {}
    else AllGpuKeys(pods[..|pods| - 1]) + GpuKeys(pods[|pods| - 1].id, PodGpus(pods[|pods| - 1]))
  }

  /** Distinct indices print differently, so the keys are as many as the readings. */
  lemma {:induction false} GpuKeysCount(id: string, gpus: seq<GpuUtilization>)
    ensures |GpuKeys(id, gpus)| == Readings(gpus)
    ensures forall k :: k in GpuKeys(id, gpus) <==> k.vec == PodGPUUtilPercent && GpuReading(id, gpus, k.labels, false).Some?
    decreases |gpus|
  {
    if |gpus| > 0 {
      var n := |gpus| - 1;
      GpuKeysCount(id, gpus[..n]);
      OneMoreGpu(id, gpus, [id, Itoa(n)], false);
      forall k: Key
        ensures k in GpuKeys(id, gpus) <==> k.vec == PodGPUUtilPercent && GpuReading(id, gpus, k.labels, false).Some?
      {
        OneMoreGpu(id, gpus, k.labels, false);
      }
    }
  }

  function PodKeys(pod: Pod): set<Key> {
    GpuKeys(pod.id, PodGpus(pod))
  }

  lemma PodKeysRead(pod: Pod, k: Key)
    ensures k in PodKeys(pod) <==> k.vec == PodGPUUtilPercent && Reading(pod, k).Some?
    ensures k in PodKeys(pod) ==> |k.labels| > 0 && k.labels[0] == pod.id
  {
    GpuKeysCount(pod.id, PodGpus(pod));
  }

  /** Keys of pods with other ids are other keys. */
  lemma ForeignKeys(front: seq<Pod>, pod: Pod)
    requires forall j :: 0 <= j < |front| ==> front[j].id != pod.id
    requires forall k :: k in AllGpuKeys(front) <==> exists j :: 0 <= j < |front| && k in PodKeys(front[j])
    ensures AllGpuKeys(front) !! PodKeys(pod)
  {
    forall k | k in PodKeys(pod) ensures k !in AllGpuKeys(front) {
      PodKeysRead(pod, k);
      forall j | 0 <= j < |front| ensures k !in PodKeys(front[j]) {
        PodKeysRead(front[j], k);
      }
    }
  }

  lemma {:induction false} AllGpuKeysAre(pods: seq<Pod>)
    ensures forall k :: k in AllGpuKeys(pods) <==> exists j :: 0 <= j < |pods| && k in PodKeys(pods[j])
    decreases |pods|
  {
    if |pods| > 0 {
      var front := pods[..|pods| - 1];
      AllGpuKeysAre(front);
      forall j | 0 <= j < |front| ensures front[j] == pods[j] {
      }
    }
  }

  lemma {:induction false} AllGpuKeysCount(pods: seq<Pod>)
    requires DistinctIds(pods)
    ensures |AllGpuKeys(pods)| == AllReadings(pods)
    decreases |pods|
  {
    if |pods| > 0 {
      var n := |pods| - 1;
      AllGpuKeysCount(pods[..n]);
      AllGpuKeysAre(pods[..n]);
      GpuKeysCount(pods[n].id, PodGpus(pods[n]));
      ForeignKeys(pods[..n], pods[n]);
    }
  }

  lemma GpuKeyShown(before: Series, pods: seq<Pod>, k: Key)
    ensures k in Run(before, PollOps(pods)) && k.vec == PodGPUUtilPercent
            <==> exists j :: 0 <= j < |pods| && k in PodKeys(pods[j])
  {
    forall j | 0 <= j < |pods| ensures k in PodKeys(pods[j]) <==> k.vec == PodGPUUtilPercent && Reading(pods[j], k).Some? {
      PodKeysRead(pods[j], k);
    }
    if k.vec == PodGPUUtilPercent {
      LastPodWins(before, pods, k, 0.0);
    }
  }

  /** There are as many GPU utilisation series as GPUs with a reading. */
  lemma GpuSeriesCount(before: Series, pods: seq<Pod>)
    requires DistinctIds(pods)
    ensures |set k | k in Run(before, PollOps(pods)) && k.vec == PodGPUUtilPercent| == AllReadings(pods)
  {
    var st := Run(before, PollOps(pods));
    AllGpuKeysCount(pods);
    AllGpuKeysAre(pods);
    forall k: Key ensures k in st && k.vec == PodGPUUtilPercent <==> k in AllGpuKeys(pods) {
      GpuKeyShown(before, pods, k);
    }
    assert (set k | k in st && k.vec == PodGPUUtilPercent) == AllGpuKeys(pods);
  }
}
