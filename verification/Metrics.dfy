/**
 The metric registry. A vec is a map from label values to numbers; the whole registry is one map
 keyed by vec and labels. Every change is one of four atomic operations, and a Poll is read as
 the sequence of operations it performs.
 */
module Metrics {
  import opened Wrappers

  datatype Vec =
    | PodUp | PodCPUUtilPercent | PodMemoryUtilPercent | PodGPUUtilPercent | PodGPUMemoryUtilPercent
    | PodUptimeSeconds | PodCostPerHourDollars | PodDiskGB | PodInfo
    | ServerlessWorkers | ServerlessWorkerStale | ServerlessWorkersMin | ServerlessWorkersMax | ServerlessInfo
    | CatalogGpuPriceDollarsPerHour | CatalogCpuPriceDollarsPerVcpuHour | CatalogGpuAvailability
    | ClusterPods | ClusterInfo
    | RegistryInfo | RegistryDelegationCount
    | AccountSSHKeys | BillingCostDollars | TemplateInfo | NetworkVolumeSizeGB
    | ScrapeErrorsTotal | LastSuccessTimestamp | ScrapeDuration

  type Labels = seq<string>

  datatype Key = Key(vec: Vec, labels: Labels)

  type Series = map<Key, real>

  /** Gauge sets a plain gauge, a metric whose only series has no labels. */
  datatype Op =
    | Reset(vec: Vec)
    | Set(vec: Vec, labels: Labels, value: real)
    | Gauge(vec: Vec, value: real)
    | Inc(vec: Vec, labels: Labels)

  function Drop(st: Series, v: Vec): Series {
    map k | k in st && k.vec != v :: st[k]
  }

  function Lookup(st: Series, k: Key): Option<real> {
    if k in st then Some(st[k]) else None
  }

  function Count(v: Option<real>): real {
    if v.Some? then v.value else 0.0
  }

  function Apply(st: Series, op: Op): Series {
    match op
    case Reset(v) => Drop(st, v)
    case Set(v, labels, x) => st[Key(v, labels) := x]
    case Gauge(v, x) => Drop(st, v)[Key(v, []) := x]
    case Inc(v, labels) => st[Key(v, labels) := Count(Lookup(st, Key(v, labels))) + 1.0]
  }

  function Run(st: Series, ops: seq<Op>): Series {
    if |ops| == 0 then st else Apply(Run(st, ops[..|ops| - 1]), ops[|ops| - 1])
  }

  lemma {:induction false} RunAppend(st: Series, a: seq<Op>, b: seq<Op>)
    ensures Run(st, a + b) == Run(Run(st, a), b)
    decreases |b|
  {
    if |b| == 0 {
      assert a + b == a;
    } else {
      RunAppend(st, a, b[..|b| - 1]);
      assert (a + b)[..|a + b| - 1] == a + b[..|b| - 1];
    }
  }

  class MetricStore {
    var series: Series
    ghost var log: seq<Op>  // every operation since the process started

    ghost predicate Valid()
      reads this
    {
      series == Run(map[], log)
    }

    constructor ()
      ensures Valid() && series == map[] && log == []
    {
      series := map[];
      log := [];
    }

    method Reset(v: Vec)
      requires Valid()
      modifies this
      ensures Valid() && log == old(log) + [Op.Reset(v)]
      ensures series == Drop(old(series), v)
    {
      series := map k | k in series && k.vec != v :: series[k];
      log := log + [Op.Reset(v)];
    }

    method Set(v: Vec, labels: Labels, x: real)
      requires Valid()
      modifies this
      ensures Valid() && log == old(log) + [Op.Set(v, labels, x)]
      ensures series == old(series)[Key(v, labels) := x]
    {
      series := series[Key(v, labels) := x];
      log := log + [Op.Set(v, labels, x)];
    }

    method Gauge(v: Vec, x: real)
      requires Valid()
      modifies this
      ensures Valid() && log == old(log) + [Op.Gauge(v, x)]
      ensures series == Drop(old(series), v)[Key(v, []) := x]
    {
      series := (map k | k in series && k.vec != v :: series[k])[Key(v, []) := x];
      log := log + [Op.Gauge(v, x)];
    }

    method Inc(v: Vec, labels: Labels)
      requires Valid()
      modifies this
      ensures Valid() && log == old(log) + [Op.Inc(v, labels)]
      ensures series == old(series)[Key(v, labels) := Count(Lookup(old(series), Key(v, labels))) + 1.0]
    {
      var k := Key(v, labels);
      var n := if k in series then series[k] else 0.0;
      series := series[k := n + 1.0];
      log := log + [Op.Inc(v, labels)];
    }

    /** Resets each of the vecs, in order. */
    method ResetAll(vs: seq<Vec>)
      requires Valid()
      modifies this
      ensures Valid() && log == old(log) + Resets(vs)
    {
      for i := 0 to |vs|
        invariant Valid() && log == old(log) + Resets(vs[..i])
      {
        Reset(vs[i]);
        assert vs[..i + 1][..i] == vs[..i];
        assert Resets(vs[..i + 1]) == Resets(vs[..i]) + [Op.Reset(vs[i])];
      }
      assert vs[..|vs|] == vs;
    }
  }

  function Resets(vs: seq<Vec>): seq<Op> {
    seq(|vs|, i requires 0 <= i < |vs| => Reset(vs[i]))
  }

  // ----- one series at a time -----

  /** What an operation does to the series of one key. */
  function Effect(op: Op, k: Key, v: Option<real>): Option<real> {
    match op
    case Reset(w) => if k.vec == w then None else v
    case Set(w, labels, x) => if k == Key(w, labels) then Some(x) else v
    case Gauge(w, x) => if k == Key(w, []) then Some(x) else if k.vec == w then None else v
    case Inc(w, labels) => if k == Key(w, labels) then Some(Count(v) + 1.0) else v
  }

  function KeyRun(v: Option<real>, ops: seq<Op>, k: Key): Option<real> {
    if |ops| == 0 then v else Effect(ops[|ops| - 1], k, KeyRun(v, ops[..|ops| - 1], k))
  }

  /** The registry can be followed key by key. */
  lemma {:induction false} Pointwise(st: Series, ops: seq<Op>, k: Key)
    ensures Lookup(Run(st, ops), k) == KeyRun(Lookup(st, k), ops, k)
    decreases |ops|
  {
    if |ops| > 0 {
      Pointwise(st, ops[..|ops| - 1], k);
    }
  }

  lemma {:induction false} KeyRunAppend(v: Option<real>, a: seq<Op>, b: seq<Op>, k: Key)
    ensures KeyRun(v, a + b, k) == KeyRun(KeyRun(v, a, k), b, k)
    decreases |b|
  {
    if |b| == 0 {
      assert a + b == a;
    } else {
      KeyRunAppend(v, a, b[..|b| - 1], k);
      assert (a + b)[..|a + b| - 1] == a + b[..|b| - 1];
    }
  }

  lemma {:induction false} ResetsClear(v: Option<real>, vs: seq<Vec>, k: Key)
    ensures KeyRun(v, Resets(vs), k) == if k.vec in vs then None else v
    decreases |vs|
  {
    if |vs| > 0 {
      var n := |vs| - 1;
      ResetsClear(v, vs[..n], k);
      assert Resets(vs)[..n] == Resets(vs[..n]);
      assert vs == vs[..n] + [vs[n]];
    }
  }

  lemma SeriesEqual(a: Series, b: Series)
    requires forall k :: Lookup(a, k) == Lookup(b, k)
    ensures a == b
  {
    forall k ensures k in a <==> k in b {
      assert Lookup(a, k) == Lookup(b, k);
    }
    forall k | k in a ensures a[k] == b[k] {
      assert Lookup(a, k) == Lookup(b, k);
    }
  }

  lemma {:induction false} Untouched(v: Option<real>, ops: seq<Op>, k: Key)
    requires forall op :: op in ops ==> op.vec != k.vec
    ensures KeyRun(v, ops, k) == v
    decreases |ops|
  {
    if |ops| > 0 {
      Untouched(v, ops[..|ops| - 1], k);
    }
  }

  // ----- last write wins -----

  function Or(a: Option<real>, b: Option<real>): Option<real> {
    if a.Some? then a else b
  }

  /** A Set guarded by a nil check. */
  function SetIf(v: Vec, labels: Labels, x: Option<real>): seq<Op> {
    if x.Some? then [Set(v, labels, x.value)] else []
  }

  /** The series of `k` after such a Set. */
  function Wrote(was: Option<real>, v: Vec, labels: Labels, x: Option<real>, k: Key): Option<real> {
    if k == Key(v, labels) then Or(x, was) else was
  }

  lemma ThenSetIf(was: Option<real>, ops: seq<Op>, v: Vec, labels: Labels, x: Option<real>, k: Key)
    ensures KeyRun(was, ops + SetIf(v, labels, x), k) == Wrote(KeyRun(was, ops, k), v, labels, x, k)
  {
    KeyRunAppend(was, ops, SetIf(v, labels, x), k);
    if x.Some? {
      assert SetIf(v, labels, x)[..0] == [];
    }
  }

  lemma ThenTwoSetIfs(was: Option<real>, ops: seq<Op>, v: Vec, labels: Labels, x: Option<real>,
                      w: Vec, others: Labels, y: Option<real>, k: Key)
    ensures KeyRun(was, ops + SetIf(v, labels, x) + SetIf(w, others, y), k)
         == Wrote(Wrote(KeyRun(was, ops, k), v, labels, x, k), w, others, y, k)
  {
    ThenSetIf(was, ops, v, labels, x, k);
    ThenSetIf(was, ops + SetIf(v, labels, x), w, others, y, k);
  }

  /** The operations of a loop over `items`. */
  function Blocks<T>(items: seq<T>, opsOf: T -> seq<Op>): seq<Op> {
    if |items| == 0 then [] else Blocks(items[..|items| - 1], opsOf) + opsOf(items[|items| - 1])
  }

  lemma Assoc(a: seq<Op>, b: seq<Op>, c: seq<Op>)
    ensures a + b + c == a + (b + c)
  {
  }

  lemma BlocksNext<T>(items: seq<T>, i: nat, opsOf: T -> seq<Op>)
    requires i < |items|
    ensures Blocks(items[..i + 1], opsOf) == Blocks(items[..i], opsOf) + opsOf(items[i])
  {
    assert items[..i + 1][..i] == items[..i];
  }

  lemma {:induction false} BlocksAppend<T>(a: seq<T>, b: seq<T>, opsOf: T -> seq<Op>)
    ensures Blocks(a + b, opsOf) == Blocks(a, opsOf) + Blocks(b, opsOf)
    decreases |b|
  {
    if |b| == 0 {
      assert a + b == a;
    } else {
      var n := |b| - 1;
      BlocksAppend(a, b[..n], opsOf);
      assert (a + b)[..|a| + n] == a + b[..n];
      Assoc(Blocks(a, opsOf), Blocks(b[..n], opsOf), opsOf(b[n]));
    }
  }

  /** The reading of the last item that has one for `k`. */
  function LastReading<T>(items: seq<T>, reading: (T, Key) -> Option<real>, k: Key): Option<real> {
    if |items| == 0 then None
    else Or(reading(items[|items| - 1], k), LastReading(items[..|items| - 1], reading, k))
  }

  /** The operations for `t` write exactly its readings: nothing else, and each to its key. */
  ghost predicate Writes<T>(t: T, opsOf: T -> seq<Op>, reading: (T, Key) -> Option<real>) {
    forall k: Key, v: Option<real> :: KeyRun(v, opsOf(t), k) == Or(reading(t, k), v)
  }

  lemma {:induction false} BlocksWrite<T>(items: seq<T>, opsOf: T -> seq<Op>, reading: (T, Key) -> Option<real>,
                                          k: Key, v: Option<real>)
    requires forall t :: t in items ==> Writes(t, opsOf, reading)
    ensures KeyRun(v, Blocks(items, opsOf), k) == Or(LastReading(items, reading, k), v)
    decreases |items|
  {
    if |items| > 0 {
      var n := |items| - 1;
      BlocksWrite(items[..n], opsOf, reading, k, v);
      KeyRunAppend(v, Blocks(items[..n], opsOf), opsOf(items[n]), k);
      assert Writes(items[n], opsOf, reading);
    }
  }

  /** Item j reads x, and no later item reads anything. */
  ghost predicate IsLastReading<T>(items: seq<T>, reading: (T, Key) -> Option<real>, k: Key, x: real, j: nat) {
    j < |items| && reading(items[j], k) == Some(x) && forall l :: j < l < |items| ==> reading(items[l], k).None?
  }

  lemma {:induction false} LastReadingFound<T>(items: seq<T>, reading: (T, Key) -> Option<real>, k: Key) returns (j: nat)
    requires LastReading(items, reading, k).Some?
    ensures IsLastReading(items, reading, k, LastReading(items, reading, k).value, j)
    decreases |items|
  {
    var n := |items| - 1;
    if reading(items[n], k).Some? {
      j := n;
    } else {
      j := LastReadingFound(items[..n], reading, k);
      assert forall l :: 0 <= l < n ==> items[..n][l] == items[l];
    }
  }

  lemma {:induction false} LastReadingIs<T>(items: seq<T>, reading: (T, Key) -> Option<real>, k: Key, x: real, j: nat)
    requires IsLastReading(items, reading, k, x, j)
    ensures LastReading(items, reading, k) == Some(x)
    decreases |items|
  {
    var n := |items| - 1;
    if j < n {
      assert forall l :: 0 <= l < n ==> items[..n][l] == items[l];
      LastReadingIs(items[..n], reading, k, x, j);
    }
  }

  /** LastReading is what its name says: the value is that of an item with a reading after which
      no item has one, and there is none only if no item has one. */
  lemma {:induction false} LastReadingIff<T>(items: seq<T>, reading: (T, Key) -> Option<real>, k: Key, x: real)
    ensures LastReading(items, reading, k) == Some(x) <==>
            exists j :: 0 <= j < |items| && reading(items[j], k) == Some(x)
                        && forall l :: j < l < |items| ==> reading(items[l], k).None?
    ensures LastReading(items, reading, k).None? <==> forall j :: 0 <= j < |items| ==> reading(items[j], k).None?
  {
    if LastReading(items, reading, k).Some? {
      var j := LastReadingFound(items, reading, k);
    }
    if j :| 0 <= j < |items| && reading(items[j], k) == Some(x)
            && forall l :: j < l < |items| ==> reading(items[l], k).None?
    {
      LastReadingIs(items, reading, k, x, j);
    }
    if j :| 0 <= j < |items| && reading(items[j], k).Some? {
      SomeItemReads(items, reading, k, j);
    } else {
      NoItemReads(items, reading, k);
    }
  }

  lemma {:induction false} SomeItemReads<T>(items: seq<T>, reading: (T, Key) -> Option<real>, k: Key, j: nat)
    requires j < |items| && reading(items[j], k).Some?
    ensures LastReading(items, reading, k).Some?
    decreases |items|
  {
    if j < |items| - 1 {
      SomeItemReads(items[..|items| - 1], reading, k, j);
    }
  }

  lemma {:induction false} NoItemReads<T>(items: seq<T>, reading: (T, Key) -> Option<real>, k: Key)
    requires forall j :: 0 <= j < |items| ==> reading(items[j], k).None?
    ensures LastReading(items, reading, k).None?
    decreases |items|
  {
    if |items| > 0 {
      NoItemReads(items[..|items| - 1], reading, k);
    }
  }

  lemma {:induction false} LastReadingAppend<T>(a: seq<T>, b: seq<T>, reading: (T, Key) -> Option<real>, k: Key)
    ensures LastReading(a + b, reading, k) == Or(LastReading(b, reading, k), LastReading(a, reading, k))
    decreases |b|
  {
    if |b| == 0 {
      assert a + b == a;
    } else {
      LastReadingAppend(a, b[..|b| - 1], reading, k);
      assert (a + b)[..|a + b| - 1] == a + b[..|b| - 1];
    }
  }

  lemma NoReading<T>(items: seq<T>, reading: (T, Key) -> Option<real>, k: Key)
    requires forall t :: t in items ==> reading(t, k).None?
    ensures LastReading(items, reading, k).None?
  {
    NoItemReads(items, reading, k);
  }

  /** After a poll: its vecs show exactly `view`, every other series is as before. */
  ghost predicate Shows(st: Series, before: Series, vs: seq<Vec>, view: Key -> Option<real>) {
    forall k: Key :: Lookup(st, k) == if k.vec in vs then view(k) else Lookup(before, k)
  }
}
