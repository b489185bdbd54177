/** CatalogDomain.Poll: GPU types once per product, CPU types once, then three vecs. */
module Catalog {
  import opened Wrappers
  import opened Metrics
  import opened Api

  datatype DataCenter = DataCenter(id: string, availability: string)

  datatype Gpu = Gpu(id: string, secure: real, community: real, dataCenters: Option<seq<DataCenter>>)

  datatype Cpu = Cpu(id: string, securePerVcpu: real, serverlessPerVcpu: real)

  const PRODUCTS: seq<string> := ["POD", "SERVERLESS", "CLUSTER"]

  const VECS: seq<Vec> := [
    CatalogGpuPriceDollarsPerHour, CatalogCpuPriceDollarsPerVcpuHour, CatalogGpuAvailability]

  function AvailabilityToFloat(level: string): real {
    match level
    case "NONE" => 0.0
    case "LOW" => 1.0
    case "MEDIUM" => 2.0
    case "HIGH" => 3.0
    case _ => 0.0
  }

  /** One availability series: a GPU type offered in a data center for a product. */
  datatype Offer = Offer(gpuId: string, dataCenterId: string, product: string, level: string)

  function DataCentersOf(gpu: Gpu): seq<DataCenter> {
    if gpu.dataCenters.Some? then gpu.dataCenters.value else []
  }

  function OffersOf(product: string, gpu: Gpu): seq<Offer> {
    var dcs := DataCentersOf(gpu);
    seq(|dcs|, j requires 0 <= j < |dcs| => Offer(gpu.id, dcs[j].id, product, dcs[j].availability))
  }

  /** The offers of one product's response, in the order they are written. */
  function ProductOffers(product: string, gpus: seq<Gpu>): seq<Offer> {
    if |gpus| == 0 then [] else ProductOffers(product, gpus[..|gpus| - 1]) + OffersOf(product, gpus[|gpus| - 1])
  }

  /** The offers of all responses, product by product. */
  function AllOffers(products: seq<string>, resps: seq<seq<Gpu>>): seq<Offer>
    requires |products| == |resps|
  {
    if |products| == 0 then []
    else
      var n := |products| - 1;
      AllOffers(products[..n], resps[..n]) + ProductOffers(products[n], resps[n])
  }

  function PriceOps(gpu: Gpu): seq<Op> {
    []
    + SetIf(CatalogGpuPriceDollarsPerHour, [gpu.id, "SECURE"], Some(gpu.secure))
    + SetIf(CatalogGpuPriceDollarsPerHour, [gpu.id, "COMMUNITY"], Some(gpu.community))
  }

  function OfferOps(o: Offer): seq<Op> {
    [] + SetIf(CatalogGpuAvailability, [o.gpuId, o.dataCenterId, o.product], Some(AvailabilityToFloat(o.level)))
  }

  function CpuOps(cpu: Cpu): seq<Op> {
    []
    + SetIf(CatalogCpuPriceDollarsPerVcpuHour, [cpu.id, "SECURE"], Some(cpu.securePerVcpu))
    + SetIf(CatalogCpuPriceDollarsPerVcpuHour, [cpu.id, "SERVERLESS"], Some(cpu.serverlessPerVcpu))
  }

  function PollOps(resps: seq<seq<Gpu>>, cpus: seq<Cpu>): seq<Op>
    requires |resps| == |PRODUCTS|
  {
    Resets(VECS) + Blocks(resps[0], PriceOps) + Blocks(AllOffers(PRODUCTS, resps), OfferOps) + Blocks(cpus, CpuOps)
  }

  // ----- what each item writes -----

  function PriceReading(gpu: Gpu, k: Key): Option<real> {
    if k == Key(CatalogGpuPriceDollarsPerHour, [gpu.id, "SECURE"]) then Some(gpu.secure)
    else if k == Key(CatalogGpuPriceDollarsPerHour, [gpu.id, "COMMUNITY"]) then Some(gpu.community)
    else None
  }

  function OfferReading(o: Offer, k: Key): Option<real> {
    if k == Key(CatalogGpuAvailability, [o.gpuId, o.dataCenterId, o.product]) then Some(AvailabilityToFloat(o.level)) else None
  }

  function CpuReading(cpu: Cpu, k: Key): Option<real> {
    if k == Key(CatalogCpuPriceDollarsPerVcpuHour, [cpu.id, "SECURE"]) then Some(cpu.securePerVcpu)
    else if k == Key(CatalogCpuPriceDollarsPerVcpuHour, [cpu.id, "SERVERLESS"]) then Some(cpu.serverlessPerVcpu)
    else None
  }

  /** Two prices of one id under different cloud labels. */
  lemma TwoClouds(vec: Vec, id: string, a: string, b: string, x: real, y: real, k: Key, v: Option<real>)
    requires a != b
    ensures KeyRun(v, [] + SetIf(vec, [id, a], Some(x)) + SetIf(vec, [id, b], Some(y)), k)
         == if k == Key(vec, [id, a]) then Some(x) else if k == Key(vec, [id, b]) then Some(y) else v
  {
    assert [id, a][1] != [id, b][1];
    ThenSetIf(v, [], vec, [id, a], Some(x), k);
    ThenSetIf(v, [] + SetIf(vec, [id, a], Some(x)), vec, [id, b], Some(y), k);
  }

  lemma CloudsDiffer()
    ensures "SECURE" != "COMMUNITY" && "SECURE" != "SERVERLESS"
  {
    assert "SECURE"[1] == 'E' && "COMMUNITY"[1] == 'O' && "SECURE"[2] == 'C' && "SERVERLESS"[2] == 'R';
  }

  lemma PriceKeyWrites(gpu: Gpu, k: Key, v: Option<real>)
    ensures KeyRun(v, PriceOps(gpu), k) == Or(PriceReading(gpu, k), v)
  {
    CloudsDiffer();
    TwoClouds(CatalogGpuPriceDollarsPerHour, gpu.id, "SECURE", "COMMUNITY", gpu.secure, gpu.community, k, v);
  }

  lemma PriceWrites(gpu: Gpu)
    ensures Writes(gpu, PriceOps, PriceReading)
  {
    forall k: Key, v: Option<real> ensures KeyRun(v, PriceOps(gpu), k) == Or(PriceReading(gpu, k), v) {
      PriceKeyWrites(gpu, k, v);
    }
  }

  lemma OfferWrites(o: Offer)
    ensures Writes(o, OfferOps, OfferReading)
  {
    forall k: Key, v: Option<real> ensures KeyRun(v, OfferOps(o), k) == Or(OfferReading(o, k), v) {
      ThenSetIf(v, [], CatalogGpuAvailability, [o.gpuId, o.dataCenterId, o.product], Some(AvailabilityToFloat(o.level)), k);
    }
  }

  lemma CpuKeyWrites(cpu: Cpu, k: Key, v: Option<real>)
    ensures KeyRun(v, CpuOps(cpu), k) == Or(CpuReading(cpu, k), v)
  {
    CloudsDiffer();
    TwoClouds(CatalogCpuPriceDollarsPerVcpuHour, cpu.id, "SECURE", "SERVERLESS", cpu.securePerVcpu, cpu.serverlessPerVcpu, k, v);
  }

  lemma CpuWrites(cpu: Cpu)
    ensures Writes(cpu, CpuOps, CpuReading)
  {
    forall k: Key, v: Option<real> ensures KeyRun(v, CpuOps(cpu), k) == Or(CpuReading(cpu, k), v) {
      CpuKeyWrites(cpu, k, v);
    }
  }

  /** What the three vecs show after a poll. */
  function View(resps: seq<seq<Gpu>>, cpus: seq<Cpu>): Key -> Option<real>
    requires |resps| == |PRODUCTS|
  {
    (k: Key) =>
      if k.vec == CatalogGpuPriceDollarsPerHour then LastReading(resps[0], PriceReading, k)
      else if k.vec == CatalogGpuAvailability then LastReading(AllOffers(PRODUCTS, resps), OfferReading, k)
      else LastReading(cpus, CpuReading, k)
  }

  lemma PollKey(resps: seq<seq<Gpu>>, cpus: seq<Cpu>, k: Key, v: Option<real>)
    requires |resps| == |PRODUCTS|
    ensures KeyRun(v, PollOps(resps, cpus), k) == if k.vec in VECS then View(resps, cpus)(k) else v
  {
    var a := Resets(VECS);
    var b := Blocks(resps[0], PriceOps);
    var c := Blocks(AllOffers(PRODUCTS, resps), OfferOps);
    KeyRunAppend(v, a + b + c, Blocks(cpus, CpuOps), k);
    KeyRunAppend(v, a + b, c, k);
    KeyRunAppend(v, a, b, k);
    ResetsClear(v, VECS, k);
    PassesWrite(resps, cpus, k, KeyRun(v, a, k));
  }

  lemma PassesWrite(resps: seq<seq<Gpu>>, cpus: seq<Cpu>, k: Key, v: Option<real>)
    requires |resps| == |PRODUCTS|
    requires k.vec in VECS ==> v.None?
    ensures KeyRun(KeyRun(KeyRun(v, Blocks(resps[0], PriceOps), k), Blocks(AllOffers(PRODUCTS, resps), OfferOps), k),
                   Blocks(cpus, CpuOps), k)
         == if k.vec in VECS then View(resps, cpus)(k) else v
  {
    var offers := AllOffers(PRODUCTS, resps);
    forall gpu | gpu in resps[0] ensures Writes(gpu, PriceOps, PriceReading) { PriceWrites(gpu); }
    forall o | o in offers ensures Writes(o, OfferOps, OfferReading) { OfferWrites(o); }
    forall cpu | cpu in cpus ensures Writes(cpu, CpuOps, CpuReading) { CpuWrites(cpu); }
    var v1 := KeyRun(v, Blocks(resps[0], PriceOps), k);
    var v2 := KeyRun(v1, Blocks(offers, OfferOps), k);
    BlocksWrite(resps[0], PriceOps, PriceReading, k, v);
    BlocksWrite(offers, OfferOps, OfferReading, k, v1);
    BlocksWrite(cpus, CpuOps, CpuReading, k, v2);
    if k.vec != CatalogGpuPriceDollarsPerHour { NoReading(resps[0], PriceReading, k); }
    if k.vec != CatalogGpuAvailability { NoReading(offers, OfferReading, k); }
    if k.vec != CatalogCpuPriceDollarsPerVcpuHour { NoReading(cpus, CpuReading, k); }
  }

  lemma PollShows(st: Series, resps: seq<seq<Gpu>>, cpus: seq<Cpu>)
    requires |resps| == |PRODUCTS|
    ensures Shows(Run(st, PollOps(resps, cpus)), st, VECS, View(resps, cpus))
  {
    forall k: Key
      ensures Lookup(Run(st, PollOps(resps, cpus)), k) == if k.vec in VECS then View(resps, cpus)(k) else Lookup(st, k)
    {
      Pointwise(st, PollOps(resps, cpus), k);
      PollKey(resps, cpus, k, Lookup(st, k));
    }
  }

  // ----- the poll -----

  /** The response of each product's own call. */
  function Responses(calls: string -> Call<seq<Gpu>>): (resps: seq<seq<Gpu>>)
    requires forall i :: 0 <= i < |PRODUCTS| ==> calls(PRODUCTS[i]).Ok?
    ensures |resps| == |PRODUCTS| && forall i :: 0 <= i < |PRODUCTS| ==> calls(PRODUCTS[i]) == Ok(resps[i])
  {
    seq(|PRODUCTS|, i requires 0 <= i < |PRODUCTS| => calls(PRODUCTS[i]).value)
  }

  predicate ProductsOk(calls: string -> Call<seq<Gpu>>) {
    forall i :: 0 <= i < |PRODUCTS| ==> calls(PRODUCTS[i]).Ok?
  }

  /** The error is that of the first product call that fails. */
  ghost predicate FirstFailure(calls: string -> Call<seq<Gpu>>, error: PollError) {
    exists i :: 0 <= i < |PRODUCTS| && !calls(PRODUCTS[i]).Ok?
                && (forall j :: 0 <= j < i ==> calls(PRODUCTS[j]).Ok?)
                && error == PollError("list gpu types (product=" + PRODUCTS[i] + ")", FaultOf(calls(PRODUCTS[i])))
  }

  /** The three product calls, in order; the first failing one ends the poll. */
  method FetchGpus(calls: string -> Call<seq<Gpu>>) returns (r: Result<seq<seq<Gpu>>, PollError>)
    ensures r.Success? ==> ProductsOk(calls) && r.value == Responses(calls)
    ensures r.Failure? ==> FirstFailure(calls, r.error)
  {
    var gpuResps := new seq<Gpu>[|PRODUCTS|](_ => []);
    for i := 0 to |PRODUCTS|
      invariant gpuResps.Length == |PRODUCTS|
      invariant forall j :: 0 <= j < i ==> calls(PRODUCTS[j]) == Ok(gpuResps[j])
    {
      match calls(PRODUCTS[i]) {
        case Transport(message) =>
          return Failure(PollError("list gpu types (product=" + PRODUCTS[i] + ")", Unreachable(message)));
        case Status(code, body) =>
          return Failure(PollError("list gpu types (product=" + PRODUCTS[i] + ")", HttpError(code, body)));
        case Ok(gpus) =>
          gpuResps[i] := gpus;
      }
    }
    r := Success(gpuResps[..]);
    assert r.value == Responses(calls);
  }

  method PublishPrices(store: MetricStore, gpus: seq<Gpu>)
    requires store.Valid()
    modifies store
    ensures store.Valid() && store.log == old(store.log) + Blocks(gpus, PriceOps)
  {
    for i := 0 to |gpus|
      invariant store.Valid() && store.log == old(store.log) + Blocks(gpus[..i], PriceOps)
    {
      ghost var was := store.log;
      store.Set(CatalogGpuPriceDollarsPerHour, [gpus[i].id, "SECURE"], gpus[i].secure);
      store.Set(CatalogGpuPriceDollarsPerHour, [gpus[i].id, "COMMUNITY"], gpus[i].community);
      assert store.log == was + PriceOps(gpus[i]);
      BlocksNext(gpus, i, PriceOps);
      Assoc(old(store.log), Blocks(gpus[..i], PriceOps), PriceOps(gpus[i]));
    }
    assert gpus[..|gpus|] == gpus;
  }

  method PublishCpus(store: MetricStore, cpus: seq<Cpu>)
    requires store.Valid()
    modifies store
    ensures store.Valid() && store.log == old(store.log) + Blocks(cpus, CpuOps)
  {
    for i := 0 to |cpus|
      invariant store.Valid() && store.log == old(store.log) + Blocks(cpus[..i], CpuOps)
    {
      ghost var was := store.log;
      store.Set(CatalogCpuPriceDollarsPerVcpuHour, [cpus[i].id, "SECURE"], cpus[i].securePerVcpu);
      store.Set(CatalogCpuPriceDollarsPerVcpuHour, [cpus[i].id, "SERVERLESS"], cpus[i].serverlessPerVcpu);
      assert store.log == was + CpuOps(cpus[i]);
      BlocksNext(cpus, i, CpuOps);
      Assoc(old(store.log), Blocks(cpus[..i], CpuOps), CpuOps(cpus[i]));
    }
    assert cpus[..|cpus|] == cpus;
  }

  /** The innermost loop: one GPU's data centers. */
  method PublishOffers(store: MetricStore, product: string, gpu: Gpu)
    requires store.Valid()
    modifies store
    ensures store.Valid() && store.log == old(store.log) + Blocks(OffersOf(product, gpu), OfferOps)
  {
    if gpu.dataCenters.None? {
      return;
    }
    var dcs := gpu.dataCenters.value;
    ghost var offers := OffersOf(product, gpu);
    for j := 0 to |dcs|
      invariant store.Valid() && store.log == old(store.log) + Blocks(offers[..j], OfferOps)
    {
      ghost var was := store.log;
      store.Set(CatalogGpuAvailability, [gpu.id, dcs[j].id, product], AvailabilityToFloat(dcs[j].availability));
      assert store.log == was + OfferOps(offers[j]);
      BlocksNext(offers, j, OfferOps);
      Assoc(old(store.log), Blocks(offers[..j], OfferOps), OfferOps(offers[j]));
    }
    assert offers[..|dcs|] == offers;
  }

  /** The middle loop: one product's response. */
  method PublishProduct(store: MetricStore, product: string, gpus: seq<Gpu>)
    requires store.Valid()
    modifies store
    ensures store.Valid() && store.log == old(store.log) + Blocks(ProductOffers(product, gpus), OfferOps)
  {
    for i := 0 to |gpus|
      invariant store.Valid() && store.log == old(store.log) + Blocks(ProductOffers(product, gpus[..i]), OfferOps)
    {
      PublishOffers(store, product, gpus[i]);
      assert gpus[..i + 1][..i] == gpus[..i];
      BlocksAppend(ProductOffers(product, gpus[..i]), OffersOf(product, gpus[i]), OfferOps);
      Assoc(old(store.log), Blocks(ProductOffers(product, gpus[..i]), OfferOps), Blocks(OffersOf(product, gpus[i]), OfferOps));
    }
    assert gpus[..|gpus|] == gpus;
  }

  lemma NextProduct(products: seq<string>, resps: seq<seq<Gpu>>, i: nat, log: seq<Op>)
    requires i < |products| == |resps|
    ensures log + Blocks(AllOffers(products[..i + 1], resps[..i + 1]), OfferOps)
         == log + Blocks(AllOffers(products[..i], resps[..i]), OfferOps) + Blocks(ProductOffers(products[i], resps[i]), OfferOps)
  {
    assert products[..i + 1][..i] == products[..i] && resps[..i + 1][..i] == resps[..i];
    BlocksAppend(AllOffers(products[..i], resps[..i]), ProductOffers(products[i], resps[i]), OfferOps);
    Assoc(log, Blocks(AllOffers(products[..i], resps[..i]), OfferOps), Blocks(ProductOffers(products[i], resps[i]), OfferOps));
  }

  /** The outer loop over the products. */
  method PublishAvailability(store: MetricStore, resps: seq<seq<Gpu>>)
    requires store.Valid() && |resps| == |PRODUCTS|
    modifies store
    ensures store.Valid() && store.log == old(store.log) + Blocks(AllOffers(PRODUCTS, resps), OfferOps)
  {
    for i := 0 to |resps|
      invariant store.Valid() && store.log == old(store.log) + Blocks(AllOffers(PRODUCTS[..i], resps[..i]), OfferOps)
    {
      PublishProduct(store, PRODUCTS[i], resps[i]);
      NextProduct(PRODUCTS, resps, i, old(store.log));
    }
    assert PRODUCTS[..|resps|] == PRODUCTS && resps[..|resps|] == resps;
  }

  method Publish(store: MetricStore, resps: seq<seq<Gpu>>, cpus: seq<Cpu>)
    requires store.Valid() && |resps| == |PRODUCTS|
    modifies store
    ensures store.Valid() && store.log == old(store.log) + PollOps(resps, cpus)
  {
    ghost var b := Blocks(resps[0], PriceOps);
    ghost var c := Blocks(AllOffers(PRODUCTS, resps), OfferOps);
    store.ResetAll(VECS);
    PublishPrices(store, resps[0]);
    PublishAvailability(store, resps);
    PublishCpus(store, cpus);
    Assoc(old(store.log), Resets(VECS), b);
    Assoc(old(store.log), Resets(VECS) + b, c);
    Assoc(old(store.log), Resets(VECS) + b + c, Blocks(cpus, CpuOps));
  }

  predicate AllOk(gpuCalls: string -> Call<seq<Gpu>>, cpuCall: Call<seq<Cpu>>) {
    ProductsOk(gpuCalls) && cpuCall.Ok?
  }

  /** All or nothing over the four calls. */
  method Poll(store: MetricStore, gpuCalls: string -> Call<seq<Gpu>>, cpuCall: Call<seq<Cpu>>)
    returns (r: Result<(), PollError>)
    requires store.Valid()
    modifies store
    ensures store.Valid()
    ensures r.Success? <==> AllOk(gpuCalls, cpuCall)
    ensures r.Failure? ==> store.log == old(store.log) && store.series == old(store.series)
    ensures r.Failure? && !ProductsOk(gpuCalls) ==> FirstFailure(gpuCalls, r.error)
    ensures r.Failure? && ProductsOk(gpuCalls) ==>
              r.error == PollError(if cpuCall.Transport? then "list cpu types" else "", FaultOf(cpuCall))
    ensures r.Success? ==> store.log == old(store.log) + PollOps(Responses(gpuCalls), cpuCall.value)
    ensures r.Success? ==> Shows(store.series, old(store.series), VECS, View(Responses(gpuCalls), cpuCall.value))
  {
    var fetched := FetchGpus(gpuCalls);
    if fetched.Failure? {
      return Failure(fetched.error);
    }
    match cpuCall
    case Transport(message) =>
      r := Failure(PollError("list cpu types", Unreachable(message)));
    case Status(code, body) =>
      r := Failure(PollError("", HttpError(code, body)));
    case Ok(cpus) =>
      Publish(store, fetched.value, cpus);
      RunAppend(map[], old(store.log), PollOps(fetched.value, cpus));
      PollShows(old(store.series), fetched.value, cpus);
      r := Success(());
  }

  // ----- decomposition -----

  lemma {:induction false} OtherProducts(products: seq<string>, resps: seq<seq<Gpu>>, k: Key)
    requires |products| == |resps|
    requires |k.labels| == 3 ==> k.labels[2] !in products
    ensures LastReading(AllOffers(products, resps), OfferReading, k).None?
    decreases |products|
  {
    if |products| > 0 {
      var n := |products| - 1;
      OtherProducts(products[..n], resps[..n], k);
      OtherProduct(products[n], resps[n], k);
      LastReadingAppend(AllOffers(products[..n], resps[..n]), ProductOffers(products[n], resps[n]), OfferReading, k);
    }
  }

  lemma {:induction false} OtherProduct(product: string, gpus: seq<Gpu>, k: Key)
    requires |k.labels| == 3 ==> k.labels[2] != product
    ensures LastReading(ProductOffers(product, gpus), OfferReading, k).None?
    decreases |gpus|
  {
    if |gpus| > 0 {
      var n := |gpus| - 1;
      OtherProduct(product, gpus[..n], k);
      NoReading(OffersOf(product, gpus[n]), OfferReading, k);
      LastReadingAppend(ProductOffers(product, gpus[..n]), OffersOf(product, gpus[n]), OfferReading, k);
    }
  }

  lemma {:induction false} OneProduct(products: seq<string>, resps: seq<seq<Gpu>>, i: nat, k: Key)
    requires |products| == |resps| && i < |products|
    requires forall a, b :: 0 <= a < b < |products| ==> products[a] != products[b]
    requires |k.labels| == 3 && k.labels[2] == products[i]
    ensures LastReading(AllOffers(products, resps), OfferReading, k)
         == LastReading(ProductOffers(products[i], resps[i]), OfferReading, k)
    decreases |products|
  {
    var n := |products| - 1;
    LastReadingAppend(AllOffers(products[..n], resps[..n]), ProductOffers(products[n], resps[n]), OfferReading, k);
    if i == n {
      OtherProducts(products[..n], resps[..n], k);
    } else {
      OneProduct(products[..n], resps[..n], i, k);
      OtherProduct(products[n], resps[n], k);
    }
  }

  /** The availability series of a product are the projection of that product's response alone: the
      passes of the nested loops never overwrite one another. No other product label appears. */
  lemma AvailabilityByProduct(before: Series, resps: seq<seq<Gpu>>, cpus: seq<Cpu>, k: Key)
    requires |resps| == |PRODUCTS| && k.vec == CatalogGpuAvailability
    ensures var st := Run(before, PollOps(resps, cpus));
            && (forall i :: 0 <= i < |PRODUCTS| && |k.labels| == 3 && k.labels[2] == PRODUCTS[i] ==>
                  Lookup(st, k) == LastReading(ProductOffers(PRODUCTS[i], resps[i]), OfferReading, k))
            && (k in st ==> |k.labels| == 3 && k.labels[2] in PRODUCTS)
  {
    var st := Run(before, PollOps(resps, cpus));
    PollShows(before, resps, cpus);
    assert Lookup(st, k) == View(resps, cpus)(k);
    forall i | 0 <= i < |PRODUCTS| && |k.labels| == 3 && k.labels[2] == PRODUCTS[i]
      ensures Lookup(st, k) == LastReading(ProductOffers(PRODUCTS[i], resps[i]), OfferReading, k)
    {
      assert PRODUCTS[0][0] == 'P' && PRODUCTS[1][0] == 'S' && PRODUCTS[2][0] == 'C';
      OneProduct(PRODUCTS, resps, i, k);
    }
    if !(|k.labels| == 3 && k.labels[2] in PRODUCTS) {
      OtherProducts(PRODUCTS, resps, k);
    }
  }

  /** Within a response the offers are those of its GPU types and their data centers, no more. */
  lemma {:induction false} OfferOrigin(product: string, gpus: seq<Gpu>, o: Offer)
    ensures o in ProductOffers(product, gpus) <==>
            o.product == product
            && exists i, j :: 0 <= i < |gpus| && 0 <= j < |DataCentersOf(gpus[i])|
                              && o == Offer(gpus[i].id, DataCentersOf(gpus[i])[j].id, product, DataCentersOf(gpus[i])[j].availability)
    decreases |gpus|
  {
    if |gpus| > 0 {
      var n := |gpus| - 1;
      OfferOrigin(product, gpus[..n], o);
      if o in OffersOf(product, gpus[n]) {
        var j :| 0 <= j < |OffersOf(product, gpus[n])| && OffersOf(product, gpus[n])[j] == o;
      }
      if i, j :| 0 <= i < |gpus| && 0 <= j < |DataCentersOf(gpus[i])|
                 && o == Offer(gpus[i].id, DataCentersOf(gpus[i])[j].id, product, DataCentersOf(gpus[i])[j].availability)
      {
        if i == n {
          assert OffersOf(product, gpus[n])[j] == o;
        } else {
          assert gpus[..n][i] == gpus[i];
        }
      }
      if i, j :| 0 <= i < n && 0 <= j < |DataCentersOf(gpus[..n][i])|
                 && o == Offer(gpus[..n][i].id, DataCentersOf(gpus[..n][i])[j].id, product, DataCentersOf(gpus[..n][i])[j].availability)
      {
        assert gpus[..n][i] == gpus[i];
      }
    }
  }

  lemma PriceKey(before: Series, resps: seq<seq<Gpu>>, cpus: seq<Cpu>, k: Key)
    requires |resps| == |PRODUCTS| && k.vec == CatalogGpuPriceDollarsPerHour
    ensures k in Run(before, PollOps(resps, cpus)) <==>
            exists j :: 0 <= j < |resps[0]| && (k.labels == [resps[0][j].id, "SECURE"] || k.labels == [resps[0][j].id, "COMMUNITY"])
  {
    var st := Run(before, PollOps(resps, cpus));
    PollShows(before, resps, cpus);
    assert Lookup(st, k) == View(resps, cpus)(k);
    LastReadingIff(resps[0], PriceReading, k, 0.0);
    forall j | 0 <= j < |resps[0]|
      ensures PriceReading(resps[0][j], k).Some?
         <==> k.labels == [resps[0][j].id, "SECURE"] || k.labels == [resps[0][j].id, "COMMUNITY"]
    {
    }
  }

  function PricesIn(gpus: seq<Gpu>, cloud: string): set<Key> {
    set j | 0 <= j < |gpus| :: Key(CatalogGpuPriceDollarsPerHour, [gpus[j].id, cloud])
  }

  /** The GPU price series are exactly those of the first response's GPU ids in the two clouds. */
  lemma PriceKeys(before: Series, resps: seq<seq<Gpu>>, cpus: seq<Cpu>)
    requires |resps| == |PRODUCTS|
    ensures (set k | k in Run(before, PollOps(resps, cpus)) && k.vec == CatalogGpuPriceDollarsPerHour)
         == PricesIn(resps[0], "SECURE") + PricesIn(resps[0], "COMMUNITY")
  {
    var st := Run(before, PollOps(resps, cpus));
    forall k: Key
      ensures k in st && k.vec == CatalogGpuPriceDollarsPerHour <==> k in PricesIn(resps[0], "SECURE") + PricesIn(resps[0], "COMMUNITY")
    {
      if k.vec == CatalogGpuPriceDollarsPerHour {
        PriceKey(before, resps, cpus, k);
      }
    }
  }

  // ----- what is shown -----

  /** The GPU type has an entry for the data center, from position `from` of its list on. */
  predicate Lists(gpu: Gpu, dataCenterId: string, from: nat) {
    gpu.dataCenters.Some? && exists l :: from <= l < |gpu.dataCenters.value| && gpu.dataCenters.value[l].id == dataCenterId
  }

  /** No later entry of the response is for the same GPU type and data center. */
  predicate LastOffer(gpus: seq<Gpu>, g: nat, j: nat)
    requires g < |gpus| && gpus[g].dataCenters.Some? && j < |gpus[g].dataCenters.value|
  {
    var dataCenterId := gpus[g].dataCenters.value[j].id;
    && !Lists(gpus[g], dataCenterId, j + 1)
    && forall h :: g < h < |gpus| && gpus[h].id == gpus[g].id ==> !Lists(gpus[h], dataCenterId, 0)
  }

  lemma OffersLast(product: string, gpu: Gpu, j: nat, k: Key)
    requires gpu.dataCenters.Some? && j < |gpu.dataCenters.value|
    requires k == Key(CatalogGpuAvailability, [gpu.id, gpu.dataCenters.value[j].id, product])
    requires !Lists(gpu, gpu.dataCenters.value[j].id, j + 1)
    ensures LastReading(OffersOf(product, gpu), OfferReading, k)
         == Some(AvailabilityToFloat(gpu.dataCenters.value[j].availability))
  {
    var offers := OffersOf(product, gpu);
    forall l | j < l < |offers| ensures OfferReading(offers[l], k).None? {
      assert k.labels[1] != offers[l].dataCenterId;
    }
    LastReadingIs(offers, OfferReading, k, AvailabilityToFloat(gpu.dataCenters.value[j].availability), j);
  }

  lemma OffersOther(product: string, gpu: Gpu, k: Key)
    requires |k.labels| == 3 && (k.labels[0] == gpu.id ==> !Lists(gpu, k.labels[1], 0))
    ensures LastReading(OffersOf(product, gpu), OfferReading, k).None?
  {
    var offers := OffersOf(product, gpu);
    forall l | 0 <= l < |offers| ensures OfferReading(offers[l], k).None? {
      assert [offers[l].gpuId, offers[l].dataCenterId, offers[l].product][0] == gpu.id;
      assert [offers[l].gpuId, offers[l].dataCenterId, offers[l].product][1] == offers[l].dataCenterId;
    }
    NoItemReads(offers, OfferReading, k);
  }

  lemma {:induction false} ProductLast(product: string, gpus: seq<Gpu>, g: nat, j: nat, k: Key)
    requires g < |gpus| && gpus[g].dataCenters.Some? && j < |gpus[g].dataCenters.value| && LastOffer(gpus, g, j)
    requires k == Key(CatalogGpuAvailability, [gpus[g].id, gpus[g].dataCenters.value[j].id, product])
    ensures LastReading(ProductOffers(product, gpus), OfferReading, k)
         == Some(AvailabilityToFloat(gpus[g].dataCenters.value[j].availability))
    decreases |gpus|
  {
    var n := |gpus| - 1;
    LastReadingAppend(ProductOffers(product, gpus[..n]), OffersOf(product, gpus[n]), OfferReading, k);
    if g == n {
      OffersLast(product, gpus[n], j, k);
    } else {
      OffersOther(product, gpus[n], k);
      ProductLast(product, gpus[..n], g, j, k);
    }
  }

  /** The last entry of product i's response for a GPU type in a data center is what the series of that
      product shows: 0 for NONE, 1 for LOW, 2 for MEDIUM, 3 for HIGH, and 0 for anything else. */
  lemma LevelShown(before: Series, resps: seq<seq<Gpu>>, cpus: seq<Cpu>, i: nat, g: nat, j: nat)
    requires |resps| == 3 && i < 3 && g < |resps[i]|
    requires resps[i][g].dataCenters.Some? && j < |resps[i][g].dataCenters.value| && LastOffer(resps[i], g, j)
    ensures var dc := resps[i][g].dataCenters.value[j];
            var product := if i == 0 then "POD" else if i == 1 then "SERVERLESS" else "CLUSTER";
            Lookup(Run(before, PollOps(resps, cpus)), Key(CatalogGpuAvailability, [resps[i][g].id, dc.id, product]))
            == Some(if dc.availability == "LOW" then 1.0
                    else if dc.availability == "MEDIUM" then 2.0
                    else if dc.availability == "HIGH" then 3.0
                    else 0.0)
  {
    Levels(resps[i][g].dataCenters.value[j].availability);
    var dc := resps[i][g].dataCenters.value[j];
    var k := Key(CatalogGpuAvailability, [resps[i][g].id, dc.id, PRODUCTS[i]]);
    AvailabilityByProduct(before, resps, cpus, k);
    ProductLast(PRODUCTS[i], resps[i], g, j, k);
  }

  lemma Levels(level: string)
    ensures AvailabilityToFloat(level) == if level == "LOW" then 1.0 else if level == "MEDIUM" then 2.0 else if level == "HIGH" then 3.0 else 0.0
  {
  }

  /** A series exists only for a GPU type and a data center that the product's response lists. */
  lemma NoOtherLevel(before: Series, resps: seq<seq<Gpu>>, cpus: seq<Cpu>, i: nat, gpuId: string, dataCenterId: string)
    requires |resps| == 3 && i < 3
    requires forall g :: 0 <= g < |resps[i]| && resps[i][g].id == gpuId ==> !Lists(resps[i][g], dataCenterId, 0)
    ensures Key(CatalogGpuAvailability, [gpuId, dataCenterId, PRODUCTS[i]]) !in Run(before, PollOps(resps, cpus))
  {
    var k := Key(CatalogGpuAvailability, [gpuId, dataCenterId, PRODUCTS[i]]);
    AvailabilityByProduct(before, resps, cpus, k);
    ProductOther(PRODUCTS[i], resps[i], k);
  }

  lemma {:induction false} ProductOther(product: string, gpus: seq<Gpu>, k: Key)
    requires |k.labels| == 3
    requires forall g :: 0 <= g < |gpus| && gpus[g].id == k.labels[0] ==> !Lists(gpus[g], k.labels[1], 0)
    ensures LastReading(ProductOffers(product, gpus), OfferReading, k).None?
    decreases |gpus|
  {
    if |gpus| > 0 {
      var n := |gpus| - 1;
      OffersOther(product, gpus[n], k);
      ProductOther(product, gpus[..n], k);
      LastReadingAppend(ProductOffers(product, gpus[..n]), OffersOf(product, gpus[n]), OfferReading, k);
    }
  }

  /** The price series show the prices of the last GPU type with their id in the first response, the
      SECURE one its secure price and the COMMUNITY one its community price. */
  lemma PriceShown(before: Series, resps: seq<seq<Gpu>>, cpus: seq<Cpu>, g: nat)
    requires |resps| == 3 && g < |resps[0]|
    requires forall h :: g < h < |resps[0]| ==> resps[0][h].id != resps[0][g].id
    ensures var st := Run(before, PollOps(resps, cpus));
            && Lookup(st, Key(CatalogGpuPriceDollarsPerHour, [resps[0][g].id, "SECURE"])) == Some(resps[0][g].secure)
            && Lookup(st, Key(CatalogGpuPriceDollarsPerHour, [resps[0][g].id, "COMMUNITY"])) == Some(resps[0][g].community)
  {
    CloudsDiffer();
    LastPrice(before, resps, cpus, g, "SECURE");
    LastPrice(before, resps, cpus, g, "COMMUNITY");
  }

  lemma LastPrice(before: Series, resps: seq<seq<Gpu>>, cpus: seq<Cpu>, g: nat, cloud: string)
    requires |resps| == 3 && g < |resps[0]| && (cloud == "SECURE" || cloud == "COMMUNITY")
    requires forall h :: g < h < |resps[0]| ==> resps[0][h].id != resps[0][g].id
    ensures Lookup(Run(before, PollOps(resps, cpus)), Key(CatalogGpuPriceDollarsPerHour, [resps[0][g].id, cloud]))
         == Some(if cloud == "SECURE" then resps[0][g].secure else resps[0][g].community)
  {
    var gpus := resps[0];
    var k := Key(CatalogGpuPriceDollarsPerHour, [gpus[g].id, cloud]);
    PollShows(before, resps, cpus);
    assert Lookup(Run(before, PollOps(resps, cpus)), k) == View(resps, cpus)(k);
    CloudsDiffer();
    assert k.labels[1] == cloud;
    forall h | g < h < |gpus| ensures PriceReading(gpus[h], k).None? {
      assert k.labels[0] != gpus[h].id;
    }
    LastReadingIs(gpus, PriceReading, k, if cloud == "SECURE" then gpus[g].secure else gpus[g].community, g);
  }

  /** The same for the CPU types and their two prices. */
  lemma CpuPriceShown(before: Series, resps: seq<seq<Gpu>>, cpus: seq<Cpu>, c: nat)
    requires |resps| == 3 && c < |cpus|
    requires forall h :: c < h < |cpus| ==> cpus[h].id != cpus[c].id
    ensures var st := Run(before, PollOps(resps, cpus));
            && Lookup(st, Key(CatalogCpuPriceDollarsPerVcpuHour, [cpus[c].id, "SECURE"])) == Some(cpus[c].securePerVcpu)
            && Lookup(st, Key(CatalogCpuPriceDollarsPerVcpuHour, [cpus[c].id, "SERVERLESS"])) == Some(cpus[c].serverlessPerVcpu)
  {
    CloudsDiffer();
    LastCpuPrice(before, resps, cpus, c, "SECURE");
    LastCpuPrice(before, resps, cpus, c, "SERVERLESS");
  }

  lemma LastCpuPrice(before: Series, resps: seq<seq<Gpu>>, cpus: seq<Cpu>, c: nat, cloud: string)
    requires |resps| == 3 && c < |cpus| && (cloud == "SECURE" || cloud == "SERVERLESS")
    requires forall h :: c < h < |cpus| ==> cpus[h].id != cpus[c].id
    ensures Lookup(Run(before, PollOps(resps, cpus)), Key(CatalogCpuPriceDollarsPerVcpuHour, [cpus[c].id, cloud]))
         == Some(if cloud == "SECURE" then cpus[c].securePerVcpu else cpus[c].serverlessPerVcpu)
  {
    var k := Key(CatalogCpuPriceDollarsPerVcpuHour, [cpus[c].id, cloud]);
    PollShows(before, resps, cpus);
    assert Lookup(Run(before, PollOps(resps, cpus)), k) == View(resps, cpus)(k);
    CloudsDiffer();
    assert k.labels[1] == cloud;
    forall h | c < h < |cpus| ensures CpuReading(cpus[h], k).None? {
      assert k.labels[0] != cpus[h].id;
    }
    LastReadingIs(cpus, CpuReading, k, if cloud == "SECURE" then cpus[c].securePerVcpu else cpus[c].serverlessPerVcpu, c);
  }
}
