/** ServerlessDomain.Poll: list the endpoints, fetch the workers of each, then repopulate five vecs. */
module Serverless {
  import opened Wrappers
  import opened Metrics
  import opened Api

  datatype Endpoint = Endpoint(id: string, name: string, kind: Option<string>, flashboot: string, min: int, max: int)

  datatype Worker = Worker(id: string, isStale: bool)

  datatype Summary = Summary(running: int, idle: int, initializing: int, throttled: int, unhealthy: int)

  datatype WorkersResponse = WorkersResponse(summary: Summary, workers: seq<Worker>)

  /** An endpoint with the response at the same index. */
  datatype Fetched = Fetched(ep: Endpoint, resp: WorkersResponse)

  const VECS: seq<Vec> := [
    ServerlessWorkers, ServerlessWorkerStale, ServerlessWorkersMin, ServerlessWorkersMax, ServerlessInfo]

  /** The workers call made for position i of the list, with the id it is made for. */
  type WorkerCalls = (nat, string) -> Call<WorkersResponse>

  function Kind(ep: Endpoint): string { OrEmpty(ep.kind) }

  function StaleCount(workers: seq<Worker>): nat {
    if |workers| == 0 then 0
    else StaleCount(workers[..|workers| - 1]) + (if workers[|workers| - 1].isStale then 1 else 0)
  }

  function StaleWorkers(workers: seq<Worker>): set<nat> {
    set i | 0 <= i < |workers| && workers[i].isStale
  }

  lemma {:induction false} StaleCountIsCardinality(workers: seq<Worker>)
    ensures StaleCount(workers) == |StaleWorkers(workers)|
    decreases |workers|
  {
    if |workers| > 0 {
      var n := |workers| - 1;
      StaleCountIsCardinality(workers[..n]);
      assert StaleWorkers(workers) == StaleWorkers(workers[..n]) + (if workers[n].isStale then {n} else {});
    }
  }

  // ----- the operations of one pass and what they write -----

  function ConfigOps(ep: Endpoint): seq<Op> {
    []
    + SetIf(ServerlessInfo, [ep.id, ep.name, Kind(ep), ep.flashboot], Some(1.0))
    + SetIf(ServerlessWorkersMin, [ep.id], Some(ep.min as real))
    + SetIf(ServerlessWorkersMax, [ep.id], Some(ep.max as real))
  }

  function SummaryOps(id: string, s: Summary): seq<Op> {
    []
    + SetIf(ServerlessWorkers, [id, "running"], Some(s.running as real))
    + SetIf(ServerlessWorkers, [id, "idle"], Some(s.idle as real))
    + SetIf(ServerlessWorkers, [id, "initializing"], Some(s.initializing as real))
    + SetIf(ServerlessWorkers, [id, "throttled"], Some(s.throttled as real))
    + SetIf(ServerlessWorkers, [id, "unhealthy"], Some(s.unhealthy as real))
  }

  function EndpointOps(f: Fetched): seq<Op> {
    ConfigOps(f.ep) + SummaryOps(f.ep.id, f.resp.summary)
    + SetIf(ServerlessWorkerStale, [f.ep.id], Some(StaleCount(f.resp.workers) as real))
  }

  function PollOps(items: seq<Fetched>): seq<Op> {
    Resets(VECS) + Blocks(items, EndpointOps)
  }

  function ByState(s: Summary, state: string): Option<real> {
    match state
    case "running" => Some(s.running as real)
    case "idle" => Some(s.idle as real)
    case "initializing" => Some(s.initializing as real)
    case "throttled" => Some(s.throttled as real)
    case "unhealthy" => Some(s.unhealthy as real)
    case _ => None
  }

  function ConfigReading(ep: Endpoint, k: Key): Option<real> {
    match k.vec
    case ServerlessInfo => if k.labels == [ep.id, ep.name, Kind(ep), ep.flashboot] then Some(1.0) else None
    case ServerlessWorkersMin => if k.labels == [ep.id] then Some(ep.min as real) else None
    case ServerlessWorkersMax => if k.labels == [ep.id] then Some(ep.max as real) else None
    case _ => None
  }

  function SummaryReading(id: string, s: Summary, k: Key): Option<real> {
    if k.vec == ServerlessWorkers && |k.labels| == 2 && k.labels[0] == id then ByState(s, k.labels[1]) else None
  }

  /** The value an endpoint reports for series `k`, if it reports one. */
  function Reading(f: Fetched, k: Key): Option<real> {
    if k.vec == ServerlessWorkerStale then
      if k.labels == [f.ep.id] then Some(|StaleWorkers(f.resp.workers)| as real) else None
    else Or(SummaryReading(f.ep.id, f.resp.summary, k), ConfigReading(f.ep, k))
  }

  lemma ConfigOpsWrite(ep: Endpoint, k: Key, was: Option<real>)
    ensures KeyRun(was, ConfigOps(ep), k) == Or(ConfigReading(ep, k), was)
  {
    var a := [] + SetIf(ServerlessInfo, [ep.id, ep.name, Kind(ep), ep.flashboot], Some(1.0));
    var b := a + SetIf(ServerlessWorkersMin, [ep.id], Some(ep.min as real));
    ThenSetIf(was, [], ServerlessInfo, [ep.id, ep.name, Kind(ep), ep.flashboot], Some(1.0), k);
    ThenSetIf(was, a, ServerlessWorkersMin, [ep.id], Some(ep.min as real), k);
    ThenSetIf(was, b, ServerlessWorkersMax, [ep.id], Some(ep.max as real), k);
  }

  lemma SummaryOpsWrite(id: string, s: Summary, k: Key, was: Option<real>)
    ensures KeyRun(was, SummaryOps(id, s), k) == Or(SummaryReading(id, s, k), was)
  {
    var a := [] + SetIf(ServerlessWorkers, [id, "running"], Some(s.running as real));
    var b := a + SetIf(ServerlessWorkers, [id, "idle"], Some(s.idle as real));
    var c := b + SetIf(ServerlessWorkers, [id, "initializing"], Some(s.initializing as real));
    var d := c + SetIf(ServerlessWorkers, [id, "throttled"], Some(s.throttled as real));
    ThenSetIf(was, [], ServerlessWorkers, [id, "running"], Some(s.running as real), k);
    ThenSetIf(was, a, ServerlessWorkers, [id, "idle"], Some(s.idle as real), k);
    ThenSetIf(was, b, ServerlessWorkers, [id, "initializing"], Some(s.initializing as real), k);
    ThenSetIf(was, c, ServerlessWorkers, [id, "throttled"], Some(s.throttled as real), k);
    ThenSetIf(was, d, ServerlessWorkers, [id, "unhealthy"], Some(s.unhealthy as real), k);
  }

  lemma EndpointKeyWrites(f: Fetched, k: Key, v: Option<real>)
    ensures KeyRun(v, EndpointOps(f), k) == Or(Reading(f, k), v)
  {
    var config := ConfigOps(f.ep);
    var summary := SummaryOps(f.ep.id, f.resp.summary);
    ConfigOpsWrite(f.ep, k, v);
    KeyRunAppend(v, config, summary, k);
    SummaryOpsWrite(f.ep.id, f.resp.summary, k, KeyRun(v, config, k));
    ThenSetIf(v, config + summary, ServerlessWorkerStale, [f.ep.id], Some(StaleCount(f.resp.workers) as real), k);
    StaleCountIsCardinality(f.resp.workers);
  }

  lemma EndpointWrites(f: Fetched)
    ensures Writes(f, EndpointOps, Reading)
  {
    forall k: Key, v: Option<real> ensures KeyRun(v, EndpointOps(f), k) == Or(Reading(f, k), v) {
      EndpointKeyWrites(f, k, v);
    }
  }

  // ----- the poll -----

  method CountStale(workers: seq<Worker>) returns (stale: nat)
    ensures stale == |StaleWorkers(workers)|
  {
    stale := 0;
    for i := 0 to |workers|
      invariant stale == StaleCount(workers[..i])
    {
      if workers[i].isStale {
        stale := stale + 1;
      }
      assert workers[..i + 1][..i] == workers[..i];
    }
    assert workers[..|workers|] == workers;
    StaleCountIsCardinality(workers);
  }

  method PublishSummary(store: MetricStore, id: string, s: Summary)
    requires store.Valid()
    modifies store
    ensures store.Valid() && store.log == old(store.log) + SummaryOps(id, s)
  {
    store.Set(ServerlessWorkers, [id, "running"], s.running as real);
    store.Set(ServerlessWorkers, [id, "idle"], s.idle as real);
    store.Set(ServerlessWorkers, [id, "initializing"], s.initializing as real);
    store.Set(ServerlessWorkers, [id, "throttled"], s.throttled as real);
    store.Set(ServerlessWorkers, [id, "unhealthy"], s.unhealthy as real);
  }

  method PublishConfig(store: MetricStore, ep: Endpoint)
    requires store.Valid()
    modifies store
    ensures store.Valid() && store.log == old(store.log) + ConfigOps(ep)
  {
    var epType := "";
    if ep.kind.Some? {
      epType := ep.kind.value;
    }
    store.Set(ServerlessInfo, [ep.id, ep.name, epType, ep.flashboot], 1.0);
    store.Set(ServerlessWorkersMin, [ep.id], ep.min as real);
    store.Set(ServerlessWorkersMax, [ep.id], ep.max as real);
  }

  /** One pass of the repopulation loop. */
  method PublishEndpoint(store: MetricStore, ep: Endpoint, resp: WorkersResponse)
    requires store.Valid()
    modifies store
    ensures store.Valid() && store.log == old(store.log) + EndpointOps(Fetched(ep, resp))
  {
    PublishConfig(store, ep);
    PublishSummary(store, ep.id, resp.summary);
    var stale := CountStale(resp.workers);
    store.Set(ServerlessWorkerStale, [ep.id], stale as real);
    StaleCountIsCardinality(resp.workers);
    Assoc(old(store.log), ConfigOps(ep), SummaryOps(ep.id, resp.summary));
    Assoc(old(store.log), ConfigOps(ep) + SummaryOps(ep.id, resp.summary),
          SetIf(ServerlessWorkerStale, [ep.id], Some(stale as real)));
  }

  /** Position i of the list has the response of the call made for it. */
  ghost predicate Aligned(items: seq<Fetched>, endpoints: seq<Endpoint>, calls: WorkerCalls) {
    && |items| == |endpoints|
    && forall i :: 0 <= i < |items| ==> items[i].ep == endpoints[i] && calls(i, endpoints[i].id) == Ok(items[i].resp)
  }

  /** The one list so aligned. */
  function Listed(endpoints: seq<Endpoint>, calls: WorkerCalls): (items: seq<Fetched>)
    requires forall i :: 0 <= i < |endpoints| ==> calls(i, endpoints[i].id).Ok?
    ensures Aligned(items, endpoints, calls)
  {
    seq(|endpoints|, i requires 0 <= i < |endpoints| => Fetched(endpoints[i], calls(i, endpoints[i].id).value))
  }

  lemma AlignedIsListed(items: seq<Fetched>, endpoints: seq<Endpoint>, calls: WorkerCalls)
    requires Aligned(items, endpoints, calls)
    ensures forall i :: 0 <= i < |endpoints| ==> calls(i, endpoints[i].id).Ok?
    ensures items == Listed(endpoints, calls)
  {
    forall i | 0 <= i < |endpoints| ensures calls(i, endpoints[i].id).Ok? {
      assert items[i].ep == endpoints[i];
    }
    forall i | 0 <= i < |endpoints| ensures items[i] == Listed(endpoints, calls)[i] {
      assert items[i].ep == endpoints[i];
    }
  }

  /** The error is that of the first workers call that fails. */
  ghost predicate FirstFailure(endpoints: seq<Endpoint>, calls: WorkerCalls, error: PollError) {
    exists i :: 0 <= i < |endpoints| && !calls(i, endpoints[i].id).Ok?
                && (forall j :: 0 <= j < i ==> calls(j, endpoints[j].id).Ok?)
                && error == PollError("list workers for endpoint " + endpoints[i].id, FaultOf(calls(i, endpoints[i].id)))
  }

  /** The fetch loop: it stops at the first failing call. */
  method FetchWorkers(endpoints: seq<Endpoint>, calls: WorkerCalls) returns (r: Result<seq<Fetched>, PollError>)
    ensures r.Success? ==> Aligned(r.value, endpoints, calls)
    ensures r.Failure? ==> FirstFailure(endpoints, calls, r.error)
  {
    var workerResps := new Option<WorkersResponse>[|endpoints|](_ => None);
    for i := 0 to |endpoints|
      invariant forall j :: 0 <= j < i ==>
                  calls(j, endpoints[j].id).Ok? && workerResps[j] == Some(calls(j, endpoints[j].id).value)
    {
      var ep := endpoints[i];
      match calls(i, ep.id) {
        case Transport(message) =>
          return Failure(PollError("list workers for endpoint " + ep.id, Unreachable(message)));
        case Status(code, body) =>
          return Failure(PollError("list workers for endpoint " + ep.id, HttpError(code, body)));
        case Ok(resp) =>
          workerResps[i] := Some(resp);
      }
    }
    var resps := workerResps[..];
    r := Success(seq(|endpoints|, i requires 0 <= i < |endpoints| && resps[i].Some? => Fetched(endpoints[i], resps[i].value)));
  }

  method Publish(store: MetricStore, items: seq<Fetched>)
    requires store.Valid()
    modifies store
    ensures store.Valid() && store.log == old(store.log) + PollOps(items)
  {
    store.ResetAll(VECS);
    ghost var start := store.log;
    for i := 0 to |items|
      invariant store.Valid() && store.log == start + Blocks(items[..i], EndpointOps)
    {
      PublishEndpoint(store, items[i].ep, items[i].resp);
      BlocksNext(items, i, EndpointOps);
      Assoc(start, Blocks(items[..i], EndpointOps), EndpointOps(items[i]));
    }
    assert items[..|items|] == items;
    Assoc(old(store.log), Resets(VECS), Blocks(items, EndpointOps));
  }

  function View(items: seq<Fetched>): Key -> Option<real> {
    k => LastReading(items, Reading, k)
  }

  predicate AllOk(listResp: Call<seq<Endpoint>>, calls: WorkerCalls) {
    listResp.Ok? && forall i :: 0 <= i < |listResp.value| ==> calls(i, listResp.value[i].id).Ok?
  }

  /** All or nothing: any failing call, at any position, leaves every series untouched; otherwise
      the five vecs show the readings of the aligned responses. */
  method Poll(store: MetricStore, listResp: Call<seq<Endpoint>>, calls: WorkerCalls) returns (r: Result<(), PollError>)
    requires store.Valid()
    modifies store
    ensures store.Valid()
    ensures r.Success? <==> AllOk(listResp, calls)
    ensures r.Failure? ==> store.log == old(store.log) && store.series == old(store.series)
    ensures r.Failure? && !listResp.Ok? ==>
              r.error == PollError(if listResp.Transport? then "list endpoints" else "", FaultOf(listResp))
    ensures r.Failure? && listResp.Ok? ==> FirstFailure(listResp.value, calls, r.error)
    ensures r.Success? ==> store.log == old(store.log) + PollOps(Listed(listResp.value, calls))
    ensures r.Success? ==> Shows(store.series, old(store.series), VECS, View(Listed(listResp.value, calls)))
  {
    match listResp
    case Transport(message) =>
      r := Failure(PollError("list endpoints", Unreachable(message)));
    case Status(code, body) =>
      r := Failure(PollError("", HttpError(code, body)));
    case Ok(endpoints) =>
      var fetched := FetchWorkers(endpoints, calls);
      if fetched.Failure? {
        return Failure(fetched.error);
      }
      AlignedIsListed(fetched.value, endpoints, calls);
      Publish(store, fetched.value);
      RunAppend(map[], old(store.log), PollOps(fetched.value));
      PollShows(old(store.series), fetched.value);
      r := Success(());
  }

  lemma PollKey(items: seq<Fetched>, k: Key, v: Option<real>)
    ensures KeyRun(v, PollOps(items), k) == if k.vec in VECS then View(items)(k) else v
  {
    KeyRunAppend(v, Resets(VECS), Blocks(items, EndpointOps), k);
    ResetsClear(v, VECS, k);
    forall f | f in items ensures Writes(f, EndpointOps, Reading) {
      EndpointWrites(f);
    }
    BlocksWrite(items, EndpointOps, Reading, k, KeyRun(v, Resets(VECS), k));
    if k.vec !in VECS {
      NoReading(items, Reading, k);
    }
  }

  lemma PollShows(st: Series, items: seq<Fetched>)
    ensures Shows(Run(st, PollOps(items)), st, VECS, View(items))
  {
    forall k: Key
      ensures Lookup(Run(st, PollOps(items)), k) == if k.vec in VECS then View(items)(k) else Lookup(st, k)
    {
      Pointwise(st, PollOps(items), k);
      PollKey(items, k, Lookup(st, k));
    }
  }

  // ----- alignment -----

  /** An endpoint's series after a poll, whatever else is in the list behind it: if no later
      endpoint has the same id, they are its own configuration, the summary fetched at its own
      position, and the number of stale workers in that response. */
  lemma OwnResponse(before: Series, endpoints: seq<Endpoint>, calls: WorkerCalls, items: seq<Fetched>, i: nat)
    requires Aligned(items, endpoints, calls) && i < |endpoints|
    requires forall j :: i < j < |endpoints| ==> endpoints[j].id != endpoints[i].id
    ensures var st := Run(before, PollOps(items));
            var ep := endpoints[i];
            && Lookup(st, Key(ServerlessInfo, [ep.id, ep.name, if ep.kind.Some? then ep.kind.value else "", ep.flashboot])) == Some(1.0)
            && Lookup(st, Key(ServerlessWorkersMin, [ep.id])) == Some(ep.min as real)
            && Lookup(st, Key(ServerlessWorkersMax, [ep.id])) == Some(ep.max as real)
    ensures var st := Run(before, PollOps(items));
            var id := endpoints[i].id;
            var resp := calls(i, id).value;
            && Lookup(st, Key(ServerlessWorkers, [id, "running"])) == Some(resp.summary.running as real)
            && Lookup(st, Key(ServerlessWorkers, [id, "idle"])) == Some(resp.summary.idle as real)
            && Lookup(st, Key(ServerlessWorkers, [id, "initializing"])) == Some(resp.summary.initializing as real)
            && Lookup(st, Key(ServerlessWorkers, [id, "throttled"])) == Some(resp.summary.throttled as real)
            && Lookup(st, Key(ServerlessWorkers, [id, "unhealthy"])) == Some(resp.summary.unhealthy as real)
            && Lookup(st, Key(ServerlessWorkerStale, [id]))
               == Some(|set w | 0 <= w < |resp.workers| && resp.workers[w].isStale| as real)
  {
    OwnConfig(before, items, i);
    OwnSummary(before, items, i);
    OwnStale(before, items, i);
  }

  lemma OwnConfig(before: Series, items: seq<Fetched>, i: nat)
    requires i < |items|
    requires forall j :: i < j < |items| ==> items[j].ep.id != items[i].ep.id
    ensures var st := Run(before, PollOps(items));
            var ep := items[i].ep;
            && Lookup(st, Key(ServerlessInfo, [ep.id, ep.name, if ep.kind.Some? then ep.kind.value else "", ep.flashboot])) == Some(1.0)
            && Lookup(st, Key(ServerlessWorkersMin, [ep.id])) == Some(ep.min as real)
            && Lookup(st, Key(ServerlessWorkersMax, [ep.id])) == Some(ep.max as real)
  {
    OwnInfo(before, items, i);
    OwnSeries(before, items, i, Key(ServerlessWorkersMin, [items[i].ep.id]));
    OwnSeries(before, items, i, Key(ServerlessWorkersMax, [items[i].ep.id]));
  }

  lemma OwnInfo(before: Series, items: seq<Fetched>, i: nat)
    requires i < |items|
    requires forall j :: i < j < |items| ==> items[j].ep.id != items[i].ep.id
    ensures var ep := items[i].ep;
            Lookup(Run(before, PollOps(items)),
                   Key(ServerlessInfo, [ep.id, ep.name, if ep.kind.Some? then ep.kind.value else "", ep.flashboot])) == Some(1.0)
  {
    var ep := items[i].ep;
    OwnSeries(before, items, i, Key(ServerlessInfo, [ep.id, ep.name, Kind(ep), ep.flashboot]));
  }

  lemma OwnState(before: Series, items: seq<Fetched>, i: nat, state: string)
    requires i < |items| && ByState(items[i].resp.summary, state).Some?
    requires forall j :: i < j < |items| ==> items[j].ep.id != items[i].ep.id
    ensures Lookup(Run(before, PollOps(items)), Key(ServerlessWorkers, [items[i].ep.id, state])) == ByState(items[i].resp.summary, state)
  {
    OwnSeries(before, items, i, Key(ServerlessWorkers, [items[i].ep.id, state]));
  }

  lemma OwnSummary(before: Series, items: seq<Fetched>, i: nat)
    requires i < |items|
    requires forall j :: i < j < |items| ==> items[j].ep.id != items[i].ep.id
    ensures var st := Run(before, PollOps(items));
            var id := items[i].ep.id;
            var summary := items[i].resp.summary;
            && Lookup(st, Key(ServerlessWorkers, [id, "running"])) == Some(summary.running as real)
            && Lookup(st, Key(ServerlessWorkers, [id, "idle"])) == Some(summary.idle as real)
            && Lookup(st, Key(ServerlessWorkers, [id, "initializing"])) == Some(summary.initializing as real)
            && Lookup(st, Key(ServerlessWorkers, [id, "throttled"])) == Some(summary.throttled as real)
            && Lookup(st, Key(ServerlessWorkers, [id, "unhealthy"])) == Some(summary.unhealthy as real)
  {
    OwnState(before, items, i, "running");
    OwnState(before, items, i, "idle");
    OwnState(before, items, i, "initializing");
    OwnState(before, items, i, "throttled");
    OwnState(before, items, i, "unhealthy");
  }

  lemma OwnStale(before: Series, items: seq<Fetched>, i: nat)
    requires i < |items|
    requires forall j :: i < j < |items| ==> items[j].ep.id != items[i].ep.id
    ensures var workers := items[i].resp.workers;
            Lookup(Run(before, PollOps(items)), Key(ServerlessWorkerStale, [items[i].ep.id]))
            == Some(|set w | 0 <= w < |workers| && workers[w].isStale| as real)
  {
    OwnSeries(before, items, i, Key(ServerlessWorkerStale, [items[i].ep.id]));
  }

  lemma OwnSeries(before: Series, items: seq<Fetched>, i: nat, k: Key)
    requires i < |items| && k.vec in VECS && Reading(items[i], k).Some?
    requires forall j :: i < j < |items| ==> items[j].ep.id != items[i].ep.id
    ensures Lookup(Run(before, PollOps(items)), k) == Reading(items[i], k)
  {
    PollShows(before, items);
    assert Lookup(Run(before, PollOps(items)), k) == View(items)(k);
    assert |k.labels| > 0 && k.labels[0] == items[i].ep.id;
    forall j | i < j < |items| ensures Reading(items[j], k).None? {
    }
    LastReadingIff(items, Reading, k, Reading(items[i], k).value);
  }

  /** A series exists exactly if some endpoint of the list reports it. */
  lemma NothingElse(before: Series, items: seq<Fetched>, k: Key)
    requires k.vec in VECS
    ensures k in Run(before, PollOps(items)) <==> exists j :: 0 <= j < |items| && Reading(items[j], k).Some?
  {
    PollShows(before, items);
    assert Lookup(Run(before, PollOps(items)), k) == View(items)(k);
    LastReadingIff(items, Reading, k, 0.0);
  }
}
