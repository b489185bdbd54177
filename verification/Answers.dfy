/** What the API answers during one poll, and the series such an answer stands for. */
module Answers {
  import opened Wrappers
  import opened Metrics
  import opened Api
  import opened Domains
  import Pod
  import Serverless
  import Catalog
  import Cluster
  import Registry

  /** One series an answer reports. */
  datatype Report = Report(key: Key, value: real)

  /** Everything the API answers during one poll of a domain. For a domain whose Poll is not modelled
      here it is the series its response reports, in order, if its call succeeds. */
  datatype Answer =
    | PodAnswer(pods: Call<seq<Pod.Pod>>)
    | ServerlessAnswer(endpoints: Call<seq<Serverless.Endpoint>>, workers: Serverless.WorkerCalls)
    | CatalogAnswer(gpus: string -> Call<seq<Catalog.Gpu>>, cpus: Call<seq<Catalog.Cpu>>)
    | ClusterAnswer(clusters: Call<seq<Cluster.Cluster>>)
    | RegistryAnswer(registries: Call<seq<Registry.Registry>>, delegations: Call<seq<Registry.Delegation>>)
    | OtherAnswer(domain: Domain, reports: Option<seq<Report>>)

  function DomainOf(a: Answer): Domain {
    match a
    case PodAnswer(_) => PodDomain
    case ServerlessAnswer(_, _) => ServerlessDomain
    case CatalogAnswer(_, _) => CatalogDomain
    case ClusterAnswer(_) => ClusterDomain
    case RegistryAnswer(_, _) => RegistryDomain
    case OtherAnswer(d, _) => d
  }

  /** Every call of the poll succeeds. */
  predicate Good(a: Answer) {
    match a
    case PodAnswer(pods) => pods.Ok?
    case ServerlessAnswer(endpoints, workers) => Serverless.AllOk(endpoints, workers)
    case CatalogAnswer(gpus, cpus) => Catalog.AllOk(gpus, cpus)
    case ClusterAnswer(clusters) => clusters.Ok?
    case RegistryAnswer(registries, delegations) => registries.Ok? && delegations.Ok?
    case OtherAnswer(_, reports) => reports.Some?
  }

  /** The projection of a fully successful answer: what each series of the domain should show. */
  function View(a: Answer): Key -> Option<real>
    requires Good(a)
  {
    match a
    case PodAnswer(pods) => Pod.View(pods.value)
    case ServerlessAnswer(endpoints, workers) => Serverless.View(Serverless.Listed(endpoints.value, workers))
    case CatalogAnswer(gpus, cpus) => Catalog.View(Catalog.Responses(gpus), cpus.value)
    case ClusterAnswer(clusters) => Cluster.View(clusters.value)
    case RegistryAnswer(registries, delegations) => Registry.View(registries.value, |delegations.value|)
    case OtherAnswer(_, reports) => (k: Key) => LastReading(reports.value, ReportReading, k)
  }

  function ReportReading(r: Report, k: Key): Option<real> {
    if r.key == k then Some(r.value) else None
  }

  /** Some item of the answer reports value `x` for series `k`. */
  ghost predicate Reports(a: Answer, k: Key, x: real)
    requires Good(a)
  {
    match a
    case PodAnswer(pods) => Reported(pods.value, Pod.Reading, k, x)
    case ServerlessAnswer(endpoints, workers) => Reported(Serverless.Listed(endpoints.value, workers), Serverless.Reading, k, x)
    case CatalogAnswer(gpus, cpus) =>
      || Reported(Catalog.Responses(gpus)[0], Catalog.PriceReading, k, x)
      || Reported(Catalog.AllOffers(Catalog.PRODUCTS, Catalog.Responses(gpus)), Catalog.OfferReading, k, x)
      || Reported(cpus.value, Catalog.CpuReading, k, x)
    case ClusterAnswer(clusters) => Reported(clusters.value, Cluster.Reading, k, x)
    case RegistryAnswer(registries, delegations) =>
      || Reported(registries.value, Registry.InfoReading, k, x)
      || (k == Key(RegistryDelegationCount, []) && x == |delegations.value| as real)
    case OtherAnswer(_, reports) => Reported(reports.value, ReportReading, k, x)
  }

  ghost predicate Reported<T(!new)>(items: seq<T>, reading: (T, Key) -> Option<real>, k: Key, x: real) {
    exists t :: t in items && reading(t, k) == Some(x)
  }

  /** From any registry, `ops` makes the series of the domain show the answer and leaves the rest. */
  ghost predicate Projects(a: Answer, ops: seq<Op>)
    requires Good(a)
  {
    forall st: Series, k: Key ::
      Lookup(Run(st, ops), k) == if Owner(k.vec) == Some(DomainOf(a)) then View(a)(k) else Lookup(st, k)
  }

  /** The position of the last fully successful answer. */
  function LastGood(answers: seq<Answer>): (r: Option<nat>)
    ensures r.Some? ==> r.value < |answers| && Good(answers[r.value])
  {
    if |answers| == 0 then None
    else if Good(answers[|answers| - 1]) then Some(|answers| - 1)
    else LastGood(answers[..|answers| - 1])
  }

  /** It is a successful answer after which none succeeded. */
  lemma {:induction false} LastGoodIff(answers: seq<Answer>, i: nat)
    ensures LastGood(answers) == Some(i) <==>
            i < |answers| && Good(answers[i]) && forall j :: i < j < |answers| ==> !Good(answers[j])
    ensures LastGood(answers).None? <==> forall j :: 0 <= j < |answers| ==> !Good(answers[j])
    decreases |answers|
  {
    if |answers| > 0 {
      var n := |answers| - 1;
      LastGoodIff(answers[..n], i);
      assert forall j :: 0 <= j < n ==> answers[..n][j] == answers[j];
    }
  }

  /** What series `k` of the domain shows after these answers: the projection of the last fully
      successful one, or nothing if there was none. */
  function Shown(answers: seq<Answer>, k: Key): Option<real> {
    var last := LastGood(answers);
    if last.Some? then View(answers[last.value])(k) else None
  }
}
