/** From the domain string to running loops: Build, the intervals Run hands out, and what the
    accepted configurations mean for shutdown. */
module Startup {
  import opened Wrappers
  import opened Text
  import opened Domains
  import opened Config
  import opened PollRunner
  import opened PollTiming
  import opened PollWitness
  import opened Interference
  import opened PollIdle

  /** The names of a list that have a collector, in order. */
  function Collected(names: seq<string>): seq<string> {
    if |names| == 0 then []
    else Collected(names[..|names| - 1]) + (if Known(names[|names| - 1]) then [names[|names| - 1]] else [])
  }

  function DomainNames(ds: seq<Domain>): seq<string> {
    seq(|ds|, i requires 0 <= i < |ds| => Name(ds[i]))
  }

  /** The domain is the one the name stands for. */
  predicate ByName(name: string, d: Domain) {
    && (name == "pod" <==> d == PodDomain)
    && (name == "serverless" <==> d == ServerlessDomain)
    && (name == "billing" <==> d == BillingDomain)
    && (name == "account" <==> d == AccountDomain)
    && (name == "cluster" <==> d == ClusterDomain)
    && (name == "template" <==> d == TemplateDomain)
    && (name == "network-volume" <==> d == NetworkVolumeDomain)
    && (name == "registry" <==> d == RegistryDomain)
    && (name == "catalog" <==> d == CatalogDomain)
  }

  /** Name names every domain as configured. */
  lemma NamesAreNames(d: Domain)
    ensures ByName(Name(d), d)
  {
    assert Name(d)[0] in {'p', 's', 'b', 'a', 'c', 't', 'n', 'r'};
  }

  /** The collector for a name, if there is one. */
  method Collector(name: string) returns (d: Option<Domain>)
    ensures d.Some? <==> Known(name)
    ensures d.Some? ==> Name(d.value) == name && ByName(name, d.value)
  {
    match name
    case "pod" => d := Some(PodDomain);
    case "account" => d := Some(AccountDomain);
    case "billing" => d := Some(BillingDomain);
    case "serverless" => d := Some(ServerlessDomain);
    case "cluster" => d := Some(ClusterDomain);
    case "network-volume" => d := Some(NetworkVolumeDomain);
    case "template" => d := Some(TemplateDomain);
    case "registry" => d := Some(RegistryDomain);
    case "catalog" => d := Some(CatalogDomain);
    case _ => d := None;
  }

  /** Build keeps the names it knows, in order and with repetitions, and skips the others. */
  method Build(names: seq<string>) returns (out: seq<Domain>)
    ensures DomainNames(out) == Collected(names)
  {
    out := [];
    for i := 0 to |names|
      invariant DomainNames(out) == Collected(names[..i])
    {
      var d := Collector(names[i]);
      assert names[..i + 1][..i] == names[..i];
      if d.Some? {
        assert DomainNames(out + [d.value]) == DomainNames(out) + [names[i]];
        out := out + [d.value];
      }
    }
    assert names[..|names|] == names;
  }

  lemma {:induction false} NothingDropped(names: seq<string>)
    requires AllKnown(names)
    ensures Collected(names) == names
    decreases |names|
  {
    if |names| > 0 {
      NothingDropped(names[..|names| - 1]);
    }
  }

  /** A loop goroutine: its domain and its ticker interval in nanoseconds. */
  datatype Launch = Launch(domain: Domain, interval: int)

  /** The domains polled on the fast interval. */
  predicate IsFast(d: Domain) {
    d.PodDomain? || d.ServerlessDomain? || d.AccountDomain? || d.ClusterDomain?
  }

  /** The spawning loop of Run: one goroutine per entry, with the interval of its tier. */
  method RunLoops(domains: seq<Domain>, fast: int, slow: int) returns (loops: seq<Launch>)
    ensures |loops| == |domains|
    ensures forall i :: 0 <= i < |loops| ==>
              loops[i].domain == domains[i] && loops[i].interval == (if IsFast(domains[i]) then fast else slow)
  {
    loops := [];
    for i := 0 to |domains|
      invariant |loops| == i
      invariant forall j :: 0 <= j < i ==>
                  loops[j].domain == domains[j] && loops[j].interval == (if IsFast(domains[j]) then fast else slow)
    {
      var interval := fast;
      if TierOf(domains[i]) == Slow {
        interval := slow;
      }
      loops := loops + [Launch(domains[i], interval)];
    }
  }

  /** The loop polls the domain the name stands for, on the interval of that domain's tier. */
  predicate AsConfigured(name: string, l: Launch, fast: int, slow: int) {
    && Name(l.domain) == name && ByName(name, l.domain)
    && (name == "pod" || name == "serverless" || name == "account" || name == "cluster" ==> l.interval == fast)
    && (name == "billing" || name == "template" || name == "network-volume" || name == "registry" || name == "catalog" ==>
          l.interval == slow)
  }

  /** One loop per name, in order, each as configured and on one of the two intervals. */
  predicate AllAsConfigured(names: seq<string>, loops: seq<Launch>, fast: int, slow: int) {
    && |loops| == |names|
    && forall i :: 0 <= i < |names| ==>
         AsConfigured(names[i], loops[i], fast, slow) && (loops[i].interval == fast || loops[i].interval == slow)
  }

  lemma LaunchedAsConfigured(names: seq<string>, ds: seq<Domain>, loops: seq<Launch>, fast: int, slow: int)
    requires |loops| == |ds| && DomainNames(ds) == names
    requires forall i :: 0 <= i < |ds| ==> loops[i].domain == ds[i] && loops[i].interval == (if IsFast(ds[i]) then fast else slow)
    ensures AllAsConfigured(names, loops, fast, slow)
  {
    forall i | 0 <= i < |names| ensures AsConfigured(names[i], loops[i], fast, slow) {
      assert names[i] == Name(ds[i]);
      DomainAsConfigured(ds[i], loops[i], fast, slow);
    }
  }

  lemma DomainAsConfigured(d: Domain, l: Launch, fast: int, slow: int)
    requires l.domain == d && l.interval == if IsFast(d) then fast else slow
    ensures AsConfigured(Name(d), l, fast, slow)
  {
    NamesAreNames(d);
  }

  datatype StartError = BadDomains(domains: DomainsError) | BadInterval(interval: IntervalError)

  /** Start-up, end to end: every accepted configuration gets one loop per parsed name, in order, of
      the domain with that name, on the interval of its tier, never below the minimum. */
  method Start(domains: string, fastText: Option<int>, slowText: Option<int>)
    returns (r: Result<seq<Launch>, StartError>)
    ensures r.Success? <==> Parsed(domains).Some? && ParseInterval("scrape-interval", fastText).Success?
                            && ParseInterval("scrape-interval-slow", slowText).Success?
    ensures r.Success? ==> AllAsConfigured(Parsed(domains).value, r.value, fastText.value, slowText.value)
    ensures r.Success? ==> fastText.value >= 5_000_000_000 && slowText.value >= 5_000_000_000
  {
    var names := ParseDomains(domains);
    if names.Failure? {
      return Failure(BadDomains(names.error));
    }
    var fast := ParseInterval("scrape-interval", fastText);
    if fast.Failure? {
      return Failure(BadInterval(fast.error));
    }
    var slow := ParseInterval("scrape-interval-slow", slowText);
    if slow.Failure? {
      return Failure(BadInterval(slow.error));
    }
    var ds := Build(names.value);
    NothingDropped(names.value);
    var loops := RunLoops(ds, fast.value, slow.value);
    LaunchedAsConfigured(names.value, ds, loops, fast.value, slow.value);
    return Success(loops);
  }

  /** parseDomains keeps repetitions: "pod,pod" is accepted, and its two loops interfere. */
  lemma DuplicatesAccepted()
    ensures Parsed(Join(["pod", "pod"])) == Some(["pod", "pod"])
    ensures !InterferenceFree(["pod", "pod"])
  {
    var names := ["pod", "pod"];
    assert Known(names[0]);
    PlainNames(names);
    forall i | 0 <= i < 2 ensures WellFormed(Plain(names)[i]) {
    }
    RoundTrip(Plain(names));
    InterferenceFreeIff(names);
    assert names[0] == names[1];
  }

  // ----- with the constants of the program, in nanoseconds -----

  /** The smallest interval accepted is too small: it equals the shutdown grace, so at that interval
      no number bounds the polls entered after shutdown, however quickly Poll gives up. */
  lemma MinimumIntervalUnbounded(p: Params, bound: nat)
    requires p.pollTimeout == 15_000_000_000 && p.shutdownGrace == 5_000_000_000 && p.interval == MIN_SCRAPE_INTERVAL
    ensures !BoundedBy(p, bound)
  {
    Unbounded(p, bound);
  }

  /** With the default of 30 s for the fast tier, or anything above, at most one poll per domain is
      entered after shutdown, as long as Poll gives up and the scheduler runs within 14 s in all. */
  lemma DefaultsBounded(p: Params, begin: nat, acts: seq<Action>, s: State)
    requires p.pollTimeout == 15_000_000_000 && p.shutdownGrace == 5_000_000_000
    requires p.interval >= 30_000_000_000 && p.shutdown.Some?
    requires p.work + 13 * p.latency <= 14_000_000_000
    requires Timely(p, Init(begin), acts) && s == Exec(p, Init(begin), acts)
    ensures StartedSince(s.starts, p.shutdown.value) <= 1
  {
    AtMostOneAfter(p, begin, acts, s);
  }
}
