/** RegistryDomain.Poll: two calls, one vec and one plain gauge. */
module Registry {
  import opened Wrappers
  import opened Metrics
  import opened Api

  datatype Registry = Registry(id: string, name: string)

  datatype Delegation = Delegation(id: string)

  const VECS: seq<Vec> := [RegistryInfo, RegistryDelegationCount]

  function InfoOps(r: Registry): seq<Op> {
    [] + SetIf(RegistryInfo, [r.id, r.name], Some(1.0))
  }

  function PollOps(registries: seq<Registry>, delegations: nat): seq<Op> {
    Resets([RegistryInfo]) + Blocks(registries, InfoOps) + [Op.Gauge(RegistryDelegationCount, delegations as real)]
  }

  function InfoReading(r: Registry, k: Key): Option<real> {
    if k == Key(RegistryInfo, [r.id, r.name]) then Some(1.0) else None
  }

  /** The registries listed, each with value 1, and the number of delegations. */
  function View(registries: seq<Registry>, delegations: nat): Key -> Option<real> {
    (k: Key) =>
      if k.vec == RegistryDelegationCount then if k.labels == [] then Some(delegations as real) else None
      else if exists i :: 0 <= i < |registries| && k.labels == [registries[i].id, registries[i].name] then Some(1.0)
      else None
  }

  lemma InfoWrites(r: Registry)
    ensures Writes(r, InfoOps, InfoReading)
  {
    forall k: Key, v: Option<real> ensures KeyRun(v, InfoOps(r), k) == Or(InfoReading(r, k), v) {
      ThenSetIf(v, [], RegistryInfo, [r.id, r.name], Some(1.0), k);
    }
  }

  lemma InfoKey(registries: seq<Registry>, k: Key, v: Option<real>)
    requires k.vec == RegistryInfo ==> v.None?
    ensures KeyRun(v, Blocks(registries, InfoOps), k) ==
            if k.vec == RegistryInfo && exists i :: 0 <= i < |registries| && k.labels == [registries[i].id, registries[i].name]
              then Some(1.0) else v
  {
    forall r | r in registries ensures Writes(r, InfoOps, InfoReading) {
      InfoWrites(r);
    }
    BlocksWrite(registries, InfoOps, InfoReading, k, v);
    LastReadingIff(registries, InfoReading, k, 1.0);
    if i :| 0 <= i < |registries| && k == Key(RegistryInfo, [registries[i].id, registries[i].name]) {
      assert InfoReading(registries[i], k) == Some(1.0);
      OnlyOnes(registries, k);
    } else {
      forall i | 0 <= i < |registries| ensures InfoReading(registries[i], k).None? {
      }
    }
  }

  lemma {:induction false} OnlyOnes(registries: seq<Registry>, k: Key)
    ensures LastReading(registries, InfoReading, k).Some? ==> LastReading(registries, InfoReading, k) == Some(1.0)
    decreases |registries|
  {
    if |registries| > 0 {
      OnlyOnes(registries[..|registries| - 1], k);
    }
  }

  lemma PollKey(registries: seq<Registry>, delegations: nat, k: Key, v: Option<real>)
    ensures KeyRun(v, PollOps(registries, delegations), k) == if k.vec in VECS then View(registries, delegations)(k) else v
  {
    var a := Resets([RegistryInfo]);
    var b := Blocks(registries, InfoOps);
    var c := [Op.Gauge(RegistryDelegationCount, delegations as real)];
    KeyRunAppend(v, a + b, c, k);
    KeyRunAppend(v, a, b, k);
    ResetsClear(v, [RegistryInfo], k);
    InfoKey(registries, k, KeyRun(v, a, k));
    assert c[..0] == [];
  }

  lemma PollShows(st: Series, registries: seq<Registry>, delegations: nat)
    ensures Shows(Run(st, PollOps(registries, delegations)), st, VECS, View(registries, delegations))
  {
    forall k: Key
      ensures Lookup(Run(st, PollOps(registries, delegations)), k) ==
              if k.vec in VECS then View(registries, delegations)(k) else Lookup(st, k)
    {
      Pointwise(st, PollOps(registries, delegations), k);
      PollKey(registries, delegations, k, Lookup(st, k));
    }
  }

  /** After a poll every listed registry has its info series, labelled with id and name, there is no
      other, and the one series of the gauge is the number of delegations. */
  lemma RegistriesShown(st: Series, registries: seq<Registry>, delegations: nat)
    ensures var after := Run(st, PollOps(registries, delegations));
            && (set k | k in after && k.vec == RegistryInfo)
               == (set i | 0 <= i < |registries| :: Key(RegistryInfo, [registries[i].id, registries[i].name]))
            && (forall k :: k in after && k.vec == RegistryInfo ==> after[k] == 1.0)
            && (set k | k in after && k.vec == RegistryDelegationCount) == {Key(RegistryDelegationCount, [])}
            && after[Key(RegistryDelegationCount, [])] == delegations as real
  {
    var after := Run(st, PollOps(registries, delegations));
    PollShows(st, registries, delegations);
    forall k: Key | k.vec in VECS ensures Lookup(after, k) == View(registries, delegations)(k) {
    }
    forall k: Key | k.vec == RegistryInfo
      ensures k in after <==> k in (set i | 0 <= i < |registries| :: Key(RegistryInfo, [registries[i].id, registries[i].name]))
      ensures k in after ==> after[k] == 1.0
    {
      assert Lookup(after, k) == View(registries, delegations)(k);
    }
    forall k: Key | k.vec == RegistryDelegationCount ensures k in after <==> k == Key(RegistryDelegationCount, []) {
      assert Lookup(after, k) == View(registries, delegations)(k);
    }
    assert Lookup(after, Key(RegistryDelegationCount, [])) == Some(delegations as real);
  }

  method Publish(store: MetricStore, registries: seq<Registry>, delegations: nat)
    requires store.Valid()
    modifies store
    ensures store.Valid() && store.log == old(store.log) + PollOps(registries, delegations)
  {
    store.ResetAll([RegistryInfo]);
    ghost var start := store.log;
    for i := 0 to |registries|
      invariant store.Valid() && store.log == start + Blocks(registries[..i], InfoOps)
    {
      store.Set(RegistryInfo, [registries[i].id, registries[i].name], 1.0);
      BlocksNext(registries, i, InfoOps);
      Assoc(start, Blocks(registries[..i], InfoOps), InfoOps(registries[i]));
    }
    assert registries[..|registries|] == registries;
    store.Gauge(RegistryDelegationCount, delegations as real);
    Assoc(old(store.log), Resets([RegistryInfo]), Blocks(registries, InfoOps));
    Assoc(old(store.log), Resets([RegistryInfo]) + Blocks(registries, InfoOps),
          [Op.Gauge(RegistryDelegationCount, delegations as real)]);
  }

  /** All or nothing over the two calls: the plain gauge as well as the vec. */
  method Poll(store: MetricStore, regResp: Call<seq<Registry>>, delResp: Call<seq<Delegation>>)
    returns (r: Result<(), PollError>)
    requires store.Valid()
    modifies store
    ensures store.Valid()
    ensures r.Success? <==> regResp.Ok? && delResp.Ok?
    ensures r.Failure? ==> store.log == old(store.log) && store.series == old(store.series)
    ensures r.Failure? ==>
              r.error == (if !regResp.Ok? then PollError(if regResp.Transport? then "list registries" else "", FaultOf(regResp))
                          else PollError(if delResp.Transport? then "list delegations" else "", FaultOf(delResp)))
    ensures r.Success? ==> store.log == old(store.log) + PollOps(regResp.value, |delResp.value|)
    ensures r.Success? ==> Shows(store.series, old(store.series), VECS, View(regResp.value, |delResp.value|))
  {
    if regResp.Transport? {
      return Failure(PollError("list registries", Unreachable(regResp.message)));
    }
    if regResp.Status? {
      return Failure(PollError("", HttpError(regResp.code, regResp.body)));
    }
    if delResp.Transport? {
      return Failure(PollError("list delegations", Unreachable(delResp.message)));
    }
    if delResp.Status? {
      return Failure(PollError("", HttpError(delResp.code, delResp.body)));
    }
    Publish(store, regResp.value, |delResp.value|);
    RunAppend(map[], old(store.log), PollOps(regResp.value, |delResp.value|));
    PollShows(old(store.series), regResp.value, |delResp.value|);
    return Success(());
  }
}
