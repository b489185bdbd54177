/** Poll-cache-serve within one poll: no vec ever mixes two responses. */
module Generations {
  import opened Wrappers
  import opened Metrics

  /** The first operation of `ops` on `v`, if any, discards what `v` held. */
  ghost predicate Fresh(ops: seq<Op>, v: Vec) {
    forall i :: 0 <= i < |ops| && ops[i].vec == v && (forall j :: 0 <= j < i ==> ops[j].vec != v) ==>
                  ops[i].Reset? || ops[i].Gauge?
  }

  predicate Touches(ops: seq<Op>, v: Vec) {
    exists i :: 0 <= i < |ops| && ops[i].vec == v
  }

  ghost predicate AgreeOn(a: Series, b: Series, v: Vec) {
    forall k: Key :: k.vec == v ==> Lookup(a, k) == Lookup(b, k)
  }

  /** Once a fresh program has touched a vec, what was there before is forgotten. */
  lemma {:induction false} Forgets(ops: seq<Op>, k: Key, v: Option<real>, w: Option<real>)
    requires Fresh(ops, k.vec) && Touches(ops, k.vec)
    ensures KeyRun(v, ops, k) == KeyRun(w, ops, k)
    decreases |ops|
  {
    var n := |ops| - 1;
    if Touches(ops[..n], k.vec) {
      FreshPrefix(ops, n, k.vec);
      Forgets(ops[..n], k, v, w);
    } else {
      forall j | 0 <= j < n ensures ops[j].vec != k.vec {
        assert ops[..n][j] == ops[j];
      }
    }
  }

  lemma FreshPrefix(ops: seq<Op>, n: nat, v: Vec)
    requires Fresh(ops, v) && n <= |ops|
    ensures Fresh(ops[..n], v)
  {
    forall i | 0 <= i < n && ops[..n][i].vec == v && (forall j :: 0 <= j < i ==> ops[..n][j].vec != v)
      ensures ops[..n][i].Reset? || ops[..n][i].Gauge?
    {
      forall j | 0 <= j < i ensures ops[j].vec != v {
        assert ops[..n][j] == ops[j];
      }
      assert ops[i].Reset? || ops[i].Gauge?;
    }
  }

  /** A series after the first n operations: what they have written if they touch its vec at all. */
  lemma WrittenSoFar(st: Series, ops: seq<Op>, n: nat, k: Key)
    requires Fresh(ops, k.vec) && n <= |ops|
    ensures Lookup(Run(st, ops[..n]), k)
         == if Touches(ops[..n], k.vec) then Lookup(Run(map[], ops[..n]), k) else Lookup(st, k)
  {
    var done := ops[..n];
    FreshPrefix(ops, n, k.vec);
    Pointwise(st, done, k);
    Pointwise(map[], done, k);
    if Touches(done, k.vec) {
      Forgets(done, k, Lookup(st, k), None);
    } else {
      forall op | op in done ensures op.vec != k.vec {
        var i :| 0 <= i < |done| && done[i] == op;
      }
      Untouched(Lookup(st, k), done, k);
    }
  }

  /** At every point of a poll each vec is either still exactly as it was, or holds exactly what the
      operations so far have written to it: never series of both. */
  lemma NoMixedGenerations(st: Series, ops: seq<Op>, n: nat, v: Vec)
    requires Fresh(ops, v) && n <= |ops|
    ensures if Touches(ops[..n], v) then AgreeOn(Run(st, ops[..n]), Run(map[], ops[..n]), v)
            else AgreeOn(Run(st, ops[..n]), st, v)
  {
    forall k: Key | k.vec == v
      ensures Lookup(Run(st, ops[..n]), k)
           == if Touches(ops[..n], v) then Lookup(Run(map[], ops[..n]), k) else Lookup(st, k)
    {
      WrittenSoFar(st, ops, n, k);
    }
  }

  // ----- which programs are fresh -----

  /** Whatever follows the resets, every vec reset is fresh. */
  lemma ResetFirst(vs: seq<Vec>, rest: seq<Op>, v: Vec)
    requires v in vs
    ensures Fresh(Resets(vs) + rest, v)
  {
    var ops := Resets(vs) + rest;
    var r :| 0 <= r < |vs| && vs[r] == v;
    assert ops[r] == Op.Reset(v);
  }

  /** A plain gauge written once, after operations on other vecs, is fresh. */
  lemma GaugeOnce(before: seq<Op>, v: Vec, x: real)
    requires forall op :: op in before ==> op.vec != v
    ensures Fresh(before + [Op.Gauge(v, x)], v)
  {
  }
}
