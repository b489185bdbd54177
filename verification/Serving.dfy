/**
 Poll-cache-serve over whole runs of one domain: between polls its series show the projection of the
 last fully successful answer, and in the middle of a poll no vec mixes two answers.
 */
module Serving {
  import opened Wrappers
  import opened Metrics
  import opened PollRunner
  import opened Domains
  import opened SelfMetrics
  import opened Generations
  import opened Answers
  import opened Programs

  /** A poll: what the API answered, the operations of Poll on the domain's vecs, and the record. */
  datatype Completed = Completed(answer: Answer, program: seq<Op>, record: Finished)

  /** The poll is one of domain `d`: all or nothing, and recorded as what it was. */
  ghost predicate IsPoll(d: Domain, c: Completed) {
    && DomainOf(c.answer) == d
    && (if Good(c.answer) then IsProgram(c.answer, c.program) else c.program == [])
    && c.record.ok == Good(c.answer)
  }

  ghost predicate ArePolls(d: Domain, polls: seq<Completed>) {
    forall i :: 0 <= i < |polls| ==> IsPoll(d, polls[i])
  }

  function CompletedOps(name: string, c: Completed): seq<Op> {
    c.program + RecordOps(name, c.record)
  }

  /** Everything a domain does to the registry over a sequence of polls. */
  function DomainOps(name: string, polls: seq<Completed>): seq<Op> {
    if |polls| == 0 then []
    else DomainOps(name, polls[..|polls| - 1]) + CompletedOps(name, polls[|polls| - 1])
  }

  function AnswersOf(polls: seq<Completed>): seq<Answer> {
    seq(|polls|, i requires 0 <= i < |polls| => polls[i].answer)
  }

  function Records(polls: seq<Completed>): seq<Finished> {
    seq(|polls|, i requires 0 <= i < |polls| => polls[i].record)
  }

  lemma PartOfRecordLeaves(name: string, f: Finished, n: nat, k: Key, v: Option<real>)
    requires Owner(k.vec).Some? && n <= |RecordOps(name, f)|
    ensures KeyRun(v, RecordOps(name, f)[..n], k) == v
  {
    forall op | op in RecordOps(name, f)[..n] ensures op.vec != k.vec {
      assert op in RecordOps(name, f);
    }
    Untouched(v, RecordOps(name, f)[..n], k);
  }

  lemma RecordLeaves(name: string, f: Finished, st: Series, k: Key)
    requires Owner(k.vec).Some?
    ensures Lookup(Run(st, RecordOps(name, f)), k) == Lookup(st, k)
  {
    var ops := RecordOps(name, f);
    assert ops[..|ops|] == ops;
    Pointwise(st, ops, k);
    PartOfRecordLeaves(name, f, |ops|, k, Lookup(st, k));
  }

  lemma ProgramEffect(d: Domain, c: Completed, st: Series, k: Key)
    requires IsPoll(d, c)
    ensures Lookup(Run(st, c.program), k)
         == if Good(c.answer) && Owner(k.vec) == Some(d) then View(c.answer)(k) else Lookup(st, k)
  {
    if Good(c.answer) {
      assert Projects(c.answer, c.program);
    } else {
      assert Run(st, c.program) == st;
    }
  }

  /** One poll, seen from the series of the domains. */
  lemma OnePoll(name: string, d: Domain, c: Completed, st: Series, k: Key)
    requires IsPoll(d, c) && Owner(k.vec).Some?
    ensures Lookup(Run(st, CompletedOps(name, c)), k)
         == if Good(c.answer) && Owner(k.vec) == Some(d) then View(c.answer)(k) else Lookup(st, k)
  {
    RunAppend(st, c.program, RecordOps(name, c.record));
    RecordLeaves(name, c.record, Run(st, c.program), k);
    ProgramEffect(d, c, st, k);
  }

  lemma NextPoll(name: string, d: Domain, polls: seq<Completed>, c: Completed, st: Series, k: Key)
    requires IsPoll(d, c) && Owner(k.vec) == Some(d)
    ensures Lookup(Run(st, DomainOps(name, polls) + CompletedOps(name, c)), k)
         == if Good(c.answer) then View(c.answer)(k) else Lookup(Run(st, DomainOps(name, polls)), k)
  {
    RunAppend(st, DomainOps(name, polls), CompletedOps(name, c));
    OnePoll(name, d, c, Run(st, DomainOps(name, polls)), k);
  }

  lemma OneFailure(name: string, c: Completed, st: Series, before: seq<Op>, k: Key)
    requires c.program == [] && Owner(k.vec).Some?
    ensures Lookup(Run(st, before + CompletedOps(name, c)), k) == Lookup(Run(st, before), k)
  {
    assert CompletedOps(name, c) == RecordOps(name, c.record);
    RunAppend(st, before, CompletedOps(name, c));
    RecordLeaves(name, c.record, Run(st, before), k);
  }

  /** Failed polls leave the series of every domain. */
  lemma {:induction false} FailuresLeave(name: string, polls: seq<Completed>, m: nat, st: Series, k: Key)
    requires m <= |polls| && Owner(k.vec).Some?
    requires forall j :: m <= j < |polls| ==> polls[j].program == []
    ensures Lookup(Run(st, DomainOps(name, polls)), k) == Lookup(Run(st, DomainOps(name, polls[..m])), k)
    decreases |polls|
  {
    if m == |polls| {
      assert polls[..m] == polls;
    } else {
      var n := |polls| - 1;
      FailuresLeave(name, polls[..n], m, st, k);
      assert polls[..n][..m] == polls[..m];
      OneFailure(name, polls[n], st, DomainOps(name, polls[..n]), k);
    }
  }

  lemma AfterLast(d: Domain, polls: seq<Completed>, m: nat)
    requires ArePolls(d, polls) && forall j :: m <= j < |polls| ==> !Good(AnswersOf(polls)[j])
    ensures forall j :: m <= j < |polls| ==> polls[j].program == []
  {
    forall j | m <= j < |polls| ensures polls[j].program == [] {
      assert IsPoll(d, polls[j]) && !Good(AnswersOf(polls)[j]);
    }
  }

  lemma ServedByLast(name: string, d: Domain, polls: seq<Completed>, i: nat, st: Series, k: Key)
    requires i < |polls| && IsPoll(d, polls[i]) && Good(polls[i].answer) && Owner(k.vec) == Some(d)
    requires forall j :: i < j < |polls| ==> polls[j].program == []
    ensures Lookup(Run(st, DomainOps(name, polls)), k) == View(polls[i].answer)(k)
  {
    FailuresLeave(name, polls, i + 1, st, k);
    assert polls[..i + 1][..i] == polls[..i];
    NextPoll(name, d, polls[..i], polls[i], st, k);
  }

  /** Stale-serve over whole runs: for every sequence of polls, what a series of the domain shows is
      the projection of the last fully successful answer; if there was none it is untouched. Failures
      in between change nothing, and what a success no longer lists is gone. */
  lemma StaleServe(d: Domain, polls: seq<Completed>, st: Series, k: Key)
    requires ArePolls(d, polls) && Owner(k.vec) == Some(d)
    ensures var last := LastGood(AnswersOf(polls));
            Lookup(Run(st, DomainOps(Name(d), polls)), k)
            == if last.Some? then View(polls[last.value].answer)(k) else Lookup(st, k)
  {
    var last := LastGood(AnswersOf(polls));
    LastGoodIff(AnswersOf(polls), if last.Some? then last.value else 0);
    if last.Some? {
      AfterLast(d, polls, last.value + 1);
      ServedByLast(Name(d), d, polls, last.value, st, k);
    } else {
      AfterLast(d, polls, 0);
      FailuresLeave(Name(d), polls, 0, st, k);
    }
  }

  // ----- in the middle of a poll -----

  /** What the poll has written to the domain's vecs after n of its operations. */
  function Written(c: Completed, n: nat): seq<Op> {
    c.program[..Min(n, |c.program|)]
  }

  /** A vec of the domain after n operations of the poll `next`: untouched by it, when it still shows
      the last good answer before, or holding what this poll has written to it so far, all of it
      reported by its answer; and once the poll has written everything, the view of that answer. */
  ghost predicate OneGeneration(st: Series, polls: seq<Completed>, next: Completed, n: nat, v: Vec) {
    && (if Touches(Written(next, n), v) then
          && AgreeOn(st, Run(map[], Written(next, n)), v)
          && Good(next.answer)
          && forall k: Key :: k.vec == v && k in st ==> Reports(next.answer, k, st[k])
        else forall k: Key :: k.vec == v ==> Lookup(st, k) == Shown(AnswersOf(polls), k))
    && (Good(next.answer) && |next.program| <= n ==>
          forall k: Key :: k.vec == v ==> Lookup(st, k) == View(next.answer)(k))
  }

  /** The operations of a poll up to n: part of its program, then part of its record. */
  lemma PartOfPoll(name: string, c: Completed, n: nat)
    requires n <= |CompletedOps(name, c)|
    ensures CompletedOps(name, c)[..n] == Written(c, n) + RecordOps(name, c.record)[..n - |Written(c, n)|]
  {
  }

  /** A series of the domain after part of a poll. */
  lemma PartKey(d: Domain, next: Completed, n: nat, st: Series, k: Key)
    requires IsPoll(d, next) && Owner(k.vec) == Some(d) && n <= |CompletedOps(Name(d), next)|
    ensures Lookup(Run(st, CompletedOps(Name(d), next)[..n]), k) == Lookup(Run(st, Written(next, n)), k)
  {
    var written := Written(next, n);
    var rest := RecordOps(Name(d), next.record)[..n - |written|];
    PartOfPoll(Name(d), next, n);
    Pointwise(st, written + rest, k);
    Pointwise(st, written, k);
    KeyRunAppend(Lookup(st, k), written, rest, k);
    PartOfRecordLeaves(Name(d), next.record, n - |written|, k, KeyRun(Lookup(st, k), written, k));
  }

  lemma WrittenIsReported(d: Domain, next: Completed, n: nat, k: Key)
    requires IsPoll(d, next)
    ensures k in Run(map[], Written(next, n)) ==>
              Good(next.answer) && Reports(next.answer, k, Run(map[], Written(next, n))[k])
  {
    if Good(next.answer) {
      TruthfulSoFar(next.answer, next.program, Min(n, |next.program|), k);
    }
  }

  lemma WrittenKey(d: Domain, next: Completed, n: nat, st: Series, k: Key)
    requires IsPoll(d, next) && Owner(k.vec) == Some(d)
    ensures Lookup(Run(st, Written(next, n)), k)
         == if Touches(Written(next, n), k.vec) then Lookup(Run(map[], Written(next, n)), k) else Lookup(st, k)
    ensures Good(next.answer) && |next.program| <= n ==> Lookup(Run(st, Written(next, n)), k) == View(next.answer)(k)
  {
    if Good(next.answer) {
      WrittenSoFar(st, next.program, Min(n, |next.program|), k);
      assert |next.program| <= n ==> Written(next, n) == next.program;
    }
  }

  /** At any point of any run a vec of the domain belongs to one generation: at every operation of
      every poll, those of the record included. */
  lemma AlwaysOneGeneration(d: Domain, polls: seq<Completed>, next: Completed, n: nat, v: Vec)
    requires ArePolls(d, polls) && IsPoll(d, next) && n <= |CompletedOps(Name(d), next)| && Owner(v) == Some(d)
    ensures OneGeneration(Run(map[], DomainOps(Name(d), polls) + CompletedOps(Name(d), next)[..n]), polls, next, n, v)
  {
    var before := Run(map[], DomainOps(Name(d), polls));
    var part := CompletedOps(Name(d), next)[..n];
    RunAppend(map[], DomainOps(Name(d), polls), part);
    forall k: Key | k.vec == v
      ensures Lookup(Run(before, part), k)
           == if Touches(Written(next, n), v) then Lookup(Run(map[], Written(next, n)), k) else Shown(AnswersOf(polls), k)
      ensures Good(next.answer) && |next.program| <= n ==> Lookup(Run(before, part), k) == View(next.answer)(k)
    {
      PartKey(d, next, n, before, k);
      WrittenKey(d, next, n, before, k);
      StaleServe(d, polls, map[], k);
    }
    OneGenerationIs(d, Run(before, part), polls, next, n, v);
  }

  lemma OneGenerationIs(d: Domain, st: Series, polls: seq<Completed>, next: Completed, n: nat, v: Vec)
    requires IsPoll(d, next)
    requires forall k: Key :: k.vec == v ==>
               Lookup(st, k)
               == if Touches(Written(next, n), v) then Lookup(Run(map[], Written(next, n)), k) else Shown(AnswersOf(polls), k)
    requires Good(next.answer) && |next.program| <= n ==>
               forall k: Key :: k.vec == v ==> Lookup(st, k) == View(next.answer)(k)
    ensures OneGeneration(st, polls, next, n, v)
  {
    if Touches(Written(next, n), v) {
      assert Good(next.answer);
      forall k: Key | k.vec == v && k in st ensures Reports(next.answer, k, st[k]) {
        assert Lookup(st, k) == Lookup(Run(map[], Written(next, n)), k);
        WrittenIsReported(d, next, n, k);
      }
    }
  }
}
