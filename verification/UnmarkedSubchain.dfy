/** A fork refused as too long, of which only the target is marked: the header below
    it was collected and stays out of the bad-block cache. */
module UnmarkedSubchain {
  import opened Options
  import opened TipSets
  import opened ForkChoice
  import opened BadBlocks
  import opened HeaderTraces
  import opened HeaderCollection

  // our chain: A, K; the fork: W, Y, Z
  const A := TipSet([1], [0], 1, 0)
  const K := TipSet([2], [1], 2, 0)
  const W := TipSet([5], [4], 2, 0)
  const Y := TipSet([6], [5], 3, 0)
  const Z := TipSet([7], [6], 4, 0)

  const STORE: Store := map[[1] := A]
  const WORLD := {A, K, W, Y, Z}
  const UNTIL := 3

  function Peers(k: Key, n: nat): Option<seq<TipSet>> {
    if k == [6] then Some([Y]) else if k == [5] then Some([W]) else None
  }

  lemma SimpleWorld()
    ensures World(WORLD) && GoodExchange(WORLD, Peers)
  {
    forall a, b | a in WORLD && b in WORLD && CidArrsEqual(a.parents, b.key) ensures a.height > b.height {
      assert b.key[0] in b.key && |a.parents| == 1;
    }
  }

  lemma Traces(tr: Trace)
    requires IsTrace(STORE, Peers, UNTIL, Z, tr)
    ensures tr == Begin || tr == Locate(Begin, [Y])
    ensures Chain(Z, tr) == if tr == Begin then [Z] else [Z, Y]
  {
    if tr.Locate? {
      Traces(tr.before);
    }
  }

  lemma LoopGathers(gathered: seq<TipSet>)
    requires Gathered(STORE, Peers, UNTIL, Z, gathered)
    ensures gathered == [Z, Y]
  {
    var tr :| IsTrace(STORE, Peers, UNTIL, Z, tr) && EndsWith(STORE, Peers, UNTIL, Z, tr, gathered);
    Traces(tr);
  }

  lemma NotStuck(unanswered: bool)
    ensures !GetsStuck(STORE, Peers, UNTIL, Z, unanswered)
  {
    forall tr | IsTrace(STORE, Peers, UNTIL, Z, tr) ensures !Stuck(STORE, Peers, UNTIL, Z, tr, unanswered) {
      Traces(tr);
    }
  }

  lemma NoMeeting(i: nat, n: nat)
    ensures !Common(STORE, K, [W], i, n)
  {
    Ancestors(n);
  }

  lemma Ancestors(n: nat)
    ensures Walk(STORE, K, n) == if n == 0 then Some(K) else if n == 1 then Some(A) else None
  {}

  /** The walk back on our side stops at A, which is below W. */
  lemma OnlyTooLong(threshold: nat, e: ForkChoice.Error)
    requires Justified(STORE, K, EMPTY_KEY, threshold, Some([W]), e)
    ensures e == ForkTooLong
  {
    forall n: nat | n > 0 ensures !GoesBelow(STORE, K, [W], n) && (Reaches(STORE, K, n) ==> Walk(STORE, K, n).value.height != 0) {
      Ancestors(n);
    }
  }

  lemma Refused(threshold: nat, incoming: TipSet, headers: seq<TipSet>, r: Headers)
    requires headers != [] && Last(headers) == Y
    requires LoopEnds(r) && Tied(STORE, Peers, EMPTY_KEY, threshold, WORLD, incoming, K, headers, r)
    ensures r == Failed(Fork(ForkTooLong))
  {
    assert K.key[0] !in Y.parents && A.key[0] !in Y.parents;
    assert !Attached(STORE, K, Y);
    if r.Collected? {
      var i: nat, n: nat :| ForkPoint(STORE, K, EMPTY_KEY, threshold, [W], i, n);
      NoMeeting(i, n);
    } else if r.failure.Fork? {
      OnlyTooLong(threshold, r.failure.error);
    }
  }

  /** For every threshold: two headers are collected, the fork is refused as too long,
      and the block of the second header is not marked. */
  method HeaderStaysUnmarked(genesis: TipSet, threshold: nat) returns (bad: Cache, r: Headers, ghost gathered: seq<TipSet>)
    requires threshold > 0
    ensures r == Failed(Fork(ForkTooLong)) && gathered == [Z, Y]
    ensures Z.key[0] in bad.blocks && Y.key[0] !in bad.blocks
  {
    bad := new Cache();
    SimpleWorld();
    r, gathered := CollectHeaders(STORE, bad, Peers, genesis, EMPTY_KEY, threshold, Z, K, Consistent, WORLD);
    NotStuck(true);
    NotStuck(false);
    assert LoopEnds(r);
    LoopGathers(gathered);
    Refused(threshold, Z, [Z, Y], r);
  }

  lemma AtBegin(tr: Trace)
    requires IsTrace(STORE, Peers, UNTIL, Y, tr)
    ensures tr == Begin
  {}

  lemma NotEntered(r: Headers, before: map<Cid, Reason>, after: map<Cid, Reason>)
    requires MarksOf(STORE, Peers, UNTIL, WORLD, Y, r, before, after)
    ensures r != Failed(ContainsBad)
    ensures forall unanswered :: !GetsStuck(STORE, Peers, UNTIL, Y, unanswered)
  {
    forall tr | IsTrace(STORE, Peers, UNTIL, Y, tr) ensures tr == Begin {
      AtBegin(tr);
    }
  }

  /** For every threshold: the target is alone on the loop's chain and marked, the fork
      fetched below it is refused as too long, and its block is not marked. */
  method ForkStaysUnmarked(genesis: TipSet, threshold: nat) returns (bad: Cache, r: Headers, ghost gathered: seq<TipSet>)
    requires threshold > 0
    ensures r == Failed(Fork(ForkTooLong)) && gathered == [Y] && TargetAlone(STORE, Peers, UNTIL, Y)
    ensures Peers(Y.parents, threshold) == Some([W])
    ensures Y.key[0] in bad.blocks && W.key[0] !in bad.blocks
  {
    bad := new Cache();
    ghost var before := bad.blocks;
    SimpleWorld();
    r, gathered := CollectHeaders(STORE, bad, Peers, genesis, EMPTY_KEY, threshold, Y, K, Consistent, WORLD);
    NotEntered(r, before, bad.blocks);
    assert LoopEnds(r);
    AloneIsGathered(STORE, Peers, UNTIL, Y);
    GatheredOnce(STORE, Peers, UNTIL, Y, gathered, [Y]);
    Refused(threshold, Y, [Y], r);
  }
}
