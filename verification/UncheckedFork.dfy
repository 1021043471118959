/** Bad blocks that get into the collected headers: `collectHeaders` tests what its own
    loop appends, not the target itself nor the part of a fork that `syncFork` hands
    back. */
module UncheckedFork {
  import opened Options
  import opened TipSets
  import opened ForkChoice
  import opened BadBlocks
  import opened HeaderTraces
  import opened HeaderCollection

  // our chain: A, B, C, K; the fork: A, W, X, Y
  const A := TipSet([1], [0], 1, 0)
  const B := TipSet([2], [1], 2, 0)
  const C := TipSet([3], [2], 3, 0)
  const K := TipSet([4], [3], 4, 0)
  const W := TipSet([5], [1], 2, 0)
  const X := TipSet([6], [5], 3, 0)
  const Y := TipSet([7], [6], 4, 0)

  const STORE: Store := map[[1] := A, [2] := B, [3] := C]
  const FORK := [X, W, A]
  const UNTIL := 5
  const WORLD := {A, B, C, K, W, X, Y}

  function Peers(k: Key, n: nat): Option<seq<TipSet>> {
    if k == [6] then Some(FORK) else None
  }

  lemma OneCid(a: Cid, b: Cid)
    ensures CidArrsEqual([a], [b]) <==> a == b
  {
    assert b in [b];
    if CidArrsEqual([a], [b]) {
      assert b in [a];
    }
  }

  lemma SimpleWorld()
    ensures World(WORLD)
  {
    forall a, b | a in WORLD && b in WORLD && CidArrsEqual(a.parents, b.key) ensures a.height > b.height {
      OneCid(a.parents[0], b.key[0]);
      assert a.parents == [a.parents[0]] && b.key == [b.key[0]];
    }
  }

  lemma PeersAreGood()
    ensures GoodExchange(WORLD, Peers)
  {}

  lemma Ancestors(n: nat)
    ensures Walk(STORE, K, n) ==
            if n == 0 then Some(K) else if n == 1 then Some(C) else if n == 2 then Some(B) else if n == 3 then Some(A) else None
  {}

  lemma ForkAtA(i: nat, n: nat)
    ensures Common(STORE, K, FORK, i, n) <==> i == 2 && n == 3
  {
    Ancestors(n);
  }

  lemma MayForkAtA(threshold: nat)
    requires threshold >= 3
    ensures ForkPoint(STORE, K, EMPTY_KEY, threshold, FORK, 2, 3)
  {
    ForkAtA(2, 3);
    forall m: nat | 0 < m <= 3 ensures Reaches(STORE, K, m) && Walk(STORE, K, m).value.height != 0 && Walk(STORE, K, m).value.key != EMPTY_KEY {
      Ancestors(m);
    }
  }

  lemma NotLinked()
    ensures !EndsAt(STORE, K, Y)
  {
    OneCid(6, 4);
    OneCid(6, 3);
    forall n: nat | Reaches(STORE, K, n) ensures n > 0 ==> !Equals(Walk(STORE, K, n).value, Y) {
      Ancestors(n);
    }
  }

  lemma NotRefused(threshold: nat)
    requires threshold >= 3
    ensures !NoFork(STORE, Peers, EMPTY_KEY, threshold, K, Y)
  {
    MayForkAtA(threshold);
  }

  lemma TargetOnly(gathered: seq<TipSet>)
    requires Gathered(STORE, Peers, UNTIL, Y, gathered)
    ensures gathered == [Y]
  {
    AloneIsGathered(STORE, Peers, UNTIL, Y);
    GatheredOnce(STORE, Peers, UNTIL, Y, gathered, [Y]);
  }

  lemma ForkFollows(threshold: nat, r: Headers)
    requires threshold >= 3 && LoopEnds(r) && Tied(STORE, Peers, EMPTY_KEY, threshold, WORLD, Y, K, [Y], r)
    ensures r == Collected([Y, X, W, A])
  {
    NotLinked();
    NotRefused(threshold);
    assert Last([Y]) == Y && !Attached(STORE, K, Y);
    var chain := r.chain;
    var i: nat, n: nat :| ForkPoint(STORE, K, EMPTY_KEY, threshold, FORK, i, n) && chain[1..] == FORK[..i + 1];
    ForkAtA(i, n);
    assert FORK[..3] == FORK;
    assert chain[0] == [Y][0] && chain == [chain[0]] + chain[1..];
    assert [Y] + FORK == [Y, X, W, A];
  }

  lemma OnlyBegin(tr: Trace)
    requires IsTrace(STORE, Peers, UNTIL, Y, tr)
    ensures tr == Begin
  {}

  lemma NotStuck(unanswered: bool)
    ensures !GetsStuck(STORE, Peers, UNTIL, Y, unanswered)
  {
    forall tr | IsTrace(STORE, Peers, UNTIL, Y, tr) ensures !Stuck(STORE, Peers, UNTIL, Y, tr, unanswered) {
      OnlyBegin(tr);
    }
  }

  lemma LoopNotEntered(before: map<Cid, Reason>, after: map<Cid, Reason>, r: Headers)
    requires MarksOf(STORE, Peers, UNTIL, WORLD, Y, r, before, after)
    ensures r != Failed(ContainsBad)
  {
    if r == Failed(ContainsBad) {
      var path, tr, cause :| MarkedFor(STORE, Peers, UNTIL, WORLD, Y, before, after, path, tr, cause);
      OnlyBegin(tr);
    }
  }

  /** The fork goes through block 5, which is in the cache all along. */
  method BadBlockCollected(genesis: TipSet, threshold: nat) returns (bad: Cache, r: Headers)
    requires threshold >= 3
    ensures r == Collected([Y, X, W, A])
    ensures W.key[0] in bad.blocks
  {
    bad := new Cache();
    bad.Add(5, NewReason([5], "known to be bad"));
    SimpleWorld();
    PeersAreGood();
    NotStuck(true);
    NotStuck(false);
    ghost var gathered;
    r, gathered := CollectHeaders(STORE, bad, Peers, genesis, EMPTY_KEY, threshold, Y, K, Consistent, WORLD);
    LoopNotEntered(map[5 := NewReason([5], "known to be bad")], bad.blocks, r);
    assert LoopEnds(r);
    TargetOnly(gathered);
    ForkFollows(threshold, r);
  }

  // a target on top of our head
  const T := TipSet([8], [4], 5, 0)
  const PAIR := {K, T}

  function NoPeers(k: Key, n: nat): Option<seq<TipSet>> {
    None
  }

  lemma PairWorld()
    ensures World(PAIR) && GoodExchange(PAIR, NoPeers)
  {
    OneCid(4, 8);
    OneCid(3, 4);
    OneCid(3, 8);
    OneCid(4, 4);
  }

  lemma PairLoop(tr: Trace)
    requires IsTrace(map[], NoPeers, UNTIL, T, tr)
    ensures tr == Begin
  {}

  lemma PairOutcome(before: map<Cid, Reason>, after: map<Cid, Reason>, threshold: nat, r: Headers, gathered: seq<TipSet>)
    requires MarksOf(map[], NoPeers, UNTIL, PAIR, T, r, before, after)
    requires r.Failed? && r.failure in {NoBlocks, NotConnected} ==> GetsStuck(map[], NoPeers, UNTIL, T, r.failure == NoBlocks)
    requires r.Failed? ==> r.failure !in {ParentBad, BeaconOrder, BeaconMismatch}
    requires LoopEnds(r) ==>
               && ChainFrom(PAIR, T, gathered) && Gathered(map[], NoPeers, UNTIL, T, gathered)
               && Tied(map[], NoPeers, EMPTY_KEY, threshold, PAIR, T, K, Trimmed(K, gathered), r)
    ensures r == Collected([T])
  {
    forall tr | IsTrace(map[], NoPeers, UNTIL, T, tr) ensures tr == Begin {
      PairLoop(tr);
    }
    if LoopEnds(r) {
      AloneIsGathered(map[], NoPeers, UNTIL, T);
      GatheredOnce(map[], NoPeers, UNTIL, T, gathered, [T]);
      OneCid(4, 4);
      assert Attached(map[], K, T);
    }
  }

  /** The target is a child of our head, so there is no fork, and its own block is in the
      cache all along. */
  method BadTargetCollected(genesis: TipSet, threshold: nat) returns (bad: Cache, r: Headers)
    requires threshold > 0
    ensures r == Collected([T]) && CleanLink(map[], NoPeers, threshold, K, T, bad.blocks)
    ensures T.key[0] in bad.blocks
  {
    bad := new Cache();
    bad.Add(8, NewReason([8], "known to be bad"));
    ghost var before := bad.blocks;
    PairWorld();
    ghost var gathered;
    r, gathered := CollectHeaders(map[], bad, NoPeers, genesis, EMPTY_KEY, threshold, T, K, Consistent, PAIR);
    assert T.parents == [4];
    PairOutcome(before, bad.blocks, threshold, r, gathered);
    OneCid(4, 4);
  }
}
