/** Forks and checkpoints: when the syncer may leave its own chain for another,
    and how far back. */
module ForkChoice {
  import opened Options
  import opened TipSets

  /** The chain store: what `LoadTipSet` finds. */
  type Store = map<Key, TipSet>

  /** Tipsets are stored under their own key and parents are lower. */
  predicate ValidStore(store: Store) {
    && (forall k | k in store :: store[k].key == k)
    && (forall k | k in store && store[k].parents in store :: store[store[k].parents].height < store[k].height)
  }

  function Load(store: Store, k: Key): Option<TipSet> {
    if k in store then Some(store[k]) else None
  }

  /** The tipset `n` steps back from `ts`. */
  function Walk(store: Store, ts: TipSet, n: nat): Option<TipSet> {
    if n == 0 then Some(ts)
    else
      var child := Walk(store, ts, n - 1);
      if child.None? then None else Load(store, child.value.parents)
  }

  predicate Reaches(store: Store, ts: TipSet, n: nat) {
    Walk(store, ts, n).Some?
  }

  /** Every tipset is stored, apart from the one the walk starts at, and that one
      is above its parent. */
  predicate Anchors(store: Store, ts: TipSet) {
    ts.parents in store ==> store[ts.parents].height < ts.height
  }

  lemma {:induction false} WalkDescends(store: Store, ts: TipSet, m: nat, n: nat)
    requires ValidStore(store) && Anchors(store, ts) && m < n && Reaches(store, ts, n)
    ensures Reaches(store, ts, m) && Walk(store, ts, n).value.height < Walk(store, ts, m).value.height
  {
    if m < n - 1 {
      WalkDescends(store, ts, m, n - 1);
    }
    WalkBelow(store, ts, n);
  }

  lemma {:induction false} WalkBelow(store: Store, ts: TipSet, n: nat)
    requires ValidStore(store) && Anchors(store, ts) && n > 0 && Reaches(store, ts, n)
    ensures Reaches(store, ts, n - 1) && Walk(store, ts, n).value.height < Walk(store, ts, n - 1).value.height
  {}

  // ---------- syncFork ----------

  datatype Error =
    | ForkCheckpoint | ForkTooLong | FetchFailed | LoadFailed | DifferentGenesis | ForkedAtGenesis

  datatype Result = Ok(tips: seq<TipSet>) | Err(error: Error)

  /** What the exchange validates: each tipset is a child of the next. */
  predicate LinkedDown(tips: seq<TipSet>) {
    forall i | 0 <= i < |tips| - 1 :: IsChildOf(tips[i], tips[i + 1])
  }

  lemma {:induction false} LinkedDescends(tips: seq<TipSet>, i: nat, j: nat)
    requires LinkedDown(tips) && i < j < |tips|
    ensures tips[j].height < tips[i].height
  {
    if i + 1 < j {
      LinkedDescends(tips, i, j - 1);
    }
    assert IsChildOf(tips[j - 1], tips[j]);
  }

  /** The fetched tipset `i` is our ancestor `n` steps back from `known`. */
  predicate Common(store: Store, known: TipSet, tips: seq<TipSet>, i: nat, n: nat) {
    i < |tips| && n > 0 && Reaches(store, known, n) && Equals(Walk(store, known, n).value, tips[i])
  }

  /** Our own tipsets from `known` down to just above step `n` are not the
      checkpoint and are above genesis height; step `n` is too. */
  predicate MayGiveUp(store: Store, known: TipSet, chkpt: Key, n: nat) {
    && known.key != chkpt
    && (forall m | 0 < m <= n :: Reaches(store, known, m) && Walk(store, known, m).value.height != 0)
    && (forall m | 0 < m < n :: Walk(store, known, m).value.key != chkpt)
  }

  /** A fork point the code accepts. */
  ghost predicate ForkPoint(store: Store, known: TipSet, chkpt: Key, threshold: nat, tips: seq<TipSet>, i: nat, n: nat) {
    Common(store, known, tips, i, n) && n <= threshold && MayGiveUp(store, known, chkpt, n)
  }

  /** No common tipset lies above position `i` of the fetched chain, nor closer
      than `n` steps to `known`. */
  ghost predicate NoneBefore(store: Store, known: TipSet, tips: seq<TipSet>, i: nat, n: nat) {
    forall j, m | Common(store, known, tips, j, m) :: i <= j && n <= m
  }

  lemma SkipTip(store: Store, known: TipSet, tips: seq<TipSet>, i: nat, n: nat)
    requires ValidStore(store) && Anchors(store, known) && LinkedDown(tips)
    requires i < |tips| && n > 0 && Reaches(store, known, n) && NoneBefore(store, known, tips, i, n)
    requires Walk(store, known, n).value.height < tips[i].height
    ensures NoneBefore(store, known, tips, i + 1, n)
  {
    forall j, m | Common(store, known, tips, j, m) ensures i + 1 <= j {
      if j == i && n < m {
        WalkDescends(store, known, n, m);
      }
    }
  }

  lemma SkipOwn(store: Store, known: TipSet, tips: seq<TipSet>, i: nat, n: nat)
    requires ValidStore(store) && Anchors(store, known) && LinkedDown(tips)
    requires i < |tips| && n > 0 && Reaches(store, known, n) && NoneBefore(store, known, tips, i, n)
    requires Walk(store, known, n).value.height >= tips[i].height && !Equals(Walk(store, known, n).value, tips[i])
    ensures NoneBefore(store, known, tips, i, n + 1)
  {
    forall j, m | Common(store, known, tips, j, m) ensures n + 1 <= m {
      if m == n && i < j {
        LinkedDescends(tips, i, j);
      }
    }
  }

  ghost predicate NoForkPoint(store: Store, known: TipSet, chkpt: Key, threshold: nat, tips: seq<TipSet>) {
    forall j, m :: !ForkPoint(store, known, chkpt, threshold, tips, j, m)
  }

  /** The walk has come to a tipset of ours that cannot be given up, or not been
      reached, or the fetched chain or the threshold is used up. */
  lemma Refuted(store: Store, known: TipSet, chkpt: Key, threshold: nat, tips: seq<TipSet>, i: nat, n: nat)
    requires NoneBefore(store, known, tips, i, n) && n > 0
    requires || i >= |tips|
             || n > threshold
             || !Reaches(store, known, n)
             || Walk(store, known, n).value.height == 0
             || (n > 1 && Reaches(store, known, n - 1) && Walk(store, known, n - 1).value.key == chkpt)
    ensures NoForkPoint(store, known, chkpt, threshold, tips)
  {}

  lemma GiveUpOneMore(store: Store, known: TipSet, chkpt: Key, n: nat)
    requires n > 0 && MayGiveUp(store, known, chkpt, n - 1) && Reaches(store, known, n)
    requires n > 1 ==> Walk(store, known, n - 1).value.key != chkpt
    requires Walk(store, known, n).value.height != 0
    ensures MayGiveUp(store, known, chkpt, n)
  {}

  lemma WalkStep(store: Store, ts: TipSet, n: nat)
    requires Reaches(store, ts, n)
    ensures Walk(store, ts, n + 1) == Load(store, Walk(store, ts, n).value.parents)
  {}

  /** The walk goes on below our tipset `n`: it is not lower than some fetched one,
      and not equal to it. */
  predicate GoesBelow(store: Store, known: TipSet, tips: seq<TipSet>, n: nat) {
    && Reaches(store, known, n)
    && exists j | 0 <= j < |tips| ::
      Walk(store, known, n).value.height >= tips[j].height && !Equals(Walk(store, known, n).value, tips[j])
  }

  /** Why each error is returned. */
  ghost predicate Justified(store: Store, known: TipSet, chkpt: Key, threshold: nat, fetched: Option<seq<TipSet>>, e: Error) {
    if known.key == chkpt then e == ForkCheckpoint
    else if fetched.None? then e == FetchFailed
    else if known.parents !in store then e == LoadFailed
    else
      match e
      case ForkCheckpoint =>
        exists n: nat | 0 < n < threshold && GoesBelow(store, known, fetched.value, n) :: Walk(store, known, n).value.key == chkpt
      case LoadFailed =>
        exists n: nat | 0 < n < threshold && GoesBelow(store, known, fetched.value, n) :: Walk(store, known, n).value.parents !in store
      case ForkTooLong => forall i: nat, n: nat | Common(store, known, fetched.value, i, n) :: n > threshold
      case FetchFailed => false
      case _ => exists n: nat | 0 < n <= threshold && Reaches(store, known, n) :: Walk(store, known, n).value.height == 0
  }

  /** Our side goes back to height 0, at our genesis or not, as `same` says. */
  ghost predicate AtGenesis(store: Store, genesis: TipSet, known: TipSet, threshold: nat, same: bool) {
    exists n: nat | 0 < n <= threshold && Reaches(store, known, n) ::
      Walk(store, known, n).value.height == 0 && Equals(genesis, Walk(store, known, n).value) == same
  }

  /** `syncFork` on what the exchange fetched below `incoming`. It succeeds if and
      only if an acceptable fork point exists, and then with the fetched chain
      down to the highest tipset the two chains share. */
  method SyncFork(store: Store, genesis: TipSet, chkpt: Key, threshold: nat, known: TipSet, fetched: Option<seq<TipSet>>)
    returns (r: Result, ghost i: nat, ghost n: nat)
    requires ValidStore(store) && Anchors(store, known) && threshold > 0
    requires fetched.Some? ==> LinkedDown(fetched.value)
    ensures r.Ok? ==>
              && fetched.Some? && ForkPoint(store, known, chkpt, threshold, fetched.value, i, n)
              && r.tips == fetched.value[..i + 1]
              && NoneBefore(store, known, fetched.value, i, n)
    ensures r.Err? && fetched.Some? ==>
              NoForkPoint(store, known, chkpt, threshold, fetched.value)
    ensures r == Err(ForkCheckpoint) ==>
              known.key == chkpt || (
                && fetched.Some? && n > 0 && Reaches(store, known, n) && Walk(store, known, n).value.key == chkpt
                && NoneBefore(store, known, fetched.value, 0, n + 1))
    ensures r.Err? ==> Justified(store, known, chkpt, threshold, fetched, r.error)
    ensures r == Err(DifferentGenesis) ==> AtGenesis(store, genesis, known, threshold, false)
    ensures r == Err(ForkedAtGenesis) ==> AtGenesis(store, genesis, known, threshold, true)
  {
    i, n := 0, 0;
    if known.key == chkpt { return Err(ForkCheckpoint), i, n; }
    if fetched.None? { return Err(FetchFailed), i, n; }
    var tips := fetched.value;
    WalkStep(store, known, 0);
    if known.parents !in store {
      Refuted(store, known, chkpt, threshold, tips, 0, 1);
      return Err(LoadFailed), i, n;
    }
    r, i, n := WalkBack(store, genesis, chkpt, threshold, known, tips);
  }

  /** The two-pointer walk of `syncFork`. */
  method WalkBack(store: Store, genesis: TipSet, chkpt: Key, threshold: nat, known: TipSet, tips: seq<TipSet>)
    returns (r: Result, ghost i: nat, ghost n: nat)
    requires ValidStore(store) && Anchors(store, known) && threshold > 0 && LinkedDown(tips)
    requires known.key != chkpt && known.parents in store
    ensures r.Ok? ==>
              && ForkPoint(store, known, chkpt, threshold, tips, i, n)
              && r.tips == tips[..i + 1] && NoneBefore(store, known, tips, i, n)
    ensures r.Err? ==> NoForkPoint(store, known, chkpt, threshold, tips)
    ensures r == Err(ForkCheckpoint) ==>
              && n > 0 && Reaches(store, known, n) && Walk(store, known, n).value.key == chkpt
              && NoneBefore(store, known, tips, 0, n + 1)
    ensures r.Err? ==> Justified(store, known, chkpt, threshold, Some(tips), r.error)
    ensures r == Err(DifferentGenesis) ==> AtGenesis(store, genesis, known, threshold, false)
    ensures r == Err(ForkedAtGenesis) ==> AtGenesis(store, genesis, known, threshold, true)
  {
    var nts := store[known.parents];
    WalkStep(store, known, 0);
    i, n := 0, 1;
    var cur, forkLengthInHead := 0, 1;
    while cur < |tips|
      invariant cur == i <= |tips| && 1 <= forkLengthInHead == n <= threshold
      invariant Walk(store, known, n) == Some(nts)
      invariant MayGiveUp(store, known, chkpt, n - 1)
      invariant n > 1 ==> Walk(store, known, n - 1).value.key != chkpt
      invariant NoneBefore(store, known, tips, i, n)
      decreases threshold - forkLengthInHead + |tips| - cur
    {
      if nts.height == 0 {
        Refuted(store, known, chkpt, threshold, tips, i, n);
        if !Equals(genesis, nts) { return Err(DifferentGenesis), i, n; }
        return Err(ForkedAtGenesis), i, n;
      }
      GiveUpOneMore(store, known, chkpt, n);
      if Equals(nts, tips[cur]) {
        return Ok(tips[..cur + 1]), i, n;
      }
      if nts.height < tips[cur].height {
        SkipTip(store, known, tips, i, n);
        cur, i := cur + 1, i + 1;
      } else {
        SkipOwn(store, known, tips, i, n);
        assert GoesBelow(store, known, tips, n);
        WalkStep(store, known, n);
        forkLengthInHead := forkLengthInHead + 1;
        if forkLengthInHead > threshold {
          Refuted(store, known, chkpt, threshold, tips, i, n + 1);
          return Err(ForkTooLong), i, n;
        }
        if nts.key == chkpt {
          Refuted(store, known, chkpt, threshold, tips, i, n + 1);
          return Err(ForkCheckpoint), i, n;
        }
        if nts.parents !in store {
          Refuted(store, known, chkpt, threshold, tips, i, n + 1);
          return Err(LoadFailed), i, n;
        }
        nts := store[nts.parents];
        n := n + 1;
      }
    }
    Refuted(store, known, chkpt, threshold, tips, i, n);
    return Err(ForkTooLong), i, n;
  }

  // ---------- checkpoints ----------

  /** `IsAncestorOf`. */
  method IsAncestorOf(store: Store, a: TipSet, b: TipSet) returns (r: Option<bool>, ghost n: nat)
    requires ValidStore(store) && Anchors(store, b)
    ensures r == Some(true) ==> n > 0 && Reaches(store, b, n) && Equals(Walk(store, b, n).value, a)
    ensures r == Some(false) ==> forall m | m > 0 && Reaches(store, b, m) :: !Equals(Walk(store, b, m).value, a)
    ensures r == None ==> b.height > a.height && !Reaches(store, b, n) && forall m | 0 < m < n && Reaches(store, b, m) :: !Equals(Walk(store, b, m).value, a)
  {
    n := 0;
    if b.height <= a.height {
      forall m | m > 0 && Reaches(store, b, m) ensures !Equals(Walk(store, b, m).value, a) {
        WalkDescends(store, b, 0, m);
      }
      return Some(false), n;
    }
    var cur := b;
    while !Equals(a, cur) && cur.height > a.height
      invariant Walk(store, b, n) == Some(cur)
      invariant cur.height > a.height || n > 0
      invariant forall m | 0 < m < n && Reaches(store, b, m) :: !Equals(Walk(store, b, m).value, a)
      decreases cur.height - a.height
    {
      n := n + 1;
      if cur.parents !in store {
        return None, n;
      }
      WalkBelow(store, b, n);
      cur := store[cur.parents];
    }
    if !Equals(cur, a) {
      forall m | m > 0 && Reaches(store, b, m) ensures !Equals(Walk(store, b, m).value, a) {
        if m > n {
          WalkDescends(store, b, n, m);
        }
      }
    }
    return Some(Equals(cur, a)), n;
  }

  /** `tsk` is stored and is `heaviest` or one of its ancestors. */
  ghost predicate OnChain(store: Store, heaviest: TipSet, tsk: Key) {
    tsk in store && exists m: nat :: Reaches(store, heaviest, m) && Equals(Walk(store, heaviest, m).value, store[tsk])
  }

  class Checkpoint {
    var checkpt: Key

    constructor ()
      ensures checkpt == EMPTY_KEY
    {
      checkpt := EMPTY_KEY;
    }

    /** Exactly the heaviest tipset and its ancestors can be checkpointed. */
    method SetCheckpoint(store: Store, heaviest: TipSet, tsk: Key) returns (ok: bool)
      requires ValidStore(store) && Anchors(store, heaviest)
      modifies this
      ensures checkpt == if ok then tsk else old(checkpt)
      ensures ok <==> tsk != EMPTY_KEY && OnChain(store, heaviest, tsk)
    {
      if tsk == EMPTY_KEY || tsk !in store { return false; }
      var ts := store[tsk];
      var anc;
      ghost var n;
      anc, n := IsAncestorOf(store, ts, heaviest);
      if anc.None? {
        NotOnChain(store, heaviest, tsk, n);
        return false;
      }
      assert Walk(store, heaviest, 0) == Some(heaviest);
      if !Equals(heaviest, ts) && !anc.value { return false; }
      checkpt := tsk;
      return true;
    }
  }

  lemma {:induction false} WalkOn(store: Store, ts: TipSet, m: nat, n: nat)
    requires m <= n && Reaches(store, ts, n)
    ensures Reaches(store, ts, m) && Walk(store, Walk(store, ts, m).value, n - m) == Walk(store, ts, n)
  {
    if m < n {
      WalkOn(store, ts, m, n - 1);
    }
  }

  /** A tipset not met before the walk back ends is not on the chain. */
  lemma NotOnChain(store: Store, heaviest: TipSet, tsk: Key, n: nat)
    requires tsk in store && heaviest.height > store[tsk].height && !Reaches(store, heaviest, n)
    requires forall m | 0 < m < n && Reaches(store, heaviest, m) :: !Equals(Walk(store, heaviest, m).value, store[tsk])
    ensures !OnChain(store, heaviest, tsk)
  {
    forall m: nat | Reaches(store, heaviest, m) ensures !Equals(Walk(store, heaviest, m).value, store[tsk]) {
      if m >= n {
        WalkOn(store, heaviest, n, m);
      }
    }
  }

  /** A checkpoint on our chain, as `SetCheckpoint` leaves it, is still an ancestor
      of the tipset an accepted fork branches off at, or is that tipset. */
  lemma CheckpointSurvives(store: Store, known: TipSet, chkpt: Key, threshold: nat, tips: seq<TipSet>, i: nat, n: nat, c: nat)
    requires ForkPoint(store, known, chkpt, threshold, tips, i, n)
    requires Reaches(store, known, c) && Walk(store, known, c).value.key == chkpt
    ensures n <= c
    ensures var fork := Walk(store, known, n).value;
            Equals(fork, tips[i]) && Walk(store, fork, c - n) == Walk(store, known, c)
  {
    assert c > 0 && !(0 < c < n);
    WalkOn(store, known, n, c);
  }
}
