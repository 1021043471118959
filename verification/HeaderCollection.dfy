/** Collecting the headers between a target and our own chain, from the store and
    from peers, with what is marked bad on the way. */
module HeaderCollection {
  import opened Options
  import opened TipSets
  import opened ForkChoice
  import opened BadBlocks
  import opened HeaderTraces

  /** The tipsets there are: content addressed, with distinct blocks, each above
      its parents. */
  predicate World(world: set<TipSet>) {
    && (forall t | t in world :: Distinct(t.key))
    && (forall a, b | a in world && b in world && CidArrsEqual(a.parents, b.key) :: a.height > b.height)
  }

  predicate Distinct(k: Key) {
    forall i, j | 0 <= i < j < |k| :: k[i] != k[j]
  }

  predicate StoreIn(world: set<TipSet>, store: Store) {
    forall k | k in store :: store[k].key == k && store[k] in world
  }

  /** What `GetBlocks` validates of a reply. */
  predicate GoodReply(world: set<TipSet>, k: Key, reply: Option<seq<TipSet>>) {
    reply.Some? ==>
      && reply.value != []
      && (forall i | 0 <= i < |reply.value| :: reply.value[i] in world)
      && CidArrsEqual(k, reply.value[0].key)
      && LinkedDown(reply.value)
  }

  ghost predicate GoodExchange(world: set<TipSet>, getBlocks: Exchange) {
    forall k, n :: GoodReply(world, k, getBlocks(k, n))
  }

  lemma StoreIsValid(world: set<TipSet>, store: Store, known: TipSet)
    requires World(world) && StoreIn(world, store) && known in world
    ensures ValidStore(store) && Anchors(store, known)
  {}

  function KeySet(k: Key): set<Cid> {
    set c | c in k
  }

  lemma {:induction false} KeySetSize(k: Key)
    ensures |KeySet(k)| <= |k|
    ensures Distinct(k) ==> |KeySet(k)| == |k|
  {
    if k == [] {
      assert KeySet(k) == {};
    } else {
      var front, last := k[..|k| - 1], k[|k| - 1];
      KeySetSize(front);
      assert k == front + [last];
      assert KeySet(k) == KeySet(front) + {last};
    }
  }

  lemma SubsetSameSize(a: set<Cid>, b: set<Cid>)
    requires b <= a && |a| <= |b|
    ensures a == b
  {
    assert |a - b| == |a| - |b|;
  }

  /** Against a key of distinct blocks, the order-ignoring comparison is two-way. */
  lemma SameCids(a: Key, b: Key)
    requires CidArrsEqual(a, b) && Distinct(b)
    ensures forall c | c in a :: c in b
  {
    KeySetSize(a);
    KeySetSize(b);
    SubsetSameSize(KeySet(a), KeySet(b));
    assert forall c | c in a :: c in KeySet(a);
  }

  // ---------- chains being assembled ----------

  predicate ChainFrom(world: set<TipSet>, incoming: TipSet, chain: seq<TipSet>) {
    chain != [] && chain[0] == incoming && LinkedDown(chain) && forall i | 0 <= i < |chain| :: chain[i] in world
  }

  predicate BadFree(blocks: map<Cid, Reason>, t: TipSet) {
    forall c | c in t.key :: c !in blocks
  }

  /** All tipsets but the target are free of bad blocks. */
  predicate CleanBelow(blocks: map<Cid, Reason>, chain: seq<TipSet>) {
    forall i | 0 < i < |chain| :: BadFree(blocks, chain[i])
  }

  /** `accepted` are blocks of collected tipsets. */
  predicate AcceptedIn(chain: seq<TipSet>, accepted: seq<Cid>) {
    forall c | c in accepted :: exists i | 0 < i < |chain| :: c in chain[i].key
  }

  lemma Extend(world: set<TipSet>, incoming: TipSet, chain: seq<TipSet>, t: TipSet)
    requires ChainFrom(world, incoming, chain) && t in world && IsChildOf(Last(chain), t)
    ensures ChainFrom(world, incoming, chain + [t])
  {}

  lemma AcceptMore(chain: seq<TipSet>, more: seq<TipSet>, accepted: seq<Cid>, at: Key)
    requires AcceptedIn(chain, accepted) && chain != [] && more != [] && forall c | c in at :: c in more[0].key
    ensures AcceptedIn(chain + more, accepted + at)
  {
    var out := chain + more;
    forall c | c in accepted + at ensures exists i | 0 < i < |out| :: c in out[i].key {
      if c in accepted {
        var i :| 0 < i < |chain| && c in chain[i].key;
        assert c in out[i].key;
      } else {
        assert c in out[|chain|].key;
      }
    }
  }

  /** Block `c` properly descends from block `bad`: it is part of a tipset from
      which parent links lead to one that has `bad` as a parent. */
  ghost predicate Descends(world: set<TipSet>, c: Cid, bad: Cid) {
    exists path: seq<TipSet> ::
      && path != [] && LinkedDown(path) && (forall i | 0 <= i < |path| :: path[i] in world)
      && c in path[0].key && bad in path[|path| - 1].parents
  }

  lemma BlockDescends(world: set<TipSet>, incoming: TipSet, chain: seq<TipSet>, i: nat, c: Cid, bad: Cid)
    requires ChainFrom(world, incoming, chain) && i < |chain| && c in chain[i].key && bad in Last(chain).parents
    ensures Descends(world, c, bad)
  {
    var path := chain[i..];
    assert path[|path| - 1] == Last(chain) && path[0] == chain[i];
    assert forall k | 0 <= k < |path| :: path[k] == chain[i + k];
    assert LinkedDown(path) by {
      forall k | 0 <= k < |path| - 1 ensures IsChildOf(path[k], path[k + 1]) {
        assert IsChildOf(chain[i + k], chain[i + k + 1]);
      }
    }
  }

  /** The new cache adds to the old one only: fresh reasons on blocks of the
      target, and linked reasons on descendants of a block that was bad, carrying
      that block's original reason. */
  ghost predicate MarkedSoundly(world: set<TipSet>, incoming: TipSet, before: map<Cid, Reason>, after: map<Cid, Reason>) {
    && before.Keys <= after.Keys
    && forall c | c in after && (c !in before || after[c] != before[c]) ::
      if after[c].original.None? then c in incoming.key
      else exists bad | bad in before :: after[c].original == Some(Root(before[bad])) && Descends(world, c, bad)
  }

  /** The chain collected so far, `path`, builds on the bad block `hit`: exactly the
      blocks that earlier segments were located by get a reason linked to that of
      `hit`. Past those segments `path` has the good part of a last reply. */
  ghost predicate MarkedFor(store: Store, getBlocks: Exchange, until: int, world: set<TipSet>, incoming: TipSet,
                            before: map<Cid, Reason>, after: map<Cid, Reason>, path: seq<TipSet>, tr: Trace, hit: Cid)
  {
    && ChainFrom(world, incoming, path) && hit in before && hit in Last(path).parents
    && IsTrace(store, getBlocks, until, incoming, tr) && Under(store, getBlocks, until, incoming, tr, path)
    && AcceptedIn(Chain(incoming, tr), Accepted(incoming, tr))
    && after == Marked(before, Accepted(incoming, tr), Linked(before[hit], "change contained"))
  }

  lemma MarkedForIsSound(store: Store, getBlocks: Exchange, until: int, world: set<TipSet>, incoming: TipSet,
                         before: map<Cid, Reason>, after: map<Cid, Reason>, path: seq<TipSet>, tr: Trace, hit: Cid)
    requires MarkedFor(store, getBlocks, until, world, incoming, before, after, path, tr, hit)
    ensures MarkedSoundly(world, incoming, before, after)
  {
    var chain, accepted := Chain(incoming, tr), Accepted(incoming, tr);
    forall c | c in accepted ensures Descends(world, c, hit) {
      var i :| 0 < i < |chain| && c in chain[i].key;
      BlockDescends(world, incoming, path, i, c, hit);
    }
    LinkedMarksSound(world, incoming, before, accepted, hit, "change contained");
  }

  lemma LinkedMarksSound(world: set<TipSet>, incoming: TipSet, before: map<Cid, Reason>, cs: seq<Cid>, bad: Cid, text: string)
    requires bad in before && forall c | c in cs :: Descends(world, c, bad)
    ensures MarkedSoundly(world, incoming, before, Marked(before, cs, Linked(before[bad], text)))
  {}

  // ---------- the main loop ----------

  datatype Failure =
    | ParentBad | BeaconOrder | BeaconMismatch | ContainsBad | NoBlocks | NotConnected | NoKnownParent
    | Fork(error: ForkChoice.Error)

  datatype Stop = Whole | Below | Hit(bad: Cid)

  /** Append a fetched segment until a tipset is below `until` or has a bad block. */
  method AddSegment(bad: Cache, chain: seq<TipSet>, blks: seq<TipSet>, until: int, ghost world: set<TipSet>, ghost incoming: TipSet)
    returns (stop: Stop, out: seq<TipSet>, ghost k: nat)
    requires ChainFrom(world, incoming, chain) && CleanBelow(bad.blocks, chain)
    requires blks != [] && LinkedDown(blks) && IsChildOf(Last(chain), blks[0])
    requires forall i | 0 <= i < |blks| :: blks[i] in world
    ensures k <= |blks| && out == chain + blks[..k] && ChainFrom(world, incoming, out) && CleanBelow(bad.blocks, out)
    ensures HighEnough(blks[..k], until)
    ensures stop == Whole ==> k == |blks|
    ensures stop == Below ==> k < |blks| && blks[k].height < until
    ensures stop.Hit? ==> stop.bad in bad.blocks && stop.bad in Last(out).parents
  {
    out, k := chain, 0;
    for i := 0 to |blks|
      invariant k == i && out == chain + blks[..i] && HighEnough(blks[..i], until)
      invariant ChainFrom(world, incoming, out) && CleanBelow(bad.blocks, out)
      invariant i < |blks| ==> IsChildOf(Last(out), blks[i])
    {
      var b := blks[i];
      if b.height < until {
        return Below, out, k;
      }
      var hit := bad.FirstBad(b.key);
      if hit.Some? {
        return Hit(hit.value), out, k;
      }
      Extend(world, incoming, out, b);
      assert blks[..i + 1] == blks[..i] + [b];
      out, k := out + [b], k + 1;
      assert i + 1 < |blks| ==> IsChildOf(blks[i], blks[i + 1]);
    }
    return Whole, out, k;
  }

  method MarkAccepted(bad: Cache, hit: Cid, accepted: seq<Cid>)
    requires hit in bad.blocks
    modifies bad
    ensures bad.blocks == Marked(old(bad.blocks), accepted, Linked(old(bad.blocks)[hit], "change contained"))
  {
    var reason := bad.Has(hit);
    bad.AddAll(accepted, Linked(reason.value, "change contained"));
  }

  /** Where the loop stands. */
  ghost predicate Collecting(store: Store, getBlocks: Exchange, until: int, world: set<TipSet>, incoming: TipSet,
                             chain: seq<TipSet>, tr: Trace, accepted: seq<Cid>)
  {
    && ChainFrom(world, incoming, chain) && IsTrace(store, getBlocks, until, incoming, tr)
    && chain == Chain(incoming, tr) && accepted == Accepted(incoming, tr) && AcceptedIn(chain, accepted)
  }

  lemma LocatedLocally(store: Store, getBlocks: Exchange, until: int, world: set<TipSet>, incoming: TipSet,
                       chain: seq<TipSet>, tr: Trace, accepted: seq<Cid>)
    requires World(world) && StoreIn(world, store) && Collecting(store, getBlocks, until, world, incoming, chain, tr, accepted)
    requires Last(chain).height > until && Last(chain).parents in store
    ensures var at, ts := Last(chain).parents, store[Last(chain).parents];
            && Collecting(store, getBlocks, until, world, incoming, chain + [ts], Locate(tr, [ts]), accepted + at)
            && ts.height < Last(chain).height
  {
    var at, ts := Last(chain).parents, store[Last(chain).parents];
    assert CidArrsEqual(at, ts.key);
    Extend(world, incoming, chain, ts);
    AcceptMore(chain, [ts], accepted, at);
  }

  lemma CleanMore(blocks: map<Cid, Reason>, chain: seq<TipSet>, t: TipSet)
    requires chain != [] && CleanBelow(blocks, chain) && BadFree(blocks, t)
    ensures CleanBelow(blocks, chain + [t])
  {}

  lemma LocatedByReply(store: Store, getBlocks: Exchange, until: int, world: set<TipSet>, incoming: TipSet,
                       chain: seq<TipSet>, tr: Trace, accepted: seq<Cid>, blks: seq<TipSet>)
    requires World(world) && Collecting(store, getBlocks, until, world, incoming, chain, tr, accepted)
    requires Last(chain).height > until && Last(chain).parents !in store
    requires getBlocks(Last(chain).parents, Window(Last(chain).height - until)) == Some(blks)
    requires GoodReply(world, Last(chain).parents, Some(blks)) && IsChildOf(Last(chain), blks[0])
    requires ChainFrom(world, incoming, chain + blks) && HighEnough(blks, until)
    ensures Collecting(store, getBlocks, until, world, incoming, chain + blks, Locate(tr, blks), accepted + Last(chain).parents)
    ensures Last(chain + blks).height < Last(chain).height && Last(chain + blks) == blks[|blks| - 1]
  {
    SameCids(Last(chain).parents, blks[0].key);
    AcceptMore(chain, blks, accepted, Last(chain).parents);
    if |blks| > 1 { LinkedDescends(blks, 0, |blks| - 1); }
  }

  /** How a round of the loop ends. */
  datatype Round = GoOn | LowEnough | Fail(failure: Failure)

  /** A round that located nothing further but ran into a bad block, or failed. */
  ghost predicate FailedRound(store: Store, getBlocks: Exchange, until: int, world: set<TipSet>, incoming: TipSet,
                              failure: Failure, before: map<Cid, Reason>, after: map<Cid, Reason>,
                              path: seq<TipSet>, tr: Trace, hit: Cid)
  {
    && failure in {ContainsBad, NoBlocks, NotConnected} && IsTrace(store, getBlocks, until, incoming, tr)
    && if failure == ContainsBad then MarkedFor(store, getBlocks, until, world, incoming, before, after, path, tr, hit)
       else after == before && Stuck(store, getBlocks, until, incoming, tr, failure == NoBlocks)
  }

  /** Look for a bad block among the parents of the last tipset. */
  method RefuseBad(store: Store, bad: Cache, getBlocks: Exchange, until: int, chain: seq<TipSet>, acceptedBlocks: seq<Cid>,
                   ghost world: set<TipSet>, ghost incoming: TipSet, ghost tr: Trace)
    returns (refused: bool, ghost hit: Cid)
    requires Collecting(store, getBlocks, until, world, incoming, chain, tr, acceptedBlocks) && Last(chain).height > until
    modifies bad
    ensures refused ==>
              FailedRound(store, getBlocks, until, world, incoming, ContainsBad, old(bad.blocks), bad.blocks, chain, tr, hit)
    ensures !refused ==> bad.blocks == old(bad.blocks) && forall c | c in Last(chain).parents :: c !in bad.blocks
  {
    var first := bad.FirstBad(Last(chain).parents);
    if first.None? { return false, 0; }
    MarkAccepted(bad, first.value, acceptedBlocks);
    return true, first.value;
  }

  lemma MarkedInReply(store: Store, getBlocks: Exchange, until: int, world: set<TipSet>, incoming: TipSet, chain: seq<TipSet>,
                      tr: Trace, accepted: seq<Cid>, blks: seq<TipSet>, k: nat, before: map<Cid, Reason>, hit: Cid)
    requires Collecting(store, getBlocks, until, world, incoming, chain, tr, accepted) && k <= |blks|
    requires Last(chain).height > until && Last(chain).parents !in store
    requires getBlocks(Last(chain).parents, Window(Last(chain).height - until)) == Some(blks)
    requires ChainFrom(world, incoming, chain + blks[..k]) && hit in before && hit in Last(chain + blks[..k]).parents
    ensures MarkedFor(store, getBlocks, until, world, incoming, before,
                      Marked(before, accepted, Linked(before[hit], "change contained")), chain + blks[..k], tr, hit)
  {}

  /** Go on with the reply `blks`. */
  method AppendReply(store: Store, bad: Cache, getBlocks: Exchange, until: int, chain: seq<TipSet>, acceptedBlocks: seq<Cid>,
                     blks: seq<TipSet>, ghost world: set<TipSet>, ghost incoming: TipSet, ghost tr: Trace)
    returns (round: Round, longer: seq<TipSet>, ghost hit: Cid)
    requires World(world)
    requires Collecting(store, getBlocks, until, world, incoming, chain, tr, acceptedBlocks) && CleanBelow(bad.blocks, chain)
    requires Last(chain).height > until && Last(chain).parents !in store
    requires getBlocks(Last(chain).parents, Window(Last(chain).height - until)) == Some(blks)
    requires GoodReply(world, Last(chain).parents, Some(blks)) && IsChildOf(Last(chain), blks[0])
    modifies bad
    ensures chain <= longer && ChainFrom(world, incoming, longer)
    ensures round.Fail? ==>
              && round.failure == ContainsBad
              && MarkedFor(store, getBlocks, until, world, incoming, old(bad.blocks), bad.blocks, longer, tr, hit)
    ensures !round.Fail? ==> bad.blocks == old(bad.blocks) && CleanBelow(bad.blocks, longer)
    ensures round == LowEnough ==> EndsWith(store, getBlocks, until, incoming, tr, longer)
    ensures round == GoOn ==>
              && Collecting(store, getBlocks, until, world, incoming, longer, Locate(tr, longer[|chain|..]), acceptedBlocks + Last(chain).parents)
              && Last(longer).height < Last(chain).height
  {
    hit := 0;
    var stop;
    ghost var k;
    stop, longer, k := AddSegment(bad, chain, blks, until, world, incoming);
    if stop == Below {
      CutReply(store, getBlocks, until, incoming, tr, blks, k);
      return LowEnough, longer, hit;
    }
    if stop.Hit? {
      MarkedInReply(store, getBlocks, until, world, incoming, chain, tr, acceptedBlocks, blks, k, bad.blocks, stop.bad);
      MarkAccepted(bad, stop.bad, acceptedBlocks);
      return Fail(ContainsBad), longer, stop.bad;
    }
    assert blks[..k] == blks && longer[|chain|..] == blks;
    LocatedByReply(store, getBlocks, until, world, incoming, chain, tr, acceptedBlocks, blks);
    return GoOn, longer, hit;
  }

  /** The tipset `chain` goes on with is not stored: ask peers for a segment. */
  method FetchNext(store: Store, bad: Cache, getBlocks: Exchange, until: int, chain: seq<TipSet>, acceptedBlocks: seq<Cid>,
                   ghost world: set<TipSet>, ghost incoming: TipSet, ghost tr: Trace)
    returns (round: Round, longer: seq<TipSet>, ghost hit: Cid)
    requires World(world) && GoodExchange(world, getBlocks)
    requires Collecting(store, getBlocks, until, world, incoming, chain, tr, acceptedBlocks) && CleanBelow(bad.blocks, chain)
    requires Last(chain).height > until && Last(chain).parents !in store
    modifies bad
    ensures chain <= longer && ChainFrom(world, incoming, longer)
    ensures round.Fail? ==>
              FailedRound(store, getBlocks, until, world, incoming, round.failure, old(bad.blocks), bad.blocks, longer, tr, hit)
    ensures !round.Fail? ==> bad.blocks == old(bad.blocks) && CleanBelow(bad.blocks, longer)
    ensures round == LowEnough ==> EndsWith(store, getBlocks, until, incoming, tr, longer)
    ensures round == GoOn ==>
              && Collecting(store, getBlocks, until, world, incoming, longer, Locate(tr, longer[|chain|..]), acceptedBlocks + Last(chain).parents)
              && Last(longer).height < Last(chain).height
  {
    hit := 0;
    var at, window := Last(chain).parents, 500;
    var gap := Last(chain).height - until;
    if gap < window { window := gap; }
    var reply := getBlocks(at, window);
    assert GoodReply(world, at, reply);
    if reply.None? { return Fail(NoBlocks), chain, hit; }
    if !IsChildOf(Last(chain), reply.value[0]) { return Fail(NotConnected), chain, hit; }
    round, longer, hit := AppendReply(store, bad, getBlocks, until, chain, acceptedBlocks, reply.value, world, incoming, tr);
  }

  /** Walk back from `incoming` until just above `known`, loading locally what is
      there and fetching the rest. */
  method CollectMain(store: Store, bad: Cache, getBlocks: Exchange, incoming: TipSet, known: TipSet, ghost world: set<TipSet>)
    returns (failed: Option<Failure>, chain: seq<TipSet>, ghost tr: Trace, ghost hit: Cid)
    requires World(world) && StoreIn(world, store) && GoodExchange(world, getBlocks) && incoming in world
    modifies bad
    ensures ChainFrom(world, incoming, chain)
    ensures failed.None? ==> Gathered(store, getBlocks, known.height + 1, incoming, chain)
    ensures failed.None? ==> CleanBelow(bad.blocks, chain) && bad.blocks == old(bad.blocks)
    ensures failed.Some? ==>
              FailedRound(store, getBlocks, known.height + 1, world, incoming, failed.value, old(bad.blocks), bad.blocks, chain, tr, hit)
  {
    chain, tr, hit := [incoming], Begin, 0;
    var at := incoming.parents;
    var until := known.height + 1;
    var acceptedBlocks: seq<Cid> := [];
    while Last(chain).height > until
      invariant Collecting(store, getBlocks, until, world, incoming, chain, tr, acceptedBlocks)
      invariant CleanBelow(bad.blocks, chain) && at == Last(chain).parents && bad.blocks == old(bad.blocks)
      decreases Last(chain).height - until
    {
      var refused;
      refused, hit := RefuseBad(store, bad, getBlocks, until, chain, acceptedBlocks, world, incoming, tr);
      if refused { return Some(ContainsBad), chain, tr, hit; }

      if at in store {
        var ts := store[at];
        LocatedLocally(store, getBlocks, until, world, incoming, chain, tr, acceptedBlocks);
        CleanMore(bad.blocks, chain, ts);
        tr, acceptedBlocks := Locate(tr, [ts]), acceptedBlocks + at;
        chain, at := chain + [ts], ts.parents;
        continue;
      }

      var round, longer;
      round, longer, hit := FetchNext(store, bad, getBlocks, until, chain, acceptedBlocks, world, incoming, tr);
      if round.Fail? { return Some(round.failure), longer, tr, hit; }
      if round == LowEnough {
        EndGathers(store, getBlocks, until, incoming, tr, longer);
        return None, longer, tr, hit;
      }
      tr, acceptedBlocks := Locate(tr, longer[|chain|..]), acceptedBlocks + at;
      chain, at := longer, Last(longer).parents;
    }
    EndGathers(store, getBlocks, until, incoming, tr, chain);
    return None, chain, tr, hit;
  }

  // ---------- collectHeaders ----------

  datatype BeaconCheck = Consistent | WrongOrder | Mismatch

  datatype Headers = Collected(chain: seq<TipSet>) | Failed(failure: Failure)

  /** The last header links into our chain: a child of `known`, a child of its
      parent, or one of the ancestors of `known`. */
  ghost predicate EndsAt(store: Store, known: TipSet, last: TipSet) {
    || IsChildOf(last, known)
    || (known.parents in store && IsChildOf(last, store[known.parents]))
    || exists n | n > 0 && Reaches(store, known, n) :: Equals(Walk(store, known, n).value, last)
  }

  /** What each outcome marks bad. */
  ghost predicate MarksOf(store: Store, getBlocks: Exchange, until: int, world: set<TipSet>, incoming: TipSet, r: Headers,
                          before: map<Cid, Reason>, after: map<Cid, Reason>)
    requires incoming.key != []
  {
    if r.Collected? then after == before
    else match r.failure
      case ParentBad =>
        exists c | c in incoming.parents && c in before :: after == Marked(before, incoming.key, Linked(before[c], "linked to"))
      case BeaconOrder =>
        after == Marked(before, incoming.key[..1], NewReason(incoming.key, "wrong order of beacon entries"))
      case ContainsBad =>
        exists path, tr, cause :: MarkedFor(store, getBlocks, until, world, incoming, before, after, path, tr, cause)
      case Fork(ForkTooLong) => after == Marked(before, incoming.key, NewReason(incoming.key, "fork past finality"))
      case Fork(ForkCheckpoint) => after == Marked(before, incoming.key, NewReason(incoming.key, "fork past finality"))
      case _ => after == before
  }

  /** Whatever the outcome, what is marked is marked soundly. */
  lemma MarksAreSound(store: Store, getBlocks: Exchange, until: int, world: set<TipSet>, incoming: TipSet, r: Headers,
                      before: map<Cid, Reason>, after: map<Cid, Reason>)
    requires incoming in world && incoming.key != [] && MarksOf(store, getBlocks, until, world, incoming, r, before, after)
    ensures MarkedSoundly(world, incoming, before, after)
  {
    if r == Failed(ContainsBad) {
      var path, tr, cause :| MarkedFor(store, getBlocks, until, world, incoming, before, after, path, tr, cause);
      MarkedForIsSound(store, getBlocks, until, world, incoming, before, after, path, tr, cause);
    } else if r == Failed(ParentBad) {
      var bad :| bad in incoming.parents && bad in before && after == Marked(before, incoming.key, Linked(before[bad], "linked to"));
      forall c | c in incoming.key ensures Descends(world, c, bad) {
        BlockDescends(world, incoming, [incoming], 0, c, bad);
      }
    }
  }

  lemma MarkingKeepsFlat(before: map<Cid, Reason>, cs: seq<Cid>, r: Reason)
    requires (forall c | c in before :: Flat(before[c])) && Flat(r)
    ensures forall c | c in Marked(before, cs, r) :: Flat(Marked(before, cs, r)[c])
  {}

  /** Whatever the outcome, reasons in the cache stay linked at most once. */
  lemma MarksKeepFlat(store: Store, getBlocks: Exchange, until: int, world: set<TipSet>, incoming: TipSet, r: Headers,
                      before: map<Cid, Reason>, after: map<Cid, Reason>)
    requires incoming.key != [] && MarksOf(store, getBlocks, until, world, incoming, r, before, after)
    requires forall c | c in before :: Flat(before[c])
    ensures forall c | c in after :: Flat(after[c])
  {
    if r == Failed(ContainsBad) {
      var path, tr, cause :| MarkedFor(store, getBlocks, until, world, incoming, before, after, path, tr, cause);
      MarkingKeepsFlat(before, Accepted(incoming, tr), Linked(before[cause], "change contained"));
    } else if r == Failed(ParentBad) {
      var bad :| bad in incoming.parents && bad in before && after == Marked(before, incoming.key, Linked(before[bad], "linked to"));
      MarkingKeepsFlat(before, incoming.key, Linked(before[bad], "linked to"));
    }
  }

  /** The checks on the target itself. */
  method CheckTarget(bad: Cache, incoming: TipSet, beacon: BeaconCheck) returns (failed: Option<Failure>)
    requires incoming.key != []
    modifies bad
    ensures failed == Some(ParentBad) <==> exists c | c in incoming.parents :: c in old(bad.blocks)
    ensures failed == None ==> beacon == Consistent && bad.blocks == old(bad.blocks)
    ensures failed in {None, Some(ParentBad), Some(BeaconOrder), Some(BeaconMismatch)}
    ensures failed == Some(BeaconOrder) ==> beacon == WrongOrder
    ensures failed == Some(BeaconMismatch) ==> beacon == Mismatch
    ensures failed.Some? ==>
              forall store, getBlocks, until, world ::
                MarksOf(store, getBlocks, until, world, incoming, Failed(failed.value), old(bad.blocks), bad.blocks)
  {
    var hit := bad.FirstBad(incoming.parents);
    if hit.Some? {
      var reason := bad.Has(hit.value);
      bad.AddAll(incoming.key, Linked(reason.value, "linked to"));
      return Some(ParentBad);
    }
    if beacon == WrongOrder {
      bad.AddAll(incoming.key[..1], NewReason(incoming.key, "wrong order of beacon entries"));
      return Some(BeaconOrder);
    }
    return if beacon == Mismatch then Some(BeaconMismatch) else None;
  }

  /** The collected headers without `known` itself. */
  function Trimmed(known: TipSet, gathered: seq<TipSet>): (headers: seq<TipSet>)
    requires gathered != []
    ensures headers != [] && headers <= gathered
  {
    if |gathered| > 1 && Equals(Last(gathered), known) then gathered[..|gathered| - 1] else gathered
  }

  /** The common cases: a child of `known` or of its parent. */
  predicate Attached(store: Store, known: TipSet, base: TipSet) {
    IsChildOf(base, known) || (known.parents in store && IsChildOf(base, store[known.parents]))
  }

  /** How the result follows from the headers, of which `base` is the last. */
  ghost predicate Tied(store: Store, getBlocks: Exchange, chkpt: Key, threshold: nat, world: set<TipSet>, incoming: TipSet,
                       known: TipSet, headers: seq<TipSet>, r: Headers)
    requires headers != []
  {
    var base := Last(headers);
    match r
    case Collected(chain) =>
      && ChainFrom(world, incoming, chain) && EndsAt(store, known, Last(chain)) && headers <= chain
      && if Attached(store, known, base) then chain == headers
         else |headers| < |chain| && ByFork(store, getBlocks, chkpt, threshold, known, chain, |headers|)
    case Failed(Fork(e)) =>
      && !Attached(store, known, base) && NoFork(store, getBlocks, chkpt, threshold, known, base)
      && Justified(store, known, chkpt, threshold, getBlocks(base.parents, threshold), e)
    case Failed(failure) => failure == NoKnownParent && known.parents !in store && !Attached(store, known, base)
  }

  /** Tie the collected headers to our chain: at `known`, at its parent, or by
      what `syncFork` finds. */
  method LinkUp(store: Store, bad: Cache, getBlocks: Exchange, genesis: TipSet, chkpt: Key, threshold: nat,
                incoming: TipSet, known: TipSet, collected: seq<TipSet>, ghost world: set<TipSet>)
    returns (r: Headers)
    requires World(world) && StoreIn(world, store) && GoodExchange(world, getBlocks)
    requires known in world && incoming.key != [] && !Equals(incoming, known) && threshold > 0
    requires ChainFrom(world, incoming, collected)
    modifies bad
    ensures Tied(store, getBlocks, chkpt, threshold, world, incoming, known, Trimmed(known, collected), r)
    ensures MarksOf(store, getBlocks, known.height + 1, world, incoming, r, old(bad.blocks), bad.blocks)
  {
    var chain, base := collected, Last(collected);
    if Equals(base, known) {
      chain := chain[..|chain| - 1];
      base := Last(chain);
    }
    if IsChildOf(base, known) {
      return Collected(chain);
    }
    if known.parents !in store { return Failed(NoKnownParent); }
    if IsChildOf(base, store[known.parents]) {
      return Collected(chain);
    }
    r := LinkByFork(store, bad, getBlocks, genesis, chkpt, threshold, incoming, known, chain, world);
  }

  /** Neither `known` nor its parent continues the chain: look for a fork point. */
  method LinkByFork(store: Store, bad: Cache, getBlocks: Exchange, genesis: TipSet, chkpt: Key, threshold: nat,
                    incoming: TipSet, known: TipSet, chain: seq<TipSet>, ghost world: set<TipSet>)
    returns (r: Headers)
    requires World(world) && StoreIn(world, store) && GoodExchange(world, getBlocks)
    requires known in world && incoming.key != [] && threshold > 0 && ChainFrom(world, incoming, chain)
    requires !IsChildOf(Last(chain), known) && known.parents in store && !IsChildOf(Last(chain), store[known.parents])
    modifies bad
    ensures Tied(store, getBlocks, chkpt, threshold, world, incoming, known, chain, r)
    ensures MarksOf(store, getBlocks, known.height + 1, world, incoming, r, old(bad.blocks), bad.blocks)
  {
    StoreIsValid(world, store, known);
    var fetched := getBlocks(Last(chain).parents, threshold);
    assert GoodReply(world, Last(chain).parents, fetched);
    var fork;
    ghost var i, n;
    fork, i, n := SyncFork(store, genesis, chkpt, threshold, known, fetched);
    if fork.Err? {
      if fork.error.ForkTooLong? || fork.error.ForkCheckpoint? {
        bad.AddAll(incoming.key, NewReason(incoming.key, "fork past finality"));
      }
      return Failed(Fork(fork.error));
    }
    LinkedByFork(world, store, getBlocks, chkpt, threshold, incoming, known, chain, i, n);
    return Collected(chain + fork.tips);
  }

  /** What follows the first `main` headers is the part of the fetched fork down
      to the fork point, and there was no closer link. */
  ghost predicate ByFork(store: Store, getBlocks: Exchange, chkpt: Key, threshold: nat, known: TipSet, chain: seq<TipSet>, main: nat)
    requires 0 < main < |chain|
  {
    var base := chain[main - 1];
    var fetched := getBlocks(base.parents, threshold);
    && !IsChildOf(base, known) && known.parents in store && !IsChildOf(base, store[known.parents])
    && fetched.Some?
    && exists i, n ::
      && ForkPoint(store, known, chkpt, threshold, fetched.value, i, n)
      && NoneBefore(store, known, fetched.value, i, n)
      && chain[main..] == fetched.value[..i + 1]
  }

  /** The search for a fork point from `base` found none it may use. */
  ghost predicate NoFork(store: Store, getBlocks: Exchange, chkpt: Key, threshold: nat, known: TipSet, base: TipSet) {
    var fetched := getBlocks(base.parents, threshold);
    fetched.Some? ==> NoForkPoint(store, known, chkpt, threshold, fetched.value)
  }

  /** No tipset that our chain shares lies above position `j` of the fetched ones. */
  ghost predicate BeforeMeeting(store: Store, known: TipSet, tips: seq<TipSet>, j: nat) {
    forall i: nat, n: nat | Common(store, known, tips, i, n) :: j <= i
  }

  /** What links `base` to our chain is free of bad blocks: there is nothing in
      between, or the fetched fork is clean down to where it meets our chain. */
  ghost predicate CleanLink(store: Store, getBlocks: Exchange, threshold: nat, known: TipSet, base: TipSet, blocks: map<Cid, Reason>) {
    || Attached(store, known, base)
    || var fetched := getBlocks(base.parents, threshold);
       fetched.Some? && forall j: nat | j < |fetched.value| && BeforeMeeting(store, known, fetched.value, j) :: BadFree(blocks, fetched.value[j])
  }

  lemma MeetingIsFirst(store: Store, known: TipSet, tips: seq<TipSet>, i: nat, n: nat, j: nat)
    requires Common(store, known, tips, i, n) && NoneBefore(store, known, tips, i, n)
    ensures BeforeMeeting(store, known, tips, j) <==> j <= i
  {}

  lemma CleanAppend(blocks: map<Cid, Reason>, headers: seq<TipSet>, tips: seq<TipSet>)
    requires headers != [] && CleanBelow(blocks, headers)
    ensures CleanBelow(blocks, headers + tips) <==> forall j: nat | j < |tips| :: BadFree(blocks, tips[j])
  {
    var out := headers + tips;
    assert forall j: nat | j < |tips| :: out[|headers| + j] == tips[j];
  }

  /** Collected headers are free of bad blocks, below the target, if and only if what
      links the loop's part to our chain is. */
  lemma CleanIffLinkClean(store: Store, getBlocks: Exchange, chkpt: Key, threshold: nat, world: set<TipSet>, incoming: TipSet,
                          known: TipSet, headers: seq<TipSet>, chain: seq<TipSet>, blocks: map<Cid, Reason>)
    requires headers != [] && CleanBelow(blocks, headers)
    requires Tied(store, getBlocks, chkpt, threshold, world, incoming, known, headers, Collected(chain))
    ensures CleanBelow(blocks, chain) <==> CleanLink(store, getBlocks, threshold, known, Last(headers), blocks)
  {
    if !Attached(store, known, Last(headers)) {
      var tips := getBlocks(Last(headers).parents, threshold).value;
      var i: nat, n: nat :| && ForkPoint(store, known, chkpt, threshold, tips, i, n) && NoneBefore(store, known, tips, i, n)
                            && chain[|headers|..] == tips[..i + 1];
      assert chain == headers + tips[..i + 1];
      CleanAppend(blocks, headers, tips[..i + 1]);
      forall j: nat ensures BeforeMeeting(store, known, tips, j) <==> j <= i {
        MeetingIsFirst(store, known, tips, i, n, j);
      }
    }
  }

  predicate AllClean(blocks: map<Cid, Reason>, chain: seq<TipSet>) {
    forall i | 0 <= i < |chain| :: BadFree(blocks, chain[i])
  }

  /** The target's own blocks are not tested either, so all collected headers are free
      of bad blocks if and only if the target and the link are. */
  lemma AllCleanIff(store: Store, getBlocks: Exchange, chkpt: Key, threshold: nat, world: set<TipSet>, incoming: TipSet,
                    known: TipSet, headers: seq<TipSet>, chain: seq<TipSet>, blocks: map<Cid, Reason>)
    requires headers != [] && CleanBelow(blocks, headers)
    requires Tied(store, getBlocks, chkpt, threshold, world, incoming, known, headers, Collected(chain))
    ensures AllClean(blocks, chain) <==>
              BadFree(blocks, incoming) && CleanLink(store, getBlocks, threshold, known, Last(headers), blocks)
  {
    CleanIffLinkClean(store, getBlocks, chkpt, threshold, world, incoming, known, headers, chain, blocks);
    assert AllClean(blocks, chain) <==> BadFree(blocks, chain[0]) && CleanBelow(blocks, chain);
  }

  lemma CollectedClean(store: Store, getBlocks: Exchange, chkpt: Key, threshold: nat, world: set<TipSet>, incoming: TipSet,
                       known: TipSet, gathered: seq<TipSet>, chain: seq<TipSet>, blocks: map<Cid, Reason>)
    requires ChainFrom(world, incoming, gathered) && CleanBelow(blocks, gathered)
    requires Tied(store, getBlocks, chkpt, threshold, world, incoming, known, Trimmed(known, gathered), Collected(chain))
    ensures var link := CleanLink(store, getBlocks, threshold, known, Last(Trimmed(known, gathered)), blocks);
            && (CleanBelow(blocks, chain) <==> link)
            && (AllClean(blocks, chain) <==> BadFree(blocks, incoming) && link)
  {
    var headers := Trimmed(known, gathered);
    CleanIffLinkClean(store, getBlocks, chkpt, threshold, world, incoming, known, headers, chain, blocks);
    AllCleanIff(store, getBlocks, chkpt, threshold, world, incoming, known, headers, chain, blocks);
  }

  /** The loop of `collectHeaders` ran to its end. */
  predicate LoopEnds(r: Headers) {
    r.Collected? || r.failure == NoKnownParent || r.failure.Fork?
  }

  /** `collectHeaders`. `gathered` is what its loop gathered; `beacon` is the outcome
      of comparing beacon entries. */
  method CollectHeaders(store: Store, bad: Cache, getBlocks: Exchange, genesis: TipSet, chkpt: Key, threshold: nat,
                        incoming: TipSet, known: TipSet, beacon: BeaconCheck, ghost world: set<TipSet>)
    returns (r: Headers, ghost gathered: seq<TipSet>)
    requires World(world) && StoreIn(world, store) && GoodExchange(world, getBlocks)
    requires incoming in world && known in world && incoming.key != [] && !Equals(incoming, known) && threshold > 0
    modifies bad
    ensures LoopEnds(r) ==>
              && ChainFrom(world, incoming, gathered) && Gathered(store, getBlocks, known.height + 1, incoming, gathered)
              && CleanBelow(old(bad.blocks), gathered)
              && Tied(store, getBlocks, chkpt, threshold, world, incoming, known, Trimmed(known, gathered), r)
    ensures r.Collected? ==>
              var link := CleanLink(store, getBlocks, threshold, known, Last(Trimmed(known, gathered)), old(bad.blocks));
              && (CleanBelow(old(bad.blocks), r.chain) <==> link)
              && (AllClean(old(bad.blocks), r.chain) <==> BadFree(old(bad.blocks), incoming) && link)
    ensures r == Failed(ParentBad) <==> exists c | c in incoming.parents :: c in old(bad.blocks)
    ensures LoopEnds(r) ==> beacon == Consistent
    ensures r == Failed(BeaconOrder) ==> beacon == WrongOrder
    ensures r == Failed(BeaconMismatch) ==> beacon == Mismatch
    ensures r.Failed? && r.failure in {NoBlocks, NotConnected} ==>
              GetsStuck(store, getBlocks, known.height + 1, incoming, r.failure == NoBlocks)
    ensures MarksOf(store, getBlocks, known.height + 1, world, incoming, r, old(bad.blocks), bad.blocks)
  {
    gathered := [incoming];
    var failed := CheckTarget(bad, incoming, beacon);
    if failed.Some? { return Failed(failed.value), gathered; }
    var chain;
    ghost var tr, cause;
    failed, chain, tr, cause := CollectMain(store, bad, getBlocks, incoming, known, world);
    if failed.Some? { return Failed(failed.value), gathered; }
    gathered := chain;
    r := LinkUp(store, bad, getBlocks, genesis, chkpt, threshold, incoming, known, chain, world);
    if r.Collected? {
      CollectedClean(store, getBlocks, chkpt, threshold, world, incoming, known, chain, r.chain, old(bad.blocks));
    }
  }

  // ---------- what a refused fork marks ----------

  /** The fork was refused for its length or for the checkpoint. */
  predicate PastFinality(r: Headers) {
    r == Failed(Fork(ForkTooLong)) || r == Failed(Fork(ForkCheckpoint))
  }

  predicate AllMarked(blocks: map<Cid, Reason>, chain: seq<TipSet>) {
    forall i | 0 <= i < |chain| :: forall c | c in chain[i].key :: c in blocks
  }

  /** The tipsets `syncFork` has fetched when it refuses; at a checkpointed head it
      does not ask for any. */
  function Fetched(getBlocks: Exchange, chkpt: Key, threshold: nat, known: TipSet, base: TipSet): seq<TipSet> {
    var reply := getBlocks(base.parents, threshold);
    if known.key == chkpt || reply.None? then [] else reply.value
  }

  /** After such a refusal every block of the loop's chain is marked if and only if
      each block below the target is one of the target's own. */
  lemma SubchainMarkedIff(store: Store, getBlocks: Exchange, until: int, world: set<TipSet>, incoming: TipSet, r: Headers,
                          gathered: seq<TipSet>, before: map<Cid, Reason>, after: map<Cid, Reason>)
    requires PastFinality(r) && incoming.key != [] && MarksOf(store, getBlocks, until, world, incoming, r, before, after)
    requires gathered != [] && gathered[0] == incoming && CleanBelow(before, gathered)
    ensures AllMarked(after, gathered) <==> forall i | 0 < i < |gathered| :: forall c | c in gathered[i].key :: c in incoming.key
  {
    if AllMarked(after, gathered) {
      forall i | 0 < i < |gathered| ensures forall c | c in gathered[i].key :: c in incoming.key {
        assert BadFree(before, gathered[i]);
      }
    }
  }

  /** A block is part of tipsets of one height only, and no tipset is empty. */
  predicate BlocksHaveHeights(world: set<TipSet>) {
    && (forall t | t in world :: t.key != [])
    && (forall a, b, c | a in world && b in world && c in a.key && c in b.key :: a.height == b.height)
  }

  /** So the loop's part is marked if and only if the target is all of it, and that can
      be told from the target, our head, the store and the exchange. */
  lemma SubchainMarkedIffTargetAlone(store: Store, getBlocks: Exchange, until: int, world: set<TipSet>, incoming: TipSet, r: Headers,
                                     gathered: seq<TipSet>, before: map<Cid, Reason>, after: map<Cid, Reason>)
    requires BlocksHaveHeights(world) && GoodExchange(world, getBlocks)
    requires PastFinality(r) && incoming.key != [] && MarksOf(store, getBlocks, until, world, incoming, r, before, after)
    requires ChainFrom(world, incoming, gathered) && CleanBelow(before, gathered)
    requires Gathered(store, getBlocks, until, incoming, gathered)
    ensures AllMarked(after, gathered) <==> TargetAlone(store, getBlocks, until, incoming)
  {
    SubchainMarkedIff(store, getBlocks, until, world, incoming, r, gathered, before, after);
    forall k, n ensures getBlocks(k, n) != Some([]) {
      assert GoodReply(world, k, getBlocks(k, n));
    }
    TargetAloneIff(store, getBlocks, until, incoming, gathered);
    if |gathered| > 1 {
      LinkedDescends(gathered, 0, 1);
      var c := gathered[1].key[0];
      assert c in gathered[1].key && c !in incoming.key;
    }
  }

  lemma FetchedIsLower(world: set<TipSet>, incoming: TipSet, gathered: seq<TipSet>, tips: seq<TipSet>, i: nat)
    requires World(world) && ChainFrom(world, incoming, gathered)
    requires tips != [] && GoodReply(world, Last(gathered).parents, Some(tips)) && i < |tips|
    ensures tips[i] in world && tips[i].height < incoming.height
  {
    if |gathered| > 1 { LinkedDescends(gathered, 0, |gathered| - 1); }
    if i > 0 { LinkedDescends(tips, 0, i); }
  }

  /** Nothing fetched is newly marked: it is all marked if and only if it was before. */
  lemma FetchedMarkedIff(store: Store, getBlocks: Exchange, until: int, world: set<TipSet>, incoming: TipSet, r: Headers,
                         gathered: seq<TipSet>, tips: seq<TipSet>, before: map<Cid, Reason>, after: map<Cid, Reason>)
    requires World(world) && BlocksHaveHeights(world) && ChainFrom(world, incoming, gathered)
    requires PastFinality(r) && incoming.key != [] && MarksOf(store, getBlocks, until, world, incoming, r, before, after)
    requires tips != [] ==> GoodReply(world, Last(gathered).parents, Some(tips))
    ensures AllMarked(after, tips) <==> AllMarked(before, tips)
  {
    forall i, c | 0 <= i < |tips| && c in tips[i].key ensures c in after <==> c in before {
      FetchedIsLower(world, incoming, gathered, tips, i);
      assert c !in incoming.key;
    }
  }

  lemma MarkedJoin(blocks: map<Cid, Reason>, a: seq<TipSet>, b: seq<TipSet>)
    ensures AllMarked(blocks, a + b) <==> AllMarked(blocks, a) && AllMarked(blocks, b)
  {
    assert forall i | 0 <= i < |b| :: (a + b)[|a| + i] == b[i];
    assert forall i | 0 <= i < |a| :: (a + b)[i] == a[i];
  }

  /** A refused fork as a whole, gathered and fetched tipsets together, is marked if and
      only if the loop leaves the target alone and nothing was fetched, our head being
      the checkpoint, or all that was fetched had been marked before. */
  lemma ForkMarkedIff(store: Store, getBlocks: Exchange, chkpt: Key, threshold: nat, world: set<TipSet>, incoming: TipSet,
                      known: TipSet, r: Headers, gathered: seq<TipSet>, before: map<Cid, Reason>, after: map<Cid, Reason>)
    requires World(world) && BlocksHaveHeights(world) && GoodExchange(world, getBlocks)
    requires PastFinality(r) && incoming.key != [] && MarksOf(store, getBlocks, known.height + 1, world, incoming, r, before, after)
    requires ChainFrom(world, incoming, gathered) && CleanBelow(before, gathered)
    requires Gathered(store, getBlocks, known.height + 1, incoming, gathered)
    requires Tied(store, getBlocks, chkpt, threshold, world, incoming, known, Trimmed(known, gathered), r)
    ensures var reply := getBlocks(Last(gathered).parents, threshold);
            && (known.key == chkpt || reply.Some?)
            && (AllMarked(after, gathered + Fetched(getBlocks, chkpt, threshold, known, Last(gathered))) <==>
                && TargetAlone(store, getBlocks, known.height + 1, incoming)
                && (known.key == chkpt || AllMarked(before, reply.value)))
  {
    NothingTrimmed(store, getBlocks, chkpt, threshold, world, incoming, known, r, gathered);
    var tips := Fetched(getBlocks, chkpt, threshold, known, Last(gathered));
    assert GoodReply(world, Last(gathered).parents, getBlocks(Last(gathered).parents, threshold));
    MarkedJoin(after, gathered, tips);
    SubchainMarkedIffTargetAlone(store, getBlocks, known.height + 1, world, incoming, r, gathered, before, after);
    FetchedMarkedIff(store, getBlocks, known.height + 1, world, incoming, r, gathered, tips, before, after);
  }

  /** A chain that ends at `known` is no fork. */
  lemma NothingTrimmed(store: Store, getBlocks: Exchange, chkpt: Key, threshold: nat, world: set<TipSet>, incoming: TipSet,
                       known: TipSet, r: Headers, gathered: seq<TipSet>)
    requires PastFinality(r) && ChainFrom(world, incoming, gathered)
    requires Tied(store, getBlocks, chkpt, threshold, world, incoming, known, Trimmed(known, gathered), r)
    ensures Trimmed(known, gathered) == gathered
    ensures known.key == chkpt || getBlocks(Last(gathered).parents, threshold).Some?
  {
    if |gathered| > 1 {
      assert IsChildOf(gathered[|gathered| - 2], gathered[|gathered| - 1]);
    }
  }

  lemma LinkedByFork(world: set<TipSet>, store: Store, getBlocks: Exchange, chkpt: Key, threshold: nat, incoming: TipSet,
                     known: TipSet, chain: seq<TipSet>, i: nat, n: nat)
    requires World(world) && ChainFrom(world, incoming, chain)
    requires !IsChildOf(Last(chain), known) && known.parents in store && !IsChildOf(Last(chain), store[known.parents])
    requires var fetched := getBlocks(Last(chain).parents, threshold);
             && fetched.Some? && GoodReply(world, Last(chain).parents, fetched)
             && ForkPoint(store, known, chkpt, threshold, fetched.value, i, n) && NoneBefore(store, known, fetched.value, i, n)
    ensures var out := chain + getBlocks(Last(chain).parents, threshold).value[..i + 1];
            && ChainFrom(world, incoming, out) && EndsAt(store, known, Last(out)) && out[..|chain|] == chain
            && ByFork(store, getBlocks, chkpt, threshold, known, out, |chain|)
  {}
}
