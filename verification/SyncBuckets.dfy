/** Buckets of related tipsets, and the bucket sets the scheduler queues work in.
    The functions specify the operations on values; the class updates a bucket
    set in place and is proved against them. */
module SyncBuckets {
  import opened Options
  import opened TipSets

  type Bucket = seq<TipSet>

  // ---------- relatedness ----------

  /** Parent and child, in either direction. */
  predicate Linked(a: TipSet, b: TipSet) {
    a.key == b.parents || a.parents == b.key
  }

  predicate Related(a: TipSet, b: TipSet) {
    Equals(a, b) || Linked(a, b)
  }

  predicate SameChain(b: Bucket, ts: TipSet) {
    exists i | 0 <= i < |b| :: Related(ts, b[i])
  }

  predicate RelatedToAny(bs: seq<Bucket>, ts: TipSet) {
    exists i | 0 <= i < |bs| :: SameChain(bs[i], ts)
  }

  predicate Holds(b: Bucket, ts: TipSet) {
    exists i | 0 <= i < |b| :: Equals(b[i], ts)
  }

  // ---------- specification functions ----------

  function Add(b: Bucket, ts: TipSet): Bucket {
    if Holds(b, ts) then b else b + [ts]
  }

  /** The first bucket `ts` belongs to, or the number of buckets. */
  function FirstRelated(bs: seq<Bucket>, ts: TipSet): (i: nat)
    ensures i <= |bs|
    ensures i < |bs| ==> SameChain(bs[i], ts)
    ensures forall j | 0 <= j < i :: !SameChain(bs[j], ts)
  {
    if bs == [] then 0
    else if SameChain(bs[0], ts) then 0
    else
      var i := FirstRelated(bs[1..], ts);
      assert forall j | 0 < j < i + 1 :: bs[j] == bs[1..][j - 1];
      i + 1
  }

  function Insert(bs: seq<Bucket>, ts: TipSet): seq<Bucket> {
    var i := FirstRelated(bs, ts);
    if i < |bs| then bs[i := Add(bs[i], ts)] else bs + [[ts]]
  }

  /** The position of the first tip of greatest weight. */
  function FirstMax(b: Bucket): (i: nat)
    requires b != []
    ensures i < |b|
  {
    if |b| == 1 then 0
    else
      var i := FirstMax(b[..|b| - 1]);
      if IsHeavier(b[|b| - 1], b[i]) then |b| - 1 else i
  }

  /** The first tip of greatest weight. */
  function HeaviestTip(b: Bucket): (h: TipSet)
    requires b != []
    ensures h in b
  {
    b[FirstMax(b)]
  }

  lemma {:induction false} FirstMaxIsMax(b: Bucket, k: nat)
    requires k < |b|
    ensures b[k].weight <= b[FirstMax(b)].weight
    ensures k < FirstMax(b) ==> b[k].weight < b[FirstMax(b)].weight
  {
    if |b| > 1 {
      var front := b[..|b| - 1];
      FirstMaxIsMax(front, FirstMax(front));
      if k < |front| {
        FirstMaxIsMax(front, k);
      }
    }
  }

  lemma FirstMaxStep(b: Bucket, i: nat)
    requires 0 < i < |b|
    ensures var m := FirstMax(b[..i]);
            FirstMax(b[..i + 1]) == if b[i].weight > b[m].weight then i else m
  {
    assert b[..i + 1][..i] == b[..i];
  }

  predicate NonEmpty(bs: seq<Bucket>) {
    forall i | 0 <= i < |bs| :: bs[i] != []
  }

  /** The heaviest tip of each bucket. */
  function Tops(bs: seq<Bucket>): (r: Bucket)
    requires NonEmpty(bs)
    ensures |r| == |bs|
  {
    seq(|bs|, i requires 0 <= i < |bs| => HeaviestTip(bs[i]))
  }

  /** The index of the first bucket whose heaviest tip is heaviest of all. */
  function Best(bs: seq<Bucket>): (i: nat)
    requires bs != [] && NonEmpty(bs)
    ensures i < |bs|
  {
    FirstMax(Tops(bs))
  }

  function Without(bs: seq<Bucket>, i: nat): seq<Bucket>
    requires i < |bs|
  {
    bs[..i] + bs[i + 1..]
  }

  /** The tips of every bucket related to `ts`, in order. */
  function RelatedTips(bs: seq<Bucket>, ts: TipSet): Bucket {
    if bs == [] then []
    else
      var front := RelatedTips(bs[..|bs| - 1], ts);
      if SameChain(bs[|bs| - 1], ts) then front + bs[|bs| - 1] else front
  }

  function Unrelated(bs: seq<Bucket>, ts: TipSet): seq<Bucket> {
    if bs == [] then []
    else
      var front := Unrelated(bs[..|bs| - 1], ts);
      if SameChain(bs[|bs| - 1], ts) then front else front + [bs[|bs| - 1]]
  }

  /** What `PopRelated` hands out: nothing, or the related buckets merged. */
  function PoppedRelated(bs: seq<Bucket>, ts: TipSet): (r: Option<Bucket>)
    ensures r.Some? ==> r.value != []
  {
    RelatedTipsNonEmpty(bs, ts);
    if RelatedToAny(bs, ts) then Some(RelatedTips(bs, ts)) else None
  }

  function Heaviest(bs: seq<Bucket>): Option<TipSet>
    requires NonEmpty(bs)
  {
    if bs == [] then None else Some(HeaviestTip(Tops(bs)))
  }

  // ---------- contents ----------

  function Tips(bs: seq<Bucket>): Bucket {
    if bs == [] then [] else Tips(bs[..|bs| - 1]) + bs[|bs| - 1]
  }

  lemma {:induction false} TipsConcat(a: seq<Bucket>, b: seq<Bucket>)
    ensures Tips(a + b) == Tips(a) + Tips(b)
  {
    if b == [] {
      assert a + b == a;
    } else {
      var front, last := b[..|b| - 1], b[|b| - 1];
      assert (a + b)[..|a + b| - 1] == a + front;
      TipsConcat(a, front);
    }
  }

  lemma {:induction false} TipsAt(bs: seq<Bucket>, i: nat)
    requires i < |bs|
    ensures Tips(bs) == Tips(bs[..i]) + bs[i] + Tips(bs[i + 1..])
  {
    assert bs == bs[..i + 1] + bs[i + 1..];
    TipsConcat(bs[..i + 1], bs[i + 1..]);
    assert bs[..i + 1][..i] == bs[..i];
  }

  lemma {:induction false} TipOfBucket(bs: seq<Bucket>, ts: TipSet)
    ensures ts in Tips(bs) <==> exists i | 0 <= i < |bs| :: ts in bs[i]
  {
    if bs != [] {
      var front := bs[..|bs| - 1];
      TipOfBucket(front, ts);
      assert forall i | 0 <= i < |front| :: bs[i] == front[i];
    }
  }

  /** Taking a bucket out splits the tips exactly. */
  lemma PopSplits(bs: seq<Bucket>, i: nat)
    requires i < |bs|
    ensures multiset(Tips(bs)) == multiset(bs[i]) + multiset(Tips(Without(bs, i)))
  {
    TipsAt(bs, i);
    TipsConcat(bs[..i], bs[i + 1..]);
  }

  /** `PopRelated` splits the tips exactly and leaves nothing related behind. */
  lemma {:induction false} PopRelatedSplits(bs: seq<Bucket>, ts: TipSet)
    ensures multiset(Tips(bs)) == multiset(RelatedTips(bs, ts)) + multiset(Tips(Unrelated(bs, ts)))
  {
    if bs != [] {
      var front, last := bs[..|bs| - 1], bs[|bs| - 1];
      PopRelatedSplits(front, ts);
      if SameChain(last, ts) {
      } else {
        TipsConcat(Unrelated(front, ts), [last]);
        assert Tips([last]) == last;
      }
    }
  }

  /** Nothing related is left behind. */
  lemma {:induction false} PopRelatedTakesAll(bs: seq<Bucket>, ts: TipSet)
    ensures !RelatedToAny(Unrelated(bs, ts), ts)
    ensures forall b | b in Unrelated(bs, ts) :: b in bs
    ensures forall t | t in Tips(bs) && Related(ts, t) :: t in RelatedTips(bs, ts)
  {
    if bs != [] {
      PopRelatedTakesAll(bs[..|bs| - 1], ts);
    }
  }

  /** Inserting adds the tip unless its bucket already holds an equal one. */
  lemma InsertConserves(bs: seq<Bucket>, ts: TipSet)
    ensures var i := FirstRelated(bs, ts);
            multiset(Tips(Insert(bs, ts))) ==
            multiset(Tips(bs)) + (if i < |bs| && Holds(bs[i], ts) then multiset{} else multiset{ts})
  {
    var i := FirstRelated(bs, ts);
    if i < |bs| {
      var out := Insert(bs, ts);
      TipsAt(bs, i);
      TipsAt(out, i);
      assert out[..i] == bs[..i] && out[i + 1..] == bs[i + 1..];
    } else {
      TipsConcat(bs, [[ts]]);
      assert Tips([[ts]]) == [ts];
    }
  }

  /** `Heaviest` and `Pop` are global maxima over every tip of every bucket. */
  lemma BestIsGlobalMaximum(bs: seq<Bucket>)
    requires bs != [] && NonEmpty(bs)
    ensures HeaviestTip(bs[Best(bs)]) in Tips(bs)
    ensures forall t | t in Tips(bs) :: t.weight <= HeaviestTip(bs[Best(bs)]).weight
    ensures Heaviest(bs) == Some(HeaviestTip(bs[Best(bs)]))
  {
    TipOfBucket(bs, HeaviestTip(bs[Best(bs)]));
    var top := Tops(bs)[Best(bs)];
    forall t | t in Tips(bs) ensures t.weight <= top.weight {
      TipOfBucket(bs, t);
      var i :| 0 <= i < |bs| && t in bs[i];
      var k :| 0 <= k < |bs[i]| && t == bs[i][k];
      FirstMaxIsMax(bs[i], k);
      FirstMaxIsMax(Tops(bs), i);
      assert t.weight <= Tops(bs)[i].weight;
    }
  }

  // ---------- bucket shape ----------

  /** A bucket is non-empty, holds no two equal tips, and every tip but the first
      is a parent or a child of an earlier one. */
  predicate WellFormed(b: Bucket) {
    && b != []
    && (forall i, j | 0 <= i < j < |b| :: !Equals(b[i], b[j]))
    && (forall i | 0 < i < |b| :: LinkedToEarlier(b, i))
  }

  predicate LinkedToEarlier(b: Bucket, i: nat)
    requires i < |b|
  {
    exists j | 0 <= j < i :: Linked(b[i], b[j])
  }

  predicate AllWellFormed(bs: seq<Bucket>) {
    forall i | 0 <= i < |bs| :: WellFormed(bs[i])
  }

  lemma AddKeepsShape(b: Bucket, ts: TipSet)
    requires WellFormed(b) && SameChain(b, ts)
    ensures WellFormed(Add(b, ts))
  {
    var out := Add(b, ts);
    if !Holds(b, ts) {
      var j :| 0 <= j < |b| && Related(ts, b[j]);
      assert !Equals(b[j], ts);
      assert Linked(out[|b|], out[j]);
      assert LinkedToEarlier(out, |b|);
      forall i | 0 < i < |b| ensures LinkedToEarlier(out, i) {
        assert LinkedToEarlier(b, i);
        var k :| 0 <= k < i && Linked(b[i], b[k]);
        assert Linked(out[i], out[k]);
      }
    }
  }

  lemma InsertKeepsShape(bs: seq<Bucket>, ts: TipSet)
    requires AllWellFormed(bs)
    ensures AllWellFormed(Insert(bs, ts))
    ensures RelatedToAny(bs, ts) ==> |Insert(bs, ts)| == |bs|
    ensures forall i | 0 <= i < |bs| :: bs[i] <= Insert(bs, ts)[i]
    ensures exists i | 0 <= i < |Insert(bs, ts)| :: Holds(Insert(bs, ts)[i], ts)
  {
    var i, out := FirstRelated(bs, ts), Insert(bs, ts);
    if i < |bs| {
      AddKeepsShape(bs[i], ts);
      if !Holds(bs[i], ts) {
        assert Equals(out[i][|bs[i]|], ts);
      }
      assert Holds(out[i], ts);
    } else {
      assert Equals(out[|bs|][0], ts);
      assert Holds(out[|bs|], ts);
    }
  }

  lemma PopKeepsShape(bs: seq<Bucket>, i: nat)
    requires AllWellFormed(bs) && i < |bs|
    ensures AllWellFormed(Without(bs, i))
  {}

  lemma PopRelatedKeepsShape(bs: seq<Bucket>, ts: TipSet)
    requires AllWellFormed(bs)
    ensures AllWellFormed(Unrelated(bs, ts))
    ensures RelatedToAny(bs, ts) <==> RelatedTips(bs, ts) != []
  {}

  lemma {:induction false} RelatedTipsNonEmpty(bs: seq<Bucket>, ts: TipSet)
    ensures RelatedToAny(bs, ts) <==> RelatedTips(bs, ts) != []
  {
    if bs != [] {
      var front := bs[..|bs| - 1];
      RelatedTipsNonEmpty(front, ts);
      assert forall i | 0 <= i < |front| :: bs[i] == front[i];
    }
  }

  // ---------- the bucket set, updated in place ----------

  method TipSameChain(b: Bucket, ts: TipSet) returns (r: bool)
    ensures r == SameChain(b, ts)
  {
    for i := 0 to |b|
      invariant forall k | 0 <= k < i :: !Related(ts, b[k])
    {
      var t := b[i];
      if Equals(ts, t) { return true; }
      if ts.key == t.parents { return true; }
      if ts.parents == t.key { return true; }
    }
    return false;
  }

  method AddTip(b: Bucket, ts: TipSet) returns (r: Bucket)
    ensures r == Add(b, ts)
  {
    for i := 0 to |b|
      invariant forall k | 0 <= k < i :: !Equals(b[k], ts)
    {
      if Equals(b[i], ts) { return b; }
    }
    return b + [ts];
  }

  method HeaviestTipSet(b: Bucket) returns (best: Option<TipSet>)
    ensures best == if b == [] then None else Some(HeaviestTip(b))
  {
    best := None;
    for i := 0 to |b|
      invariant best == if i == 0 then None else Some(HeaviestTip(b[..i]))
    {
      if i > 0 { FirstMaxStep(b, i); }
      if best == None || b[i].weight > best.value.weight {
        best := Some(b[i]);
      }
    }
    assert b[..|b|] == b;
  }

  class BucketSet {
    var buckets: seq<Bucket>

    constructor ()
      ensures buckets == []
    {
      buckets := [];
    }

    method AnyRelated(ts: TipSet) returns (r: bool)
      ensures r == RelatedToAny(buckets, ts)
    {
      for i := 0 to |buckets|
        invariant forall k | 0 <= k < i :: !SameChain(buckets[k], ts)
      {
        var same := TipSameChain(buckets[i], ts);
        if same { return true; }
      }
      return false;
    }

    method InsertTip(ts: TipSet)
      modifies this
      ensures buckets == Insert(old(buckets), ts)
    {
      for i := 0 to |buckets|
        invariant buckets == old(buckets)
        invariant forall k | 0 <= k < i :: !SameChain(buckets[k], ts)
      {
        var same := TipSameChain(buckets[i], ts);
        if same {
          var b := AddTip(buckets[i], ts);
          assert FirstRelated(buckets, ts) == i;
          buckets := buckets[i := b];
          return;
        }
      }
      assert FirstRelated(buckets, ts) == |buckets|;
      var b := AddTip([], ts);
      assert !Holds([], ts) && b == [ts];
      buckets := buckets + [b];
    }

    /** The source compares bucket pointers; here a bucket is its position. */
    method RemoveBucket(at: nat)
      requires at < |buckets|
      modifies this
      ensures buckets == Without(old(buckets), at)
    {
      var kept := [];
      for i := 0 to |buckets|
        invariant buckets == old(buckets)
        invariant kept == if i <= at then buckets[..i] else buckets[..at] + buckets[at + 1..i]
      {
        if i != at { kept := kept + [buckets[i]]; }
      }
      buckets := kept;
    }

    method BestBucket() returns (best: nat)
      requires buckets != [] && NonEmpty(buckets)
      ensures best == Best(buckets)
    {
      ghost var tops := Tops(buckets);
      best := 0;
      var bestTs := None;
      for i := 0 to |buckets|
        invariant i == 0 ==> bestTs == None
        invariant i > 0 ==> best == FirstMax(tops[..i]) && bestTs == Some(tops[best])
      {
        if i > 0 { FirstMaxStep(tops, i); }
        var hts := HeaviestTipSet(buckets[i]);
        assert hts == Some(tops[i]);
        if bestTs == None || bestTs.value.weight < hts.value.weight {
          best, bestTs := i, hts;
        }
      }
      assert tops[..|tops|] == tops;
    }

    method Pop() returns (b: Bucket)
      requires buckets != [] && NonEmpty(buckets)
      modifies this
      ensures b == old(buckets)[Best(old(buckets))]
      ensures buckets == Without(old(buckets), Best(old(buckets)))
    {
      var best := BestBucket();
      b := buckets[best];
      RemoveBucket(best);
    }

    method PopRelated(ts: TipSet) returns (out: Option<Bucket>)
      modifies this
      ensures out == PoppedRelated(old(buckets), ts)
      ensures buckets == Unrelated(old(buckets), ts)
    {
      out := None;
      var all, kept := buckets, 0;
      assert all[0..] == all;
      for i := 0 to |all|
        invariant kept == |Unrelated(all[..i], ts)|
        invariant buckets == Unrelated(all[..i], ts) + all[i..]
        invariant out == PoppedRelated(all[..i], ts)
      {
        ghost var gone := Unrelated(all[..i], ts);
        var same := TipSameChain(all[i], ts);
        RelatedUpTo(all, i, ts);
        SkipOne(gone, all, i);
        if same {
          RemoveBucket(kept);
          out := Some((if out == None then [] else out.value) + all[i]);
        } else {
          kept := kept + 1;
        }
      }
      assert all[..|all|] == all;
    }

    method HeaviestOfAll() returns (best: Option<TipSet>)
      requires NonEmpty(buckets)
      ensures best == Heaviest(buckets)
    {
      ghost var tops := Tops(buckets);
      best := None;
      for i := 0 to |buckets|
        invariant best == if i == 0 then None else Some(HeaviestTip(tops[..i]))
      {
        if i > 0 { FirstMaxStep(tops, i); }
        var hts := HeaviestTipSet(buckets[i]);
        assert hts == Some(tops[i]);
        if best == None || hts.value.weight > best.value.weight {
          best := hts;
        }
      }
      assert tops[..|tops|] == tops;
    }
  }

  /** One more bucket in the `PopRelated` loop. */
  lemma {:induction false} RelatedUpTo(all: seq<Bucket>, i: nat, ts: TipSet)
    requires i < |all|
    ensures PoppedRelated(all[..i + 1], ts) ==
            if SameChain(all[i], ts)
            then Some((if PoppedRelated(all[..i], ts) == None then [] else PoppedRelated(all[..i], ts).value) + all[i])
            else PoppedRelated(all[..i], ts)
    ensures Unrelated(all[..i + 1], ts) ==
            if SameChain(all[i], ts) then Unrelated(all[..i], ts) else Unrelated(all[..i], ts) + [all[i]]
  {
    assert all[..i + 1][..i] == all[..i];
    RelatedTipsNonEmpty(all[..i], ts);
    assert forall k | 0 <= k < i :: all[..i + 1][k] == all[..i][k];
    assert all[..i + 1][i] == all[i];
  }

  lemma SkipOne(front: seq<Bucket>, all: seq<Bucket>, i: nat)
    requires i < |all|
    ensures Without(front + all[i..], |front|) == front + all[i + 1..]
    ensures front + all[i..] == (front + [all[i]]) + all[i + 1..]
  {}
}
