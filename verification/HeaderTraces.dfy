/** What the loop of `collectHeaders` goes through: stored tipsets and replies in
    turn, down to just above our head. */
module HeaderTraces {
  import opened Options
  import opened TipSets
  import opened ForkChoice

  type Exchange = (Key, nat) -> Option<seq<TipSet>>

  function Last(chain: seq<TipSet>): TipSet
    requires chain != []
  {
    chain[|chain| - 1]
  }

  /** How the loop came by a chain: the target, then segments located one after the
      other, each from the store or as one reply. */
  datatype Trace = Begin | Locate(before: Trace, segment: seq<TipSet>)

  function Chain(incoming: TipSet, tr: Trace): (chain: seq<TipSet>)
    ensures chain != []
  {
    if tr.Begin? then [incoming] else Chain(incoming, tr.before) + tr.segment
  }

  /** The keys the segments were located by. */
  function Accepted(incoming: TipSet, tr: Trace): seq<Cid> {
    if tr.Begin? then [] else Accepted(incoming, tr.before) + Last(Chain(incoming, tr.before)).parents
  }

  function Window(gap: int): nat
    requires gap > 0
  {
    if gap < 500 then gap else 500
  }

  predicate IsTrace(store: Store, getBlocks: Exchange, until: int, incoming: TipSet, tr: Trace) {
    tr.Locate? ==>
      && IsTrace(store, getBlocks, until, incoming, tr.before)
      && var last := Last(Chain(incoming, tr.before));
      && last.height > until
      && if last.parents in store then tr.segment == [store[last.parents]]
         else getBlocks(last.parents, Window(last.height - until)) == Some(tr.segment) && HighEnough(tr.segment, until)
  }

  predicate HighEnough(tips: seq<TipSet>, until: int) {
    forall i | 0 <= i < |tips| :: tips[i].height >= until
  }

  /** The loop ends with `gathered`: a segment reached down to `until`, or the last
      reply goes below it and only its upper part is taken. */
  predicate EndsWith(store: Store, getBlocks: Exchange, until: int, incoming: TipSet, tr: Trace, gathered: seq<TipSet>) {
    var chain := Chain(incoming, tr);
    if Last(chain).height <= until then gathered == chain
    else
      && Last(chain).parents !in store
      && var reply := getBlocks(Last(chain).parents, Window(Last(chain).height - until));
      && reply.Some?
      && |chain| <= |gathered| < |chain| + |reply.value|
      && gathered == chain + reply.value[..|gathered| - |chain|]
      && HighEnough(gathered[|chain|..], until)
      && reply.value[|gathered| - |chain|].height < until
  }

  /** What the loop gathers if nothing stops it. It does not depend on the cache. */
  ghost predicate Gathered(store: Store, getBlocks: Exchange, until: int, incoming: TipSet, gathered: seq<TipSet>) {
    exists tr :: IsTrace(store, getBlocks, until, incoming, tr) && EndsWith(store, getBlocks, until, incoming, tr, gathered)
  }

  /** The loop is past `tr`, with `path`: nothing more, or the beginning of a reply. */
  predicate Under(store: Store, getBlocks: Exchange, until: int, incoming: TipSet, tr: Trace, path: seq<TipSet>) {
    var chain := Chain(incoming, tr);
    && Last(chain).height > until
    && (path == chain ||
        (&& Last(chain).parents !in store
         && var reply := getBlocks(Last(chain).parents, Window(Last(chain).height - until));
         && reply.Some? && |chain| <= |path| <= |chain| + |reply.value|
         && path == chain + reply.value[..|path| - |chain|]))
  }

  /** The request comes back without a reply, or with one that does not connect. */
  predicate Stuck(store: Store, getBlocks: Exchange, until: int, incoming: TipSet, tr: Trace, unanswered: bool) {
    var last := Last(Chain(incoming, tr));
    && last.height > until && last.parents !in store
    && var reply := getBlocks(last.parents, Window(last.height - until));
    && if unanswered then reply.None? else reply.Some? && reply.value != [] && !IsChildOf(last, reply.value[0])
  }

  lemma EndGathers(store: Store, getBlocks: Exchange, until: int, incoming: TipSet, tr: Trace, gathered: seq<TipSet>)
    requires IsTrace(store, getBlocks, until, incoming, tr)
    requires EndsWith(store, getBlocks, until, incoming, tr, gathered) || (gathered == Chain(incoming, tr) && Last(gathered).height <= until)
    ensures Gathered(store, getBlocks, until, incoming, gathered)
  {}

  ghost predicate GetsStuck(store: Store, getBlocks: Exchange, until: int, incoming: TipSet, unanswered: bool) {
    exists tr :: IsTrace(store, getBlocks, until, incoming, tr) && Stuck(store, getBlocks, until, incoming, tr, unanswered)
  }

  function Depth(tr: Trace): nat {
    if tr.Begin? then 0 else Depth(tr.before) + 1
  }

  function Cut(tr: Trace, d: nat): Trace
    requires d <= Depth(tr)
  {
    if Depth(tr) == d then tr else Cut(tr.before, d)
  }

  lemma {:induction false} SameDepth(store: Store, getBlocks: Exchange, until: int, incoming: TipSet, a: Trace, b: Trace)
    requires IsTrace(store, getBlocks, until, incoming, a) && IsTrace(store, getBlocks, until, incoming, b)
    requires Depth(a) == Depth(b)
    ensures a == b
  {
    if a.Locate? {
      SameDepth(store, getBlocks, until, incoming, a.before, b.before);
    }
  }

  /** A trace that goes on past depth `d` does so by a stored tipset or a whole
      reply, from a tipset above `until`. */
  lemma {:induction false} GoesOn(store: Store, getBlocks: Exchange, until: int, incoming: TipSet, tr: Trace, d: nat)
    requires IsTrace(store, getBlocks, until, incoming, tr) && d < Depth(tr)
    ensures Depth(Cut(tr, d)) == d && IsTrace(store, getBlocks, until, incoming, Cut(tr, d))
    ensures var last := Last(Chain(incoming, Cut(tr, d)));
            && last.height > until
            && (last.parents !in store ==>
                  var reply := getBlocks(last.parents, Window(last.height - until)); reply.Some? && HighEnough(reply.value, until))
  {
    if d < Depth(tr) - 1 {
      GoesOn(store, getBlocks, until, incoming, tr.before, d);
    }
  }

  lemma DeeperNotEnded(store: Store, getBlocks: Exchange, until: int, incoming: TipSet, a: Trace, b: Trace, ga: seq<TipSet>)
    requires IsTrace(store, getBlocks, until, incoming, a) && EndsWith(store, getBlocks, until, incoming, a, ga)
    requires IsTrace(store, getBlocks, until, incoming, b)
    ensures Depth(a) >= Depth(b)
  {
    if Depth(a) < Depth(b) {
      GoesOn(store, getBlocks, until, incoming, b, Depth(a));
      SameDepth(store, getBlocks, until, incoming, a, Cut(b, Depth(a)));
    }
  }

  lemma NotLonger(store: Store, getBlocks: Exchange, until: int, incoming: TipSet, tr: Trace, a: seq<TipSet>, b: seq<TipSet>)
    requires EndsWith(store, getBlocks, until, incoming, tr, a) && EndsWith(store, getBlocks, until, incoming, tr, b)
    ensures |a| <= |b|
  {}

  lemma SameEnd(store: Store, getBlocks: Exchange, until: int, incoming: TipSet, tr: Trace, a: seq<TipSet>, b: seq<TipSet>)
    requires EndsWith(store, getBlocks, until, incoming, tr, a) && EndsWith(store, getBlocks, until, incoming, tr, b)
    ensures a == b
  {
    NotLonger(store, getBlocks, until, incoming, tr, a, b);
    NotLonger(store, getBlocks, until, incoming, tr, b, a);
  }

  lemma SameTrace(store: Store, getBlocks: Exchange, until: int, incoming: TipSet, ta: Trace, tb: Trace, a: seq<TipSet>, b: seq<TipSet>)
    requires IsTrace(store, getBlocks, until, incoming, ta) && EndsWith(store, getBlocks, until, incoming, ta, a)
    requires IsTrace(store, getBlocks, until, incoming, tb) && EndsWith(store, getBlocks, until, incoming, tb, b)
    ensures ta == tb
  {
    DeeperNotEnded(store, getBlocks, until, incoming, ta, tb, a);
    DeeperNotEnded(store, getBlocks, until, incoming, tb, ta, b);
    SameDepth(store, getBlocks, until, incoming, ta, tb);
  }

  /** What the loop gathers is determined by the store, the exchange, the target and
      our head. */
  lemma GatheredOnce(store: Store, getBlocks: Exchange, until: int, incoming: TipSet, a: seq<TipSet>, b: seq<TipSet>)
    requires Gathered(store, getBlocks, until, incoming, a) && Gathered(store, getBlocks, until, incoming, b)
    ensures a == b
  {
    var ta :| IsTrace(store, getBlocks, until, incoming, ta) && EndsWith(store, getBlocks, until, incoming, ta, a);
    var tb :| IsTrace(store, getBlocks, until, incoming, tb) && EndsWith(store, getBlocks, until, incoming, tb, b);
    SameTrace(store, getBlocks, until, incoming, ta, tb, a, b);
    SameEnd(store, getBlocks, until, incoming, ta, a, b);
  }

  /** The last reply is cut at its first tipset below `until`. */
  lemma CutReply(store: Store, getBlocks: Exchange, until: int, incoming: TipSet, tr: Trace, blks: seq<TipSet>, k: nat)
    requires var last := Last(Chain(incoming, tr));
             && last.height > until && last.parents !in store
             && getBlocks(last.parents, Window(last.height - until)) == Some(blks)
    requires k < |blks| && HighEnough(blks[..k], until) && blks[k].height < until
    ensures EndsWith(store, getBlocks, until, incoming, tr, Chain(incoming, tr) + blks[..k])
  {
    var chain := Chain(incoming, tr);
    assert (chain + blks[..k])[|chain|..] == blks[..k];
  }

  lemma {:induction false} SegmentsLengthen(store: Store, getBlocks: Exchange, until: int, incoming: TipSet, tr: Trace)
    requires IsTrace(store, getBlocks, until, incoming, tr) && forall k, n :: getBlocks(k, n) != Some([])
    ensures |Chain(incoming, tr)| > Depth(tr)
  {
    if tr.Locate? {
      SegmentsLengthen(store, getBlocks, until, incoming, tr.before);
    }
  }

  predicate TargetAlone(store: Store, getBlocks: Exchange, until: int, incoming: TipSet) {
    || incoming.height <= until
    || (&& incoming.parents !in store
        && var reply := getBlocks(incoming.parents, Window(incoming.height - until));
        reply.Some? && reply.value != [] && reply.value[0].height < until)
  }

  lemma AloneIsGathered(store: Store, getBlocks: Exchange, until: int, incoming: TipSet)
    requires TargetAlone(store, getBlocks, until, incoming)
    ensures Gathered(store, getBlocks, until, incoming, [incoming])
  {
    assert Chain(incoming, Begin) == [incoming];
    if incoming.height > until {
      CutReply(store, getBlocks, until, incoming, Begin, getBlocks(incoming.parents, Window(incoming.height - until)).value, 0);
      assert [incoming] + [] == [incoming];
    }
    assert IsTrace(store, getBlocks, until, incoming, Begin) && EndsWith(store, getBlocks, until, incoming, Begin, [incoming]);
  }

  lemma EndedAtOnce(store: Store, getBlocks: Exchange, until: int, incoming: TipSet, gathered: seq<TipSet>)
    requires EndsWith(store, getBlocks, until, incoming, Begin, gathered) && |gathered| == 1
    ensures TargetAlone(store, getBlocks, until, incoming)
  {}

  /** The loop leaves the target alone on its chain exactly if the target is low
      enough or the first tipset fetched for it is too low. */
  lemma TargetAloneIff(store: Store, getBlocks: Exchange, until: int, incoming: TipSet, gathered: seq<TipSet>)
    requires Gathered(store, getBlocks, until, incoming, gathered) && forall k, n :: getBlocks(k, n) != Some([])
    ensures |gathered| == 1 <==> TargetAlone(store, getBlocks, until, incoming)
  {
    if TargetAlone(store, getBlocks, until, incoming) {
      AloneIsGathered(store, getBlocks, until, incoming);
      GatheredOnce(store, getBlocks, until, incoming, gathered, [incoming]);
    }
    if |gathered| == 1 {
      var tr :| IsTrace(store, getBlocks, until, incoming, tr) && EndsWith(store, getBlocks, until, incoming, tr, gathered);
      SegmentsLengthen(store, getBlocks, until, incoming, tr);
      assert tr == Begin;
      EndedAtOnce(store, getBlocks, until, incoming, gathered);
    }
  }
}
