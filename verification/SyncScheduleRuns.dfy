/** What the scheduler does and does not promise about queued heads: the initial
    target, what becomes of peer heads and of deferred targets. */
module SyncScheduleRuns {
  import opened Options
  import opened TipSets
  import opened SyncBuckets
  import opened SyncSchedule

  // ---------- the initial target ----------

  /** Nothing but heads gets into the buckets. */
  lemma {:induction false} InsertAllOnlyHeads(ids: seq<PeerId>, heads: map<PeerId, TipSet>)
    requires forall p | p in ids :: p in heads
    ensures forall t | t in Tips(InsertAll(ids, heads)) :: exists p | p in ids :: heads[p] == t
  {
    if ids != [] {
      var front, p := ids[..|ids| - 1], ids[|ids| - 1];
      InsertAllOnlyHeads(front, heads);
      var bs, ts := InsertAll(front, heads), heads[p];
      InsertConserves(bs, ts);
      var out := Insert(bs, ts);
      forall t | t in Tips(out) ensures exists q | q in ids :: heads[q] == t {
        assert t in multiset(Tips(out));
        if t in Tips(bs) {
          var q :| q in front && heads[q] == t;
          assert q in ids;
        } else {
          assert t == ts && p in ids;
        }
      }
    }
  }

  lemma InsertKeepsTips(bs: seq<Bucket>, ts: TipSet, t: TipSet)
    requires t in Tips(bs)
    ensures t in Tips(Insert(bs, ts))
  {
    InsertConserves(bs, ts);
    assert t in multiset(Tips(bs));
    assert t in multiset(Tips(Insert(bs, ts)));
  }

  lemma InsertedIsThere(bs: seq<Bucket>, ts: TipSet)
    ensures exists t | t in Tips(Insert(bs, ts)) :: Equals(t, ts)
  {
    var i := FirstRelated(bs, ts);
    if i < |bs| && Holds(bs[i], ts) {
      var k :| 0 <= k < |bs[i]| && Equals(bs[i][k], ts);
      TipOfBucket(bs, bs[i][k]);
      InsertKeepsTips(bs, ts, bs[i][k]);
    } else {
      InsertConserves(bs, ts);
      assert ts in multiset(Tips(Insert(bs, ts)));
      assert ts in Tips(Insert(bs, ts)) && Equals(ts, ts);
    }
  }

  /** Every head gets into the buckets. */
  lemma {:induction false} InsertAllHeads(ids: seq<PeerId>, heads: map<PeerId, TipSet>, q: PeerId)
    requires (forall p | p in ids :: p in heads) && q in ids
    ensures exists t | t in Tips(InsertAll(ids, heads)) :: Equals(t, heads[q])
  {
    var front, p := ids[..|ids| - 1], ids[|ids| - 1];
    var bs := InsertAll(front, heads);
    if q in front {
      InsertAllHeads(front, heads, q);
      var t :| t in Tips(bs) && Equals(t, heads[q]);
      InsertKeepsTips(bs, heads[p], t);
    } else {
      assert q == p;
      InsertedIsThere(bs, heads[p]);
    }
  }

  /** Start-up picks a heaviest of the heads the peers reported, whatever order
      the map and the sort leave them in. Equal tipsets are the same tipset, as
      CIDs are content hashes. */
  lemma InitialTargetIsHeaviest(heads: map<PeerId, TipSet>, target: TipSet)
    requires InitialTarget(heads, target)
    requires forall p, q | p in heads && q in heads :: Equals(heads[p], heads[q]) ==> heads[p] == heads[q]
    ensures exists p | p in heads :: heads[p] == target
    ensures forall p | p in heads :: heads[p].weight <= target.weight
  {
    var ids :| HeadOrder(heads, ids) && ids != [] && Heaviest(InsertAll(ids, heads)) == Some(target);
    var bs := InsertAll(ids, heads);
    InsertAllOnlyHeads(ids, heads);
    BestIsGlobalMaximum(bs);
    forall p | p in heads ensures heads[p].weight <= target.weight {
      InsertAllHeads(ids, heads, p);
      var t :| t in Tips(bs) && Equals(t, heads[p]);
      var q :| q in ids && heads[q] == t;
    }
  }

  // ---------- what becomes of peer heads ----------

  /** Something equal to `ts` is queued. */
  ghost predicate Queued(bs: seq<Bucket>, ts: TipSet) {
    exists t | t in Tips(bs) :: Equals(t, ts)
  }

  /** `ts` would bring nothing new: it was synced lately or is being synced, or
      something heavier was, is or will be. */
  ghost predicate Redundant(s: State, ts: TipSet) {
    || SyncedRecently(s, ts)
    || SyncingHeavier(s, ts)
    || (exists id | id in s.workers :: Equals(s.workers[id], ts))
    || (exists t | t in Tips(s.pend) :: IsHeavier(t, ts))
  }

  lemma InsertedIsQueued(bs: seq<Bucket>, ts: TipSet)
    ensures Queued(Insert(bs, ts), ts)
  {
    InsertedIsThere(bs, ts);
  }

  lemma HeaviestPending(s: State, ts: TipSet)
    requires Shaped(s) && s.pend != [] && IsHeavier(Heaviest(s.pend).value, ts)
    ensures Redundant(s, ts)
  {
    BestIsGlobalMaximum(s.pend);
  }

  lemma UnmetNotForgotten(s: State, ts: TipSet, s': State, work: Option<TipSet>)
    requires Shaped(s) && AddUnmet(s, ts, s', work)
    ensures work == Some(ts) || Queued(s'.pend, ts) || Queued(s'.deferred, ts) || Redundant(s, ts)
  {
    if s'.pend == Insert(s.pend, ts) {
      InsertedIsQueued(s.pend, ts);
    } else if s'.deferred == Insert(s.deferred, ts) {
      InsertedIsQueued(s.deferred, ts);
    } else if s.pend != [] && IsHeavier(Heaviest(s.pend).value, ts) {
      HeaviestPending(s, ts);
    }
  }

  /** A head is only dropped if it is redundant: otherwise it is handed out as work
      or waits in one of the two queues. */
  lemma HeadNotForgotten(s: State, ts: TipSet, s': State, work: Option<TipSet>)
    requires Shaped(s) && AddTarget(s, ts, s', work)
    ensures work == Some(ts) || Queued(s'.pend, ts) || Queued(s'.deferred, ts) || Redundant(s, ts)
  {
    if SyncedRecently(s, ts) || s.workers == map[] {
    } else if exists id | id in s.workers :: Meets(s.workers[id], ts) {
      if s'.pend == Insert(s.pend, ts) {
        InsertedIsQueued(s.pend, ts);
      }
    } else {
      UnmetNotForgotten(s, ts, s', work);
    }
  }

  /** After the first worker a head is started exactly if it is not redundant, no
      active or pending chain claims it, and the limits leave room. */
  lemma HeadStartedIff(s: State, ts: TipSet, s': State, work: Option<TipSet>)
    requires Inv(s) && s.workers != map[] && AddTarget(s, ts, s', work)
    ensures work == Some(ts) <==>
              && !Redundant(s, ts)
              && (forall id | id in s.workers :: ts.parents != s.workers[id].key)
              && !RelatedToAny(s.pend, ts)
              && s.initialSyncDone && |s.workers| < MAX_SYNC_WORKERS
  {
    if s.pend != [] {
      BestIsGlobalMaximum(s.pend);
    }
  }

  // ---------- what becomes of deferred targets ----------

  /** No worker stands in the way of `h`, nor offers to take it over. */
  predicate Indifferent(active: TipSet, h: TipSet) {
    !Equals(active, h) && !IsHeavier(active, h) && h.parents != active.key
  }

  /** A target nobody is syncing, has synced or will sync: when the selection
      reaches it, it is started if and only if some worker is still active. */
  lemma DeferredStartedIffBusy(s: State, s': State, work: Option<TipSet>)
    requires Shaped(s) && Anchored(s) && s.deferred != [] && SelectDeferred(s, s', work)
    requires var h := PopDeferred(s).0;
             && !SyncedRecently(s, h)
             && !RelatedToAny(s.pend, h)
             && forall id | id in s.workers :: Indifferent(s.workers[id], h)
    ensures work == Some(PopDeferred(s).0) <==> s.workers != map[]
    ensures s.workers == map[] ==> work == None && s'.deferred == []
  {
    SelectDeferredOutcome(s, s', work);
    var (h, rest) := PopDeferred(s);
    forall first | VisitedFirst(s, first) && first.Some? ensures DeferredRound(s, first) == (rest, Some(h)) {
      assert Indifferent(s.workers[first.value], h);
    }
  }

  lemma QueuedIn(bs: seq<Bucket>, t: TipSet)
    ensures Queued(bs, t) <==> exists i | 0 <= i < |bs| :: Holds(bs[i], t)
  {
    if Queued(bs, t) {
      var x :| x in Tips(bs) && Equals(x, t);
      TipOfBucket(bs, x);
      var i :| 0 <= i < |bs| && x in bs[i];
      assert Holds(bs[i], t);
    }
    if i :| 0 <= i < |bs| && Holds(bs[i], t) {
      var k :| 0 <= k < |bs[i]| && Equals(bs[i][k], t);
      TipOfBucket(bs, bs[i][k]);
    }
  }

  lemma QueuedInsert(bs: seq<Bucket>, h: TipSet, t: TipSet)
    ensures Queued(Insert(bs, h), t) <==> Queued(bs, t) || Equals(h, t)
  {
    InsertedIsThere(bs, h);
    InsertConserves(bs, h);
    var out := Insert(bs, h);
    if Queued(out, t) {
      var x :| x in Tips(out) && Equals(x, t);
      assert x in multiset(Tips(out));
      assert x in Tips(bs) || x == h;
    }
    if Queued(bs, t) {
      var x :| x in Tips(bs) && Equals(x, t);
      InsertKeepsTips(bs, h, x);
    }
  }

  lemma QueuedWithout(bs: seq<Bucket>, i: nat, t: TipSet)
    requires i < |bs|
    ensures Queued(Without(bs, i), t) <==> exists j | 0 <= j < |bs| && j != i :: Holds(bs[j], t)
  {
    var rest := Without(bs, i);
    QueuedIn(rest, t);
    if j :| 0 <= j < |rest| && Holds(rest[j], t) {
      assert rest[j] == bs[if j < i then j else j + 1];
    }
    if j :| 0 <= j < |bs| && j != i && Holds(bs[j], t) {
      assert bs[j] == rest[if j < i then j else j - 1];
    }
  }

  /** The popped tip is taken up: it joins the pending queue or is started. */
  predicate TakenUp(s: State, h: TipSet, first: Option<WorkerId>)
    requires VisitedFirst(s, first)
  {
    && !SyncedRecently(s, h)
    && (RelatedToAny(s.pend, h) ||
        (first.Some? && !Equals(s.workers[first.value], h) && !IsHeavier(s.workers[first.value], h)))
  }

  /** The fate of every deferred tipset in one round of the selection: it is started
      or still queued if and only if it is in another bucket than the popped one,
      or pending already, or is the tip that was popped and that tip is taken up. */
  lemma KeptByRoundIff(s: State, first: Option<WorkerId>, t: TipSet)
    requires Shaped(s) && s.deferred != [] && VisitedFirst(s, first) && Queued(s.deferred, t)
    ensures var (m, work) := DeferredRound(s, first);
            (work.Some? && Equals(work.value, t)) || Queued(m.pend, t) || Queued(m.deferred, t) <==>
            || (exists j | 0 <= j < |s.deferred| && j != Best(s.deferred) :: Holds(s.deferred[j], t))
            || Queued(s.pend, t)
            || (Equals(PopDeferred(s).0, t) && TakenUp(s, PopDeferred(s).0, first))
  {
    var (h, rest) := PopDeferred(s);
    QueuedWithout(s.deferred, Best(s.deferred), t);
    QueuedInsert(s.pend, h, t);
  }
}
