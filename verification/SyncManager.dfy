/** The sync manager with its handlers: each updates the worker map and the queues
    in place and takes the scheduler through one step of `SyncSchedule`. */
module SyncManager {
  import opened Options
  import opened TipSets
  import opened SyncBuckets
  import opened SyncBuffer
  import opened SyncSchedule

  predicate Ordered(heads: map<PeerId, TipSet>, ids: seq<PeerId>)
    requires forall p | p in ids :: p in heads
  {
    forall i, j | 0 <= i < j < |ids| :: ids[i] != ids[j] && heads[ids[i]].height <= heads[ids[j]].height
  }

  lemma InsertOrdered(heads: map<PeerId, TipSet>, ids: seq<PeerId>, p: PeerId, at: nat)
    requires (forall q | q in ids :: q in heads) && p in heads && p !in ids
    requires Ordered(heads, ids) && at <= |ids|
    requires forall i | 0 <= i < at :: heads[ids[i]].height <= heads[p].height
    requires at < |ids| ==> heads[ids[at]].height > heads[p].height
    ensures var r := ids[..at] + [p] + ids[at..];
            && (forall q :: q in r <==> q == p || q in ids)
            && Ordered(heads, r)
  {}

  /** Insertion sort by height stands in for `sort.Slice`. */
  method SortByHeight(heads: map<PeerId, TipSet>) returns (ids: seq<PeerId>)
    ensures HeadOrder(heads, ids)
  {
    ids := [];
    var todo := heads.Keys;
    while todo != {}
      invariant todo <= heads.Keys
      invariant forall p :: p in ids <==> p in heads && p !in todo
      invariant Ordered(heads, ids)
    {
      var p :| p in todo;
      var at := 0;
      while at < |ids| && heads[ids[at]].height <= heads[p].height
        invariant at <= |ids|
        invariant forall i | 0 <= i < at :: heads[ids[i]].height <= heads[p].height
      {
        at := at + 1;
      }
      InsertOrdered(heads, ids, p, at);
      ids := ids[..at] + [p] + ids[at..];
      todo := todo - {p};
    }
  }

  /** The heads in buckets, in the given order. */
  method BucketsOf(heads: map<PeerId, TipSet>, ids: seq<PeerId>) returns (buckets: BucketSet)
    requires forall p | p in ids :: p in heads
    ensures fresh(buckets) && buckets.buckets == InsertAll(ids, heads)
  {
    buckets := new BucketSet();
    for i := 0 to |ids|
      invariant fresh(buckets) && buckets.buckets == InsertAll(ids[..i], heads)
    {
      buckets.InsertTip(heads[ids[i]]);
      assert ids[..i + 1][..i] == ids[..i];
    }
    assert ids[..|ids|] == ids;
  }

  /** Any way to go on ramping up from `a` completes one from `b`. */
  ghost predicate Continues(a: State, b: State)
    requires Shaped(a) && Shaped(b)
  {
    forall s' :: RampUp(a, s') ==> RampUp(b, s')
  }

  lemma RampUpOne(start: State, s: State, m: State, work: TipSet)
    requires Shaped(start) && Shaped(s) && Shaped(m) && |s.workers| < MAX_SYNC_WORKERS && |m.deferred| < |s.deferred|
    requires Continues(s, start) && SelectDeferred(s, m, Some(work))
    ensures Continues(Spawn(m, work), start)
  {
    forall s' | RampUp(Spawn(m, work), s') ensures RampUp(start, s') {
      assert RampUpAfter(s, m, Some(work), s');
    }
  }

  class Manager {
    const pend: BucketSet
    const deferred: BucketSet
    const recent: Buffer
    /** `BootstrapPeerThreshold`. */
    const threshold: int
    var nextWorker: nat
    var state: map<WorkerId, TipSet>
    var heads: map<PeerId, TipSet>
    var initialSyncDone: bool
    var tickerLive: bool

    ghost predicate Valid()
      reads this, recent, recent.buf
    {
      pend != deferred && recent.Valid() && recent.buf.Length == RECENT_SYNC_BUFFER_SIZE
    }

    ghost function Abs(): State
      reads this, pend, deferred, recent
    {
      State(nextWorker, state, pend.buckets, deferred.buckets, recent.log, initialSyncDone, tickerLive, heads)
    }

    constructor (threshold: int)
      ensures Valid() && Abs() == INITIAL && this.threshold == threshold
      ensures fresh(pend) && fresh(deferred) && fresh(recent) && fresh(recent.buf)
    {
      this.threshold := threshold;
      pend := new BucketSet();
      deferred := new BucketSet();
      recent := new Buffer(RECENT_SYNC_BUFFER_SIZE);
      nextWorker, state, heads := 0, map[], map[];
      initialSyncDone, tickerLive := false, true;
    }

    method SpawnWorker(target: TipSet)
      requires Valid()
      modifies this
      ensures Valid() && Abs() == Spawn(old(Abs()), target)
    {
      var id := nextWorker;
      nextWorker := nextWorker + 1;
      state := state[id := target];
    }

    method SelectInitialSyncTarget() returns (target: TipSet)
      requires Valid() && heads != map[]
      modifies this
      ensures Valid() && Abs() == old(Abs()).(heads := map[])
      ensures InitialTarget(old(heads), target)
    {
      var ids := SortByHeight(heads);
      assert ids != [] by {
        var p :| p in heads;
        assert p in ids;
      }
      var buckets := BucketsOf(heads, ids);
      var best := buckets.HeaviestOfAll();
      target := best.value;
      heads := map[];
    }

    method AddSyncTarget(ts: TipSet) returns (work: Option<TipSet>)
      requires Valid() && Shaped(Abs())
      modifies pend, deferred
      ensures Valid() && AddTarget(old(Abs()), ts, Abs(), work)
    {
      var synced := recent.Synced(ts);
      if synced { return None; }
      if |state| == 0 { return Some(ts); }

      var met := FirstMeeting(ts);
      if met.Some? {
        if !Equals(ts, state[met.value]) {
          pend.InsertTip(ts);
        }
        return None;
      }

      work := AddUnmetTarget(ts);
    }

    method AddUnmetTarget(ts: TipSet) returns (work: Option<TipSet>)
      requires Valid() && Shaped(Abs())
      modifies pend, deferred
      ensures Valid() && AddUnmet(old(Abs()), ts, Abs(), work)
    {
      var related := pend.AnyRelated(ts);
      if related {
        pend.InsertTip(ts);
        return None;
      }

      var heavier := AnySyncingHeavier(ts);
      if heavier { return None; }

      var pendHeaviest := pend.HeaviestOfAll();
      if pendHeaviest.Some? && IsHeavier(pendHeaviest.value, ts) {
        return None;
      }

      if !initialSyncDone || |state| >= MAX_SYNC_WORKERS {
        deferred.InsertTip(ts);
        return None;
      }
      return Some(ts);
    }

    /** The worker at which the first range over the workers stops. */
    method FirstMeeting(ts: TipSet) returns (hit: Option<WorkerId>)
      ensures hit.Some? ==> hit.value in state && Meets(state[hit.value], ts)
      ensures hit.None? ==> forall id | id in state :: !Meets(state[id], ts)
    {
      var todo := state.Keys;
      while todo != {}
        invariant todo <= state.Keys
        invariant forall id | id in state && id !in todo :: !Meets(state[id], ts)
      {
        var id :| id in todo;
        if Meets(state[id], ts) { return Some(id); }
        todo := todo - {id};
      }
      return None;
    }

    method AnySyncingHeavier(ts: TipSet) returns (r: bool)
      ensures r == SyncingHeavier(Abs(), ts)
    {
      var todo := state.Keys;
      while todo != {}
        invariant todo <= state.Keys
        invariant forall id | id in state && id !in todo :: !IsHeavier(state[id], ts)
      {
        var id :| id in todo;
        if IsHeavier(state[id], ts) { return true; }
        todo := todo - {id};
      }
      return false;
    }

    /** Every branch of the range over the workers leaves it, so only the first
        worker visited counts. */
    method OfferDeferred(h: TipSet) returns (work: Option<TipSet>, ghost first: Option<WorkerId>)
      requires Valid() && Shaped(Abs())
      modifies pend
      ensures Valid() && VisitedFirst(old(Abs()), first)
      ensures (Abs(), work) == Offer(old(Abs()), h, first)
    {
      var visited: Option<WorkerId> := None;
      if state != map[] {
        var id :| id in state;
        visited := Some(id);
      }
      first := visited;

      var synced := recent.Synced(h);
      if synced { return None, first; }

      var related := pend.AnyRelated(h);
      if related {
        pend.InsertTip(h);
        return None, first;
      }

      if visited.None? { return None, first; }
      var active := state[visited.value];
      if Equals(active, h) || IsHeavier(active, h) { return None, first; }
      if h.parents == active.key {
        pend.InsertTip(h);
        return None, first;
      }
      return Some(h), first;
    }

    method TakeDeferred() returns (work: Option<TipSet>, ghost first: Option<WorkerId>)
      requires Valid() && Shaped(Abs()) && deferred.buckets != []
      modifies pend, deferred
      ensures Valid() && VisitedFirst(old(Abs()), first)
      ensures (Abs(), work) == DeferredRound(old(Abs()), first)
    {
      ghost var s := Abs();
      var bucket := deferred.Pop();
      var top := HeaviestTipSet(bucket);
      assert PopDeferred(s) == (top.value, Abs());
      work, first := OfferDeferred(top.value);
    }

    method SelectDeferredSyncTarget() returns (work: Option<TipSet>)
      requires Valid() && Shaped(Abs())
      modifies pend, deferred
      ensures Valid() && SelectDeferred(old(Abs()), Abs(), work)
    {
      ghost var start := Abs();
      while deferred.buckets != []
        invariant Valid() && Shaped(Abs())
        invariant forall s', w :: SelectDeferred(Abs(), s', w) ==> SelectDeferred(start, s', w)
        decreases |deferred.buckets|
      {
        ghost var s := Abs();
        ghost var first;
        work, first := TakeDeferred();
        if work.Some? {
          assert SelectDeferred(s, Abs(), work);
          return;
        }
        assert forall s', w :: SelectDeferred(Abs(), s', w) ==> SelectDeferred(s, s', w);
      }
      assert SelectDeferred(Abs(), Abs(), None);
      return None;
    }

    method SelectSyncTarget(done: TipSet) returns (work: Option<TipSet>)
      requires Valid() && Shaped(Abs())
      modifies pend, deferred
      ensures Valid() && SelectTarget(old(Abs()), done, Abs(), work)
    {
      PopRelatedKeepsShape(pend.buckets, done);
      var related := pend.PopRelated(done);
      if related == None {
        work := SelectDeferredSyncTarget();
        return;
      }
      var heaviest := HeaviestTipSet(related.value);
      var h := heaviest.value;
      var heavier := AnySyncingHeavier(h);
      var synced := recent.Synced(h);
      if IsHeavier(done, h) || heavier || synced {
        work := SelectDeferredSyncTarget();
        return;
      }
      return Some(h);
    }

    method HandleEarlyHead(peer: PeerId, ts: TipSet)
      requires Valid()
      modifies this
      ensures Valid() && OnEarlyHead(threshold, old(Abs()), old(heads)[peer := ts], Abs())
    {
      heads := heads[peer := ts];
      if |heads| >= threshold {
        assert peer in heads;
        var target := SelectInitialSyncTarget();
        SpawnWorker(target);
      }
    }

    method HandleLaterHead(ts: TipSet)
      requires Valid() && Shaped(Abs())
      modifies this, pend, deferred
      ensures Valid() && OnLaterHead(old(Abs()), ts, Abs())
    {
      var work := AddSyncTarget(ts);
      if work.Some? {
        SpawnWorker(work.value);
      }
    }

    method HandlePeerHead(peer: PeerId, ts: TipSet)
      requires Valid() && Inv(Abs())
      modifies this, pend, deferred
      ensures Valid() && Step(threshold, old(Abs()), PeerHead(peer, ts), Abs())
      ensures Inv(Abs())
    {
      ghost var start := Abs();
      if nextWorker == 0 {
        HandleEarlyHead(peer, ts);
      } else {
        HandleLaterHead(ts);
      }
      StepKeepsInv(threshold, start, PeerHead(peer, ts), Abs());
    }

    /** Take a worker off, recording its success. */
    method FinishWorker(id: WorkerId, ok: bool, fast: bool) returns (ws: TipSet)
      requires Valid() && id in state
      modifies this, recent, recent.buf
      ensures Valid() && ws == old(state)[id] && Abs() == Finished(old(Abs()), id, ok, fast)
    {
      ws := state[id];
      state := state - {id};
      if ok {
        recent.Push(ws);
        if !initialSyncDone && fast {
          initialSyncDone := true;
        }
      }
    }

    method HandleWorkerStatus(id: WorkerId, ok: bool, fast: bool)
      requires Valid() && Inv(Abs()) && id in state
      modifies this, pend, deferred, recent, recent.buf
      ensures Valid() && Step(threshold, old(Abs()), WorkerDone(id, ok, fast), Abs())
      ensures Inv(Abs())
    {
      ghost var start := Abs();
      var ws := FinishWorker(id, ok, fast);
      var work := SelectSyncTarget(ws);
      ghost var m := Abs();
      if work.Some? {
        SpawnWorker(work.value);
      }
      assert SelectTarget(Finished(start, id, ok, fast), ws, m, work) && Abs() == SpawnIf(m, work);
      StepKeepsInv(threshold, start, WorkerDone(id, ok, fast), Abs());
    }

    method HandleTick()
      requires Valid() && Inv(Abs())
      modifies this, pend, deferred
      ensures Valid() && Step(threshold, old(Abs()), Tick, Abs())
      ensures Inv(Abs())
    {
      ghost var start := Abs();
      if tickerLive && initialSyncDone {
        tickerLive := false;
        HandleInitialSyncDone();
      }
      StepKeepsInv(threshold, start, Tick, Abs());
    }

    method HandleInitialSyncDone()
      requires Valid() && Shaped(Abs()) && Anchored(Abs())
      requires forall id | id in state :: id < nextWorker
      modifies this, pend, deferred
      ensures Valid() && RampUp(old(Abs()), Abs())
    {
      ghost var start := Abs();
      while |state| < MAX_SYNC_WORKERS
        invariant Valid() && Shaped(Abs()) && Anchored(Abs())
        invariant forall id | id in state :: id < nextWorker
        invariant Continues(Abs(), start)
        decreases |deferred.buckets|
      {
        ghost var s := Abs();
        var work := SelectDeferredSyncTarget();
        ghost var m := Abs();
        SelectDeferredOutcome(s, m, work);
        if work == None {
          assert RampUpAfter(s, m, work, m);
          return;
        }
        RampUpOne(start, s, m, work.value);
        SpawnKeepsAnchors(m, work.value);
        SpawnWorker(work.value);
      }
    }
  }
}
