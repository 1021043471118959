/** The sync scheduler as a state machine: peer heads, finished workers and the
    start-up tick. Where the source ranges over the map of workers the order of
    the visit is free, so the steps are relations. */
module SyncSchedule {
  import opened Options
  import opened TipSets
  import opened SyncBuckets
  import opened SyncBuffer

  const RECENT_SYNC_BUFFER_SIZE: nat := 10
  const MAX_SYNC_WORKERS: nat := 5

  type PeerId = nat
  type WorkerId = nat

  /** `synced` is the log of every target that was synced successfully; the code
      keeps its last `RECENT_SYNC_BUFFER_SIZE` entries. */
  datatype State = State(
    nextWorker: nat,
    workers: map<WorkerId, TipSet>,
    pend: seq<Bucket>,
    deferred: seq<Bucket>,
    synced: seq<TipSet>,
    initialSyncDone: bool,
    tickerLive: bool,
    heads: map<PeerId, TipSet>)

  const INITIAL := State(0, map[], [], [], [], false, true, map[])

  datatype Event =
    | PeerHead(peer: PeerId, ts: TipSet)
    | WorkerDone(id: WorkerId, ok: bool, fast: bool)
    | Tick

  predicate SyncedRecently(s: State, ts: TipSet) {
    Covers(Recent(s.synced, RECENT_SYNC_BUFFER_SIZE), ts)
  }

  predicate SyncingHeavier(s: State, ts: TipSet) {
    exists id | id in s.workers :: IsHeavier(s.workers[id], ts)
  }

  predicate Shaped(s: State) {
    AllWellFormed(s.pend) && AllWellFormed(s.deferred)
  }

  // ---------- start-up ----------

  function InsertAll(ids: seq<PeerId>, heads: map<PeerId, TipSet>): (bs: seq<Bucket>)
    requires forall p | p in ids :: p in heads
    ensures AllWellFormed(bs)
    ensures ids != [] ==> bs != []
  {
    if ids == [] then []
    else
      var front := InsertAll(ids[..|ids| - 1], heads);
      var ts := heads[ids[|ids| - 1]];
      InsertKeepsShape(front, ts);
      Insert(front, ts)
  }

  /** The peers in an order `sort.Slice` may leave them in: by height, ties free. */
  predicate HeadOrder(heads: map<PeerId, TipSet>, ids: seq<PeerId>) {
    && (forall p | p in ids :: p in heads) && (forall p | p in heads :: p in ids)
    && (forall i, j | 0 <= i < j < |ids| :: ids[i] != ids[j])
    && (forall i, j | 0 <= i < j < |ids| :: heads[ids[i]].height <= heads[ids[j]].height)
  }

  ghost predicate InitialTarget(heads: map<PeerId, TipSet>, target: TipSet) {
    exists ids: seq<PeerId> ::
      HeadOrder(heads, ids) && ids != [] && Heaviest(InsertAll(ids, heads)) == Some(target)
  }

  // ---------- target selection ----------

  /** The first loop of `addSyncTarget` stops at a worker with this relation. */
  predicate Meets(active: TipSet, ts: TipSet) {
    Equals(ts, active) || ts.parents == active.key
  }

  /** `addSyncTarget`: queue a peer head, drop it, or hand it out as work. */
  ghost predicate AddTarget(s: State, ts: TipSet, s': State, work: Option<TipSet>)
    requires Shaped(s)
  {
    if SyncedRecently(s, ts) then s' == s && work == None
    else if s.workers == map[] then s' == s && work == Some(ts)
    else if exists id | id in s.workers :: Meets(s.workers[id], ts) then
      && work == None
      && exists id | id in s.workers ::
        && Meets(s.workers[id], ts)
        && s' == if Equals(ts, s.workers[id]) then s else s.(pend := Insert(s.pend, ts))
    else AddUnmet(s, ts, s', work)
  }

  /** The rest of `addSyncTarget`, for a head that no worker has met. */
  ghost predicate AddUnmet(s: State, ts: TipSet, s': State, work: Option<TipSet>)
    requires Shaped(s)
  {
    if RelatedToAny(s.pend, ts) then s' == s.(pend := Insert(s.pend, ts)) && work == None
    else if SyncingHeavier(s, ts) then s' == s && work == None
    else if s.pend != [] && IsHeavier(Heaviest(s.pend).value, ts) then s' == s && work == None
    else if !s.initialSyncDone || |s.workers| >= MAX_SYNC_WORKERS then
      s' == s.(deferred := Insert(s.deferred, ts)) && work == None
    else s' == s && work == Some(ts)
  }

  function PopDeferred(s: State): (r: (TipSet, State))
    requires Shaped(s) && s.deferred != []
    ensures Shaped(r.1) && |r.1.deferred| < |s.deferred|
  {
    var i := Best(s.deferred);
    PopKeepsShape(s.deferred, i);
    (HeaviestTip(s.deferred[i]), s.(deferred := Without(s.deferred, i)))
  }

  function InsertPend(s: State, ts: TipSet): (r: State)
    requires Shaped(s)
    ensures Shaped(r)
  {
    InsertKeepsShape(s.pend, ts);
    s.(pend := Insert(s.pend, ts))
  }

  /** The first worker a range over the worker map visits, if any. */
  predicate VisitedFirst(s: State, first: Option<WorkerId>) {
    if first.None? then s.workers == map[] else first.value in s.workers
  }

  /** A popped tip is started, passed to the pending queue, or dropped. The range
      over the workers decides on the first one visited; with none it is gone. */
  function Offer(s: State, h: TipSet, first: Option<WorkerId>): (r: (State, Option<TipSet>))
    requires Shaped(s) && VisitedFirst(s, first)
    ensures Shaped(r.0) && r.0.deferred == s.deferred
  {
    if SyncedRecently(s, h) then (s, None)
    else if RelatedToAny(s.pend, h) then (InsertPend(s, h), None)
    else if first.None? then (s, None)
    else
      var active := s.workers[first.value];
      if Equals(active, h) || IsHeavier(active, h) then (s, None)
      else if h.parents == active.key then (InsertPend(s, h), None)
      else (s, Some(h))
  }

  /** One round of `selectDeferredSyncTarget`: pop the heaviest bucket and offer
      its heaviest tip. */
  function DeferredRound(s: State, first: Option<WorkerId>): (r: (State, Option<TipSet>))
    requires Shaped(s) && s.deferred != [] && VisitedFirst(s, first)
    ensures Shaped(r.0) && |r.0.deferred| < |s.deferred|
  {
    var (h, rest) := PopDeferred(s);
    Offer(rest, h, first)
  }

  /** `selectDeferredSyncTarget`: rounds until one yields work. */
  ghost predicate SelectDeferred(s: State, s': State, work: Option<TipSet>)
    requires Shaped(s)
    decreases |s.deferred|
  {
    if s.deferred == [] then s' == s && work == None
    else
      exists first | VisitedFirst(s, first) ::
        var (m, w) := DeferredRound(s, first);
        if w.Some? then s' == m && work == w else SelectDeferred(m, s', work)
  }

  /** `selectSyncTarget`, after the worker on `done` has gone. */
  ghost predicate SelectTarget(s: State, done: TipSet, s': State, work: Option<TipSet>)
    requires Shaped(s)
  {
    PopRelatedKeepsShape(s.pend, done);
    var popped := PoppedRelated(s.pend, done);
    var rest := s.(pend := Unrelated(s.pend, done));
    if popped == None then SelectDeferred(rest, s', work)
    else
      var h := HeaviestTip(popped.value);
      if IsHeavier(done, h) || SyncingHeavier(s, h) || SyncedRecently(s, h)
      then SelectDeferred(rest, s', work)
      else s' == rest && work == Some(h)
  }

  // ---------- handlers ----------

  function Spawn(s: State, target: TipSet): State {
    s.(nextWorker := s.nextWorker + 1, workers := s.workers[s.nextWorker := target])
  }

  function SpawnIf(s: State, work: Option<TipSet>): State {
    if work.Some? then Spawn(s, work.value) else s
  }

  /** Before the first worker: track heads until there are enough peers. */
  ghost predicate OnEarlyHead(threshold: int, s: State, heads: map<PeerId, TipSet>, s': State) {
    if |heads| < threshold then s' == s.(heads := heads)
    else exists target :: InitialTarget(heads, target) && s' == Spawn(s.(heads := map[]), target)
  }

  ghost predicate OnPeerHead(threshold: int, s: State, peer: PeerId, ts: TipSet, s': State)
    requires Shaped(s)
  {
    if s.nextWorker == 0 then OnEarlyHead(threshold, s, s.heads[peer := ts], s')
    else OnLaterHead(s, ts, s')
  }

  ghost predicate OnLaterHead(s: State, ts: TipSet, s': State)
    requires Shaped(s)
  {
    exists m, work :: AddTarget(s, ts, m, work) && s' == SpawnIf(m, work)
  }

  /** The state once the worker is gone and its success, if any, is recorded. */
  function Finished(s: State, id: WorkerId, ok: bool, fast: bool): State
    requires id in s.workers
  {
    var gone := s.(workers := s.workers - {id});
    if ok
    then gone.(synced := s.synced + [s.workers[id]], initialSyncDone := s.initialSyncDone || fast)
    else gone
  }

  ghost predicate OnWorkerDone(s: State, id: WorkerId, ok: bool, fast: bool, s': State)
    requires Shaped(s)
  {
    && id in s.workers
    && exists m, work ::
      SelectTarget(Finished(s, id, ok, fast), s.workers[id], m, work) && s' == SpawnIf(m, work)
  }

  /** `handleInitialSyncDone`: deferred targets are started up to the limit. */
  ghost predicate RampUp(s: State, s': State)
    requires Shaped(s)
    decreases |s.deferred|
  {
    if |s.workers| >= MAX_SYNC_WORKERS then s' == s
    else exists m, work :: SelectDeferred(s, m, work) && RampUpAfter(s, m, work, s')
  }

  ghost predicate RampUpAfter(s: State, m: State, work: Option<TipSet>, s': State)
    requires Shaped(s)
    decreases |s.deferred|, 0
  {
    if work.None? then s' == m
    else |m.deferred| < |s.deferred| && Shaped(m) && RampUp(Spawn(m, work.value), s')
  }

  ghost predicate OnTick(s: State, s': State)
    requires Shaped(s)
  {
    if s.tickerLive && s.initialSyncDone then RampUp(s.(tickerLive := false), s') else s' == s
  }

  ghost predicate Step(threshold: int, s: State, e: Event, s': State)
    requires Shaped(s)
  {
    match e
    case PeerHead(peer, ts) => OnPeerHead(threshold, s, peer, ts, s')
    case WorkerDone(id, ok, fast) => OnWorkerDone(s, id, ok, fast, s')
    case Tick => OnTick(s, s')
  }

  /** A run: the start state, or a run followed by one more event. */
  datatype Run = Start | Then(before: Run, event: Event, after: State)

  function Final(run: Run): State {
    if run.Start? then INITIAL else run.after
  }

  ghost predicate IsRun(threshold: int, run: Run) {
    run.Then? ==>
      && IsRun(threshold, run.before)
      && Shaped(Final(run.before))
      && Step(threshold, Final(run.before), run.event, run.after)
  }

  // ---------- the invariant ----------

  /** Some tip of the bucket extends the target of an active worker. */
  ghost predicate AnchoredBucket(workers: map<WorkerId, TipSet>, b: Bucket) {
    exists i, id | 0 <= i < |b| && id in workers :: b[i].parents == workers[id].key
  }

  ghost predicate Anchored(s: State) {
    forall k | 0 <= k < |s.pend| :: AnchoredBucket(s.workers, s.pend[k])
  }

  ghost predicate Inv(s: State) {
    && Shaped(s)
    && Anchored(s)
    && (forall id | id in s.workers :: id < s.nextWorker)
    && |s.workers| <= MAX_SYNC_WORKERS
    && (!s.initialSyncDone ==> |s.workers| <= 1)
    && (s.workers == map[] ==> s.deferred == [])
    && (s.nextWorker == 0 ==> s.workers == map[] && s.synced == [])
  }

  lemma IdleMeansNothingPending(s: State)
    requires Anchored(s) && s.workers == map[]
    ensures s.pend == []
  {
    assert s.pend != [] ==> AnchoredBucket(s.workers, s.pend[0]);
  }

  lemma InsertKeepsAnchors(s: State, ts: TipSet)
    requires Shaped(s) && Anchored(s)
    requires RelatedToAny(s.pend, ts) || exists id | id in s.workers :: ts.parents == s.workers[id].key
    ensures Shaped(InsertPend(s, ts)) && Anchored(InsertPend(s, ts))
  {
    InsertKeepsShape(s.pend, ts);
    var out := Insert(s.pend, ts);
    forall k | 0 <= k < |out| ensures AnchoredBucket(s.workers, out[k]) {
      if k < |s.pend| {
        assert AnchoredBucket(s.workers, s.pend[k]);
        var i, id :| 0 <= i < |s.pend[k]| && id in s.workers && s.pend[k][i].parents == s.workers[id].key;
        assert out[k][i] == s.pend[k][i];
      } else {
        assert out[k] == [ts] && out[k][0] == ts;
      }
    }
  }

  /** What every outcome of the deferred selection keeps. */
  ghost predicate DeferredOutcome(s: State, s': State, work: Option<TipSet>) {
    && Shaped(s') && Anchored(s')
    && s' == s.(pend := s'.pend, deferred := s'.deferred)
    && |s'.deferred| <= |s.deferred|
    && (work.None? ==> s'.deferred == [])
    && (work.Some? ==>
          && s.workers != map[]
          && |s'.deferred| < |s.deferred|
          && !SyncedRecently(s, work.value))
  }

  lemma DeferredRoundKeeps(s: State, first: Option<WorkerId>)
    requires Shaped(s) && Anchored(s) && s.deferred != [] && VisitedFirst(s, first)
    ensures var (m, w) := DeferredRound(s, first);
            && Anchored(m)
            && m == s.(pend := m.pend, deferred := m.deferred)
            && (w.Some? ==> s.workers != map[] && !SyncedRecently(s, w.value))
  {
    var (h, rest) := PopDeferred(s);
    assert Anchored(rest);
    if DeferredRound(s, first).0.pend != s.pend {
      InsertKeepsAnchors(rest, h);
    }
  }

  lemma {:induction false} SelectDeferredOutcome(s: State, s': State, work: Option<TipSet>)
    requires Shaped(s) && Anchored(s) && SelectDeferred(s, s', work)
    ensures DeferredOutcome(s, s', work)
    decreases |s.deferred|
  {
    if s.deferred != [] {
      var first :| VisitedFirst(s, first) &&
        var (m, w) := DeferredRound(s, first);
        if w.Some? then s' == m && work == w else SelectDeferred(m, s', work);
      DeferredRoundKeeps(s, first);
      var (m, w) := DeferredRound(s, first);
      if w.None? {
        SelectDeferredOutcome(m, s', work);
      }
    }
  }

  lemma RemovalKeepsAnchors(s: State, id: WorkerId, ok: bool, fast: bool)
    requires Inv(s) && id in s.workers
    ensures var f := Finished(s, id, ok, fast);
            var done := s.workers[id];
            var rest := f.(pend := Unrelated(f.pend, done));
            Shaped(rest) && Anchored(rest)
  {
    var f, done := Finished(s, id, ok, fast), s.workers[id];
    PopRelatedKeepsShape(s.pend, done);
    PopRelatedTakesAll(s.pend, done);
    var un := Unrelated(s.pend, done);
    forall k | 0 <= k < |un| ensures AnchoredBucket(f.workers, un[k]) {
      assert un[k] in un && !SameChain(un[k], done);
      assert AnchoredBucket(s.workers, un[k]);
      var i, w :| 0 <= i < |un[k]| && w in s.workers && un[k][i].parents == s.workers[w].key;
      assert !Related(done, un[k][i]);
      assert w in f.workers;
    }
  }

  lemma SpawnKeepsAnchors(s: State, target: TipSet)
    requires Anchored(s) && forall id | id in s.workers :: id < s.nextWorker
    ensures Anchored(Spawn(s, target))
  {
    var out := Spawn(s, target);
    forall k | 0 <= k < |s.pend| ensures AnchoredBucket(out.workers, s.pend[k]) {
      assert AnchoredBucket(s.workers, s.pend[k]);
      var i, w :| 0 <= i < |s.pend[k]| && w in s.workers && s.pend[k][i].parents == s.workers[w].key;
      assert w in out.workers && out.workers[w] == s.workers[w];
    }
  }

  lemma SpawnCounts(s: State, target: TipSet)
    requires forall id | id in s.workers :: id < s.nextWorker
    ensures |Spawn(s, target).workers| == |s.workers| + 1
    ensures Spawn(s, target).workers != map[]
  {}

  // ---------- every step keeps it ----------

  /** Each target started by a step differs from, and is at least as heavy as,
      every one of the recently synced targets. */
  ghost predicate SpawnsFresh(s: State, s': State) {
    forall id | id in s'.workers && id !in s.workers :: !SyncedRecently(s', s'.workers[id])
  }

  lemma FirstWorker(s: State, target: TipSet)
    requires Inv(s) && s.nextWorker == 0
    ensures Inv(Spawn(s, target)) && SpawnsFresh(s, Spawn(s, target))
  {
    IdleMeansNothingPending(s);
    SpawnCounts(s, target);
    SpawnKeepsAnchors(s, target);
  }

  lemma EarlyHeadStep(threshold: int, s: State, heads: map<PeerId, TipSet>, s': State)
    requires Inv(s) && s.nextWorker == 0 && OnEarlyHead(threshold, s, heads, s')
    ensures Inv(s') && SpawnsFresh(s, s')
  {
    if |heads| >= threshold {
      forall target | s' == Spawn(s.(heads := map[]), target) ensures Inv(s') && SpawnsFresh(s, s') {
        FirstWorker(s.(heads := map[]), target);
      }
    }
  }

  lemma AddTargetKeeps(s: State, ts: TipSet, s': State, work: Option<TipSet>)
    requires Inv(s) && s.nextWorker > 0 && AddTarget(s, ts, s', work)
    ensures Inv(s') && (work.Some? ==> s' == s && work.value == ts)
    ensures s'.workers == s.workers
  {
    if s'.pend != s.pend {
      InsertKeepsAnchors(s, ts);
    } else if s'.deferred != s.deferred {
      InsertKeepsShape(s.deferred, ts);
    }
  }

  /** Work handed out for a peer head is fresh and, of all that is being synced
      or pending, nothing is heavier; one more worker fits the limits. */
  lemma AddTargetHeaviest(s: State, ts: TipSet, s': State, work: Option<TipSet>)
    requires Inv(s) && s.nextWorker > 0 && AddTarget(s, ts, s', work) && work.Some?
    ensures !SyncedRecently(s, ts) && !SyncingHeavier(s, ts)
    ensures forall t | t in Tips(s.pend) :: !IsHeavier(t, ts)
    ensures s.workers == map[] || (s.initialSyncDone && |s.workers| < MAX_SYNC_WORKERS)
  {
    if s.workers == map[] {
      IdleMeansNothingPending(s);
    } else if s.pend != [] {
      BestIsGlobalMaximum(s.pend);
    }
  }

  lemma PeerHeadStep(threshold: int, s: State, peer: PeerId, ts: TipSet, s': State)
    requires Inv(s) && s.nextWorker > 0 && OnPeerHead(threshold, s, peer, ts, s')
    ensures Inv(s') && SpawnsFresh(s, s')
    ensures forall id | id in s'.workers && id !in s.workers ::
              && s'.workers[id] == ts
              && (forall w | w in s.workers :: !IsHeavier(s.workers[w], ts))
              && (forall t | t in Tips(s.pend) :: !IsHeavier(t, ts))
  {
    var m, work :| AddTarget(s, ts, m, work) && s' == SpawnIf(m, work);
    AddTargetKeeps(s, ts, m, work);
    if work.Some? {
      AddTargetHeaviest(s, ts, m, work);
      SpawnKeepsAnchors(s, ts);
      SpawnCounts(s, ts);
    }
  }

  lemma SelectTargetKeeps(s: State, id: WorkerId, ok: bool, fast: bool, m: State, work: Option<TipSet>)
    requires Inv(s) && id in s.workers
    requires SelectTarget(Finished(s, id, ok, fast), s.workers[id], m, work)
    ensures var f := Finished(s, id, ok, fast);
            && Shaped(m) && Anchored(m)
            && m == f.(pend := m.pend, deferred := m.deferred)
            && (work.None? ==> m.deferred == [])
            && (work.Some? ==> !SyncedRecently(f, work.value))
  {
    var f, done := Finished(s, id, ok, fast), s.workers[id];
    RemovalKeepsAnchors(s, id, ok, fast);
    var rest := f.(pend := Unrelated(f.pend, done));
    if SelectDeferred(rest, m, work) {
      SelectDeferredOutcome(rest, m, work);
    }
  }

  lemma WorkerDoneStep(s: State, id: WorkerId, ok: bool, fast: bool, s': State)
    requires Inv(s) && OnWorkerDone(s, id, ok, fast, s')
    ensures Inv(s') && SpawnsFresh(s, s')
  {
    var f, done := Finished(s, id, ok, fast), s.workers[id];
    var m, work :| SelectTarget(f, done, m, work) && s' == SpawnIf(m, work);
    SelectTargetKeeps(s, id, ok, fast, m, work);
    ReplaceWorker(s, id, ok, fast, m, work);
  }

  /** The finished worker makes room for the next one. */
  lemma ReplaceWorker(s: State, id: WorkerId, ok: bool, fast: bool, m: State, work: Option<TipSet>)
    requires Inv(s) && id in s.workers && Shaped(m) && Anchored(m)
    requires m == Finished(s, id, ok, fast).(pend := m.pend, deferred := m.deferred)
    requires work.None? ==> m.deferred == []
    requires work.Some? ==> !SyncedRecently(m, work.value)
    ensures Inv(SpawnIf(m, work)) && SpawnsFresh(s, SpawnIf(m, work))
  {
    assert m.workers.Keys == s.workers.Keys - {id};
    assert |m.workers| == |s.workers| - 1;
    if work.Some? {
      SpawnKeepsAnchors(m, work.value);
      SpawnCounts(m, work.value);
    }
  }

  lemma {:induction false} RampUpStep(s: State, s': State)
    requires Shaped(s) && Anchored(s) && RampUp(s, s')
    requires forall id | id in s.workers :: id < s.nextWorker
    requires |s.workers| <= MAX_SYNC_WORKERS
    ensures s' == s.(pend := s'.pend, deferred := s'.deferred, workers := s'.workers, nextWorker := s'.nextWorker)
    ensures Shaped(s') && Anchored(s')
    ensures forall id | id in s'.workers :: id < s'.nextWorker
    ensures s.nextWorker <= s'.nextWorker && s.workers.Keys <= s'.workers.Keys
    ensures |s'.workers| <= MAX_SYNC_WORKERS
    ensures s'.workers == map[] ==> s'.deferred == []
    ensures SpawnsFresh(s, s')
    decreases |s.deferred|
  {
    if |s.workers| < MAX_SYNC_WORKERS {
      var m, work :| SelectDeferred(s, m, work) && RampUpAfter(s, m, work, s');
      SelectDeferredOutcome(s, m, work);
      if work.Some? {
        SpawnKeepsAnchors(m, work.value);
        SpawnCounts(m, work.value);
        RampUpStep(Spawn(m, work.value), s');
        forall id | id in s'.workers && id !in s.workers ensures !SyncedRecently(s', s'.workers[id]) {
          if id == m.nextWorker {
            RampUpKeepsTargets(Spawn(m, work.value), s', id);
          }
        }
      }
    }
  }

  /** Ramping up only adds workers. */
  lemma {:induction false} RampUpKeepsTargets(s: State, s': State, id: WorkerId)
    requires Shaped(s) && Anchored(s) && RampUp(s, s')
    requires forall w | w in s.workers :: w < s.nextWorker
    requires id in s.workers
    ensures id in s'.workers && s'.workers[id] == s.workers[id]
    decreases |s.deferred|
  {
    if |s.workers| < MAX_SYNC_WORKERS {
      var m, work :| SelectDeferred(s, m, work) && RampUpAfter(s, m, work, s');
      SelectDeferredOutcome(s, m, work);
      if work.Some? {
        SpawnKeepsAnchors(m, work.value);
        RampUpKeepsTargets(Spawn(m, work.value), s', id);
      }
    }
  }

  lemma StepKeepsInv(threshold: int, s: State, e: Event, s': State)
    requires Inv(s) && Step(threshold, s, e, s')
    ensures Inv(s') && SpawnsFresh(s, s')
  {
    match e {
      case PeerHead(peer, ts) =>
        if s.nextWorker == 0 {
          EarlyHeadStep(threshold, s, s.heads[peer := ts], s');
        } else {
          PeerHeadStep(threshold, s, peer, ts, s');
        }
      case WorkerDone(id, ok, fast) =>
        WorkerDoneStep(s, id, ok, fast, s');
      case Tick =>
        if s.tickerLive && s.initialSyncDone {
          RampUpStep(s.(tickerLive := false), s');
        }
    }
  }

  lemma InitialInv()
    ensures Inv(INITIAL)
  {}

  /** The invariant holds at the end of every run, hence all along it, and every
      target a run starts is fresh with respect to the recently synced ones. */
  lemma {:induction false} RunInvariant(threshold: int, run: Run)
    requires IsRun(threshold, run)
    ensures Inv(Final(run))
    ensures run.Then? ==> SpawnsFresh(Final(run.before), run.after)
  {
    if run.Start? {
      InitialInv();
    } else {
      RunInvariant(threshold, run.before);
      StepKeepsInv(threshold, Final(run.before), run.event, run.after);
    }
  }

  /** In every run: what a peer head starts after the first worker is that head, and
      nothing active or pending is heavier. */
  lemma StartedHeadIsHeaviest(threshold: int, run: Run, id: WorkerId)
    requires IsRun(threshold, run) && run.Then? && run.event.PeerHead? && Final(run.before).nextWorker > 0
    requires id in run.after.workers && id !in Final(run.before).workers
    ensures var s, ts := Final(run.before), run.event.ts;
            && run.after.workers[id] == ts
            && (forall w | w in s.workers :: !IsHeavier(s.workers[w], ts))
            && (forall t | t in Tips(s.pend) :: !IsHeavier(t, ts))
  {
    RunInvariant(threshold, run.before);
    PeerHeadStep(threshold, Final(run.before), run.event.peer, run.event.ts, run.after);
  }

  /** Whenever no worker is active, nothing is queued anywhere. */
  lemma QuiescentWhenIdle(threshold: int, run: Run)
    requires IsRun(threshold, run) && Final(run).workers == map[]
    ensures Final(run).pend == [] && Final(run).deferred == []
  {
    RunInvariant(threshold, run);
    IdleMeansNothingPending(Final(run));
  }
}
