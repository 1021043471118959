/** Runs of the scheduler in which deferred heads are lost and in which two workers
    come to sync the same target. */
module SyncCounterexamples {
  import opened Options
  import opened TipSets
  import opened SyncBuckets
  import opened SyncSchedule
  import opened SyncScheduleRuns

  lemma SingleBucket(ts: TipSet)
    ensures Insert([], ts) == [[ts]] && AllWellFormed([[ts]])
    ensures Best([[ts]]) == 0 && HeaviestTip([ts]) == ts && Without([[ts]], 0) == []
    ensures Heaviest([[ts]]) == Some(ts)
  {}

  lemma FirstHead(peer: PeerId, ts: TipSet)
    ensures Step(1, INITIAL, PeerHead(peer, ts), Spawn(INITIAL, ts))
  {
    var heads := map[peer := ts];
    var ids := [peer];
    SingleBucket(ts);
    assert ids[..0] == [];
    assert InsertAll(ids, heads) == [[ts]];
    assert HeadOrder(heads, ids);
    assert InitialTarget(heads, ts);
    assert INITIAL.heads[peer := ts] == heads;
    assert INITIAL.(heads := map[]) == INITIAL;
  }

  lemma ExtendTo(run: Run, e: Event, s: State) returns (r: Run)
    requires IsRun(1, run) && Shaped(Final(run)) && Step(1, Final(run), e, s)
    ensures IsRun(1, r) && r == Then(run, e, s)
  {
    r := Then(run, e, s);
  }

  /** One head arrives and no worker is equal to it, heavier, or its parent. */
  lemma HeadDeferred(s: State, peer: PeerId, ts: TipSet)
    requires Shaped(s) && s.nextWorker > 0 && s.workers != map[] && s.pend == []
    requires !SyncedRecently(s, ts) && !s.initialSyncDone
    requires forall id | id in s.workers :: Indifferent(s.workers[id], ts)
    ensures Step(1, s, PeerHead(peer, ts), s.(deferred := Insert(s.deferred, ts)))
  {
    var m := s.(deferred := Insert(s.deferred, ts));
    assert !RelatedToAny([], ts);
    assert AddTarget(s, ts, m, None);
    assert m == SpawnIf(m, None);
  }

  const A := TipSet([1], [0], 1, 10)
  const B := TipSet([2], [7], 1, 20)

  const A_ACTIVE := Spawn(INITIAL, A)
  const B_WAITS := A_ACTIVE.(deferred := [[B]])
  const B_LOST := State(1, map[], [], [], [A], true, true, map[])

  lemma HeavierHeadWaits()
    ensures Shaped(A_ACTIVE) && Step(1, A_ACTIVE, PeerHead(1, B), B_WAITS)
  {
    SingleBucket(B);
    assert 0 in A_ACTIVE.workers;
    HeadDeferred(A_ACTIVE, 1, B);
  }

  lemma LastWorkerLeaves()
    ensures Shaped(B_WAITS) && Step(1, B_WAITS, WorkerDone(0, true, true), B_LOST)
  {
    SingleBucket(B);
    var f := Finished(B_WAITS, 0, true, true);
    assert B_WAITS.workers[0] == A;
    assert f == B_LOST.(deferred := [[B]]);
    assert f.(pend := Unrelated(f.pend, A)) == f;
    assert SelectDeferred(B_LOST, B_LOST, None);
    assert PopDeferred(f) == (B, B_LOST);
    assert VisitedFirst(f, None) && DeferredRound(f, None) == (B_LOST, None);
    assert SelectDeferred(f, B_LOST, None);
    assert SelectTarget(f, A, B_LOST, None);
    assert B_LOST == SpawnIf(B_LOST, None);
  }

  /** A head heavier than the initial target is deferred behind it and lost when
      that sync succeeds: the scheduler is idle and has synced nothing as heavy. */
  lemma DeferredHeadLost() returns (run: Run)
    ensures IsRun(1, run)
    ensures run.Then? && run.before.Then? && run.before.event == PeerHead(1, B)
    ensures var last := Final(run);
            && last.workers == map[] && last.pend == [] && last.deferred == []
            && forall t | t in last.synced :: IsHeavier(B, t)
  {
    run := Start;
    FirstHead(0, A);
    run := ExtendTo(run, PeerHead(0, A), A_ACTIVE);
    HeavierHeadWaits();
    run := ExtendTo(run, PeerHead(1, B), B_WAITS);
    LastWorkerLeaves();
    run := ExtendTo(run, WorkerDone(0, true, true), B_LOST);
  }

  const P := TipSet([2], [1], 2, 11)
  const H := TipSet([3], [2], 3, 20)
  const X := TipSet([4], [9], 3, 20)

  const H_WAITS := A_ACTIVE.(deferred := [[H]])
  const P_PENDS := H_WAITS.(pend := [[P]])
  const H_PENDS := H_WAITS.(pend := [[P, H]])
  const H_ACTIVE := State(2, map[1 := H], [], [[H]], [A], true, true, map[])
  const X_ACTIVE := State(3, map[1 := H, 2 := X], [], [[H]], [A], true, true, map[])
  const H_TWICE := State(4, map[1 := H, 2 := X, 3 := H], [], [], [A], true, false, map[])

  lemma HeadWaits()
    ensures Shaped(A_ACTIVE) && Step(1, A_ACTIVE, PeerHead(1, H), H_WAITS)
  {
    SingleBucket(H);
    assert 0 in A_ACTIVE.workers;
    HeadDeferred(A_ACTIVE, 1, H);
  }

  /** P builds on the target of the only worker. */
  lemma ParentPends(s: State)
    requires Shaped(s) && s.nextWorker > 0 && s.workers == map[0 := A] && s.pend == [] && s.synced == []
    ensures Step(1, s, PeerHead(1, P), s.(pend := [[P]]))
  {
    SingleBucket(P);
    assert 0 in s.workers && Meets(s.workers[0], P);
    var m := s.(pend := [[P]]);
    assert AddTarget(s, P, m, None);
    assert m == SpawnIf(m, None);
  }

  lemma PairBucket()
    ensures Insert([[P]], H) == [[P, H]] && AllWellFormed([[P, H]])
  {
    SingleBucket(P);
    assert Related(H, [P][0]) && SameChain([[P]][0], H);
    InsertKeepsShape([[P]], H);
    assert FirstRelated([[P]], H) == 0 && !Holds([P], H);
    assert Add([P], H) == [P] + [H] == [P, H];
    assert [[P]][0 := [P, H]] == [[P, H]];
  }

  lemma HeadPendsToo()
    ensures Shaped(P_PENDS) && Step(1, P_PENDS, PeerHead(2, H), H_PENDS)
  {
    SingleBucket(H);
    SingleBucket(P);
    assert 0 in P_PENDS.workers;
    assert Related(H, [P][0]) && SameChain([[P]][0], H);
    PairBucket();
    assert AddTarget(P_PENDS, H, H_PENDS, None);
    assert H_PENDS == SpawnIf(H_PENDS, None);
  }

  lemma OneRelated(b: Bucket, ts: TipSet)
    requires SameChain(b, ts)
    ensures PoppedRelated([b], ts) == Some(b) && Unrelated([b], ts) == []
  {
    assert [b][..0] == [] && [b][0] == b;
    assert RelatedTips([b], ts) == [] + b == b;
  }

  /** A worker finishes and its chain goes on with the pending bucket. */
  lemma DoneThenPending(s: State, id: WorkerId, b: Bucket, f: State)
    requires Shaped(s) && id in s.workers && s.pend == [b] && b != [] && SameChain(b, s.workers[id])
    requires f == Finished(s, id, true, true)
    requires !IsHeavier(s.workers[id], HeaviestTip(b)) && !SyncingHeavier(f, HeaviestTip(b)) && !SyncedRecently(f, HeaviestTip(b))
    ensures Step(1, s, WorkerDone(id, true, true), Spawn(f.(pend := []), HeaviestTip(b)))
  {
    OneRelated(b, s.workers[id]);
    var m, h := f.(pend := []), HeaviestTip(b);
    assert SelectTarget(f, s.workers[id], m, Some(h));
    assert Spawn(m, h) == SpawnIf(m, Some(h));
  }

  lemma HeaviestOfPair()
    ensures HeaviestTip([P, H]) == H
  {
    assert [P, H][..1] == [P];
    assert FirstMax([P]) == 0;
  }

  const A_DONE := State(1, map[], [[P, H]], [[H]], [A], true, true, map[])

  lemma ADone()
    ensures Finished(H_PENDS, 0, true, true) == A_DONE
  {
    assert H_PENDS.workers - {0} == map[];
  }

  lemma ExtensionStarts()
    ensures Shaped(H_PENDS) && Step(1, H_PENDS, WorkerDone(0, true, true), H_ACTIVE)
  {
    SingleBucket(H);
    PairBucket();
    HeaviestOfPair();
    ADone();
    assert Related(A, [P, H][0]);
    DoneThenPending(H_PENDS, 0, [P, H], A_DONE);
    assert H_ACTIVE == Spawn(A_DONE.(pend := []), H);
  }

  /** A head that no worker objects to is started. */
  lemma HeadStarts(s: State, peer: PeerId, ts: TipSet)
    requires Shaped(s) && s.nextWorker > 0 && s.workers != map[] && s.pend == []
    requires !SyncedRecently(s, ts) && s.initialSyncDone && |s.workers| < MAX_SYNC_WORKERS
    requires forall id | id in s.workers :: Indifferent(s.workers[id], ts)
    ensures Step(1, s, PeerHead(peer, ts), Spawn(s, ts))
  {
    assert !RelatedToAny([], ts);
    assert AddTarget(s, ts, s, Some(ts));
    assert Spawn(s, ts) == SpawnIf(s, Some(ts));
  }

  lemma OneBucket(b: Bucket)
    requires b != []
    ensures Best([b]) == 0 && Without([b], 0) == []
  {
    assert Tops([b]) == [HeaviestTip(b)];
  }

  lemma NothingDeferred(s: State)
    requires Shaped(s) && s.deferred == []
    ensures RampUp(s, s)
  {
    assert SelectDeferred(s, s, None);
    assert RampUpAfter(s, s, None, s);
  }

  /** The tick starts the heaviest tip of the only deferred bucket. */
  lemma TickStartsOne(s: State, b: Bucket, id: WorkerId, h: TipSet)
    requires Shaped(s) && s.tickerLive && s.initialSyncDone && s.pend == [] && s.deferred == [b] && b != []
    requires |s.workers| < MAX_SYNC_WORKERS && id in s.workers && h == HeaviestTip(b)
    requires Indifferent(s.workers[id], h) && !SyncedRecently(s, h)
    ensures Step(1, s, Tick, Spawn(s.(tickerLive := false, deferred := []), h))
  {
    OneBucket(b);
    var t := s.(tickerLive := false);
    var rest := t.(deferred := []);
    assert PopDeferred(t) == (h, rest);
    assert VisitedFirst(t, Some(id)) && DeferredRound(t, Some(id)) == (rest, Some(h));
    assert SelectDeferred(t, rest, Some(h));
    NothingDeferred(Spawn(rest, h));
    assert RampUpAfter(t, rest, Some(h), Spawn(rest, h));
  }

  lemma ForkStarts()
    ensures Shaped(H_ACTIVE) && Step(1, H_ACTIVE, PeerHead(3, X), X_ACTIVE)
  {
    SingleBucket(H);
    assert 1 in H_ACTIVE.workers && |H_ACTIVE.workers| == 1;
    HeadStarts(H_ACTIVE, 3, X);
  }

  lemma TickStartsAgain()
    ensures Shaped(X_ACTIVE) && Step(1, X_ACTIVE, Tick, H_TWICE)
  {
    SingleBucket(H);
    assert X_ACTIVE.workers == map[1 := H][2 := X] && |X_ACTIVE.workers| == 2;
    TickStartsOne(X_ACTIVE, [H], 2, H);
    assert Spawn(X_ACTIVE.(tickerLive := false, deferred := []), H) == H_TWICE;
  }

  /** Two workers can come to sync the same target. */
  lemma SharedTargetReachable() returns (run: Run)
    ensures IsRun(1, run)
    ensures 1 in Final(run).workers && 3 in Final(run).workers
    ensures Final(run).workers[1] == Final(run).workers[3]
  {
    run := Start;
    FirstHead(0, A);
    run := ExtendTo(run, PeerHead(0, A), A_ACTIVE);
    HeadWaits();
    run := ExtendTo(run, PeerHead(1, H), H_WAITS);
    SingleBucket(H);
    ParentPends(H_WAITS);
    run := ExtendTo(run, PeerHead(1, P), P_PENDS);
    HeadPendsToo();
    run := ExtendTo(run, PeerHead(2, H), H_PENDS);
    ExtensionStarts();
    run := ExtendTo(run, WorkerDone(0, true, true), H_ACTIVE);
    ForkStarts();
    run := ExtendTo(run, PeerHead(3, X), X_ACTIVE);
    TickStartsAgain();
    run := ExtendTo(run, Tick, H_TWICE);
  }

  const P_DONE := State(1, map[], [[P]], [[H]], [A], true, true, map[])
  const P_ACTIVE := State(2, map[1 := P], [], [[H]], [A], true, true, map[])
  const PX_ACTIVE := State(3, map[1 := P, 2 := X], [], [[H]], [A], true, true, map[])
  const PXH_ACTIVE := State(4, map[1 := P, 2 := X, 3 := H], [], [], [A], true, false, map[])
  const H_PENDS_AGAIN := PXH_ACTIVE.(pend := [[H]])
  const XH_LEFT := State(4, map[2 := X, 3 := H], [[H]], [], [A, P], true, false, map[])
  const H_TWICE_AGAIN := State(5, map[2 := X, 3 := H, 4 := H], [], [], [A, P], true, false, map[])

  lemma ParentStarts()
    ensures Shaped(P_PENDS) && Step(1, P_PENDS, WorkerDone(0, true, true), P_ACTIVE)
  {
    SingleBucket(H);
    SingleBucket(P);
    assert P_PENDS.workers - {0} == map[];
    assert Finished(P_PENDS, 0, true, true) == P_DONE;
    assert Related(A, [P][0]);
    DoneThenPending(P_PENDS, 0, [P], P_DONE);
    assert P_ACTIVE == Spawn(P_DONE.(pend := []), P);
  }

  lemma ForkStartsToo()
    ensures Shaped(P_ACTIVE) && Step(1, P_ACTIVE, PeerHead(3, X), PX_ACTIVE)
  {
    SingleBucket(H);
    assert 1 in P_ACTIVE.workers && |P_ACTIVE.workers| == 1;
    HeadStarts(P_ACTIVE, 3, X);
  }

  lemma TickStartsH()
    ensures Shaped(PX_ACTIVE) && Step(1, PX_ACTIVE, Tick, PXH_ACTIVE)
  {
    SingleBucket(H);
    assert PX_ACTIVE.workers == map[1 := P][2 := X] && |PX_ACTIVE.workers| == 2;
    TickStartsOne(PX_ACTIVE, [H], 2, H);
    assert Spawn(PX_ACTIVE.(tickerLive := false, deferred := []), H) == PXH_ACTIVE;
  }

  lemma ReportedAgain()
    ensures Shaped(PXH_ACTIVE) && Step(1, PXH_ACTIVE, PeerHead(2, H), H_PENDS_AGAIN)
  {
    SingleBucket(H);
    assert 1 in PXH_ACTIVE.workers && Meets(PXH_ACTIVE.workers[1], H) && !Equals(H, P);
    assert AddTarget(PXH_ACTIVE, H, H_PENDS_AGAIN, None);
    assert H_PENDS_AGAIN == SpawnIf(H_PENDS_AGAIN, None);
  }

  lemma PendingStartsAgain()
    ensures Shaped(H_PENDS_AGAIN) && Step(1, H_PENDS_AGAIN, WorkerDone(1, true, true), H_TWICE_AGAIN)
  {
    SingleBucket(H);
    assert H_PENDS_AGAIN.workers - {1} == map[2 := X, 3 := H];
    assert Finished(H_PENDS_AGAIN, 1, true, true) == XH_LEFT;
    assert Related(P, [H][0]);
    DoneThenPending(H_PENDS_AGAIN, 1, [H], XH_LEFT);
    assert Spawn(XH_LEFT.(pend := []), H) == H_TWICE_AGAIN;
  }

  /** The same by way of the pending queue: a head that is being synced is put there
      because its parent is, and started again when the parent is done. */
  lemma SharedByPending() returns (run: Run)
    ensures IsRun(1, run) && run.Then? && Final(run.before).deferred == []
    ensures 3 in Final(run).workers && 4 in Final(run).workers
    ensures Final(run).workers[3] == Final(run).workers[4]
  {
    run := Start;
    FirstHead(0, A);
    run := ExtendTo(run, PeerHead(0, A), A_ACTIVE);
    HeadWaits();
    run := ExtendTo(run, PeerHead(1, H), H_WAITS);
    SingleBucket(H);
    ParentPends(H_WAITS);
    run := ExtendTo(run, PeerHead(1, P), P_PENDS);
    ParentStarts();
    run := ExtendTo(run, WorkerDone(0, true, true), P_ACTIVE);
    ForkStartsToo();
    run := ExtendTo(run, PeerHead(3, X), PX_ACTIVE);
    TickStartsH();
    run := ExtendTo(run, Tick, PXH_ACTIVE);
    ReportedAgain();
    run := ExtendTo(run, PeerHead(2, H), H_PENDS_AGAIN);
    PendingStartsAgain();
    run := ExtendTo(run, WorkerDone(1, true, true), H_TWICE_AGAIN);
  }

  // two children of Q, equally heavy
  const Q := TipSet([5], [8], 2, 15)
  const H1 := TipSet([6], [5], 3, 20)
  const H2 := TipSet([7], [5], 3, 20)

  const Q_WAITS := A_ACTIVE.(deferred := [[Q]])
  const H1_WAITS := A_ACTIVE.(deferred := [[Q, H1]])
  const H2_WAITS := A_ACTIVE.(deferred := [[Q, H1, H2]])
  const ALL_WAIT := H2_WAITS.(pend := [[P]])
  const P_NEXT := State(1, map[], [[P]], [[Q, H1, H2]], [A], true, true, map[])
  const P_RUNS := State(2, map[1 := P], [], [[Q, H1, H2]], [A], true, true, map[])
  const H2_LOST := State(3, map[1 := P, 2 := H1], [], [], [A], true, false, map[])

  lemma BucketGrows(b: Bucket, t: TipSet)
    requires AllWellFormed([b]) && SameChain(b, t) && !Holds(b, t)
    ensures Insert([b], t) == [b + [t]] && AllWellFormed([b + [t]])
  {
    InsertKeepsShape([b], t);
    assert SameChain([b][0], t);
    assert [b][0 := b + [t]] == [b + [t]];
  }

  lemma FamilyBucket()
    ensures AllWellFormed([[Q]]) && AllWellFormed([[Q, H1]]) && AllWellFormed([[Q, H1, H2]])
    ensures Insert([], Q) == [[Q]] && Insert([[Q]], H1) == [[Q, H1]] && Insert([[Q, H1]], H2) == [[Q, H1, H2]]
  {
    SingleBucket(Q);
    assert Related(H1, [Q][0]);
    BucketGrows([Q], H1);
    assert [Q] + [H1] == [Q, H1];
    assert Related(H2, [Q, H1][0]);
    BucketGrows([Q, H1], H2);
    assert [Q, H1] + [H2] == [Q, H1, H2];
  }

  lemma FirstOfTwo()
    ensures HeaviestTip([Q, H1, H2]) == H1
  {
    assert [Q, H1, H2][..2] == [Q, H1] && [Q, H1][..1] == [Q];
    assert FirstMax([Q]) == 0;
    assert FirstMax([Q, H1]) == 1;
  }

  lemma FamilyWaits()
    ensures Shaped(A_ACTIVE) && Step(1, A_ACTIVE, PeerHead(1, Q), Q_WAITS)
    ensures Shaped(Q_WAITS) && Step(1, Q_WAITS, PeerHead(1, H1), H1_WAITS)
    ensures Shaped(H1_WAITS) && Step(1, H1_WAITS, PeerHead(1, H2), H2_WAITS)
  {
    FamilyBucket();
    assert 0 in A_ACTIVE.workers;
    HeadDeferred(A_ACTIVE, 1, Q);
    HeadDeferred(Q_WAITS, 1, H1);
    HeadDeferred(H1_WAITS, 1, H2);
  }

  lemma ParentRuns()
    ensures Shaped(ALL_WAIT) && Step(1, ALL_WAIT, WorkerDone(0, true, true), P_RUNS)
  {
    FamilyBucket();
    SingleBucket(P);
    assert ALL_WAIT.workers - {0} == map[];
    assert Finished(ALL_WAIT, 0, true, true) == P_NEXT;
    assert Related(A, [P][0]);
    DoneThenPending(ALL_WAIT, 0, [P], P_NEXT);
    assert P_RUNS == Spawn(P_NEXT.(pend := []), P);
  }

  lemma OneOfTwoStarts()
    ensures Shaped(P_RUNS) && Step(1, P_RUNS, Tick, H2_LOST)
  {
    FamilyBucket();
    FirstOfTwo();
    assert 1 in P_RUNS.workers && |P_RUNS.workers| == 1;
    TickStartsOne(P_RUNS, [Q, H1, H2], 1, H1);
    assert Spawn(P_RUNS.(tickerLive := false, deferred := []), H1) == H2_LOST;
  }

  lemma H2Waited()
    ensures Queued(P_RUNS.deferred, H2) && Indifferent(P_RUNS.workers[1], H2)
  {
    assert Equals([Q, H1, H2][2], H2);
    assert Holds([[Q, H1, H2]][0], H2);
    QueuedIn([[Q, H1, H2]], H2);
  }

  lemma H2Gone()
    ensures !Redundant(H2_LOST, H2) && !Queued(H2_LOST.pend, H2) && !Queued(H2_LOST.deferred, H2)
  {}

  /** A deferred head is lost although workers are active: it goes with the bucket
      from which an equally heavy one is started. Nothing it would repeat was synced,
      is being synced or is queued. */
  lemma SiblingLost() returns (run: Run)
    ensures IsRun(1, run) && run.Then? && run.event == Tick
    ensures Queued(Final(run.before).deferred, H2) && 1 in Final(run.before).workers
    ensures Indifferent(Final(run.before).workers[1], H2)
    ensures var last := Final(run); !Redundant(last, H2) && !Queued(last.pend, H2) && !Queued(last.deferred, H2)
  {
    run := Start;
    FirstHead(0, A);
    run := ExtendTo(run, PeerHead(0, A), A_ACTIVE);
    FamilyWaits();
    run := ExtendTo(run, PeerHead(1, Q), Q_WAITS);
    run := ExtendTo(run, PeerHead(1, H1), H1_WAITS);
    run := ExtendTo(run, PeerHead(1, H2), H2_WAITS);
    FamilyBucket();
    ParentPends(H2_WAITS);
    run := ExtendTo(run, PeerHead(1, P), ALL_WAIT);
    ParentRuns();
    run := ExtendTo(run, WorkerDone(0, true, true), P_RUNS);
    OneOfTwoStarts();
    run := ExtendTo(run, Tick, H2_LOST);
    H2Waited();
    H2Gone();
  }
}
