/** When a step of the scheduler gives a worker a target that another worker already
    has. The order in which the map of workers is visited is free, so this is about
    what some order allows. */
module SyncSharing {
  import opened Options
  import opened TipSets
  import opened SyncBuckets
  import opened SyncSchedule
  import opened SyncScheduleRuns

  predicate IsActive(s: State, h: TipSet) {
    exists id | id in s.workers :: Equals(s.workers[id], h)
  }

  /** Some worker is new and has the target of another one. */
  predicate SharesNew(s: State, s': State) {
    exists id, w | id in s'.workers && w in s'.workers && id !in s.workers && id != w :: Equals(s'.workers[w], s'.workers[id])
  }

  /** What the steps need of a state. */
  ghost predicate Ready(s: State) {
    Shaped(s) && Anchored(s) && forall id | id in s.workers :: id < s.nextWorker
  }

  // ---------- peer heads ----------

  /** A peer head handed out as work is not being synced. */
  lemma HeadNotShared(s: State, ts: TipSet, m: State, work: Option<TipSet>)
    requires Shaped(s) && AddTarget(s, ts, m, work) && work.Some?
    ensures work.value == ts && m == s && !IsActive(s, ts)
  {}

  lemma PeerHeadNeverShares(threshold: int, s: State, peer: PeerId, ts: TipSet, s': State)
    requires Inv(s) && OnPeerHead(threshold, s, peer, ts, s')
    ensures !SharesNew(s, s')
  {
    if s.nextWorker > 0 {
      var m, work :| AddTarget(s, ts, m, work) && s' == SpawnIf(m, work);
      AddTargetKeeps(s, ts, m, work);
      if work.Some? {
        HeadNotShared(s, ts, m, work);
      }
    }
  }

  // ---------- deferred targets ----------

  /** The popped tip is passed over: synced lately, taken over by a pending chain, or
      not wanted by the first worker visited. */
  predicate Passed(s: State, h: TipSet, first: Option<WorkerId>)
    requires VisitedFirst(s, first)
  {
    SyncedRecently(s, h) || RelatedToAny(s.pend, h) || first.None? || !Indifferent(s.workers[first.value], h)
  }

  lemma RoundIff(s: State, first: Option<WorkerId>)
    requires Shaped(s) && s.deferred != [] && VisitedFirst(s, first)
    ensures var (h, rest) := PopDeferred(s);
            var (m, work) := DeferredRound(s, first);
            && m.workers == s.workers
            && (work.None? <==> Passed(s, h, first))
            && (work.Some? ==> work.value == h && m == rest)
  {}

  /** The deferred selection may start an active target: the next one popped is active
      and some worker is indifferent to it, or it may be passed over and that holds
      further on. */
  ghost predicate MayRestart(s: State)
    requires Shaped(s)
    decreases |s.deferred|
  {
    && s.deferred != []
    && var h := PopDeferred(s).0;
    || (&& IsActive(s, h) && !SyncedRecently(s, h) && !RelatedToAny(s.pend, h)
        && exists id | id in s.workers :: Indifferent(s.workers[id], h))
    || (exists first | VisitedFirst(s, first) :: Passed(s, h, first) && MayRestart(DeferredRound(s, first).0))
  }

  /** An active target was selected. */
  ghost predicate Restarts(s: State, s': State, h: TipSet)
    requires Shaped(s)
  {
    SelectDeferred(s, s', Some(h)) && IsActive(s, h)
  }

  lemma {:induction false} RestartOnlyIf(s: State, s': State, h: TipSet)
    requires Shaped(s) && Restarts(s, s', h)
    ensures MayRestart(s)
    decreases |s.deferred|
  {
    var first :| VisitedFirst(s, first) &&
      var (m, w) := DeferredRound(s, first);
      if w.Some? then s' == m && Some(h) == w else SelectDeferred(m, s', Some(h));
    RoundIff(s, first);
    var (m, w) := DeferredRound(s, first);
    if w.None? {
      RestartOnlyIf(m, s', h);
    }
  }

  lemma {:induction false} RestartIf(s: State) returns (s': State, h: TipSet)
    requires Shaped(s) && MayRestart(s)
    ensures Restarts(s, s', h)
    decreases |s.deferred|
  {
    h := PopDeferred(s).0;
    if IsActive(s, h) && !SyncedRecently(s, h) && !RelatedToAny(s.pend, h) && exists id | id in s.workers :: Indifferent(s.workers[id], h) {
      var id :| id in s.workers && Indifferent(s.workers[id], h);
      RoundIff(s, Some(id));
      s' := DeferredRound(s, Some(id)).0;
    } else {
      var first :| VisitedFirst(s, first) && Passed(s, h, first) && MayRestart(DeferredRound(s, first).0);
      RoundIff(s, first);
      s', h := RestartIf(DeferredRound(s, first).0);
    }
  }

  /** The next tip popped, if it is active, is started a second time for some order of
      the map if and only if some other worker is indifferent to it. */
  lemma DuplicateStartIff(s: State)
    requires Shaped(s) && Anchored(s) && s.deferred != []
    requires var h := PopDeferred(s).0; IsActive(s, h) && !SyncedRecently(s, h) && !RelatedToAny(s.pend, h)
    ensures var (h, rest) := PopDeferred(s);
            SelectDeferred(s, rest, Some(h)) <==> exists id | id in s.workers :: Indifferent(s.workers[id], h)
  {
    var (h, rest) := PopDeferred(s);
    if SelectDeferred(s, rest, Some(h)) {
      var first :| VisitedFirst(s, first) &&
        var (m, w) := DeferredRound(s, first);
        if w.Some? then rest == m && Some(h) == w else SelectDeferred(m, rest, Some(h));
      RoundIff(s, first);
      DeferredRoundKeeps(s, first);
      var (m, w) := DeferredRound(s, first);
      if w.None? {
        SelectDeferredOutcome(m, rest, Some(h));
        assert false;
      }
    } else {
      forall id | id in s.workers ensures !Indifferent(s.workers[id], h) {
        RoundIff(s, Some(id));
      }
    }
  }

  // ---------- a worker is done ----------

  /** The heaviest of the pending tips on the finished chain, if it is to be next. */
  predicate PendingNext(f: State, done: TipSet, h: TipSet) {
    && PoppedRelated(f.pend, done).Some? && HeaviestTip(PoppedRelated(f.pend, done).value) == h
    && !IsHeavier(done, h) && !SyncingHeavier(f, h) && !SyncedRecently(f, h)
  }

  /** The pending tips of the finished chain taken out. */
  function Popped(f: State, done: TipSet): State {
    f.(pend := Unrelated(f.pend, done))
  }

  /** A pending target is started, active or not, if and only if nothing that was just
      synced, is being synced or was synced lately is heavier, and it was not synced
      lately itself. */
  lemma PendingStartedIff(s: State, id: WorkerId, ok: bool, fast: bool, m: State, work: Option<TipSet>)
    requires Inv(s) && id in s.workers
    requires var f := Finished(s, id, ok, fast);
             PoppedRelated(f.pend, s.workers[id]).Some? && SelectTarget(f, s.workers[id], m, work)
    ensures var f, done := Finished(s, id, ok, fast), s.workers[id];
            var h := HeaviestTip(PoppedRelated(f.pend, done).value);
            work == Some(h) && m == Popped(f, done) <==> !IsHeavier(done, h) && !SyncingHeavier(f, h) && !SyncedRecently(f, h)
  {
    var f, done := Finished(s, id, ok, fast), s.workers[id];
    RemovalKeepsAnchors(s, id, ok, fast);
    if SelectDeferred(Popped(f, done), m, work) {
      SelectDeferredOutcome(Popped(f, done), m, work);
    }
  }

  ghost predicate MayShareAfter(s: State, id: WorkerId, ok: bool, fast: bool)
    requires Inv(s) && id in s.workers
  {
    var f, done := Finished(s, id, ok, fast), s.workers[id];
    PopRelatedKeepsShape(f.pend, done);
    if PoppedRelated(f.pend, done).Some? && PendingNext(f, done, HeaviestTip(PoppedRelated(f.pend, done).value))
    then IsActive(f, HeaviestTip(PoppedRelated(f.pend, done).value))
    else MayRestart(Popped(f, done))
  }

  /** One worker is started: it shares if and only if its target is active. */
  lemma SpawnShares(s: State, m: State, target: TipSet)
    requires m.workers.Keys <= s.workers.Keys && m.nextWorker == s.nextWorker && forall id | id in s.workers :: id < s.nextWorker
    ensures SharesNew(s, Spawn(m, target)) <==> IsActive(m, target)
  {
    var s' := Spawn(m, target);
    if id :| id in m.workers && Equals(m.workers[id], target) {
      assert s.nextWorker in s'.workers && id in s'.workers;
    }
  }

  lemma WorkerDoneSharesOnlyIf(s: State, id: WorkerId, ok: bool, fast: bool, s': State)
    requires Inv(s) && OnWorkerDone(s, id, ok, fast, s') && SharesNew(s, s')
    ensures MayShareAfter(s, id, ok, fast)
  {
    var f, done := Finished(s, id, ok, fast), s.workers[id];
    var m, work :| SelectTarget(f, done, m, work) && s' == SpawnIf(m, work);
    SelectTargetKeeps(s, id, ok, fast, m, work);
    if work.Some? {
      SpawnShares(s, m, work.value);
      if SelectDeferred(Popped(f, done), m, work) {
        RemovalKeepsAnchors(s, id, ok, fast);
        assert Restarts(Popped(f, done), m, work.value);
        RestartOnlyIf(Popped(f, done), m, work.value);
      }
    }
  }

  lemma WorkerDoneSharesIf(s: State, id: WorkerId, ok: bool, fast: bool) returns (s': State)
    requires Inv(s) && id in s.workers && MayShareAfter(s, id, ok, fast)
    ensures OnWorkerDone(s, id, ok, fast, s') && SharesNew(s, s')
  {
    var f, done := Finished(s, id, ok, fast), s.workers[id];
    RemovalKeepsAnchors(s, id, ok, fast);
    var m, h := Popped(f, done), done;
    if PoppedRelated(f.pend, done).Some? && PendingNext(f, done, HeaviestTip(PoppedRelated(f.pend, done).value)) {
      h := HeaviestTip(PoppedRelated(f.pend, done).value);
    } else {
      m, h := RestartIf(Popped(f, done));
      SelectDeferredOutcome(Popped(f, done), m, Some(h));
    }
    assert SelectTarget(f, done, m, Some(h));
    SpawnShares(s, m, h);
    s' := Spawn(m, h);
    assert s' == SpawnIf(m, Some(h));
  }

  // ---------- the tick ----------

  /** Starting deferred targets up to the limit may start an active one: there is room,
      and for some worker visited first the next tip popped is passed over and that
      holds further on, or it is started and is active, or that holds after its start. */
  ghost predicate MayRampTwice(s: State)
    requires Shaped(s)
    decreases |s.deferred|
  {
    && |s.workers| < MAX_SYNC_WORKERS && s.deferred != []
    && var (h, rest) := PopDeferred(s);
    exists first | VisitedFirst(s, first) ::
      if Passed(s, h, first) then MayRampTwice(DeferredRound(s, first).0)
      else IsActive(s, h) || MayRampTwice(Spawn(rest, h))
  }

  /** A selection after which ramping up restarts a target is made of such rounds. */
  lemma {:induction false} RampTwiceBefore(s: State, m: State, h: TipSet)
    requires Shaped(s) && Shaped(m) && |s.workers| < MAX_SYNC_WORKERS && SelectDeferred(s, m, Some(h))
    requires IsActive(s, h) || MayRampTwice(Spawn(m, h))
    ensures MayRampTwice(s)
    decreases |s.deferred|
  {
    var first :| VisitedFirst(s, first) &&
      var (k, w) := DeferredRound(s, first);
      if w.Some? then m == k && Some(h) == w else SelectDeferred(k, m, Some(h));
    RoundIff(s, first);
    var (k, w) := DeferredRound(s, first);
    if w.None? {
      RampTwiceBefore(k, m, h);
    }
  }

  lemma {:induction false} RampTwiceAfter(s: State) returns (m: State, h: TipSet)
    requires Shaped(s) && MayRampTwice(s)
    ensures MayGoOn(s, m, h) && (IsActive(s, h) || MayRampTwice(Spawn(m, h)))
    decreases |s.deferred|
  {
    var rest := PopDeferred(s).1;
    h := PopDeferred(s).0;
    var first :| VisitedFirst(s, first) &&
      if Passed(s, h, first) then MayRampTwice(DeferredRound(s, first).0)
      else IsActive(s, h) || MayRampTwice(Spawn(rest, h));
    RoundIff(s, first);
    if Passed(s, h, first) {
      m, h := RampTwiceAfter(DeferredRound(s, first).0);
    } else {
      m := rest;
    }
  }

  ghost predicate MayGoOn(s: State, m: State, h: TipSet)
    requires Shaped(s)
  {
    SelectDeferred(s, m, Some(h)) && |m.deferred| < |s.deferred| && Shaped(m)
  }

  lemma ReadyAfter(s: State, m: State, h: TipSet)
    requires Ready(s) && SelectDeferred(s, m, Some(h))
    ensures MayGoOn(s, m, h) && Ready(Spawn(m, h)) && m.workers == s.workers && m.nextWorker == s.nextWorker
  {
    SelectDeferredOutcome(s, m, Some(h));
    SpawnKeepsAnchors(m, h);
  }

  /** Some order of the map leads to an outcome. */
  lemma {:induction false} SelectTotal(s: State) returns (s': State, work: Option<TipSet>)
    requires Shaped(s)
    ensures SelectDeferred(s, s', work)
    decreases |s.deferred|
  {
    if s.deferred == [] {
      return s, None;
    }
    var first: Option<WorkerId> := None;
    if s.workers != map[] {
      var id :| id in s.workers;
      first := Some(id);
    }
    assert VisitedFirst(s, first);
    var (m, w) := DeferredRound(s, first);
    if w.Some? {
      return m, w;
    }
    s', work := SelectTotal(m);
  }

  lemma {:induction false} RampTotal(s: State) returns (s': State)
    requires Ready(s)
    ensures RampUp(s, s')
    decreases |s.deferred|
  {
    if |s.workers| >= MAX_SYNC_WORKERS {
      return s;
    }
    var m, work := SelectTotal(s);
    if work.None? {
      assert RampUpAfter(s, m, work, m);
      return m;
    }
    ReadyAfter(s, m, work.value);
    s' := RampTotal(Spawn(m, work.value));
    assert RampUpAfter(s, m, work, s');
  }

  /** What is shared with a worker that was there before is shared by the last one started. */
  lemma SharesLaterOrNow(s: State, m: State, h: TipSet, s': State)
    requires Ready(s) && m.workers == s.workers && m.nextWorker == s.nextWorker && SharesNew(s, s')
    requires forall id | id in Spawn(m, h).workers :: id in s'.workers && s'.workers[id] == Spawn(m, h).workers[id]
    ensures IsActive(s, h) || SharesNew(Spawn(m, h), s')
  {
    var id, w :| id in s'.workers && w in s'.workers && id !in s.workers && id != w && Equals(s'.workers[w], s'.workers[id]);
    var s1 := Spawn(m, h);
    if id !in s1.workers {
    } else if w !in s1.workers {
      assert Equals(s'.workers[id], s'.workers[w]);
    } else {
      assert id == s.nextWorker && w in s.workers && Equals(s.workers[w], h);
    }
  }

  lemma {:induction false} RampSharesOnlyIf(s: State, s': State)
    requires Ready(s) && RampUp(s, s') && SharesNew(s, s')
    ensures MayRampTwice(s)
    decreases |s.deferred|
  {
    if |s.workers| < MAX_SYNC_WORKERS {
      var m, work :| SelectDeferred(s, m, work) && RampUpAfter(s, m, work, s');
      SelectDeferredOutcome(s, m, work);
      if work.Some? {
        var h := work.value;
        ReadyAfter(s, m, h);
        forall id | id in Spawn(m, h).workers ensures id in s'.workers && s'.workers[id] == Spawn(m, h).workers[id] {
          RampUpKeepsTargets(Spawn(m, h), s', id);
        }
        SharesLaterOrNow(s, m, h, s');
        if !IsActive(s, h) {
          RampSharesOnlyIf(Spawn(m, h), s');
        }
        RampTwiceBefore(s, m, h);
      }
    }
  }

  lemma SharesNow(s: State, m: State, h: TipSet, s': State)
    requires Ready(s) && Ready(Spawn(m, h)) && m.workers == s.workers && m.nextWorker == s.nextWorker && IsActive(s, h)
    requires RampUp(Spawn(m, h), s')
    ensures SharesNew(s, s')
  {
    var w :| w in s.workers && Equals(s.workers[w], h);
    RampUpKeepsTargets(Spawn(m, h), s', w);
    RampUpKeepsTargets(Spawn(m, h), s', s.nextWorker);
  }

  lemma {:induction false} RampSharesIf(s: State) returns (s': State)
    requires Ready(s) && MayRampTwice(s)
    ensures RampUp(s, s') && SharesNew(s, s')
    decreases |s.deferred|
  {
    var m, h := RampTwiceAfter(s);
    ReadyAfter(s, m, h);
    if IsActive(s, h) {
      s' := RampTotal(Spawn(m, h));
      SharesNow(s, m, h, s');
    } else {
      s' := RampSharesIf(Spawn(m, h));
    }
    assert RampUpAfter(s, m, Some(h), s');
  }

  // ---------- every step ----------

  /** The step can give a new worker the target of another one. */
  ghost predicate MayShare(s: State, e: Event)
    requires Inv(s)
  {
    match e
    case PeerHead(_, _) => false
    case WorkerDone(id, ok, fast) => id in s.workers && MayShareAfter(s, id, ok, fast)
    case Tick => s.tickerLive && s.initialSyncDone && MayRampTwice(s.(tickerLive := false))
  }

  ghost predicate StepShares(threshold: int, s: State, e: Event, s': State)
    requires Shaped(s)
  {
    Step(threshold, s, e, s') && SharesNew(s, s')
  }

  lemma SharedOnlyIf(threshold: int, s: State, e: Event, s': State)
    requires Inv(s) && StepShares(threshold, s, e, s')
    ensures MayShare(s, e)
  {
    match e {
      case PeerHead(peer, ts) => PeerHeadNeverShares(threshold, s, peer, ts, s');
      case WorkerDone(id, ok, fast) => WorkerDoneSharesOnlyIf(s, id, ok, fast, s');
      case Tick => RampSharesOnlyIf(s.(tickerLive := false), s');
    }
  }

  /** For every state a run can be in and every event: some order of the map lets the
      step start a target that is already active if and only if the pending tip that
      comes next is active, or the deferred selection may restart one. */
  lemma SharedStartIff(threshold: int, s: State, e: Event)
    requires Inv(s)
    ensures (exists s' :: StepShares(threshold, s, e, s')) <==> MayShare(s, e)
  {
    forall s' | StepShares(threshold, s, e, s') ensures MayShare(s, e) {
      SharedOnlyIf(threshold, s, e, s');
    }
    if MayShare(s, e) {
      var s' := s;
      if e.Tick? {
        s' := RampSharesIf(s.(tickerLive := false));
      } else {
        s' := WorkerDoneSharesIf(s, e.id, e.ok, e.fast);
      }
      assert StepShares(threshold, s, e, s');
    }
  }
}
