/** When a deferred head is lost, by a selection and by a whole step: it is not started
    and is no longer queued. As the order in which the map of workers is visited is
    free, this is about what some order allows. */
module SyncLosses {
  import opened Options
  import opened TipSets
  import opened SyncBuckets
  import opened SyncSchedule
  import opened SyncScheduleRuns
  import opened SyncSharing

  predicate Started(work: Option<TipSet>, t: TipSet) {
    work.Some? && Equals(work.value, t)
  }

  /** The selection ends with `t` neither started nor queued. */
  ghost predicate Loses(s: State, s': State, work: Option<TipSet>, t: TipSet)
    requires Shaped(s)
  {
    SelectDeferred(s, s', work) && !Started(work, t) && !Queued(s'.pend, t) && !Queued(s'.deferred, t)
  }

  /** `t` is also, or only, in another bucket than the one popped next. */
  predicate Elsewhere(s: State, t: TipSet)
    requires Shaped(s) && s.deferred != []
  {
    exists j | 0 <= j < |s.deferred| && j != Best(s.deferred) :: Holds(s.deferred[j], t)
  }

  /** `t` is not pending. Either its bucket is popped next, and `t` is not the tip that
      is offered or that tip is not taken up; or another bucket is popped, its tip may
      be passed over, and the same holds further on. */
  ghost predicate MayLose(s: State, t: TipSet)
    requires Shaped(s)
    decreases |s.deferred|
  {
    && Queued(s.deferred, t) && !Queued(s.pend, t) && s.deferred != []
    && var h := PopDeferred(s).0;
    exists first | VisitedFirst(s, first) ::
      if Elsewhere(s, t) then Passed(s, h, first) && MayLose(DeferredRound(s, first).0, t)
      else !(Equals(h, t) && TakenUp(s, h, first))
  }

  lemma PopIsQueued(s: State)
    requires Shaped(s) && s.deferred != []
    ensures Queued(s.deferred, PopDeferred(s).0)
  {
    BestIsGlobalMaximum(s.deferred);
  }

  lemma RoundKeepsPending(s: State, first: Option<WorkerId>, t: TipSet)
    requires Shaped(s) && s.deferred != [] && VisitedFirst(s, first)
    ensures Queued(s.pend, t) ==> Queued(DeferredRound(s, first).0.pend, t)
  {
    QueuedInsert(s.pend, PopDeferred(s).0, t);
  }

  lemma {:induction false} PendingStays(s: State, s': State, work: Option<TipSet>, t: TipSet)
    requires Shaped(s) && SelectDeferred(s, s', work) && Queued(s.pend, t)
    ensures Queued(s'.pend, t)
    decreases |s.deferred|
  {
    if s.deferred != [] {
      var first :| VisitedFirst(s, first) &&
        var (m, w) := DeferredRound(s, first);
        if w.Some? then s' == m && work == w else SelectDeferred(m, s', work);
      RoundKeepsPending(s, first, t);
      var (m, w) := DeferredRound(s, first);
      if w.None? {
        PendingStays(m, s', work, t);
      }
    }
  }

  lemma RoundAddsNothing(s: State, first: Option<WorkerId>, t: TipSet)
    requires Shaped(s) && s.deferred != [] && VisitedFirst(s, first) && !Queued(s.pend, t) && !Queued(s.deferred, t)
    ensures var (m, w) := DeferredRound(s, first); !Queued(m.pend, t) && !Queued(m.deferred, t) && !Started(w, t)
  {
    var h := PopDeferred(s).0;
    PopIsQueued(s);
    QueuedInsert(s.pend, h, t);
    QueuedWithout(s.deferred, Best(s.deferred), t);
    QueuedIn(s.deferred, t);
  }

  lemma {:induction false} GoneStaysGone(s: State, s': State, work: Option<TipSet>, t: TipSet)
    requires Shaped(s) && SelectDeferred(s, s', work) && !Queued(s.pend, t) && !Queued(s.deferred, t)
    ensures Loses(s, s', work, t)
    decreases |s.deferred|
  {
    if s.deferred != [] {
      var first :| VisitedFirst(s, first) &&
        var (m, w) := DeferredRound(s, first);
        if w.Some? then s' == m && work == w else SelectDeferred(m, s', work);
      RoundAddsNothing(s, first, t);
      var (m, w) := DeferredRound(s, first);
      if w.None? {
        GoneStaysGone(m, s', work, t);
      }
    }
  }

  /** One round: where `t` is afterwards. */
  lemma RoundFate(s: State, first: Option<WorkerId>, t: TipSet)
    requires Shaped(s) && s.deferred != [] && VisitedFirst(s, first) && Queued(s.deferred, t) && !Queued(s.pend, t)
    ensures var (h, (m, w)) := (PopDeferred(s).0, DeferredRound(s, first));
            && (Queued(m.deferred, t) <==> Elsewhere(s, t))
            && (Started(w, t) || Queued(m.pend, t) <==> Equals(h, t) && TakenUp(s, h, first))
  {
    QueuedInsert(s.pend, PopDeferred(s).0, t);
    QueuedWithout(s.deferred, Best(s.deferred), t);
  }

  lemma {:induction false} LostOnlyIf(s: State, s': State, work: Option<TipSet>, t: TipSet)
    requires Shaped(s) && Queued(s.deferred, t) && Loses(s, s', work, t)
    ensures MayLose(s, t)
    decreases |s.deferred|
  {
    if Queued(s.pend, t) {
      PendingStays(s, s', work, t);
    } else {
      QueuedIn(s.deferred, t);
      var first :| VisitedFirst(s, first) &&
        var (m, w) := DeferredRound(s, first);
        if w.Some? then s' == m && work == w else SelectDeferred(m, s', work);
      RoundIff(s, first);
      RoundFate(s, first, t);
      var (m, w) := DeferredRound(s, first);
      if w.None? {
        if Queued(m.pend, t) {
          PendingStays(m, s', work, t);
        } else if Elsewhere(s, t) {
          LostOnlyIf(m, s', work, t);
        }
      }
    }
  }

  lemma {:induction false} LostIf(s: State, t: TipSet) returns (s': State, work: Option<TipSet>)
    requires Shaped(s) && MayLose(s, t)
    ensures Loses(s, s', work, t)
    decreases |s.deferred|
  {
    var h := PopDeferred(s).0;
    var first :| VisitedFirst(s, first) &&
      if Elsewhere(s, t) then Passed(s, h, first) && MayLose(DeferredRound(s, first).0, t)
      else !(Equals(h, t) && TakenUp(s, h, first));
    RoundIff(s, first);
    RoundFate(s, first, t);
    var (m, w) := DeferredRound(s, first);
    if Elsewhere(s, t) {
      s', work := LostIf(m, t);
    } else if w.Some? {
      s', work := m, w;
    } else {
      s', work := SelectTotal(m);
      GoneStaysGone(m, s', work, t);
    }
  }

  /** For every state and every deferred head: some order of the map makes the selection
      lose it if and only if it may come to be popped without being taken up. */
  lemma DeferredLostIff(s: State, t: TipSet)
    requires Shaped(s) && Queued(s.deferred, t)
    ensures (exists s', work :: Loses(s, s', work, t)) <==> MayLose(s, t)
  {
    forall s', work | Loses(s, s', work, t) ensures MayLose(s, t) {
      LostOnlyIf(s, s', work, t);
    }
    if MayLose(s, t) {
      var s', work := LostIf(s, t);
    }
  }

  // ---------- every step ----------

  /** `t` was deferred and is neither queued any more nor the target of a new worker. */
  ghost predicate Lost(s: State, s': State, t: TipSet) {
    && Queued(s.deferred, t) && !Queued(s'.pend, t) && !Queued(s'.deferred, t)
    && forall id | id in s'.workers && id !in s.workers :: !Equals(s'.workers[id], t)
  }

  lemma PeerHeadLosesNone(threshold: int, s: State, peer: PeerId, ts: TipSet, s': State, t: TipSet)
    requires Inv(s) && OnPeerHead(threshold, s, peer, ts, s')
    ensures !Lost(s, s', t)
  {
    QueuedInsert(s.deferred, ts, t);
  }

  ghost predicate MayLoseAfter(s: State, id: WorkerId, ok: bool, fast: bool, t: TipSet)
    requires Inv(s) && id in s.workers
  {
    var f, done := Finished(s, id, ok, fast), s.workers[id];
    PopRelatedKeepsShape(f.pend, done);
    && !(PoppedRelated(f.pend, done).Some? && PendingNext(f, done, HeaviestTip(PoppedRelated(f.pend, done).value)))
    && MayLose(Popped(f, done), t)
  }

  lemma WorkerDoneLosesOnlyIf(s: State, id: WorkerId, ok: bool, fast: bool, s': State, t: TipSet)
    requires Inv(s) && OnWorkerDone(s, id, ok, fast, s') && Lost(s, s', t)
    ensures MayLoseAfter(s, id, ok, fast, t)
  {
    var f, done := Finished(s, id, ok, fast), s.workers[id];
    var m, work :| SelectTarget(f, done, m, work) && s' == SpawnIf(m, work);
    SelectTargetKeeps(s, id, ok, fast, m, work);
    RemovalKeepsAnchors(s, id, ok, fast);
    if work.Some? {
      assert s.nextWorker in s'.workers && s'.workers[s.nextWorker] == work.value;
    }
    if SelectDeferred(Popped(f, done), m, work) {
      LostOnlyIf(Popped(f, done), m, work, t);
    }
  }

  lemma WorkerDoneLosesIf(s: State, id: WorkerId, ok: bool, fast: bool, t: TipSet) returns (s': State)
    requires Inv(s) && id in s.workers && MayLoseAfter(s, id, ok, fast, t)
    ensures OnWorkerDone(s, id, ok, fast, s') && Lost(s, s', t)
  {
    var f, done := Finished(s, id, ok, fast), s.workers[id];
    RemovalKeepsAnchors(s, id, ok, fast);
    var m, work := LostIf(Popped(f, done), t);
    SelectDeferredOutcome(Popped(f, done), m, work);
    assert SelectTarget(f, done, m, work);
    s' := SpawnIf(m, work);
  }

  /** Starting deferred targets up to the limit may lose `t`: there is room, `t` is
      deferred and not pending, and for some worker visited first it is not taken up
      as the next tip popped, and it goes with that bucket or, being elsewhere, may be
      lost further on, after the tip is passed over or started. */
  ghost predicate MayRampLose(s: State, t: TipSet)
    requires Shaped(s)
    decreases |s.deferred|
  {
    && |s.workers| < MAX_SYNC_WORKERS && s.deferred != [] && Queued(s.deferred, t) && !Queued(s.pend, t)
    && var (h, rest) := PopDeferred(s);
    exists first | VisitedFirst(s, first) ::
      && !(Equals(h, t) && TakenUp(s, h, first))
      && (Elsewhere(s, t) ==> if Passed(s, h, first) then MayRampLose(DeferredRound(s, first).0, t) else MayRampLose(Spawn(rest, h), t))
  }

  /** What happens to `t` in a selection: it is lost, or it stays deferred and is lost
      when ramping up goes on. */
  ghost predicate LostOrLater(s: State, m: State, work: Option<TipSet>, t: TipSet)
    requires Shaped(s)
  {
    || Loses(s, m, work, t)
    || (&& work.Some? && MayGoOn(s, m, work.value) && !Equals(work.value, t) && !Queued(m.pend, t)
        && MayRampLose(Spawn(m, work.value), t))
  }

  lemma {:induction false} RampLoseBefore(s: State, m: State, work: Option<TipSet>, t: TipSet)
    requires Shaped(s) && |s.workers| < MAX_SYNC_WORKERS && Queued(s.deferred, t) && LostOrLater(s, m, work, t)
    ensures MayRampLose(s, t)
    decreases |s.deferred|
  {
    QueuedIn(s.deferred, t);
    if Queued(s.pend, t) {
      PendingStays(s, m, work, t);
    } else {
      var first :| VisitedFirst(s, first) &&
        var (k, w) := DeferredRound(s, first);
        if w.Some? then m == k && work == w else SelectDeferred(k, m, work);
      RoundIff(s, first);
      RoundFate(s, first, t);
      var (k, w) := DeferredRound(s, first);
      if w.None? {
        RampLoseRound(s, k, m, work, t);
      }
    }
  }

  /** The tip popped was passed over, so `t` was not taken up, and is lost from what
      is left if it is still there. */
  lemma {:induction false} RampLoseRound(s: State, k: State, m: State, work: Option<TipSet>, t: TipSet)
    requires Shaped(s) && Shaped(k) && |k.deferred| < |s.deferred| && |k.workers| < MAX_SYNC_WORKERS
    requires LostOrLater(s, m, work, t) && SelectDeferred(k, m, work)
    ensures !Queued(k.pend, t)
    ensures Queued(k.deferred, t) ==> MayRampLose(k, t)
    decreases |s.deferred|, 0
  {
    if Queued(k.pend, t) {
      PendingStays(k, m, work, t);
    }
    if Queued(k.deferred, t) {
      if !Loses(s, m, work, t) {
        SelectPops(k, m, work.value);
      }
      RampLoseBefore(k, m, work, t);
    }
  }

  lemma {:induction false} SelectPops(s: State, m: State, h: TipSet)
    requires Shaped(s) && SelectDeferred(s, m, Some(h))
    ensures |m.deferred| < |s.deferred|
    decreases |s.deferred|
  {
    var first :| VisitedFirst(s, first) &&
      var (k, w) := DeferredRound(s, first);
      if w.Some? then m == k && Some(h) == w else SelectDeferred(k, m, Some(h));
    var (k, w) := DeferredRound(s, first);
    if w.None? {
      SelectPops(k, m, h);
    }
  }

  lemma {:induction false} RampLoseAfter(s: State, t: TipSet) returns (m: State, work: Option<TipSet>)
    requires Shaped(s) && MayRampLose(s, t)
    ensures SelectDeferred(s, m, work) && LostOrLater(s, m, work, t)
    decreases |s.deferred|
  {
    var h, rest := PopDeferred(s).0, PopDeferred(s).1;
    var first :| && VisitedFirst(s, first)
                 && !(Equals(h, t) && TakenUp(s, h, first))
                 && (Elsewhere(s, t) ==> if Passed(s, h, first) then MayRampLose(DeferredRound(s, first).0, t) else MayRampLose(Spawn(rest, h), t));
    RoundIff(s, first);
    RoundFate(s, first, t);
    var (k, w) := DeferredRound(s, first);
    if w.Some? {
      m, work := k, w;
    } else if Elsewhere(s, t) {
      m, work := RampLoseAfter(k, t);
    } else {
      m, work := SelectTotal(k);
      GoneStaysGone(k, m, work, t);
    }
  }

  lemma {:induction false} RampKeepsPending(s: State, s': State, t: TipSet)
    requires Ready(s) && RampUp(s, s') && Queued(s.pend, t)
    ensures Queued(s'.pend, t)
    decreases |s.deferred|
  {
    if |s.workers| < MAX_SYNC_WORKERS {
      var m, work :| SelectDeferred(s, m, work) && RampUpAfter(s, m, work, s');
      PendingStays(s, m, work, t);
      if work.Some? {
        ReadyAfter(s, m, work.value);
        RampKeepsPending(Spawn(m, work.value), s', t);
      }
    }
  }

  /** What is not queued is not queued or started by ramping up. */
  lemma {:induction false} RampAddsNothing(s: State, s': State, t: TipSet)
    requires Ready(s) && RampUp(s, s') && !Queued(s.pend, t) && !Queued(s.deferred, t)
    ensures !Queued(s'.pend, t) && !Queued(s'.deferred, t)
    ensures forall id | id in s'.workers && id !in s.workers :: !Equals(s'.workers[id], t)
    decreases |s.deferred|
  {
    if |s.workers| < MAX_SYNC_WORKERS {
      var m, work :| SelectDeferred(s, m, work) && RampUpAfter(s, m, work, s');
      GoneStaysGone(s, m, work, t);
      SelectDeferredOutcome(s, m, work);
      if work.Some? {
        ReadyAfter(s, m, work.value);
        RampAddsNothing(Spawn(m, work.value), s', t);
        RampUpKeepsTargets(Spawn(m, work.value), s', s.nextWorker);
      }
    }
  }

  lemma {:induction false} RampLosesOnlyIf(s: State, s': State, t: TipSet)
    requires Ready(s) && RampUp(s, s') && Lost(s, s', t)
    ensures MayRampLose(s, t)
    decreases |s.deferred|
  {
    if |s.workers| < MAX_SYNC_WORKERS {
      var m, work :| SelectDeferred(s, m, work) && RampUpAfter(s, m, work, s');
      SelectDeferredOutcome(s, m, work);
      if !Loses(s, m, work, t) && work.Some? {
        LostFurtherOn(s, m, work.value, s', t);
        RampLosesOnlyIf(Spawn(m, work.value), s', t);
      }
      RampLoseBefore(s, m, work, t);
    }
  }

  lemma LostFurtherOn(s: State, m: State, h: TipSet, s': State, t: TipSet)
    requires Ready(s) && SelectDeferred(s, m, Some(h)) && (Equals(h, t) || Queued(m.pend, t) || Queued(m.deferred, t))
    requires Shaped(m) && RampUp(Spawn(m, h), s') && Lost(s, s', t)
    ensures MayGoOn(s, m, h) && Ready(Spawn(m, h)) && !Equals(h, t) && !Queued(m.pend, t) && Lost(Spawn(m, h), s', t)
  {
    ReadyAfter(s, m, h);
    RampUpKeepsTargets(Spawn(m, h), s', s.nextWorker);
    if Queued(m.pend, t) {
      RampKeepsPending(Spawn(m, h), s', t);
    }
  }

  lemma {:induction false} RampLosesIf(s: State, t: TipSet) returns (s': State)
    requires Ready(s) && MayRampLose(s, t)
    ensures RampUp(s, s') && Lost(s, s', t)
    decreases |s.deferred|
  {
    var m, work := RampLoseAfter(s, t);
    if Loses(s, m, work, t) {
      s' := RampLosesNow(s, m, work, t);
    } else {
      ReadyAfter(s, m, work.value);
      s' := RampLosesIf(Spawn(m, work.value), t);
      assert RampUpAfter(s, m, work, s');
      RampUpKeepsTargets(Spawn(m, work.value), s', s.nextWorker);
    }
  }

  lemma RampLosesNow(s: State, m: State, work: Option<TipSet>, t: TipSet) returns (s': State)
    requires Ready(s) && |s.workers| < MAX_SYNC_WORKERS && Queued(s.deferred, t) && Loses(s, m, work, t)
    ensures RampUp(s, s') && Lost(s, s', t)
  {
    SelectDeferredOutcome(s, m, work);
    if work.None? {
      s' := m;
      assert RampUpAfter(s, m, work, m);
    } else {
      ReadyAfter(s, m, work.value);
      s' := RampTotal(Spawn(m, work.value));
      assert RampUpAfter(s, m, work, s');
      RampAddsNothing(Spawn(m, work.value), s', t);
      RampUpKeepsTargets(Spawn(m, work.value), s', s.nextWorker);
    }
  }

  /** The step can lose the deferred head `t`. */
  ghost predicate MayLoseBy(s: State, e: Event, t: TipSet)
    requires Inv(s)
  {
    match e
    case PeerHead(_, _) => false
    case WorkerDone(id, ok, fast) => id in s.workers && MayLoseAfter(s, id, ok, fast, t)
    case Tick => s.tickerLive && s.initialSyncDone && MayRampLose(s.(tickerLive := false), t)
  }

  ghost predicate StepLoses(threshold: int, s: State, e: Event, s': State, t: TipSet)
    requires Shaped(s)
  {
    Step(threshold, s, e, s') && Lost(s, s', t)
  }

  lemma StepLosesOnlyIf(threshold: int, s: State, e: Event, s': State, t: TipSet)
    requires Inv(s) && StepLoses(threshold, s, e, s', t)
    ensures MayLoseBy(s, e, t)
  {
    match e {
      case PeerHead(peer, ts) => PeerHeadLosesNone(threshold, s, peer, ts, s', t);
      case WorkerDone(id, ok, fast) => WorkerDoneLosesOnlyIf(s, id, ok, fast, s', t);
      case Tick => RampLosesOnlyIf(s.(tickerLive := false), s', t);
    }
  }

  /** For every state a run can be in, every event and every deferred head: some order of
      the map lets the step lose the head if and only if a selection it makes may. */
  lemma HeadLostIff(threshold: int, s: State, e: Event, t: TipSet)
    requires Inv(s) && Queued(s.deferred, t)
    ensures (exists s' :: StepLoses(threshold, s, e, s', t)) <==> MayLoseBy(s, e, t)
  {
    forall s' | StepLoses(threshold, s, e, s', t) ensures MayLoseBy(s, e, t) {
      StepLosesOnlyIf(threshold, s, e, s', t);
    }
    if MayLoseBy(s, e, t) {
      var s' := s;
      if e.Tick? {
        s' := RampLosesIf(s.(tickerLive := false), t);
      } else {
        s' := WorkerDoneLosesIf(s, e.id, e.ok, e.fast, t);
      }
      assert StepLoses(threshold, s, e, s', t);
    }
  }
}
