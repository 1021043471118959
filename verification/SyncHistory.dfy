/** The scheduler's record of what happened, tied to the events of its runs: what has
    been synced, when the initial sync is over, which heads are tracked, which workers
    are active. */
module SyncHistory {
  import opened Options
  import opened TipSets
  import opened SyncBuckets
  import opened SyncBuffer
  import opened SyncSchedule
  import opened SyncScheduleRuns
  import opened SyncSharing

  // ---------- what the events say ----------

  /** The targets of the workers that reported success, in order. */
  function SyncedTargets(run: Run): seq<TipSet> {
    if run.Start? then []
    else
      var ws := Final(run.before).workers;
      SyncedTargets(run.before) +
      if run.event.WorkerDone? && run.event.ok && run.event.id in ws then [ws[run.event.id]] else []
  }

  /** Some worker reported success within the time limit of the initial sync. */
  predicate FastSync(run: Run) {
    run.Then? && ((run.event.WorkerDone? && run.event.ok && run.event.fast) || FastSync(run.before))
  }

  /** A tick came after such a report. */
  predicate TickedAfterFastSync(run: Run) {
    run.Then? && ((run.event.Tick? && FastSync(run.before)) || TickedAfterFastSync(run.before))
  }

  /** The last head each peer reported. */
  function Reported(run: Run): map<PeerId, TipSet> {
    if run.Start? then map[]
    else if run.event.PeerHead? then Reported(run.before)[run.event.peer := run.event.ts]
    else Reported(run.before)
  }

  // ---------- what a step does to the record ----------

  /** What changes in a step but for the queues and the new workers. */
  predicate Recorded(s: State, e: Event, s': State) {
    && s'.synced == s.synced + (if e.WorkerDone? && e.ok && e.id in s.workers then [s.workers[e.id]] else [])
    && (s'.initialSyncDone <==> s.initialSyncDone || (e.WorkerDone? && e.ok && e.fast))
    && (s'.tickerLive <==> s.tickerLive && !(e.Tick? && s.initialSyncDone))
    && s.nextWorker <= s'.nextWorker
    && (s.nextWorker > 0 ==> s'.heads == s.heads)
  }

  /** Workers stay until they are done, with their target. */
  predicate WorkersKept(s: State, e: Event, s': State) {
    && (forall w | w in s.workers && !(e.WorkerDone? && w == e.id) :: w in s'.workers && s'.workers[w] == s.workers[w])
    && (e.WorkerDone? ==> e.id !in s'.workers)
  }

  lemma PeerHeadRecorded(threshold: int, s: State, peer: PeerId, ts: TipSet, s': State)
    requires Inv(s) && OnPeerHead(threshold, s, peer, ts, s')
    ensures Recorded(s, PeerHead(peer, ts), s') && WorkersKept(s, PeerHead(peer, ts), s')
  {
    assert s.synced + [] == s.synced;
    if s.nextWorker > 0 {
      var m, work :| AddTarget(s, ts, m, work) && s' == SpawnIf(m, work);
      AddTargetRecorded(s, ts, m, work);
    }
  }

  lemma AddTargetRecorded(s: State, ts: TipSet, m: State, work: Option<TipSet>)
    requires Shaped(s) && AddTarget(s, ts, m, work)
    ensures m == s.(pend := m.pend, deferred := m.deferred)
  {}

  lemma WorkerDoneRecorded(s: State, id: WorkerId, ok: bool, fast: bool, s': State)
    requires Inv(s) && OnWorkerDone(s, id, ok, fast, s')
    ensures Recorded(s, WorkerDone(id, ok, fast), s') && WorkersKept(s, WorkerDone(id, ok, fast), s')
  {
    var f, done := Finished(s, id, ok, fast), s.workers[id];
    var m, work :| SelectTarget(f, done, m, work) && s' == SpawnIf(m, work);
    SelectTargetKeeps(s, id, ok, fast, m, work);
  }

  lemma TickRecorded(s: State, s': State)
    requires Inv(s) && OnTick(s, s')
    ensures Recorded(s, Tick, s') && WorkersKept(s, Tick, s')
  {
    assert s.synced + [] == s.synced;
    if s.tickerLive && s.initialSyncDone {
      var t := s.(tickerLive := false);
      RampUpStep(t, s');
      forall w | w in s.workers ensures w in s'.workers && s'.workers[w] == s.workers[w] {
        RampUpKeepsTargets(t, s', w);
      }
    }
  }

  lemma StepRecorded(threshold: int, s: State, e: Event, s': State)
    requires Inv(s) && Step(threshold, s, e, s')
    ensures Recorded(s, e, s') && WorkersKept(s, e, s')
  {
    match e {
      case PeerHead(peer, ts) => PeerHeadRecorded(threshold, s, peer, ts, s');
      case WorkerDone(id, ok, fast) => WorkerDoneRecorded(s, id, ok, fast, s');
      case Tick => TickRecorded(s, s');
    }
  }

  // ---------- over whole runs ----------

  /** In every run the recently synced targets, the end of the initial sync and the
      ticker are as the events say: a failed sync is not recorded, and only a fast
      success ends the initial sync. */
  lemma {:induction false} RecordIsHistory(threshold: int, run: Run)
    requires IsRun(threshold, run)
    ensures Final(run).synced == SyncedTargets(run)
    ensures Final(run).initialSyncDone <==> FastSync(run)
    ensures Final(run).tickerLive <==> !TickedAfterFastSync(run)
  {
    if run.Then? {
      RecordIsHistory(threshold, run.before);
      RunInvariant(threshold, run.before);
      StepRecorded(threshold, Final(run.before), run.event, run.after);
    }
  }

  /** A worker started at the last step of `run` and not reported done in `later` is
      still there with its target. */
  lemma {:induction false} WorkersStay(threshold: int, run: Run, later: Run, w: WorkerId)
    requires IsRun(threshold, later) && GoesOn(run, later) && w in Final(run).workers && NotDone(run, later, w)
    ensures w in Final(later).workers && Final(later).workers[w] == Final(run).workers[w]
  {
    if run != later {
      WorkersStay(threshold, run, later.before, w);
      RunInvariant(threshold, later.before);
      StepRecorded(threshold, Final(later.before), later.event, later.after);
    }
  }

  predicate GoesOn(run: Run, later: Run) {
    run == later || (later.Then? && GoesOn(run, later.before))
  }

  /** No report of worker `w` after `run`. */
  predicate NotDone(run: Run, later: Run, w: WorkerId) {
    run == later || (later.Then? && !(later.event.WorkerDone? && later.event.id == w) && NotDone(run, later.before, w))
  }

  // ---------- start-up ----------

  lemma EarlyHead(threshold: int, s: State, heads: map<PeerId, TipSet>, s': State)
    requires OnEarlyHead(threshold, s, heads, s')
    ensures if |heads| < threshold then s'.nextWorker == s.nextWorker && s'.heads == heads
            else s'.nextWorker == s.nextWorker + 1 && s'.heads == map[]
  {}

  lemma MoreReported(heads: map<PeerId, TipSet>, peer: PeerId, ts: TipSet)
    ensures |heads| <= |heads[peer := ts]| && peer in heads[peer := ts]
  {
    var more := heads[peer := ts];
    assert more.Keys == heads.Keys + {peer};
  }

  /** In every run no worker is started until as many peers have reported as the
      threshold asks for, and then at once; up to then the head tracked for each peer
      is the last it reported. */
  lemma {:induction false} StartsWithEnoughPeers(threshold: int, run: Run)
    requires IsRun(threshold, run)
    ensures Final(run).nextWorker == 0 <==> Reported(run) == map[] || |Reported(run)| < threshold
    ensures Final(run).heads == if Final(run).nextWorker == 0 then Reported(run) else map[]
  {
    if run.Then? {
      var s, s' := Final(run.before), run.after;
      StartsWithEnoughPeers(threshold, run.before);
      RunInvariant(threshold, run.before);
      RecordIsHistory(threshold, run.before);
      StepRecorded(threshold, s, run.event, s');
      if run.event.PeerHead? {
        MoreReported(Reported(run.before), run.event.peer, run.event.ts);
        if s.nextWorker == 0 {
          EarlyHead(threshold, s, s.heads[run.event.peer := run.event.ts], s');
        }
      } else if s.nextWorker == 0 {
        StartNeedsHead(threshold, run);
      }
    }
  }

  /** Before the first worker only heads change anything. */
  lemma StartNeedsHead(threshold: int, run: Run)
    requires IsRun(threshold, run) && run.Then? && !run.event.PeerHead? && Final(run.before).nextWorker == 0
    ensures run.after == Final(run.before)
  {
    RunInvariant(threshold, run.before);
    RecordIsHistory(threshold, run.before);
    NoFastSyncYet(threshold, run.before);
  }

  lemma {:induction false} NoFastSyncYet(threshold: int, run: Run)
    requires IsRun(threshold, run) && Final(run).nextWorker == 0
    ensures !FastSync(run)
  {
    if run.Then? {
      RunInvariant(threshold, run.before);
      StepRecorded(threshold, Final(run.before), run.event, run.after);
      NoFastSyncYet(threshold, run.before);
    }
  }

  /** The first worker is started on a heaviest of the last reported heads. */
  lemma FirstTargetIsHeaviest(threshold: int, run: Run)
    requires IsRun(threshold, run) && run.Then? && Final(run.before).nextWorker == 0 && run.after.nextWorker > 0
    requires forall p, q | p in Reported(run) && q in Reported(run) :: Equals(Reported(run)[p], Reported(run)[q]) ==> Reported(run)[p] == Reported(run)[q]
    ensures 0 in run.after.workers
    ensures exists p | p in Reported(run) :: Reported(run)[p] == run.after.workers[0]
    ensures forall p | p in Reported(run) :: Reported(run)[p].weight <= run.after.workers[0].weight
  {
    var s := Final(run.before);
    StartsWithEnoughPeers(threshold, run.before);
    if !run.event.PeerHead? {
      StartNeedsHead(threshold, run);
    } else {
      var target :| InitialTarget(Reported(run), target) && run.after == Spawn(s.(heads := map[]), target);
      InitialTargetIsHeaviest(Reported(run), target);
    }
  }

  // ---------- freshness, by the events ----------

  /** `t` differs from `done` and is at least as heavy. */
  predicate NotBehind(t: TipSet, done: TipSet) {
    !(t.height == done.height && t.key == done.key) && t.weight >= done.weight
  }

  /** `t` is not behind any of the last ten targets that were synced. */
  predicate FreshAfter(run: Run, t: TipSet) {
    var log := SyncedTargets(run);
    forall i | 0 <= i < |log| && |log| - 10 <= i :: NotBehind(t, log[i])
  }

  lemma RecentlyMeans(s: State, t: TipSet)
    ensures SyncedRecently(s, t) <==> exists i | 0 <= i < |s.synced| && |s.synced| - 10 <= i :: !NotBehind(t, s.synced[i])
  {
    var log, recent := s.synced, Recent(s.synced, RECENT_SYNC_BUFFER_SIZE);
    var skip := |log| - |recent|;
    assert forall k | 0 <= k < |recent| :: recent[k] == log[skip + k];
    if i :| 0 <= i < |log| && |log| - 10 <= i && !NotBehind(t, log[i]) {
      assert recent[i - skip] == log[i];
    }
  }

  /** In every run: what a step starts is fresh, and there are never more than five
      workers, nor more than one before a fast success. */
  lemma StartedIsFresh(threshold: int, run: Run, id: WorkerId)
    requires IsRun(threshold, run) && run.Then? && id in run.after.workers && id !in Final(run.before).workers
    ensures FreshAfter(run, run.after.workers[id])
    ensures |run.after.workers| <= 5 && (!FastSync(run) ==> |run.after.workers| <= 1)
  {
    RunInvariant(threshold, run);
    RecordIsHistory(threshold, run);
    RecentlyMeans(run.after, run.after.workers[id]);
  }

  /** With no worker active, after the first one, a reported head is started if and only
      if it is fresh. */
  lemma IdleStartsFresh(threshold: int, run: Run)
    requires IsRun(threshold, run) && run.Then? && run.event.PeerHead?
    requires Final(run.before).nextWorker > 0 && Final(run.before).workers == map[]
    ensures if FreshAfter(run.before, run.event.ts) then run.after == Spawn(Final(run.before), run.event.ts)
            else run.after == Final(run.before)
  {
    var s := Final(run.before);
    RecordIsHistory(threshold, run.before);
    RecentlyMeans(s, run.event.ts);
  }

  /** So a head whose syncs all failed is started again, unless an equal or heavier one
      was synced. */
  lemma FailedStartsAgain(threshold: int, run: Run)
    requires IsRun(threshold, run) && run.Then? && run.event.PeerHead?
    requires Final(run.before).nextWorker > 0 && Final(run.before).workers == map[]
    requires forall t | t in SyncedTargets(run.before) :: NotBehind(run.event.ts, t)
    ensures run.after == Spawn(Final(run.before), run.event.ts)
  {
    IdleStartsFresh(threshold, run);
  }

  /** Beside other workers, after a fast success and with fewer than five of them, a
      reported head that nothing synced, active or pending stands against is started. */
  lemma BusyStartsFresh(threshold: int, run: Run)
    requires IsRun(threshold, run) && run.Then? && run.event.PeerHead? && Final(run.before).workers != map[]
    ensures var s, ts := Final(run.before), run.event.ts;
            run.after == Spawn(s, ts) <==>
            && FreshAfter(run.before, ts) && FastSync(run.before) && |s.workers| < 5
            && (forall id | id in s.workers :: var a := s.workers[id]; NotBehind(ts, a) && ts.parents != a.key)
            && (forall t | t in Tips(s.pend) :: NotBehind(ts, t) && ts.parents != t.key && ts.key != t.parents)
  {
    var s, ts := Final(run.before), run.event.ts;
    RunInvariant(threshold, run.before);
    RecordIsHistory(threshold, run.before);
    RecentlyMeans(s, ts);
    RelatedMeans(s.pend, ts);
    var m, work :| AddTarget(s, ts, m, work) && run.after == SpawnIf(m, work);
    AddTargetRecorded(s, ts, m, work);
    HeadStartedIff(s, ts, m, work);
    if work.Some? {
      HeadNotShared(s, ts, m, work);
    }
    UnstandingIff(s, ts);
  }

  lemma UnstandingIff(s: State, ts: TipSet)
    ensures (&& !SyncingHeavier(s, ts) && (forall id | id in s.workers :: !Equals(s.workers[id], ts)))
            <==> forall id | id in s.workers :: NotBehind(ts, s.workers[id])
  {}

  lemma RelatedMeans(bs: seq<Bucket>, ts: TipSet)
    ensures RelatedToAny(bs, ts) <==>
              exists t | t in Tips(bs) :: (t.height == ts.height && t.key == ts.key) || ts.key == t.parents || ts.parents == t.key
  {
    if i :| 0 <= i < |bs| && SameChain(bs[i], ts) {
      var k :| 0 <= k < |bs[i]| && Related(ts, bs[i][k]);
      TipOfBucket(bs, bs[i][k]);
    }
    if t :| t in Tips(bs) && ((t.height == ts.height && t.key == ts.key) || ts.key == t.parents || ts.parents == t.key) {
      TipOfBucket(bs, t);
      var i :| 0 <= i < |bs| && t in bs[i];
      var k :| 0 <= k < |bs[i]| && bs[i][k] == t;
      assert Related(ts, bs[i][k]);
    }
  }
}
