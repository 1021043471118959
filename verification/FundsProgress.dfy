/** Whether queued fund requests can still get into a message. A wait that fails without
    an answer from the chain leaves its message on the channel record and nobody
    waiting for it; until the process is restarted the queue is then stuck. */
module FundsProgress {
  import opened Options
  import opened FundsProtocol

  /** No crash and no restart; channels are settled only if `settle`. */
  predicate Steady(e: Event, settle: bool) {
    match e
    case CrashAndRestart => false
    case ProcessQueue(_, _, _, crash) => crash == NoCrash
    case Settle(_) => settle
    case _ => true
  }

  /** `later` goes on from `run` by steady events. */
  predicate SteadyFrom(run: Run, later: Run, settle: bool) {
    run == later || (later.Then? && Steady(later.event, settle) && SteadyFrom(run, later.before, settle))
  }

  ghost predicate CanSend(run: Run, settle: bool) {
    exists later :: IsRun(later) && SteadyFrom(run, later, settle) && Final(later).sent != Final(run).sent
  }

  predicate WaitedFor(s: State, cid: Cid) {
    exists w | w in s.waiters :: w.cid == cid && w.phase.Waiting?
  }

  /** Channel `ch` is the one funds go to, its message is not waited for and, where
      settling it would help, it cannot be settled, having no address. */
  predicate StarvedAt(s: State, ch: ChanId, settle: bool) {
    && IsActiveChannel(s, ch) && Pending(s.channels[ch]).Some? && !WaitedFor(s, Pending(s.channels[ch]).value)
    && (settle ==> s.channels[ch].address.None?)
  }

  predicate Starved(s: State, settle: bool) {
    exists ch | ch in s.channels :: StarvedAt(s, ch, settle)
  }

  // ---------- a starved queue stays starved ----------

  /** A wait only touches its own channel, and makes no new waits. */
  lemma WaitFrame(s: State, ch: ChanId, w: Waiter, outcome: Outcome)
    requires w.chan != ch && ch in s.channels
    ensures var s' := AfterWait(s, w, outcome); ch in s'.channels && s'.channels[ch] == s.channels[ch] && s'.sent == s.sent
  {}

  lemma NoNewWaits(s: State, w: Waiter, outcome: Outcome, v: Waiter)
    requires v in AfterWait(s, w, outcome).waiters && v.phase.Waiting?
    ensures v in s.waiters
  {}

  lemma OtherChannel(s: State, ch: ChanId, w: Waiter)
    requires Inv(s) && ch in s.channels && Pending(s.channels[ch]).Some? && !WaitedFor(s, Pending(s.channels[ch]).value)
    requires w in s.waiters && w.phase.Waiting?
    ensures w.chan != ch
  {
    assert WaiterSound(s.channels, s.msgs, s.sent, w);
  }

  lemma WaitLeavesStarved(s: State, ch: ChanId, settle: bool, w: Waiter, outcome: Outcome)
    requires StarvedAt(s, ch, settle) && w.chan != ch
    ensures StarvedAt(AfterWait(s, w, outcome), ch, settle) && AfterWait(s, w, outcome).sent == s.sent
  {
    WaitFrame(s, ch, w, outcome);
    forall v | v in AfterWait(s, w, outcome).waiters && v.phase.Waiting? ensures v in s.waiters {
      NoNewWaits(s, w, outcome, v);
    }
  }

  lemma ProcessLeavesStarved(s: State, ch: ChanId, settle: bool, late: set<ReqId>, active: Option<ChanId>, push: Push)
    requires Inv(s) && StarvedAt(s, ch, settle) && Enabled(s, ProcessQueue(late, active, push, NoCrash))
    ensures Process(s, late, active, push, NoCrash) == s.(queue := Cancelled(Active(s.queue), late))
  {
    assert active == Some(ch);
  }

  lemma SettleLeavesStarved(s: State, ch: ChanId, settle: bool, k: ChanId)
    requires StarvedAt(s, ch, settle) && Enabled(s, Settle(k)) && settle
    ensures StarvedAt(Next(s, Settle(k)), ch, settle) && Next(s, Settle(k)).sent == s.sent
  {
    assert k != ch;
    assert Next(s, Settle(k)).waiters == s.waiters;
  }

  lemma CompletionLeavesStarved(s: State, ch: ChanId, settle: bool, w: Waiter)
    requires StarvedAt(s, ch, settle) && w.phase.Returned?
    ensures StarvedAt(Complete(s, w), ch, settle) && Complete(s, w).sent == s.sent
  {}

  /** No steady event sends anything, takes a request off the queue otherwise than for
      being cancelled, or ends the starvation. */
  lemma StarvedStep(s: State, ch: ChanId, settle: bool, e: Event)
    requires Inv(s) && StarvedAt(s, ch, settle) && Enabled(s, e) && Steady(e, settle)
    ensures StarvedAt(Next(s, e), ch, settle) && Next(s, e).sent == s.sent
    ensures e.ProcessQueue? ==> Next(s, e).queue == Cancelled(Active(s.queue), e.late)
  {
    match e {
      case ProcessQueue(late, active, push, crash) => ProcessLeavesStarved(s, ch, settle, late, active, push);
      case WaitReturns(w, outcome) =>
        OtherChannel(s, ch, w);
        WaitLeavesStarved(s, ch, settle, w, outcome);
      case WaitCompletes(w) => CompletionLeavesStarved(s, ch, settle, w);
      case Settle(k) => SettleLeavesStarved(s, ch, settle, k);
      case Enqueue(_) =>
      case Cancel(_) =>
    }
  }

  lemma {:induction false} StarvedForGood(run: Run, later: Run, ch: ChanId, settle: bool)
    requires IsRun(later) && SteadyFrom(run, later, settle) && StarvedAt(Final(run), ch, settle)
    ensures StarvedAt(Final(later), ch, settle) && Final(later).sent == Final(run).sent
  {
    if run != later {
      StarvedForGood(run, later.before, ch, settle);
      RunInvariant(later.before);
      StarvedStep(Final(later.before), ch, settle, later.event);
    }
  }

  // ---------- any other queue can be sent ----------

  lemma {:induction false} FreshNat(s: set<nat>) returns (n: nat)
    ensures forall x | x in s :: x < n
    decreases |s|
  {
    if s == {} {
      n := 0;
    } else {
      var x :| x in s;
      var m := FreshNat(s - {x});
      n := if m <= x then x + 1 else m;
      forall y | y in s ensures y < n {
        assert y == x || y in s - {x};
      }
    }
  }

  lemma {:induction false} ActiveTwice(q: seq<Req>)
    ensures Active(Active(q)) == Active(q)
  {
    if q != [] {
      var front, last := q[..|q| - 1], q[|q| - 1];
      ActiveTwice(front);
      if last.active {
        assert (Active(front) + [last])[..|Active(front)|] == Active(front);
      }
    }
  }

  lemma NoneCancelled(q: seq<Req>)
    ensures Cancelled(q, {}) == q
  {}

  /** With no message under way the whole queue goes into the next one. */
  lemma SendAll(run: Run, active: Option<ChanId>) returns (later: Run, cid: Cid)
    requires IsRun(run) && Amount(Active(Final(run).queue)) != 0
    requires var s := Final(run);
             if active.Some? then IsActiveChannel(s, active.value) && Pending(s.channels[active.value]).None?
             else forall ch | ch in s.channels :: s.channels[ch].settling
    ensures IsRun(later) && later.Then? && later.before == run && Steady(later.event, false)
    ensures cid !in Final(run).sent && Final(later).sent == Final(run).sent[cid := Active(Final(run).queue)]
  {
    var s := Final(run);
    cid := FreshNat(s.sent.Keys);
    var ch := FreshNat(s.channels.Keys);
    ActiveTwice(s.queue);
    NoneCancelled(Active(s.queue));
    var e := ProcessQueue({}, active, Pushed(cid, ch), NoCrash);
    assert Enabled(s, e);
    later := Then(run, e, Next(s, e));
  }

  /** The wait for the message under way may still succeed. */
  lemma Confirm(run: Run, ch: ChanId) returns (later: Run)
    requires IsRun(run) && IsActiveChannel(Final(run), ch) && Pending(Final(run).channels[ch]).Some?
    requires WaitedFor(Final(run), Pending(Final(run).channels[ch]).value)
    ensures IsRun(later) && later.Then? && later.before == run && Steady(later.event, false)
    ensures Final(later).sent == Final(run).sent && Final(later).queue == Final(run).queue
    ensures IsActiveChannel(Final(later), ch) && Pending(Final(later).channels[ch]).None?
  {
    var s := Final(run);
    RunInvariant(run);
    var w :| w in s.waiters && w.cid == Pending(s.channels[ch]).value && w.phase.Waiting?;
    WaiterIsHere(s, ch, w);
    var e := WaitReturns(w, Succeeded(0));
    later := Then(run, e, Next(s, e));
  }

  lemma WaiterIsHere(s: State, ch: ChanId, w: Waiter)
    requires Inv(s) && IsActiveChannel(s, ch) && Pending(s.channels[ch]) == Some(w.cid) && w in s.waiters && w.phase.Waiting?
    ensures w.chan == ch && (w.kind == CreateWait <==> s.channels[ch].createMsg.Some?)
    ensures s.channels[ch].createMsg.None? || s.channels[ch].addFundsMsg.None?
  {
    assert WaiterSound(s.channels, s.msgs, s.sent, w);
    assert s.fate[w.cid] == Outstanding(ch) && s.fate[w.cid] == Outstanding(w.chan);
    assert RecordShape(s.channels[ch]);
  }

  /** Settling the channel makes way for a new one. */
  lemma SettleFirst(run: Run, ch: ChanId) returns (later: Run)
    requires IsRun(run) && IsActiveChannel(Final(run), ch) && Final(run).channels[ch].address.Some?
    ensures IsRun(later) && later.Then? && later.before == run && Steady(later.event, true)
    ensures Final(later).sent == Final(run).sent && Final(later).queue == Final(run).queue
    ensures forall k | k in Final(later).channels :: Final(later).channels[k].settling
  {
    RunInvariant(run);
    later := Then(run, Settle(ch), Next(Final(run), Settle(ch)));
  }

  lemma SteadyWeaker(e: Event, settle: bool)
    requires Steady(e, false)
    ensures Steady(e, settle)
  {}

  /** Unless starved, a queue that sums to something can be sent as a whole, in one
      message and at most two steps. */
  lemma NotStarvedSends(run: Run, settle: bool) returns (later: Run, cid: Cid)
    requires IsRun(run) && Amount(Active(Final(run).queue)) != 0 && !Starved(Final(run), settle)
    ensures IsRun(later) && SteadyFrom(run, later, settle)
    ensures cid !in Final(run).sent && Final(later).sent == Final(run).sent[cid := Active(Final(run).queue)]
  {
    var s, mid, active := Final(run), run, None;
    RunInvariant(run);
    if ch :| ch in s.channels && !s.channels[ch].settling {
      active := Some(ch);
      if Pending(s.channels[ch]).Some? {
        if WaitedFor(s, Pending(s.channels[ch]).value) {
          mid := Confirm(run, ch);
          SteadyWeaker(mid.event, settle);
        } else {
          assert !StarvedAt(s, ch, settle);
          mid := SettleFirst(run, ch);
          active := None;
        }
      }
    }
    later, cid := SendAll(mid, active);
    SteadyWeaker(later.event, settle);
    assert SteadyFrom(run, mid, settle);
  }

  /** In every run: without crash and restart a queue that sums to something can never
      get into a message if and only if the message under way on the active channel is
      not waited for, and the channel cannot be or is not settled either. */
  lemma StuckIff(run: Run, settle: bool)
    requires IsRun(run) && Amount(Active(Final(run).queue)) != 0
    ensures !CanSend(run, settle) <==> Starved(Final(run), settle)
  {
    if Starved(Final(run), settle) {
      var ch :| ch in Final(run).channels && StarvedAt(Final(run), ch, settle);
      forall later | IsRun(later) && SteadyFrom(run, later, settle) ensures Final(later).sent == Final(run).sent {
        StarvedForGood(run, later, ch, settle);
      }
    } else {
      var later, cid := NotStarvedSends(run, settle);
      assert cid in Final(later).sent;
    }
  }

  /** A restart ends it: every message under way is waited for again. */
  lemma RestartFeeds(s: State, settle: bool)
    requires Inv(s)
    ensures !Starved(Restart(s), settle)
  {
    var s' := Restart(s);
    forall ch | ch in s'.channels && Pending(s'.channels[ch]).Some? ensures WaitedFor(s', Pending(s'.channels[ch]).value) {
      var ci := s.channels[ch];
      var w := Waiter(Pending(ci).value, ch, if ci.createMsg.Some? then CreateWait else AddFundsWait, Waiting);
      assert w in s'.waiters;
    }
  }

  // ---------- a run ----------

  const W := Waiter(1, 0, CreateWait, Waiting)
  const FIRST := Req(0, 5, true)
  const SECOND := Req(1, 3, true)
  const QUEUED := State([FIRST], map[], map[], {}, map[], map[], 1)
  const CREATING := CreateFlowch(QUEUED.(queue := []), [FIRST], 1, 0, NoCrash)
  const WAITING := CREATING.(queue := [SECOND], nextReq := 2)
  const STUCK := Back(WAITING, W, true)

  lemma OneRequest(r: Req)
    requires r.active
    ensures Active([r]) == [r] && Amount([r]) == r.amt && Cancelled([r], {}) == [r]
  {
    assert [r][..0] == [];
  }

  lemma Creates()
    ensures Enabled(QUEUED, ProcessQueue({}, None, Pushed(1, 0), NoCrash))
    ensures Next(QUEUED, ProcessQueue({}, None, Pushed(1, 0), NoCrash)) == CREATING
  {
    OneRequest(FIRST);
    assert Merged(QUEUED, {}) == [FIRST] && QUEUED.(queue := Cancelled(Active(QUEUED.queue), {})) == QUEUED;
  }

  lemma ExtendTo(run: Run, e: Event, s: State) returns (r: Run)
    requires IsRun(run) && Enabled(Final(run), e) && s == Next(Final(run), e)
    ensures IsRun(r) && r == Then(run, e, s)
  {
    r := Then(run, e, s);
  }

  lemma SecondQueues()
    ensures Next(CREATING, Enqueue(3)) == WAITING
  {
    assert CREATING.queue == [] && [] + [SECOND] == [SECOND];
  }

  lemma WaitFails()
    ensures Enabled(WAITING, WaitReturns(W, WaitError)) && Next(WAITING, WaitReturns(W, WaitError)) == STUCK
  {
    assert W in WAITING.waiters;
  }

  lemma NobodyWaits()
    ensures StarvedAt(STUCK, 0, true)
  {
    assert STUCK.channels[0] == NewChannel(1, Amount([FIRST]));
    assert STUCK.waiters == {W.(phase := Returned(true))};
  }

  /** The first request creates the channel, a second one queues up, and the wait for
      the create message comes back with an error. */
  lemma WaitErrorStarves() returns (run: Run)
    ensures IsRun(run) && run.Then? && run.event == WaitReturns(W, WaitError)
    ensures Amount(Active(Final(run).queue)) == 3 && Starved(Final(run), true) && !CanSend(run, true)
  {
    assert [] + [FIRST] == [FIRST];
    run := ExtendTo(Start, Enqueue(5), QUEUED);
    Creates();
    run := ExtendTo(run, ProcessQueue({}, None, Pushed(1, 0), NoCrash), CREATING);
    SecondQueues();
    run := ExtendTo(run, Enqueue(3), WAITING);
    WaitFails();
    run := ExtendTo(run, WaitReturns(W, WaitError), STUCK);
    OneRequest(SECOND);
    NobodyWaits();
    StuckIff(run, true);
  }
}
