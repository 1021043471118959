/** The books of the funds protocol, tied to the events of its runs: which messages are
    sent and saved and with which requests, what is credited, where channels get their
    addresses, which results are received, and who is waited for. */
module FundsHistory {
  import opened Options
  import opened FundsProtocol
  import opened FundsAccessor
  import opened FundsProgress

  // ---------- requests ----------

  lemma {:induction false} AmountIsSum(a: seq<Req>, b: seq<Req>)
    ensures Amount(a + b) == Amount(a) + Amount(b)
    ensures Amount([]) == 0 && (|b| == 1 ==> Amount(b) == b[0].amt)
  {
    if b == [] {
      assert a + b == a;
    } else {
      var front := b[..|b| - 1];
      assert (a + b)[..|a + b| - 1] == a + front;
      AmountIsSum(a, front);
    }
  }

  /** The requests of a queue that are active and not in `late`, in order. */
  function Remaining(q: seq<Req>, late: set<ReqId>): seq<Req> {
    if q == [] then []
    else (if q[0].active && q[0].id !in late then [q[0]] else []) + Remaining(q[1..], late)
  }

  lemma {:induction false} RemainingJoin(a: seq<Req>, b: seq<Req>, late: set<ReqId>)
    ensures Remaining(a + b, late) == Remaining(a, late) + Remaining(b, late)
  {
    if a == [] {
      assert a + b == b;
    } else {
      assert (a + b)[1..] == a[1..] + b;
      RemainingJoin(a[1..], b, late);
    }
  }

  lemma {:induction false} ActiveRemains(q: seq<Req>)
    ensures Active(q) == Remaining(q, {})
  {
    if q != [] {
      var front, last := q[..|q| - 1], q[|q| - 1];
      assert q == front + [last] && [last][1..] == [];
      ActiveRemains(front);
      RemainingJoin(front, [last], {});
    }
  }

  lemma {:induction false} CancelledRemains(q: seq<Req>, late: set<ReqId>)
    ensures Remaining(Cancelled(q, late), {}) == Remaining(q, late)
    ensures Remaining(Remaining(q, {}), late) == Remaining(q, late)
  {
    if q != [] {
      assert Cancelled(q, late)[1..] == Cancelled(q[1..], late);
      CancelledRemains(q[1..], late);
      RemainingJoin(if q[0].active then [q[0]] else [], Remaining(q[1..], {}), late);
      assert [q[0]][1..] == [];
    }
  }

  /** What a merged request covers: the active requests, but for those cancelled
      meanwhile. */
  lemma MergedIsRemaining(s: State, late: set<ReqId>)
    ensures Merged(s, late) == Remaining(s.queue, late)
    ensures Active(Cancelled(Active(s.queue), late)) == Remaining(s.queue, late)
  {
    ActiveRemains(s.queue);
    CancelledRemains(Active(s.queue), late);
    ActiveRemains(Cancelled(Active(s.queue), late));
    CancelledRemains(s.queue, late);
  }

  // ---------- what an event sends ----------

  /** The message an event pushes, if any: the remaining requests sum to something, no
      message is under way on the active channel, and the pool takes it. */
  function Pushes(s: State, e: Event): Option<Cid> {
    match e
    case ProcessQueue(late, active, push, _) =>
      if Amount(Remaining(s.queue, late)) != 0 && push.Pushed?
         && !(active.Some? && active.value in s.channels &&
              (s.channels[active.value].createMsg.Some? || s.channels[active.value].addFundsMsg.Some?))
      then Some(push.cid) else None
    case _ => None
  }

  /** The messages pushed in a run with the requests they cover. */
  function SentIn(run: Run): map<Cid, seq<Req>> {
    if run.Start? then map[]
    else
      var s, before := Final(run.before), SentIn(run.before);
      if Pushes(s, run.event).Some? then before[Pushes(s, run.event).value := Remaining(s.queue, run.event.late)] else before
  }

  /** The messages saved: pushed by an event that got as far as saving them. */
  function SavedIn(run: Run): set<Cid> {
    if run.Start? then {}
    else
      var s, before := Final(run.before), SavedIn(run.before);
      if Pushes(s, run.event).Some? && run.event.crash in {NoCrash, AfterMessage}
      then before + {Pushes(s, run.event).value} else before
  }

  /** The amounts of the messages whose wait succeeded on a channel. */
  function CreditedIn(run: Run, ch: ChanId): int {
    if run.Start? then 0
    else
      var before, e := CreditedIn(run.before, ch), run.event;
      if e.WaitReturns? && e.outcome.Succeeded? && e.w.chan == ch && e.w.cid in SentIn(run.before)
      then before + Amount(SentIn(run.before)[e.w.cid]) else before
  }

  /** The address the create message of a channel succeeded with. */
  function AddressIn(run: Run, ch: ChanId): Option<Address> {
    if run.Start? then None
    else
      var e := run.event;
      if e.WaitReturns? && e.outcome.Succeeded? && e.w.chan == ch && e.w.kind == CreateWait then Some(e.outcome.address)
      else AddressIn(run.before, ch)
  }

  /** The wait for a saved message completed. */
  predicate Completed(run: Run, cid: Cid) {
    run.Then? &&
    ((run.event.WaitCompletes? && run.event.w.cid == cid && cid in SavedIn(run.before)) || Completed(run.before, cid))
  }

  /** It completed with an error. */
  predicate CompletedBadly(run: Run, cid: Cid) {
    run.Then? &&
    ((run.event.WaitCompletes? && run.event.w.cid == cid && cid in SavedIn(run.before)
      && run.event.w.phase == Returned(true)) || CompletedBadly(run.before, cid))
  }

  /** The process was restarted, by itself or after a crash in the middle of an event
      that had something to push. */
  predicate Restarts(s: State, e: Event) {
    e.CrashAndRestart? || (e.ProcessQueue? && Pushes(s, e).Some? && e.crash != NoCrash)
  }

  /** Since the last restart a wait for the message came back without an answer. */
  predicate Unanswered(run: Run, cid: Cid) {
    run.Then? && !Restarts(Final(run.before), run.event) &&
    ((run.event.WaitReturns? && run.event.w.cid == cid && (run.event.outcome.WaitError? || run.event.outcome.Undecodable?))
     || Unanswered(run.before, cid))
  }

  // ---------- processing ----------

  /** Processing a queue sends all the remaining requests in one message or nothing, and
      saves that message if it gets so far. */
  lemma ProcessMeans(s: State, late: set<ReqId>, active: Option<ChanId>, push: Push, crash: Crash)
    requires Enabled(s, ProcessQueue(late, active, push, crash))
    ensures var e := ProcessQueue(late, active, push, crash);
            var s', pushed := Next(s, e), Pushes(s, e);
            && s'.sent == (if pushed.Some? then s.sent[pushed.value := Remaining(s.queue, late)] else s.sent)
            && s'.msgs.Keys == s.msgs.Keys + (if pushed.Some? && crash in {NoCrash, AfterMessage} then {pushed.value} else {})
            && (forall cid | cid in s.msgs && Some(cid) != pushed :: s'.msgs[cid] == s.msgs[cid])
            && (pushed.Some? && pushed.value in s'.msgs && crash in {NoCrash, AfterMessage} ==>
                  !s'.msgs[pushed.value].received && !s'.msgs[pushed.value].err)
  {
    MergedIsRemaining(s, late);
  }

  function Enqueued(run: Run): nat {
    if run.Start? then 0 else Enqueued(run.before) + if run.event.Enqueue? then 1 else 0
  }

  /** What an event makes of the requests that wait, `n` being the number of the next. */
  function QueueAfter(cs: Channels, q: seq<Req>, n: nat, e: Event): seq<Req> {
    match e
    case Enqueue(amt) => q + [Req(n, amt, true)]
    case Cancel(ids) => Remaining(q, ids)
    case ProcessQueue(late, active, _, _) =>
      if Amount(Remaining(q, late)) == 0 || (active.Some? && active.value in cs && Pending(cs[active.value]).Some?)
      then Remaining(q, late) else []
    case CrashAndRestart => []
    case _ => q
  }

  /** The requests that wait: enqueued, numbered in turn, not cancelled since, and not
      taken by a message, a refused message or a restart. */
  function QueuedIn(run: Run): seq<Req> {
    if run.Start? then []
    else QueueAfter(Final(run.before).channels, QueuedIn(run.before), Enqueued(run.before), run.event)
  }

  lemma EnqueueMeans(q: seq<Req>, r: Req)
    requires r.active
    ensures Remaining(q + [r], {}) == Remaining(q, {}) + [r]
  {
    RemainingJoin(q, [r], {});
    assert [r][1..] == [];
  }

  lemma TaskQueue(s: State, parts: seq<Req>, active: Option<ChanId>, push: Push, crash: Crash)
    requires active.Some? ==> IsActiveChannel(s, active.value)
    ensures var waits := active.Some? && Pending(s.channels[active.value]).Some?;
            Task(s, parts, active, push, crash).queue == if Amount(parts) == 0 || waits then s.queue else []
    ensures Task(s, parts, active, push, crash).nextReq == s.nextReq
  {}

  lemma ProcessQueueMeans(s: State, late: set<ReqId>, active: Option<ChanId>, push: Push, crash: Crash)
    requires Enabled(s, ProcessQueue(late, active, push, crash))
    ensures var s' := Process(s, late, active, push, crash);
            && Remaining(s'.queue, {}) == QueueAfter(s.channels, Remaining(s.queue, {}), s.nextReq, ProcessQueue(late, active, push, crash))
            && s'.nextReq == s.nextReq
  {
    var filtered := s.(queue := Cancelled(Active(s.queue), late));
    TaskQueue(filtered, Merged(s, late), active, push, crash);
    MergedIsRemaining(s, late);
    ActiveRemains(filtered.queue);
    CancelledRemains(s.queue, late);
  }

  lemma QueueStep(s: State, e: Event)
    requires Enabled(s, e)
    ensures Remaining(Next(s, e).queue, {}) == QueueAfter(s.channels, Remaining(s.queue, {}), s.nextReq, e)
    ensures Next(s, e).nextReq == s.nextReq + if e.Enqueue? then 1 else 0
  {
    match e {
      case Enqueue(amt) => EnqueueMeans(s.queue, Req(s.nextReq, amt, true));
      case Cancel(ids) => CancelledRemains(s.queue, ids);
      case ProcessQueue(late, active, push, crash) => ProcessQueueMeans(s, late, active, push, crash);
      case _ =>
    }
  }

  /** In every run the requests that wait are as the events say. */
  lemma {:induction false} QueueIsHistory(run: Run)
    requires IsRun(run)
    ensures Remaining(Final(run).queue, {}) == QueuedIn(run) && Final(run).nextReq == Enqueued(run)
  {
    if run.Then? {
      QueueIsHistory(run.before);
      QueueStep(Final(run.before), run.event);
    }
  }

  // ---------- messages and results ----------

  lemma OtherEventsSendNothing(s: State, e: Event)
    requires Enabled(s, e) && !e.ProcessQueue?
    ensures Next(s, e).sent == s.sent && Next(s, e).msgs.Keys == s.msgs.Keys
    ensures forall cid | cid in s.msgs && !(e.WaitCompletes? && e.w.cid == cid) :: Next(s, e).msgs[cid] == s.msgs[cid]
  {}

  lemma StepSends(s: State, e: Event)
    requires Enabled(s, e)
    ensures Next(s, e).sent == if Pushes(s, e).Some? then s.sent[Pushes(s, e).value := Remaining(s.queue, e.late)] else s.sent
    ensures Next(s, e).msgs.Keys == s.msgs.Keys + if Pushes(s, e).Some? && e.crash in {NoCrash, AfterMessage} then {Pushes(s, e).value} else {}
  {
    if e.ProcessQueue? {
      ProcessMeans(s, e.late, e.active, e.push, e.crash);
    } else {
      OtherEventsSendNothing(s, e);
    }
  }

  /** In every run the messages pushed and saved, and the requests each covers, are as
      the events say. */
  lemma {:induction false} SentIsHistory(run: Run)
    requires IsRun(run)
    ensures Final(run).sent == SentIn(run) && Final(run).msgs.Keys == SavedIn(run)
  {
    if run.Then? {
      SentIsHistory(run.before);
      StepSends(Final(run.before), run.event);
    }
  }

  lemma {:induction false} NotSavedNotCompleted(run: Run, cid: Cid)
    requires cid !in SavedIn(run)
    ensures !Completed(run, cid) && !CompletedBadly(run, cid)
  {
    if run.Then? {
      NotSavedNotCompleted(run.before, cid);
    }
  }

  lemma CompletionMeans(s: State, w: Waiter, cid: Cid)
    requires Enabled(s, WaitCompletes(w)) && cid in s.msgs
    ensures var m, m' := s.msgs[cid], Next(s, WaitCompletes(w)).msgs[cid];
            && (m'.received <==> m.received || w.cid == cid)
            && (m'.err <==> m.err || (w.cid == cid && w.phase == Returned(true)))
            && m'.channel == m.channel
  {}

  /** A step changes the result of a saved message only by completing a wait for it. */
  lemma StepResult(s: State, e: Event, cid: Cid)
    requires Inv(s) && Enabled(s, e) && cid in s.msgs
    ensures cid in Next(s, e).msgs
    ensures var m, m', done := s.msgs[cid], Next(s, e).msgs[cid], e.WaitCompletes? && e.w.cid == cid;
            && (m'.received <==> m.received || done)
            && (m'.err <==> m.err || (done && e.w.phase == Returned(true)))
            && m'.channel == m.channel
  {
    if e.WaitCompletes? {
      CompletionMeans(s, e.w, cid);
    } else if e.ProcessQueue? {
      ProcessMeans(s, e.late, e.active, e.push, e.crash);
    } else {
      OtherEventsSendNothing(s, e);
    }
  }

  /** In every run a saved message is marked received exactly if a wait for it completed,
      and with an error exactly if one completed with an error. */
  lemma {:induction false} ResultIsHistory(run: Run, cid: Cid)
    requires IsRun(run) && cid in Final(run).msgs
    ensures Final(run).msgs[cid].received <==> Completed(run, cid)
    ensures Final(run).msgs[cid].err <==> CompletedBadly(run, cid)
  {
    if run.Then? {
      var s, e := Final(run.before), run.event;
      SentIsHistory(run.before);
      RunInvariant(run.before);
      if cid in s.msgs {
        ResultIsHistory(run.before, cid);
        StepResult(s, e, cid);
      } else {
        StepSends(s, e);
        NotSavedNotCompleted(run.before, cid);
        ProcessMeans(s, e.late, e.active, e.push, e.crash);
      }
    }
  }

  /** A wait comes back with an error exactly if it did not succeed. */
  lemma ReturnMeans(run: Run, w: Waiter, outcome: Outcome)
    requires IsRun(run) && Enabled(Final(run), FundsProtocol.WaitReturns(w, outcome))
    ensures Next(Final(run), FundsProtocol.WaitReturns(w, outcome)).waiters
            == Final(run).waiters - {w} + {w.(phase := Returned(!outcome.Succeeded?))}
  {
    var s := Final(run);
    RunInvariant(run);
    assert WaiterSound(s.channels, s.msgs, s.sent, w);
  }

  // ---------- channels ----------

  /** The channel a message was pushed for: the active one, or a new one. */
  function ChannelIn(run: Run, cid: Cid): Option<ChanId> {
    if run.Start? then None
    else if Pushes(Final(run.before), run.event) == Some(cid)
    then Some(if run.event.active.Some? then run.event.active.value else run.event.push.chan)
    else ChannelIn(run.before, cid)
  }

  predicate SettledIn(run: Run, ch: ChanId) {
    run.Then? && (run.event == FundsProtocol.Settle(ch) || SettledIn(run.before, ch))
  }

  /** Channel `ch` keeps address and amount, and settles only if `settled`; if it is new
      it has neither and is not settling. */
  predicate Kept(cs: Channels, cs': Channels, ch: ChanId, settled: bool) {
    && (ch in cs ==>
          && ch in cs' && cs'[ch].address == cs[ch].address && cs'[ch].amount == cs[ch].amount
          && (cs'[ch].settling <==> cs[ch].settling || settled))
    && (ch !in cs && ch in cs' ==> cs'[ch].address.None? && cs'[ch].amount == 0 && !cs'[ch].settling)
  }

  lemma CreateKept(s: State, parts: seq<Req>, cid: Cid, made: ChanId, crash: Crash, ch: ChanId)
    requires made !in s.channels
    ensures Kept(s.channels, CreateFlowch(s, parts, cid, made, crash).channels, ch, false)
  {}

  lemma AddFundsKept(s: State, parts: seq<Req>, to: ChanId, cid: Cid, crash: Crash, ch: ChanId)
    requires to in s.channels
    ensures Kept(s.channels, AddFunds(s, parts, to, cid, crash).channels, ch, false)
  {}

  lemma TaskKept(s: State, parts: seq<Req>, active: Option<ChanId>, push: Push, crash: Crash, ch: ChanId)
    requires active.Some? ==> IsActiveChannel(s, active.value)
    requires push.Pushed? ==> push.chan !in s.channels
    ensures Kept(s.channels, Task(s, parts, active, push, crash).channels, ch, false)
  {
    if push.Pushed? {
      if active.None? {
        CreateKept(s.(queue := []), parts, push.cid, push.chan, crash, ch);
      } else {
        AddFundsKept(s.(queue := []), parts, active.value, push.cid, crash, ch);
      }
    }
  }

  /** Apart from waits, events keep the address and amount of every channel, add only
      channels without either, and settle only the channel they name. */
  lemma ChannelsKept(s: State, e: Event, ch: ChanId)
    requires Enabled(s, e) && !e.WaitReturns?
    ensures Kept(s.channels, Next(s, e).channels, ch, e == FundsProtocol.Settle(ch))
  {
    match e {
      case ProcessQueue(late, active, push, crash) =>
        TaskKept(s.(queue := Cancelled(Active(s.queue), late)), Merged(s, late), active, push, crash, ch);
      case _ =>
    }
  }

  /** A wait that ends with an answer does to its own channel what the answer says, and
      nothing to others. */
  lemma WaitMeans(run: Run, w: Waiter, outcome: Outcome, ch: ChanId)
    requires IsRun(run) && Enabled(Final(run), FundsProtocol.WaitReturns(w, outcome)) && !outcome.Succeeded?
    ensures var s, s' := Final(run), Next(Final(run), FundsProtocol.WaitReturns(w, outcome));
            var removed := outcome.ExitFailed? && w.kind == CreateWait && w.chan == ch;
            && (ch in s'.channels <==> ch in s.channels && !removed)
            && (removed ==> ch in s.channels && s.channels[ch].address.None? && s.channels[ch].amount == 0)
            && (ch in s'.channels ==>
                  && s'.channels[ch].address == s.channels[ch].address && s'.channels[ch].amount == s.channels[ch].amount
                  && s'.channels[ch].settling == s.channels[ch].settling)
  {
    var s := Final(run);
    RunInvariant(run);
    assert WaiterSound(s.channels, s.msgs, s.sent, w);
    if w.kind == CreateWait {
      NothingConfirmedBeforeCreate(s, w.chan);
    }
  }

  lemma SuccessMeans(run: Run, w: Waiter, a: Address, ch: ChanId)
    requires IsRun(run) && Enabled(Final(run), FundsProtocol.WaitReturns(w, Succeeded(a)))
    ensures var s, s' := Final(run), Next(Final(run), FundsProtocol.WaitReturns(w, Succeeded(a)));
            && w.cid in s.sent && w.chan in s.channels && s'.channels.Keys == s.channels.Keys
            && (ch in s.channels ==>
                  && s'.channels[ch].address == (if ch == w.chan && w.kind == CreateWait then Some(a) else s.channels[ch].address)
                  && s'.channels[ch].amount == s.channels[ch].amount + (if ch == w.chan then Amount(s.sent[w.cid]) else 0)
                  && s'.channels[ch].settling == s.channels[ch].settling)
  {
    SuccessCredits(run, w, a);
  }

  /** In every run a channel's address is the one its create message succeeded with, its
      amount what the successful waits were for, and it is settling if it was settled. */
  lemma {:induction false} ChannelIsHistory(run: Run, ch: ChanId)
    requires IsRun(run)
    ensures ch in Final(run).channels ==>
              var ci := Final(run).channels[ch];
              ci.address == AddressIn(run, ch) && ci.amount == CreditedIn(run, ch) && (ci.settling <==> SettledIn(run, ch))
    ensures ch !in Final(run).channels ==> AddressIn(run, ch).None? && CreditedIn(run, ch) == 0 && !SettledIn(run, ch)
  {
    if run.Then? {
      var s, e := Final(run.before), run.event;
      ChannelIsHistory(run.before, ch);
      SentIsHistory(run.before);
      RunInvariant(run.before);
      if !e.WaitReturns? {
        ChannelsKept(s, e, ch);
      } else if e.outcome.Succeeded? {
        SuccessMeans(run.before, e.w, e.outcome.address, ch);
      } else {
        WaitMeans(run.before, e.w, e.outcome, ch);
        if ch in s.channels && s.channels[ch].settling {
          SettledHasAddress(s, ch);
        }
      }
    }
  }

  lemma SettledHasAddress(s: State, ch: ChanId)
    requires Inv(s) && ch in s.channels && s.channels[ch].settling
    ensures s.channels[ch].address.Some?
  {
    assert RecordShape(s.channels[ch]);
  }

  // ---------- what callers are told ----------

  lemma NewMessageChannel(s: State, late: set<ReqId>, active: Option<ChanId>, push: Push, crash: Crash)
    requires Enabled(s, ProcessQueue(late, active, push, crash)) && crash in {NoCrash, AfterMessage}
    requires Pushes(s, ProcessQueue(late, active, push, crash)).Some?
    ensures var s' := Next(s, ProcessQueue(late, active, push, crash));
            push.cid in s'.msgs && s'.msgs[push.cid].channel == if active.Some? then active.value else push.chan
  {
    MergedIsRemaining(s, late);
  }

  lemma {:induction false} MessageChannel(run: Run, cid: Cid)
    requires IsRun(run) && cid in Final(run).msgs
    ensures ChannelIn(run, cid) == Some(Final(run).msgs[cid].channel)
  {
    if run.Then? {
      var s, e := Final(run.before), run.event;
      RunInvariant(run.before);
      if cid in s.msgs {
        MessageChannel(run.before, cid);
        StepResult(s, e, cid);
      } else {
        StepSends(s, e);
        NewMessageChannel(s, e.late, e.active, e.push, e.crash);
      }
    }
  }

  /** In every run `getFlowchWaitReady` knows exactly the saved messages, fails exactly
      for those with a wait that completed with an error, waits exactly for those with
      no completed wait, and otherwise gives the address with which the create message
      of the message's channel succeeded. */
  lemma ReadyIsHistory(run: Run, cid: Cid)
    requires IsRun(run)
    ensures WaitReady(Final(run), cid) ==
            if cid !in SavedIn(run) then NotFound
            else if CompletedBadly(run, cid) then MessageFailed
            else if !Completed(run, cid) then StillWaiting
            else if ChannelIn(run, cid).Some? && AddressIn(run, ChannelIn(run, cid).value).Some?
            then Channel(AddressIn(run, ChannelIn(run, cid).value).value)
            else Panic
    ensures WaitReady(Final(run), cid) != Panic
  {
    SentIsHistory(run);
    if cid in Final(run).msgs {
      ResultIsHistory(run, cid);
      MessageChannel(run, cid);
      ChannelIsHistory(run, Final(run).msgs[cid].channel);
    }
    WaitReadyNeverPanics(run, cid);
  }

  // ---------- who is waited for ----------

  /** An event other than a restart neither adds nor takes away a wait, but for a new
      message and a wait that returns. */
  lemma WaitsKept(s: State, e: Event, cid: Cid)
    requires Inv(s) && Enabled(s, e) && !Restarts(s, e) && cid in s.sent
    ensures WaitedFor(Next(s, e), cid) <==> WaitedFor(s, cid) && !(e.WaitReturns? && e.w.cid == cid)
  {
    match e {
      case ProcessQueue(late, active, push, crash) => ProcessWaits(s, late, active, push, crash, cid);
      case WaitReturns(w, outcome) => ReturnWaits(s, w, outcome, cid);
      case WaitCompletes(w) => CompletionWaits(s, w, cid);
      case Enqueue(_) =>
      case Cancel(_) =>
      case Settle(_) =>
      case CrashAndRestart =>
    }
  }

  lemma SameWaits(s: State, s': State, cid: Cid)
    requires forall w: Waiter | w.cid == cid && w.phase.Waiting? :: w in s.waiters <==> w in s'.waiters
    ensures WaitedFor(s, cid) <==> WaitedFor(s', cid)
  {}

  lemma ProcessWaits(s: State, late: set<ReqId>, active: Option<ChanId>, push: Push, crash: Crash, cid: Cid)
    requires Enabled(s, ProcessQueue(late, active, push, crash)) && cid in s.sent
    requires !Restarts(s, ProcessQueue(late, active, push, crash))
    ensures WaitedFor(Process(s, late, active, push, crash), cid) <==> WaitedFor(s, cid)
  {
    MergedIsRemaining(s, late);
    SameWaits(s, Process(s, late, active, push, crash), cid);
  }

  lemma CompletionWaits(s: State, w: Waiter, cid: Cid)
    requires w.phase.Returned?
    ensures WaitedFor(Complete(s, w), cid) <==> WaitedFor(s, cid)
  {
    SameWaits(s, Complete(s, w), cid);
  }

  lemma ReturnWaits(s: State, w: Waiter, outcome: Outcome, cid: Cid)
    requires Inv(s) && w in s.waiters && w.phase.Waiting?
    ensures WaitedFor(AfterWait(s, w, outcome), cid) <==> WaitedFor(s, cid) && w.cid != cid
  {
    var s' := AfterWait(s, w, outcome);
    forall v | v in s'.waiters && v.phase.Waiting? ensures v in s.waiters && v != w {
      NoNewWaits(s, w, outcome, v);
    }
    forall v | v in s.waiters && v != w ensures v in s'.waiters {}
  }

  lemma NewIsWaited(s: State, e: Event)
    requires Enabled(s, e) && Pushes(s, e).Some? && !Restarts(s, e)
    ensures WaitedFor(Next(s, e), Pushes(s, e).value)
  {
    MergedIsRemaining(s, e.late);
    var s' := Next(s, e);
    var w := if e.active.None? then Waiter(e.push.cid, e.push.chan, CreateWait, Waiting)
             else Waiter(e.push.cid, e.active.value, AddFundsWait, Waiting);
    assert w in s'.waiters;
  }

  lemma {:induction false} UnansweredWasSent(run: Run, cid: Cid)
    requires IsRun(run) && Unanswered(run, cid)
    ensures cid in Final(run).sent
  {
    RunInvariant(run.before);
    StepSends(Final(run.before), run.event);
    if run.event.WaitReturns? && run.event.w.cid == cid {
      var s := Final(run.before);
      assert WaiterSound(s.channels, s.msgs, s.sent, run.event.w);
    } else {
      UnansweredWasSent(run.before, cid);
    }
  }

  lemma RestartMeans(s: State, e: Event)
    requires Enabled(s, e) && Restarts(s, e)
    ensures exists m :: Next(s, e) == Restart(m) && m.fate == Next(s, e).fate && m.channels == Next(s, e).channels
  {
    if e.ProcessQueue? {
      MergedIsRemaining(s, e.late);
      var q := s.(queue := []);
      var m := if e.active.None? then CreateFlowch(q, Merged(s, e.late), e.push.cid, e.push.chan, e.crash)
               else AddFunds(q, Merged(s, e.late), e.active.value, e.push.cid, e.crash);
      assert Next(s, e) == Restart(m);
    } else {
      assert Next(s, e) == Restart(s);
    }
  }

  lemma RestartedIsWaited(s: State, m: State, cid: Cid)
    requires Inv(s) && s == Restart(m) && m.channels == s.channels && cid in s.fate && s.fate[cid].Outstanding?
    ensures WaitedFor(s, cid)
  {
    var ch := s.fate[cid].chan;
    var w := Waiter(cid, ch, if s.channels[ch].createMsg.Some? then CreateWait else AddFundsWait, Waiting);
    assert w in s.waiters;
  }

  lemma TaskFate(s: State, late: set<ReqId>, active: Option<ChanId>, push: Push, crash: Crash, cid: Cid)
    requires Enabled(s, ProcessQueue(late, active, push, crash)) && Pushes(s, ProcessQueue(late, active, push, crash)) != Some(cid)
    ensures var s' := Process(s, late, active, push, crash);
            (cid in s.fate <==> cid in s'.fate) && (cid in s.fate ==> s'.fate[cid] == s.fate[cid])
  {
    MergedIsRemaining(s, late);
  }

  lemma WaitFate(s: State, w: Waiter, outcome: Outcome, cid: Cid)
    requires Inv(s) && Enabled(s, FundsProtocol.WaitReturns(w, outcome)) && cid in AfterWait(s, w, outcome).fate
    requires AfterWait(s, w, outcome).fate[cid].Outstanding?
    ensures cid in s.fate && s.fate[cid].Outstanding? && (w.cid == cid ==> outcome.WaitError? || outcome.Undecodable?)
  {
    assert WaiterSound(s.channels, s.msgs, s.sent, w);
    assert w.chan in s.channels;
    if w.cid != cid && cid in s.fate {
      WaitKeepsFate(s, w, outcome, cid);
    }
  }

  lemma FateBefore(s: State, e: Event, cid: Cid)
    requires Inv(s) && Enabled(s, e) && cid in Next(s, e).fate && Next(s, e).fate[cid].Outstanding? && Pushes(s, e) != Some(cid)
    ensures cid in s.fate && s.fate[cid].Outstanding?
    ensures !(e.WaitReturns? && e.w.cid == cid && !e.outcome.WaitError? && !e.outcome.Undecodable?)
  {
    match e {
      case ProcessQueue(late, active, push, crash) => TaskFate(s, late, active, push, crash, cid);
      case WaitReturns(w, outcome) => WaitFate(s, w, outcome, cid);
      case _ =>
    }
  }

  /** In every run a message under way is waited for, unless a wait for it has come back
      without an answer since the last restart. */
  lemma {:induction false} WaitsAreHistory(run: Run, cid: Cid)
    requires IsRun(run) && cid in Final(run).fate && Final(run).fate[cid].Outstanding?
    ensures WaitedFor(Final(run), cid) <==> !Unanswered(run, cid)
  {
    if run.Then? {
      var s, e := Final(run.before), run.event;
      RunInvariant(run.before);
      RunInvariant(run);
      if Restarts(s, e) {
        RestartMeans(s, e);
        var m :| Next(s, e) == Restart(m) && m.fate == Next(s, e).fate && m.channels == Next(s, e).channels;
        RestartedIsWaited(run.after, m, cid);
      } else if Pushes(s, e) == Some(cid) {
        NewIsWaited(s, e);
        if Unanswered(run.before, cid) {
          UnansweredWasSent(run.before, cid);
        }
      } else {
        FateBefore(s, e, cid);
        WaitsAreHistory(run.before, cid);
        WaitsKept(s, e, cid);
      }
    }
  }
}
