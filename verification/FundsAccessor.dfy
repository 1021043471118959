/** The funds queue and message bookkeeping of a channel accessor and its store,
    updated in place, and what callers can rely on over whole runs. */
module FundsAccessor {
  import opened Options
  import opened FundsProtocol

  lemma AmountAppend(q: seq<Req>, r: Req)
    ensures Amount(q + [r]) == Amount(q) + r.amt
  {}

  class Accessor {
    var queue: seq<Req>
    /** The datastore. */
    var channels: map<ChanId, ChannelInfo>
    var msgs: map<Cid, MsgInfo>
    /** The goroutines waiting for messages. */
    var waiters: set<Waiter>
    /** History. */
    ghost var sent: map<Cid, seq<Req>>
    ghost var fate: map<Cid, Fate>
    var nextReq: ReqId

    ghost function Abs(): State
      reads this
    {
      State(queue, channels, msgs, waiters, sent, fate, nextReq)
    }

    constructor ()
      ensures Abs() == INITIAL
    {
      queue, channels, msgs, waiters, nextReq := [], map[], map[], {}, 0;
      sent, fate := map[], map[];
    }

    method GetFlowch(amt: int) returns (id: ReqId)
      modifies this
      ensures Abs() == Next(old(Abs()), Enqueue(amt)) && id == old(nextReq)
    {
      id := nextReq;
      queue := queue + [Req(id, amt, true)];
      nextReq := nextReq + 1;
    }

    /** Active requests move to the front, then the slice is cut. */
    method FilterQueue()
      modifies this
      ensures Abs() == old(Abs()).(queue := Active(old(queue)))
    {
      var i := 0;
      for k := 0 to |queue|
        invariant Abs() == old(Abs()).(queue := queue) && |queue| == |old(queue)|
        invariant i <= k && queue[..i] == Active(old(queue)[..k]) && queue[k..] == old(queue)[k..]
      {
        var r := queue[k];
        assert old(queue)[..k + 1][..k] == old(queue)[..k];
        assert r == old(queue)[k] by { assert queue[k..][0] == old(queue)[k..][0]; }
        assert queue[k + 1..] == queue[k..][1..] && old(queue)[k + 1..] == old(queue)[k..][1..];
        if r.active {
          queue := queue[i := r];
          assert queue[..i + 1] == queue[..i] + [r];
          i := i + 1;
        }
      }
      assert old(queue)[..|queue|] == old(queue);
      queue := queue[..i];
    }

    /** `mergedFundsReq.sum`: requests cancelled meanwhile do not count. */
    method SumActive() returns (sum: int)
      ensures sum == Amount(Active(queue))
    {
      sum := 0;
      for i := 0 to |queue|
        invariant sum == Amount(Active(queue[..i]))
      {
        assert queue[..i + 1][..i] == queue[..i];
        AmountAppend(Active(queue[..i]), queue[i]);
        if queue[i].active {
          sum := sum + queue[i].amt;
        }
      }
      assert queue[..|queue|] == queue;
    }

    method Cancel(ids: set<ReqId>)
      modifies this
      ensures Abs() == Next(old(Abs()), FundsProtocol.Cancel(ids))
    {
      var q := queue;
      for i := 0 to |queue|
        invariant Abs() == old(Abs()).(queue := queue) && |queue| == |q|
        invariant queue[..i] == Cancelled(q, ids)[..i] && queue[i..] == q[i..]
      {
        assert queue[i] == q[i] by { assert queue[i..][0] == q[i..][0]; }
        assert queue[i + 1..] == queue[i..][1..] && q[i + 1..] == q[i..][1..];
        if queue[i].id in ids {
          queue := queue[i := queue[i].(active := false)];
        }
      }
    }

    /** `OutboundActiveByFromTo`. */
    method FindActive() returns (active: Option<ChanId>)
      ensures active.Some? ==> IsActiveChannel(Abs(), active.value)
      ensures active.None? ==> forall ch | ch in channels :: channels[ch].settling
    {
      var todo := channels.Keys;
      while todo != {}
        invariant todo <= channels.Keys
        invariant forall ch | ch in channels && ch !in todo :: channels[ch].settling
      {
        var ch :| ch in todo;
        if !channels[ch].settling { return Some(ch); }
        todo := todo - {ch};
      }
      return None;
    }

    /** `late` are the requests cancelled while the merge is built; `push` is what
        the message pool answers. */
    method ProcessQueue(late: set<ReqId>, push: Push) returns (ghost active: Option<ChanId>)
      requires push.Pushed? ==> push.cid !in sent && push.chan !in channels
      modifies this
      ensures Enabled(old(Abs()), FundsProtocol.ProcessQueue(late, active, push, NoCrash))
      ensures Abs() == Next(old(Abs()), FundsProtocol.ProcessQueue(late, active, push, NoCrash))
    {
      FilterQueue();
      Cancel(late);
      var amt := SumActive();
      var found := FindActive();
      active := found;
      ProcessTask(amt, found, push, Active(queue));
    }

    method ProcessTask(amt: int, found: Option<ChanId>, push: Push, ghost parts: seq<Req>)
      requires amt == Amount(parts) && (found.Some? ==> IsActiveChannel(Abs(), found.value))
      modifies this
      ensures Abs() == Task(old(Abs()), parts, found, push, NoCrash)
    {
      if amt == 0 { return; }
      if found.Some? {
        var ci := channels[found.value];
        if ci.createMsg.Some? { return; }
        if ci.addFundsMsg.Some? { return; }
      }
      queue := [];
      if push.Pushed? {
        if found.None? {
          CreateFlowch(amt, push.cid, push.chan, parts);
        } else {
          AddFunds(found.value, amt, push.cid, parts);
        }
      }
    }

    method CreateFlowch(amt: int, cid: Cid, ch: ChanId, ghost parts: seq<Req>)
      requires amt == Amount(parts)
      modifies this
      ensures Abs() == FundsProtocol.CreateFlowch(old(Abs()), parts, cid, ch, NoCrash)
    {
      sent, fate := sent[cid := parts], fate[cid := Outstanding(ch)];
      channels := channels[ch := ChannelInfo(None, 0, amt, Some(cid), None, false)];
      msgs := msgs[cid := MsgInfo(ch, false, false)];
      waiters := waiters + {Waiter(cid, ch, CreateWait, Waiting)};
    }

    method AddFunds(ch: ChanId, amt: int, cid: Cid, ghost parts: seq<Req>)
      requires amt == Amount(parts) && ch in channels
      modifies this
      ensures Abs() == FundsProtocol.AddFunds(old(Abs()), parts, ch, cid, NoCrash)
    {
      sent, fate := sent[cid := parts], fate[cid := Outstanding(ch)];
      channels := channels[ch := channels[ch].(pending := amt, addFundsMsg := Some(cid))];
      msgs := msgs[cid := MsgInfo(ch, false, false)];
      waiters := waiters + {Waiter(cid, ch, AddFundsWait, Waiting)};
    }

    method MutateChannelInfo(ch: ChanId, ci: ChannelInfo)
      modifies this`channels
      ensures Abs() == Mutate(old(Abs()), ch, ci)
    {
      if ch !in channels { return; }
      channels := channels[ch := ci];
    }

    /** Either wait function, then its return. A record that has gone missing is
        only logged. */
    method WaitReturns(w: Waiter, outcome: Outcome)
      requires outcome.Undecodable? ==> w.kind == CreateWait
      modifies this
      ensures Abs() == AfterWait(old(Abs()), w, outcome)
    {
      if w.chan in channels && outcome.Succeeded? {
        var ci := channels[w.chan];
        if w.kind == CreateWait {
          ci := ci.(address := Some(outcome.address), amount := ci.pending, pending := 0, createMsg := None);
        } else {
          ci := ci.(amount := ci.amount + ci.pending, pending := 0, addFundsMsg := None);
        }
        MutateChannelInfo(w.chan, ci);
        fate := fate[w.cid := Confirmed(w.chan)];
      } else if w.chan in channels && outcome.ExitFailed? {
        if w.kind == CreateWait {
          channels := channels - {w.chan};
        } else {
          MutateChannelInfo(w.chan, channels[w.chan].(pending := 0, addFundsMsg := None));
        }
        fate := fate[w.cid := Failed];
      }
      waiters := waiters - {w} + {w.(phase := Returned(!outcome.Succeeded?))};
    }

    method MsgWaitComplete(w: Waiter)
      requires w.phase.Returned?
      modifies this
      ensures Abs() == Complete(old(Abs()), w)
    {
      if w.cid in msgs {
        var minfo := msgs[w.cid].(received := true);
        if w.phase.err {
          minfo := minfo.(err := true);
        }
        msgs := msgs[w.cid := minfo];
      }
      waiters := waiters - {w};
    }

    method Settle(ch: ChanId)
      requires Enabled(Abs(), FundsProtocol.Settle(ch))
      modifies this`channels
      ensures Abs() == Next(old(Abs()), FundsProtocol.Settle(ch))
    {
      channels := channels[ch := channels[ch].(settling := true)];
    }

    /** `WithPendingAddFunds` and one new goroutine for each channel it finds. */
    method RestartPending()
      modifies this
      ensures Abs() == Next(old(Abs()), CrashAndRestart)
    {
      queue, waiters := [], {};
      var todo := channels.Keys;
      while todo != {}
        invariant todo <= channels.Keys
        invariant Abs() == old(Abs()).(queue := [], waiters := waiters)
        invariant waiters == set ch | ch in channels && ch !in todo && Pending(channels[ch]).Some? ::
                    Waiter(Pending(channels[ch]).value, ch,
                           if channels[ch].createMsg.Some? then CreateWait else AddFundsWait, Waiting)
      {
        var ch :| ch in todo;
        var ci := channels[ch];
        if ci.createMsg.Some? {
          waiters := waiters + {Waiter(ci.createMsg.value, ch, CreateWait, Waiting)};
        } else if ci.addFundsMsg.Some? {
          waiters := waiters + {Waiter(ci.addFundsMsg.value, ch, AddFundsWait, Waiting)};
        }
        todo := todo - {ch};
      }
    }

    /** `getFlowchWaitReady`, up to where it starts to wait. */
    method GetFlowchWaitReady(cid: Cid) returns (r: Ready)
      ensures r == WaitReady(Abs(), cid)
    {
      if cid !in msgs { return NotFound; }
      var minfo := msgs[cid];
      if minfo.err { return MessageFailed; }
      if minfo.received {
        if minfo.channel !in channels { return NotFound; }
        var ci := channels[minfo.channel];
        if ci.address.None? { return Panic; }
        return Channel(ci.address.value);
      }
      return StillWaiting;
    }
  }

  datatype Ready = NotFound | MessageFailed | Channel(address: Address) | Panic | StillWaiting

  function WaitReady(s: State, cid: Cid): Ready {
    if cid !in s.msgs then NotFound
    else if s.msgs[cid].err then MessageFailed
    else if s.msgs[cid].received then
      if s.msgs[cid].channel !in s.channels then NotFound
      else if s.channels[s.msgs[cid].channel].address.None? then Panic
      else Channel(s.channels[s.msgs[cid].channel].address.value)
    else StillWaiting
  }

  // ---------- over whole runs ----------

  /** A message saved as received without error always yields the address of its
      channel: the panic is unreachable, and so is the missing record. */
  lemma WaitReadyNeverPanics(run: Run, cid: Cid)
    requires IsRun(run)
    ensures WaitReady(Final(run), cid) != Panic
    ensures var s := Final(run);
            cid in s.msgs && s.msgs[cid].received && !s.msgs[cid].err ==> WaitReady(s, cid).Channel?
  {
    RunInvariant(run);
  }

  /** When the wait for a message succeeds, the channel it was sent for is
      credited with the amounts of exactly its requests, and no other channel. */
  lemma SuccessCredits(run: Run, w: Waiter, a: Address)
    requires IsRun(run) && Enabled(Final(run), FundsProtocol.WaitReturns(w, Succeeded(a)))
    ensures var s, s' := Final(run), Next(Final(run), FundsProtocol.WaitReturns(w, Succeeded(a)));
            && w.cid in s.sent && w.cid in s.fate && w.chan in s.channels && s'.channels.Keys == s.channels.Keys
            && s.fate[w.cid] == Outstanding(w.chan) && s'.fate[w.cid] == Confirmed(w.chan)
            && s'.channels[w.chan].amount == s.channels[w.chan].amount + Amount(s.sent[w.cid])
            && forall ch | ch in s.channels && ch != w.chan :: s'.channels[ch] == s.channels[ch]
  {
    var s := Final(run);
    RunInvariant(run);
    assert WaiterSound(s.channels, s.msgs, s.sent, w);
    PendingAmount(s.channels, s.sent, s.fate, w);
    if w.kind == CreateWait {
      NothingConfirmedBeforeCreate(s, w.chan);
    }
    CreditedBy(s, w, a);
  }

  lemma CreditedBy(s: State, w: Waiter, a: Address)
    requires w.chan in s.channels && (w.kind == CreateWait ==> s.channels[w.chan].amount == 0)
    ensures var s' := AfterWait(s, w, Succeeded(a));
            && s'.channels.Keys == s.channels.Keys && s'.fate == s.fate[w.cid := Confirmed(w.chan)]
            && s'.channels[w.chan].amount == s.channels[w.chan].amount + s.channels[w.chan].pending
            && forall ch | ch in s.channels && ch != w.chan :: s'.channels[ch] == s.channels[ch]
  {}

  predicate Continues(run: Run, later: Run) {
    run == later || (later.Then? && Continues(run, later.before))
  }

  lemma WaitKeepsFate(s: State, w: Waiter, outcome: Outcome, cid: Cid)
    requires cid in s.fate && cid != w.cid
    ensures cid in AfterWait(s, w, outcome).fate && AfterWait(s, w, outcome).fate[cid] == s.fate[cid]
  {}

  lemma ProcessKeepsFate(s: State, late: set<ReqId>, active: Option<ChanId>, push: Push, crash: Crash, cid: Cid)
    requires active.Some? ==> IsActiveChannel(s, active.value)
    requires cid in s.fate && (push.Pushed? ==> push.cid != cid)
    ensures var s' := Process(s, late, active, push, crash); cid in s'.fate && s'.fate[cid] == s.fate[cid]
  {}

  lemma StepKeepsFate(s: State, e: Event, cid: Cid)
    requires Inv(s) && Enabled(s, e) && cid in s.fate && !s.fate[cid].Outstanding?
    ensures cid in Next(s, e).fate && Next(s, e).fate[cid] == s.fate[cid]
  {
    match e {
      case WaitReturns(w, outcome) =>
        assert WaiterSound(s.channels, s.msgs, s.sent, w);
        WaitKeepsFate(s, w, outcome, cid);
      case ProcessQueue(late, active, push, crash) =>
        ProcessKeepsFate(s, late, active, push, crash, cid);
      case _ =>
    }
  }

  /** A message is confirmed, failed or lost once and for all, so with
      `SuccessCredits` and the sum kept by the invariant it is credited once. */
  lemma {:induction false} FateIsFinal(run: Run, later: Run, cid: Cid)
    requires IsRun(later) && Continues(run, later) && cid in Final(run).fate && !Final(run).fate[cid].Outstanding?
    ensures IsRun(run) && cid in Final(later).fate && Final(later).fate[cid] == Final(run).fate[cid]
  {
    if run != later {
      FateIsFinal(run, later.before, cid);
      RunInvariant(later.before);
      StepKeepsFate(Final(later.before), later.event, cid);
    }
  }

  /** After a crash anywhere, exactly the messages recorded as outstanding are
      waited for again. */
  lemma RestartWaitsForOutstanding(run: Run, cid: Cid)
    requires IsRun(run)
    ensures var s := Restart(Final(run));
            (cid in s.fate && s.fate[cid].Outstanding?) <==>
            exists w | w in s.waiters :: w.cid == cid && w.phase.Waiting?
  {
    RunInvariant(run);
    var s := Final(run);
    if cid in s.fate && s.fate[cid].Outstanding? {
      var ch := s.fate[cid].chan;
      var w := Waiter(cid, ch, if s.channels[ch].createMsg.Some? then CreateWait else AddFundsWait, Waiting);
      assert w in Restart(s).waiters;
    }
  }

  /** A request is part of at most one message ever sent. */
  lemma RequestSentOnce(run: Run, c: Cid, d: Cid, id: ReqId)
    requires IsRun(run) && c in Final(run).sent && d in Final(run).sent
    requires id in Ids(Final(run).sent[c]) && id in Ids(Final(run).sent[d])
    ensures c == d
  {
    RunInvariant(run);
  }
}
