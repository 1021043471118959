/** Creating a flow channel and adding funds to it, for one from / to pair: queued
    requests are merged into one chain message, the message is waited for, the
    channel record is credited. The record store survives a crash; the queue and
    the goroutines waiting for messages do not. */
module FundsProtocol {
  import opened Options
  import opened MapSums

  type Cid = nat
  type ChanId = nat
  type ReqId = nat
  type Address = nat

  datatype Req = Req(id: ReqId, amt: int, active: bool)

  datatype ChannelInfo = ChannelInfo(
    address: Option<Address>,
    amount: int,
    pending: int,
    createMsg: Option<Cid>,
    addFundsMsg: Option<Cid>,
    settling: bool)

  datatype MsgInfo = MsgInfo(channel: ChanId, received: bool, err: bool)

  datatype Kind = CreateWait | AddFundsWait

  datatype Phase = Waiting | Returned(err: bool)

  /** A goroutine on its way from sending a message to recording its result. */
  datatype Waiter = Waiter(cid: Cid, chan: ChanId, kind: Kind, phase: Phase)

  /** What became of a message that was pushed to the chain. */
  datatype Fate = Outstanding(chan: ChanId) | Confirmed(chan: ChanId) | Failed | Unrecorded

  /** `sent` and `fate` are the history the properties speak about: the requests
      each pushed message covers, and what became of it. */
  datatype State = State(
    queue: seq<Req>,
    channels: map<ChanId, ChannelInfo>,
    msgs: map<Cid, MsgInfo>,
    waiters: set<Waiter>,
    sent: map<Cid, seq<Req>>,
    fate: map<Cid, Fate>,
    nextReq: ReqId)

  const INITIAL := State([], map[], map[], {}, map[], map[], 0)

  // ---------- the queue ----------

  /** `filterQueue`. */
  function Active(q: seq<Req>): seq<Req> {
    if q == [] then []
    else if q[|q| - 1].active then Active(q[..|q| - 1]) + [q[|q| - 1]]
    else Active(q[..|q| - 1])
  }

  function Amount(q: seq<Req>): int {
    if q == [] then 0 else Amount(q[..|q| - 1]) + q[|q| - 1].amt
  }

  /** The requests whose contexts are cancelled. */
  function Cancelled(q: seq<Req>, ids: set<ReqId>): (r: seq<Req>)
    ensures |r| == |q|
    ensures forall i | 0 <= i < |q| :: r[i] == if q[i].id in ids then q[i].(active := false) else q[i]
  {
    seq(|q|, i requires 0 <= i < |q| => if q[i].id in ids then q[i].(active := false) else q[i])
  }

  // ---------- processTask ----------

  datatype Push = PushFailed | Pushed(cid: Cid, chan: ChanId)

  datatype Crash = NoCrash | AfterPush | AfterChannel | AfterMessage

  predicate IsActiveChannel(s: State, ch: ChanId) {
    ch in s.channels && !s.channels[ch].settling
  }

  function Pending(ci: ChannelInfo): Option<Cid> {
    if ci.createMsg.Some? then ci.createMsg else ci.addFundsMsg
  }

  function Record(s: State, cid: Cid, parts: seq<Req>, fate: Fate): State {
    s.(sent := s.sent[cid := parts], fate := s.fate[cid := fate])
  }

  function NewChannel(cid: Cid, amt: int): ChannelInfo {
    ChannelInfo(None, 0, amt, Some(cid), None, false)
  }

  /** `createFlowch`, cut short where the process crashes. */
  function CreateFlowch(s: State, parts: seq<Req>, cid: Cid, ch: ChanId, crash: Crash): State {
    if crash == AfterPush then Record(s, cid, parts, Unrecorded)
    else
      var s1 := Record(s, cid, parts, Outstanding(ch)).(channels := s.channels[ch := NewChannel(cid, Amount(parts))]);
      if crash == AfterChannel then s1
      else
        s1.(msgs := s.msgs[cid := MsgInfo(ch, false, false)],
            waiters := s.waiters + {Waiter(cid, ch, CreateWait, Waiting)})
  }

  /** `addFunds`, likewise. */
  function AddFunds(s: State, parts: seq<Req>, ch: ChanId, cid: Cid, crash: Crash): State
    requires ch in s.channels
  {
    if crash == AfterPush then Record(s, cid, parts, Unrecorded)
    else
      var ci := s.channels[ch].(pending := Amount(parts), addFundsMsg := Some(cid));
      var s1 := Record(s, cid, parts, Outstanding(ch)).(channels := s.channels[ch := ci]);
      if crash == AfterChannel then s1
      else
        s1.(msgs := s.msgs[cid := MsgInfo(ch, false, false)],
            waiters := s.waiters + {Waiter(cid, ch, AddFundsWait, Waiting)})
  }

  /** `restartPending`, on what the store kept. */
  function Restart(s: State): State {
    s.(queue := [],
       waiters := set ch | ch in s.channels && Pending(s.channels[ch]).Some? ::
         Waiter(Pending(s.channels[ch]).value, ch,
                if s.channels[ch].createMsg.Some? then CreateWait else AddFundsWait, Waiting))
  }

  /** The parts of the queue a merged request covers, once `late` are cancelled
      between the filtering and the summing. */
  function Merged(s: State, late: set<ReqId>): seq<Req> {
    Active(Cancelled(Active(s.queue), late))
  }

  /** `processTask` on the merged requests, and what it does to the queue.
      `active` is the channel `OutboundActiveByFromTo` finds. */
  function Task(s: State, parts: seq<Req>, active: Option<ChanId>, push: Push, crash: Crash): State
    requires active.Some? ==> IsActiveChannel(s, active.value)
  {
    if Amount(parts) == 0 then s
    else if active.Some? && Pending(s.channels[active.value]).Some? then s
    else if push.PushFailed? then s.(queue := [])
    else
      var cleared := s.(queue := []);
      var s1 := if active.None? then CreateFlowch(cleared, parts, push.cid, push.chan, crash)
                else AddFunds(cleared, parts, active.value, push.cid, crash);
      if crash == NoCrash then s1 else Restart(s1)
  }

  /** `processQueue`. */
  function Process(s: State, late: set<ReqId>, active: Option<ChanId>, push: Push, crash: Crash): State
    requires active.Some? ==> IsActiveChannel(s, active.value)
  {
    Task(s.(queue := Cancelled(Active(s.queue), late)), Merged(s, late), active, push, crash)
  }

  // ---------- waiting ----------

  datatype Outcome = WaitError | ExitFailed | Undecodable | Succeeded(address: Address)

  /** `mutateChannelInfo`: a missing record is only logged. */
  function Mutate(s: State, ch: ChanId, ci: ChannelInfo): State {
    if ch in s.channels then s.(channels := s.channels[ch := ci]) else s
  }

  function Back(s: State, w: Waiter, err: bool): State {
    s.(waiters := s.waiters - {w} + {w.(phase := Returned(err))})
  }

  /** `waitFlowchCreateMsg` and `waitAddFundsMsg`. */
  function AfterWait(s: State, w: Waiter, outcome: Outcome): State {
    if outcome.WaitError? || outcome.Undecodable? then Back(s, w, true)
    else if w.chan !in s.channels then Back(s, w, outcome.ExitFailed?)
    else
      var ci := s.channels[w.chan];
      if w.kind == CreateWait then
        if outcome.ExitFailed?
        then Back(s.(channels := s.channels - {w.chan}, fate := s.fate[w.cid := Failed]), w, true)
        else Credit(s, w, ci.(address := Some(outcome.address), amount := ci.pending, pending := 0, createMsg := None))
      else
        if outcome.ExitFailed?
        then Back(Mutate(s, w.chan, ci.(pending := 0, addFundsMsg := None)).(fate := s.fate[w.cid := Failed]), w, true)
        else Credit(s, w, Topped(ci))
  }

  function Topped(ci: ChannelInfo): ChannelInfo {
    ci.(amount := ci.amount + ci.pending, pending := 0, addFundsMsg := None)
  }

  function Credit(s: State, w: Waiter, ci: ChannelInfo): State {
    Back(Mutate(s, w.chan, ci).(fate := s.fate[w.cid := Confirmed(w.chan)]), w, false)
  }

  /** `msgWaitComplete` with `SaveMessageResult`: an earlier error stays. */
  function Complete(s: State, w: Waiter): State
    requires w.phase.Returned?
  {
    s.(waiters := s.waiters - {w},
       msgs := if w.cid in s.msgs
               then s.msgs[w.cid := s.msgs[w.cid].(received := true, err := s.msgs[w.cid].err || w.phase.err)]
               else s.msgs)
  }

  // ---------- events ----------

  datatype Event =
    | Enqueue(amt: int)
    | Cancel(ids: set<ReqId>)
    | ProcessQueue(late: set<ReqId>, active: Option<ChanId>, push: Push, crash: Crash)
    | WaitReturns(w: Waiter, outcome: Outcome)
    | WaitCompletes(w: Waiter)
    | Settle(ch: ChanId)
    | CrashAndRestart

  /** Messages and channel records get new identifiers; only a channel with an
      address can be settled. */
  predicate Enabled(s: State, e: Event) {
    match e
    case ProcessQueue(_, active, push, _) =>
      && (if active.Some? then IsActiveChannel(s, active.value) else forall ch | ch in s.channels :: s.channels[ch].settling)
      && (push.Pushed? ==> push.cid !in s.sent && push.chan !in s.channels)
    case WaitReturns(w, outcome) =>
      w in s.waiters && w.phase.Waiting? && (outcome.Undecodable? ==> w.kind == CreateWait)
    case WaitCompletes(w) => w in s.waiters && w.phase.Returned?
    case Settle(ch) => ch in s.channels && s.channels[ch].address.Some?
    case _ => true
  }

  function Next(s: State, e: Event): State
    requires Enabled(s, e)
  {
    match e
    case Enqueue(amt) => s.(queue := s.queue + [Req(s.nextReq, amt, true)], nextReq := s.nextReq + 1)
    case Cancel(ids) => s.(queue := Cancelled(s.queue, ids))
    case ProcessQueue(late, active, push, crash) => Process(s, late, active, push, crash)
    case WaitReturns(w, outcome) => AfterWait(s, w, outcome)
    case WaitCompletes(w) => Complete(s, w)
    case Settle(ch) => s.(channels := s.channels[ch := s.channels[ch].(settling := true)])
    case CrashAndRestart => Restart(s)
  }

  datatype Run = Start | Then(before: Run, event: Event, after: State)

  function Final(run: Run): State {
    if run.Start? then INITIAL else run.after
  }

  predicate IsRun(run: Run) {
    run.Then? ==>
      IsRun(run.before) && Enabled(Final(run.before), run.event) && run.after == Next(Final(run.before), run.event)
  }

  // ---------- the invariant ----------

  type Channels = map<ChanId, ChannelInfo>
  type Sent = map<Cid, seq<Req>>
  type Fates = map<Cid, Fate>

  predicate OneActive(cs: Channels) {
    forall a, b | a in cs && b in cs && !cs[a].settling && !cs[b].settling :: a == b
  }

  /** A record has an address exactly once its create message is through, and
      never two messages under way. */
  predicate RecordShape(ci: ChannelInfo) {
    && !(ci.createMsg.Some? && ci.addFundsMsg.Some?)
    && (ci.address.None? <==> ci.createMsg.Some?)
    && (ci.settling ==> ci.address.Some?)
    && (Pending(ci).None? ==> ci.pending == 0)
  }

  predicate RecordsShaped(cs: Channels) {
    forall ch | ch in cs :: RecordShape(cs[ch])
  }

  /** The message under way on a channel is the one its history says is
      outstanding there, and `pending` is its amount. */
  predicate PendingTracked(cs: Channels, sent: Sent, fate: Fates) {
    && fate.Keys == sent.Keys
    && (forall ch | ch in cs && Pending(cs[ch]).Some? ::
          var cid := Pending(cs[ch]).value;
          cid in sent && fate[cid] == Outstanding(ch) && cs[ch].pending == Amount(sent[cid]))
    && (forall cid | cid in fate && fate[cid].Outstanding? ::
          fate[cid].chan in cs && Pending(cs[fate[cid].chan]) == Some(cid))
  }

  /** The messages confirmed on a channel, with their amounts. */
  function ConfirmedOn(sent: Sent, fate: Fates, ch: ChanId): map<Cid, int> {
    map cid | cid in fate && cid in sent && fate[cid] == Confirmed(ch) :: Amount(sent[cid])
  }

  predicate HasAddress(cs: Channels, ch: ChanId) {
    ch in cs && cs[ch].address.Some?
  }

  /** `amount` is the sum of the messages confirmed on the channel. */
  ghost predicate AmountsConfirmed(cs: Channels, sent: Sent, fate: Fates) {
    && (forall ch | ch in cs :: cs[ch].amount == Sum(ConfirmedOn(sent, fate, ch)))
    && (forall cid | cid in fate && fate[cid].Confirmed? :: HasAddress(cs, fate[cid].chan))
  }

  predicate WaiterSound(cs: Channels, msgs: map<Cid, MsgInfo>, sent: Sent, w: Waiter) {
    && w.cid in sent
    && (w.cid in msgs ==> msgs[w.cid].channel == w.chan)
    && (w.phase.Waiting? ==>
          && w.chan in cs
          && Pending(cs[w.chan]) == Some(w.cid)
          && (w.kind == CreateWait <==> cs[w.chan].createMsg.Some?))
    && (w.phase == Returned(false) ==> HasAddress(cs, w.chan))
  }

  predicate WaitersSound(cs: Channels, msgs: map<Cid, MsgInfo>, sent: Sent, waiters: set<Waiter>) {
    && (forall w | w in waiters :: WaiterSound(cs, msgs, sent, w))
    && (forall w, v | w in waiters && v in waiters && w.cid == v.cid :: w == v)
  }

  /** A message saved as received without error has a channel with an address. */
  predicate MessagesSound(cs: Channels, msgs: map<Cid, MsgInfo>, sent: Sent, fate: Fates) {
    && (forall cid | cid in msgs :: cid in sent)
    && (forall cid | cid in msgs && msgs[cid].received && !msgs[cid].err :: HasAddress(cs, msgs[cid].channel))
    && (forall cid | cid in msgs && cid in fate && fate[cid].Outstanding? :: msgs[cid].channel == fate[cid].chan)
  }

  function Ids(reqs: seq<Req>): set<ReqId> {
    set r | r in reqs :: r.id
  }

  predicate Distinct(reqs: seq<Req>) {
    forall i, j | 0 <= i < j < |reqs| :: reqs[i].id != reqs[j].id
  }

  /** No request is covered twice: not by two messages, not twice by one, and not
      by a message while still queued. */
  predicate RequestsOnce(queue: seq<Req>, sent: Sent, nextReq: ReqId) {
    && Distinct(queue)
    && (forall id | id in Ids(queue) :: id < nextReq)
    && (forall c | c in sent :: Distinct(sent[c]) && Ids(sent[c]) !! Ids(queue))
    && (forall c, id | c in sent && id in Ids(sent[c]) :: id < nextReq)
    && (forall c, d | c in sent && d in sent && c != d :: Ids(sent[c]) !! Ids(sent[d]))
  }

  /** The books: channels, messages, waiting goroutines and history agree. */
  ghost predicate Books(s: State) {
    && OneActive(s.channels)
    && RecordsShaped(s.channels)
    && PendingTracked(s.channels, s.sent, s.fate)
    && AmountsConfirmed(s.channels, s.sent, s.fate)
    && WaitersSound(s.channels, s.msgs, s.sent, s.waiters)
    && MessagesSound(s.channels, s.msgs, s.sent, s.fate)
  }

  ghost predicate Inv(s: State) {
    Books(s) && RequestsOnce(s.queue, s.sent, s.nextReq)
  }

  // ---------- sending a message ----------

  lemma {:induction false} ActiveIds(q: seq<Req>)
    ensures Ids(Active(q)) <= Ids(q)
  {
    if q != [] {
      var front, last := q[..|q| - 1], q[|q| - 1];
      ActiveIds(front);
      assert q == front + [last];
      assert Ids(q) == Ids(front) + {last.id};
      assert Ids(Active(front) + [last]) == Ids(Active(front)) + {last.id};
    }
  }

  lemma AppendDistinct(q: seq<Req>, r: Req)
    ensures Distinct(q + [r]) <==> Distinct(q) && r.id !in Ids(q)
  {
    var out := q + [r];
    if Distinct(out) {
      forall i | 0 <= i < |q| ensures q[i].id != r.id {
        assert out[i].id != out[|q|].id;
      }
      forall i, j | 0 <= i < j < |q| ensures q[i].id != q[j].id {
        assert out[i].id != out[j].id;
      }
    }
    assert forall x | x in q :: x.id in Ids(q);
  }

  lemma {:induction false} ActiveDistinct(q: seq<Req>)
    requires Distinct(q)
    ensures Distinct(Active(q))
  {
    if q != [] {
      var front, last := q[..|q| - 1], q[|q| - 1];
      assert q == front + [last];
      AppendDistinct(front, last);
      ActiveDistinct(front);
      ActiveIds(front);
      AppendDistinct(Active(front), last);
    }
  }

  lemma CancelKeepsIds(q: seq<Req>, ids: set<ReqId>)
    ensures Ids(Cancelled(q, ids)) == Ids(q)
    ensures Distinct(q) ==> Distinct(Cancelled(q, ids))
  {}

  /** The queue after filtering, and the merged requests, only hold requests of
      the queue, each once. */
  lemma MergedFromQueue(queue: seq<Req>, late: set<ReqId>)
    requires Distinct(queue)
    ensures var filtered := Cancelled(Active(queue), late);
            && Distinct(filtered) && Ids(filtered) <= Ids(queue)
            && Distinct(Active(filtered)) && Ids(Active(filtered)) <= Ids(queue)
  {
    ActiveDistinct(queue);
    ActiveIds(queue);
    CancelKeepsIds(Active(queue), late);
    ActiveDistinct(Cancelled(Active(queue), late));
    ActiveIds(Cancelled(Active(queue), late));
  }

  /** A new message does not change what is confirmed anywhere. */
  lemma SendKeepsAmounts(cs: Channels, sent: Sent, fate: Fates, cid: Cid, parts: seq<Req>, f: Fate)
    requires AmountsConfirmed(cs, sent, fate) && cid !in sent && fate.Keys == sent.Keys && !f.Confirmed?
    ensures AmountsConfirmed(cs, sent[cid := parts], fate[cid := f])
  {
    forall ch ensures ConfirmedOn(sent[cid := parts], fate[cid := f], ch) == ConfirmedOn(sent, fate, ch) {}
  }

  lemma UnrecordedKeepsBooks(s: State, cid: Cid, parts: seq<Req>)
    requires Books(s) && cid !in s.sent
    ensures Books(Record(s, cid, parts, Unrecorded))
  {
    SendKeepsAmounts(s.channels, s.sent, s.fate, cid, parts, Unrecorded);
  }

  /** `ci` is the record of `ch` once the message `cid` is under way on it. */
  predicate Opens(cs: Channels, ch: ChanId, ci: ChannelInfo, cid: Cid, parts: seq<Req>) {
    && Pending(ci) == Some(cid) && ci.pending == Amount(parts) && RecordShape(ci) && !ci.settling
    && (if ch in cs
        then Pending(cs[ch]).None? && !cs[ch].settling && ci.address == cs[ch].address && ci.amount == cs[ch].amount
        else ci.amount == 0 && forall k | k in cs :: cs[k].settling)
  }

  lemma SendTracksPending(cs: Channels, sent: Sent, fate: Fates, ch: ChanId, ci: ChannelInfo, cid: Cid, parts: seq<Req>)
    requires PendingTracked(cs, sent, fate) && cid !in sent && Opens(cs, ch, ci, cid, parts)
    ensures PendingTracked(cs[ch := ci], sent[cid := parts], fate[cid := Outstanding(ch)])
  {}

  lemma SendKeepsCredit(cs: Channels, sent: Sent, fate: Fates, ch: ChanId, ci: ChannelInfo, cid: Cid, parts: seq<Req>)
    requires AmountsConfirmed(cs, sent, fate) && cid !in sent && fate.Keys == sent.Keys && Opens(cs, ch, ci, cid, parts)
    ensures AmountsConfirmed(cs[ch := ci], sent[cid := parts], fate[cid := Outstanding(ch)])
  {
    SendKeepsAmounts(cs, sent, fate, cid, parts, Outstanding(ch));
    if ch in cs {
      SameAmount(cs, sent[cid := parts], fate[cid := Outstanding(ch)], ch, ci);
    } else {
      NewRecord(cs, sent[cid := parts], fate[cid := Outstanding(ch)], ch, ci);
    }
  }

  lemma NewRecord(cs: Channels, sent: Sent, fate: Fates, ch: ChanId, ci: ChannelInfo)
    requires AmountsConfirmed(cs, sent, fate) && ch !in cs && ci.amount == 0
    ensures AmountsConfirmed(cs[ch := ci], sent, fate)
  {}

  lemma SameAmount(cs: Channels, sent: Sent, fate: Fates, ch: ChanId, ci: ChannelInfo)
    requires AmountsConfirmed(cs, sent, fate) && ch in cs && ci.amount == cs[ch].amount
    requires cs[ch].address.Some? ==> ci.address.Some?
    ensures AmountsConfirmed(cs[ch := ci], sent, fate)
  {}

  lemma SendKeepsWaiters(cs: Channels, msgs: map<Cid, MsgInfo>, sent: Sent, waiters: set<Waiter>,
                         ch: ChanId, ci: ChannelInfo, cid: Cid, parts: seq<Req>, kind: Kind)
    requires WaitersSound(cs, msgs, sent, waiters) && cid !in sent && Opens(cs, ch, ci, cid, parts)
    requires kind == CreateWait <==> ci.createMsg.Some?
    ensures WaitersSound(cs[ch := ci], msgs, sent[cid := parts], waiters)
    ensures WaitersSound(cs[ch := ci], msgs[cid := MsgInfo(ch, false, false)], sent[cid := parts],
                         waiters + {Waiter(cid, ch, kind, Waiting)})
  {}

  lemma SendKeepsMessages(cs: Channels, msgs: map<Cid, MsgInfo>, sent: Sent, fate: Fates,
                          ch: ChanId, ci: ChannelInfo, cid: Cid, parts: seq<Req>)
    requires MessagesSound(cs, msgs, sent, fate) && cid !in sent && fate.Keys == sent.Keys && Opens(cs, ch, ci, cid, parts)
    ensures MessagesSound(cs[ch := ci], msgs, sent[cid := parts], fate[cid := Outstanding(ch)])
    ensures MessagesSound(cs[ch := ci], msgs[cid := MsgInfo(ch, false, false)], sent[cid := parts],
                          fate[cid := Outstanding(ch)])
  {}

  /** Putting a message under way keeps the invariant, with and without the last
      store write and the waiting goroutine. */
  lemma SendKeepsBooks(s: State, ch: ChanId, ci: ChannelInfo, cid: Cid, parts: seq<Req>, kind: Kind)
    requires Books(s) && cid !in s.sent && Opens(s.channels, ch, ci, cid, parts)
    requires kind == CreateWait <==> ci.createMsg.Some?
    ensures var s1 := Record(s, cid, parts, Outstanding(ch)).(channels := s.channels[ch := ci]);
            && Books(s1)
            && Books(s1.(msgs := s.msgs[cid := MsgInfo(ch, false, false)],
                       waiters := s.waiters + {Waiter(cid, ch, kind, Waiting)}))
  {
    SendTracksPending(s.channels, s.sent, s.fate, ch, ci, cid, parts);
    SendKeepsCredit(s.channels, s.sent, s.fate, ch, ci, cid, parts);
    SendKeepsWaiters(s.channels, s.msgs, s.sent, s.waiters, ch, ci, cid, parts, kind);
    SendKeepsMessages(s.channels, s.msgs, s.sent, s.fate, ch, ci, cid, parts);
  }

  lemma RestartKeepsBooks(s: State)
    requires Books(s)
    ensures Books(Restart(s))
  {
    var s' := Restart(s);
    forall w | w in s'.waiters ensures WaiterSound(s.channels, s.msgs, s.sent, w) {}
  }

  lemma CreateSendKeepsBooks(s: State, parts: seq<Req>, cid: Cid, ch: ChanId, crash: Crash)
    requires Books(s) && cid !in s.sent && ch !in s.channels && forall k | k in s.channels :: s.channels[k].settling
    ensures Books(CreateFlowch(s, parts, cid, ch, crash))
  {
    if crash == AfterPush {
      UnrecordedKeepsBooks(s, cid, parts);
    } else {
      SendKeepsBooks(s, ch, NewChannel(cid, Amount(parts)), cid, parts, CreateWait);
    }
  }

  lemma AddFundsSendKeepsBooks(s: State, parts: seq<Req>, ch: ChanId, cid: Cid, crash: Crash)
    requires Books(s) && cid !in s.sent && IsActiveChannel(s, ch) && Pending(s.channels[ch]).None?
    ensures Books(AddFunds(s, parts, ch, cid, crash))
  {
    if crash == AfterPush {
      UnrecordedKeepsBooks(s, cid, parts);
    } else {
      var ci := s.channels[ch].(pending := Amount(parts), addFundsMsg := Some(cid));
      assert Opens(s.channels, ch, ci, cid, parts);
      SendKeepsBooks(s, ch, ci, cid, parts, AddFundsWait);
    }
  }

  lemma CreatedKeepsBooks(s: State, parts: seq<Req>, cid: Cid, ch: ChanId, crash: Crash)
    requires Books(s) && cid !in s.sent && ch !in s.channels && forall k | k in s.channels :: s.channels[k].settling
    ensures var s1 := CreateFlowch(s, parts, cid, ch, crash); Books(if crash == NoCrash then s1 else Restart(s1))
  {
    CreateSendKeepsBooks(s, parts, cid, ch, crash);
    RestartKeepsBooks(CreateFlowch(s, parts, cid, ch, crash));
  }

  lemma AddedKeepsBooks(s: State, parts: seq<Req>, ch: ChanId, cid: Cid, crash: Crash)
    requires Books(s) && cid !in s.sent && IsActiveChannel(s, ch) && Pending(s.channels[ch]).None?
    ensures var s1 := AddFunds(s, parts, ch, cid, crash); Books(if crash == NoCrash then s1 else Restart(s1))
  {
    AddFundsSendKeepsBooks(s, parts, ch, cid, crash);
    RestartKeepsBooks(AddFunds(s, parts, ch, cid, crash));
  }

  lemma TaskKeepsBooks(s: State, parts: seq<Req>, active: Option<ChanId>, push: Push, crash: Crash)
    requires Books(s)
    requires if active.Some? then IsActiveChannel(s, active.value) else forall ch | ch in s.channels :: s.channels[ch].settling
    requires push.Pushed? ==> push.cid !in s.sent && push.chan !in s.channels
    ensures Books(Task(s, parts, active, push, crash))
  {
    var cleared := s.(queue := []);
    if push.Pushed? {
      if active.None? {
        CreatedKeepsBooks(cleared, parts, push.cid, push.chan, crash);
      } else if Pending(s.channels[active.value]).None? {
        AddedKeepsBooks(cleared, parts, active.value, push.cid, crash);
      }
    }
  }

  lemma FewerQueued(queue: seq<Req>, queue': seq<Req>, sent: Sent, nextReq: ReqId)
    requires RequestsOnce(queue, sent, nextReq) && Distinct(queue') && Ids(queue') <= Ids(queue)
    ensures RequestsOnce(queue', sent, nextReq)
  {}

  lemma QueuedSent(queue: seq<Req>, sent: Sent, nextReq: ReqId, parts: seq<Req>, cid: Cid)
    requires RequestsOnce(queue, sent, nextReq) && cid !in sent
    requires Distinct(parts) && Ids(parts) <= Ids(queue)
    ensures RequestsOnce([], sent[cid := parts], nextReq)
  {}

  /** Processing moves queued requests into at most one new message. */
  lemma TaskKeepsRequests(s: State, queue: seq<Req>, parts: seq<Req>, active: Option<ChanId>, push: Push, crash: Crash)
    requires RequestsOnce(queue, s.sent, s.nextReq) && RequestsOnce(s.queue, s.sent, s.nextReq)
    requires Distinct(parts) && Ids(parts) <= Ids(queue)
    requires active.Some? ==> IsActiveChannel(s, active.value)
    requires push.Pushed? ==> push.cid !in s.sent
    ensures var s' := Task(s, parts, active, push, crash); RequestsOnce(s'.queue, s'.sent, s'.nextReq)
  {
    FewerQueued(s.queue, [], s.sent, s.nextReq);
    if push.Pushed? {
      QueuedSent(queue, s.sent, s.nextReq, parts, push.cid);
    }
  }

  lemma ProcessKeepsRequests(s: State, late: set<ReqId>, active: Option<ChanId>, push: Push, crash: Crash)
    requires RequestsOnce(s.queue, s.sent, s.nextReq) && Enabled(s, ProcessQueue(late, active, push, crash))
    ensures var s' := Process(s, late, active, push, crash); RequestsOnce(s'.queue, s'.sent, s'.nextReq)
  {
    MergedFromQueue(s.queue, late);
    var filtered := Cancelled(Active(s.queue), late);
    FewerQueued(s.queue, filtered, s.sent, s.nextReq);
    TaskKeepsRequests(s.(queue := filtered), s.queue, Merged(s, late), active, push, crash);
  }

  lemma StepKeepsRequests(s: State, e: Event)
    requires RequestsOnce(s.queue, s.sent, s.nextReq) && Enabled(s, e)
    ensures RequestsOnce(Next(s, e).queue, Next(s, e).sent, Next(s, e).nextReq)
  {
    match e {
      case Enqueue(amt) => EnqueueKeepsRequests(s.queue, s.sent, s.nextReq, amt);
      case Cancel(ids) =>
        CancelKeepsIds(s.queue, ids);
        FewerQueued(s.queue, Cancelled(s.queue, ids), s.sent, s.nextReq);
      case ProcessQueue(late, active, push, crash) => ProcessKeepsRequests(s, late, active, push, crash);
      case WaitReturns(w, outcome) =>
      case WaitCompletes(w) =>
      case Settle(ch) =>
      case CrashAndRestart => FewerQueued(s.queue, [], s.sent, s.nextReq);
    }
  }

  lemma EnqueueKeepsRequests(queue: seq<Req>, sent: Sent, nextReq: ReqId, amt: int)
    requires RequestsOnce(queue, sent, nextReq)
    ensures RequestsOnce(queue + [Req(nextReq, amt, true)], sent, nextReq + 1)
  {
    var r := Req(nextReq, amt, true);
    AppendDistinct(queue, r);
    assert Ids(queue + [r]) == Ids(queue) + {nextReq};
  }

  // ---------- waiting ----------

  lemma WaitErrorKeepsBooks(s: State, w: Waiter)
    requires Books(s) && w in s.waiters
    ensures Books(Back(s, w, true))
  {}

  /** The record of a channel once the message `w` waits for is settled one way
      or the other. */
  predicate Closes(cs: Channels, w: Waiter, ci: ChannelInfo) {
    && w.chan in cs && Pending(cs[w.chan]) == Some(w.cid)
    && Pending(ci).None? && RecordShape(ci) && ci.address.Some? && ci.settling == cs[w.chan].settling
  }

  lemma ConfirmAddsUp(sent: Sent, fate: Fates, cid: Cid, ch: ChanId, k: ChanId)
    requires cid in sent && cid in fate && fate[cid].Outstanding?
    ensures Sum(ConfirmedOn(sent, fate[cid := Confirmed(ch)], k)) ==
            Sum(ConfirmedOn(sent, fate, k)) + (if k == ch then Amount(sent[cid]) else 0)
  {
    if k == ch {
      SumUpdate(ConfirmedOn(sent, fate, k), cid, Amount(sent[cid]));
      assert ConfirmedOn(sent, fate[cid := Confirmed(ch)], k) == ConfirmedOn(sent, fate, k)[cid := Amount(sent[cid])];
    } else {
      assert ConfirmedOn(sent, fate[cid := Confirmed(ch)], k) == ConfirmedOn(sent, fate, k);
    }
  }

  lemma CreditAmounts(cs: Channels, sent: Sent, fate: Fates, w: Waiter, ci: ChannelInfo)
    requires AmountsConfirmed(cs, sent, fate) && Closes(cs, w, ci)
    requires w.cid in sent && w.cid in fate && fate[w.cid].Outstanding?
    requires ci.amount == cs[w.chan].amount + Amount(sent[w.cid])
    ensures AmountsConfirmed(cs[w.chan := ci], sent, fate[w.cid := Confirmed(w.chan)])
  {
    var cs', fate' := cs[w.chan := ci], fate[w.cid := Confirmed(w.chan)];
    forall k | k in cs' ensures cs'[k].amount == Sum(ConfirmedOn(sent, fate', k)) {
      ConfirmAddsUp(sent, fate, w.cid, w.chan, k);
    }
  }

  /** The message is credited with its own amount, on its own channel. */
  lemma CreditKeepsBooks(s: State, w: Waiter, ci: ChannelInfo)
    requires Books(s) && w in s.waiters && w.phase.Waiting? && Closes(s.channels, w, ci)
    requires ci.amount == s.channels[w.chan].amount + Amount(s.sent[w.cid])
    ensures Books(Credit(s, w, ci))
  {
    CreditAmounts(s.channels, s.sent, s.fate, w, ci);
    CloseKeepsTracking(s, w, ci, Confirmed(w.chan), false);
  }

  lemma FailKeepsAmounts(cs: Channels, sent: Sent, fate: Fates, cid: Cid)
    requires AmountsConfirmed(cs, sent, fate) && cid in fate && fate[cid].Outstanding?
    ensures AmountsConfirmed(cs, sent, fate[cid := Failed])
  {
    forall k ensures ConfirmedOn(sent, fate[cid := Failed], k) == ConfirmedOn(sent, fate, k) {}
  }

  lemma FailedAddKeepsBooks(s: State, w: Waiter, ci: ChannelInfo)
    requires Books(s) && w in s.waiters && w.phase.Waiting? && Closes(s.channels, w, ci)
    requires ci.amount == s.channels[w.chan].amount
    ensures Books(Back(Mutate(s, w.chan, ci).(fate := s.fate[w.cid := Failed]), w, true))
  {
    FailKeepsAmounts(s.channels, s.sent, s.fate, w.cid);
    SameAmount(s.channels, s.sent, s.fate[w.cid := Failed], w.chan, ci);
    CloseKeepsTracking(s, w, ci, Failed, true);
  }

  lemma ClosePending(cs: Channels, sent: Sent, fate: Fates, w: Waiter, ci: ChannelInfo, f: Fate)
    requires PendingTracked(cs, sent, fate) && Closes(cs, w, ci) && !f.Outstanding?
    ensures PendingTracked(cs[w.chan := ci], sent, fate[w.cid := f])
  {}

  lemma CloseWaiters(cs: Channels, msgs: map<Cid, MsgInfo>, sent: Sent, waiters: set<Waiter>, w: Waiter, ci: ChannelInfo, err: bool)
    requires WaitersSound(cs, msgs, sent, waiters) && w in waiters && w.phase.Waiting? && Closes(cs, w, ci)
    ensures WaitersSound(cs[w.chan := ci], msgs, sent, waiters - {w} + {w.(phase := Returned(err))})
  {}

  lemma CloseMessages(cs: Channels, msgs: map<Cid, MsgInfo>, sent: Sent, fate: Fates, w: Waiter, ci: ChannelInfo, f: Fate)
    requires MessagesSound(cs, msgs, sent, fate) && Closes(cs, w, ci) && !f.Outstanding?
    ensures MessagesSound(cs[w.chan := ci], msgs, sent, fate[w.cid := f])
  {}

  lemma CloseKeepsTracking(s: State, w: Waiter, ci: ChannelInfo, fate: Fate, err: bool)
    requires Books(s) && w in s.waiters && w.phase.Waiting? && Closes(s.channels, w, ci) && !fate.Outstanding?
    ensures var s' := Back(s.(channels := s.channels[w.chan := ci], fate := s.fate[w.cid := fate]), w, err);
            && OneActive(s'.channels) && RecordsShaped(s'.channels)
            && PendingTracked(s'.channels, s'.sent, s'.fate)
            && WaitersSound(s'.channels, s'.msgs, s'.sent, s'.waiters)
            && MessagesSound(s'.channels, s'.msgs, s'.sent, s'.fate)
  {
    ClosePending(s.channels, s.sent, s.fate, w, ci, fate);
    CloseWaiters(s.channels, s.msgs, s.sent, s.waiters, w, ci, err);
    CloseMessages(s.channels, s.msgs, s.sent, s.fate, w, ci, fate);
  }

  /** A failed create message takes its channel record with it. */
  lemma FailedCreateKeepsBooks(s: State, w: Waiter)
    requires Books(s) && w in s.waiters && w.phase.Waiting? && w.kind == CreateWait
    ensures Books(Back(s.(channels := s.channels - {w.chan}, fate := s.fate[w.cid := Failed]), w, true))
  {
    assert WaiterSound(s.channels, s.msgs, s.sent, w);
    var cs := s.channels - {w.chan};
    FailKeepsAmounts(s.channels, s.sent, s.fate, w.cid);
    RemoveKeepsAmounts(s.channels, s.sent, s.fate[w.cid := Failed], w.chan);
    RemovePending(s.channels, s.sent, s.fate, w);
    RemoveWaiters(s.channels, s.msgs, s.sent, s.waiters, w);
    RemoveMessages(s.channels, s.msgs, s.sent, s.fate, w);
    assert OneActive(cs) && RecordsShaped(cs);
  }

  lemma RemoveKeepsAmounts(cs: Channels, sent: Sent, fate: Fates, ch: ChanId)
    requires AmountsConfirmed(cs, sent, fate) && ch in cs && cs[ch].address.None?
    ensures AmountsConfirmed(cs - {ch}, sent, fate)
  {}

  lemma RemovePending(cs: Channels, sent: Sent, fate: Fates, w: Waiter)
    requires PendingTracked(cs, sent, fate) && w.chan in cs && Pending(cs[w.chan]) == Some(w.cid)
    ensures PendingTracked(cs - {w.chan}, sent, fate[w.cid := Failed])
  {}

  lemma RemoveWaiters(cs: Channels, msgs: map<Cid, MsgInfo>, sent: Sent, waiters: set<Waiter>, w: Waiter)
    requires WaitersSound(cs, msgs, sent, waiters) && w in waiters && w.phase.Waiting?
    requires w.chan in cs && cs[w.chan].address.None?
    ensures WaitersSound(cs - {w.chan}, msgs, sent, waiters - {w} + {w.(phase := Returned(true))})
  {}

  lemma RemoveMessages(cs: Channels, msgs: map<Cid, MsgInfo>, sent: Sent, fate: Fates, w: Waiter)
    requires MessagesSound(cs, msgs, sent, fate) && w.chan in cs && cs[w.chan].address.None?
    ensures MessagesSound(cs - {w.chan}, msgs, sent, fate[w.cid := Failed])
  {}

  lemma CreateWaitKeepsBooks(s: State, w: Waiter, outcome: Outcome)
    requires Books(s) && w in s.waiters && w.phase.Waiting? && w.kind == CreateWait
    requires outcome.ExitFailed? || outcome.Succeeded?
    ensures Books(AfterWait(s, w, outcome))
  {
    assert WaiterSound(s.channels, s.msgs, s.sent, w);
    if outcome.ExitFailed? {
      FailedCreateKeepsBooks(s, w);
    } else {
      var ci := s.channels[w.chan];
      NothingConfirmedBeforeCreate(s, w.chan);
      CreditKeepsBooks(s, w, ci.(address := Some(outcome.address), amount := ci.pending, pending := 0, createMsg := None));
    }
  }

  lemma AddFundsFails(s: State, w: Waiter)
    requires Books(s) && w in s.waiters && w.phase.Waiting? && w.kind == AddFundsWait
    ensures Books(AfterWait(s, w, ExitFailed))
  {
    assert WaiterSound(s.channels, s.msgs, s.sent, w);
    var done := s.channels[w.chan].(pending := 0, addFundsMsg := None);
    AddFundsCloses(s.channels, w, done);
    FailedAddKeepsBooks(s, w, done);
  }

  lemma AddFundsSucceeds(s: State, w: Waiter, a: Address)
    requires Books(s) && w in s.waiters && w.phase.Waiting? && w.kind == AddFundsWait
    ensures Books(AfterWait(s, w, Succeeded(a)))
  {
    assert WaiterSound(s.channels, s.msgs, s.sent, w);
    var done := Topped(s.channels[w.chan]);
    AddFundsCloses(s.channels, w, done);
    PendingAmount(s.channels, s.sent, s.fate, w);
    CreditKeepsBooks(s, w, done);
    AfterAddFunds(s, w, a);
  }

  lemma AfterAddFunds(s: State, w: Waiter, a: Address)
    requires w.kind == AddFundsWait && w.chan in s.channels
    ensures AfterWait(s, w, Succeeded(a)) == Credit(s, w, Topped(s.channels[w.chan]))
  {}

  lemma PendingAmount(cs: Channels, sent: Sent, fate: Fates, w: Waiter)
    requires PendingTracked(cs, sent, fate) && w.chan in cs && Pending(cs[w.chan]) == Some(w.cid)
    ensures w.cid in sent && cs[w.chan].pending == Amount(sent[w.cid])
  {}

  lemma AddFundsCloses(cs: Channels, w: Waiter, ci: ChannelInfo)
    requires w.chan in cs && RecordShape(cs[w.chan]) && cs[w.chan].createMsg.None? && Pending(cs[w.chan]) == Some(w.cid)
    requires ci == cs[w.chan].(amount := ci.amount, pending := 0, addFundsMsg := None)
    ensures Closes(cs, w, ci)
  {}

  lemma WaitKeepsBooks(s: State, w: Waiter, outcome: Outcome)
    requires Books(s) && Enabled(s, WaitReturns(w, outcome))
    ensures Books(AfterWait(s, w, outcome))
  {
    if outcome.WaitError? || outcome.Undecodable? {
      WaitErrorKeepsBooks(s, w);
    } else if w.kind == CreateWait {
      CreateWaitKeepsBooks(s, w, outcome);
    } else {
      if outcome.ExitFailed? { AddFundsFails(s, w); } else { AddFundsSucceeds(s, w, outcome.address); }
    }
  }

  /** Overwriting `amount` on creation loses nothing. */
  lemma NothingConfirmedBeforeCreate(s: State, ch: ChanId)
    requires Books(s) && ch in s.channels && s.channels[ch].address.None?
    ensures s.channels[ch].amount == 0
  {}

  lemma CompleteKeepsBooks(s: State, w: Waiter)
    requires Books(s) && w in s.waiters && w.phase.Returned?
    ensures Books(Complete(s, w))
  {}

  lemma SettleKeepsTracking(cs: Channels, msgs: map<Cid, MsgInfo>, sent: Sent, fate: Fates, waiters: set<Waiter>, ch: ChanId)
    requires ch in cs && PendingTracked(cs, sent, fate) && AmountsConfirmed(cs, sent, fate)
    requires WaitersSound(cs, msgs, sent, waiters) && MessagesSound(cs, msgs, sent, fate)
    ensures var cs' := cs[ch := cs[ch].(settling := true)];
            && PendingTracked(cs', sent, fate) && AmountsConfirmed(cs', sent, fate)
            && WaitersSound(cs', msgs, sent, waiters) && MessagesSound(cs', msgs, sent, fate)
  {
    var cs' := cs[ch := cs[ch].(settling := true)];
    forall w | w in waiters ensures WaiterSound(cs', msgs, sent, w) {
      assert WaiterSound(cs, msgs, sent, w);
    }
  }

  lemma SettleKeepsBooks(s: State, ch: ChanId)
    requires Books(s) && Enabled(s, Settle(ch))
    ensures Books(Next(s, Settle(ch)))
  {
    SettleKeepsTracking(s.channels, s.msgs, s.sent, s.fate, s.waiters, ch);
  }

  lemma StepKeepsInv(s: State, e: Event)
    requires Inv(s) && Enabled(s, e)
    ensures Inv(Next(s, e))
  {
    StepKeepsRequests(s, e);
    match e {
      case Enqueue(_) =>
      case Cancel(_) =>
      case ProcessQueue(late, active, push, crash) =>
        TaskKeepsBooks(s.(queue := Cancelled(Active(s.queue), late)), Merged(s, late), active, push, crash);
      case WaitReturns(w, outcome) => WaitKeepsBooks(s, w, outcome);
      case WaitCompletes(w) => CompleteKeepsBooks(s, w);
      case Settle(ch) => SettleKeepsBooks(s, ch);
      case CrashAndRestart => RestartKeepsBooks(s);
    }
  }

  /** Over every run, with crashes anywhere: at most one channel is open for
      funds, each channel has at most one message under way, `pending` is its
      amount and `amount` the sum of the confirmed ones, and no request is
      covered by two messages. */
  lemma {:induction false} RunInvariant(run: Run)
    requires IsRun(run)
    ensures Inv(Final(run))
  {
    if run.Then? {
      RunInvariant(run.before);
      StepKeepsInv(Final(run.before), run.event);
    }
  }
}
