/** Vouchers of one flow channel: creating, adding, submitting, allocating lanes,
    and what the chain does meanwhile. */
module FlowVouchers {
  import opened Lanes

  datatype VoucherInfo = VoucherInfo(voucher: Voucher, submitted: bool)

  /** The stored channel record together with the channel actor on chain. */
  datatype Channel = Channel(
    addr: nat,
    lanes: LaneMap,
    received: int,
    vouchers: seq<VoucherInfo>,
    nextLane: nat)

  datatype Error =
    | WrongChannel | BadSignature | StoredMerges | NonceTooLow | AmountTooLow | MergesUnsupported
    | Insufficient(shortfall: int)
    | DeltaTooLow | AlreadySubmitted

  datatype Result<+T> = Ok(value: T) | Err(error: Error)

  function Stored(infos: seq<VoucherInfo>): (r: seq<Voucher>)
    ensures |r| == |infos|
  {
    seq(|infos|, i requires 0 <= i < |infos| => infos[i].voucher)
  }

  predicate HasMerges(infos: seq<VoucherInfo>) {
    exists i | 0 <= i < |infos| :: infos[i].voucher.merges != 0
  }

  predicate HasVoucher(infos: seq<VoucherInfo>, sv: Voucher) {
    exists i | 0 <= i < |infos| :: infos[i].voucher == sv
  }

  function CurrentLanes(c: Channel): LaneMap {
    Overlay(c.lanes, Stored(c.vouchers))
  }

  // ---------- checking ----------

  /** `checkVoucherValidUnlocked`; `sigOk` is the outcome of the signature check. */
  ghost function Check(c: Channel, sv: Voucher, sigOk: bool): Result<LaneMap> {
    if sv.channel != c.addr then Err(WrongChannel)
    else if !sigOk then Err(BadSignature)
    else if HasMerges(c.vouchers) then Err(StoredMerges)
    else
      var ls := CurrentLanes(c);
      if sv.lane in ls && sv.nonce <= ls[sv.lane].nonce then Err(NonceTooLow)
      else if sv.lane in ls && sv.amount <= ls[sv.lane].redeemed then Err(AmountTooLow)
      else if sv.merges != 0 then Err(MergesUnsupported)
      else if c.received < TotalWith(ls, sv) then Err(Insufficient(TotalWith(ls, sv) - c.received))
      else Ok(ls)
  }

  // ---------- adding and creating ----------

  function DeltaOn(ls: LaneMap, sv: Voucher): int {
    sv.amount - if sv.lane in ls then ls[sv.lane].redeemed else 0
  }

  function Append(c: Channel, sv: Voucher): Channel {
    c.(vouchers := c.vouchers + [VoucherInfo(sv, false)],
       nextLane := if c.nextLane <= sv.lane then sv.lane + 1 else c.nextLane)
  }

  /** `addVoucherUnlocked`: the channel afterwards and the delta or the error. */
  ghost function AddVoucher(c: Channel, sv: Voucher, minDelta: int, sigOk: bool): (Channel, Result<int>) {
    if HasVoucher(c.vouchers, sv) then (c, Ok(0))
    else
      var check := Check(c, sv, sigOk);
      if check.Err? then (c, Err(check.error))
      else
        var delta := DeltaOn(check.value, sv);
        if minDelta > delta then (c, Err(DeltaTooLow))
        else (Append(c, sv), Ok(delta))
  }

  /** `nextNonceForLane` looks at the stored vouchers only. */
  function NextNonce(infos: seq<VoucherInfo>, lane: nat): (n: nat)
    ensures forall i | 0 <= i < |infos| && infos[i].voucher.lane == lane :: infos[i].voucher.nonce < n
    ensures n == 1 || exists i | 0 <= i < |infos| :: infos[i].voucher.lane == lane && infos[i].voucher.nonce + 1 == n
  {
    if infos == [] then 1
    else
      var n := NextNonce(infos[..|infos| - 1], lane);
      var v := infos[|infos| - 1].voucher;
      assert forall i | 0 <= i < |infos| - 1 :: infos[i] == infos[..|infos| - 1][i];
      if v.lane == lane && v.nonce + 1 > n then v.nonce + 1 else n
  }

  datatype Created = Created(voucher: Voucher) | Shortfall(amount: int) | Failed(error: Error)

  function Drafted(c: Channel, draft: Voucher, signed: nat): Voucher {
    draft.(channel := c.addr, nonce := NextNonce(c.vouchers, draft.lane), signed := signed)
  }

  /** `createVoucher`: `signed` and `sigOk` are what the wallet and the signature
      check return. */
  ghost function CreateVoucher(c: Channel, draft: Voucher, signed: nat, sigOk: bool): (Channel, Created) {
    var sv := Drafted(c, draft, signed);
    var (c', r) := AddVoucher(c, sv, 0, sigOk);
    (c', match r
         case Ok(_) => Created(sv)
         case Err(Insufficient(s)) => Shortfall(s)
         case Err(e) => Failed(e))
  }

  // ---------- submitting, lanes ----------

  function Find(infos: seq<VoucherInfo>, sv: Voucher): (k: nat)
    ensures k <= |infos|
    ensures k < |infos| <==> HasVoucher(infos, sv)
    ensures k < |infos| ==> infos[k].voucher == sv
  {
    if infos == [] then 0
    else if infos[0].voucher == sv then 0
    else
      assert forall i | 0 < i < |infos| :: infos[i] == infos[1..][i - 1];
      1 + Find(infos[1..], sv)
  }

  /** `markVoucherSubmitted`: the voucher and every lower nonce on its lane. */
  function MarkSubmitted(infos: seq<VoucherInfo>, sv: Voucher): (r: seq<VoucherInfo>)
    ensures |r| == |infos|
  {
    var k := Find(infos, sv);
    seq(|infos|, i requires 0 <= i < |infos| =>
      if i == k || (infos[i].voucher.lane == sv.lane && infos[i].voucher.nonce < sv.nonce)
      then infos[i].(submitted := true) else infos[i])
  }

  /** `submitVoucher`. A voucher that is not stored yet is appended unchecked. */
  function SubmitVoucher(c: Channel, sv: Voucher): (Channel, Result<()>) {
    var k := Find(c.vouchers, sv);
    if k < |c.vouchers| && c.vouchers[k].submitted then (c, Err(AlreadySubmitted))
    else
      var infos := if k < |c.vouchers| then c.vouchers else c.vouchers + [VoucherInfo(sv, false)];
      (c.(vouchers := MarkSubmitted(infos, sv)), Ok(()))
  }

  function AllocateLane(c: Channel): (Channel, nat) {
    (c.(nextLane := c.nextLane + 1), c.nextLane)
  }

  // ---------- runs ----------

  datatype Event =
    | Create(draft: Voucher, signed: nat, sigOk: bool)
    | Add(sv: Voucher, minDelta: int, sigOk: bool)
    | Submit(sv: Voucher)
    | Allocate
    | Redeem(at: nat)
    | Deposit(amount: nat)

  /** Vouchers are submitted only once stored; the chain redeems a stored voucher
      whose nonce is above that of its lane. */
  predicate Enabled(c: Channel, e: Event) {
    match e
    case Submit(sv) => HasVoucher(c.vouchers, sv)
    case Redeem(k) =>
      && k < |c.vouchers|
      && var v := c.vouchers[k].voucher; (v.lane in c.lanes ==> c.lanes[v.lane].nonce < v.nonce)
    case _ => true
  }

  ghost function Next(c: Channel, e: Event): Channel
    requires Enabled(c, e)
  {
    match e
    case Create(draft, signed, sigOk) => CreateVoucher(c, draft, signed, sigOk).0
    case Add(sv, minDelta, sigOk) => AddVoucher(c, sv, minDelta, sigOk).0
    case Submit(sv) => SubmitVoucher(c, sv).0
    case Allocate => AllocateLane(c).0
    case Redeem(k) =>
      var v := c.vouchers[k].voucher;
      c.(lanes := c.lanes[v.lane := LaneState(v.amount, v.nonce)])
    case Deposit(amount) => c.(received := c.received + amount)
  }

  /** A run: a channel to start from, or a run followed by one more event. */
  datatype Run = Start(channel: Channel) | Then(before: Run, event: Event, after: Channel)

  function First(run: Run): Channel {
    if run.Start? then run.channel else First(run.before)
  }

  function Final(run: Run): Channel {
    if run.Start? then run.channel else run.after
  }

  ghost predicate IsRun(run: Run) {
    run.Then? ==>
      IsRun(run.before) && Enabled(Final(run.before), run.event) && run.after == Next(Final(run.before), run.event)
  }

  /** The chain has not gone past the vouchers stored for a lane. */
  predicate ChainNotAhead(lanes: LaneMap, vs: seq<Voucher>) {
    forall lane | lane in lanes && LastOn(vs, lane).Some? :: lanes[lane].nonce <= vs[LastOn(vs, lane).value].nonce
  }

  /** Submission is downward closed by nonce on each lane. */
  predicate SubmittedBelow(infos: seq<VoucherInfo>) {
    forall i, j | 0 <= i < |infos| && 0 <= j < |infos| ::
      (infos[i].voucher.lane == infos[j].voucher.lane && infos[i].voucher.nonce < infos[j].voucher.nonce &&
       infos[j].submitted) ==> infos[i].submitted
  }

  ghost predicate Inv(c: Channel) {
    && !HasMerges(c.vouchers)
    && Increasing(Stored(c.vouchers))
    && ChainNotAhead(c.lanes, Stored(c.vouchers))
    && Total(CurrentLanes(c)) <= c.received
    && SubmittedBelow(c.vouchers)
    && (forall i | 0 <= i < |c.vouchers| :: c.vouchers[i].voucher.lane < c.nextLane)
  }

  // ---------- steps keep the invariant ----------

  /** With the chain not ahead, the overlay dominates every stored voucher. */
  lemma OverlayDominates(c: Channel, vs: seq<Voucher>, i: nat)
    requires vs == Stored(c.vouchers) && Increasing(vs) && ChainNotAhead(c.lanes, vs) && i < |vs|
    ensures var ls := CurrentLanes(c);
            vs[i].lane in ls && vs[i].nonce <= ls[vs[i].lane].nonce && vs[i].amount <= ls[vs[i].lane].redeemed
  {
    OverlayPerLane(c.lanes, vs, vs[i].lane);
    assert i <= LastOn(vs, vs[i].lane).value;
  }

  lemma StoredAppend(c: Channel, sv: Voucher)
    ensures Stored(Append(c, sv).vouchers) == Stored(c.vouchers) + [sv]
  {}

  /** An accepted voucher is above every voucher stored on its lane. */
  lemma AcceptedIsAbove(c: Channel, sv: Voucher, sigOk: bool)
    requires Inv(c) && Check(c, sv, sigOk).Ok?
    ensures forall i | 0 <= i < |c.vouchers| && c.vouchers[i].voucher.lane == sv.lane ::
              c.vouchers[i].voucher.nonce < sv.nonce && c.vouchers[i].voucher.amount < sv.amount
  {
    var vs := Stored(c.vouchers);
    forall i | 0 <= i < |vs| && vs[i].lane == sv.lane ensures vs[i].nonce < sv.nonce && vs[i].amount < sv.amount {
      OverlayDominates(c, vs, i);
    }
    assert forall i | 0 <= i < |vs| :: vs[i] == c.vouchers[i].voucher;
  }

  lemma NotAheadAppend(lanes: LaneMap, vs: seq<Voucher>, sv: Voucher)
    requires Increasing(vs) && ChainNotAhead(lanes, vs)
    requires sv.lane in Overlay(lanes, vs) ==> Overlay(lanes, vs)[sv.lane].nonce < sv.nonce
    ensures ChainNotAhead(lanes, vs + [sv])
  {
    var out := vs + [sv];
    assert out[..|vs|] == vs;
    OverlayPerLane(lanes, vs, sv.lane);
  }

  lemma IncreasingAppend(vs: seq<Voucher>, sv: Voucher)
    requires Increasing(vs)
    requires forall i | 0 <= i < |vs| && vs[i].lane == sv.lane :: vs[i].nonce < sv.nonce && vs[i].amount < sv.amount
    ensures Increasing(vs + [sv])
  {}

  lemma SubmittedAppend(infos: seq<VoucherInfo>, sv: Voucher)
    requires SubmittedBelow(infos)
    requires forall i | 0 <= i < |infos| && infos[i].voucher.lane == sv.lane :: infos[i].voucher.nonce < sv.nonce
    ensures SubmittedBelow(infos + [VoucherInfo(sv, false)])
  {}

  /** An accepted voucher keeps the stored ones in order. */
  lemma AcceptedKeepsOrder(c: Channel, sv: Voucher, sigOk: bool)
    requires Inv(c) && Check(c, sv, sigOk).Ok?
    ensures Increasing(Stored(c.vouchers) + [sv]) && ChainNotAhead(c.lanes, Stored(c.vouchers) + [sv])
  {
    var vs := Stored(c.vouchers);
    AcceptedIsAbove(c, sv, sigOk);
    assert forall i | 0 <= i < |vs| :: vs[i] == c.vouchers[i].voucher;
    IncreasingAppend(vs, sv);
    NotAheadAppend(c.lanes, vs, sv);
  }

  /** An accepted voucher raises the total over all lanes by the returned delta,
      and the total recomputed from the store is the incremental one. */
  lemma AcceptedTotal(c: Channel, sv: Voucher, sigOk: bool)
    requires Inv(c) && Check(c, sv, sigOk).Ok?
    ensures Total(CurrentLanes(Append(c, sv))) == Total(CurrentLanes(c)) + DeltaOn(CurrentLanes(c), sv)
    ensures Total(CurrentLanes(Append(c, sv))) == TotalWith(CurrentLanes(c), sv)
  {
    StoredAppend(c, sv);
    IncrementalTotal(c.lanes, Stored(c.vouchers), sv);
  }

  lemma AcceptedAdd(c: Channel, sv: Voucher, sigOk: bool)
    requires Inv(c) && Check(c, sv, sigOk).Ok?
    ensures Inv(Append(c, sv))
    ensures Total(CurrentLanes(Append(c, sv))) == Total(CurrentLanes(c)) + DeltaOn(CurrentLanes(c), sv)
  {
    StoredAppend(c, sv);
    AcceptedKeepsOrder(c, sv, sigOk);
    AcceptedTotal(c, sv, sigOk);
    AcceptedIsAbove(c, sv, sigOk);
    SubmittedAppend(c.vouchers, sv);
    assert !HasMerges(Append(c, sv).vouchers);
  }

  /** Whatever the outcome of an add, the invariant holds and the total over all
      lanes goes up by exactly the delta returned. */
  lemma AddStep(c: Channel, sv: Voucher, minDelta: int, sigOk: bool)
    requires Inv(c)
    ensures var (c', r) := AddVoucher(c, sv, minDelta, sigOk);
            && Inv(c')
            && Total(CurrentLanes(c')) == Total(CurrentLanes(c)) + (if r.Ok? then r.value else 0)
            && (r.Err? ==> c' == c)
  {
    if Check(c, sv, sigOk).Ok? {
      AcceptedAdd(c, sv, sigOk);
    }
  }

  lemma MarkingKeepsOrder(infos: seq<VoucherInfo>, sv: Voucher)
    requires SubmittedBelow(infos) && Increasing(Stored(infos)) && HasVoucher(infos, sv)
    ensures SubmittedBelow(MarkSubmitted(infos, sv))
    ensures Stored(MarkSubmitted(infos, sv)) == Stored(infos)
  {
    var out, k := MarkSubmitted(infos, sv), Find(infos, sv);
    forall i, j | 0 <= i < |out| && 0 <= j < |out| && out[i].voucher.lane == out[j].voucher.lane
                  && out[i].voucher.nonce < out[j].voucher.nonce && out[j].submitted
      ensures out[i].submitted
    {
      if !infos[j].submitted {
        assert infos[j].voucher.nonce <= sv.nonce;
      }
    }
  }

  lemma MarkedKeepsInv(c: Channel, infos: seq<VoucherInfo>)
    requires Inv(c) && Stored(infos) == Stored(c.vouchers) && SubmittedBelow(infos)
    ensures Inv(c.(vouchers := infos))
  {
    assert forall i | 0 <= i < |infos| :: infos[i].voucher == Stored(infos)[i] == c.vouchers[i].voucher;
  }

  lemma SubmitStep(c: Channel, sv: Voucher)
    requires Inv(c) && HasVoucher(c.vouchers, sv)
    ensures Inv(SubmitVoucher(c, sv).0)
    ensures CurrentLanes(SubmitVoucher(c, sv).0) == CurrentLanes(c)
  {
    MarkingKeepsOrder(c.vouchers, sv);
    MarkedKeepsInv(c, MarkSubmitted(c.vouchers, sv));
  }

  lemma RedeemStep(c: Channel, k: nat)
    requires Inv(c) && Enabled(c, Redeem(k))
    ensures Inv(Next(c, Redeem(k)))
    ensures CurrentLanes(Next(c, Redeem(k))) == CurrentLanes(c)
  {
    var vs := Stored(c.vouchers);
    RedeemKeepsOverlay(c.lanes, vs, k);
    var last := LastOn(vs, vs[k].lane).value;
    assert k <= last && vs[k].nonce <= vs[last].nonce;
  }

  lemma StepKeepsInv(c: Channel, e: Event)
    requires Inv(c) && Enabled(c, e)
    ensures Inv(Next(c, e))
    ensures c.nextLane <= Next(c, e).nextLane
  {
    match e {
      case Create(draft, signed, sigOk) => AddStep(c, Drafted(c, draft, signed), 0, sigOk);
      case Add(sv, minDelta, sigOk) => AddStep(c, sv, minDelta, sigOk);
      case Submit(sv) => SubmitStep(c, sv);
      case Allocate =>
      case Redeem(k) => RedeemStep(c, k);
      case Deposit(_) =>
    }
  }

  /** Over every run that starts that way, what the lanes can claim never exceeds
      what the channel has received, stored vouchers of a lane keep increasing,
      and submission stays downward closed. */
  lemma {:induction false} RunInvariant(run: Run)
    requires IsRun(run) && Inv(First(run))
    ensures Inv(Final(run)) && First(run).nextLane <= Final(run).nextLane
  {
    if run.Then? {
      RunInvariant(run.before);
      StepKeepsInv(Final(run.before), run.event);
    }
  }

  /** A lane handed out is not used by any stored voucher and never handed out
      again, however the run goes on. */
  lemma AllocatedLaneFresh(c: Channel, run: Run)
    requires Inv(c) && IsRun(run) && First(run) == AllocateLane(c).0
    ensures forall i | 0 <= i < |c.vouchers| :: c.vouchers[i].voucher.lane != AllocateLane(c).1
    ensures AllocateLane(Final(run)).1 != AllocateLane(c).1
  {
    StepKeepsInv(c, Allocate);
    RunInvariant(run);
  }

  // ---------- shortfall ----------

  /** A shortfall is the least deposit with which the same call succeeds; any
      smaller deposit leaves exactly the rest of it missing. */
  lemma ShortfallIsLeast(c: Channel, draft: Voucher, signed: nat, sigOk: bool, deposit: nat)
    requires CreateVoucher(c, draft, signed, sigOk).1.Shortfall?
    requires Inv(c)
    ensures var short := CreateVoucher(c, draft, signed, sigOk).1.amount;
            var r := CreateVoucher(c.(received := c.received + deposit), draft, signed, sigOk).1;
            && short > 0
            && (r.Created? <==> deposit >= short)
            && (deposit < short ==> r == Shortfall(short - deposit))
  {}
}
