/** Exactly which vouchers are accepted and what becomes of them, stated over the stored
    vouchers, the chain's lanes and the events. */
module VoucherRules {
  import opened Lanes
  import opened FlowVouchers

  predicate StoredOn(infos: seq<VoucherInfo>, lane: nat) {
    exists i | 0 <= i < |infos| :: infos[i].voucher.lane == lane
  }

  /** The nonce is above that of every stored voucher of the lane or, with none stored,
      above that of the lane on chain. */
  predicate NonceAbove(c: Channel, sv: Voucher) {
    && (forall i | 0 <= i < |c.vouchers| && c.vouchers[i].voucher.lane == sv.lane :: c.vouchers[i].voucher.nonce < sv.nonce)
    && (!StoredOn(c.vouchers, sv.lane) && sv.lane in c.lanes ==> c.lanes[sv.lane].nonce < sv.nonce)
  }

  predicate AmountAbove(c: Channel, sv: Voucher) {
    && (forall i | 0 <= i < |c.vouchers| && c.vouchers[i].voucher.lane == sv.lane :: c.vouchers[i].voucher.amount < sv.amount)
    && (!StoredOn(c.vouchers, sv.lane) && sv.lane in c.lanes ==> c.lanes[sv.lane].redeemed < sv.amount)
  }

  /** What all lanes can claim with the vouchers `vs`. */
  ghost function Claims(c: Channel, vs: seq<Voucher>): int {
    Total(Overlay(c.lanes, vs))
  }

  ghost function Now(c: Channel): int {
    Claims(c, Stored(c.vouchers))
  }

  ghost function With(c: Channel, sv: Voucher): int {
    Claims(c, Stored(c.vouchers) + [sv])
  }

  /** What adding a voucher comes to. */
  ghost function Verdict(c: Channel, sv: Voucher, minDelta: int, sigOk: bool): Result<int> {
    if HasVoucher(c.vouchers, sv) then Ok(0)
    else if sv.channel != c.addr then Err(WrongChannel)
    else if !sigOk then Err(BadSignature)
    else if !NonceAbove(c, sv) then Err(NonceTooLow)
    else if !AmountAbove(c, sv) then Err(AmountTooLow)
    else if sv.merges != 0 then Err(MergesUnsupported)
    else if With(c, sv) > c.received then Err(Insufficient(With(c, sv) - c.received))
    else if With(c, sv) - Now(c) < minDelta then Err(DeltaTooLow)
    else Ok(With(c, sv) - Now(c))
  }

  /** The lane as the checks see it: its last stored voucher, else the chain's state. */
  lemma LaneSeen(c: Channel, lane: nat)
    requires Inv(c)
    ensures var ls, last := CurrentLanes(c), LastOn(Stored(c.vouchers), lane);
            && (last.Some? <==> StoredOn(c.vouchers, lane))
            && (last.Some? ==> last.value < |c.vouchers| && lane in ls
                               && ls[lane] == LaneState(c.vouchers[last.value].voucher.amount, c.vouchers[last.value].voucher.nonce))
            && (last.None? ==> (lane in ls <==> lane in c.lanes) && (lane in ls ==> ls[lane] == c.lanes[lane]))
  {
    var vs := Stored(c.vouchers);
    OverlayPerLane(c.lanes, vs, lane);
    assert forall i | 0 <= i < |vs| :: vs[i] == c.vouchers[i].voucher;
  }

  /** In order of storing, the last voucher of a lane has its greatest nonce and amount. */
  lemma LastIsGreatest(c: Channel, i: nat, last: nat)
    requires Inv(c) && i <= last < |c.vouchers| && c.vouchers[i].voucher.lane == c.vouchers[last].voucher.lane
    ensures c.vouchers[i].voucher.nonce <= c.vouchers[last].voucher.nonce
    ensures c.vouchers[i].voucher.amount <= c.vouchers[last].voucher.amount
  {
    var vs := Stored(c.vouchers);
    assert vs[i] == c.vouchers[i].voucher && vs[last] == c.vouchers[last].voucher;
  }

  lemma TestsMean(c: Channel, sv: Voucher)
    requires Inv(c)
    ensures var ls := CurrentLanes(c);
            && (NonceAbove(c, sv) <==> !(sv.lane in ls && sv.nonce <= ls[sv.lane].nonce))
            && (AmountAbove(c, sv) <==> !(sv.lane in ls && sv.amount <= ls[sv.lane].redeemed))
  {
    LaneSeen(c, sv.lane);
    var vs := Stored(c.vouchers);
    var last := LastOn(vs, sv.lane);
    forall i | 0 <= i < |c.vouchers| && c.vouchers[i].voucher.lane == sv.lane
      ensures last.Some? && c.vouchers[i].voucher.nonce <= c.vouchers[last.value].voucher.nonce
      ensures c.vouchers[i].voucher.amount <= c.vouchers[last.value].voucher.amount
    {
      assert vs[i] == c.vouchers[i].voucher;
      LastIsGreatest(c, i, last.value);
    }
  }

  lemma TotalsMean(c: Channel, sv: Voucher)
    requires Inv(c) && NonceAbove(c, sv)
    ensures TotalWith(CurrentLanes(c), sv) == With(c, sv)
    ensures DeltaOn(CurrentLanes(c), sv) == With(c, sv) - Now(c)
  {
    TestsMean(c, sv);
    IncrementalTotal(c.lanes, Stored(c.vouchers), sv);
  }

  /** Adding a voucher comes to exactly that, and an accepted one is appended and makes
      the next free lane higher than its own. */
  lemma AddMeans(c: Channel, sv: Voucher, minDelta: int, sigOk: bool)
    requires Inv(c)
    ensures var (c', r) := AddVoucher(c, sv, minDelta, sigOk);
            && r == Verdict(c, sv, minDelta, sigOk)
            && c' == if r.Ok? && !HasVoucher(c.vouchers, sv)
                     then c.(vouchers := c.vouchers + [VoucherInfo(sv, false)],
                             nextLane := if sv.lane >= c.nextLane then sv.lane + 1 else c.nextLane)
                     else c
  {
    TestsMean(c, sv);
    if NonceAbove(c, sv) {
      TotalsMean(c, sv);
    }
  }

  /** A voucher not stored yet is accepted if and only if it is for this channel, signed,
      without merges, above its lane in nonce and amount, within the balance together
      with all other lanes, and worth the least amount asked for. */
  lemma AcceptedIff(c: Channel, sv: Voucher, minDelta: int, sigOk: bool)
    requires Inv(c) && !HasVoucher(c.vouchers, sv)
    ensures AddVoucher(c, sv, minDelta, sigOk).1.Ok? <==>
              && sv.channel == c.addr && sigOk && sv.merges == 0
              && NonceAbove(c, sv) && AmountAbove(c, sv)
              && With(c, sv) <= c.received && minDelta <= With(c, sv) - Now(c)
  {
    AddMeans(c, sv, minDelta, sigOk);
  }

  // ---------- creating ----------

  /** The nonce a new voucher gets: one above the stored ones of its lane, from 1 on. */
  predicate IsNextNonce(infos: seq<VoucherInfo>, lane: nat, n: nat) {
    && n >= 1
    && (forall i | 0 <= i < |infos| && infos[i].voucher.lane == lane :: infos[i].voucher.nonce < n)
    && (n > 1 ==> exists i | 0 <= i < |infos| :: infos[i].voucher.lane == lane && infos[i].voucher.nonce == n - 1)
  }

  lemma {:induction false} NextNonceMeans(infos: seq<VoucherInfo>, lane: nat)
    ensures IsNextNonce(infos, lane, NextNonce(infos, lane))
  {
    if infos != [] {
      var front := infos[..|infos| - 1];
      NextNonceMeans(front, lane);
      assert forall i | 0 <= i < |front| :: front[i] == infos[i];
    }
  }

  lemma NotStoredYet(c: Channel, sv: Voucher)
    requires IsNextNonce(c.vouchers, sv.lane, sv.nonce)
    ensures !HasVoucher(c.vouchers, sv)
  {}

  /** The chain has no higher nonce on a lane for which nothing is stored. */
  predicate ChainBehind(c: Channel, lane: nat) {
    !StoredOn(c.vouchers, lane) && lane in c.lanes ==> c.lanes[lane].nonce < 1
  }

  lemma NextNonceIsAbove(c: Channel, draft: Voucher, signed: nat)
    ensures var sv := Drafted(c, draft, signed); IsNextNonce(c.vouchers, sv.lane, sv.nonce)
    ensures ChainBehind(c, draft.lane) ==> NonceAbove(c, Drafted(c, draft, signed))
    ensures !ChainBehind(c, draft.lane) ==> NextNonce(c.vouchers, draft.lane) == 1 && !NonceAbove(c, Drafted(c, draft, signed))
  {
    NextNonceMeans(c.vouchers, draft.lane);
  }

  /** A signed draft without merges becomes a voucher if and only if the chain has not
      gone past its lane, its amount is above the lane's, the balance has room, and what
      all lanes claim does not go down. The voucher is the draft with the next nonce. */
  lemma CreatedIff(c: Channel, draft: Voucher, signed: nat)
    requires Inv(c) && draft.merges == 0
    ensures var sv, r := Drafted(c, draft, signed), CreateVoucher(c, draft, signed, true).1;
            && (r.Created? <==> ChainBehind(c, draft.lane) && AmountAbove(c, sv) && Now(c) <= With(c, sv) <= c.received)
            && (r.Created? ==> r.voucher == sv && IsNextNonce(c.vouchers, draft.lane, sv.nonce)
                               && sv == draft.(channel := c.addr, nonce := sv.nonce, signed := signed))
            && (r.Shortfall? <==> ChainBehind(c, draft.lane) && AmountAbove(c, sv) && With(c, sv) > c.received)
            && (r.Shortfall? ==> r.amount == With(c, sv) - c.received)
  {
    var sv := Drafted(c, draft, signed);
    NextNonceIsAbove(c, draft, signed);
    NotStoredYet(c, sv);
    AddMeans(c, sv, 0, true);
  }

  // ---------- submitting ----------

  predicate MarkedAtFirst(infos: seq<VoucherInfo>, v: Voucher) {
    exists i | 0 <= i < |infos| :: infos[i].voucher == v && infos[i].submitted
  }

  /** The voucher, stored by then, was submitted, or one of its lane with a higher nonce. */
  predicate SubmittedIn(run: Run, v: Voucher) {
    if run.Start? then MarkedAtFirst(run.channel.vouchers, v)
    else
      || SubmittedIn(run.before, v)
      || (&& run.event.Submit? && HasVoucher(Final(run.before).vouchers, v)
          && (v == run.event.sv || (v.lane == run.event.sv.lane && v.nonce < run.event.sv.nonce)))
  }

  /** Events other than submissions only append unsubmitted vouchers. */
  lemma OthersAppend(c: Channel, e: Event)
    requires Enabled(c, e) && !e.Submit?
    ensures var infos, infos' := c.vouchers, Next(c, e).vouchers;
            infos' == infos || exists sv :: !HasVoucher(infos, sv) && infos' == infos + [VoucherInfo(sv, false)]
  {}

  lemma SameVoucherSameIndex(c: Channel, i: nat, j: nat)
    requires Inv(c) && i < |c.vouchers| && j < |c.vouchers| && c.vouchers[i].voucher == c.vouchers[j].voucher
    ensures i == j
  {
    var vs := Stored(c.vouchers);
    assert vs[i] == c.vouchers[i].voucher && vs[j] == c.vouchers[j].voucher;
  }

  lemma SubmitMeans(c: Channel, sv: Voucher, i: nat)
    requires Inv(c) && HasVoucher(c.vouchers, sv) && i < |c.vouchers|
    ensures var infos' := SubmitVoucher(c, sv).0.vouchers; var v := c.vouchers[i].voucher;
            && |infos'| == |c.vouchers| && infos'[i].voucher == v
            && (infos'[i].submitted <==> c.vouchers[i].submitted || v == sv || (v.lane == sv.lane && v.nonce < sv.nonce))
  {
    var k := Find(c.vouchers, sv);
    if c.vouchers[i].voucher == sv {
      SameVoucherSameIndex(c, i, k);
    }
  }

  lemma {:induction false} SubmittedWasStored(run: Run, v: Voucher)
    requires IsRun(run) && SubmittedIn(run, v) && Inv(First(run))
    ensures HasVoucher(Final(run).vouchers, v)
  {
    if run.Then? {
      RunInvariant(run.before);
      if SubmittedIn(run.before, v) {
        SubmittedWasStored(run.before, v);
      }
      VouchersStay(Final(run.before), run.event, v);
    }
  }

  lemma VouchersStay(c: Channel, e: Event, v: Voucher)
    requires Inv(c) && Enabled(c, e) && HasVoucher(c.vouchers, v)
    ensures HasVoucher(Next(c, e).vouchers, v)
  {
    var i :| 0 <= i < |c.vouchers| && c.vouchers[i].voucher == v;
    if e.Submit? {
      SubmitMeans(c, e.sv, i);
      assert Next(c, e).vouchers[i].voucher == v;
    } else {
      OthersAppend(c, e);
      assert Next(c, e).vouchers[i].voucher == v;
    }
  }

  /** In every run a stored voucher is marked submitted exactly if it, or one of its lane
      with a higher nonce, was submitted once it was stored. */
  lemma {:induction false} SubmittedIsHistory(run: Run, i: nat)
    requires IsRun(run) && Inv(First(run)) && i < |Final(run).vouchers|
    ensures Final(run).vouchers[i].submitted <==> SubmittedIn(run, Final(run).vouchers[i].voucher)
  {
    RunInvariant(run);
    if run.Start? {
      forall j: nat | j < |run.channel.vouchers| && run.channel.vouchers[j].voucher == run.channel.vouchers[i].voucher ensures i == j {
        SameVoucherSameIndex(run.channel, i, j);
      }
    } else {
      var c, e := Final(run.before), run.event;
      RunInvariant(run.before);
      if e.Submit? {
        SubmitMeans(c, e.sv, Find(c.vouchers, e.sv));
        SubmitMeans(c, e.sv, i);
        SubmittedIsHistory(run.before, i);
        assert HasVoucher(c.vouchers, c.vouchers[i].voucher);
      } else {
        OthersAppend(c, e);
        if i < |c.vouchers| {
          SubmittedIsHistory(run.before, i);
        } else {
          var v := run.after.vouchers[i].voucher;
          if SubmittedIn(run.before, v) {
            SubmittedWasStored(run.before, v);
          }
        }
      }
    }
  }
}
