/** The voucher operations of a channel accessor, on the stored channel record. */
module ChannelAccessor {
  import opened Lanes
  import opened FlowVouchers

  class Accessor {
    const addr: nat
    /** The channel actor on chain, as loaded by the state accessor. */
    var lanes: LaneMap
    var received: int
    /** The stored record. */
    var vouchers: seq<VoucherInfo>
    var nextLane: nat

    ghost function Abs(): Channel
      reads this
    {
      Channel(addr, lanes, received, vouchers, nextLane)
    }

    constructor (addr: nat, lanes: LaneMap, received: int)
      ensures Abs() == Channel(addr, lanes, received, [], 0)
    {
      this.addr, this.lanes, this.received := addr, lanes, received;
      vouchers, nextLane := [], 0;
    }

    method NextNonceForLane(lane: nat) returns (n: nat)
      ensures n == NextNonce(vouchers, lane)
    {
      var maxNonce: nat := 0;
      for i := 0 to |vouchers|
        invariant maxNonce + 1 == NextNonce(vouchers[..i], lane)
      {
        assert vouchers[..i + 1][..i] == vouchers[..i];
        if vouchers[i].voucher.lane == lane && vouchers[i].voucher.nonce > maxNonce {
          maxNonce := vouchers[i].voucher.nonce;
        }
      }
      assert vouchers[..|vouchers|] == vouchers;
      return maxNonce + 1;
    }

    /** `laneState`, which refuses stored vouchers with merges. */
    method LoadLaneState() returns (r: Result<LaneMap>)
      ensures r == if HasMerges(vouchers) then Err(StoredMerges) else Ok(CurrentLanes(Abs()))
    {
      var vs: seq<Voucher> := [];
      for i := 0 to |vouchers|
        invariant vs == Stored(vouchers[..i])
        invariant !HasMerges(vouchers[..i])
      {
        if vouchers[i].voucher.merges != 0 {
          return Err(StoredMerges);
        }
        vs := vs + [vouchers[i].voucher];
      }
      assert vouchers[..|vouchers|] == vouchers;
      var ls := ComputeOverlay(lanes, vs);
      return Ok(ls);
    }

    method CheckVoucherValid(sv: Voucher, sigOk: bool) returns (r: Result<LaneMap>)
      ensures r == Check(Abs(), sv, sigOk)
    {
      if sv.channel != addr { return Err(WrongChannel); }
      if !sigOk { return Err(BadSignature); }
      var loaded := LoadLaneState();
      if loaded.Err? { return loaded; }
      var ls := loaded.value;
      if sv.lane in ls {
        if sv.nonce <= ls[sv.lane].nonce { return Err(NonceTooLow); }
        if sv.amount <= ls[sv.lane].redeemed { return Err(AmountTooLow); }
      }
      if sv.merges != 0 { return Err(MergesUnsupported); }
      var total := ComputeTotalWith(ls, sv);
      if received < total { return Err(Insufficient(total - received)); }
      return Ok(ls);
    }

    method FindVoucher(sv: Voucher) returns (k: nat)
      ensures k == Find(vouchers, sv)
    {
      k := 0;
      while k < |vouchers| && vouchers[k].voucher != sv
        invariant k <= |vouchers|
        invariant Find(vouchers, sv) == k + Find(vouchers[k..], sv)
      {
        assert vouchers[k..][1..] == vouchers[k + 1..];
        k := k + 1;
      }
    }

    method AddVoucherUnlocked(sv: Voucher, minDelta: int, sigOk: bool) returns (r: Result<int>)
      modifies this`vouchers, this`nextLane
      ensures (Abs(), r) == AddVoucher(old(Abs()), sv, minDelta, sigOk)
    {
      var at := FindVoucher(sv);
      if at < |vouchers| {
        return Ok(0);
      }
      var check := CheckVoucherValid(sv, sigOk);
      if check.Err? {
        return Err(check.error);
      }
      var redeemed := 0;
      if sv.lane in check.value {
        redeemed := check.value[sv.lane].redeemed;
      }
      var delta := sv.amount - redeemed;
      if minDelta > delta {
        return Err(DeltaTooLow);
      }
      vouchers := vouchers + [VoucherInfo(sv, false)];
      if nextLane <= sv.lane {
        nextLane := sv.lane + 1;
      }
      return Ok(delta);
    }

    method Create(draft: Voucher, signed: nat, sigOk: bool) returns (r: Created)
      modifies this`vouchers, this`nextLane
      ensures (Abs(), r) == CreateVoucher(old(Abs()), draft, signed, sigOk)
    {
      var nonce := NextNonceForLane(draft.lane);
      var sv := draft.(channel := addr, nonce := nonce, signed := signed);
      var added := AddVoucherUnlocked(sv, 0, sigOk);
      match added {
        case Err(Insufficient(shortfall)) => return Shortfall(shortfall);
        case Err(e) => return Failed(e);
        case Ok(_) => return Created(sv);
      }
    }

    method MarkVoucherSubmitted(sv: Voucher)
      requires HasVoucher(vouchers, sv)
      modifies this`vouchers
      ensures vouchers == MarkSubmitted(old(vouchers), sv)
    {
      var k := FindVoucher(sv);
      vouchers := vouchers[k := vouchers[k].(submitted := true)];
      for i := 0 to |vouchers|
        invariant |vouchers| == |old(vouchers)|
        invariant vouchers[..i] == MarkSubmitted(old(vouchers), sv)[..i]
        invariant forall j | i <= j < |vouchers| ::
                    vouchers[j] == if j == k then old(vouchers)[j].(submitted := true) else old(vouchers)[j]
      {
        if vouchers[i].voucher.lane == sv.lane && vouchers[i].voucher.nonce < sv.nonce {
          vouchers := vouchers[i := vouchers[i].(submitted := true)];
        }
      }
    }

    method Submit(sv: Voucher) returns (r: Result<()>)
      modifies this`vouchers
      ensures (Abs(), r) == SubmitVoucher(old(Abs()), sv)
    {
      var k := FindVoucher(sv);
      if k < |vouchers| {
        if vouchers[k].submitted {
          return Err(AlreadySubmitted);
        }
      } else {
        vouchers := vouchers + [VoucherInfo(sv, false)];
        assert vouchers[|vouchers| - 1].voucher == sv;
      }
      MarkVoucherSubmitted(sv);
      return Ok(());
    }

    method Allocate() returns (lane: nat)
      modifies this`nextLane
      ensures (Abs(), lane) == AllocateLane(old(Abs()))
    {
      lane := nextLane;
      nextLane := nextLane + 1;
    }
  }

  // ---------- the best spendable vouchers ----------

  datatype Spendable = Yes | No | CheckFailed

  /** `BestSpendableByLane`: `checks[i]` is what the spendable check answers for
      `vouchers[i]`. Each lane with a spendable voucher gets a heaviest one. */
  method BestSpendableByLane(vouchers: seq<Voucher>, checks: seq<Spendable>) returns (failed: bool, best: map<nat, nat>)
    requires |checks| == |vouchers|
    ensures failed <==> CheckFailed in checks
    ensures !failed ==> forall i | 0 <= i < |vouchers| && checks[i] == Yes ::
              vouchers[i].lane in best
    ensures !failed ==> forall lane | lane in best ::
              && best[lane] < |vouchers| && checks[best[lane]] == Yes && vouchers[best[lane]].lane == lane
              && forall i | 0 <= i < |vouchers| && checks[i] == Yes && vouchers[i].lane == lane ::
                   vouchers[i].amount <= vouchers[best[lane]].amount
  {
    best := map[];
    for i := 0 to |vouchers|
      invariant CheckFailed !in checks[..i]
      invariant forall k | 0 <= k < i && checks[k] == Yes :: vouchers[k].lane in best
      invariant forall lane | lane in best ::
                  && best[lane] < i && checks[best[lane]] == Yes && vouchers[best[lane]].lane == lane
                  && forall k | 0 <= k < i && checks[k] == Yes && vouchers[k].lane == lane ::
                       vouchers[k].amount <= vouchers[best[lane]].amount
    {
      if checks[i] == CheckFailed {
        return true, map[];
      }
      if checks[i] == Yes {
        var lane := vouchers[i].lane;
        if lane !in best || vouchers[i].amount > vouchers[best[lane]].amount {
          best := best[lane := i];
        }
      }
    }
    assert checks[..|vouchers|] == checks;
    return false, best;
  }

  /** At the end of every run, a heaviest spendable voucher of a lane is the
      spendable one with the highest nonce. */
  lemma HeaviestIsLatest(run: Run, checks: seq<Spendable>, b: nat)
    requires IsRun(run) && Inv(First(run))
    requires var vs := Stored(Final(run).vouchers);
             && |checks| == |vs| && b < |vs| && checks[b] == Yes
             && forall i | 0 <= i < |vs| && checks[i] == Yes && vs[i].lane == vs[b].lane :: vs[i].amount <= vs[b].amount
    ensures var vs := Stored(Final(run).vouchers);
            forall i | 0 <= i < |vs| && checks[i] == Yes && vs[i].lane == vs[b].lane && i != b ::
              vs[i].nonce < vs[b].nonce
  {
    RunInvariant(run);
    var vs := Stored(Final(run).vouchers);
    forall i | 0 <= i < |vs| && checks[i] == Yes && vs[i].lane == vs[b].lane && i != b
      ensures vs[i].nonce < vs[b].nonce
    {
      assert Increasing(vs) && i < b;
    }
  }

  /** Submitting a voucher that was never added skips the balance check: one such
      call can leave the lanes claiming more than the channel received. */
  lemma UnseenSubmitOverclaims() returns (c: Channel, sv: Voucher)
    ensures Inv(c) && !HasVoucher(c.vouchers, sv)
    ensures SubmitVoucher(c, sv).1.Ok?
    ensures Total(CurrentLanes(SubmitVoucher(c, sv).0)) > c.received
  {
    c := Channel(7, map[], 5, [], 0);
    sv := Voucher(7, 0, 1, 6, 0, 0);
    assert Stored([]) == [] && CurrentLanes(c) == map[];
    var out := SubmitVoucher(c, sv).0;
    var infos := [VoucherInfo(sv, false)];
    assert c.vouchers + infos == infos;
    assert infos[0].voucher == sv;
    assert Stored(out.vouchers) == [sv];
    assert [sv][..0] == [];
    TotalUpdate(map[], 0, LaneState(6, 1));
    assert CurrentLanes(out) == map[][0 := LaneState(6, 1)];
  }

  /** How laying `sv` over the lanes changes their total. */
  function Shift(ls: LaneMap, sv: Voucher): int {
    if sv.lane !in ls then sv.amount
    else if sv.nonce < ls[sv.lane].nonce then 0
    else sv.amount - ls[sv.lane].redeemed
  }

  /** Submitting an unseen voucher leaves the lanes within the balance exactly if
      the balance has room for the change it makes to their total. */
  lemma UnseenSubmitBoundedIff(c: Channel, sv: Voucher)
    requires !HasVoucher(c.vouchers, sv)
    ensures Total(CurrentLanes(SubmitVoucher(c, sv).0)) <= c.received <==>
              Total(CurrentLanes(c)) + Shift(CurrentLanes(c), sv) <= c.received
  {
    var infos := c.vouchers + [VoucherInfo(sv, false)];
    assert infos[|c.vouchers|].voucher == sv;
    var out := SubmitVoucher(c, sv).0;
    var vs := Stored(c.vouchers);
    assert Stored(out.vouchers) == vs + [sv];
    assert (vs + [sv])[..|vs|] == vs;
    TotalUpdate(CurrentLanes(c), sv.lane, LaneState(sv.amount, sv.nonce));
  }
}
