/** Lane states of a flow channel: what the chain says, the stored vouchers laid
    over it, and the total over all lanes. */
module Lanes {
  import opened MapSums
  import opened Options

  datatype Voucher = Voucher(channel: nat, lane: nat, nonce: nat, amount: int, merges: nat, signed: nat)

  datatype LaneState = LaneState(redeemed: int, nonce: nat)

  type LaneMap = map<nat, LaneState>

  // ---------- the overlay ----------

  /** A voucher replaces the state of its lane unless its nonce is lower. */
  function Apply(ls: LaneMap, v: Voucher): LaneMap {
    if v.lane in ls && v.nonce < ls[v.lane].nonce then ls
    else ls[v.lane := LaneState(v.amount, v.nonce)]
  }

  /** `laneState`: the stored vouchers, in order, over the state on chain. */
  function Overlay(chain: LaneMap, vs: seq<Voucher>): LaneMap {
    if vs == [] then chain else Apply(Overlay(chain, vs[..|vs| - 1]), vs[|vs| - 1])
  }

  method ComputeOverlay(chain: LaneMap, vs: seq<Voucher>) returns (ls: LaneMap)
    ensures ls == Overlay(chain, vs)
  {
    ls := chain;
    for i := 0 to |vs|
      invariant ls == Overlay(chain, vs[..i])
    {
      var v := vs[i];
      assert vs[..i + 1][..i] == vs[..i];
      if v.lane in ls && v.nonce < ls[v.lane].nonce {
        continue;
      }
      ls := ls[v.lane := LaneState(v.amount, v.nonce)];
    }
    assert vs[..|vs|] == vs;
  }

  /** The voucher stored last on a lane. */
  function LastOn(vs: seq<Voucher>, lane: nat): (r: Option<nat>)
    ensures r.Some? ==> r.value < |vs| && vs[r.value].lane == lane
    ensures forall i | 0 <= i < |vs| && vs[i].lane == lane :: r.Some? && i <= r.value
  {
    if vs == [] then None
    else if vs[|vs| - 1].lane == lane then Some(|vs| - 1)
    else LastOn(vs[..|vs| - 1], lane)
  }

  /** Stored vouchers of a lane have strictly increasing nonces and amounts. */
  predicate Increasing(vs: seq<Voucher>) {
    forall i, j | 0 <= i < j < |vs| && vs[i].lane == vs[j].lane ::
      vs[i].nonce < vs[j].nonce && vs[i].amount < vs[j].amount
  }

  /** The state the overlay gives a lane: the last stored voucher, unless the
      chain is ahead of it. */
  predicate OverlaidAs(chain: LaneMap, vs: seq<Voucher>, lane: nat, ls: LaneMap) {
    var last := LastOn(vs, lane);
    if last.Some? && (lane in chain ==> chain[lane].nonce <= vs[last.value].nonce) then
      lane in ls && ls[lane] == LaneState(vs[last.value].amount, vs[last.value].nonce)
    else
      (lane in ls <==> lane in chain) && (lane in ls ==> ls[lane] == chain[lane])
  }

  lemma {:induction false} OverlayPerLane(chain: LaneMap, vs: seq<Voucher>, lane: nat)
    requires Increasing(vs)
    ensures OverlaidAs(chain, vs, lane, Overlay(chain, vs))
  {
    if vs != [] {
      var front, v := vs[..|vs| - 1], vs[|vs| - 1];
      assert forall i | 0 <= i < |front| :: front[i] == vs[i];
      OverlayPerLane(chain, front, lane);
    }
  }

  /** Redeeming a stored voucher on chain leaves the overlay as it was. */
  lemma RedeemKeepsOverlay(chain: LaneMap, vs: seq<Voucher>, k: nat)
    requires Increasing(vs) && k < |vs|
    requires vs[k].lane in chain ==> chain[vs[k].lane].nonce < vs[k].nonce
    ensures Overlay(chain[vs[k].lane := LaneState(vs[k].amount, vs[k].nonce)], vs) == Overlay(chain, vs)
  {
    var chain' := chain[vs[k].lane := LaneState(vs[k].amount, vs[k].nonce)];
    var a, b := Overlay(chain', vs), Overlay(chain, vs);
    forall lane: nat ensures (lane in a <==> lane in b) && (lane in a ==> a[lane] == b[lane]) {
      OverlayPerLane(chain', vs, lane);
      OverlayPerLane(chain, vs, lane);
      if lane == vs[k].lane {
        var last := LastOn(vs, lane).value;
        assert k <= last && vs[k].nonce <= vs[last].nonce;
      }
    }
  }

  // ---------- totals ----------

  function Redeemed(ls: LaneMap): map<nat, int> {
    map k | k in ls :: ls[k].redeemed
  }

  ghost function Total(ls: LaneMap): int {
    Sum(Redeemed(ls))
  }

  lemma TotalUpdate(ls: LaneMap, k: nat, s: LaneState)
    ensures Total(ls[k := s]) == Total(ls) + s.redeemed - (if k in ls then ls[k].redeemed else 0)
  {
    SumUpdate(Redeemed(ls), k, s.redeemed);
    assert Redeemed(ls[k := s]) == Redeemed(ls)[k := s.redeemed];
  }

  method ComputeTotal(ls: LaneMap) returns (total: int)
    ensures total == Total(ls)
  {
    total := 0;
    var todo := ls;
    while todo != map[]
      invariant total + Total(todo) == Total(ls)
      decreases |todo|
    {
      var k :| k in todo;
      SumSplit(Redeemed(todo), k);
      assert Redeemed(todo) - {k} == Redeemed(todo - {k});
      total := total + todo[k].redeemed;
      assert (todo - {k}).Keys == todo.Keys - {k};
      todo := todo - {k};
    }
  }

  /** `totalRedeemedWithVoucher`, for a voucher without merges. */
  ghost function TotalWith(ls: LaneMap, v: Voucher): int {
    Total(ls) +
    if v.lane in ls then (if v.nonce > ls[v.lane].nonce then v.amount - ls[v.lane].redeemed else 0)
    else v.amount
  }

  method ComputeTotalWith(ls: LaneMap, v: Voucher) returns (total: int)
    ensures total == TotalWith(ls, v)
  {
    total := ComputeTotal(ls);
    if v.lane in ls {
      if v.nonce > ls[v.lane].nonce {
        var delta := v.amount - ls[v.lane].redeemed;
        total := total + delta;
      }
    } else {
      total := total + v.amount;
    }
  }

  /** The incremental total is the total recomputed with the voucher appended,
      unless the voucher repeats its lane's nonce with another amount. */
  lemma IncrementalTotal(chain: LaneMap, vs: seq<Voucher>, v: Voucher)
    ensures var ls := Overlay(chain, vs);
            TotalWith(ls, v) == Total(Overlay(chain, vs + [v])) <==>
            !(v.lane in ls && v.nonce == ls[v.lane].nonce && v.amount != ls[v.lane].redeemed)
  {
    assert (vs + [v])[..|vs|] == vs;
    TotalUpdate(Overlay(chain, vs), v.lane, LaneState(v.amount, v.nonce));
  }
}
