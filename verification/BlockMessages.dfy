/** The nonce and gas rules of block validation. */
module BlockMessages {
  import opened MachineInts

  const BLOCK_GAS_LIMIT := 100_000_000_000

  type Address = nat

  /** The sum of two 64-bit integers as Go computes it. */
  function Add64(a: int, b: int): (r: int)
    requires IsInt64(a) && IsInt64(b)
    ensures IsInt64(r) && (r - a - b) % TWO64 == 0
  {
    if a + b >= TWO63 then a + b - TWO64 else if a + b < -TWO63 then a + b + TWO64 else a + b
  }

  /** `minGas` is the price of putting the message on chain; `wellFormed` stands for
      the checks on version, addresses, value and fees, `signed` for the signature. */
  datatype Message = Message(from: Address, nonce: nat, gasLimit: int, minGas: nat, wellFormed: bool, signed: bool)

  datatype Actor = Actor(isAccount: bool, nonce: nat)

  type Actors = map<Address, Actor>

  predicate ValidForBlockInclusion(m: Message) {
    m.wellFormed && m.minGas <= m.gasLimit <= BLOCK_GAS_LIMIT
  }

  function GasSum(ms: seq<Message>): int {
    if ms == [] then 0 else GasSum(ms[..|ms| - 1]) + ms[|ms| - 1].gasLimit
  }

  /** The nonces of the messages from `a`, in order. */
  function NoncesOf(ms: seq<Message>, a: Address): seq<nat> {
    if ms == [] then []
    else
      var m := ms[|ms| - 1];
      NoncesOf(ms[..|ms| - 1], a) + if m.from == a then [m.nonce] else []
  }

  /** Incrementing a 64-bit nonce. */
  function Inc(nonce: nat): nat {
    if nonce == TWO64 - 1 then 0 else nonce + 1
  }

  function NonceAfter(first: nat, k: nat): nat {
    if k == 0 then first else Inc(NonceAfter(first, k - 1))
  }

  /** `n` consecutive 64-bit nonces from `first` on. */
  function Consecutive(first: nat, n: nat): seq<nat> {
    seq(n, k requires 0 <= k < n => NonceAfter(first, k))
  }

  lemma IncWraps(x: nat)
    ensures (x + 1) % TWO64 == Inc(x % TWO64)
  {}

  lemma {:induction false} NonceWraps(first: nat, k: nat)
    requires first < TWO64
    ensures NonceAfter(first, k) == (first + k) % TWO64
  {
    if k > 0 {
      NonceWraps(first, k - 1);
      IncWraps(first + k - 1);
    }
  }

  predicate SendersExist(actors: Actors, ms: seq<Message>) {
    forall i | 0 <= i < |ms| :: ms[i].from in actors && actors[ms[i].from].isAccount
  }

  ghost predicate NoncesFit(actors: Actors, ms: seq<Message>) {
    forall a | a in actors :: NoncesOf(ms, a) == Consecutive(actors[a].nonce, |NoncesOf(ms, a)|)
  }

  /** One message on its own: its fields are in order and its gas limit covers its price
      and is at most a hundred billion. */
  predicate WithinLimits(m: Message) {
    m.wellFormed && m.minGas <= m.gasLimit <= 100_000_000_000
  }

  /** What block validation is to establish of the messages as a whole. */
  ghost predicate Acceptable(actors: Actors, ms: seq<Message>) {
    && (forall i | 0 <= i < |ms| :: WithinLimits(ms[i]))
    && GasSum(ms) <= 100_000_000_000
    && SendersExist(actors, ms)
    && NoncesFit(actors, ms)
  }

  predicate ActorsFit(actors: Actors) {
    forall a | a in actors :: actors[a].nonce < TWO64
  }

  lemma {:induction false} GasGrows(ms: seq<Message>, n: nat)
    requires n <= |ms| && forall i | 0 <= i < |ms| :: ValidForBlockInclusion(ms[i])
    ensures 0 <= GasSum(ms[..n]) <= GasSum(ms)
  {
    if ms == [] {
    } else if n == |ms| {
      assert ms[..n] == ms;
      GasGrows(ms[..n - 1], n - 1);
    } else {
      assert ms[..|ms| - 1][..n] == ms[..n];
      GasGrows(ms[..|ms| - 1], n);
    }
  }

  lemma {:induction false} NoncesPrefix(ms: seq<Message>, n: nat, a: Address)
    requires n <= |ms|
    ensures NoncesOf(ms[..n], a) <= NoncesOf(ms, a)
  {
    if n == |ms| {
      assert ms[..n] == ms;
    } else {
      assert ms[..|ms| - 1][..n] == ms[..n];
      NoncesPrefix(ms[..|ms| - 1], n, a);
    }
  }

  /** A block is only acceptable if every prefix of its messages is. */
  lemma PrefixAcceptable(actors: Actors, ms: seq<Message>, n: nat)
    requires n <= |ms| && Acceptable(actors, ms)
    ensures Acceptable(actors, ms[..n])
  {
    GasGrows(ms, n);
    forall a | a in actors ensures NoncesOf(ms[..n], a) == Consecutive(actors[a].nonce, |NoncesOf(ms[..n], a)|) {
      NoncesPrefix(ms, n, a);
    }
  }

  lemma Rejected(actors: Actors, start: seq<Message>, ms: seq<Message>, i: nat)
    requires i < |ms| && !Acceptable(actors, start + ms[..i] + [ms[i]])
    ensures !Acceptable(actors, start + ms)
  {
    if Acceptable(actors, start + ms) {
      assert start + ms[..i] + [ms[i]] == (start + ms)[..|start| + i + 1];
      PrefixAcceptable(actors, start + ms, |start| + i + 1);
    }
  }

  lemma NoncesSnoc(ms: seq<Message>, m: Message, a: Address)
    ensures NoncesOf(ms + [m], a) == NoncesOf(ms, a) + if m.from == a then [m.nonce] else []
  {}

  lemma ConsecutiveSnoc(first: nat, n: nat, x: nat)
    ensures Consecutive(first, n) + [x] == Consecutive(first, n + 1) <==> x == NonceAfter(first, n)
  {
    assert Consecutive(first, n + 1)[n] == NonceAfter(first, n);
    if x == NonceAfter(first, n) {
      assert Consecutive(first, n) + [x] == Consecutive(first, n + 1);
    } else {
      assert (Consecutive(first, n) + [x])[n] == x;
    }
  }

  /** One more message fits exactly if its nonce is the next one of its sender. */
  lemma NoncesFitMore(actors: Actors, ms: seq<Message>, m: Message)
    requires NoncesFit(actors, ms) && m.from in actors
    ensures NoncesFit(actors, ms + [m]) <==> m.nonce == NonceAfter(actors[m.from].nonce, |NoncesOf(ms, m.from)|)
  {
    var n := |NoncesOf(ms, m.from)|;
    NoncesSnoc(ms, m, m.from);
    ConsecutiveSnoc(actors[m.from].nonce, n, m.nonce);
    assert NoncesOf(ms, m.from) == Consecutive(actors[m.from].nonce, n);
    assert |NoncesOf(ms + [m], m.from)| == n + 1;
    if m.nonce == NonceAfter(actors[m.from].nonce, n) {
      forall a | a in actors ensures NoncesOf(ms + [m], a) == Consecutive(actors[a].nonce, |NoncesOf(ms + [m], a)|) {
        NoncesSnoc(ms, m, a);
      }
    }
  }

  lemma AcceptableMore(actors: Actors, ms: seq<Message>, m: Message)
    requires Acceptable(actors, ms)
    ensures Acceptable(actors, ms + [m]) <==>
              && ValidForBlockInclusion(m) && GasSum(ms) + m.gasLimit <= BLOCK_GAS_LIMIT
              && m.from in actors && actors[m.from].isAccount
              && m.nonce == NonceAfter(actors[m.from].nonce, |NoncesOf(ms, m.from)|)
  {
    var out := ms + [m];
    assert out[..|ms|] == ms && out[|ms|] == m;
    if m.from in actors {
      NoncesFitMore(actors, ms, m);
    }
  }

  lemma SumFits(sum: int, m: Message)
    requires 0 <= sum <= BLOCK_GAS_LIMIT && ValidForBlockInclusion(m)
    ensures IsInt64(sum) && IsInt64(m.gasLimit) && Add64(sum, m.gasLimit) == sum + m.gasLimit >= 0
  {}

  /** The next nonce of `a` is recorded, unless it has sent nothing. */
  predicate KnownFor(actors: Actors, ms: seq<Message>, nonces: map<Address, nat>, a: Address) {
    if a in nonces then
      a in actors && actors[a].isAccount && nonces[a] == NonceAfter(actors[a].nonce, |NoncesOf(ms, a)|)
    else
      NoncesOf(ms, a) == []
  }

  ghost predicate NoncesKnown(actors: Actors, ms: seq<Message>, nonces: map<Address, nat>) {
    forall a :: KnownFor(actors, ms, nonces, a)
  }

  lemma KnownForMore(actors: Actors, ms: seq<Message>, nonces: map<Address, nat>, m: Message, a: Address)
    requires KnownFor(actors, ms, nonces, a) && m.from in actors && actors[m.from].isAccount
    requires m.nonce == NonceAfter(actors[m.from].nonce, |NoncesOf(ms, m.from)|)
    ensures KnownFor(actors, ms + [m], nonces[m.from := Inc(m.nonce)], a)
  {}

  lemma NoncesKnownMore(actors: Actors, ms: seq<Message>, nonces: map<Address, nat>, m: Message)
    requires NoncesKnown(actors, ms, nonces) && m.from in actors && actors[m.from].isAccount
    requires m.nonce == NonceAfter(actors[m.from].nonce, |NoncesOf(ms, m.from)|)
    ensures NoncesKnown(actors, ms + [m], nonces[m.from := Inc(m.nonce)])
  {
    var ms', nonces' := ms + [m], nonces[m.from := Inc(m.nonce)];
    forall a ensures KnownFor(actors, ms', nonces', a) {
      KnownForMore(actors, ms, nonces, m, a);
    }
  }

  /** What the running state says about the messages passed so far. */
  ghost predicate Tracks(actors: Actors, ms: seq<Message>, nonces: map<Address, nat>, sum: int) {
    Acceptable(actors, ms) && sum == GasSum(ms) && 0 <= sum && NoncesKnown(actors, ms, nonces)
  }

  /** The decision on one more message, from the running state alone. */
  lemma Decision(actors: Actors, ms: seq<Message>, nonces: map<Address, nat>, sum: int, m: Message)
    requires Tracks(actors, ms, nonces, sum)
    ensures m.from in nonces ==> m.from in actors && actors[m.from].isAccount
    ensures Acceptable(actors, ms + [m]) <==>
              && ValidForBlockInclusion(m) && sum + m.gasLimit <= BLOCK_GAS_LIMIT
              && m.from in actors && actors[m.from].isAccount
              && m.nonce == if m.from in nonces then nonces[m.from] else actors[m.from].nonce
  {
    assert KnownFor(actors, ms, nonces, m.from);
    AcceptableMore(actors, ms, m);
  }

  lemma TracksMore(actors: Actors, ms: seq<Message>, nonces: map<Address, nat>, sum: int, m: Message)
    requires Tracks(actors, ms, nonces, sum) && Acceptable(actors, ms + [m])
    ensures Tracks(actors, ms + [m], nonces[m.from := Inc(m.nonce)], sum + m.gasLimit)
  {
    AcceptableMore(actors, ms, m);
    NoncesKnownMore(actors, ms, nonces, m);
    assert (ms + [m])[..|ms|] == ms;
  }

  class Checker {
    const actors: Actors
    var nonces: map<Address, nat>
    var sumGasLimit: int
    /** the messages passed so far */
    ghost var done: seq<Message>

    ghost predicate Valid()
      reads this
    {
      ActorsFit(actors) && Tracks(actors, done, nonces, sumGasLimit)
    }

    constructor (actors: Actors)
      requires ActorsFit(actors)
      ensures Valid() && this.actors == actors && done == []
    {
      this.actors, nonces, sumGasLimit, done := actors, map[], 0, [];
    }

    /** `checkMsg`: the message passes exactly if the messages so far stay
        acceptable with it. The 64-bit sum of gas limits never wraps around. */
    method CheckMsg(m: Message) returns (ok: bool)
      requires Valid() && m.nonce < TWO64
      modifies this
      ensures ok <==> Acceptable(actors, old(done) + [m])
      ensures ok ==> Valid() && done == old(done) + [m]
    {
      Decision(actors, done, nonces, sumGasLimit, m);
      if !ValidForBlockInclusion(m) { return false; }
      SumFits(sumGasLimit, m);
      sumGasLimit := Add64(sumGasLimit, m.gasLimit);
      if sumGasLimit > BLOCK_GAS_LIMIT { return false; }
      if m.from !in nonces {
        if m.from !in actors || !actors[m.from].isAccount { return false; }
        nonces := nonces[m.from := actors[m.from].nonce];
      }
      if nonces[m.from] != m.nonce { return false; }
      TracksMore(actors, done, old(nonces), old(sumGasLimit), m);
      assert nonces[m.from := Inc(m.nonce)] == old(nonces)[m.from := Inc(m.nonce)];
      nonces := nonces[m.from := Inc(nonces[m.from])];
      done := done + [m];
      return true;
    }

    /** Check the messages of one list, and their signatures where `signatures` is set. */
    method CheckList(ms: seq<Message>, signatures: bool) returns (ok: bool)
      requires Valid() && forall i | 0 <= i < |ms| :: ms[i].nonce < TWO64
      modifies this
      ensures ok <==> Acceptable(actors, old(done) + ms) && (signatures ==> forall i | 0 <= i < |ms| :: ms[i].signed)
      ensures ok ==> Valid() && done == old(done) + ms
    {
      ghost var start := done;
      for i := 0 to |ms|
        invariant Valid() && done == start + ms[..i]
        invariant signatures ==> forall k | 0 <= k < i :: ms[k].signed
      {
        assert start + ms[..i + 1] == start + ms[..i] + [ms[i]];
        var passed := CheckMsg(ms[i]);
        if !passed {
          Rejected(actors, start, ms, i);
          return false;
        }
        if signatures && !ms[i].signed { return false; }
      }
      assert ms[..|ms|] == ms;
      return true;
    }
  }

  /** The messages of a block pass exactly if the BLS aggregate and the secp
      signatures are good and the two lists, one after the other, are acceptable. */
  method CheckBlockMessages(actors: Actors, bls: seq<Message>, secp: seq<Message>, aggregateOk: bool) returns (ok: bool)
    requires ActorsFit(actors) && forall m | m in bls + secp :: m.nonce < TWO64
    ensures ok <==> aggregateOk && Acceptable(actors, bls + secp) && forall i | 0 <= i < |secp| :: secp[i].signed
  {
    if !aggregateOk { return false; }
    var checker := new Checker(actors);
    assert forall i | 0 <= i < |bls| :: bls[i] in bls + secp;
    assert forall i | 0 <= i < |secp| :: secp[i] in bls + secp;
    assert [] + bls == bls == (bls + secp)[..|bls|];
    ok := checker.CheckList(bls, false);
    if !ok {
      if Acceptable(actors, bls + secp) { PrefixAcceptable(actors, bls + secp, |bls|); }
      return;
    }
    ok := checker.CheckList(secp, true);
  }

  /** At no prefix does the running 64-bit sum of gas limits wrap around. */
  lemma NoOverflow(actors: Actors, ms: seq<Message>, n: nat)
    requires Acceptable(actors, ms) && n < |ms|
    ensures IsInt64(GasSum(ms[..n])) && IsInt64(ms[n].gasLimit)
    ensures Add64(GasSum(ms[..n]), ms[n].gasLimit) == GasSum(ms[..n + 1]) <= BLOCK_GAS_LIMIT
  {
    GasGrows(ms, n);
    GasGrows(ms, n + 1);
    assert ms[..n + 1][..n] == ms[..n];
  }
}
