/** Block timestamps: the rule validation enforces, what the miner writes, and the
    bound on heights of incoming blocks. Times are 64-bit and unsigned. */
module BlockTimes {
  import opened Division
  import opened MachineInts

  const MAX_HEIGHT_DRIFT := 5
  const ALLOWABLE_CLOCK_DRIFT := 1

  function Uint64(x: int): nat {
    x % TWO64
  }

  function Int64(x: int): int {
    (x + TWO63) % TWO64 - TWO63
  }

  /** A block as far as time goes. */
  datatype Block = Block(height: int, timestamp: nat)

  type TipSet = seq<Block>

  ghost predicate LeastTime(ts: TipSet, min: nat) {
    (exists b | b in ts :: min == b.timestamp) && forall b | b in ts :: min <= b.timestamp
  }

  /** `MinTimestamp`: the least timestamp of the blocks. */
  method MinTimestamp(ts: TipSet) returns (min: nat)
    requires ts != []
    ensures LeastTime(ts, min)
  {
    min := ts[0].timestamp;
    for i := 1 to |ts|
      invariant exists b | b in ts :: min == b.timestamp
      invariant forall k | 0 <= k < i :: min <= ts[k].timestamp
    {
      if ts[i].timestamp < min {
        min := ts[i].timestamp;
      }
    }
  }

  /** The timestamp a block has to have, in the source's own arithmetic. */
  function Target(delay: nat, baseTime: nat, baseHeight: int, height: int): nat {
    var nulls := Int64(height - Int64(baseHeight + 1));
    Uint64(baseTime + Uint64(delay * Uint64(Int64(nulls + 1))))
  }

  /** The time checks of `ValidateBlock`, with `drift` the clock drift allowed. */
  predicate TimeOk(delay: nat, baseTime: nat, baseHeight: int, b: Block, now: nat, drift: nat) {
    b.timestamp == Target(delay, baseTime, baseHeight, b.height) && b.timestamp <= Uint64(now + drift)
  }

  // ---------- arithmetic modulo 2^64 ----------

  predicate Congruent(a: int, b: int) {
    (a - b) % TWO64 == 0
  }

  lemma UintCongruent(x: int)
    ensures Congruent(Uint64(x), x)
  {}

  lemma CongruentSum(a: int, b: int, c: int, d: int)
    requires Congruent(a, b) && Congruent(c, d)
    ensures Congruent(a + c, b + d) && Congruent(a - c, b - d)
  {}

  lemma CongruentScale(k: nat, a: int, b: int)
    requires Congruent(a, b)
    ensures Congruent(k * a, k * b)
  {
    var q := (a - b) / TWO64;
    assert a - b == TWO64 * q;
    assert k * a - k * b == k * (a - b) == TWO64 * (k * q);
    Multiple(k * q);
  }

  lemma Multiple(q: int)
    ensures (TWO64 * q) % TWO64 == 0
  {}

  lemma CongruentTrans(a: int, b: int, c: int)
    requires Congruent(a, b) && Congruent(b, c)
    ensures Congruent(a, c)
  {}

  lemma CongruentUnique(a: nat, b: nat)
    requires Congruent(a, b) && a < TWO64 && b < TWO64
    ensures a == b
  {}

  lemma Steps(baseHeight: int, height: int)
    ensures Congruent(Uint64(Int64(Int64(height - Int64(baseHeight + 1)) + 1)), height - baseHeight)
  {}

  /** Whatever wraps around on the way, the target is the base time plus one delay
      per epoch, modulo 2^64. */
  lemma TargetMeaning(delay: nat, baseTime: nat, baseHeight: int, height: int)
    ensures Congruent(Target(delay, baseTime, baseHeight, height), baseTime + delay * (height - baseHeight))
  {
    var steps := Uint64(Int64(Int64(height - Int64(baseHeight + 1)) + 1));
    Steps(baseHeight, height);
    CongruentScale(delay, steps, height - baseHeight);
    UintCongruent(delay * steps);
    CongruentTrans(Uint64(delay * steps), delay * steps, delay * (height - baseHeight));
    CongruentSum(baseTime, baseTime, Uint64(delay * steps), delay * (height - baseHeight));
    UintCongruent(baseTime + Uint64(delay * steps));
    CongruentTrans(Target(delay, baseTime, baseHeight, height), baseTime + Uint64(delay * steps),
                   baseTime + delay * (height - baseHeight));
  }

  // ---------- chains of validated blocks ----------

  /** The block passed the time checks on some clock. */
  ghost predicate PassedAt(delay: nat, min: nat, baseHeight: int, b: Block) {
    exists now: nat :: TimeOk(delay, min, baseHeight, b, now, ALLOWABLE_CLOCK_DRIFT)
  }

  /** Every block of the tipset passed the time checks on top of `base`. */
  ghost predicate Validated(delay: nat, base: TipSet, ts: TipSet) {
    && base != [] && ts != []
    && (forall b | b in ts :: b.height == ts[0].height)
    && (forall min, b | LeastTime(base, min) && b in ts :: PassedAt(delay, min, base[0].height, b))
  }

  lemma {:induction false} LeastExists(ts: TipSet) returns (base: Block)
    requires ts != []
    ensures base in ts && LeastTime(ts, base.timestamp)
  {
    base := ts[0];
    if |ts| > 1 {
      var least := LeastExists(ts[1..]);
      assert ts == [ts[0]] + ts[1..];
      if least.timestamp < base.timestamp { base := least; }
    }
  }

  /** From genesis at index 0, each tipset is validated on the one before it. */
  ghost predicate ValidChain(delay: nat, chain: seq<TipSet>) {
    && chain != [] && |chain[0]| == 1 && chain[0][0].height == 0 && chain[0][0].timestamp < TWO64
    && forall i | 0 < i < |chain| :: Validated(delay, chain[i - 1], chain[i])
  }

  predicate OnSchedule(delay: nat, genesis: nat, b: Block) {
    b.timestamp < TWO64 && Congruent(b.timestamp, genesis + delay * b.height)
  }

  lemma Chain(t: int, min: int, at: int, gap: int)
    requires Congruent(t, min + gap) && Congruent(min, at)
    ensures Congruent(t, at + gap)
  {}

  lemma Distributes(d: nat, from: int, to: int)
    ensures d * from + d * (to - from) == d * to
  {}

  lemma TargetFits(delay: nat, baseTime: nat, baseHeight: int, height: int)
    ensures Target(delay, baseTime, baseHeight, height) < TWO64
  {}

  lemma NextOnSchedule(delay: nat, genesis: nat, min: nat, baseHeight: int, b: Block, now: nat)
    requires OnSchedule(delay, genesis, Block(baseHeight, min)) && TimeOk(delay, min, baseHeight, b, now, ALLOWABLE_CLOCK_DRIFT)
    ensures OnSchedule(delay, genesis, b)
  {
    TargetMeaning(delay, min, baseHeight, b.height);
    Chain(b.timestamp, min, genesis + delay * baseHeight, delay * (b.height - baseHeight));
    Distributes(delay, baseHeight, b.height);
    TargetFits(delay, min, baseHeight, b.height);
  }

  /** Along any chain of validated blocks, with any null rounds between them, a
      block's timestamp is the genesis time plus one delay per epoch. */
  lemma {:induction false} TimestampsFollowHeights(delay: nat, chain: seq<TipSet>, i: nat, b: Block)
    requires ValidChain(delay, chain) && i < |chain| && b in chain[i]
    ensures OnSchedule(delay, chain[0][0].timestamp, b)
    decreases i
  {
    var genesis := chain[0][0].timestamp;
    if i == 0 {
      assert b == chain[0][0];
    } else {
      SameHeight(delay, chain, i, b);
      var base := LeastExists(chain[i - 1]);
      TimestampsFollowHeights(delay, chain, i - 1, base);
      SameHeight(delay, chain, i - 1, base);
      assert PassedAt(delay, base.timestamp, base.height, b);
      ChildOnSchedule(delay, genesis, base, b);
    }
  }

  lemma ChildOnSchedule(delay: nat, genesis: nat, base: Block, b: Block)
    requires OnSchedule(delay, genesis, base) && PassedAt(delay, base.timestamp, base.height, b)
    ensures OnSchedule(delay, genesis, b)
  {
    var now: nat :| TimeOk(delay, base.timestamp, base.height, b, now, ALLOWABLE_CLOCK_DRIFT);
    NextOnSchedule(delay, genesis, base.timestamp, base.height, b, now);
  }

  lemma SameHeight(delay: nat, chain: seq<TipSet>, i: nat, b: Block)
    requires ValidChain(delay, chain) && i < |chain| && b in chain[i]
    ensures chain[i] != [] && b.height == chain[i][0].height
    ensures i > 0 ==> chain[i - 1] != []
  {
    if i == 0 {
    } else {
      assert Validated(delay, chain[i - 1], chain[i]);
    }
  }

  /** Without wrap-around the relation is an equation. */
  lemma ExactTimestamp(delay: nat, genesis: nat, b: Block)
    requires OnSchedule(delay, genesis, b) && 0 <= genesis + delay * b.height < TWO64
    ensures b.timestamp == genesis + delay * b.height
  {}

  // ---------- the miner ----------

  /** Height and timestamp of the block `createBlock` asks for. */
  function CreateBlock(delay: nat, baseTime: nat, baseHeight: int, nullRounds: int): Block {
    Block(Int64(Int64(baseHeight + nullRounds) + 1), Uint64(baseTime + Uint64(delay * Uint64(Uint64(nullRounds) + 1))))
  }

  /** A templated block meets the timestamp rule, after any number of null rounds. */
  lemma TemplateMeetsTarget(delay: nat, baseTime: nat, baseHeight: int, nullRounds: int)
    ensures var b := CreateBlock(delay, baseTime, baseHeight, nullRounds);
            b.timestamp == Target(delay, baseTime, baseHeight, b.height)
  {
    var b := CreateBlock(delay, baseTime, baseHeight, nullRounds);
    var steps := Uint64(Uint64(nullRounds) + 1);
    TemplateSteps(baseHeight, nullRounds);
    CongruentScale(delay, steps, b.height - baseHeight);
    UintCongruent(delay * steps);
    CongruentTrans(Uint64(delay * steps), delay * steps, delay * (b.height - baseHeight));
    CongruentSum(baseTime, baseTime, Uint64(delay * steps), delay * (b.height - baseHeight));
    UintCongruent(baseTime + Uint64(delay * steps));
    var exact := baseTime + delay * (b.height - baseHeight);
    CongruentTrans(b.timestamp, baseTime + Uint64(delay * steps), exact);
    TargetMeaning(delay, baseTime, baseHeight, b.height);
    CongruentSum(b.timestamp, exact, Target(delay, baseTime, baseHeight, b.height), exact);
    CongruentUnique(b.timestamp, Target(delay, baseTime, baseHeight, b.height));
  }

  /** So it passes exactly if it is not ahead of the clock by more than the drift. */
  lemma TemplatePasses(delay: nat, baseTime: nat, baseHeight: int, nullRounds: int, now: nat, drift: nat)
    requires now + drift < TWO64
    ensures var b := CreateBlock(delay, baseTime, baseHeight, nullRounds);
            TimeOk(delay, baseTime, baseHeight, b, now, drift) <==> b.timestamp <= now + drift
  {
    TemplateMeetsTarget(delay, baseTime, baseHeight, nullRounds);
    SmallUint64(now + drift);
  }

  /** Without wrap-around: one epoch above the base and the null rounds, one delay each. */
  lemma TemplateExact(delay: nat, baseTime: nat, baseHeight: nat, nullRounds: nat)
    requires baseHeight + nullRounds + 1 < TWO63 && baseTime + delay * (nullRounds + 1) < TWO64
    ensures CreateBlock(delay, baseTime, baseHeight, nullRounds) ==
              Block(baseHeight + nullRounds + 1, baseTime + delay * (nullRounds + 1))
  {
    SmallInt64(baseHeight + nullRounds);
    SmallInt64(baseHeight + nullRounds + 1);
    SmallUint64(nullRounds);
    SmallUint64(nullRounds + 1);
    SmallUint64(delay * (nullRounds + 1));
  }

  lemma TemplateSteps(baseHeight: int, nullRounds: int)
    ensures Congruent(Uint64(Uint64(nullRounds) + 1), CreateBlock(0, 0, baseHeight, nullRounds).height - baseHeight)
  {}

  // ---------- the bound on heights ----------

  /** `IsEpochBeyondCurrMax`, with a genesis set. */
  predicate IsEpochBeyondCurrMax(delay: nat, genesis: nat, now: nat, epoch: int)
    requires delay > 0
  {
    epoch > Int64(Int64(Uint64(now - genesis) / delay) + MAX_HEIGHT_DRIFT)
  }

  lemma SmallInt64(x: int)
    requires -TWO63 <= x < TWO63
    ensures Int64(x) == x
  {}

  /** Delays of three seconds or more keep the quotient a small integer. */
  lemma QuotientSmall(x: nat, delay: nat)
    requires delay >= 3 && x < TWO64
    ensures 0 <= x / delay < TWO63 - MAX_HEIGHT_DRIFT
  {
    var k := TWO63 - MAX_HEIGHT_DRIFT;
    DivisionBound(x, delay, k);
    assert delay * k >= 3 * k > x;
    DivisionBound(x, delay, 0);
  }

  lemma BoundMeaning(delay: nat, genesis: nat, now: nat, height: int)
    requires delay >= 3
    ensures IsEpochBeyondCurrMax(delay, genesis, now, height) <==> height - MAX_HEIGHT_DRIFT > Uint64(now - genesis) / delay
    ensures Uint64(now - genesis) / delay >= 0
  {
    var q := Uint64(now - genesis) / delay;
    QuotientSmall(Uint64(now - genesis), delay);
    SmallInt64(q);
    SmallInt64(q + MAX_HEIGHT_DRIFT);
  }

  /** Once genesis time has passed, a block on schedule is beyond the bound exactly
      if its timestamp is more than five delays ahead of the clock. */
  lemma BeyondIff(delay: nat, genesis: nat, now: nat, height: int)
    requires delay >= 3 && genesis <= now < TWO64
    ensures IsEpochBeyondCurrMax(delay, genesis, now, height) <==>
              genesis + delay * height > now + delay * 5
  {
    BoundMeaning(delay, genesis, now, height);
    SmallUint64(now - genesis);
    DivisionBound(now - genesis, delay, height - MAX_HEIGHT_DRIFT);
    assert delay * (height - MAX_HEIGHT_DRIFT) == delay * height - delay * MAX_HEIGHT_DRIFT;
  }

  lemma SmallUint64(x: nat)
    requires x < TWO64
    ensures Uint64(x) == x
  {}

  lemma Cancel(d: nat, a: int, b: int)
    requires d > 0
    ensures d * a < d * b ==> a < b
  {
    assert a >= b ==> d * a >= d * b;
  }

  /** A block that passes the future-time check is never turned away by the height
      bound at the same clock, before or after genesis time, if the drift allowed is
      at most five delays, as the one second of the code is. */
  lemma PassingBlockWithinBound(delay: nat, genesis: nat, now: nat, drift: nat, b: Block, baseTime: nat, baseHeight: int)
    requires delay >= 3 && genesis < TWO64 && now + drift < TWO64 && drift <= MAX_HEIGHT_DRIFT * delay
    requires TimeOk(delay, baseTime, baseHeight, b, now, drift) && OnSchedule(delay, genesis, b)
    requires 0 <= b.height && genesis + delay * b.height < TWO64
    ensures !IsEpochBeyondCurrMax(delay, genesis, now, b.height)
  {
    SmallUint64(now + drift);
    ExactTimestamp(delay, genesis, b);
    if genesis <= now {
      BeyondIff(delay, genesis, now, b.height);
    } else {
      Cancel(delay, b.height, MAX_HEIGHT_DRIFT);
      BoundMeaning(delay, genesis, now, b.height);
    }
  }

  /** So along every chain of validated blocks, a block that passes on top of it with
      the drift of the code is within the height bound at that clock. */
  lemma ValidatedBlockWithinBound(delay: nat, chain: seq<TipSet>, base: Block, b: Block, now: nat)
    requires delay >= 3 && ValidChain(delay, chain) && base in chain[|chain| - 1]
    requires TimeOk(delay, base.timestamp, base.height, b, now, ALLOWABLE_CLOCK_DRIFT) && now + ALLOWABLE_CLOCK_DRIFT < TWO64
    requires 0 <= b.height && chain[0][0].timestamp + delay * b.height < TWO64
    ensures !IsEpochBeyondCurrMax(delay, chain[0][0].timestamp, now, b.height)
  {
    var genesis := chain[0][0].timestamp;
    TimestampsFollowHeights(delay, chain, |chain| - 1, base);
    NextOnSchedule(delay, genesis, base.timestamp, base.height, b, now);
    PassingBlockWithinBound(delay, genesis, now, ALLOWABLE_CLOCK_DRIFT, b, base.timestamp, base.height);
  }
}
