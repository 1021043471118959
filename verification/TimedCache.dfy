/** The two-generation cache blockstore and what it retains over its whole history. */
module TimedCache {
  import opened Division
  import opened Options
  import opened TipSets

  /** A block; `basic` if it already is the plain in-memory kind. */
  datatype Block = Block(cid: Cid, data: seq<nat>, basic: bool)

  type Mem = map<Cid, Block>

  /** `MemBlockstore.Put`: a block that has to be converted is dropped if there is
      one under its key already. */
  function MemPut(m: Mem, b: Block): Mem {
    if !b.basic && b.cid in m then m else m[b.cid := b.(basic := true)]
  }

  datatype Event = Put(b: Block) | Delete(k: Cid) | Rotate

  datatype State = State(active: Mem, inactive: Mem)

  function Next(s: State, e: Event): State {
    match e
    case Put(b) => s.(active := MemPut(s.active, b))
    case Delete(k) => State(s.active - {k}, s.inactive - {k})
    case Rotate => State(map[], s.active)
  }

  /** The state a history leads to. */
  function After(es: seq<Event>): State {
    if es == [] then State(map[], map[]) else Next(After(es[..|es| - 1]), es[|es| - 1])
  }

  predicate Touches(e: Event, k: Cid) {
    (e.Put? && e.b.cid == k) || (e.Delete? && e.k == k)
  }

  function Rotations(es: seq<Event>): nat {
    if es == [] then 0 else Rotations(es[..|es| - 1]) + if es[|es| - 1].Rotate? then 1 else 0
  }

  /** Event `i` is a put of `k`, the last event about `k`, `n` rotations ago. */
  predicate LastPut(es: seq<Event>, k: Cid, i: nat, n: nat) {
    && i < |es| && es[i].Put? && es[i].b.cid == k
    && (forall j | i < j < |es| :: !Touches(es[j], k))
    && Rotations(es[i + 1..]) == n
  }

  /** The promise: the last put or delete of `k` is a put, fewer than two rotations ago. */
  ghost predicate Live(es: seq<Event>, k: Cid) {
    exists i: nat, n: nat :: LastPut(es, k, i, n) && n < 2
  }

  predicate Holds(s: State, k: Cid) {
    k in s.active || k in s.inactive
  }

  /** There is a put of `k` from `n` rotations ago, with no delete of `k` since. */
  predicate Alive(es: seq<Event>, k: Cid, n: nat) {
    es != [] &&
    var rest := es[..|es| - 1];
    match es[|es| - 1]
    case Put(b) => (b.cid == k && n == 0) || Alive(rest, k, n)
    case Delete(d) => d != k && Alive(rest, k, n)
    case Rotate => n > 0 && Alive(rest, k, n - 1)
  }

  lemma {:induction false} GenerationsAre(es: seq<Event>, k: Cid)
    ensures k in After(es).active <==> Alive(es, k, 0)
    ensures k in After(es).inactive <==> Alive(es, k, 1)
  {
    if es != [] {
      GenerationsAre(es[..|es| - 1], k);
    }
  }

  lemma {:induction false} AliveDeep(es: seq<Event>, k: Cid, n: nat)
    requires Alive(es, k, n)
    ensures exists i: nat, m: nat :: LastPut(es, k, i, m) && m <= n
  {
    var rest, e := es[..|es| - 1], es[|es| - 1];
    if e.Put? && e.b.cid == k {
      assert es[|es|..] == [];
      assert LastPut(es, k, |es| - 1, 0);
    } else {
      var n' := if e.Rotate? then n - 1 else n;
      AliveDeep(rest, k, n');
      var i: nat, m: nat :| LastPut(rest, k, i, m) && m <= n';
      LastPutGrows(es, k, i, m);
    }
  }

  /** An event that is not about `k` only ages its last put. */
  lemma LastPutGrows(es: seq<Event>, k: Cid, i: nat, m: nat)
    requires es != [] && !Touches(es[|es| - 1], k) && i < |es| - 1
    ensures var aged := if es[|es| - 1].Rotate? then m + 1 else m;
            LastPut(es[..|es| - 1], k, i, m) <==> LastPut(es, k, i, aged)
  {
    var rest := es[..|es| - 1];
    assert es[i + 1..][..|es| - i - 2] == rest[i + 1..];
    assert Rotations(es[i + 1..]) == Rotations(rest[i + 1..]) + if es[|es| - 1].Rotate? then 1 else 0;
    assert forall j | 0 <= j < |rest| :: rest[j] == es[j];
  }

  lemma {:induction false} LastPutAlive(es: seq<Event>, k: Cid, i: nat, n: nat)
    requires LastPut(es, k, i, n)
    ensures Alive(es, k, n)
  {
    if i == |es| - 1 {
      assert es[|es|..] == [];
    } else {
      var e := es[|es| - 1];
      assert !Touches(e, k);
      if e.Rotate? {
        assert es[i + 1..][|es| - i - 2] == e;
        LastPutGrows(es, k, i, n - 1);
        LastPutAlive(es[..|es| - 1], k, i, n - 1);
      } else {
        LastPutGrows(es, k, i, n);
        LastPutAlive(es[..|es| - 1], k, i, n);
      }
    }
  }

  /** Over every interleaving of puts, deletes and rotations: a key is held exactly
      if its last put or delete is a put with fewer than two rotations since. */
  lemma HeldIffLive(es: seq<Event>, k: Cid)
    ensures Holds(After(es), k) <==> Live(es, k)
  {
    GenerationsAre(es, k);
    if Holds(After(es), k) {
      AliveDeep(es, k, if Alive(es, k, 0) then 0 else 1);
    }
    if i: nat, n: nat :| LastPut(es, k, i, n) && n < 2 {
      LastPutAlive(es, k, i, n);
    }
  }

  /** Event `i` happened at `times[i]`, and up to `now` there was a rotation at
      every multiple of the interval. */
  predicate OnClock(es: seq<Event>, times: seq<nat>, interval: nat, now: nat)
    requires interval > 0
  {
    && |times| == |es|
    && forall i | 0 <= i < |es| :: times[i] <= now && Rotations(es[i + 1..]) == now / interval - times[i] / interval
  }

  lemma Quotients(t: nat, now: nat, d: nat)
    requires d > 0 && t <= now
    ensures now <= t + d ==> now / d <= t / d + 1
    ensures now >= t + 2 * d ==> now / d >= t / d + 2
  {
    var q := t / d;
    DivisionBound(t, d, q);
    DivisionBound(t, d, q + 1);
    DivisionBound(now, d, q + 2);
    Distributes(d, q);
  }

  lemma Distributes(d: nat, q: nat)
    ensures d * (q + 2) == d * q + 2 * d == d * (q + 1) + d
  {}

  /** A block that is put and not deleted stays for one interval, and it is gone,
      unless put again, after two. */
  lemma KeptOneIntervalGoneAfterTwo(es: seq<Event>, times: seq<nat>, interval: nat, now: nat, k: Cid, i: nat, n: nat)
    requires interval > 0 && OnClock(es, times, interval, now) && LastPut(es, k, i, n)
    ensures now <= times[i] + interval ==> Holds(After(es), k)
    ensures now >= times[i] + 2 * interval ==> !Holds(After(es), k)
  {
    HeldIffLive(es, k);
    Quotients(times[i], now, interval);
    if j: nat, m: nat :| LastPut(es, k, j, m) && m < 2 {
      assert Touches(es[i], k) && Touches(es[j], k);
      assert i == j;
    }
  }

  /** Puts under one key carry the same data. */
  predicate ContentAddressed(es: seq<Event>) {
    forall i, j | 0 <= i < |es| && 0 <= j < |es| && es[i].Put? && es[j].Put? && es[i].b.cid == es[j].b.cid ::
      es[i].b.data == es[j].b.data
  }

  /** Block `b` is what some put of the history left behind. */
  predicate FromPut(es: seq<Event>, b: Block) {
    exists i | 0 <= i < |es| :: es[i].Put? && b == es[i].b.(basic := true)
  }

  lemma {:induction false} BlocksFromPuts(es: seq<Event>, k: Cid)
    ensures k in After(es).active ==> After(es).active[k].cid == k && FromPut(es, After(es).active[k])
    ensures k in After(es).inactive ==> After(es).inactive[k].cid == k && FromPut(es, After(es).inactive[k])
  {
    if es != [] {
      var rest := es[..|es| - 1];
      BlocksFromPuts(rest, k);
      assert forall b | FromPut(rest, b) :: FromPut(es, b) by {
        forall b | FromPut(rest, b) ensures FromPut(es, b) {
          var i :| 0 <= i < |rest| && rest[i].Put? && b == rest[i].b.(basic := true);
          assert es[i] == rest[i];
        }
      }
      if es[|es| - 1].Put? {
        assert FromPut(es, es[|es| - 1].b.(basic := true));
      }
    }
  }

  function Lookup(s: State, k: Cid): Option<Block> {
    if k in s.active then Some(s.active[k]) else if k in s.inactive then Some(s.inactive[k]) else None
  }

  /** What is found under a key is the data put there. */
  lemma FoundIsPut(es: seq<Event>, k: Cid, i: nat)
    requires ContentAddressed(es) && i < |es| && es[i].Put? && es[i].b.cid == k && Holds(After(es), k)
    ensures Lookup(After(es), k) == Some(es[i].b.(basic := true))
  {
    BlocksFromPuts(es, k);
  }

  class TimedCacheBlockstore {
    var active: Mem
    var inactive: Mem
    /** everything that has happened */
    ghost var events: seq<Event>

    ghost predicate Valid()
      reads this
    {
      State(active, inactive) == After(events)
    }

    constructor ()
      ensures Valid() && events == []
    {
      active, inactive, events := map[], map[], [];
    }

    ghost method Record(e: Event)
      modifies this`events
      ensures events == old(events) + [e] && After(events) == Next(After(old(events)), e)
    {
      assert (events + [e])[..|events|] == events;
      events := events + [e];
    }

    method RotateGenerations()
      requires Valid()
      modifies this
      ensures Valid() && events == old(events) + [Rotate]
    {
      Record(Rotate);
      inactive, active := active, map[];
    }

    method PutBlock(b: Block)
      requires Valid()
      modifies this
      ensures Valid() && events == old(events) + [Put(b)]
    {
      Record(Put(b));
      if !b.basic {
        if b.cid in active { return; }
      }
      active := active[b.cid := b.(basic := true)];
    }

    method PutMany(bs: seq<Block>)
      requires Valid()
      modifies this
      ensures Valid() && events == old(events) + seq(|bs|, i requires 0 <= i < |bs| => Put(bs[i]))
    {
      for i := 0 to |bs|
        invariant Valid() && events == old(events) + seq(i, k requires 0 <= k < i => Put(bs[k]))
      {
        PutBlock(bs[i]);
      }
    }

    method DeleteBlock(k: Cid)
      requires Valid()
      modifies this
      ensures Valid() && events == old(events) + [Delete(k)]
    {
      Record(Delete(k));
      active := active - {k};
      inactive := inactive - {k};
    }

    method DeleteMany(ks: seq<Cid>)
      requires Valid()
      modifies this
      ensures Valid() && events == old(events) + seq(|ks|, i requires 0 <= i < |ks| => Delete(ks[i]))
    {
      for i := 0 to |ks|
        invariant Valid() && events == old(events) + seq(i, k requires 0 <= k < i => Delete(ks[k]))
      {
        DeleteBlock(ks[i]);
      }
    }

    method Get(k: Cid) returns (r: Option<Block>)
      requires Valid()
      ensures r.Some? <==> Live(events, k)
      ensures r == Lookup(After(events), k)
    {
      HeldIffLive(events, k);
      if k in active { return Some(active[k]); }
      if k in inactive { return Some(inactive[k]); }
      return None;
    }

    method Has(k: Cid) returns (r: bool)
      requires Valid()
      ensures r <==> Live(events, k)
    {
      HeldIffLive(events, k);
      if k in active { return true; }
      return k in inactive;
    }

    /** Lists the live keys, each once. */
    method AllKeysChan() returns (ks: seq<Cid>)
      requires Valid()
      ensures forall k :: k in ks <==> Live(events, k)
      ensures forall i, j | 0 <= i < j < |ks| :: ks[i] != ks[j]
    {
      ks := [];
      var todo := active.Keys;
      while todo != {}
        invariant todo <= active.Keys && forall k :: k in ks <==> k in active.Keys - todo
        invariant forall i, j | 0 <= i < j < |ks| :: ks[i] != ks[j]
      {
        var c :| c in todo;
        assert c !in ks && forall i | 0 <= i < |ks| :: ks[i] in ks;
        todo := todo - {c};
        ks := ks + [c];
      }
      todo := inactive.Keys;
      while todo != {}
        invariant todo <= inactive.Keys && forall k :: k in ks <==> k in active.Keys + (inactive.Keys - todo)
        invariant forall i, j | 0 <= i < j < |ks| :: ks[i] != ks[j]
      {
        var c :| c in todo;
        if c !in active { assert c !in ks && forall i | 0 <= i < |ks| :: ks[i] in ks; }
        todo := todo - {c};
        if c in active { continue; }
        ks := ks + [c];
      }
      forall k ensures k in ks <==> Live(events, k) {
        HeldIffLive(events, k);
      }
    }
  }
}
