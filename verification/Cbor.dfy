/** The heads of RFC 8949, sections 3 and 3.1, with the readers and writers that
    the generated codecs are made of. */
module Cbor {
  import opened MachineInts

  type Byte = x: nat | x < 256

  const MAX_LENGTH := 8192
  const BYTE_ARRAY_MAX_LEN := 2097152

  const UNSIGNED := 0
  const NEGATIVE := 1
  const BYTE_STRING := 2
  const TEXT_STRING := 3
  const ARRAY := 4
  const MAP := 5

  /** `Unknown` is a map entry with a key the type does not have. */
  datatype Failure = Malformed | Unknown

  datatype Parsed<T> = Ok(value: T, rest: seq<Byte>) | Err(error: Failure)

  datatype Head = Head(major: nat, extra: nat)

  // ---------- big-endian integers ----------

  function Pow256(k: nat): nat {
    if k == 0 then 1 else 256 * Pow256(k - 1)
  }

  function BigEndian(n: nat, k: nat): (bs: seq<Byte>)
    ensures |bs| == k
  {
    if k == 0 then [] else BigEndian(n / 256, k - 1) + [n % 256]
  }

  function FromBigEndian(bs: seq<Byte>): nat {
    if bs == [] then 0 else 256 * FromBigEndian(bs[..|bs| - 1]) + bs[|bs| - 1]
  }

  lemma {:induction false} BigEndianRoundTrip(n: nat, k: nat)
    requires n < Pow256(k)
    ensures FromBigEndian(BigEndian(n, k)) == n
  {
    if k > 0 {
      BigEndianRoundTrip(n / 256, k - 1);
      assert BigEndian(n, k)[..k - 1] == BigEndian(n / 256, k - 1);
    }
  }

  lemma Powers()
    ensures Pow256(1) == 0x100 && Pow256(2) == 0x1_0000 && Pow256(4) == 0x1_0000_0000 && Pow256(8) == TWO64
  {}

  // ---------- heads ----------

  /** How many bytes hold the argument, after the initial one. */
  function Width(n: nat): nat {
    if n < 24 then 0
    else if n < 0x100 then 1
    else if n < 0x1_0000 then 2
    else if n < 0x1_0000_0000 then 4
    else 8
  }

  /** The additional information that announces a width. */
  function Announce(width: nat): nat {
    if width == 1 then 24 else if width == 2 then 25 else if width == 4 then 26 else 27
  }

  function EncodeHead(major: nat, n: nat): seq<Byte>
    requires major < 8
  {
    var width := Width(n);
    if width == 0 then [32 * major + n] else [32 * major + Announce(width)] + BigEndian(n, width)
  }

  function ReadBytes(s: seq<Byte>, n: nat): Parsed<seq<Byte>> {
    if |s| < n then Err(Malformed) else Ok(s[..n], s[n..])
  }

  /** The width that additional information 24 to 27 announces. */
  function AnnouncedBy(info: nat): nat {
    if info == 24 then 1 else if info == 25 then 2 else if info == 26 then 4 else 8
  }

  function ReadArgument(major: nat, info: nat, s: seq<Byte>): Parsed<Head> {
    if info < 24 then Ok(Head(major, info), s)
    else if info > 27 then Err(Malformed)
    else
      var arg := ReadBytes(s, AnnouncedBy(info));
      if arg.Err? then Err(Malformed) else Ok(Head(major, FromBigEndian(arg.value)), arg.rest)
  }

  function ReadHead(s: seq<Byte>): Parsed<Head> {
    if s == [] then Err(Malformed) else ReadArgument(s[0] / 32, s[0] % 32, s[1..])
  }

  lemma ReadBytesBack(bs: seq<Byte>, s: seq<Byte>)
    ensures ReadBytes(bs + s, |bs|) == Ok(bs, s)
  {}

  lemma ArgumentFits(n: nat)
    requires n < TWO64
    ensures n < Pow256(Width(n)) || n < 24
  {
    Powers();
  }

  lemma ReadLong(major: nat, bs: seq<Byte>, s: seq<Byte>)
    requires |bs| in {1, 2, 4, 8}
    ensures ReadArgument(major, Announce(|bs|), bs + s) == Ok(Head(major, FromBigEndian(bs)), s)
  {}

  lemma ReadInitial(major: nat, info: nat, s: seq<Byte>)
    requires major < 8 && info < 32
    ensures ReadHead([32 * major + info] + s) == ReadArgument(major, info, s)
  {}

  lemma LongHead(major: nat, bs: seq<Byte>, s: seq<Byte>)
    requires major < 8 && |bs| in {1, 2, 4, 8}
    ensures ReadHead([32 * major + Announce(|bs|)] + bs + s) == Ok(Head(major, FromBigEndian(bs)), s)
  {
    var first := [32 * major + Announce(|bs|)];
    assert first + bs + s == first + (bs + s);
    ReadInitial(major, Announce(|bs|), bs + s);
    ReadLong(major, bs, s);
  }

  /** A head is read back, whatever follows it. */
  lemma HeadRoundTrip(major: nat, n: nat, s: seq<Byte>)
    requires major < 8 && n < TWO64
    ensures ReadHead(EncodeHead(major, n) + s) == Ok(Head(major, n), s)
  {
    if Width(n) == 0 {
      ReadInitial(major, n, s);
    } else {
      ArgumentFits(n);
      BigEndianRoundTrip(n, Width(n));
      LongHead(major, BigEndian(n, Width(n)), s);
    }
  }

  // ---------- text keys ----------

  function EncodeText(text: seq<Byte>): seq<Byte> {
    EncodeHead(TEXT_STRING, |text|) + text
  }

  function ReadText(s: seq<Byte>): Parsed<seq<Byte>> {
    var head := ReadHead(s);
    if head.Err? then Err(head.error)
    else if head.value.major != TEXT_STRING || head.value.extra > MAX_LENGTH then Err(Malformed)
    else ReadBytes(head.rest, head.value.extra)
  }

  lemma TextRoundTrip(text: seq<Byte>, s: seq<Byte>)
    requires |text| <= MAX_LENGTH
    ensures ReadText(EncodeText(text) + s) == Ok(text, s)
  {
    assert EncodeText(text) + s == EncodeHead(TEXT_STRING, |text|) + (text + s);
    HeadRoundTrip(TEXT_STRING, |text|, text + s);
    ReadBytesBack(text, s);
  }

  // ---------- numbers ----------

  function ReadUnsigned(s: seq<Byte>): Parsed<nat> {
    var head := ReadHead(s);
    if head.Err? then Err(head.error)
    else if head.value.major != UNSIGNED then Err(Malformed)
    else Ok(head.value.extra, head.rest)
  }

  /** Negating and subtracting one, in 64 bits: the negation of the least integer
      wraps around to itself. */
  function NegMinusOne(e: int): int
    requires IsInt64(e) && e < 0
  {
    var neg := if e == -TWO63 then e else -e;
    if neg == -TWO63 then TWO63 - 1 else neg - 1
  }

  function EncodeInt(e: int): seq<Byte>
    requires IsInt64(e)
  {
    if e >= 0 then EncodeHead(UNSIGNED, e) else EncodeHead(NEGATIVE, NegMinusOne(e))
  }

  /** An unsigned 64-bit integer taken as a signed one. */
  function AsInt64(x: nat): int {
    if x < TWO63 then x else x - TWO64
  }

  function ReadInt(s: seq<Byte>): Parsed<int> {
    var head := ReadHead(s);
    if head.Err? then Err(head.error)
    else
      var i := AsInt64(head.value.extra);
      if head.value.major == UNSIGNED then (if i < 0 then Err(Malformed) else Ok(i, head.rest))
      else if head.value.major == NEGATIVE then (if i < 0 then Err(Malformed) else Ok(-1 - i, head.rest))
      else Err(Malformed)
  }

  /** Every 64-bit integer comes back, the least one included. */
  lemma IntRoundTrip(e: int, s: seq<Byte>)
    requires IsInt64(e)
    ensures ReadInt(EncodeInt(e) + s) == Ok(e, s)
  {
    if e >= 0 {
      HeadRoundTrip(UNSIGNED, e, s);
    } else {
      HeadRoundTrip(NEGATIVE, NegMinusOne(e), s);
    }
  }

  // ---------- map entries ----------

  /** Read `n` entries, each setting something of `t`. */
  function ReadEach<T>(step: (seq<Byte>, T) -> Parsed<T>, s: seq<Byte>, n: nat, t: T): Parsed<T>
    decreases n
  {
    if n == 0 then Ok(t, s)
    else
      var entry := step(s, t);
      if entry.Err? then entry else ReadEach(step, entry.rest, n - 1, entry.value)
  }

  function EncodeEach<E>(encode: E -> seq<Byte>, es: seq<E>): seq<Byte> {
    if es == [] then [] else encode(es[0]) + EncodeEach(encode, es[1..])
  }

  function SetEach<T, E>(assign: (T, E) -> T, t: T, es: seq<E>): T
    decreases |es|
  {
    if es == [] then t else SetEach(assign, assign(t, es[0]), es[1..])
  }

  lemma OneEach<T, E>(encode: E -> seq<Byte>, assign: (T, E) -> T, t: T, e: E)
    ensures EncodeEach(encode, [e]) == encode(e) && SetEach(assign, t, [e]) == assign(t, e)
  {
    assert [e][1..] == [];
    assert EncodeEach(encode, []) == [];
  }

  /** Entry `e` is read back on top of `t`. */
  ghost predicate ReadsBack<T(!new), E>(step: (seq<Byte>, T) -> Parsed<T>, encode: E -> seq<Byte>, assign: (T, E) -> T, e: E) {
    forall s: seq<Byte>, t: T :: step(encode(e) + s, t) == Ok(assign(t, e), s)
  }

  /** If each entry is read back, so are all of them in turn. */
  lemma {:induction false} EachBack<T(!new), E>(step: (seq<Byte>, T) -> Parsed<T>, encode: E -> seq<Byte>, assign: (T, E) -> T,
                                                es: seq<E>, s: seq<Byte>, t: T)
    requires forall i | 0 <= i < |es| :: ReadsBack(step, encode, assign, es[i])
    ensures ReadEach(step, EncodeEach(encode, es) + s, |es|, t) == Ok(SetEach(assign, t, es), s)
    decreases |es|
  {
    if es == [] {
      assert EncodeEach(encode, es) + s == s;
    } else {
      var tail := EncodeEach(encode, es[1..]) + s;
      assert EncodeEach(encode, es) + s == encode(es[0]) + tail;
      assert step(encode(es[0]) + tail, t) == Ok(assign(t, es[0]), tail);
      EachBack(step, encode, assign, es[1..], s, assign(t, es[0]));
    }
  }

  // ---------- streams ----------

  class Writer {
    var out: seq<Byte>

    constructor ()
      ensures out == []
    {
      out := [];
    }

    method Write(bs: seq<Byte>)
      modifies this
      ensures out == old(out) + bs
    {
      out := out + bs;
    }

    method WriteHead(major: nat, n: nat)
      requires major < 8
      modifies this
      ensures out == old(out) + EncodeHead(major, n)
    {
      Write(EncodeHead(major, n));
    }

    method WriteText(text: seq<Byte>)
      modifies this
      ensures out == old(out) + EncodeText(text)
    {
      WriteHead(TEXT_STRING, |text|);
      Write(text);
    }
  }

  class Reader {
    var rest: seq<Byte>

    constructor (input: seq<Byte>)
      ensures rest == input
    {
      rest := input;
    }

    /** Read a head, as the function does. */
    method NextHead() returns (failed: bool, head: Head)
      modifies this
      ensures failed == ReadHead(old(rest)).Err?
      ensures !failed ==> ReadHead(old(rest)) == Ok(head, rest)
    {
      var p := ReadHead(rest);
      if p.Err? { return true, Head(0, 0); }
      rest := p.rest;
      return false, p.value;
    }

    method NextBytes(n: nat) returns (failed: bool, bs: seq<Byte>)
      modifies this
      ensures failed == ReadBytes(old(rest), n).Err?
      ensures !failed ==> ReadBytes(old(rest), n) == Ok(bs, rest)
    {
      if |rest| < n { return true, []; }
      bs := rest[..n];
      rest := rest[n..];
      return false, bs;
    }

    method NextText() returns (failed: bool, text: seq<Byte>)
      modifies this
      ensures failed == ReadText(old(rest)).Err?
      ensures !failed ==> ReadText(old(rest)) == Ok(text, rest)
    {
      var bad, head := NextHead();
      if bad || head.major != TEXT_STRING || head.extra > MAX_LENGTH { return true, []; }
      failed, text := NextBytes(head.extra);
    }
  }
}
