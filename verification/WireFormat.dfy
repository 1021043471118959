/** The bytes on the wire, in literals: the heads of section 3.1 of RFC 8949 and, made of
    them, the maps of the sealing API. */
module WireFormat {
  import opened MachineInts
  import opened Cbor
  import opened SealCodec
  import opened SealTickets

  // ---------- heads ----------

  /** Byte `k` of a number, counted from the least significant one. */
  function ByteOf(n: nat, k: nat): Byte {
    if k == 0 then n % 0x100
    else if k == 1 then n / 0x100 % 0x100
    else if k == 2 then n / 0x1_0000 % 0x100
    else if k == 3 then n / 0x100_0000 % 0x100
    else if k == 4 then n / 0x1_0000_0000 % 0x100
    else if k == 5 then n / 0x100_0000_0000 % 0x100
    else if k == 6 then n / 0x1_0000_0000_0000 % 0x100
    else n / 0x100_0000_0000_0000 % 0x100
  }

  /** The head with the major type in the top three bits of `major` and argument `n`: in
      the initial byte, or in the 1, 2, 4 or 8 bytes after it, most significant first. */
  function HeadBytes(major: nat, n: nat): seq<Byte>
    requires major <= 0xe0
  {
    if n < 24 then [major + n]
    else if n < 0x100 then [major + 24, n]
    else if n < 0x1_0000 then [major + 25, ByteOf(n, 1), ByteOf(n, 0)]
    else if n < 0x1_0000_0000 then [major + 26, ByteOf(n, 3), ByteOf(n, 2), ByteOf(n, 1), ByteOf(n, 0)]
    else [major + 27, ByteOf(n, 7), ByteOf(n, 6), ByteOf(n, 5), ByteOf(n, 4), ByteOf(n, 3), ByteOf(n, 2), ByteOf(n, 1), ByteOf(n, 0)]
  }

  lemma Divisions(n: nat)
    ensures n / 0x100 / 0x100 == n / 0x1_0000
    ensures n / 0x1_0000 / 0x100 == n / 0x100_0000
    ensures n / 0x100_0000 / 0x100 == n / 0x1_0000_0000
    ensures n / 0x1_0000_0000 / 0x100 == n / 0x100_0000_0000
  {}

  lemma MoreDivisions(n: nat)
    ensures n / 0x100_0000_0000 / 0x100 == n / 0x1_0000_0000_0000
    ensures n / 0x1_0000_0000_0000 / 0x100 == n / 0x100_0000_0000_0000
  {}

  lemma LastByte(n: nat, k: nat)
    ensures BigEndian(n, k + 1) == BigEndian(n / 0x100, k) + [n % 0x100]
  {}

  lemma TwoBytes(n: nat)
    ensures BigEndian(n, 1) == [ByteOf(n, 0)] && BigEndian(n, 2) == [ByteOf(n, 1), ByteOf(n, 0)]
  {
    LastByte(n, 0);
    LastByte(n, 1);
    LastByte(n / 0x100, 0);
  }

  lemma FourBytes(n: nat)
    ensures BigEndian(n, 4) == [ByteOf(n, 3), ByteOf(n, 2), ByteOf(n, 1), ByteOf(n, 0)]
  {
    TwoBytes(n / 0x100 / 0x100);
    LastByte(n, 3);
    LastByte(n / 0x100, 2);
    Divisions(n);
  }

  lemma EightBytes(n: nat)
    ensures BigEndian(n, 8) == [ByteOf(n, 7), ByteOf(n, 6), ByteOf(n, 5), ByteOf(n, 4), ByteOf(n, 3), ByteOf(n, 2), ByteOf(n, 1), ByteOf(n, 0)]
  {
    var top := n / 0x1_0000_0000;
    TopBytes(n);
    LastByte(n, 7);
    LastByte(n / 0x100, 6);
    LastByte(n / 0x1_0000, 5);
    LastByte(n / 0x100_0000, 4);
    Divisions(n);
    FourBytes(top);
  }

  lemma TopBytes(n: nat)
    ensures var top := n / 0x1_0000_0000;
            && ByteOf(top, 0) == ByteOf(n, 4) && ByteOf(top, 1) == ByteOf(n, 5)
            && ByteOf(top, 2) == ByteOf(n, 6) && ByteOf(top, 3) == ByteOf(n, 7)
  {
    var top := n / 0x1_0000_0000;
    Divisions(n);
    MoreDivisions(n);
    Divisions(top);
  }

  lemma HeadIs(major: nat, n: nat)
    requires major < 8 && n < TWO64
    ensures EncodeHead(major, n) == HeadBytes(0x20 * major, n)
  {
    if n >= 0x1_0000_0000 {
      EightBytes(n);
    } else if n >= 0x1_0000 {
      FourBytes(n);
    } else {
      TwoBytes(n);
    }
  }

  /** The heads that are written: the literals of the major types and the five ranges of
      the argument. */
  lemma HeadsAre(n: nat)
    requires n < TWO64
    ensures EncodeHead(UNSIGNED, n) == HeadBytes(0x00, n)
    ensures EncodeHead(NEGATIVE, n) == HeadBytes(0x20, n)
    ensures EncodeHead(BYTE_STRING, n) == HeadBytes(0x40, n)
    ensures EncodeHead(TEXT_STRING, n) == HeadBytes(0x60, n)
    ensures EncodeHead(ARRAY, n) == HeadBytes(0x80, n)
    ensures EncodeHead(MAP, n) == HeadBytes(0xa0, n)
  {
    HeadIs(UNSIGNED, n);
    HeadIs(NEGATIVE, n);
    HeadIs(BYTE_STRING, n);
    HeadIs(TEXT_STRING, n);
    HeadIs(ARRAY, n);
    HeadIs(MAP, n);
  }

  // ---------- keys ----------

  predicate Ascii(s: string) {
    forall i | 0 <= i < |s| :: s[i] as int < 128
  }

  function Chars(s: string): seq<Byte>
    requires Ascii(s)
  {
    seq(|s|, i requires 0 <= i < |s| => s[i] as int)
  }

  lemma RefKeysAre()
    ensures SECTOR_ID == Chars("SectorID") && OFFSET == Chars("Offset") && SIZE == Chars("Size") && REFS == Chars("Refs")
  {}

  lemma TicketKeysAre()
    ensures VALUE == Chars("Value") && EPOCH == Chars("Epoch")
  {}

  lemma KeyIs(text: seq<Byte>)
    requires |text| < 24
    ensures EncodeText(text) == [0x60 + |text|] + text
  {
    HeadsAre(|text|);
  }

  // ---------- the maps ----------

  /** The key characters after their length, and the number. */
  function NumberEntry(key: string, n: nat): seq<Byte>
    requires Ascii(key) && |key| < 24
  {
    [0x60 + |key|] + Chars(key) + HeadBytes(0x00, n)
  }

  function RefBytes(t: Ref): seq<Byte> {
    [0xa3] + (NumberEntry("SectorID", t.sectorID) + (NumberEntry("Offset", t.offset) + NumberEntry("Size", t.size)))
  }

  lemma EntryIs(e: RefEntry, key: string)
    requires e.n < TWO64 && Ascii(key) && |key| < 24 && RefKey(e) == Chars(key)
    ensures EncodeRefEntry(e) == NumberEntry(key, e.n)
  {
    KeyIs(RefKey(e));
    HeadsAre(e.n);
  }

  /** A `SealedRef` on the wire. */
  lemma RefIs(t: Ref)
    requires ValidRef(t)
    ensures EncodeRef(t) == RefBytes(t)
  {
    RefKeysAre();
    EntryIs(SectorID(t.sectorID), "SectorID");
    EntryIs(Offset(t.offset), "Offset");
    EntryIs(Size(t.size), "Size");
    ThreeEntries(SectorID(t.sectorID), Offset(t.offset), Size(t.size));
    assert [163] == [0xa3];
  }

  function AllRefBytes(refs: seq<Ref>): seq<Byte> {
    if refs == [] then [] else AllRefBytes(refs[..|refs| - 1]) + RefBytes(refs[|refs| - 1])
  }

  lemma {:induction false} AllRefsAre(refs: seq<Ref>)
    requires forall i | 0 <= i < |refs| :: ValidRef(refs[i])
    ensures RefMaps(EntriesOfAll(refs)) == AllRefBytes(refs)
  {
    if refs != [] {
      var n := |refs| - 1;
      AllRefsAre(refs[..n]);
      RefIs(refs[n]);
      OneMore([], refs, n);
      assert refs[..n + 1] == refs;
      Empty(RefMaps(EntriesOfAll(refs[..n])), EncodeRef(refs[n]), RefMaps(EntriesOfAll(refs)));
    }
  }

  lemma Empty(a: seq<Byte>, b: seq<Byte>, c: seq<Byte>)
    requires [] + a + b == [] + c
    ensures a + b == c
  {
    assert [] + a == a && [] + c == c;
  }

  function RefsBytes(refs: seq<Ref>): seq<Byte> {
    [0xa1] + ([0x64] + Chars("Refs")) + HeadBytes(0x80, |refs|) + AllRefBytes(refs)
  }

  /** A `SealedRefs` on the wire. */
  lemma RefsAre(refs: seq<Ref>)
    requires |refs| <= MAX_LENGTH && forall i | 0 <= i < |refs| :: ValidRef(refs[i])
    ensures EncodeRefs(refs) == RefsBytes(refs)
  {
    RefKeysAre();
    KeyIs(REFS);
    MapOfOne();
    HeadsAre(|refs|);
    AllRefsAre(refs);
  }

  function EpochBytes(e: int): seq<Byte> {
    if e >= 0 then HeadBytes(0x00, e) else HeadBytes(0x20, -1 - e)
  }

  function TicketBytes(t: Ticket): seq<Byte> {
    [0xa2] + ([0x65] + Chars("Value") + (HeadBytes(0x40, |t.value|) + t.value) + ([0x65] + Chars("Epoch") + EpochBytes(t.epoch)))
  }

  lemma EpochIs(e: int)
    requires IsInt64(e)
    ensures EncodeInt(e) == EpochBytes(e)
  {
    if e >= 0 {
      HeadsAre(e);
    } else {
      HeadsAre(-1 - e);
    }
  }

  /** A `SealTicket` or `SealSeed` on the wire. */
  lemma TicketIs(t: Ticket)
    requires ValidTicket(t)
    ensures EncodeTicket(t) == TicketBytes(t)
  {
    TicketKeysAre();
    KeyIs(VALUE);
    KeyIs(EPOCH);
    HeadsAre(|t.value|);
    EpochIs(t.epoch);
    TwoEntries(Value(t.value), Epoch(t.epoch));
    assert EncodeEntry(Value(t.value)) == [0x65] + Chars("Value") + (HeadBytes(0x40, |t.value|) + t.value);
    assert EncodeEntry(Epoch(t.epoch)) == [0x65] + Chars("Epoch") + EpochBytes(t.epoch);
  }
}
