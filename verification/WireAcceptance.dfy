/** Exactly which bytes the decoders accept, in both directions: known keys, heads with the
    major type asked for and of any width that holds their argument, and lengths within
    the limits. Skipping entries with unknown keys is not part of this model. */
module WireAcceptance {
  import opened MachineInts
  import opened Cbor
  import opened SealCodec
  import opened SealTickets

  // ---------- heads ----------

  lemma {:induction false} BigEndianBack(bs: seq<Byte>)
    ensures BigEndian(FromBigEndian(bs), |bs|) == bs && FromBigEndian(bs) < Pow256(|bs|)
  {
    if bs != [] {
      var front, last := bs[..|bs| - 1], bs[|bs| - 1];
      BigEndianBack(front);
      assert (256 * FromBigEndian(front) + last) / 256 == FromBigEndian(front);
      assert (256 * FromBigEndian(front) + last) % 256 == last;
      assert bs == front + [last];
    }
  }

  /** A head with the argument in `w` bytes after the initial one. */
  predicate HasWidth(h: seq<Byte>, major: nat, n: nat, w: nat) {
    && major < 8
    && if w == 0 then n < 24 && h == [32 * major + n]
       else w in {1, 2, 4, 8} && n < Pow256(w) && h == [32 * major + Announce(w)] + BigEndian(n, w)
  }

  predicate IsHead(h: seq<Byte>, major: nat, n: nat) {
    exists w: nat | w <= 8 :: HasWidth(h, major, n, w)
  }

  lemma HeadReads(h: seq<Byte>, major: nat, n: nat, rest: seq<Byte>)
    requires IsHead(h, major, n)
    ensures ReadHead(h + rest) == Ok(Head(major, n), rest)
  {
    var w: nat :| w <= 8 && HasWidth(h, major, n, w);
    if w == 0 {
      ReadInitial(major, n, rest);
    } else {
      BigEndianRoundTrip(n, w);
      LongHead(major, BigEndian(n, w), rest);
    }
  }

  lemma ArgumentSplits(major: nat, info: nat, s: seq<Byte>)
    requires major < 8 && info < 32 && ReadArgument(major, info, s).Ok?
    ensures var p := ReadArgument(major, info, s);
            var h := [32 * major + info] + s[..|s| - |p.rest|];
            |p.rest| <= |s| && p.value.major == major && IsHead(h, major, p.value.extra) && [32 * major + info] + s == h + p.rest
  {
    var p := ReadArgument(major, info, s);
    if info < 24 {
      assert HasWidth([32 * major + info] + s[..0], major, info, 0);
    } else {
      var w := AnnouncedBy(info);
      BigEndianBack(s[..w]);
      assert |s| - |p.rest| == w;
      assert HasWidth([32 * major + info] + s[..w], major, p.value.extra, w);
    }
  }

  lemma HeadSplits(s: seq<Byte>) returns (h: seq<Byte>)
    requires ReadHead(s).Ok?
    ensures var p := ReadHead(s); p.value.major < 8 && s == h + p.rest && IsHead(h, p.value.major, p.value.extra)
  {
    var major, info := s[0] / 32, s[0] % 32;
    assert s == [32 * major + info] + s[1..];
    ArgumentSplits(major, info, s[1..]);
    h := [32 * major + info] + s[1..][..|s| - 1 - |ReadHead(s).rest|];
  }

  /** A head is read exactly from a head of some width. */
  lemma ReadHeadIff(s: seq<Byte>, major: nat, n: nat, rest: seq<Byte>)
    ensures ReadHead(s) == Ok(Head(major, n), rest) <==> exists h :: IsHead(h, major, n) && s == h + rest
  {
    if ReadHead(s) == Ok(Head(major, n), rest) {
      var h := HeadSplits(s);
    }
    if h :| IsHead(h, major, n) && s == h + rest {
      HeadReads(h, major, n, rest);
    }
  }

  lemma ArgumentIs64(h: seq<Byte>, major: nat, n: nat)
    requires IsHead(h, major, n)
    ensures n < TWO64
  {
    Powers();
    var w: nat :| w <= 8 && HasWidth(h, major, n, w);
  }

  // ---------- values ----------

  /** A key is read exactly from a text string of at most 8192 bytes. */
  lemma ReadTextIff(s: seq<Byte>, text: seq<Byte>, rest: seq<Byte>)
    ensures ReadText(s) == Ok(text, rest) <==> |text| <= 8192 && exists h :: IsHead(h, 3, |text|) && s == h + (text + rest)
  {
    if ReadText(s) == Ok(text, rest) {
      var head := ReadHead(s);
      assert head.rest == text + rest;
      ReadHeadIff(s, 3, |text|, text + rest);
    }
    if h :| IsHead(h, 3, |text|) && s == h + (text + rest) {
      HeadReads(h, 3, |text|, text + rest);
      ReadBytesBack(text, rest);
    }
  }

  lemma ReadUnsignedIff(s: seq<Byte>, n: nat, rest: seq<Byte>)
    ensures ReadUnsigned(s) == Ok(n, rest) <==> exists h :: IsHead(h, 0, n) && s == h + rest
  {
    ReadHeadIff(s, 0, n, rest);
  }

  predicate IsIntHead(h: seq<Byte>, e: int) {
    IsInt64(e) && if e >= 0 then IsHead(h, 0, e) else IsHead(h, 1, -1 - e)
  }

  lemma IntReads(h: seq<Byte>, e: int, rest: seq<Byte>)
    requires IsIntHead(h, e)
    ensures ReadInt(h + rest) == Ok(e, rest)
  {
    if e >= 0 {
      HeadReads(h, 0, e, rest);
    } else {
      HeadReads(h, 1, -1 - e, rest);
    }
  }

  lemma IntSplits(s: seq<Byte>) returns (h: seq<Byte>)
    requires ReadInt(s).Ok?
    ensures s == h + ReadInt(s).rest && IsIntHead(h, ReadInt(s).value)
  {
    h := HeadSplits(s);
    var head := ReadHead(s).value;
    ArgumentIs64(h, head.major, head.extra);
  }

  /** A signed number is read exactly from a head of major type 0 or 1 within 64 bits. */
  lemma ReadIntIff(s: seq<Byte>, e: int, rest: seq<Byte>)
    ensures ReadInt(s) == Ok(e, rest) <==> exists h :: IsIntHead(h, e) && s == h + rest
  {
    if ReadInt(s) == Ok(e, rest) {
      var h := IntSplits(s);
    }
    if h :| IsIntHead(h, e) && s == h + rest {
      IntReads(h, e, rest);
    }
  }

  /** An entry of a `SealedRef` is read exactly as one of the three keys with an unsigned
      number. */
  lemma RefEntryIff(s: seq<Byte>, t: Ref, t': Ref, rest: seq<Byte>)
    ensures ReadRefEntry(s, t) == Ok(t', rest) <==>
              exists e, tail :: ReadText(s) == Ok(RefKey(e), tail) && ReadUnsigned(tail) == Ok(e.n, rest) && t' == SetRef(t, e)
  {
    assert |SECTOR_ID| == 8 && |OFFSET| == 6 && |SIZE| == 4;
    if ReadRefEntry(s, t) == Ok(t', rest) {
      var key := ReadText(s);
      var n := ReadUnsigned(key.rest).value;
      var e := if key.value == SECTOR_ID then SectorID(n) else if key.value == OFFSET then Offset(n) else Size(n);
      assert ReadText(s) == Ok(RefKey(e), key.rest) && ReadUnsigned(key.rest) == Ok(e.n, rest);
    }
  }

  /** An array head `h` of `n` references before `tail`, which gives `out`. */
  predicate ArrayOf(h: seq<Byte>, n: nat, tail: seq<Byte>, refs: seq<Ref>, out: seq<Ref>, rest: seq<Byte>) {
    && IsHead(h, 4, n) && n <= 8192
    && if n == 0 then out == refs && rest == tail else ReadRefs(tail, n) == Ok(out, rest)
  }

  lemma ArrayReads(h: seq<Byte>, n: nat, tail: seq<Byte>, refs: seq<Ref>, out: seq<Ref>, rest: seq<Byte>)
    requires ArrayOf(h, n, tail, refs, out, rest)
    ensures ReadRefsField(h + tail, refs) == Ok(out, rest)
  {
    HeadReads(h, 4, n, tail);
  }

  lemma ArraySplits(s: seq<Byte>, refs: seq<Ref>) returns (h: seq<Byte>)
    requires ReadRefsField(s, refs).Ok?
    ensures var p, head := ReadRefsField(s, refs), ReadHead(s);
            head.Ok? && s == h + head.rest && ArrayOf(h, head.value.extra, head.rest, refs, p.value, p.rest)
  {
    h := HeadSplits(s);
  }

  /** An array of references is accepted exactly with a head of major type 4, at most 8192
      elements, each of which is accepted. */
  lemma RefsFieldIff(s: seq<Byte>, refs: seq<Ref>, out: seq<Ref>, rest: seq<Byte>)
    ensures ReadRefsField(s, refs) == Ok(out, rest) <==>
              exists h, n, tail :: ArrayOf(h, n, tail, refs, out, rest) && s == h + tail
  {
    if ReadRefsField(s, refs) == Ok(out, rest) {
      var h := ArraySplits(s, refs);
    }
    if h, n, tail :| ArrayOf(h, n, tail, refs, out, rest) && s == h + tail {
      ArrayReads(h, n, tail, refs, out, rest);
    }
  }

  /** A byte string head `h` of length `n` before the bytes `value`, where there were
      `before` of them: an empty string takes as many bytes as there were. */
  predicate BytesOf(h: seq<Byte>, n: nat, value: seq<Byte>, before: nat) {
    IsHead(h, 2, n) && n <= 2097152 && |value| == if n > 0 then n else before
  }

  lemma ValueReads(h: seq<Byte>, n: nat, value: seq<Byte>, t: Ticket, rest: seq<Byte>)
    requires BytesOf(h, n, value, |t.value|)
    ensures ReadValue(h + (value + rest), t) == Ok(t.(value := value), rest)
  {
    HeadReads(h, 2, n, value + rest);
    ReadBytesBack(value, rest);
  }

  lemma ValueSplits(s: seq<Byte>, t: Ticket) returns (h: seq<Byte>)
    requires ReadValue(s, t).Ok?
    ensures var p, head := ReadValue(s, t), ReadHead(s);
            && head.Ok? && s == h + (p.value.value + p.rest)
            && p.value == t.(value := p.value.value) && BytesOf(h, head.value.extra, p.value.value, |t.value|)
  {
    h := HeadSplits(s);
    assert ReadHead(s).rest == ReadValue(s, t).value.value + ReadValue(s, t).rest;
  }

  /** The bytes of a ticket are accepted exactly with a head of major type 2 and at most
      two mebibytes. */
  lemma ValueIff(s: seq<Byte>, t: Ticket, t': Ticket, rest: seq<Byte>)
    ensures ReadValue(s, t) == Ok(t', rest) <==>
              && t' == t.(value := t'.value)
              && exists h, n :: BytesOf(h, n, t'.value, |t.value|) && s == h + (t'.value + rest)
  {
    if ReadValue(s, t) == Ok(t', rest) {
      var h := ValueSplits(s, t);
    }
    if h, n :| BytesOf(h, n, t'.value, |t.value|) && s == h + (t'.value + rest) {
      ValueReads(h, n, t'.value, t, rest);
    }
  }

  /** An entry of a ticket is read exactly as one of the two keys with its kind of value. */
  lemma TicketEntryIff(s: seq<Byte>, t: Ticket, t': Ticket, rest: seq<Byte>)
    ensures ReadEntry(s, t) == Ok(t', rest) <==>
              exists tail ::
                || (ReadText(s) == Ok(VALUE, tail) && ReadValue(tail, t) == Ok(t', rest))
                || (ReadText(s) == Ok(EPOCH, tail) && ReadInt(tail) == Ok(t'.epoch, rest) && t' == t.(epoch := t'.epoch))
  {
    assert VALUE[0] != EPOCH[0];
    if ReadEntry(s, t) == Ok(t', rest) {
      var key := ReadText(s);
      assert ReadText(s) == Ok(key.value, key.rest);
    }
  }

  lemma RefsEntryIff(s: seq<Byte>, refs: seq<Ref>, out: seq<Ref>, rest: seq<Byte>)
    ensures ReadRefsEntry(s, refs) == Ok(out, rest) <==>
              exists tail :: ReadText(s) == Ok(REFS, tail) && ReadRefsField(tail, refs) == Ok(out, rest)
  {
    if ReadRefsEntry(s, refs) == Ok(out, rest) {
      assert ReadText(s) == Ok(REFS, ReadText(s).rest);
    }
  }

  // ---------- maps ----------

  /** A map is a head of major type 5 with at most 8192 entries, read in turn. */
  ghost predicate MapOf<T(!new)>(step: (seq<Byte>, T) -> Parsed<T>, empty: T, s: seq<Byte>, t: T, rest: seq<Byte>) {
    exists h, n: nat, tail :: IsHead(h, 5, n) && n <= 8192 && s == h + tail && ReadEach(step, tail, n, empty) == Ok(t, rest)
  }

  lemma MapSplits<T(!new)>(step: (seq<Byte>, T) -> Parsed<T>, empty: T, s: seq<Byte>, t: T, rest: seq<Byte>)
    ensures MapOf(step, empty, s, t, rest) <==>
              var head := ReadHead(s);
              head.Ok? && head.value.major == 5 && head.value.extra <= 8192
              && ReadEach(step, head.rest, head.value.extra, empty) == Ok(t, rest)
  {
    if h, n: nat, tail :| IsHead(h, 5, n) && n <= 8192 && s == h + tail && ReadEach(step, tail, n, empty) == Ok(t, rest) {
      HeadReads(h, 5, n, tail);
    }
    if ReadHead(s).Ok? {
      var h := HeadSplits(s);
    }
  }

  lemma RefIff(s: seq<Byte>, t: Ref, rest: seq<Byte>)
    ensures DecodeRef(s) == Ok(t, rest) <==> MapOf(ReadRefEntry, Ref(0, 0, 0), s, t, rest)
  {
    MapSplits(ReadRefEntry, Ref(0, 0, 0), s, t, rest);
  }

  lemma RefsIff(s: seq<Byte>, refs: seq<Ref>, rest: seq<Byte>)
    ensures DecodeRefs(s) == Ok(refs, rest) <==> MapOf(ReadRefsEntry, [], s, refs, rest)
  {
    MapSplits(ReadRefsEntry, [], s, refs, rest);
  }

  lemma {:induction false} TicketEntriesAre(s: seq<Byte>, n: nat, t: Ticket)
    ensures ReadEntries(s, n, t) == ReadEach(ReadEntry, s, n, t)
    decreases n
  {
    if n > 0 && ReadEntry(s, t).Ok? {
      TicketEntriesAre(ReadEntry(s, t).rest, n - 1, ReadEntry(s, t).value);
    }
  }

  lemma TicketIff(s: seq<Byte>, t: Ticket, rest: seq<Byte>)
    ensures DecodeTicket(s) == Ok(t, rest) <==> MapOf(ReadEntry, Ticket([], 0), s, t, rest)
  {
    MapSplits(ReadEntry, Ticket([], 0), s, t, rest);
    if ReadHead(s).Ok? {
      TicketEntriesAre(ReadHead(s).rest, ReadHead(s).value.extra, NO_TICKET);
    }
  }
}
