/** `SealTicket` and `SealSeed`: a map of a byte string and a signed epoch. The two
    types have the same fields and the same encoding. */
module SealTickets {
  import opened MachineInts
  import opened Cbor
  import opened SealCodec

  datatype Ticket = Ticket(value: seq<Byte>, epoch: int)

  const NO_TICKET := Ticket([], 0)

  datatype Entry = Value(bytes: seq<Byte>) | Epoch(epoch: int)

  predicate ValidEntry(e: Entry) {
    match e
    case Value(bytes) => |bytes| <= BYTE_ARRAY_MAX_LEN
    case Epoch(epoch) => IsInt64(epoch)
  }

  function Key(e: Entry): seq<Byte> {
    if e.Value? then VALUE else EPOCH
  }

  function Set(t: Ticket, e: Entry): Ticket {
    match e
    case Value(bytes) => t.(value := bytes)
    case Epoch(epoch) => t.(epoch := epoch)
  }

  function SetAll(t: Ticket, es: seq<Entry>): Ticket
    decreases |es|
  {
    if es == [] then t else SetAll(Set(t, es[0]), es[1..])
  }

  function EncodeField(e: Entry): seq<Byte>
    requires ValidEntry(e)
  {
    match e
    case Value(bytes) => EncodeHead(BYTE_STRING, |bytes|) + bytes
    case Epoch(epoch) => EncodeInt(epoch)
  }

  function EncodeEntry(e: Entry): seq<Byte>
    requires ValidEntry(e)
  {
    EncodeText(Key(e)) + EncodeField(e)
  }

  predicate ValidEntries(es: seq<Entry>) {
    forall i | 0 <= i < |es| :: ValidEntry(es[i])
  }

  function EncodeEntries(es: seq<Entry>): seq<Byte>
    requires ValidEntries(es)
  {
    if es == [] then [] else EncodeEntry(es[0]) + EncodeEntries(es[1..])
  }

  function TicketMap(es: seq<Entry>): seq<Byte>
    requires ValidEntries(es)
  {
    EncodeHead(MAP, |es|) + EncodeEntries(es)
  }

  predicate ValidTicket(t: Ticket) {
    |t.value| <= BYTE_ARRAY_MAX_LEN && IsInt64(t.epoch)
  }

  function EncodeTicket(t: Ticket): seq<Byte>
    requires ValidTicket(t)
  {
    TicketMap([Value(t.value), Epoch(t.epoch)])
  }

  /** The bytes of a `Value` entry. The buffer is only made anew for a non-empty
      string; otherwise as many bytes are read as the old buffer holds. */
  function ReadValue(s: seq<Byte>, t: Ticket): Parsed<Ticket> {
    var head := ReadHead(s);
    if head.Err? then Err(head.error)
    else if head.value.extra > BYTE_ARRAY_MAX_LEN || head.value.major != BYTE_STRING then Err(Malformed)
    else
      var bytes := ReadBytes(head.rest, if head.value.extra > 0 then head.value.extra else |t.value|);
      if bytes.Err? then Err(bytes.error) else Ok(t.(value := bytes.value), bytes.rest)
  }

  function ReadEpoch(s: seq<Byte>, t: Ticket): Parsed<Ticket> {
    var epoch := ReadInt(s);
    if epoch.Err? then Err(epoch.error) else Ok(t.(epoch := epoch.value), epoch.rest)
  }

  function ReadEntry(s: seq<Byte>, t: Ticket): Parsed<Ticket> {
    var key := ReadText(s);
    if key.Err? then Err(key.error)
    else if key.value == VALUE then ReadValue(key.rest, t)
    else if key.value == EPOCH then ReadEpoch(key.rest, t)
    else Err(Unknown)
  }

  function ReadEntries(s: seq<Byte>, n: nat, t: Ticket): Parsed<Ticket>
    decreases n
  {
    if n == 0 then Ok(t, s)
    else
      var entry := ReadEntry(s, t);
      if entry.Err? then entry else ReadEntries(entry.rest, n - 1, entry.value)
  }

  function DecodeTicket(s: seq<Byte>): Parsed<Ticket> {
    var head := ReadHead(s);
    if head.Err? then Err(head.error)
    else if head.value.major != MAP || head.value.extra > MAX_LENGTH then Err(Malformed)
    else ReadEntries(head.rest, head.value.extra, NO_TICKET)
  }

  // ---------- round trip ----------

  /** A `Value` entry is read back exactly if it is non-empty or is not preceded by
      a non-empty one. */
  lemma ValueBackIff(t: Ticket, bytes: seq<Byte>, s: seq<Byte>)
    requires |bytes| <= BYTE_ARRAY_MAX_LEN
    ensures ReadValue(EncodeHead(BYTE_STRING, |bytes|) + bytes + s, t) == Ok(t.(value := bytes), s) <==>
              bytes != [] || t.value == []
  {
    assert EncodeHead(BYTE_STRING, |bytes|) + bytes + s == EncodeHead(BYTE_STRING, |bytes|) + (bytes + s);
    HeadRoundTrip(BYTE_STRING, |bytes|, bytes + s);
    if bytes != [] || t.value == [] {
      ReadBytesBack(bytes, s);
    }
  }

  /** An empty value that repeats the key takes the bytes after it for its own. */
  lemma EmptyValueAgain(t: Ticket, s: seq<Byte>)
    requires t.value != [] && |s| >= |t.value|
    ensures ReadValue(EncodeHead(BYTE_STRING, 0) + s, t) == Ok(t.(value := s[..|t.value|]), s[|t.value|..])
  {}

  /** Entry `e` can be read on top of `t`. */
  predicate Fits(t: Ticket, e: Entry) {
    e == Value([]) ==> t.value == []
  }

  lemma EntryBack(e: Entry, s: seq<Byte>, t: Ticket)
    requires ValidEntry(e) && Fits(t, e)
    ensures ReadEntry(EncodeEntry(e) + s, t) == Ok(Set(t, e), s)
  {
    var tail := EncodeField(e) + s;
    assert EncodeEntry(e) + s == EncodeText(Key(e)) + tail;
    TextRoundTrip(Key(e), tail);
    assert VALUE[0] != EPOCH[0];
    if e.Value? {
      ValueBackIff(t, e.bytes, s);
    } else {
      IntRoundTrip(e.epoch, s);
    }
  }

  /** No empty `Value` comes after a non-empty one. */
  predicate NoEmptyAfter(es: seq<Entry>) {
    forall i, j | 0 <= i < j < |es| && es[i].Value? && es[i].bytes != [] :: es[j] != Value([])
  }

  lemma {:induction false} EntriesBack(es: seq<Entry>, s: seq<Byte>, t: Ticket)
    requires ValidEntries(es) && NoEmptyAfter(es) && forall e | e in es :: Fits(t, e)
    ensures ReadEntries(EncodeEntries(es) + s, |es|, t) == Ok(SetAll(t, es), s)
    decreases |es|
  {
    if es == [] {
      assert EncodeEntries(es) + s == s;
    } else {
      var tail := EncodeEntries(es[1..]) + s;
      assert EncodeEntries(es) + s == EncodeEntry(es[0]) + tail;
      EntryBack(es[0], tail, t);
      forall e | e in es[1..] ensures Fits(Set(t, es[0]), e) {
        var j :| 0 < j < |es| && es[j] == e;
        assert e in es;
      }
      EntriesBack(es[1..], s, Set(t, es[0]));
    }
  }

  /** Any map of known entries, in any order and with repeats, decodes to the values
      set in that order, unless an empty `Value` comes after a non-empty one. */
  lemma TicketMapDecodes(es: seq<Entry>, s: seq<Byte>)
    requires |es| <= MAX_LENGTH && ValidEntries(es) && NoEmptyAfter(es)
    ensures DecodeTicket(TicketMap(es) + s) == Ok(SetAll(NO_TICKET, es), s)
  {
    var tail := EncodeEntries(es) + s;
    assert TicketMap(es) + s == EncodeHead(MAP, |es|) + tail;
    HeadRoundTrip(MAP, |es|, tail);
    EntriesBack(es, s, NO_TICKET);
  }

  lemma SetTwo(t: Ticket, a: Entry, b: Entry)
    ensures SetAll(t, [a, b]) == Set(Set(t, a), b)
  {
    assert [a, b][1..] == [b] && [b][1..] == [];
    assert SetAll(t, [a, b]) == SetAll(Set(t, a), [b]);
  }

  /** Every value is read back, for every 64-bit epoch. */
  lemma TicketRoundTrip(t: Ticket, s: seq<Byte>)
    requires ValidTicket(t)
    ensures DecodeTicket(EncodeTicket(t) + s) == Ok(t, s)
  {
    TicketMapDecodes([Value(t.value), Epoch(t.epoch)], s);
    SetTwo(NO_TICKET, Value(t.value), Epoch(t.epoch));
  }

  /** Encodings are self-delimiting: one is never the beginning of another. */
  lemma TicketPrefixFree(a: Ticket, b: Ticket, s: seq<Byte>, s': seq<Byte>)
    requires ValidTicket(a) && ValidTicket(b) && EncodeTicket(a) + s == EncodeTicket(b) + s'
    ensures a == b && s == s'
  {
    TicketRoundTrip(a, s);
    TicketRoundTrip(b, s');
  }

  /** The two entries may come in either order. */
  lemma TicketOrderIrrelevant(t: Ticket, s: seq<Byte>)
    requires ValidTicket(t)
    ensures DecodeTicket(TicketMap([Epoch(t.epoch), Value(t.value)]) + s) == DecodeTicket(EncodeTicket(t) + s)
  {
    TicketMapDecodes([Epoch(t.epoch), Value(t.value)], s);
    SetTwo(NO_TICKET, Epoch(t.epoch), Value(t.value));
    TicketRoundTrip(t, s);
  }

  // ---------- the methods ----------

  method MarshalTicket(w: Writer, t: Ticket) returns (ok: bool)
    requires IsInt64(t.epoch)
    modifies w
    ensures ok <==> |t.value| <= BYTE_ARRAY_MAX_LEN
    ensures ok ==> w.out == old(w.out) + EncodeTicket(t)
  {
    w.Write([162]);
    w.WriteText(VALUE);
    if |t.value| > BYTE_ARRAY_MAX_LEN { return false; }
    w.WriteHead(BYTE_STRING, |t.value|);
    w.Write(t.value);
    w.WriteText(EPOCH);
    WriteEpoch(w, t.epoch);
    Pieces(old(w.out), t);
    return true;
  }

  method WriteEpoch(w: Writer, epoch: int)
    requires IsInt64(epoch)
    modifies w
    ensures w.out == old(w.out) + EncodeInt(epoch)
  {
    if epoch >= 0 {
      w.WriteHead(UNSIGNED, epoch);
    } else {
      w.WriteHead(NEGATIVE, NegMinusOne(epoch));
    }
  }

  lemma MapOfTwo()
    ensures EncodeHead(MAP, 2) == [162]
  {}

  lemma TwoEntries(a: Entry, b: Entry)
    requires ValidEntry(a) && ValidEntry(b)
    ensures TicketMap([a, b]) == [162] + (EncodeEntry(a) + EncodeEntry(b))
  {
    assert [a, b][1..] == [b] && [b][1..] == [];
    assert EncodeEntries([b]) == EncodeEntry(b);
    assert EncodeEntries([a, b]) == EncodeEntry(a) + EncodeEntries([b]);
    MapOfTwo();
  }

  lemma Regrouped(o: seq<Byte>, h: seq<Byte>, a: seq<Byte>, b: seq<Byte>, c: seq<Byte>, d: seq<Byte>, e: seq<Byte>)
    ensures o + h + a + b + c + d + e == o + (h + (a + (b + c) + (d + e)))
  {}

  lemma Pieces(out: seq<Byte>, t: Ticket)
    requires ValidTicket(t)
    ensures out + [162] + EncodeText(VALUE) + EncodeHead(BYTE_STRING, |t.value|) + t.value + EncodeText(EPOCH) + EncodeInt(t.epoch)
            == out + EncodeTicket(t)
  {
    TwoEntries(Value(t.value), Epoch(t.epoch));
    Regrouped(out, [162], EncodeText(VALUE), EncodeHead(BYTE_STRING, |t.value|), t.value, EncodeText(EPOCH), EncodeInt(t.epoch));
  }

  method NextValue(r: Reader, t: Ticket) returns (out: Outcome<Ticket>)
    modifies r
    ensures Agrees(ReadValue(old(r.rest), t), out, r.rest)
  {
    var bad, head := r.NextHead();
    if bad || head.extra > BYTE_ARRAY_MAX_LEN || head.major != BYTE_STRING { return Failed(Malformed); }
    var size := |t.value|;
    if head.extra > 0 { size := head.extra; }
    var bytes;
    bad, bytes := r.NextBytes(size);
    if bad { return Failed(Malformed); }
    return Done(t.(value := bytes));
  }

  method NextEpoch(r: Reader, t: Ticket) returns (out: Outcome<Ticket>)
    modifies r
    ensures Agrees(ReadEpoch(old(r.rest), t), out, r.rest)
  {
    var bad, head := r.NextHead();
    if bad { return Failed(Malformed); }
    var extraI := AsInt64(head.extra);
    if head.major == UNSIGNED {
      if extraI < 0 { return Failed(Malformed); }
    } else if head.major == NEGATIVE {
      if extraI < 0 { return Failed(Malformed); }
      extraI := -1 - extraI;
    } else {
      return Failed(Malformed);
    }
    return Done(t.(epoch := extraI));
  }

  method NextEntry(r: Reader, t: Ticket) returns (out: Outcome<Ticket>)
    modifies r
    ensures Agrees(ReadEntry(old(r.rest), t), out, r.rest)
  {
    var bad, key := r.NextText();
    if bad { return Failed(Malformed); }
    if key == VALUE {
      out := NextValue(r, t);
    } else if key == EPOCH {
      out := NextEpoch(r, t);
    } else {
      return Failed(Unknown);
    }
  }

  method NextEntries(r: Reader, n: nat) returns (out: Outcome<Ticket>)
    modifies r
    ensures Agrees(ReadEntries(old(r.rest), n, NO_TICKET), out, r.rest)
  {
    ghost var start := r.rest;
    out := Done(NO_TICKET);
    for i := 0 to n
      invariant out.Done? && ReadEntries(start, n, NO_TICKET) == ReadEntries(r.rest, n - i, out.value)
    {
      out := NextEntry(r, out.value);
      if out.Failed? { return; }
    }
  }

  method UnmarshalTicket(r: Reader) returns (out: Outcome<Ticket>)
    modifies r
    ensures Agrees(DecodeTicket(old(r.rest)), out, r.rest)
  {
    var bad, head := r.NextHead();
    if bad || head.major != MAP || head.extra > MAX_LENGTH { return Failed(Malformed); }
    out := NextEntries(r, head.extra);
  }
}
