/** The CBOR maps `SealedRef` and `SealedRefs` of the sealing API. */
module SealCodec {
  import opened MachineInts
  import opened Cbor

  const SECTOR_ID: seq<Byte> := [83, 101, 99, 116, 111, 114, 73, 68]
  const OFFSET: seq<Byte> := [79, 102, 102, 115, 101, 116]
  const SIZE: seq<Byte> := [83, 105, 122, 101]
  const REFS: seq<Byte> := [82, 101, 102, 115]
  const VALUE: seq<Byte> := [86, 97, 108, 117, 101]
  const EPOCH: seq<Byte> := [69, 112, 111, 99, 104]

  datatype Outcome<T> = Done(value: T) | Failed(error: Failure)

  /** A method got from the stream what the function parses. */
  predicate Agrees<T(==)>(p: Parsed<T>, r: Outcome<T>, rest: seq<Byte>) {
    if p.Ok? then r == Done(p.value) && rest == p.rest else r == Failed(p.error)
  }

  // ---------- SealedRef ----------

  datatype Ref = Ref(sectorID: nat, offset: nat, size: nat)

  predicate ValidRef(t: Ref) {
    t.sectorID < TWO64 && t.offset < TWO64 && t.size < TWO64
  }

  const NO_REF := Ref(0, 0, 0)

  /** An entry of the map. */
  datatype RefEntry = SectorID(n: nat) | Offset(n: nat) | Size(n: nat)

  function RefKey(e: RefEntry): seq<Byte> {
    match e
    case SectorID(_) => SECTOR_ID
    case Offset(_) => OFFSET
    case Size(_) => SIZE
  }

  function SetRef(t: Ref, e: RefEntry): Ref {
    match e
    case SectorID(n) => t.(sectorID := n)
    case Offset(n) => t.(offset := n)
    case Size(n) => t.(size := n)
  }

  function SetAllRef(t: Ref, es: seq<RefEntry>): Ref {
    SetEach(SetRef, t, es)
  }

  function EncodeRefEntry(e: RefEntry): seq<Byte> {
    EncodeText(RefKey(e)) + EncodeHead(UNSIGNED, e.n)
  }

  function EncodeRefEntries(es: seq<RefEntry>): seq<Byte> {
    EncodeEach(EncodeRefEntry, es)
  }

  /** A map with the given entries in the given order. */
  function RefMap(es: seq<RefEntry>): seq<Byte> {
    EncodeHead(MAP, |es|) + EncodeRefEntries(es)
  }

  function RefEntriesOf(t: Ref): seq<RefEntry> {
    [SectorID(t.sectorID), Offset(t.offset), Size(t.size)]
  }

  function EncodeRef(t: Ref): seq<Byte> {
    RefMap(RefEntriesOf(t))
  }

  function ReadRefField(key: seq<Byte>, s: seq<Byte>, t: Ref): Parsed<Ref> {
    if key != SECTOR_ID && key != OFFSET && key != SIZE then Err(Unknown)
    else
      var n := ReadUnsigned(s);
      if n.Err? then Err(n.error)
      else Ok(SetRef(t, if key == SECTOR_ID then SectorID(n.value) else if key == OFFSET then Offset(n.value) else Size(n.value)), n.rest)
  }

  function ReadRefEntry(s: seq<Byte>, t: Ref): Parsed<Ref> {
    var key := ReadText(s);
    if key.Err? then Err(key.error) else ReadRefField(key.value, key.rest, t)
  }

  function ReadRefEntries(s: seq<Byte>, n: nat, t: Ref): Parsed<Ref> {
    ReadEach(ReadRefEntry, s, n, t)
  }

  function DecodeRef(s: seq<Byte>): Parsed<Ref> {
    var head := ReadHead(s);
    if head.Err? then Err(head.error)
    else if head.value.major != MAP || head.value.extra > MAX_LENGTH then Err(Malformed)
    else ReadRefEntries(head.rest, head.value.extra, NO_REF)
  }

  lemma RefEntryBack(e: RefEntry, s: seq<Byte>, t: Ref)
    requires e.n < TWO64
    ensures ReadRefEntry(EncodeRefEntry(e) + s, t) == Ok(SetRef(t, e), s)
  {
    var tail := EncodeHead(UNSIGNED, e.n) + s;
    assert EncodeRefEntry(e) + s == EncodeText(RefKey(e)) + tail;
    TextRoundTrip(RefKey(e), tail);
    HeadRoundTrip(UNSIGNED, e.n, s);
    assert |SECTOR_ID| == 8 && |OFFSET| == 6 && |SIZE| == 4;
  }

  lemma RefEntriesBack(es: seq<RefEntry>, s: seq<Byte>, t: Ref)
    requires forall i | 0 <= i < |es| :: es[i].n < TWO64
    ensures ReadRefEntries(EncodeRefEntries(es) + s, |es|, t) == Ok(SetAllRef(t, es), s)
  {
    forall i | 0 <= i < |es| ensures ReadsBack(ReadRefEntry, EncodeRefEntry, SetRef, es[i]) {
      forall s: seq<Byte>, t: Ref ensures ReadRefEntry(EncodeRefEntry(es[i]) + s, t) == Ok(SetRef(t, es[i]), s) {
        RefEntryBack(es[i], s, t);
      }
    }
    EachBack(ReadRefEntry, EncodeRefEntry, SetRef, es, s, t);
  }

  /** Any map of known entries decodes to the values set in that order. */
  lemma RefMapDecodes(es: seq<RefEntry>, s: seq<Byte>)
    requires |es| <= MAX_LENGTH && forall i | 0 <= i < |es| :: es[i].n < TWO64
    ensures DecodeRef(RefMap(es) + s) == Ok(SetAllRef(NO_REF, es), s)
  {
    assert RefMap(es) + s == EncodeHead(MAP, |es|) + (EncodeRefEntries(es) + s);
    HeadRoundTrip(MAP, |es|, EncodeRefEntries(es) + s);
    RefEntriesBack(es, s, NO_REF);
  }

  /** Every value is read back from its encoding, whatever follows. */
  lemma RefRoundTrip(t: Ref, s: seq<Byte>)
    requires ValidRef(t)
    ensures DecodeRef(EncodeRef(t) + s) == Ok(t, s)
  {
    RefMapDecodes(RefEntriesOf(t), s);
    SetThree(NO_REF, SectorID(t.sectorID), Offset(t.offset), Size(t.size));
  }

  lemma SetThree(t: Ref, a: RefEntry, b: RefEntry, c: RefEntry)
    ensures SetAllRef(t, [a, b, c]) == SetRef(SetRef(SetRef(t, a), b), c)
  {
    assert [a, b, c][1..] == [b, c] && [b, c][1..] == [c] && [c][1..] == [];
    assert SetAllRef(t, [a, b, c]) == SetAllRef(SetRef(t, a), [b, c]);
    assert SetAllRef(SetRef(t, a), [b, c]) == SetAllRef(SetRef(SetRef(t, a), b), [c]);
    OneEach(EncodeRefEntry, SetRef, SetRef(SetRef(t, a), b), c);
  }

  predicate RefKeysDistinct(es: seq<RefEntry>) {
    forall i, j | 0 <= i < j < |es| :: RefKey(es[i]) != RefKey(es[j])
  }

  lemma {:induction false} RefUntouched(t: Ref, es: seq<RefEntry>)
    ensures (forall e | e in es :: !e.SectorID?) ==> SetAllRef(t, es).sectorID == t.sectorID
    ensures (forall e | e in es :: !e.Offset?) ==> SetAllRef(t, es).offset == t.offset
    ensures (forall e | e in es :: !e.Size?) ==> SetAllRef(t, es).size == t.size
    decreases |es|
  {
    if es != [] {
      RefUntouched(SetRef(t, es[0]), es[1..]);
      assert es[0] in es && forall e | e in es[1..] :: e in es;
    }
  }

  /** With distinct keys an entry's value is not overwritten. */
  lemma {:induction false} RefEntryStays(t: Ref, es: seq<RefEntry>, i: nat)
    requires RefKeysDistinct(es) && i < |es|
    ensures SetRef(SetAllRef(t, es), es[i]) == SetAllRef(t, es)
    decreases |es|
  {
    if i == 0 {
      forall e | e in es[1..] ensures RefKey(e) != RefKey(es[0]) {}
      RefUntouched(SetRef(t, es[0]), es[1..]);
    } else {
      RefEntryStays(SetRef(t, es[0]), es[1..], i - 1);
    }
  }

  /** The order of the entries does not matter. */
  lemma RefOrderIrrelevant(es: seq<RefEntry>, other: seq<RefEntry>, s: seq<Byte>)
    requires |es| <= MAX_LENGTH && forall i | 0 <= i < |es| :: es[i].n < TWO64
    requires RefKeysDistinct(es) && RefKeysDistinct(other) && multiset(es) == multiset(other)
    ensures DecodeRef(RefMap(es) + s) == DecodeRef(RefMap(other) + s)
  {
    SameLength(es, other);
    forall i | 0 <= i < |other| ensures other[i].n < TWO64 {
      assert other[i] in multiset(other) && other[i] in es;
    }
    RefMapDecodes(es, s);
    RefMapDecodes(other, s);
    SameRef(es, other);
  }

  lemma SameLength<T>(a: seq<T>, b: seq<T>)
    requires multiset(a) == multiset(b)
    ensures |a| == |b|
  {
    assert |multiset(a)| == |a| && |multiset(b)| == |b|;
  }

  lemma SameRef(es: seq<RefEntry>, other: seq<RefEntry>)
    requires RefKeysDistinct(es) && RefKeysDistinct(other) && multiset(es) == multiset(other)
    ensures SetAllRef(NO_REF, es) == SetAllRef(NO_REF, other)
  {
    var a, b := SetAllRef(NO_REF, es), SetAllRef(NO_REF, other);
    assert forall e | e in multiset(es) :: e in es && e in other;
    forall e | e in es ensures SetRef(a, e) == a && SetRef(b, e) == b {
      assert e in multiset(es) && e in other;
      var i :| 0 <= i < |es| && es[i] == e;
      var j :| 0 <= j < |other| && other[j] == e;
      RefEntryStays(NO_REF, es, i);
      RefEntryStays(NO_REF, other, j);
    }
    assert forall e | e in other :: e in multiset(other) && e in es;
    RefUntouched(NO_REF, es);
    RefUntouched(NO_REF, other);
  }

  method WriteRefEntry(w: Writer, key: seq<Byte>, n: nat, ghost e: RefEntry)
    requires key == RefKey(e) && n == e.n
    modifies w
    ensures w.out == old(w.out) + EncodeRefEntry(e)
  {
    w.WriteText(key);
    w.WriteHead(UNSIGNED, n);
  }

  method MarshalRef(w: Writer, t: Ref)
    modifies w
    ensures w.out == old(w.out) + EncodeRef(t)
  {
    ghost var a, b, c := SectorID(t.sectorID), Offset(t.offset), Size(t.size);
    w.Write([163]);
    WriteRefEntry(w, SECTOR_ID, t.sectorID, a);
    WriteRefEntry(w, OFFSET, t.offset, b);
    WriteRefEntry(w, SIZE, t.size, c);
    ThreeEntries(a, b, c);
    Regroup(old(w.out), [163], EncodeRefEntry(a), EncodeRefEntry(b), EncodeRefEntry(c));
  }

  lemma Regroup(o: seq<Byte>, h: seq<Byte>, a: seq<Byte>, b: seq<Byte>, c: seq<Byte>)
    ensures o + h + a + b + c == o + (h + (a + (b + c)))
  {}

  lemma ThreeEntries(a: RefEntry, b: RefEntry, c: RefEntry)
    ensures RefMap([a, b, c]) == [163] + (EncodeRefEntry(a) + (EncodeRefEntry(b) + EncodeRefEntry(c)))
  {
    assert [a, b, c][1..] == [b, c] && [b, c][1..] == [c] && [c][1..] == [];
    OneEach(EncodeRefEntry, SetRef, NO_REF, c);
    assert EncodeRefEntries([b, c]) == EncodeRefEntry(b) + EncodeRefEntries([c]);
    assert EncodeRefEntries([a, b, c]) == EncodeRefEntry(a) + EncodeRefEntries([b, c]);
    MapOfThree();
  }

  lemma MapOfThree()
    ensures EncodeHead(MAP, 3) == [163]
  {}

  method NextRefEntry(r: Reader, t: Ref) returns (out: Outcome<Ref>)
    modifies r
    ensures Agrees(ReadRefEntry(old(r.rest), t), out, r.rest)
  {
    var bad, key := r.NextText();
    if bad { return Failed(Malformed); }
    if key != SECTOR_ID && key != OFFSET && key != SIZE { return Failed(Unknown); }
    var value;
    bad, value := r.NextHead();
    if bad || value.major != UNSIGNED { return Failed(Malformed); }
    if key == SECTOR_ID { return Done(t.(sectorID := value.extra)); }
    if key == OFFSET { return Done(t.(offset := value.extra)); }
    return Done(t.(size := value.extra));
  }

  method NextRefEntries(r: Reader, n: nat) returns (out: Outcome<Ref>)
    modifies r
    ensures Agrees(ReadRefEntries(old(r.rest), n, NO_REF), out, r.rest)
  {
    ghost var start := r.rest;
    out := Done(NO_REF);
    for i := 0 to n
      invariant out.Done? && ReadRefEntries(start, n, NO_REF) == ReadRefEntries(r.rest, n - i, out.value)
    {
      out := NextRefEntry(r, out.value);
      if out.Failed? { return; }
    }
  }

  method UnmarshalRef(r: Reader) returns (out: Outcome<Ref>)
    modifies r
    ensures Agrees(DecodeRef(old(r.rest)), out, r.rest)
  {
    var bad, head := r.NextHead();
    if bad || head.major != MAP || head.extra > MAX_LENGTH { return Failed(Malformed); }
    out := NextRefEntries(r, head.extra);
  }

  // ---------- SealedRefs ----------

  function EncodeRefs(refs: seq<Ref>): seq<Byte> {
    EncodeHead(MAP, 1) + EncodeText(REFS) + EncodeHead(ARRAY, |refs|) + RefMaps(EntriesOfAll(refs))
  }

  function EntriesOfAll(refs: seq<Ref>): (maps: seq<seq<RefEntry>>)
    ensures |maps| == |refs|
  {
    if refs == [] then [] else EntriesOfAll(refs[..|refs| - 1]) + [RefEntriesOf(refs[|refs| - 1])]
  }

  /** The values that maps stand for. */
  function RefValues(maps: seq<seq<RefEntry>>): seq<Ref> {
    if maps == [] then [] else RefValues(maps[..|maps| - 1]) + [SetAllRef(NO_REF, maps[|maps| - 1])]
  }

  /** One map after the other, each with its entries in some order. */
  function RefMaps(maps: seq<seq<RefEntry>>): seq<Byte> {
    if maps == [] then [] else RefMaps(maps[..|maps| - 1]) + RefMap(maps[|maps| - 1])
  }

  function ReadRefs(s: seq<Byte>, n: nat): Parsed<seq<Ref>> {
    if n == 0 then Ok([], s)
    else
      var first := ReadRefs(s, n - 1);
      if first.Err? then first
      else
        var v := DecodeRef(first.rest);
        if v.Err? then Err(v.error) else Ok(first.value + [v.value], v.rest)
  }

  /** The array of a `Refs` entry; an empty one leaves what was there. */
  function ReadRefsField(s: seq<Byte>, refs: seq<Ref>): Parsed<seq<Ref>> {
    var head := ReadHead(s);
    if head.Err? then Err(head.error)
    else if head.value.extra > MAX_LENGTH || head.value.major != ARRAY then Err(Malformed)
    else if head.value.extra == 0 then Ok(refs, head.rest)
    else ReadRefs(head.rest, head.value.extra)
  }

  function ReadRefsEntry(s: seq<Byte>, refs: seq<Ref>): Parsed<seq<Ref>> {
    var key := ReadText(s);
    if key.Err? then Err(key.error)
    else if key.value != REFS then Err(Unknown)
    else ReadRefsField(key.rest, refs)
  }

  function ReadRefsEntries(s: seq<Byte>, n: nat, refs: seq<Ref>): Parsed<seq<Ref>> {
    ReadEach(ReadRefsEntry, s, n, refs)
  }

  function DecodeRefs(s: seq<Byte>): Parsed<seq<Ref>> {
    var head := ReadHead(s);
    if head.Err? then Err(head.error)
    else if head.value.major != MAP || head.value.extra > MAX_LENGTH then Err(Malformed)
    else ReadRefsEntries(head.rest, head.value.extra, [])
  }

  predicate GoodMap(es: seq<RefEntry>) {
    |es| <= MAX_LENGTH && forall i | 0 <= i < |es| :: es[i].n < TWO64
  }

  lemma ReadRefsMore(s: seq<Byte>, n: nat, vs: seq<Ref>, rest: seq<Byte>)
    requires ReadRefs(s, n) == Ok(vs, rest)
    ensures var v := DecodeRef(rest);
            ReadRefs(s, n + 1) == if v.Err? then Err(v.error) else Ok(vs + [v.value], v.rest)
  {}

  lemma {:induction false} RefMapsBack(maps: seq<seq<RefEntry>>, s: seq<Byte>)
    requires forall i | 0 <= i < |maps| :: GoodMap(maps[i])
    ensures ReadRefs(RefMaps(maps) + s, |maps|) == Ok(RefValues(maps), s)
  {
    if maps == [] {
      assert RefMaps(maps) + s == s;
    } else {
      var front, last := maps[..|maps| - 1], maps[|maps| - 1];
      var tail := RefMap(last) + s;
      assert RefMaps(maps) + s == RefMaps(front) + tail;
      RefMapsBack(front, tail);
      RefMapDecodes(last, s);
      ReadRefsMore(RefMaps(front) + tail, |front|, RefValues(front), tail);
    }
  }

  /** One `Refs` entry, its elements with their entries in some order. */
  function EncodeRefsEntry(maps: seq<seq<RefEntry>>): seq<Byte> {
    EncodeText(REFS) + (EncodeHead(ARRAY, |maps|) + RefMaps(maps))
  }

  function EncodeRefsEntries(arrays: seq<seq<seq<RefEntry>>>): seq<Byte> {
    EncodeEach(EncodeRefsEntry, arrays)
  }

  /** An empty array leaves what was there. */
  function SetRefs(refs: seq<Ref>, maps: seq<seq<RefEntry>>): seq<Ref> {
    if maps == [] then refs else RefValues(maps)
  }

  function SetAllRefs(refs: seq<Ref>, arrays: seq<seq<seq<RefEntry>>>): seq<Ref> {
    SetEach(SetRefs, refs, arrays)
  }

  predicate GoodArray(maps: seq<seq<RefEntry>>) {
    |maps| <= MAX_LENGTH && forall i | 0 <= i < |maps| :: GoodMap(maps[i])
  }

  lemma RefsFieldBack(maps: seq<seq<RefEntry>>, s: seq<Byte>, refs: seq<Ref>)
    requires GoodArray(maps)
    ensures ReadRefsField(EncodeHead(ARRAY, |maps|) + (RefMaps(maps) + s), refs) == Ok(SetRefs(refs, maps), s)
  {
    HeadRoundTrip(ARRAY, |maps|, RefMaps(maps) + s);
    if maps == [] {
      assert RefMaps(maps) + s == s;
    } else {
      RefMapsBack(maps, s);
    }
  }

  lemma RefsEntryBack(maps: seq<seq<RefEntry>>, s: seq<Byte>, refs: seq<Ref>)
    requires GoodArray(maps)
    ensures ReadRefsEntry(EncodeRefsEntry(maps) + s, refs) == Ok(SetRefs(refs, maps), s)
  {
    var elems := EncodeHead(ARRAY, |maps|) + (RefMaps(maps) + s);
    assert EncodeRefsEntry(maps) + s == EncodeText(REFS) + elems;
    TextRoundTrip(REFS, elems);
    RefsFieldBack(maps, s, refs);
  }

  lemma RefsEntriesBack(arrays: seq<seq<seq<RefEntry>>>, s: seq<Byte>, refs: seq<Ref>)
    requires forall i | 0 <= i < |arrays| :: GoodArray(arrays[i])
    ensures ReadRefsEntries(EncodeRefsEntries(arrays) + s, |arrays|, refs) == Ok(SetAllRefs(refs, arrays), s)
  {
    forall i | 0 <= i < |arrays| ensures ReadsBack(ReadRefsEntry, EncodeRefsEntry, SetRefs, arrays[i]) {
      forall s: seq<Byte>, refs: seq<Ref> ensures ReadRefsEntry(EncodeRefsEntry(arrays[i]) + s, refs) == Ok(SetRefs(refs, arrays[i]), s) {
        RefsEntryBack(arrays[i], s, refs);
      }
    }
    EachBack(ReadRefsEntry, EncodeRefsEntry, SetRefs, arrays, s, refs);
  }

  lemma DecodeRefsOf(s: seq<Byte>, n: nat, rest: seq<Byte>)
    requires ReadHead(s) == Ok(Head(MAP, n), rest) && n <= MAX_LENGTH
    ensures DecodeRefs(s) == ReadRefsEntries(rest, n, [])
  {}

  /** A `SealedRefs` map with any number of `Refs` entries, whose elements have their
      entries in any order, decodes to the elements of the last non-empty array. */
  lemma RefsMapDecodes(arrays: seq<seq<seq<RefEntry>>>, s: seq<Byte>)
    requires |arrays| <= MAX_LENGTH && forall i | 0 <= i < |arrays| :: GoodArray(arrays[i])
    ensures DecodeRefs(EncodeHead(MAP, |arrays|) + EncodeRefsEntries(arrays) + s) == Ok(SetAllRefs([], arrays), s)
  {
    var head, entries := EncodeHead(MAP, |arrays|), EncodeRefsEntries(arrays);
    assert head + entries + s == head + (entries + s);
    HeadRoundTrip(MAP, |arrays|, entries + s);
    DecodeRefsOf(head + (entries + s), |arrays|, entries + s);
    RefsEntriesBack(arrays, s, []);
  }

  lemma {:induction false} ValuesOfEntries(refs: seq<Ref>)
    ensures RefValues(EntriesOfAll(refs)) == refs
  {
    if refs != [] {
      var front, t := refs[..|refs| - 1], refs[|refs| - 1];
      ValuesOfEntries(front);
      assert EntriesOfAll(refs)[..|refs| - 1] == EntriesOfAll(front);
      SetThree(NO_REF, SectorID(t.sectorID), Offset(t.offset), Size(t.size));
    }
  }

  lemma {:induction false} EntriesOfEach(refs: seq<Ref>, i: nat)
    requires i < |refs|
    ensures EntriesOfAll(refs)[i] == RefEntriesOf(refs[i])
  {
    if i < |refs| - 1 {
      EntriesOfEach(refs[..|refs| - 1], i);
    }
  }

  lemma OneArray(maps: seq<seq<RefEntry>>)
    ensures EncodeRefsEntries([maps]) == EncodeRefsEntry(maps)
    ensures SetAllRefs([], [maps]) == if maps == [] then [] else RefValues(maps)
  {
    OneEach(EncodeRefsEntry, SetRefs, [], maps);
  }

  lemma OneArrayDecodes(maps: seq<seq<RefEntry>>, s: seq<Byte>)
    requires GoodArray(maps)
    ensures DecodeRefs(EncodeHead(MAP, 1) + EncodeRefsEntry(maps) + s) == Ok(if maps == [] then [] else RefValues(maps), s)
  {
    RefsMapDecodes([maps], s);
    OneArray(maps);
  }

  lemma AsOneArray(refs: seq<Ref>)
    ensures EncodeRefs(refs) == EncodeHead(MAP, 1) + EncodeRefsEntry(EntriesOfAll(refs))
  {
    var maps := EntriesOfAll(refs);
    Pieces(EncodeHead(MAP, 1), EncodeText(REFS), EncodeHead(ARRAY, |maps|), RefMaps(maps));
  }

  lemma Pieces(h: seq<Byte>, a: seq<Byte>, b: seq<Byte>, c: seq<Byte>)
    ensures h + a + b + c == h + (a + (b + c))
  {}

  lemma RefEntriesGood(t: Ref)
    requires ValidRef(t)
    ensures GoodMap(RefEntriesOf(t))
  {}

  lemma EntriesGoodAt(refs: seq<Ref>, maps: seq<seq<RefEntry>>, i: nat)
    requires maps == EntriesOfAll(refs) && i < |refs| && ValidRef(refs[i])
    ensures GoodMap(maps[i])
  {
    EntriesOfEach(refs, i);
    RefEntriesGood(refs[i]);
  }

  lemma EntriesAreGood(refs: seq<Ref>, maps: seq<seq<RefEntry>>)
    requires maps == EntriesOfAll(refs) && |refs| <= MAX_LENGTH && forall i | 0 <= i < |refs| :: ValidRef(refs[i])
    ensures GoodArray(maps)
  {
    forall i | 0 <= i < |maps| ensures GoodMap(maps[i]) {
      EntriesGoodAt(refs, maps, i);
    }
  }

  /** Nested values come back too, whatever follows. */
  lemma RefsRoundTrip(refs: seq<Ref>, s: seq<Byte>)
    requires |refs| <= MAX_LENGTH && forall i | 0 <= i < |refs| :: ValidRef(refs[i])
    ensures DecodeRefs(EncodeRefs(refs) + s) == Ok(refs, s)
  {
    ValuesOfEntries(refs);
    EntriesAreGood(refs, EntriesOfAll(refs));
    OneArrayDecodes(EntriesOfAll(refs), s);
    AsOneArray(refs);
  }

  method WriteRefs(w: Writer, refs: seq<Ref>)
    modifies w
    ensures w.out == old(w.out) + RefMaps(EntriesOfAll(refs))
  {
    for i := 0 to |refs|
      invariant w.out == old(w.out) + RefMaps(EntriesOfAll(refs[..i]))
    {
      MarshalRef(w, refs[i]);
      OneMore(old(w.out), refs, i);
    }
    assert refs[..|refs|] == refs;
  }

  method MarshalRefs(w: Writer, refs: seq<Ref>) returns (ok: bool)
    modifies w
    ensures ok <==> |refs| <= MAX_LENGTH
    ensures ok ==> w.out == old(w.out) + EncodeRefs(refs)
  {
    w.Write([161]);
    w.WriteText(REFS);
    if |refs| > MAX_LENGTH { return false; }
    w.WriteHead(ARRAY, |refs|);
    WriteRefs(w, refs);
    MapOfOne();
    Grouped(old(w.out), [161], EncodeText(REFS), EncodeHead(ARRAY, |refs|), RefMaps(EntriesOfAll(refs)));
    return true;
  }

  lemma Grouped(o: seq<Byte>, h: seq<Byte>, a: seq<Byte>, b: seq<Byte>, c: seq<Byte>)
    ensures o + h + a + b + c == o + (h + a + b + c)
  {}

  lemma MapOfOne()
    ensures EncodeHead(MAP, 1) == [161]
  {}

  lemma OneMore(start: seq<Byte>, refs: seq<Ref>, i: nat)
    requires i < |refs|
    ensures start + RefMaps(EntriesOfAll(refs[..i])) + EncodeRef(refs[i]) == start + RefMaps(EntriesOfAll(refs[..i + 1]))
  {
    assert refs[..i + 1][..i] == refs[..i];
    var maps := EntriesOfAll(refs[..i + 1]);
    assert maps[..i] == EntriesOfAll(refs[..i]) && maps[i] == RefEntriesOf(refs[i]);
  }

  lemma {:induction false} ReadRefsFails(s: seq<Byte>, n: nat, m: nat)
    requires n <= m && ReadRefs(s, n).Err?
    ensures ReadRefs(s, m) == ReadRefs(s, n)
  {
    if n < m {
      ReadRefsFails(s, n, m - 1);
    }
  }

  method NextRefs(r: Reader, n: nat) returns (out: Outcome<seq<Ref>>)
    modifies r
    ensures Agrees(ReadRefs(old(r.rest), n), out, r.rest)
  {
    var vs: seq<Ref> := [];
    ghost var start := r.rest;
    for i := 0 to n
      invariant ReadRefs(start, i) == Ok(vs, r.rest)
    {
      ReadRefsMore(start, i, vs, r.rest);
      var v := UnmarshalRef(r);
      if v.Failed? {
        ReadRefsFails(start, i + 1, n);
        return Failed(v.error);
      }
      vs := vs + [v.value];
    }
    return Done(vs);
  }

  method NextRefsField(r: Reader, refs: seq<Ref>) returns (out: Outcome<seq<Ref>>)
    modifies r
    ensures Agrees(ReadRefsField(old(r.rest), refs), out, r.rest)
  {
    var bad, head := r.NextHead();
    if bad || head.extra > MAX_LENGTH || head.major != ARRAY { return Failed(Malformed); }
    if head.extra == 0 { return Done(refs); }
    out := NextRefs(r, head.extra);
  }

  method NextRefsEntry(r: Reader, refs: seq<Ref>) returns (out: Outcome<seq<Ref>>)
    modifies r
    ensures Agrees(ReadRefsEntry(old(r.rest), refs), out, r.rest)
  {
    var bad, key := r.NextText();
    if bad { return Failed(Malformed); }
    if key != REFS { return Failed(Unknown); }
    out := NextRefsField(r, refs);
  }

  method NextRefsEntries(r: Reader, n: nat) returns (out: Outcome<seq<Ref>>)
    modifies r
    ensures Agrees(ReadRefsEntries(old(r.rest), n, []), out, r.rest)
  {
    ghost var start := r.rest;
    out := Done([]);
    for i := 0 to n
      invariant out.Done? && ReadRefsEntries(start, n, []) == ReadRefsEntries(r.rest, n - i, out.value)
    {
      out := NextRefsEntry(r, out.value);
      if out.Failed? { return; }
    }
  }

  method UnmarshalRefs(r: Reader) returns (out: Outcome<seq<Ref>>)
    modifies r
    ensures Agrees(DecodeRefs(old(r.rest)), out, r.rest)
  {
    var bad, head := r.NextHead();
    if bad || head.major != MAP || head.extra > MAX_LENGTH { return Failed(Malformed); }
    out := NextRefsEntries(r, head.extra);
  }
}
