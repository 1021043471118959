/** The cache of blocks known to be bad, with the reason for each. */
module BadBlocks {
  import opened Options
  import opened TipSets

  datatype Reason = Reason(text: string, tipset: Key, original: Option<Reason>)

  function NewReason(tipset: Key, text: string): Reason {
    Reason(text, tipset, None)
  }

  function Root(r: Reason): Reason {
    if r.original.Some? then r.original.value else r
  }

  function Linked(r: Reason, text: string): Reason {
    Reason(text, [], Some(Root(r)))
  }

  /** The original of a linked reason is not itself linked. */
  predicate Flat(r: Reason) {
    r.original.Some? ==> r.original.value.original.None?
  }

  class Cache {
    var blocks: map<Cid, Reason>

    constructor ()
      ensures blocks == map[]
    {
      blocks := map[];
    }

    method Add(c: Cid, r: Reason)
      modifies this
      ensures blocks == old(blocks)[c := r]
    {
      blocks := blocks[c := r];
    }

    method AddAll(cs: seq<Cid>, r: Reason)
      modifies this
      ensures blocks == Marked(old(blocks), cs, r)
    {
      for i := 0 to |cs|
        invariant blocks == Marked(old(blocks), cs[..i], r)
      {
        Add(cs[i], r);
      }
      assert cs[..|cs|] == cs;
    }

    method Remove(c: Cid)
      modifies this
      ensures blocks == old(blocks) - {c}
    {
      blocks := blocks - {c};
    }

    method Purge()
      modifies this
      ensures blocks == map[]
    {
      blocks := map[];
    }

    method Has(c: Cid) returns (r: Option<Reason>)
      ensures r == if c in blocks then Some(blocks[c]) else None
    {
      if c in blocks {
        return Some(blocks[c]);
      }
      return None;
    }

    /** The first of `cs` that is bad. */
    method FirstBad(cs: seq<Cid>) returns (hit: Option<Cid>)
      ensures hit.Some? ==> exists i | 0 <= i < |cs| :: hit.value == cs[i] && cs[i] in blocks && forall k | 0 <= k < i :: cs[k] !in blocks
      ensures hit.None? ==> forall c | c in cs :: c !in blocks
    {
      for i := 0 to |cs|
        invariant forall k | 0 <= k < i :: cs[k] !in blocks
      {
        var reason := Has(cs[i]);
        if reason.Some? { return Some(cs[i]); }
      }
      return None;
    }
  }

  /** Every one of `cs` given the reason `r`. */
  function Marked(blocks: map<Cid, Reason>, cs: seq<Cid>, r: Reason): map<Cid, Reason> {
    map c | c in blocks.Keys + (set x | x in cs) :: if c in cs then r else blocks[c]
  }

  datatype Event =
    | MarkBad(c: Cid, tipset: Key, text: string)
    | MarkLinked(c: Cid, cause: Cid, text: string)
    | Forget(c: Cid)
    | Clear

  /** A linked reason is made from that of a block already in the cache. */
  predicate Enabled(blocks: map<Cid, Reason>, e: Event) {
    e.MarkLinked? ==> e.cause in blocks
  }

  function Next(blocks: map<Cid, Reason>, e: Event): map<Cid, Reason>
    requires Enabled(blocks, e)
  {
    match e
    case MarkBad(c, tipset, text) => blocks[c := NewReason(tipset, text)]
    case MarkLinked(c, cause, text) => blocks[c := Linked(blocks[cause], text)]
    case Forget(c) => blocks - {c}
    case Clear => map[]
  }

  datatype Run = Start | Then(before: Run, event: Event, after: map<Cid, Reason>)

  function Final(run: Run): map<Cid, Reason> {
    if run.Start? then map[] else run.after
  }

  predicate IsRun(run: Run) {
    run.Then? ==>
      IsRun(run.before) && Enabled(Final(run.before), run.event) && run.after == Next(Final(run.before), run.event)
  }

  /** In every cache that can come about, chains of reasons have length one. */
  lemma {:induction false} ReasonsStayFlat(run: Run)
    requires IsRun(run)
    ensures forall c | c in Final(run) :: Flat(Final(run)[c])
  {
    if run.Then? {
      ReasonsStayFlat(run.before);
    }
  }
}
