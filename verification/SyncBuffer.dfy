/** The circular buffer of recently synced tipsets. */
module SyncBuffer {
  import opened Options
  import opened TipSets

  /** The last `n` entries of a log, or all of it. */
  function Recent(log: seq<TipSet>, n: nat): (r: seq<TipSet>) {
    if |log| <= n then log else log[|log| - n..]
  }

  /** `ts`, or something heavier, is among `recent`. */
  predicate Covers(recent: seq<TipSet>, ts: TipSet) {
    exists i | 0 <= i < |recent| :: Equals(recent[i], ts) || IsHeavier(recent[i], ts)
  }

  lemma Wrap(i: nat, n: nat)
    requires 0 < i <= n
    ensures i % n == if i == n then 0 else i
  {}

  class Buffer {
    const buf: array<Option<TipSet>>
    var next: nat
    /** Everything ever pushed, and how much of it precedes the current lap. */
    ghost var log: seq<TipSet>
    ghost var lap: nat

    ghost predicate Valid()
      reads this, buf
    {
      && next < buf.Length
      && |log| == lap + next
      && (lap == 0 || lap >= buf.Length)
      && (forall i | 0 <= i < next :: buf[i] == Some(log[lap + i]))
      && (forall i | next <= i < buf.Length ::
            buf[i] == if lap == 0 then None else Some(log[lap - buf.Length + i]))
    }

    constructor (size: nat)
      requires size > 0
      ensures Valid() && fresh(buf) && buf.Length == size && log == []
    {
      buf := new Option<TipSet>[size](_ => None);
      next := 0;
      log, lap := [], 0;
    }

    method Push(ts: TipSet)
      requires Valid()
      modifies this, buf
      ensures Valid()
      ensures log == old(log) + [ts]
    {
      Wrap(next + 1, buf.Length);
      buf[next] := Some(ts);
      log := log + [ts];
      if next + 1 == buf.Length {
        lap := lap + buf.Length;
      }
      next := (next + 1) % buf.Length;
    }

    method Synced(ts: TipSet) returns (r: bool)
      requires Valid()
      ensures r == Covers(Recent(log, buf.Length), ts)
    {
      ghost var recent := Recent(log, buf.Length);
      for i := 0 to buf.Length
        invariant forall k | 0 <= k < i && buf[k].Some? ::
                    !Equals(buf[k].value, ts) && !IsHeavier(buf[k].value, ts)
      {
        var rts := buf[i];
        if rts.Some? && (Equals(rts.value, ts) || IsHeavier(rts.value, ts)) {
          assert recent[if i < next then |recent| - next + i else i - next] == rts.value;
          return true;
        }
      }
      forall k | 0 <= k < |recent|
        ensures !Equals(recent[k], ts) && !IsHeavier(recent[k], ts)
      {
        var slot := if |log| < buf.Length then k
                    else if k < buf.Length - next then next + k else k - (buf.Length - next);
        assert buf[slot] == Some(recent[k]);
      }
      return false;
    }
  }
}
