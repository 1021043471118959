/** `iterFullTipsets`: a chain of headers filled with messages, from the store or
    fetched, and handed to a callback. */
module MessageIteration {
  import opened Options
  import opened TipSets
  import opened ForkChoice
  import opened MessageFetch

  const CONCURRENT_REQUESTS := 16

  /** What happens, in order: a batch is requested; the callback is called, and returns
      without error or not; the messages of a fetched tipset are persisted. */
  datatype Action =
    | Request(lo: nat, n: nat)
    | Call(header: TipSet, msgs: Msgs, fetched: bool, ok: bool)
    | Persist(header: TipSet, msgs: Msgs)

  datatype Fill = Filled(msgs: Msgs) | Missing | FillError

  /** What the outside answers for the header at an index. */
  datatype Outside = Outside(tryFill: nat -> Fill, fetch: (nat, nat) -> Option<seq<Option<Msgs>>>, zips: nat -> bool,
                             accepts: nat -> bool, persists: nat -> bool)

  /** A batch is what some run of `fetchMessages` leaves behind. */
  ghost predicate FetchOutcome(contents: TipSet -> Msgs, headers: seq<TipSet>, r: Option<seq<Option<Msgs>>>) {
    exists run ::
      && IsRun(contents, headers, run) && Shape(|headers|, Final(|headers|, run)) && Done(|headers|, Final(|headers|, run))
      && r == if Final(|headers|, run).failed then None else Some(Final(|headers|, run).batch)
  }

  ghost predicate Faithful(contents: TipSet -> Msgs, headers: seq<TipSet>, o: Outside) {
    && (forall i: nat | i < |headers| && o.tryFill(i).Filled? :: o.tryFill(i).msgs == contents(headers[i]))
    && (forall lo: nat, n: nat | lo + n <= |headers| :: FetchOutcome(contents, headers[lo..lo + n], o.fetch(lo, n)))
  }

  lemma BatchMatches(contents: TipSet -> Msgs, headers: seq<TipSet>, r: Option<seq<Option<Msgs>>>)
    requires FetchOutcome(contents, headers, r)
    ensures r.Some? ==> |r.value| == |headers| && forall k | 0 <= k < |headers| :: r.value[k] == Some(contents(headers[k]))
  {
    var run :| && IsRun(contents, headers, run) && Shape(|headers|, Final(|headers|, run)) && Done(|headers|, Final(|headers|, run))
               && r == if Final(|headers|, run).failed then None else Some(Final(|headers|, run).batch);
    FetchedInOrder(contents, headers, run);
  }

  lemma FetchedBatch(contents: TipSet -> Msgs, headers: seq<TipSet>, o: Outside, lo: nat, n: nat)
    requires Faithful(contents, headers, o) && lo + n <= |headers| && o.fetch(lo, n).Some?
    ensures |o.fetch(lo, n).value| == n && forall k | 0 <= k < n :: o.fetch(lo, n).value[k] == Some(contents(headers[lo + k]))
  {
    BatchMatches(contents, headers[lo..lo + n], o.fetch(lo, n));
  }

  method Fetch(headers: seq<TipSet>, o: Outside, lo: nat, n: nat, ghost contents: TipSet -> Msgs) returns (r: Option<seq<Msgs>>)
    requires Faithful(contents, headers, o) && lo + n <= |headers|
    ensures r.None? <==> o.fetch(lo, n).None?
    ensures r.Some? ==> |r.value| == n && forall k | 0 <= k < n :: r.value[k] == contents(headers[lo + k])
  {
    var out := o.fetch(lo, n);
    if out.None? { return None; }
    FetchedBatch(contents, headers, o, lo, n);
    return Some(seq(n, k requires 0 <= k < n => out.value[k].value));
  }

  /** The headers the callback was called for, in order. */
  function Called(log: seq<Action>): seq<TipSet> {
    if log == [] then []
    else
      var a := log[|log| - 1];
      Called(log[..|log| - 1]) + if a.Call? then [a.header] else []
  }

  /** The headers from index `i` on, last first. */
  function FromLast(headers: seq<TipSet>, i: nat): seq<TipSet>
    requires i <= |headers|
    decreases |headers| - i
  {
    if i == |headers| then [] else FromLast(headers, i + 1) + [headers[i]]
  }

  /** Nothing is left to do after the last action: a call, if that is what it was,
      succeeded and had no fetched messages to persist. */
  predicate AtRest(log: seq<Action>) {
    log != [] ==> var a := log[|log| - 1]; a.Call? ==> a.ok && !a.fetched
  }

  /** Every call and every persist has the messages of its header. Messages are
      persisted only straight after a successful call with them, and nothing else
      comes between or follows a failed call. */
  predicate Orderly(contents: TipSet -> Msgs, log: seq<Action>) {
    log == [] ||
    var rest, a := log[..|log| - 1], log[|log| - 1];
    && Orderly(contents, rest)
    && match a
       case Request(_, _) => AtRest(rest)
       case Call(header, msgs, _, _) => AtRest(rest) && msgs == contents(header)
       case Persist(header, msgs) =>
         msgs == contents(header) && rest != [] && rest[|rest| - 1] == Call(header, msgs, true, true)
  }

  /** The headers from index `i` on are what has been called back so far. */
  ghost predicate At(contents: TipSet -> Msgs, headers: seq<TipSet>, i: nat, log: seq<Action>) {
    i <= |headers| && Orderly(contents, log) && Called(log) == FromLast(headers, i)
  }

  /** The index the last batch requested starts at. */
  function BatchStart(log: seq<Action>, n: nat): nat {
    if log == [] then n
    else if log[|log| - 1].Request? then log[|log| - 1].lo
    else BatchStart(log[..|log| - 1], n)
  }

  /** The header below index `i` is part of the last batch requested. */
  predicate InBatch(log: seq<Action>, n: nat, i: nat) {
    BatchStart(log, n) < i <= n
  }

  /** Action `a` is what the answers from outside lead to after `rest`, and leaves the
      iteration at index `i`: a header that is stored is called back with what is stored;
      one that is not has a batch of up to 128 headers requested that ends with it; the
      headers of a batch are called back if their messages fit, and persisted. */
  predicate Next(headers: seq<TipSet>, o: Outside, contents: TipSet -> Msgs, rest: seq<Action>, a: Action, i: nat) {
    match a
    case Request(lo, n) =>
      && AtRest(rest) && !InBatch(rest, |headers|, i)
      && 0 < i <= |headers| && o.tryFill(i - 1).Missing? && n == (if i <= 128 then i else 128) && lo == i - n
    case Call(header, msgs, fetched, ok) =>
      && i < |headers| && AtRest(rest)
      && header == headers[i] && msgs == contents(header) && ok == o.accepts(i)
      && fetched == InBatch(rest, |headers|, i + 1)
      && if fetched then o.zips(i) else o.tryFill(i).Filled?
    case Persist(header, msgs) =>
      && i < |headers| && o.persists(i)
      && rest != [] && rest[|rest| - 1] == Call(header, msgs, true, true)
  }

  /** The index before action `a`, if it is `i` afterwards. */
  function Before(a: Action, i: nat): nat {
    if a.Call? then i + 1 else i
  }

  /** The whole log is what the answers from outside lead to, down to index `i`. */
  predicate Follows(headers: seq<TipSet>, o: Outside, contents: TipSet -> Msgs, log: seq<Action>, i: nat)
    decreases |log|
  {
    if log == [] then i == |headers|
    else
      var rest, a := log[..|log| - 1], log[|log| - 1];
      Next(headers, o, contents, rest, a, i) && Follows(headers, o, contents, rest, Before(a, i))
  }

  /** Why it ends without having called back for all headers. */
  predicate Stopped(headers: seq<TipSet>, o: Outside, log: seq<Action>, i: nat) {
    if log != [] && log[|log| - 1].Call? && !log[|log| - 1].ok then i < |headers| && !o.accepts(i)
    else if !AtRest(log) then i < |headers| && !o.persists(i)
    else if log != [] && log[|log| - 1].Request? && o.fetch(log[|log| - 1].lo, log[|log| - 1].n).None? then true
    else if InBatch(log, |headers|, i) then !o.zips(i - 1)
    else 0 < i && o.tryFill(i - 1).FillError?
  }

  /** All answers are good. */
  ghost predicate AllGood(o: Outside, n: nat) {
    && (forall i: nat | i < n :: !o.tryFill(i).FillError? && o.zips(i) && o.accepts(i) && o.persists(i))
    && (forall lo: nat, k: nat | lo + k <= n :: o.fetch(lo, k).Some?)
  }

  lemma {:induction false} BatchStartFits(headers: seq<TipSet>, o: Outside, contents: TipSet -> Msgs, log: seq<Action>, i: nat)
    requires Follows(headers, o, contents, log, i)
    ensures i <= |headers| && BatchStart(log, |headers|) <= |headers|
    ensures log != [] && log[|log| - 1].Request? ==> InBatch(log, |headers|, i)
    decreases |log|
  {
    if log != [] {
      var a := log[|log| - 1];
      BatchStartFits(headers, o, contents, log[..|log| - 1], Before(a, i));
    }
  }

  /** What follows the answers is orderly and calls back for the headers in turn. */
  lemma {:induction false} FollowsAt(headers: seq<TipSet>, o: Outside, contents: TipSet -> Msgs, log: seq<Action>, i: nat)
    requires Follows(headers, o, contents, log, i)
    ensures At(contents, headers, i, log)
    decreases |log|
  {
    if log != [] {
      var a := log[|log| - 1];
      FollowsAt(headers, o, contents, log[..|log| - 1], Before(a, i));
    }
  }

  /** With good answers nothing stops it. */
  lemma GoodNeverStops(headers: seq<TipSet>, o: Outside, contents: TipSet -> Msgs, log: seq<Action>, i: nat)
    requires AllGood(o, |headers|) && Follows(headers, o, contents, log, i)
    ensures !Stopped(headers, o, log, i)
  {
    BatchStartFits(headers, o, contents, log, i);
    if log != [] && log[|log| - 1].Request? {
      var a := log[|log| - 1];
      assert a.lo + a.n <= |headers|;
    }
  }

  lemma FollowOn(headers: seq<TipSet>, o: Outside, contents: TipSet -> Msgs, log: seq<Action>, a: Action, i: nat)
    requires Follows(headers, o, contents, log, Before(a, i)) && Next(headers, o, contents, log, a, i)
    ensures Follows(headers, o, contents, log + [a], i)
    ensures BatchStart(log + [a], |headers|) == if a.Request? then a.lo else BatchStart(log, |headers|)
  {
    var out := log + [a];
    assert out[..|out| - 1] == log && out[|out| - 1] == a;
  }

  class Iteration {
    var log: seq<Action>

    constructor ()
      ensures log == []
    {
      log := [];
    }

    /** Call back for one fetched header and persist its messages. */
    method CallFetched(headers: seq<TipSet>, o: Outside, k: nat, msgs: Msgs, ghost contents: TipSet -> Msgs) returns (ok: bool, ghost i: nat)
      requires k < |headers| && msgs == contents(headers[k])
      requires Follows(headers, o, contents, log, k + 1) && AtRest(log) && InBatch(log, |headers|, k + 1)
      requires log[|log| - 1].Request? ==> o.fetch(log[|log| - 1].lo, log[|log| - 1].n).Some?
      modifies this
      ensures k <= i && Follows(headers, o, contents, log, i)
      ensures BatchStart(log, |headers|) == BatchStart(old(log), |headers|)
      ensures ok ==> i == k && AtRest(log) && log != [] && log[|log| - 1].Persist?
      ensures !ok ==> Stopped(headers, o, log, i)
    {
      if !o.zips(k) { return false, k + 1; }
      var header := headers[k];
      FollowOn(headers, o, contents, log, Call(header, msgs, true, o.accepts(k)), k);
      log := log + [Call(header, msgs, true, o.accepts(k))];
      if !o.accepts(k) || !o.persists(k) { return false, k; }
      FollowOn(headers, o, contents, log, Persist(header, msgs), k);
      log := log + [Persist(header, msgs)];
      return true, k;
    }

    /** Call back for the headers of a fetched batch, the last one first. */
    method CallBatch(headers: seq<TipSet>, o: Outside, lo: nat, batch: seq<Msgs>, ghost contents: TipSet -> Msgs) returns (ok: bool, ghost i: nat)
      requires batch != [] && lo + |batch| <= |headers|
      requires Follows(headers, o, contents, log, lo + |batch|) && AtRest(log) && BatchStart(log, |headers|) == lo
      requires log[|log| - 1].Request? ==> o.fetch(log[|log| - 1].lo, log[|log| - 1].n).Some?
      requires forall k | 0 <= k < |batch| :: batch[k] == contents(headers[lo + k])
      modifies this
      ensures lo <= i && Follows(headers, o, contents, log, i)
      ensures ok ==> i == lo && AtRest(log) && BatchStart(log, |headers|) == lo
      ensures !ok ==> Stopped(headers, o, log, i)
    {
      i := lo + |batch|;
      for bsi := 0 to |batch|
        invariant i == lo + |batch| - bsi && Follows(headers, o, contents, log, i) && AtRest(log)
        invariant BatchStart(log, |headers|) == lo
        invariant log != [] && (log[|log| - 1].Request? ==> o.fetch(log[|log| - 1].lo, log[|log| - 1].n).Some?)
      {
        var k := |batch| - (bsi + 1);
        ok, i := CallFetched(headers, o, lo + k, batch[k], contents);
        if !ok { return false, i; }
      }
      return true, i;
    }

    /** The callback sees each header once, parents before children, with its own
        messages; after an error it has seen those from index `i` on, and there is a
        cause for the error at that point. */
    method IterFullTipsets(headers: seq<TipSet>, o: Outside, ghost contents: TipSet -> Msgs) returns (ok: bool, ghost i: nat)
      requires log == [] && Faithful(contents, headers, o)
      modifies this
      ensures Follows(headers, o, contents, log, i) && At(contents, headers, i, log)
      ensures ok ==> i == 0 && AtRest(log)
      ensures !ok ==> Stopped(headers, o, log, i)
      ensures AllGood(o, |headers|) ==> ok
    {
      ok, i := Iterate(headers, o, contents);
      FollowsAt(headers, o, contents, log, i);
      if AllGood(o, |headers|) {
        GoodNeverStops(headers, o, contents, log, i);
      }
    }

    /** Call back for a header that is stored. */
    method CallStored(headers: seq<TipSet>, o: Outside, k: nat, msgs: Msgs, ghost contents: TipSet -> Msgs) returns (ok: bool)
      requires k < |headers| && msgs == contents(headers[k]) && o.tryFill(k).Filled?
      requires Follows(headers, o, contents, log, k + 1) && AtRest(log) && !InBatch(log, |headers|, k + 1)
      modifies this
      ensures Follows(headers, o, contents, log, k) && BatchStart(log, |headers|) == BatchStart(old(log), |headers|)
      ensures ok ==> AtRest(log) && log != [] && log[|log| - 1].Call?
      ensures !ok ==> Stopped(headers, o, log, k)
    {
      FollowOn(headers, o, contents, log, Call(headers[k], msgs, false, o.accepts(k)), k);
      log := log + [Call(headers[k], msgs, false, o.accepts(k))];
      return o.accepts(k);
    }

    /** Request the batch that ends below `left`, and call back for it. */
    method FetchBatch(headers: seq<TipSet>, o: Outside, left: nat, ghost contents: TipSet -> Msgs) returns (ok: bool, size: nat, ghost i: nat)
      requires 0 < left <= |headers| && Faithful(contents, headers, o) && o.tryFill(left - 1).Missing?
      requires Follows(headers, o, contents, log, left) && AtRest(log) && !InBatch(log, |headers|, left)
      modifies this
      ensures Follows(headers, o, contents, log, i)
      ensures ok ==> 0 < size <= left && i == left - size && AtRest(log) && BatchStart(log, |headers|) == i
      ensures !ok ==> Stopped(headers, o, log, i)
    {
      i := left;
      size := CONCURRENT_REQUESTS * REQUEST_BATCH;
      if left - 1 < size { size := left; }
      var startOffset := left - size;
      FollowOn(headers, o, contents, log, Request(startOffset, size), left);
      log := log + [Request(startOffset, size)];
      var batch := Fetch(headers, o, startOffset, size, contents);
      if batch.None? { return false, size, i; }
      ok, i := CallBatch(headers, o, startOffset, batch.value, contents);
    }

    method Iterate(headers: seq<TipSet>, o: Outside, ghost contents: TipSet -> Msgs) returns (ok: bool, ghost i: nat)
      requires log == [] && Faithful(contents, headers, o)
      modifies this
      ensures Follows(headers, o, contents, log, i)
      ensures ok ==> i == 0 && AtRest(log)
      ensures !ok ==> Stopped(headers, o, log, i)
    {
      i := |headers|;
      var left := |headers|;
      while left > 0
        invariant left == i <= |headers| && Follows(headers, o, contents, log, i) && AtRest(log)
        invariant !InBatch(log, |headers|, i)
      {
        BatchStartFits(headers, o, contents, log, i);
        var fill := o.tryFill(left - 1);
        if fill.FillError? { return false, i; }
        if fill.Filled? {
          ok := CallStored(headers, o, left - 1, fill.msgs, contents);
          i := i - 1;
          if !ok { return false, i; }
          left := left - 1;
          continue;
        }
        var size;
        ok, size, i := FetchBatch(headers, o, left, contents);
        if !ok { return false, i; }
        left := left - size;
      }
      return true, i;
    }
  }

  /** In a parent-linked chain each callback after the first is for a child of the
      one before it. */
  lemma {:induction false} ParentsFirst(headers: seq<TipSet>, i: nat, a: nat)
    requires LinkedDown(headers) && i <= |headers|
    ensures |FromLast(headers, i)| == |headers| - i
    ensures a < |headers| - i ==> FromLast(headers, i)[a] == headers[|headers| - 1 - a]
    ensures a + 1 < |headers| - i ==> IsChildOf(FromLast(headers, i)[a + 1], FromLast(headers, i)[a])
    decreases |headers| - i
  {
    if i < |headers| {
      ParentsFirst(headers, i + 1, a);
      if a + 1 < |headers| - i {
        assert IsChildOf(headers[|headers| - 2 - a], headers[|headers| - 2 - a + 1]);
      }
      if a + 1 == |headers| - i - 1 {
        assert FromLast(headers, i)[a + 1] == headers[i];
      }
    }
  }
}
