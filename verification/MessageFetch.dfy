/** `fetchMessages`: the messages of a batch of tipsets, requested by concurrent
    workers of eight tipsets each, with retries and partial replies. */
module MessageFetch {
  import opened Options
  import opened TipSets

  const REQUEST_BATCH := 8
  const RETRIES := 5

  /** The messages of one tipset. */
  type Msgs = nat

  /** A worker is asking, with the number of failed tries so far; or holds a reply
      it has yet to copy; or has given up. */
  datatype Phase = Asking(retry: nat) | Holding(result: seq<Msgs>) | GaveUp

  datatype Worker = Worker(offset: nat, phase: Phase)

  /** `asked[k]` counts the requests that start at header `k` and `settled[k]` the
      times the mutex was taken for header `k`. */
  datatype State = State(batch: seq<Option<Msgs>>, workers: seq<Worker>, failed: bool, asked: seq<nat>, settled: seq<nat>)

  /** What a request about `headers` may answer: the messages of a non-empty prefix. */
  predicate GoodReply(contents: TipSet -> Msgs, headers: seq<TipSet>, reply: seq<Msgs>) {
    0 < |reply| <= |headers| && forall i | 0 <= i < |reply| :: reply[i] == contents(headers[i])
  }

  function WorkerCount(n: nat): nat {
    (n + REQUEST_BATCH - 1) / REQUEST_BATCH
  }

  /** How many headers worker `g` is to cover, from header `8 * g` on. */
  function Share(n: nat, g: nat): nat
    requires g < WorkerCount(n)
  {
    if REQUEST_BATCH * (g + 1) > n then n - REQUEST_BATCH * g else REQUEST_BATCH
  }

  predicate Shape(n: nat, s: State) {
    |s.batch| == |s.asked| == |s.settled| == n && |s.workers| == WorkerCount(n)
  }

  predicate Active(n: nat, s: State, g: nat)
    requires Shape(n, s) && g < |s.workers|
  {
    !s.workers[g].phase.GaveUp? && s.workers[g].offset < Share(n, g)
  }

  function NextHeader(s: State, g: nat): nat
    requires g < |s.workers|
  {
    REQUEST_BATCH * g + s.workers[g].offset
  }

  function Initial(n: nat): State {
    State(seq(n, _ => None), seq(WorkerCount(n), _ => Worker(0, Asking(0))), false, seq(n, _ => 0), seq(n, _ => 0))
  }

  datatype Event = Ask(g: nat, reply: Option<seq<Msgs>>) | Settle(g: nat)

  predicate Enabled(contents: TipSet -> Msgs, headers: seq<TipSet>, s: State, e: Event)
    requires Shape(|headers|, s)
  {
    && e.g < |s.workers| && Active(|headers|, s, e.g)
    && var phase := s.workers[e.g].phase;
    match e
    case Ask(g, reply) =>
      && phase.Asking? && phase.retry < RETRIES
      && (reply.Some? ==>
            GoodReply(contents, headers[NextHeader(s, g)..REQUEST_BATCH * g + Share(|headers|, g)], reply.value))
    case Settle(_) => phase.Holding? || phase == Asking(RETRIES)
  }

  /** Go's `copy` into the slots from `at` on. */
  function Copied(batch: seq<Option<Msgs>>, at: nat, reply: seq<Msgs>): (r: seq<Option<Msgs>>)
    ensures |r| == |batch|
  {
    seq(|batch|, k requires 0 <= k < |batch| => if at <= k < at + |reply| then Some(reply[k - at]) else batch[k])
  }

  function Asked(s: State, g: nat, reply: Option<seq<Msgs>>): State
    requires g < |s.workers| && s.workers[g].phase.Asking? && NextHeader(s, g) < |s.asked|
  {
    var w := s.workers[g];
    var phase := if reply.Some? then Holding(reply.value) else Asking(w.phase.retry + 1);
    s.(workers := s.workers[g := w.(phase := phase)], asked := s.asked[NextHeader(s, g) := s.asked[NextHeader(s, g)] + 1])
  }

  function Settled(s: State, g: nat): State
    requires g < |s.workers| && NextHeader(s, g) < |s.settled|
  {
    var w, at := s.workers[g], NextHeader(s, g);
    var settled := s.settled[at := s.settled[at] + 1];
    if w.phase.Holding? then
      var w' := Worker(w.offset + |w.phase.result|, Asking(0));
      s.(batch := Copied(s.batch, at, w.phase.result), workers := s.workers[g := w'], settled := settled)
    else
      s.(failed := true, workers := s.workers[g := w.(phase := GaveUp)], settled := settled)
  }

  function Next(contents: TipSet -> Msgs, headers: seq<TipSet>, s: State, e: Event): (s': State)
    requires Shape(|headers|, s) && Enabled(contents, headers, s, e)
    ensures Shape(|headers|, s')
  {
    match e
    case Ask(g, reply) => Asked(s, g, reply)
    case Settle(g) => Settled(s, g)
  }

  datatype Run = Start | Then(before: Run, event: Event, after: State)

  function Final(n: nat, run: Run): State {
    if run.Start? then Initial(n) else run.after
  }

  predicate IsRun(contents: TipSet -> Msgs, headers: seq<TipSet>, run: Run) {
    run.Then? ==>
      && IsRun(contents, headers, run.before)
      && Shape(|headers|, Final(|headers|, run.before))
      && Enabled(contents, headers, Final(|headers|, run.before), run.event)
      && run.after == Next(contents, headers, Final(|headers|, run.before), run.event)
  }

  /** `wg.Wait` returns: no worker has anything left to do. */
  predicate Done(n: nat, s: State)
    requires Shape(n, s)
  {
    forall g: nat | g < |s.workers| :: !Active(n, s, g)
  }

  // ---------- the invariant ----------

  /** What holds of worker `g` and its own slots. */
  predicate WorkerInv(contents: TipSet -> Msgs, headers: seq<TipSet>, s: State, g: nat)
    requires Shape(|headers|, s) && g < |s.workers|
  {
    var w, lo, hi := s.workers[g], REQUEST_BATCH * g, REQUEST_BATCH * g + Share(|headers|, g);
    && lo + w.offset <= hi
    && (forall k | lo <= k < lo + w.offset :: s.batch[k] == Some(contents(headers[k])) && s.asked[k] <= RETRIES && s.settled[k] <= 1)
    && (forall k | lo + w.offset < k < hi :: s.asked[k] == 0 && s.settled[k] == 0)
    && (w.phase.Holding? ==> lo + w.offset < hi && GoodReply(contents, headers[lo + w.offset..hi], w.phase.result))
    && (w.phase.GaveUp? ==> lo + w.offset < hi && s.failed)
    && (lo + w.offset < hi ==> Progress(w.phase, s.asked[lo + w.offset], s.settled[lo + w.offset]))
  }

  predicate Progress(phase: Phase, asked: nat, settled: nat) {
    match phase
    case Asking(retry) => asked == retry <= RETRIES && settled == 0
    case Holding(_) => asked <= RETRIES && settled == 0
    case GaveUp => asked == RETRIES && settled == 1
  }

  ghost predicate Inv(contents: TipSet -> Msgs, headers: seq<TipSet>, s: State) {
    && Shape(|headers|, s)
    && (forall g: nat | g < |s.workers| :: WorkerInv(contents, headers, s, g))
    && (s.failed ==> exists g: nat | g < |s.workers| :: s.workers[g].phase.GaveUp?)
  }

  /** A step of one worker leaves the slots of the others alone. */
  lemma OthersKeep(contents: TipSet -> Msgs, headers: seq<TipSet>, s: State, e: Event, g: nat)
    requires Shape(|headers|, s) && Enabled(contents, headers, s, e) && g < |s.workers| && g != e.g
    requires WorkerInv(contents, headers, s, g) && WorkerInv(contents, headers, s, e.g)
    ensures WorkerInv(contents, headers, Next(contents, headers, s, e), g)
  {
    var at, hi := NextHeader(s, e.g), REQUEST_BATCH * e.g + Share(|headers|, e.g);
    var s' := Next(contents, headers, s, e);
    assert s'.workers[g] == s.workers[g];
    forall k: nat | REQUEST_BATCH * g <= k < REQUEST_BATCH * g + Share(|headers|, g)
      ensures s'.batch[k] == s.batch[k] && s'.asked[k] == s.asked[k] && s'.settled[k] == s.settled[k]
    {
      assert k < at || hi <= k;
    }
  }

  lemma AskKeeps(contents: TipSet -> Msgs, headers: seq<TipSet>, s: State, g: nat, reply: Option<seq<Msgs>>)
    requires Shape(|headers|, s) && Enabled(contents, headers, s, Ask(g, reply)) && WorkerInv(contents, headers, s, g)
    ensures WorkerInv(contents, headers, Next(contents, headers, s, Ask(g, reply)), g)
  {}

  lemma SettleKeeps(contents: TipSet -> Msgs, headers: seq<TipSet>, s: State, g: nat)
    requires Shape(|headers|, s) && Enabled(contents, headers, s, Settle(g)) && WorkerInv(contents, headers, s, g)
    ensures WorkerInv(contents, headers, Next(contents, headers, s, Settle(g)), g)
  {
    var w, at, hi := s.workers[g], NextHeader(s, g), REQUEST_BATCH * g + Share(|headers|, g);
    if w.phase.Holding? {
      var s' := Settled(s, g);
      forall k | REQUEST_BATCH * g <= k < at + |w.phase.result| ensures s'.batch[k] == Some(contents(headers[k])) {
        if at <= k {
          assert headers[at..hi][k - at] == headers[k];
        }
      }
    }
  }

  lemma StepKeepsInv(contents: TipSet -> Msgs, headers: seq<TipSet>, s: State, e: Event)
    requires Inv(contents, headers, s) && Enabled(contents, headers, s, e)
    ensures Inv(contents, headers, Next(contents, headers, s, e))
  {
    var s' := Next(contents, headers, s, e);
    forall g: nat | g < |s'.workers| ensures WorkerInv(contents, headers, s', g) {
      if g != e.g {
        OthersKeep(contents, headers, s, e, g);
      } else if e.Ask? {
        AskKeeps(contents, headers, s, g, e.reply);
      } else {
        SettleKeeps(contents, headers, s, g);
      }
    }
    if s.failed {
      var g: nat :| g < |s.workers| && s.workers[g].phase.GaveUp?;
      assert s'.workers[g].phase.GaveUp?;
    } else if s'.failed {
      assert s'.workers[e.g].phase.GaveUp?;
    }
  }

  lemma {:induction false} RunInvariant(contents: TipSet -> Msgs, headers: seq<TipSet>, run: Run)
    requires IsRun(contents, headers, run)
    ensures Inv(contents, headers, Final(|headers|, run))
  {
    if run.Then? {
      RunInvariant(contents, headers, run.before);
      StepKeepsInv(contents, headers, Final(|headers|, run.before), run.event);
    }
  }

  // ---------- what is promised ----------

  /** The worker that covers header `k`. */
  lemma OwnerOf(n: nat, k: nat) returns (g: nat)
    requires k < n
    ensures g < WorkerCount(n) && REQUEST_BATCH * g <= k < REQUEST_BATCH * g + Share(n, g)
  {
    g := k / REQUEST_BATCH;
  }

  lemma WorkerEnds(contents: TipSet -> Msgs, headers: seq<TipSet>, s: State, g: nat)
    requires Shape(|headers|, s) && g < |s.workers| && WorkerInv(contents, headers, s, g) && !Active(|headers|, s, g)
    ensures !s.workers[g].phase.GaveUp? ==>
              forall k: nat | REQUEST_BATCH * g <= k < REQUEST_BATCH * g + Share(|headers|, g) :: s.batch[k] == Some(contents(headers[k]))
    ensures s.workers[g].phase.GaveUp? ==>
              s.failed && NextHeader(s, g) < |headers| && s.asked[NextHeader(s, g)] == RETRIES
  {}

  lemma SlotsFilled(contents: TipSet -> Msgs, headers: seq<TipSet>, s: State, k: nat)
    requires Inv(contents, headers, s) && Done(|headers|, s) && !s.failed && k < |headers|
    ensures s.batch[k] == Some(contents(headers[k]))
  {
    var g := OwnerOf(|headers|, k);
    WorkerEnds(contents, headers, s, g);
  }

  /** Whatever the interleaving and however partial the replies: without an error
      every slot ends up with the messages of its own header, and an error is
      reported exactly when some worker gave up, after five requests from the
      header it had got to. */
  lemma FetchedInOrder(contents: TipSet -> Msgs, headers: seq<TipSet>, run: Run)
    requires IsRun(contents, headers, run) && Shape(|headers|, Final(|headers|, run)) && Done(|headers|, Final(|headers|, run))
    ensures var s := Final(|headers|, run);
            && (!s.failed ==> forall k | 0 <= k < |headers| :: s.batch[k] == Some(contents(headers[k])))
            && (s.failed <==> exists g: nat | g < |s.workers| :: s.workers[g].phase.GaveUp?)
            && (forall g: nat | g < |s.workers| && s.workers[g].phase.GaveUp? ::
                  NextHeader(s, g) < |headers| && s.asked[NextHeader(s, g)] == 5)
  {
    RunInvariant(contents, headers, run);
    var s := Final(|headers|, run);
    if !s.failed {
      forall k | 0 <= k < |headers| ensures s.batch[k] == Some(contents(headers[k])) {
        SlotsFilled(contents, headers, s, k);
      }
    }
    forall g: nat | g < |s.workers| && s.workers[g].phase.GaveUp?
      ensures s.failed && NextHeader(s, g) < |headers| && s.asked[NextHeader(s, g)] == RETRIES
    {
      WorkerEnds(contents, headers, s, g);
    }
  }

  /** At most five requests start at any header, and its slot is settled at most
      once by the worker in charge. */
  lemma RequestsPerHeader(contents: TipSet -> Msgs, headers: seq<TipSet>, run: Run, k: nat)
    requires IsRun(contents, headers, run) && k < |headers|
    ensures var s := Final(|headers|, run);
            Shape(|headers|, s) && s.asked[k] <= 5 && s.settled[k] <= 1
  {
    RunInvariant(contents, headers, run);
    var g := OwnerOf(|headers|, k);
    assert WorkerInv(contents, headers, Final(|headers|, run), g);
  }

  function Total(xs: seq<nat>): nat {
    if xs == [] then 0 else Total(xs[..|xs| - 1]) + xs[|xs| - 1]
  }

  lemma {:induction false} TotalBump(xs: seq<nat>, k: nat)
    requires k < |xs|
    ensures Total(xs[k := xs[k] + 1]) == Total(xs) + 1
  {
    var ys, n := xs[k := xs[k] + 1], |xs| - 1;
    if k == n {
      assert ys[..n] == xs[..n];
    } else {
      assert ys[..n] == xs[..n][k := xs[k] + 1];
      TotalBump(xs[..n], k);
    }
  }

  lemma {:induction false} TotalBound(xs: seq<nat>, b: nat)
    requires forall k | 0 <= k < |xs| :: xs[k] <= b
    ensures Total(xs) <= b * |xs|
  {
    if xs != [] {
      TotalBound(xs[..|xs| - 1], b);
    }
  }

  lemma {:induction false} TotalZero(xs: seq<nat>)
    requires forall k | 0 <= k < |xs| :: xs[k] == 0
    ensures Total(xs) == 0
  {
    if xs != [] {
      TotalZero(xs[..|xs| - 1]);
    }
  }

  function Length(run: Run): nat {
    if run.Start? then 0 else Length(run.before) + 1
  }

  lemma StepCounts(contents: TipSet -> Msgs, headers: seq<TipSet>, s: State, e: Event)
    requires Shape(|headers|, s) && Enabled(contents, headers, s, e)
    ensures var s' := Next(contents, headers, s, e);
            Total(s'.asked) + Total(s'.settled) == Total(s.asked) + Total(s.settled) + 1
  {
    if e.Ask? {
      TotalBump(s.asked, NextHeader(s, e.g));
    } else {
      TotalBump(s.settled, NextHeader(s, e.g));
    }
  }

  /** Each step of a run is one request or one settling. */
  lemma {:induction false} StepsCounted(contents: TipSet -> Msgs, headers: seq<TipSet>, run: Run)
    requires IsRun(contents, headers, run)
    ensures var s := Final(|headers|, run); Length(run) == Total(s.asked) + Total(s.settled)
  {
    var s' := Final(|headers|, run);
    if run.Start? {
      TotalZero(s'.asked);
      TotalZero(s'.settled);
    } else {
      StepsCounted(contents, headers, run.before);
      StepCounts(contents, headers, Final(|headers|, run.before), run.event);
    }
  }

  lemma StepsBounded(contents: TipSet -> Msgs, headers: seq<TipSet>, run: Run)
    requires IsRun(contents, headers, run)
    ensures Length(run) <= 6 * |headers|
  {
    StepsCounted(contents, headers, run);
    forall k: nat | k < |headers|
      ensures var s := Final(|headers|, run); Shape(|headers|, s) && s.asked[k] <= RETRIES && s.settled[k] <= 1
    {
      RequestsPerHeader(contents, headers, run, k);
    }
    RunShape(contents, headers, run);
    TotalBound(Final(|headers|, run).asked, RETRIES);
    TotalBound(Final(|headers|, run).settled, 1);
  }

  lemma RunShape(contents: TipSet -> Msgs, headers: seq<TipSet>, run: Run)
    requires IsRun(contents, headers, run)
    ensures Shape(|headers|, Final(|headers|, run))
  {}

  /** A worker that is not done can go on, even if no peer ever answers again. */
  lemma CanGoOn(contents: TipSet -> Msgs, headers: seq<TipSet>, s: State, g: nat)
    requires Shape(|headers|, s) && g < |s.workers| && WorkerInv(contents, headers, s, g) && Active(|headers|, s, g)
    ensures Enabled(contents, headers, s, Ask(g, None)) || Enabled(contents, headers, s, Settle(g))
  {}

  /** Fetching ends: no run has more than six steps a header, and a run that cannot
      be extended is done. */
  lemma FetchEnds(contents: TipSet -> Msgs, headers: seq<TipSet>, run: Run)
    requires IsRun(contents, headers, run)
    ensures Length(run) <= 6 * |headers|
    ensures var s := Final(|headers|, run);
            && Shape(|headers|, s)
            && ((forall e :: !Enabled(contents, headers, s, e)) ==> Done(|headers|, s))
  {
    StepsBounded(contents, headers, run);
    RunInvariant(contents, headers, run);
    var s := Final(|headers|, run);
    if !Done(|headers|, s) {
      var g: nat :| g < |s.workers| && Active(|headers|, s, g);
      CanGoOn(contents, headers, s, g);
    }
  }

  // ---------- refusals ----------

  /** The requests from header `k` on that no peer answered. */
  function Refusals(n: nat, run: Run, k: nat): nat {
    if run.Start? then 0
    else
      var s := Final(n, run.before);
      Refusals(n, run.before, k) +
      if run.event.Ask? && run.event.reply.None? && run.event.g < |s.workers| && NextHeader(s, run.event.g) == k then 1 else 0
  }

  /** A worker's failed tries are the refusals at the header it has got to. */
  predicate TriesAre(headers: seq<TipSet>, run: Run, s: State, g: nat)
    requires Shape(|headers|, s) && g < |s.workers|
  {
    var w, lo, hi := s.workers[g], REQUEST_BATCH * g, REQUEST_BATCH * g + Share(|headers|, g);
    && lo + w.offset <= hi
    && (forall k: nat | lo + w.offset < k < hi :: Refusals(|headers|, run, k) == 0)
    && (lo + w.offset < hi ==>
          match w.phase
          case Asking(retry) => Refusals(|headers|, run, lo + w.offset) == retry
          case Holding(_) => true
          case GaveUp => Refusals(|headers|, run, lo + w.offset) == RETRIES)
  }

  lemma OwnTries(contents: TipSet -> Msgs, headers: seq<TipSet>, run: Run)
    requires run.Then? && Shape(|headers|, Final(|headers|, run.before)) && Enabled(contents, headers, Final(|headers|, run.before), run.event)
    requires run.after == Next(contents, headers, Final(|headers|, run.before), run.event)
    requires WorkerInv(contents, headers, Final(|headers|, run.before), run.event.g)
    requires TriesAre(headers, run.before, Final(|headers|, run.before), run.event.g)
    ensures TriesAre(headers, run, run.after, run.event.g)
  {
    var g, n := run.event.g, |headers|;
    var at, refused := NextHeader(Final(n, run.before), g), run.event.Ask? && run.event.reply.None?;
    var k := NextHeader(run.after, g);
    assert Refusals(n, run, k) == Refusals(n, run.before, k) + if refused && at == k then 1 else 0;
    assert Refusals(n, run, at) == Refusals(n, run.before, at) + if refused then 1 else 0;
  }

  lemma OtherTries(contents: TipSet -> Msgs, headers: seq<TipSet>, run: Run, g: nat)
    requires run.Then? && Shape(|headers|, Final(|headers|, run.before)) && Enabled(contents, headers, Final(|headers|, run.before), run.event)
    requires run.after == Next(contents, headers, Final(|headers|, run.before), run.event)
    requires g < |run.after.workers| && g != run.event.g
    requires TriesAre(headers, run.before, Final(|headers|, run.before), g)
    ensures TriesAre(headers, run, run.after, g)
  {
    var s := Final(|headers|, run.before);
    var at := NextHeader(s, run.event.g);
    assert run.after.workers[g] == s.workers[g];
    assert at < REQUEST_BATCH * g || REQUEST_BATCH * g + Share(|headers|, g) <= at;
    var k := NextHeader(s, g);
    assert k < REQUEST_BATCH * g + Share(|headers|, g) ==> Refusals(|headers|, run, k) == Refusals(|headers|, run.before, k);
  }

  lemma {:induction false} TriesAreRefusals(contents: TipSet -> Msgs, headers: seq<TipSet>, run: Run, g: nat)
    requires IsRun(contents, headers, run) && Shape(|headers|, Final(|headers|, run)) && g < |Final(|headers|, run).workers|
    ensures TriesAre(headers, run, Final(|headers|, run), g)
  {
    if run.Then? {
      RunInvariant(contents, headers, run.before);
      TriesAreRefusals(contents, headers, run.before, g);
      if g == run.event.g {
        assert WorkerInv(contents, headers, Final(|headers|, run.before), g);
        OwnTries(contents, headers, run);
      } else {
        OtherTries(contents, headers, run, g);
      }
    }
  }

  predicate AllAnswered(run: Run) {
    run.Then? ==> !(run.event.Ask? && run.event.reply.None?) && AllAnswered(run.before)
  }

  lemma {:induction false} NoRefusals(n: nat, run: Run, k: nat)
    requires AllAnswered(run)
    ensures Refusals(n, run, k) == 0
  {
    if run.Then? {
      NoRefusals(n, run.before, k);
    }
  }

  /** A worker gives up only after five requests from one header that no peer answered;
      so if every request is answered fetching does not fail. */
  lemma FailsOnlyRefused(contents: TipSet -> Msgs, headers: seq<TipSet>, run: Run)
    requires IsRun(contents, headers, run) && Shape(|headers|, Final(|headers|, run))
    ensures Final(|headers|, run).failed ==> exists k: nat | k < |headers| :: Refusals(|headers|, run, k) == 5
    ensures AllAnswered(run) ==> !Final(|headers|, run).failed
  {
    RunInvariant(contents, headers, run);
    var s := Final(|headers|, run);
    if s.failed {
      var g: nat :| g < |s.workers| && s.workers[g].phase.GaveUp?;
      assert WorkerInv(contents, headers, s, g);
      TriesAreRefusals(contents, headers, run, g);
      var k := NextHeader(s, g);
      assert Refusals(|headers|, run, k) == 5;
      if AllAnswered(run) {
        NoRefusals(|headers|, run, k);
      }
    }
  }
}
