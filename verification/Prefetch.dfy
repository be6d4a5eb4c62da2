/** The speculative pipeline of the refresh loop: ranges requested ahead of the cursor, some answered
    and waiting, some still in flight. Speculation never changes what is scanned: the batches used are
    the consecutive heights from the cursor on, each once. */
module Prefetch {
  import opened Chain
  import opened Engine
  import L = RefreshLoop
  import RH = RecentHashes

  /** Heights `start` up to and including `end`. */
  datatype Span = Span(start: nat, end: nat)

  datatype Ready = Ready(span: Span, blocks: seq<Block>)

  /** What the daemon answers to the n-th request: anything at all. */
  type Replies = (nat, Span) -> Option<seq<Block>>

  function EndExclusive(start: nat, batch: nat, tip: nat): nat {
    if tip < start + batch then tip else start + batch
  }

  /** The first `n` batches from `next` on, fewer near the tip. */
  function Tiling(next: nat, batch: nat, tip: nat, n: nat): (r: seq<Span>)
    requires batch > 0
    ensures |r| <= n
    decreases n
  {
    if n == 0 || next >= tip then []
    else [Span(next, EndExclusive(next, batch, tip) - 1)] + Tiling(EndExclusive(next, batch, tip), batch, tip, n - 1)
  }

  /** Where the loop looks for the range after `n` queued ones: one whole batch further for each. */
  function Frontier(next: nat, batch: nat, n: nat): (at: nat)
    ensures at >= next
  {
    if n == 0 then next else Frontier(next, batch, n - 1) + batch
  }

  lemma {:induction false} FrontierShift(next: nat, batch: nat, n: nat, later: nat)
    requires n > 0 && later == next + batch
    ensures Frontier(next, batch, n) == Frontier(later, batch, n - 1)
    decreases n
  {
    if n > 1 {
      FrontierShift(next, batch, n - 1, later);
    }
  }

  /** The tile after the first `n` is where the loop expects it: `n` whole batches further. */
  lemma {:induction false} TilingGrows(next: nat, batch: nat, tip: nat, n: nat, at: nat)
    requires batch > 0 && |Tiling(next, batch, tip, n)| == n && at == Frontier(next, batch, n)
    ensures Tiling(next, batch, tip, n + 1)
         == Tiling(next, batch, tip, n) + if at < tip then [Span(at, EndExclusive(at, batch, tip) - 1)] else []
    decreases n
  {
    if n > 0 {
      var e := EndExclusive(next, batch, tip);
      if e == next + batch {
        FrontierShift(next, batch, n, e);
        TilingGrows(e, batch, tip, n - 1, at);
        assert Tiling(next, batch, tip, n + 1) == [Span(next, e - 1)] + Tiling(e, batch, tip, n);
      } else {
        assert e == tip && Tiling(e, batch, tip, n - 1) == [] && n == 1;
        assert Tiling(next, batch, tip, 2) == [Span(next, e - 1)] + Tiling(e, batch, tip, 1);
      }
    }
  }

  function Spans(ready: seq<Ready>): (r: seq<Span>)
    ensures |r| == |ready|
    ensures forall i :: 0 <= i < |r| ==> r[i] == ready[i].span
  {
    seq(|ready|, i requires 0 <= i < |ready| => ready[i].span)
  }

  /** What counts as an answer to a range: linked blocks from its start on, no more than asked for. */
  predicate Fits(span: Span, blocks: seq<Block>) {
    ValidRange(span.start, blocks) && span.start + |blocks| <= span.end + 1
  }

  /** What a request for the range is good for. */
  function Answer(replies: Replies, attempt: nat, span: Span): Option<seq<Block>> {
    if replies(attempt, span).Some? && Fits(span, replies(attempt, span).value) then replies(attempt, span) else None
  }

  /** Nothing but a validated answer to its own range waits in the queue. */
  ghost predicate Answered(r: Ready, replies: Replies) {
    exists n: nat :: Answer(replies, n, r.span) == Some(r.blocks)
  }

  /** The daemon answers the same request the same way each time. */
  ghost predicate Steady(replies: Replies) {
    forall m: nat, n: nat, span: Span :: Answer(replies, m, span) == Answer(replies, n, span)
  }

  method Fetch(replies: Replies, attempt: nat, span: Span) returns (r: Option<seq<Block>>)
    requires span.start <= span.end
    ensures r == Answer(replies, attempt, span)
  {
    r := replies(attempt, span);
    if r.Some? {
      var ok := L.ValidateRangeBlocks(span.start, r.value);
      if !ok || |r.value| > span.end + 1 - span.start {
        r := None;
      }
    }
  }

  /** The queues once the first request in flight was waited for, if no answer is waiting: it becomes the front, or
      its failure drops the rest. */
  function Drained(ready: seq<Ready>, inFlight: seq<Span>, replies: Replies, attempt: nat): (seq<Ready>, seq<Span>) {
    if ready != [] || inFlight == [] then (ready, inFlight)
    else
      match Answer(replies, attempt, inFlight[0])
      case None => ([], [])
      case Some(blocks) => ([Ready(inFlight[0], blocks)], inFlight[1..])
  }

  class Pipeline {
    const batch: nat
    const tip: nat
    const depth: nat
    var ready: seq<Ready>
    var inFlight: seq<Span>

    constructor (batch: nat, tip: nat, depth: nat)
      requires batch > 0
      ensures Settled() && this.batch == batch && this.tip == tip && this.depth == depth
      ensures forall next, replies :: Aligned(next, replies)
      ensures ready == [] && inFlight == []
    {
      this.batch, this.tip, this.depth, ready, inFlight := batch, tip, depth, [], [];
    }

    /** What is queued tiles the heights from `next` on without a gap. */
    ghost predicate Aligned(next: nat, replies: Replies)
      reads this
    {
      && batch > 0
      && Spans(ready) + inFlight == Tiling(next, batch, tip, |ready| + |inFlight|)
      && forall r :: r in ready ==> Answered(r, replies)
    }

    /** Between two passes: requests are in flight only behind an answered one. */
    ghost predicate Settled()
      reads this
    {
      ready == [] ==> inFlight == []
    }

    method ClearStale()
      requires batch > 0
      modifies this
      ensures ready == [] && inFlight == [] && forall next, replies :: Aligned(next, replies)
    {
      ready, inFlight := [], [];
    }

    /** The queue front, when it is exactly the wanted range; any other front drops the whole pipeline.
        On a pipeline aligned at the wanted range the front always is that range. */
    method Take(wanted: Span) returns (hit: Option<seq<Block>>)
      requires batch > 0
      modifies this
      ensures hit.Some? <==> old(ready) != [] && old(ready)[0].span == wanted
      ensures hit.Some? ==> old(ready)[0] == Ready(wanted, hit.value) && inFlight == old(inFlight) && ready == old(ready)[1..]
      ensures hit == None ==> ready == [] && inFlight == if old(ready) == [] then old(inFlight) else []
    {
      if ready == [] {
        return None;
      }
      var front := ready[0];
      if front.span == wanted {
        ready := ready[1..];
        hit := Some(front.blocks);
      } else {
        ClearStale();
        hit := None;
      }
    }

    /** A short answer leaves a gap before every queued range. */
    method Rebase(actualNext: nat, endExclusive: nat, ghost replies: Replies)
      requires Aligned(endExclusive, replies)
      modifies this
      ensures Aligned(actualNext, replies)
      ensures actualNext == endExclusive ==> unchanged(this)
    {
      if actualNext != endExclusive {
        ClearStale();
      }
    }

    /** Request further ranges until the pipeline is deep enough or the tip is reached. */
    method Deepen(next: nat, ghost replies: Replies)
      requires Aligned(next, replies)
      modifies this`inFlight
      ensures Aligned(next, replies) && old(inFlight) <= inFlight
      ensures |ready| + |inFlight| >= depth || Frontier(next, batch, |ready| + |inFlight|) >= tip
    {
      var n := |ready| + |inFlight|;
      var at := Frontier(next, batch, n);
      while |inFlight| + |ready| < depth
        invariant Aligned(next, replies) && old(inFlight) <= inFlight && n == |ready| + |inFlight|
        invariant at <= Frontier(next, batch, n) && (at < tip ==> at == Frontier(next, batch, n))
        decreases depth - |inFlight| - |ready|
      {
        if at >= tip {
          return;
        }
        var e := EndExclusive(at, batch, tip);
        RequestNext(ready, inFlight, next, batch, tip, n, at);
        inFlight, n, at := inFlight + [Span(at, e - 1)], n + 1, e;
      }
    }

    /** Wait for the first request in flight; a failure drops the rest. */
    method Await(next: nat, replies: Replies, attempt: nat)
      requires Aligned(next, replies) && ready == [] && inFlight != []
      modifies this
      ensures Aligned(next, replies) && (ready == [] ==> inFlight == [])
      ensures (ready, inFlight) == Drained([], old(inFlight), replies, attempt)
    {
      var span := inFlight[0];
      InFlightOrdered(inFlight, next, batch, tip);
      var r := Fetch(replies, attempt, span);
      if r == None {
        inFlight := [];
      } else {
        inFlight, ready := inFlight[1..], [Ready(span, r.value)];
        assert Spans(ready) + inFlight == Spans([]) + old(inFlight);
      }
    }

    /** Wait for in-flight requests until one is answered. */
    method Drain(next: nat, replies: Replies, attempt: nat)
      requires Aligned(next, replies)
      modifies this
      ensures Aligned(next, replies) && Settled()
      ensures (ready, inFlight) == Drained(old(ready), old(inFlight), replies, attempt)
    {
      while ready == [] && inFlight != []
        invariant Aligned(next, replies)
        invariant Drained(ready, inFlight, replies, attempt) == Drained(old(ready), old(inFlight), replies, attempt)
        decreases |inFlight|
      {
        Await(next, replies, attempt);
      }
    }

    /** The batch of one pass: the queued answer or a fetch of the same range. */
    method Obtain(cursor: nat, replies: Replies, attempt: nat) returns (r: Option<seq<Block>>)
      requires Aligned(cursor, replies) && Settled() && cursor < tip
      modifies this
      ensures r == None ==> Aligned(cursor, replies) && Settled()
      ensures r.Some? ==> Aligned(EndExclusive(cursor, batch, tip), replies)
      ensures Gives(replies, Wanted(cursor, batch, tip), r)
    {
      var wanted := Wanted(cursor, batch, tip);
      if ready != [] {
        FrontTile(ready, inFlight, cursor, batch, tip);
        assert Answered(ready[0], replies);
      }
      r := Take(wanted);
      assert old(ready) != [] ==> r.Some?;
      if r == None {
        r := Fetch(replies, attempt, wanted);
      }
    }

    /** One pass that got its batch and goes on with it. */
    method Advance(next: nat, blocks: seq<Block>, replies: Replies, attempt: nat)
      requires next < tip && Aligned(EndExclusive(next, batch, tip), replies)
      modifies this
      ensures Aligned(next + |blocks|, replies) && Settled()
    {
      Rebase(next + |blocks|, EndExclusive(next, batch, tip), replies);
      Deepen(next + |blocks|, replies);
      Drain(next + |blocks|, replies, attempt);
    }

    /** A pass that got a batch, by the decision of the parent check. A rewind takes back what lies at or above
        its height; it and a retry drop the speculation; an abort ends the run. */
    method Follow(from: nat, scanned: seq<Block>, next: nat, blocks: seq<Block>, action: RH.ParentAction, replies: Replies, attempt: nat)
      returns (from': nat, scanned': seq<Block>, goOn: bool)
      requires next < tip && next == from + |scanned|
      requires Aligned(EndExclusive(next, batch, tip), replies)
      modifies this
      ensures Aligned(from' + |scanned'|, replies) && Settled()
      ensures (from', scanned') == Decided(from, scanned, blocks, action) && goOn == !action.Abort?
    {
      from', scanned', goOn := from, scanned, !action.Abort?;
      if action.Continue? {
        Advance(next, blocks, replies, attempt);
        scanned' := scanned + blocks;
      } else {
        ClearStale();
        if action.ParentRewind? {
          var kept := Rewound(from, scanned, action.scanFrom);
          from', scanned' := kept.0, kept.1;
        }
      }
    }

    /** One pass of the loop: get the batch, decide, go on. `got` is what the daemon gave for the range. */
    method OnePass(from: nat, scanned: seq<Block>, replies: Replies, decide: Decisions, attempt: nat)
      returns (from': nat, scanned': seq<Block>, goOn: bool, ghost got: Option<seq<Block>>)
      requires Aligned(from + |scanned|, replies) && Settled() && from + |scanned| < tip
      modifies this
      ensures Gives(replies, Wanted(from + |scanned|, batch, tip), got)
      ensures (from', scanned', goOn) == PassOn(from, scanned, got, decide, attempt)
      ensures Aligned(from' + |scanned'|, replies) && Settled()
    {
      var r := Obtain(from + |scanned|, replies, attempt);
      got := r;
      if r == None {
        from', scanned', goOn := from, scanned, true;
      } else if r.value == [] {
        ClearStale();
        from', scanned', goOn := from, scanned, false;
      } else {
        from', scanned', goOn := Follow(from, scanned, from + |scanned|, r.value, decide(attempt, r.value), replies, attempt);
      }
    }

    /** The same, with what it keeps. */
    method Turn(from: nat, scanned: seq<Block>, replies: Replies, decide: Decisions, attempt: nat, ghost run: Run)
      returns (from': nat, scanned': seq<Block>, goOn: bool)
      requires Aligned(from + |scanned|, replies) && Settled() && from + |scanned| < tip && attempt < run.passes
      requires Going(run, from, scanned, replies, decide, attempt, batch, tip)
      modifies this
      ensures Aligned(from' + |scanned'|, replies) && Settled()
      ensures goOn ==> Going(run, from', scanned', replies, decide, attempt + 1, batch, tip)
      ensures !goOn ==> Gone(run, from', scanned', replies, decide, batch, tip)
    {
      ghost var got;
      from', scanned', goOn, got := OnePass(from, scanned, replies, decide, attempt);
      PassSound(from, scanned, got, decide, attempt, replies, batch, tip);
      StaysOnCourse(run, from, scanned, got, replies, decide, attempt, batch, tip);
    }

    /** The blocks a run of passes leaves scanned, whatever the daemon answers, however deep the speculation, and
        whatever the parent check decides about each batch: consecutive heights up to the cursor, each once, each
        from an answer to a range some pass asks for. With a daemon that answers a request the same way each time
        the speculation does not show at all. An empty answer ends the run. */
    method Gather(cursor: nat, replies: Replies, decide: Decisions, passes: nat) returns (from: nat, scanned: seq<Block>)
      requires Aligned(cursor, replies) && Settled()
      modifies this
      ensures Numbered(from, scanned) && (scanned != [] ==> from + |scanned| <= tip)
      ensures forall b :: b in scanned ==> Vouched(replies, b, batch, tip)
      ensures Steady(replies) ==> (from, scanned) == Plain(cursor, [], replies, decide, 0, passes, batch, tip)
      ensures Aligned(from + |scanned|, replies) && Settled()
      ensures AlwaysContinues(decide) ==> from == cursor
    {
      from, scanned := cursor, [];
      ghost var run := Run(cursor, passes, Plain(cursor, [], replies, decide, 0, passes, batch, tip));
      for attempt := 0 to passes
        invariant Aligned(from + |scanned|, replies) && Settled()
        invariant Going(run, from, scanned, replies, decide, attempt, batch, tip)
      {
        if from + |scanned| < tip {
          var goOn;
          from, scanned, goOn := Turn(from, scanned, replies, decide, attempt, run);
          if !goOn {
            return;
          }
        }
      }
    }
  }

  ghost predicate AlwaysContinues(decide: Decisions) {
    forall n, blocks :: decide(n, blocks).Continue?
  }

  /** What the parent check decides about the batch of the n-th pass. */
  type Decisions = (nat, seq<Block>) -> RH.ParentAction

  /** The range one pass asks for. */
  function Wanted(cursor: nat, batch: nat, tip: nat): (span: Span)
    requires cursor < tip && batch > 0
    ensures span.start == cursor <= span.end < tip
  {
    Span(cursor, EndExclusive(cursor, batch, tip) - 1)
  }

  /** `r` is an answer of the daemon to the range - from a steady one the only answer, even if it is none. */
  ghost predicate Gives(replies: Replies, span: Span, r: Option<seq<Block>>) {
    && (r.Some? ==> exists n: nat :: Answer(replies, n, span) == r)
    && (Steady(replies) ==> r == Answer(replies, 0, span))
  }

  /** The block stands in an answer to a range some pass could ask for. */
  ghost predicate Vouched(replies: Replies, b: Block, batch: nat, tip: nat)
    requires batch > 0
  {
    exists n: nat, cursor: nat :: cursor < tip && Answer(replies, n, Wanted(cursor, batch, tip)).Some? && b in Answer(replies, n, Wanted(cursor, batch, tip)).value
  }

  ghost predicate Sound(from: nat, scanned: seq<Block>, replies: Replies, batch: nat, tip: nat)
    requires batch > 0
  {
    Numbered(from, scanned) && (scanned != [] ==> from + |scanned| <= tip) && forall b :: b in scanned ==> Vouched(replies, b, batch, tip)
  }

  lemma GivenFits(replies: Replies, next: nat, batch: nat, tip: nat, blocks: seq<Block>)
    requires batch > 0 && next < tip && Gives(replies, Wanted(next, batch, tip), Some(blocks))
    ensures Numbered(next, blocks) && next + |blocks| <= tip && forall b :: b in blocks ==> Vouched(replies, b, batch, tip)
  {
    var n: nat :| Answer(replies, n, Wanted(next, batch, tip)) == Some(blocks);
    assert Fits(Wanted(next, batch, tip), blocks);
  }

  /** The blocks that stay scanned after a rewind to `h`, which becomes the next height. Only hashes retained
      from an earlier scan let `h` lie outside what this run scanned; then it starts anew there. */
  function Rewound(from: nat, scanned: seq<Block>, h: nat): (nat, seq<Block>) {
    if from <= h <= from + |scanned| then (from, scanned[..h - from]) else (h, [])
  }

  /** Exactly the blocks below `h` stay, if the run got that far. */
  lemma RewoundKeeps(from: nat, scanned: seq<Block>, h: nat)
    requires Numbered(from, scanned)
    ensures var (from', kept) := Rewound(from, scanned, h);
      && Numbered(from', kept) && from' + |kept| == h && kept <= scanned
      && forall b :: b in kept <==> b in scanned && b.height < h <= from + |scanned|
  {
    if from <= h <= from + |scanned| {
      var kept := scanned[..h - from];
      forall b | b in scanned && b.height < h ensures b in kept {
        var i :| 0 <= i < |scanned| && scanned[i] == b;
        assert kept[i] == b;
      }
    }
  }

  /** What the decision about a batch leaves scanned. */
  function Decided(from: nat, scanned: seq<Block>, blocks: seq<Block>, action: RH.ParentAction): (nat, seq<Block>) {
    match action
    case Continue => (from, scanned + blocks)
    case ParentRewind(h) => Rewound(from, scanned, h)
    case _ => (from, scanned)
  }

  /** What a pass makes of what it got, and whether the run goes on. */
  function PassOn(from: nat, scanned: seq<Block>, got: Option<seq<Block>>, decide: Decisions, n: nat): (nat, seq<Block>, bool) {
    if got == None then (from, scanned, true)
    else if got.value == [] then (from, scanned, false)
    else
      var next := Decided(from, scanned, got.value, decide(n, got.value));
      (next.0, next.1, !decide(n, got.value).Abort?)
  }

  lemma PassSound(from: nat, scanned: seq<Block>, got: Option<seq<Block>>, decide: Decisions, n: nat, replies: Replies, batch: nat, tip: nat)
    requires batch > 0 && Sound(from, scanned, replies, batch, tip) && from + |scanned| < tip
    requires Gives(replies, Wanted(from + |scanned|, batch, tip), got)
    ensures var next := PassOn(from, scanned, got, decide, n);
      Sound(next.0, next.1, replies, batch, tip) && (AlwaysContinues(decide) ==> next.0 == from)
  {
    if got.Some? && got.value != [] {
      GivenFits(replies, from + |scanned|, batch, tip, got.value);
      var action := decide(n, got.value);
      if action.ParentRewind? {
        RewoundKeeps(from, scanned, action.scanFrom);
      }
    }
  }

  /** The same run without any speculation: each pass asks for the range at the cursor. */
  ghost function Plain(from: nat, scanned: seq<Block>, replies: Replies, decide: Decisions, n: nat, passes: nat, batch: nat, tip: nat): (nat, seq<Block>)
    requires batch > 0
    decreases passes - n
  {
    if n >= passes then (from, scanned)
    else if from + |scanned| >= tip then Plain(from, scanned, replies, decide, n + 1, passes, batch, tip)
    else
      var next := PassOn(from, scanned, Answer(replies, 0, Wanted(from + |scanned|, batch, tip)), decide, n);
      if next.2 then Plain(next.0, next.1, replies, decide, n + 1, passes, batch, tip) else (next.0, next.1)
  }

  /** A run of passes: where it started, how many they may be, and where it ends without speculation. */
  datatype Run = Run(cursor: nat, passes: nat, goal: (nat, seq<Block>))

  /** What has been scanned before pass `n`: from here the run without speculation ends where it is meant to. */
  ghost predicate Going(run: Run, from: nat, scanned: seq<Block>, replies: Replies, decide: Decisions, n: nat, batch: nat, tip: nat)
    requires batch > 0
  {
    && Sound(from, scanned, replies, batch, tip) && (AlwaysContinues(decide) ==> from == run.cursor)
    && (Steady(replies) ==> run.goal == Plain(from, scanned, replies, decide, n, run.passes, batch, tip))
  }

  /** The run has ended. */
  ghost predicate Gone(run: Run, from: nat, scanned: seq<Block>, replies: Replies, decide: Decisions, batch: nat, tip: nat)
    requires batch > 0
  {
    && Sound(from, scanned, replies, batch, tip) && (AlwaysContinues(decide) ==> from == run.cursor)
    && (Steady(replies) ==> run.goal == (from, scanned))
  }

  lemma StaysOnCourse(run: Run, from: nat, scanned: seq<Block>, got: Option<seq<Block>>, replies: Replies, decide: Decisions,
                      n: nat, batch: nat, tip: nat)
    requires batch > 0 && n < run.passes && from + |scanned| < tip && Gives(replies, Wanted(from + |scanned|, batch, tip), got)
    requires Going(run, from, scanned, replies, decide, n, batch, tip)
    ensures Steady(replies) ==>
      var next := PassOn(from, scanned, got, decide, n);
      run.goal == if next.2 then Plain(next.0, next.1, replies, decide, n + 1, run.passes, batch, tip) else (next.0, next.1)
  {}

  lemma RequestNext(ready: seq<Ready>, inFlight: seq<Span>, next: nat, batch: nat, tip: nat, n: nat, at: nat)
    requires batch > 0 && n == |ready| + |inFlight| && at == Frontier(next, batch, n) && at < tip
    requires Spans(ready) + inFlight == Tiling(next, batch, tip, n)
    ensures Spans(ready) + (inFlight + [Span(at, EndExclusive(at, batch, tip) - 1)]) == Tiling(next, batch, tip, n + 1)
    ensures EndExclusive(at, batch, tip) <= Frontier(next, batch, n + 1)
    ensures EndExclusive(at, batch, tip) < tip ==> EndExclusive(at, batch, tip) == Frontier(next, batch, n + 1)
  {
    TilingGrows(next, batch, tip, n, at);
    L.Assoc(Spans(ready), inFlight, [Span(at, EndExclusive(at, batch, tip) - 1)]);
  }

  lemma FrontTile(ready: seq<Ready>, inFlight: seq<Span>, next: nat, batch: nat, tip: nat)
    requires batch > 0 && ready != [] && next < tip
    requires Spans(ready) + inFlight == Tiling(next, batch, tip, |ready| + |inFlight|)
    ensures ready[0].span == Span(next, EndExclusive(next, batch, tip) - 1)
    ensures ready[0].span.end == (if tip <= next + batch then tip else next + batch) - 1
    ensures ready[0].span.end + 1 - next == Requested(next, tip, batch)
    ensures Spans(ready[1..]) + inFlight == Tiling(EndExclusive(next, batch, tip), batch, tip, |ready| + |inFlight| - 1)
  {
    var n := |ready| + |inFlight|;
    var rest := Tiling(EndExclusive(next, batch, tip), batch, tip, n - 1);
    TilingHead(next, batch, tip, n);
    HeadAndTail(Spans(ready) + inFlight, Span(next, EndExclusive(next, batch, tip) - 1), rest);
    SpansTail(ready, inFlight);
  }

  lemma TilingHead(next: nat, batch: nat, tip: nat, n: nat)
    requires batch > 0 && n > 0 && next < tip
    ensures Tiling(next, batch, tip, n)
      == [Span(next, EndExclusive(next, batch, tip) - 1)] + Tiling(EndExclusive(next, batch, tip), batch, tip, n - 1)
  {}

  lemma HeadAndTail<T>(all: seq<T>, x: T, rest: seq<T>)
    requires all == [x] + rest
    ensures all[0] == x && all[1..] == rest
  {}

  lemma SpansTail(ready: seq<Ready>, inFlight: seq<Span>)
    requires ready != []
    ensures (Spans(ready) + inFlight)[0] == ready[0].span
    ensures Spans(ready[1..]) + inFlight == (Spans(ready) + inFlight)[1..]
  {
    assert Spans(ready[1..]) == Spans(ready)[1..];
  }

  lemma InFlightOrdered(inFlight: seq<Span>, next: nat, batch: nat, tip: nat)
    requires batch > 0 && inFlight != [] && Spans([]) + inFlight == Tiling(next, batch, tip, |inFlight|)
    ensures inFlight[0].start <= inFlight[0].end
  {
    assert inFlight[0] == (Spans([]) + inFlight)[0];
    TilesOrdered(next, batch, tip, |inFlight|);
  }

  lemma {:induction false} TilesOrdered(next: nat, batch: nat, tip: nat, n: nat)
    requires batch > 0
    ensures forall s :: s in Tiling(next, batch, tip, n) ==> s.start <= s.end
    decreases n
  {
    if n > 0 && next < tip {
      TilesOrdered(EndExclusive(next, batch, tip), batch, tip, n - 1);
    }
  }
}
