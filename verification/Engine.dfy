/** Whole runs of the scan engine against a daemon that may change chain between any two answers. */
module Engine {
  import opened Chain
  import opened Scan
  import opened RecentHashes
  import opened Replay
  import R = Rewinding
  import S = Seqs

  // ---------------------------------------------------------------------------------------------
  // The world outside
  // ---------------------------------------------------------------------------------------------

  ghost predicate Among(c: seq<Block>, blocks: iset<Block>) {
    forall b :: b in c ==> b in blocks
  }

  /** Every block any daemon ever serves, and every parent-linked run of them, is consensus-valid.
      Nothing is said about which of them are served when. */
  ghost predicate World(blocks: iset<Block>, facts: map<Outpoint, Owned>) {
    && GoodFacts(facts)
    && (forall b :: b in blocks ==> GoodBlock(b, facts))
    && (forall c, base :: Linked(c, base) && Among(c, blocks) ==> Consensus(c))
  }

  lemma WorldChain(c: seq<Block>, base: nat, blocks: iset<Block>, facts: map<Outpoint, Owned>)
    requires World(blocks, facts) && Linked(c, base) && Among(c, blocks)
    ensures R.GoodChain(c, facts)
  {}

  // ---------------------------------------------------------------------------------------------
  // One refresh
  // ---------------------------------------------------------------------------------------------

  /** The published wallet, as far as scanning is concerned; `work.cursor` is `last_scanned`. */
  datatype Wallet = Wallet(restore: nat, coverage: Coverage, work: Working)

  function StartHeight(w: Wallet): nat {
    Max(w.work.cursor, w.restore)
  }

  /** How a response was fetched. A range response is checked as a whole; the one-by-one fallback checks
      each block by itself. */
  datatype Path = RangeResponse | OneByOne

  predicate Numbered(start: nat, blocks: seq<Block>) {
    forall i :: 0 <= i < |blocks| ==> blocks[i].height == start + i
  }

  /** `validate_range_blocks`. */
  predicate ValidRange(start: nat, blocks: seq<Block>) {
    && Numbered(start, blocks)
    && (start == 0 && blocks != [] ==> blocks[0].previous == 0)
    && (forall i :: 0 < i < |blocks| ==> blocks[i].previous == blocks[i-1].hash)
  }

  predicate ValidResponse(path: Path, start: nat, requested: nat, blocks: seq<Block>) {
    && 0 < |blocks| <= requested
    && (path.RangeResponse? ==> ValidRange(start, blocks))
    && (path.OneByOne? ==> |blocks| == requested && forall i :: 0 <= i < |blocks| ==> ValidRange(start + i, [blocks[i]]))
  }

  /** What one pass of the loop meets. `stopped` is a cancellation or a scanner failure inside the batch. */
  datatype Event =
    | Cancelled
    | FetchFailed
    | FetchRetried
    | Response(path: Path, blocks: seq<Block>, probe: Probe, stopped: bool)

  datatype Outcome = Stop | Next(work: Working, failures: nat, committed: bool)

  /** How many blocks a pass asks for. */
  function Requested(cursor: nat, daemonHeight: nat, batch: nat): nat
    requires cursor < daemonHeight
  {
    (if daemonHeight < cursor + batch then daemonHeight else cursor + batch) - cursor
  }

  /** The retained hash the first block's parent is compared with. */
  function ExpectedParent(v: Working): Option<Hash> {
    HashAt(Window(v.start, v.hashes), Below(v.cursor))
  }

  /** `saturating_sub(1)`. */
  function Below(height: nat): nat {
    if height == 0 then 0 else height - 1
  }

  /** A valid response: parent check, then rewind, retry, abort, or apply the whole batch. */
  ghost function OnResponse(v: Working, cfg: Config, failures: nat, blocks: seq<Block>, probe: Probe, stopped: bool): Outcome
    requires blocks != []
  {
    var expected := ExpectedParent(v);
    var located := if expected.Some? && expected.value != blocks[0].previous
                   then FindReorg(cfg.restore, Window(v.start, v.hashes), probe) else Ok(None);
    match DecideParent(expected, blocks[0].previous, located, failures, PROBE_RETRY_LIMIT)
    case Continue =>
      if stopped then Stop
      else (match ApplyBlocks(v, cfg, blocks) case Err => Stop case Ok(u) => Next(u, 0, true))
    case ParentRewind(h) => Next(Rewind(cfg.restore, h, v), 0, true)
    case Retry(f) => Next(v, f, false)
    case Abort(_) => Stop
  }

  /** One pass of the scan loop. */
  ghost function Pass(v: Working, cfg: Config, daemonHeight: nat, batch: nat, failures: nat, ev: Event): Outcome
    requires v.cursor < daemonHeight && batch > 0
  {
    match ev
    case Cancelled => Stop
    case FetchFailed => Stop
    case FetchRetried => Next(v, failures, false)
    case Response(path, blocks, probe, stopped) =>
      if ValidResponse(path, v.cursor, Requested(v.cursor, daemonHeight, batch), blocks)
      then OnResponse(v, cfg, failures, blocks, probe, stopped) else Stop
  }

  /** The height clamp of a commit: never past the daemon's height, when that is known. */
  function Clamp(cursor: nat, restore: nat, daemonHeight: nat): nat {
    var n := Max(cursor, restore);
    if 0 < daemonHeight < n then daemonHeight else n
  }

  function Commit(w: Wallet, v: Working, daemonHeight: nat): Wallet {
    w.(work := v.(cursor := Clamp(v.cursor, w.restore, daemonHeight)))
  }

  /** The wallets published by the loop, in order, and the final commit when the loop runs to its end.
      The run ends early when the events do: the process was killed there. */
  ghost function Loop(w: Wallet, v: Working, cfg: Config, daemonHeight: nat, batch: nat, failures: nat, events: seq<Event>): seq<Wallet>
    requires batch > 0
    decreases |events|
  {
    if v.cursor >= daemonHeight then [Commit(w, v, daemonHeight)]
    else if events == [] then []
    else
      match Pass(v, cfg, daemonHeight, batch, failures, events[0])
      case Stop => []
      case Next(u, f, committed) =>
        (if committed then [Commit(w, u, daemonHeight)] else []) + Loop(w, u, cfg, daemonHeight, batch, f, events[1..])
  }

  /** Everything a refresh fixes from outside. */
  datatype RefreshInput = RefreshInput(daemonHeight: nat, batch: nat, resumeProbe: Probe, events: seq<Event>)

  /** The resume probe, its rewind and checkpoint, then the loop. */
  ghost function Resume(w: Wallet, v: Working, cfg: Config, input: RefreshInput): seq<Wallet>
    requires input.batch > 0
  {
    var dh := input.daemonHeight;
    var window := Window(v.start, v.hashes);
    match FindReorg(cfg.restore, window, input.resumeProbe)
    case Err => []
    case Ok(located) =>
      match DecideResume(Max(v.cursor, window.start + |window.hashes|), located)
      case KeepCursor => Loop(w, v, cfg, dh, input.batch, 0, input.events)
      case ResumeRewind(h) =>
        var u := ResumedAt(v, cfg, h);
        [Commit(w, u, dh)] + Loop(w, u, cfg, dh, input.batch, 0, input.events)
  }

  function ResumedAt(v: Working, cfg: Config, h: nat): Working {
    var back := Rewind(cfg.restore, h, v);
    back.(cursor := if v.cursor < back.cursor then v.cursor else back.cursor)
  }

  function Progress(w: Wallet, daemonHeight: nat): Wallet {
    var seen := if StartHeight(w) < daemonHeight then StartHeight(w) else daemonHeight;
    w.(work := w.work.(cursor := Clamp(seen, w.restore, daemonHeight)))
  }

  function RefreshConfig(w: Wallet): Config {
    Config(w.restore, w.coverage, false, HistoryHeights(w.work.outputs))
  }

  /** Every wallet state a refresh publishes: the progress mark, a resume rewind, the commits. */
  ghost function Refresh(w: Wallet, input: RefreshInput): seq<Wallet>
    requires input.batch > 0
  {
    var v := w.work.(cursor := StartHeight(w));
    [Progress(w, input.daemonHeight)]
      + if v.cursor >= input.daemonHeight then Loop(w, v, RefreshConfig(w), input.daemonHeight, input.batch, 0, input.events)
        else Resume(w, v, RefreshConfig(w), input)
  }

  function WatchConfig(w: Wallet, sealed: bool): Config {
    RefreshConfig(w).(sealed := sealed)
  }

  /** The same for a wallet that may be sealed: a view-only refresh differs in its configuration only. */
  ghost function Publishes(w: Wallet, sealed: bool, input: RefreshInput): (r: seq<Wallet>)
    requires input.batch > 0
    ensures r != [] && (!sealed ==> r == Refresh(w, input))
  {
    var v := w.work.(cursor := StartHeight(w));
    [Progress(w, input.daemonHeight)]
      + if v.cursor >= input.daemonHeight then Loop(w, v, WatchConfig(w, sealed), input.daemonHeight, input.batch, 0, input.events)
        else Resume(w, v, WatchConfig(w, sealed), input)
  }

  // ---------------------------------------------------------------------------------------------
  // The invariant
  // ---------------------------------------------------------------------------------------------

  /** The window anchors scanning at height `k`: either `k` is the restore height, where there is no
      parent to check, or the hash right below `k` is retained and is the chain's. */
  ghost predicate WindowFor(w: Window, c: seq<Block>, base: nat, k: nat) {
    && (w.hashes != [] ==> w.start >= base)
    && base <= k <= base + |c|
    && (k == base || (w.start < k <= w.start + |w.hashes|
                      && forall i :: 0 <= i < k - w.start ==> w.hashes[i] == c[w.start + i - base].hash))
  }

  /** The parent of block 0 is looked up at its own height: with nothing scanned yet, a fork search could lead past
      it when the hash of another block is retained beside that of block 0. */
  predicate OffGenesis(restore: nat, v: Working) {
    restore > 0 || v.start > 0 || |v.hashes| < 2
  }

  /** `c` is the chain scanned so far, ending below height `h`: one parent-linked run of served blocks
      from the restore height, with which the outputs agree; the window ends where it ends. The cursor
      may have been lowered below its end, but not out of the window. */
  ghost predicate Anchored(v: Working, cfg: Config, c: seq<Block>, h: nat, blocks: iset<Block>, facts: map<Outpoint, Owned>) {
    && !cfg.sealed && h == cfg.restore + |c| && v.rescan == None
    && (c == [] ==> OffGenesis(cfg.restore, v))
    && Linked(c, cfg.restore) && Among(c, blocks)
    && Agrees(v.outputs, c, cfg.restore, h, cfg.coverage, facts)
    && WindowFor(Window(v.start, v.hashes), c, cfg.restore, v.cursor)
    && (c != [] ==> v.hashes != [] && WindowOf(Window(v.start, v.hashes), c, cfg.restore))
  }

  function FreshLike(w: Wallet): Config {
    Config(w.restore, w.coverage, false, {})
  }

  ghost predicate Inv(w: Wallet, c: seq<Block>, h: nat, blocks: iset<Block>, facts: map<Outpoint, Owned>) {
    Anchored(w.work.(cursor := StartHeight(w)), FreshLike(w), c, h, blocks, facts)
  }

  ghost predicate Safe(w: Wallet, blocks: iset<Block>, facts: map<Outpoint, Owned>) {
    exists c, h :: Inv(w, c, h, blocks, facts)
  }

  /** `d` explains the wallet: a single parent-linked run of served blocks from the restore height to
      `last_scanned`, and what lies below `last_scanned` in the wallet is exactly its one-pass scan. */
  ghost predicate Explains(w: Wallet, d: seq<Block>, h: nat, blocks: iset<Block>, facts: map<Outpoint, Owned>) {
    && h == StartHeight(w) == w.restore + |d|
    && Linked(d, w.restore) && Among(d, blocks)
    && Agrees(w.work.outputs, d, w.restore, h, w.coverage, facts)
  }

  lemma AmongPrefix(c: seq<Block>, n: nat, blocks: iset<Block>)
    requires Among(c, blocks) && n <= |c|
    ensures Among(c[..n], blocks)
  {}

  /** The chain, seen from a lower height. */
  lemma AgreesAtCursor(outputs: Outputs, restore: nat, coverage: Coverage, c: seq<Block>, h: nat, n: nat, k: nat,
                       blocks: iset<Block>, facts: map<Outpoint, Owned>)
    requires World(blocks, facts) && Agrees(outputs, c, restore, h, coverage, facts) && Linked(c, restore) && Among(c, blocks)
    requires n <= |c| && k == restore + n
    ensures Linked(c[..n], restore) && Among(c[..n], blocks) && Agrees(outputs, c[..n], restore, k, coverage, facts)
  {
    WorldChain(c, restore, blocks, facts);
    LinkedPrefix(c, restore, n);
    AmongPrefix(c, n, blocks);
    AgreesLower(outputs, c, restore, h, n, k, coverage, facts);
  }

  /** What safety means to a reader of the wallet. */
  lemma SafeMeansOneChain(w: Wallet, blocks: iset<Block>, facts: map<Outpoint, Owned>)
    requires World(blocks, facts) && Safe(w, blocks, facts)
    ensures exists d :: Explains(w, d, StartHeight(w), blocks, facts)
  {
    var c, h :| Inv(w, c, h, blocks, facts);
    var k := StartHeight(w);
    var n := k - w.restore;
    AgreesAtCursor(w.work.outputs, w.restore, w.coverage, c, h, n, k, blocks, facts);
    assert Explains(w, c[..n], k, blocks, facts);
  }

  // ---------------------------------------------------------------------------------------------
  // Applying a batch
  // ---------------------------------------------------------------------------------------------

  /** The parent check ties a batch to the chain scanned so far. */
  lemma BatchLinked(w: Window, c: seq<Block>, base: nat, k: nat, d: seq<Block>)
    requires WindowFor(w, c, base, k) && k == base + |c| && Linked(c, base)
    requires d != [] && Linked(d, k)
    requires HashAt(w, Below(k)) == None || HashAt(w, Below(k)) == Some(d[0].previous)
    ensures Linked(c + d, base)
  {
    if c != [] {
      var i := k - 1 - w.start;
      assert w.hashes[i] == c[w.start + i - base].hash;
    }
    LinkedAppend(c, d, base);
  }

  lemma DropFront(x: Window, d: seq<Block>, base: nat, n: nat)
    requires WindowOf(x, d, base) && x.start >= base && n < |x.hashes|
    ensures WindowOf(Window(x.start + n, x.hashes[n..]), d, base)
  {
    var v := Window(x.start + n, x.hashes[n..]);
    forall i | 0 <= i < |v.hashes| ensures v.hashes[i] == d[v.start + i - base].hash {
      assert v.hashes[i] == x.hashes[n + i];
    }
  }

  lemma CutWindow(w: Window, c: seq<Block>, base: nat, k: nat, b: Block)
    requires k == base + |c| && WindowFor(w, c, base, k) && w.hashes != [] && w.start <= k <= w.start + |w.hashes|
    ensures WindowOf(Window(w.start, w.hashes[..k - w.start] + [b.hash]), c + [b], base)
  {
    var x, d := Window(w.start, w.hashes[..k - w.start] + [b.hash]), c + [b];
    forall i | 0 <= i < |x.hashes| ensures x.hashes[i] == d[x.start + i - base].hash {
      if i < k - w.start {
        assert w.hashes[i] == c[w.start + i - base].hash;
      }
    }
  }

  /** Pushing the hash of the next block anchors the next height, and the window ends there. */
  lemma PushAnchors(w: Window, c: seq<Block>, base: nat, k: nat, b: Block, next: nat)
    requires k == base + |c| && WindowFor(w, c, base, k) && next == k + 1
    ensures var v := PushHash(base, w, k, b.hash);
      && v.hashes != [] && v.start >= base && WindowOf(v, c + [b], base) && WindowFor(v, c + [b], base, next)
  {
    var v, d := PushHash(base, w, k, b.hash), c + [b];
    if w.hashes == [] || k < w.start || k > w.start + |w.hashes| {
      assert c == [] && v == Window(k, [b.hash]);
    } else {
      CutWindow(w, c, base, k, b);
      var x := Window(w.start, w.hashes[..k - w.start] + [b.hash]);
      if |x.hashes| > RECENT_MAX {
        DropFront(x, d, base, |x.hashes| - RECENT_MAX);
      }
    }
    assert v.start + |v.hashes| == k + 1;
  }

  lemma WindowForPrefix(w: Window, c: seq<Block>, base: nat, n: nat, k: nat)
    requires WindowFor(w, c, base, k) && n <= |c| && k == base + n
    ensures WindowFor(w, c[..n], base, k)
  {}

  lemma WindowForLower(w: Window, c: seq<Block>, base: nat, k: nat, j: nat)
    requires WindowFor(w, c, base, k) && base <= j <= k && (j == base || w.start < j)
    ensures WindowFor(w, c, base, j)
  {}

  ghost predicate EndsAt(u: Working, c: seq<Block>, base: nat) {
    && u.cursor == base + |c| && u.hashes != []
    && WindowOf(Window(u.start, u.hashes), c, base)
    && WindowFor(Window(u.start, u.hashes), c, base, u.cursor)
  }

  lemma PushStep(x: Working, cfg: Config, e: seq<Block>, b: Block)
    requires x.cursor == cfg.restore + |e|
    requires WindowFor(Window(x.start, x.hashes), e, cfg.restore, x.cursor)
    ensures ApplyBlock(x, cfg, b).Ok? ==> EndsAt(ApplyBlock(x, cfg, b).value, e + [b], cfg.restore)
  {
    var v := PushHash(cfg.restore, Window(x.start, x.hashes), x.cursor, b.hash);
    PushAnchors(Window(x.start, x.hashes), e, cfg.restore, x.cursor, b, x.cursor + 1);
    ApplyBlockWindow(x, cfg, b, v);
  }

  lemma ApplyBlockWindow(x: Working, cfg: Config, b: Block, v: Window)
    requires v == PushHash(cfg.restore, Window(x.start, x.hashes), x.cursor, b.hash)
    ensures ApplyBlock(x, cfg, b).Ok? ==>
      var u := ApplyBlock(x, cfg, b).value; Window(u.start, u.hashes) == v && u.cursor == x.cursor + 1
  {}

  /** The window ends with the hash of the block applied last. */
  lemma LastPushed(v: Working, cfg: Config, b: Block)
    ensures ApplyBlock(v, cfg, b).Ok? ==>
      var u := ApplyBlock(v, cfg, b).value;
      u.hashes != [] && u.hashes[|u.hashes|-1] == b.hash && u.start + |u.hashes| == v.cursor + 1 && u.cursor == v.cursor + 1
  {
    ApplyBlockWindow(v, cfg, b, PushHash(cfg.restore, Window(v.start, v.hashes), v.cursor, b.hash));
  }

  lemma {:induction false} BatchMovesCursor(v: Working, cfg: Config, bs: seq<Block>)
    ensures ApplyBlocks(v, cfg, bs).Ok? ==> ApplyBlocks(v, cfg, bs).value.cursor == v.cursor + |bs|
  {
    if bs != [] {
      BatchMovesCursor(v, cfg, bs[..|bs|-1]);
    }
  }

  /** After a batch the window ends at the cursor. */
  lemma BatchEnds(v: Working, cfg: Config, d: seq<Block>)
    requires d != []
    ensures ApplyBlocks(v, cfg, d).Ok? ==>
      var u := ApplyBlocks(v, cfg, d).value; u.cursor == u.start + |u.hashes| == v.cursor + |d|
  {
    var init, b := d[..|d|-1], d[|d|-1];
    BatchMovesCursor(v, cfg, d);
    if ApplyBlocks(v, cfg, d).Ok? {
      LastPushed(ApplyBlocks(v, cfg, init).value, cfg, b);
    }
  }

  lemma AppendSnoc(c: seq<Block>, d: seq<Block>)
    requires d != []
    ensures c + d == (c + d[..|d|-1]) + [d[|d|-1]]
  {
    assert d == d[..|d|-1] + [d[|d|-1]];
  }

  lemma {:induction false} PushAllAnchors(v: Working, cfg: Config, c: seq<Block>, d: seq<Block>)
    requires v.cursor == cfg.restore + |c| && d != []
    requires WindowFor(Window(v.start, v.hashes), c, cfg.restore, v.cursor)
    ensures ApplyBlocks(v, cfg, d).Ok? ==> EndsAt(ApplyBlocks(v, cfg, d).value, c + d, cfg.restore)
  {
    var init, b := d[..|d|-1], d[|d|-1];
    assert ApplyBlocks(v, cfg, d) == ThenBlock(ApplyBlocks(v, cfg, init), cfg, b);
    if ApplyBlocks(v, cfg, d).Ok? {
      AppendSnoc(c, d);
      var x := ApplyBlocks(v, cfg, init).value;
      if init == [] {
        assert c + init == c;
      } else {
        PushAllAnchors(v, cfg, c, init);
      }
      PushStep(x, cfg, c + init, b);
    }
  }

  /** A batch that passed the parent check is applied in full and extends the one chain, cut to its
      first `n` blocks: those below the cursor. */
  lemma BatchAnchors(v: Working, cfg: Config, c: seq<Block>, h: nat, n: nat, d: seq<Block>, blocks: iset<Block>, facts: map<Outpoint, Owned>)
    requires World(blocks, facts) && Anchored(v, cfg, c, h, blocks, facts) && LeftoversIn(v.outputs, v.cursor, cfg.replay)
    requires n <= |c| && v.cursor == cfg.restore + n
    requires d != [] && Linked(d, v.cursor) && Among(d, blocks)
    requires ExpectedParent(v) == None || ExpectedParent(v) == Some(d[0].previous)
    ensures ApplyBlocks(v, cfg, d).Ok?
    ensures var u := ApplyBlocks(v, cfg, d).value;
      && u.cursor == v.cursor + |d|
      && Anchored(u, cfg, c[..n] + d, u.cursor, blocks, facts) && LeftoversIn(u.outputs, u.cursor, cfg.replay)
  {
    var base, e := cfg.restore, c[..n];
    AgreesAtCursor(v.outputs, base, cfg.coverage, c, h, n, v.cursor, blocks, facts);
    WindowForPrefix(Window(v.start, v.hashes), c, base, n, v.cursor);
    BatchLinked(Window(v.start, v.hashes), e, base, v.cursor, d);
    WorldChain(e + d, base, blocks, facts);
    ReplayBlocks(v, cfg, e, base, d, facts);
    PushAllAnchors(v, cfg, e, d);
    R.NoRescan(v, cfg, d);
    BatchAnchored(ApplyBlocks(v, cfg, d).value, cfg, e + d, blocks, facts);
  }

  lemma BatchAnchored(u: Working, cfg: Config, c: seq<Block>, blocks: iset<Block>, facts: map<Outpoint, Owned>)
    requires !cfg.sealed && c != [] && u.rescan == None && Linked(c, cfg.restore) && Among(c, blocks)
    requires Agrees(u.outputs, c, cfg.restore, u.cursor, cfg.coverage, facts) && EndsAt(u, c, cfg.restore)
    ensures Anchored(u, cfg, c, u.cursor, blocks, facts)
  {}

  // ---------------------------------------------------------------------------------------------
  // Rewinding
  // ---------------------------------------------------------------------------------------------

  lemma RewoundLeftovers(outputs: Outputs, k: nat, replay: set<nat>)
    ensures LeftoversIn(RewindOutputs(outputs, k), k, replay)
    ensures forall h :: LeftoversIn(outputs, h, replay) ==> LeftoversIn(RewindOutputs(outputs, k), h, replay)
  {
    forall q | q in RewindOutputs(outputs, k)
      ensures q.height < k && (q.spendingHeight.Some? ==> q.spendingHeight.value < k)
      ensures exists o :: o in outputs && RewindOne(o, k) == Some(q)
    {
      S.FilterMapMembers(Rewinder(k), outputs, q);
      var o :| o in outputs && Rewinder(k)(o) == Some(q);
      assert RewindOne(o, k) == Some(q);
    }
    forall h | LeftoversIn(outputs, h, replay) ensures LeftoversIn(RewindOutputs(outputs, k), h, replay) {
      forall q | q in RewindOutputs(outputs, k)
        ensures q.height >= h ==> q.height in replay
        ensures q.spendingHeight.Some? && q.spendingHeight.value >= h ==> q.spendingHeight.value in replay
      {
        var o :| o in outputs && RewindOne(o, k) == Some(q);
      }
    }
  }

  lemma RewindWindowAnchors(w: Window, c: seq<Block>, base: nat, n: nat, h: nat, k: nat)
    requires w.start >= base && w.hashes != [] && WindowOf(w, c, base)
    requires base <= k <= h && n <= |c| && h == base + n
    requires (h == base || w.start < h) && (k == base || w.start < k)
    ensures var v, d := RewindWindow(base, w, h), c[..n];
      && WindowFor(v, d, base, k)
      && (d != [] ==> v.hashes != [] && WindowOf(v, d, base) && v.start == w.start)
      && (v.hashes != [] ==> v.start == w.start)
  {
    var v, d := RewindWindow(base, w, h), c[..n];
    if h > w.start {
      forall i | 0 <= i < |v.hashes| ensures v.hashes[i] == d[v.start + i - base].hash {
        assert w.hashes[i] == c[w.start + i - base].hash;
      }
    }
  }

  /** A rewind to a height the window still anchors, or to the restore height. `k` is where scanning
      resumes: not above the rewind height. */
  lemma RewindAnchors(v: Working, cfg: Config, c: seq<Block>, end: nat, n: nat, h: nat, k: nat, u: Working,
                      blocks: iset<Block>, facts: map<Outpoint, Owned>)
    requires World(blocks, facts) && Anchored(v, cfg, c, end, blocks, facts) && c != []
    requires cfg.restore <= k <= h && n <= |c| && h == cfg.restore + n
    requires h == cfg.restore || v.start < h
    requires k == cfg.restore || v.start < k
    requires u == Rewind(cfg.restore, h, v).(cursor := k)
    ensures Anchored(u, cfg, c[..n], h, blocks, facts) && (u.hashes != [] ==> u.start == v.start)
  {
    AgreesAtCursor(v.outputs, cfg.restore, cfg.coverage, c, end, n, h, blocks, facts);
    AgreesRewound(v.outputs, c[..n], cfg.restore, h, h, cfg.coverage, facts);
    RewindWindowAnchors(Window(v.start, v.hashes), c, cfg.restore, n, h, k);
    assert Window(u.start, u.hashes) == RewindWindow(cfg.restore, Window(v.start, v.hashes), h);
  }

  /** With nothing scanned yet a rewind only drops retained history. */
  lemma RewindAnchorsGrown(v: Working, cfg: Config, end: nat, h: nat, u: Working, blocks: iset<Block>, facts: map<Outpoint, Owned>)
    requires Anchored(v, cfg, [], end, blocks, facts) && h >= cfg.restore
    requires u == Rewind(cfg.restore, h, v).(cursor := cfg.restore)
    ensures Anchored(u, cfg, [], end, blocks, facts)
  {
    AgreesRewound(v.outputs, [], cfg.restore, cfg.restore, h, cfg.coverage, facts);
    assert Window(u.start, u.hashes) == RewindWindow(cfg.restore, Window(v.start, v.hashes), h);
  }

  // ---------------------------------------------------------------------------------------------
  // The loop
  // ---------------------------------------------------------------------------------------------

  /** The daemon's height does not fall out of the window: otherwise the height clamp would lower
      `last_scanned` to where no parent can be checked. */
  predicate DaemonReaches(v: Working, restore: nat, daemonHeight: nat) {
    daemonHeight == 0 || v.cursor <= daemonHeight || daemonHeight <= restore || v.start < daemonHeight
  }

  /** Responses hold served blocks, and one-by-one responses happen not to straddle a chain switch. */
  ghost predicate EventOk(ev: Event, blocks: iset<Block>) {
    ev.Response? ==>
      && Among(ev.blocks, blocks)
      && (ev.path.OneByOne? ==> forall i :: 0 < i < |ev.blocks| ==> ev.blocks[i].previous == ev.blocks[i-1].hash)
  }

  lemma ResponseLinked(ev: Event, start: nat, requested: nat, blocks: iset<Block>)
    requires ev.Response? && EventOk(ev, blocks) && ValidResponse(ev.path, start, requested, ev.blocks)
    ensures Linked(ev.blocks, start)
  {
    if ev.path.OneByOne? {
      forall i | 0 <= i < |ev.blocks| ensures ev.blocks[i].height == start + i {
        assert ValidRange(start + i, [ev.blocks[i]]);
        assert [ev.blocks[i]][0].height == start + i + 0;
      }
    }
  }

  /** What a pass leaves behind is again a state the loop can go on from. */
  ghost predicate Resumable(v: Working, cfg: Config, daemonHeight: nat, blocks: iset<Block>, facts: map<Outpoint, Owned>) {
    && (exists c, h :: Anchored(v, cfg, c, h, blocks, facts))
    && LeftoversIn(v.outputs, v.cursor, cfg.replay)
    && DaemonReaches(v, cfg.restore, daemonHeight)
  }

  lemma BatchPass(v: Working, cfg: Config, daemonHeight: nat, c: seq<Block>, h: nat, d: seq<Block>,
                  blocks: iset<Block>, facts: map<Outpoint, Owned>)
    requires World(blocks, facts) && Anchored(v, cfg, c, h, blocks, facts) && LeftoversIn(v.outputs, v.cursor, cfg.replay)
    requires d != [] && Linked(d, v.cursor) && Among(d, blocks) && v.cursor + |d| <= daemonHeight
    requires ExpectedParent(v) == None || ExpectedParent(v) == Some(d[0].previous)
    ensures ApplyBlocks(v, cfg, d).Ok? && Resumable(ApplyBlocks(v, cfg, d).value, cfg, daemonHeight, blocks, facts)
  {
    var n := v.cursor - cfg.restore;
    BatchAnchors(v, cfg, c, h, n, d, blocks, facts);
    var u := ApplyBlocks(v, cfg, d).value;
    Resumes(u, cfg, daemonHeight, c[..n] + d, u.cursor, blocks, facts);
  }

  lemma Resumes(u: Working, cfg: Config, daemonHeight: nat, c: seq<Block>, h: nat, blocks: iset<Block>, facts: map<Outpoint, Owned>)
    requires Anchored(u, cfg, c, h, blocks, facts) && LeftoversIn(u.outputs, u.cursor, cfg.replay)
    requires DaemonReaches(u, cfg.restore, daemonHeight)
    ensures Resumable(u, cfg, daemonHeight, blocks, facts)
  {
  }

  /** Before the first block there is no parent to compare with, or just the hash of block 0. */
  lemma NothingScannedNoParent(v: Working, cfg: Config, c: seq<Block>, end: nat, blocks: iset<Block>, facts: map<Outpoint, Owned>)
    requires Anchored(v, cfg, c, end, blocks, facts)
    ensures c == [] && ExpectedParent(v).Some? ==> cfg.restore == 0 && v.start == 0 && |v.hashes| == 1
  {}

  lemma RewindPass(v: Working, cfg: Config, daemonHeight: nat, c: seq<Block>, end: nat, h: nat, probe: Probe,
                   blocks: iset<Block>, facts: map<Outpoint, Owned>)
    requires World(blocks, facts) && Anchored(v, cfg, c, end, blocks, facts)
    requires ExpectedParent(v).Some? && v.cursor < daemonHeight
    requires FindReorg(cfg.restore, Window(v.start, v.hashes), probe) == Ok(Some(h))
    ensures Resumable(Rewind(cfg.restore, h, v), cfg, daemonHeight, blocks, facts)
  {
    LocatedHeight(cfg.restore, Window(v.start, v.hashes), probe);
    var u := Rewind(cfg.restore, h, v);
    NothingScannedNoParent(v, cfg, c, end, blocks, facts);
    RewoundLeftovers(v.outputs, h, cfg.replay);
    if c == [] {
      RewindAnchorsGrown(v, cfg, end, h, u, blocks, facts);
      Resumes(u, cfg, daemonHeight, [], end, blocks, facts);
    } else {
      var n := h - cfg.restore;
      RewindAnchors(v, cfg, c, end, n, h, h, u, blocks, facts);
      Resumes(u, cfg, daemonHeight, c[..n], h, blocks, facts);
    }
  }

  /** Every pass keeps the invariant, whatever the daemon served or answered. */
  lemma PassKeeps(v: Working, cfg: Config, daemonHeight: nat, batch: nat, failures: nat, ev: Event,
                  blocks: iset<Block>, facts: map<Outpoint, Owned>)
    requires World(blocks, facts) && Resumable(v, cfg, daemonHeight, blocks, facts)
    requires v.cursor < daemonHeight && batch > 0 && EventOk(ev, blocks)
    ensures var r := Pass(v, cfg, daemonHeight, batch, failures, ev);
      r.Next? ==> Resumable(r.work, cfg, daemonHeight, blocks, facts)
  {
    var requested := Requested(v.cursor, daemonHeight, batch);
    var r := Pass(v, cfg, daemonHeight, batch, failures, ev);
    if ev.Response? && ValidResponse(ev.path, v.cursor, requested, ev.blocks) {
      var c, h :| Anchored(v, cfg, c, h, blocks, facts);
      ResponseLinked(ev, v.cursor, requested, blocks);
      OnResponseKeeps(v, cfg, daemonHeight, failures, ev.blocks, ev.probe, ev.stopped, c, h, blocks, facts);
      assert r == OnResponse(v, cfg, failures, ev.blocks, ev.probe, ev.stopped);
    } else {
      assert r == Stop || r == Next(v, failures, false);
    }
  }

  /** A valid response, by cases of the parent check. */
  lemma OnResponseCases(v: Working, cfg: Config, failures: nat, d: seq<Block>, probe: Probe, stopped: bool)
    requires d != []
    ensures var r := OnResponse(v, cfg, failures, d, probe, stopped);
            var expected := ExpectedParent(v);
            var located := FindReorg(cfg.restore, Window(v.start, v.hashes), probe);
            var applied := ApplyBlocks(v, cfg, d);
      if expected == None || expected == Some(d[0].previous) then
        r == if stopped || applied.Err? then Stop else Next(applied.value, 0, true)
      else if located.Ok? && located.value.Some? then r == Next(Rewind(cfg.restore, located.value.value, v), 0, true)
      else r == Stop || r == Next(v, failures + 1, false)
  {}

  lemma OnResponseKeeps(v: Working, cfg: Config, daemonHeight: nat, failures: nat, d: seq<Block>, probe: Probe, stopped: bool,
                        c: seq<Block>, h: nat, blocks: iset<Block>, facts: map<Outpoint, Owned>)
    requires World(blocks, facts) && Resumable(v, cfg, daemonHeight, blocks, facts) && Anchored(v, cfg, c, h, blocks, facts)
    requires d != [] && Linked(d, v.cursor) && Among(d, blocks) && v.cursor + |d| <= daemonHeight
    ensures var r := OnResponse(v, cfg, failures, d, probe, stopped);
      r.Next? ==> Resumable(r.work, cfg, daemonHeight, blocks, facts)
  {
    OnResponseCases(v, cfg, failures, d, probe, stopped);
    var expected := ExpectedParent(v);
    if expected == None || expected == Some(d[0].previous) {
      BatchPass(v, cfg, daemonHeight, c, h, d, blocks, facts);
    } else {
      var located := FindReorg(cfg.restore, Window(v.start, v.hashes), probe);
      if located.Ok? && located.value.Some? {
        RewindPass(v, cfg, daemonHeight, c, h, located.value.value, probe, blocks, facts);
      }
    }
  }

  /** A commit publishes a safe wallet. */
  lemma CommitSafe(w: Wallet, v: Working, cfg: Config, daemonHeight: nat, blocks: iset<Block>, facts: map<Outpoint, Owned>)
    requires World(blocks, facts) && Resumable(v, cfg, daemonHeight, blocks, facts)
    requires cfg.restore == w.restore && cfg.coverage == w.coverage
    ensures Safe(Commit(w, v, daemonHeight), blocks, facts)
  {
    var c, h :| Anchored(v, cfg, c, h, blocks, facts);
    CommitInv(w, v, cfg, daemonHeight, c, h, blocks, facts);
  }

  lemma CommitInv(w: Wallet, v: Working, cfg: Config, daemonHeight: nat, c: seq<Block>, h: nat, blocks: iset<Block>, facts: map<Outpoint, Owned>)
    requires Anchored(v, cfg, c, h, blocks, facts) && DaemonReaches(v, cfg.restore, daemonHeight)
    requires cfg.restore == w.restore && cfg.coverage == w.coverage
    ensures Inv(Commit(w, v, daemonHeight), c, h, blocks, facts)
  {
    var p := Commit(w, v, daemonHeight);
    var k := StartHeight(p);
    assert k <= v.cursor && (k == w.restore || v.start < k);
    WindowForLower(Window(v.start, v.hashes), c, w.restore, v.cursor, k);
  }

  ghost predicate AllSafe(ps: seq<Wallet>, blocks: iset<Block>, facts: map<Outpoint, Owned>) {
    forall p :: p in ps ==> Safe(p, blocks, facts)
  }

  lemma ConsSafe(p: Wallet, ps: seq<Wallet>, blocks: iset<Block>, facts: map<Outpoint, Owned>)
    requires Safe(p, blocks, facts) && AllSafe(ps, blocks, facts)
    ensures AllSafe([p] + ps, blocks, facts)
  {}

  lemma {:induction false} LoopSafe(w: Wallet, v: Working, cfg: Config, daemonHeight: nat, batch: nat, failures: nat, events: seq<Event>,
                                    blocks: iset<Block>, facts: map<Outpoint, Owned>)
    requires World(blocks, facts) && Resumable(v, cfg, daemonHeight, blocks, facts)
    requires cfg.restore == w.restore && cfg.coverage == w.coverage && batch > 0
    requires forall ev :: ev in events ==> EventOk(ev, blocks)
    ensures AllSafe(Loop(w, v, cfg, daemonHeight, batch, failures, events), blocks, facts)
    decreases |events|
  {
    if v.cursor >= daemonHeight {
      CommitSafe(w, v, cfg, daemonHeight, blocks, facts);
    } else if events != [] {
      PassKeeps(v, cfg, daemonHeight, batch, failures, events[0], blocks, facts);
      var r := Pass(v, cfg, daemonHeight, batch, failures, events[0]);
      if r.Next? {
        CommitSafe(w, r.work, cfg, daemonHeight, blocks, facts);
        var rest := Loop(w, r.work, cfg, daemonHeight, batch, r.failures, events[1..]);
        LoopSafe(w, r.work, cfg, daemonHeight, batch, r.failures, events[1..], blocks, facts);
        ConsSafe(Commit(w, r.work, daemonHeight), rest, blocks, facts);
        assert [] + rest == rest;
      }
    }
  }

  // ---------------------------------------------------------------------------------------------
  // A refresh
  // ---------------------------------------------------------------------------------------------

  ghost predicate InputOk(w: Wallet, input: RefreshInput, blocks: iset<Block>) {
    && input.batch > 0
    && DaemonReaches(w.work.(cursor := StartHeight(w)), w.restore, input.daemonHeight)
    && forall ev :: ev in input.events ==> EventOk(ev, blocks)
  }

  /** Lowering the public cursor inside the window, or all the way, is harmless. */
  lemma LowerCursor(w: Wallet, cursor: nat, c: seq<Block>, h: nat, blocks: iset<Block>, facts: map<Outpoint, Owned>)
    requires Inv(w, c, h, blocks, facts) && Max(cursor, w.restore) <= StartHeight(w)
    requires cursor <= w.restore || w.work.start < cursor
    ensures Inv(w.(work := w.work.(cursor := cursor)), c, h, blocks, facts)
  {
    WindowForLower(Window(w.work.start, w.work.hashes), c, w.restore, StartHeight(w), Max(cursor, w.restore));
  }

  lemma ProgressSafe(w: Wallet, daemonHeight: nat, blocks: iset<Block>, facts: map<Outpoint, Owned>)
    requires Safe(w, blocks, facts) && DaemonReaches(w.work.(cursor := StartHeight(w)), w.restore, daemonHeight)
    ensures Safe(Progress(w, daemonHeight), blocks, facts)
  {
    var c, h :| Inv(w, c, h, blocks, facts);
    var cursor := Progress(w, daemonHeight).work.cursor;
    LowerCursor(w, cursor, c, h, blocks, facts);
  }

  lemma AllHistory(outputs: Outputs, h: nat)
    ensures LeftoversIn(outputs, h, HistoryHeights(outputs))
  {}

  lemma ResumedLeftovers(v: Working, cfg: Config, h: nat)
    requires LeftoversIn(v.outputs, 0, cfg.replay)
    ensures LeftoversIn(ResumedAt(v, cfg, h).outputs, ResumedAt(v, cfg, h).cursor, cfg.replay)
  {
    RewoundLeftovers(v.outputs, if h < cfg.restore then cfg.restore else h, cfg.replay);
    assert LeftoversIn(ResumedAt(v, cfg, h).outputs, 0, cfg.replay);
  }

  lemma ResumeKeeps(v: Working, cfg: Config, daemonHeight: nat, probe: Probe, c: seq<Block>, end: nat, h: nat,
                    blocks: iset<Block>, facts: map<Outpoint, Owned>)
    requires World(blocks, facts) && Anchored(v, cfg, c, end, blocks, facts)
    requires LeftoversIn(v.outputs, 0, cfg.replay) && v.cursor < daemonHeight
    requires FindReorg(cfg.restore, Window(v.start, v.hashes), probe) == Ok(Some(h))
    ensures Resumable(ResumedAt(v, cfg, h), cfg, daemonHeight, blocks, facts)
  {
    var u := ResumedAt(v, cfg, h);
    LocatedHeight(cfg.restore, Window(v.start, v.hashes), probe);
    ResumedLeftovers(v, cfg, h);
    if c == [] {
      RewindAnchorsGrown(v, cfg, end, h, u, blocks, facts);
      Resumes(u, cfg, daemonHeight, [], end, blocks, facts);
    } else {
      var n := h - cfg.restore;
      RewindAnchors(v, cfg, c, end, n, h, u.cursor, u, blocks, facts);
      Resumes(u, cfg, daemonHeight, c[..n], h, blocks, facts);
    }
  }

  /** The resume step, by cases of the fork search. */
  lemma ResumeCases(w: Wallet, v: Working, cfg: Config, input: RefreshInput)
    requires input.batch > 0
    ensures var r, dh := Resume(w, v, cfg, input), input.daemonHeight;
      match FindReorg(cfg.restore, Window(v.start, v.hashes), input.resumeProbe)
      case Err => r == []
      case Ok(None) => r == Loop(w, v, cfg, dh, input.batch, 0, input.events)
      case Ok(Some(h)) =>
        || r == Loop(w, v, cfg, dh, input.batch, 0, input.events)
        || r == [Commit(w, ResumedAt(v, cfg, h), dh)] + Loop(w, ResumedAt(v, cfg, h), cfg, dh, input.batch, 0, input.events)
  {}

  lemma ResumeSafe(w: Wallet, v: Working, cfg: Config, input: RefreshInput, c: seq<Block>, end: nat, blocks: iset<Block>, facts: map<Outpoint, Owned>)
    requires World(blocks, facts) && Anchored(v, cfg, c, end, blocks, facts) && LeftoversIn(v.outputs, 0, cfg.replay)
    requires Resumable(v, cfg, input.daemonHeight, blocks, facts)
    requires cfg.restore == w.restore && cfg.coverage == w.coverage && input.batch > 0 && v.cursor < input.daemonHeight
    requires forall ev :: ev in input.events ==> EventOk(ev, blocks)
    ensures AllSafe(Resume(w, v, cfg, input), blocks, facts)
  {
    var dh := input.daemonHeight;
    ResumeCases(w, v, cfg, input);
    LoopSafe(w, v, cfg, dh, input.batch, 0, input.events, blocks, facts);
    var located := FindReorg(cfg.restore, Window(v.start, v.hashes), input.resumeProbe);
    if located.Ok? && located.value.Some? {
      var h := located.value.value;
      ResumeKeeps(v, cfg, dh, input.resumeProbe, c, end, h, blocks, facts);
      var u := ResumedAt(v, cfg, h);
      CommitSafe(w, u, cfg, dh, blocks, facts);
      LoopSafe(w, u, cfg, dh, input.batch, 0, input.events, blocks, facts);
      ConsSafe(Commit(w, u, dh), Loop(w, u, cfg, dh, input.batch, 0, input.events), blocks, facts);
    }
  }

  /** Every wallet state a refresh ever publishes is safe. */
  lemma RefreshSafe(w: Wallet, input: RefreshInput, blocks: iset<Block>, facts: map<Outpoint, Owned>)
    requires World(blocks, facts) && Safe(w, blocks, facts) && InputOk(w, input, blocks)
    ensures AllSafe(Refresh(w, input), blocks, facts)
  {
    var dh := input.daemonHeight;
    var v, cfg := w.work.(cursor := StartHeight(w)), RefreshConfig(w);
    var c, h :| Inv(w, c, h, blocks, facts);
    assert Anchored(v, cfg, c, h, blocks, facts);
    AllHistory(v.outputs, v.cursor);
    AllHistory(v.outputs, 0);
    assert Resumable(v, cfg, dh, blocks, facts);
    ProgressSafe(w, dh, blocks, facts);
    if v.cursor >= dh {
      LoopSafe(w, v, cfg, dh, input.batch, 0, input.events, blocks, facts);
      ConsSafe(Progress(w, dh), Loop(w, v, cfg, dh, input.batch, 0, input.events), blocks, facts);
    } else {
      ResumeSafe(w, v, cfg, input, c, h, blocks, facts);
      ConsSafe(Progress(w, dh), Resume(w, v, cfg, input), blocks, facts);
    }
  }

  lemma {:induction false} LoopKeepsCoverage(w: Wallet, v: Working, cfg: Config, daemonHeight: nat, batch: nat, failures: nat, events: seq<Event>)
    requires batch > 0
    ensures forall p :: p in Loop(w, v, cfg, daemonHeight, batch, failures, events) ==> p.restore == w.restore && p.coverage == w.coverage
    decreases |events|
  {
    if v.cursor < daemonHeight && events != [] {
      var r := Pass(v, cfg, daemonHeight, batch, failures, events[0]);
      if r.Next? {
        LoopKeepsCoverage(w, r.work, cfg, daemonHeight, batch, r.failures, events[1..]);
      }
    }
  }

  /** Coverage cannot change during a refresh. */
  lemma RefreshKeepsCoverage(w: Wallet, input: RefreshInput)
    requires input.batch > 0
    ensures Refresh(w, input) != [] && forall p :: p in Refresh(w, input) ==> p.restore == w.restore && p.coverage == w.coverage
  {
    var v, cfg := w.work.(cursor := StartHeight(w)), RefreshConfig(w);
    LoopKeepsCoverage(w, v, cfg, input.daemonHeight, input.batch, 0, input.events);
    ResumeCases(w, v, cfg, input);
    var located := FindReorg(cfg.restore, Window(v.start, v.hashes), input.resumeProbe);
    if located.Ok? && located.value.Some? {
      LoopKeepsCoverage(w, ResumedAt(v, cfg, located.value.value), cfg, input.daemonHeight, input.batch, 0, input.events);
    }
  }

  // ---------------------------------------------------------------------------------------------
  // Whole runs: refreshes, coverage growth, manual rewinds, rescans, export, process death, import
  // ---------------------------------------------------------------------------------------------

  /** The open wallet and every cache exported so far. */
  datatype Sys = Sys(live: Wallet, caches: seq<Wallet>)

  datatype Op =
    | RefreshOp(input: RefreshInput, seen: nat)
    | GrowOp(gap: nat)
    | RewindOp(target: nat)
    | RescanOp(restore: nat)
    | OpenVacantOp(restore: nat)
    | OpenOccupiedOp(restore: nat)
    | ExportOp
    | ImportOp(cache: nat)

  const DEFAULT_GAP: nat := 50

  /** `expand_scan_coverage`: growing sends the cursor back, keeps history and window. */
  function Expand(w: Wallet, gap: nat): Wallet {
    if gap <= w.coverage.gap then w
    else w.(coverage := w.coverage.(gap := gap), work := w.work.(cursor := w.restore))
  }

  function Opened(restore: nat, accounts: nat): Wallet {
    Wallet(restore, Coverage(accounts, DEFAULT_GAP), Empty(restore))
  }

  /** Where a pending rescan takes the cursor: to the marker, never forward. */
  function UnsealTarget(w: Wallet, marker: nat): nat {
    if marker < w.work.cursor then marker else w.work.cursor
  }

  /** The height it rewinds to. */
  function UnsealHeight(w: Wallet, marker: nat): nat {
    Max(UnsealTarget(w, marker), w.restore)
  }

  /** `apply_pending_spend_rescan`: go back to the earliest output found without spend authority, but
      never forward. */
  function ApplyPendingRescan(w: Wallet): Wallet {
    if w.work.rescan == None then w
    else w.(work := Rewind(w.restore, UnsealTarget(w, w.work.rescan.value), w.work.(rescan := None)))
  }

  /** Opening a wallet that is open already: spend authority is restored, the restore height may only
      fall, the cursor and all that was found stay. */
  function Reopened(w: Wallet, restore: nat): Wallet {
    var open := ApplyPendingRescan(w);
    var lowered := if restore < open.restore then open.(restore := restore) else open;
    lowered.(work := lowered.work.(cursor := Max(lowered.work.cursor, lowered.restore)),
             coverage := lowered.coverage.(gap := if lowered.coverage.gap == 0 then DEFAULT_GAP else lowered.coverage.gap))
  }

  function MaxMinor(outputs: Outputs): nat {
    if outputs == [] then 0 else Max(MaxMinor(outputs[..|outputs|-1]), outputs[|outputs|-1].minor)
  }

  /** Importing a cache into an open unsealed wallet: the snapshot replaces the scan state, coverage
      becomes the widest of the cache, the open wallet and the indices already found. */
  function Import(cache: Wallet, live: Wallet): Wallet {
    var applied := cache.(work := cache.work.(cursor := Max(cache.work.cursor, live.restore)));
    Expand(applied, Max(MaxMinor(cache.work.outputs), live.coverage.gap))
  }

  lemma {:induction false} MaxMinorIs(outputs: Outputs)
    ensures forall o :: o in outputs ==> o.minor <= MaxMinor(outputs)
    ensures MaxMinor(outputs) > 0 ==> exists o :: o in outputs && o.minor == MaxMinor(outputs)
  {
    if outputs != [] {
      var init, last := outputs[..|outputs|-1], outputs[|outputs|-1];
      assert outputs == init + [last];
      MaxMinorIs(init);
      if MaxMinor(outputs) != last.minor {
        var o :| o in init && o.minor == MaxMinor(init);
        assert o in outputs;
      }
    }
  }

  /** An import widens the coverage just so far that it reaches what the cache, the open wallet and the outputs found
      need. */
  lemma ImportCovers(cache: Wallet, live: Wallet, gap: nat)
    requires gap == Import(cache, live).coverage.gap
    ensures gap >= cache.coverage.gap && gap >= live.coverage.gap && forall o :: o in Import(cache, live).work.outputs ==> o.minor <= gap
    ensures gap == cache.coverage.gap || gap == live.coverage.gap || exists o :: o in Import(cache, live).work.outputs && o.minor == gap
  {
    MaxMinorIs(cache.work.outputs);
  }

  /** A refresh is observed, or killed, after any of its publications; each could have been exported. */
  ghost function StepOp(s: Sys, op: Op): Sys
    requires op.RefreshOp? ==> op.input.batch > 0
  {
    match op
    case RefreshOp(input, seen) =>
      var published := Refresh(s.live, input);
      Sys(if seen < |published| then published[seen] else published[|published|-1], s.caches + published)
    case GrowOp(gap) => s.(live := Expand(s.live, Max(gap, 1)))
    case RewindOp(target) =>
      if target > s.live.work.cursor then s
      else s.(live := s.live.(work := Rewind(s.live.restore, target, s.live.work)))
    case RescanOp(restore) => s.(live := Wallet(restore, s.live.coverage, Empty(restore)))
    case OpenVacantOp(restore) => s.(live := Opened(restore, s.live.coverage.accounts))
    case OpenOccupiedOp(restore) => s.(live := Reopened(s.live, restore))
    case ExportOp => s.(caches := s.caches + [s.live])
    case ImportOp(i) =>
      if i >= |s.caches| || s.caches[i].restore > s.live.restore then s
      else s.(live := ApplyPendingRescan(Import(s.caches[i], s.live)))
  }

  /** Whether an import has to widen the cache's coverage. */
  predicate ImportGrows(cache: Wallet, live: Wallet) {
    Max(MaxMinor(cache.work.outputs), live.coverage.gap) > cache.coverage.gap
  }

  /** The cache reaches the open wallet's restore height, unless growth makes its scan start over - away from
      block 0. */
  predicate ImportOk(cache: Wallet, live: Wallet) {
    if ImportGrows(cache, live) then OffGenesis(cache.restore, cache.work) else StartHeight(cache) >= live.restore
  }

  /** The manual rewind stays inside the window or goes all the way. */
  predicate RewindStaysAnchored(w: Wallet, target: nat) {
    target <= w.restore || w.work.start < target
  }

  /** What the run must not do; each clause is shown to be needed in `Limits`, `Genesis` or `Gaps`. */
  ghost predicate OpOk(s: Sys, op: Op, blocks: iset<Block>) {
    match op
    case RefreshOp(input, _) => InputOk(s.live, input, blocks)
    case RewindOp(target) => target <= s.live.work.cursor ==> RewindStaysAnchored(s.live, target)
    case GrowOp(gap) => Max(gap, 1) > s.live.coverage.gap ==> OffGenesis(s.live.restore, s.live.work)
    case OpenOccupiedOp(restore) => restore >= s.live.restore
    case ImportOp(i) => i < |s.caches| ==> ImportOk(s.caches[i], s.live)
    case _ => true
  }

  ghost function Run(s: Sys, ops: seq<Op>): Sys
    requires forall op :: op in ops ==> op.RefreshOp? ==> op.input.batch > 0
    decreases |ops|
  {
    if ops == [] then s else Run(StepOp(s, ops[0]), ops[1..])
  }

  ghost predicate RunOk(s: Sys, ops: seq<Op>, blocks: iset<Block>)
    requires forall op :: op in ops ==> op.RefreshOp? ==> op.input.batch > 0
    decreases |ops|
  {
    ops != [] ==> OpOk(s, ops[0], blocks) && RunOk(StepOp(s, ops[0]), ops[1..], blocks)
  }

  ghost predicate SafeSys(s: Sys, blocks: iset<Block>, facts: map<Outpoint, Owned>) {
    Safe(s.live, blocks, facts) && AllSafe(s.caches, blocks, facts) && s.live.coverage.gap > 0
  }

  lemma EmptySafe(restore: nat, coverage: Coverage, blocks: iset<Block>, facts: map<Outpoint, Owned>)
    ensures Safe(Wallet(restore, coverage, Empty(restore)), blocks, facts)
  {
    var w := Wallet(restore, coverage, Empty(restore));
    assert Inv(w, [], restore, blocks, facts);
  }

  lemma ExpandInv(w: Wallet, x: Wallet, gap: nat, c: seq<Block>, h: nat, blocks: iset<Block>, facts: map<Outpoint, Owned>)
    requires Inv(w, c, h, blocks, facts) && gap > w.coverage.gap && OffGenesis(w.restore, w.work) && x == Expand(w, gap)
    ensures Inv(x, [], w.restore, blocks, facts)
  {
    AgreesGrown(w.work.outputs, c, w.restore, h, w.coverage, x.coverage, facts);
  }

  lemma ExpandSafe(w: Wallet, gap: nat, blocks: iset<Block>, facts: map<Outpoint, Owned>)
    requires Safe(w, blocks, facts) && (gap > w.coverage.gap ==> OffGenesis(w.restore, w.work))
    ensures Safe(Expand(w, gap), blocks, facts)
  {
    if gap > w.coverage.gap {
      var c, h :| Inv(w, c, h, blocks, facts);
      ExpandInv(w, Expand(w, gap), gap, c, h, blocks, facts);
    }
  }

  lemma ManualRewindSafe(w: Wallet, target: nat, blocks: iset<Block>, facts: map<Outpoint, Owned>)
    requires World(blocks, facts) && Safe(w, blocks, facts)
    requires target <= w.work.cursor && RewindStaysAnchored(w, target)
    ensures Safe(w.(work := Rewind(w.restore, target, w.work)), blocks, facts)
  {
    var c, end :| Inv(w, c, end, blocks, facts);
    ManualRewindFrom(w, target, Max(target, w.restore), c, end, blocks, facts);
  }

  lemma ManualRewindFrom(w: Wallet, target: nat, h: nat, c: seq<Block>, end: nat, blocks: iset<Block>, facts: map<Outpoint, Owned>)
    requires World(blocks, facts) && Inv(w, c, end, blocks, facts)
    requires target <= w.work.cursor && RewindStaysAnchored(w, target) && h == Max(target, w.restore)
    ensures Safe(w.(work := Rewind(w.restore, target, w.work)), blocks, facts)
  {
    var v := w.work.(cursor := StartHeight(w));
    var u := Rewind(w.restore, target, w.work);
    assert u.cursor == h && u == Rewind(w.restore, h, v).(cursor := h);
    if c == [] {
      assert h == w.restore;
      RewindAnchorsGrown(v, FreshLike(w), end, h, u, blocks, facts);
      RewoundInv(w, u, [], end, blocks, facts);
    } else {
      var n := h - w.restore;
      RewindAnchors(v, FreshLike(w), c, end, n, h, h, u, blocks, facts);
      RewoundInv(w, u, c[..n], h, blocks, facts);
    }
  }

  lemma RewoundInv(w: Wallet, u: Working, c: seq<Block>, h: nat, blocks: iset<Block>, facts: map<Outpoint, Owned>)
    requires Anchored(u, FreshLike(w), c, h, blocks, facts)
    ensures Safe(w.(work := u), blocks, facts)
  {
    var p := w.(work := u);
    assert u == p.work.(cursor := StartHeight(p));
    assert Inv(p, c, h, blocks, facts);
  }

  /** A cache that needs no growth comes in as it is. */
  lemma ImportKept(cache: Wallet, live: Wallet)
    requires cache.restore <= live.restore && ImportOk(cache, live) && !ImportGrows(cache, live)
    ensures var p := Import(cache, live);
      && p.restore == cache.restore && p.coverage == cache.coverage && StartHeight(p) == StartHeight(cache)
      && p.work.(cursor := StartHeight(p)) == cache.work.(cursor := StartHeight(cache))
  {
    var p := Import(cache, live);
    assert p == cache.(work := cache.work.(cursor := Max(cache.work.cursor, live.restore)));
  }

  lemma ImportSafe(cache: Wallet, live: Wallet, blocks: iset<Block>, facts: map<Outpoint, Owned>)
    requires Safe(cache, blocks, facts) && cache.restore <= live.restore && ImportOk(cache, live)
    ensures Safe(Import(cache, live), blocks, facts)
  {
    if ImportGrows(cache, live) {
      ExpandSafe(cache, Max(MaxMinor(cache.work.outputs), live.coverage.gap), blocks, facts);
    } else {
      var c, h :| Inv(cache, c, h, blocks, facts);
      ImportKept(cache, live);
      assert Inv(Import(cache, live), c, h, blocks, facts);
    }
  }

  /** An unsealed wallet has no pending rescan. */
  lemma NoPendingRescan(w: Wallet, blocks: iset<Block>, facts: map<Outpoint, Owned>)
    requires Safe(w, blocks, facts)
    ensures w.work.rescan == None && ApplyPendingRescan(w) == w
  {}

  lemma ReopenSafe(w: Wallet, restore: nat, blocks: iset<Block>, facts: map<Outpoint, Owned>)
    requires Safe(w, blocks, facts) && w.coverage.gap > 0 && restore >= w.restore
    ensures Safe(Reopened(w, restore), blocks, facts)
  {
    NoPendingRescan(w, blocks, facts);
    var c, h :| Inv(w, c, h, blocks, facts);
    assert Inv(Reopened(w, restore), c, h, blocks, facts);
  }

  lemma StepSafe(s: Sys, op: Op, blocks: iset<Block>, facts: map<Outpoint, Owned>)
    requires World(blocks, facts) && SafeSys(s, blocks, facts)
    requires op.RefreshOp? ==> op.input.batch > 0
    requires OpOk(s, op, blocks)
    ensures SafeSys(StepOp(s, op), blocks, facts)
  {
    match op
    case RefreshOp(input, seen) =>
      RefreshSafe(s.live, input, blocks, facts);
      RefreshKeepsCoverage(s.live, input);
    case GrowOp(gap) => ExpandSafe(s.live, Max(gap, 1), blocks, facts);
    case RewindOp(target) =>
      if target <= s.live.work.cursor { ManualRewindSafe(s.live, target, blocks, facts); }
    case RescanOp(restore) => EmptySafe(restore, s.live.coverage, blocks, facts);
    case OpenVacantOp(restore) => EmptySafe(restore, Opened(restore, s.live.coverage.accounts).coverage, blocks, facts);
    case OpenOccupiedOp(restore) => ReopenSafe(s.live, restore, blocks, facts);
    case ExportOp =>
    case ImportOp(i) =>
      if i < |s.caches| && s.caches[i].restore <= s.live.restore {
        ImportSafe(s.caches[i], s.live, blocks, facts);
        NoPendingRescan(Import(s.caches[i], s.live), blocks, facts);
      }
  }

  /** Whole-run safety: after any sequence of refreshes cut off anywhere, coverage growth, manual
      rewinds, rescans, reopens, exports and imports, with a daemon free to change chain and to answer
      inconsistently, the open wallet and every cache ever exported are explained by one chain each. */
  lemma {:induction false} WholeRunSafe(s: Sys, ops: seq<Op>, blocks: iset<Block>, facts: map<Outpoint, Owned>)
    requires World(blocks, facts) && SafeSys(s, blocks, facts)
    requires forall op :: op in ops ==> op.RefreshOp? ==> op.input.batch > 0
    requires RunOk(s, ops, blocks)
    ensures SafeSys(Run(s, ops), blocks, facts)
    ensures exists d :: Explains(Run(s, ops).live, d, StartHeight(Run(s, ops).live), blocks, facts)
    decreases |ops|
  {
    if ops == [] {
      SafeMeansOneChain(s.live, blocks, facts);
    } else {
      StepSafe(s, ops[0], blocks, facts);
      WholeRunSafe(StepOp(s, ops[0]), ops[1..], blocks, facts);
    }
  }
}
