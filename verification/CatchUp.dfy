/** Progress: a daemon that stays on one chain and answers truthfully brings the wallet to its tip, whatever chain the
    wallet was on before. */
module CatchUp {
  import opened Chain
  import opened Scan
  import opened Engine
  import opened Replay
  import L = Limits
  import RH = RecentHashes

  // ---------------------------------------------------------------------------------------------
  // A truthful daemon
  // ---------------------------------------------------------------------------------------------

  /** The daemon's chain from the restore height to its tip. */
  ghost predicate Serves(d: seq<Block>, base: nat, daemonHeight: nat, blocks: iset<Block>) {
    Linked(d, base) && Among(d, blocks) && daemonHeight == base + |d| && (base == 0 && d != [] ==> d[0].previous == 0)
  }

  ghost predicate HonestProbe(probe: RH.Probe, d: seq<Block>, base: nat) {
    forall i :: 0 <= i < |d| ==> probe(base + i) == Some(d[i].hash)
  }

  /** At least one block, at most what was asked for, from the cursor on. */
  ghost predicate HonestAnswer(ev: Event, cursor: nat, daemonHeight: nat, batch: nat, d: seq<Block>, base: nat) {
    && ev.Response? && ev.path == RangeResponse && !ev.stopped && HonestProbe(ev.probe, d, base)
    && base <= cursor && 0 < |ev.blocks| <= batch && cursor + |ev.blocks| <= daemonHeight == base + |d|
    && ev.blocks == d[cursor - base..cursor - base + |ev.blocks|]
  }

  /** Every pass of the loop gets an honest answer to what it asks. */
  ghost predicate Truthful(v: Working, cfg: Config, daemonHeight: nat, batch: nat, failures: nat, events: seq<Event>, d: seq<Block>)
    requires batch > 0
    decreases |events|
  {
    v.cursor < daemonHeight && events != [] ==>
      && HonestAnswer(events[0], v.cursor, daemonHeight, batch, d, cfg.restore)
      && var r := Pass(v, cfg, daemonHeight, batch, failures, events[0]);
         r.Next? ==> Truthful(r.work, cfg, daemonHeight, batch, r.failures, events[1..], d)
  }

  /** The parent of block 0 would be looked up at its own height. */
  predicate OffBlockZero(v: Working) {
    v.cursor == 0 ==> v.hashes == [] || v.start > 0
  }

  /** Below its cursor the state follows the daemon's chain. */
  ghost predicate Aligned(v: Working, cfg: Config, c: seq<Block>, h: nat, n: nat, d: seq<Block>, blocks: iset<Block>, facts: map<Outpoint, Owned>) {
    && Anchored(v, cfg, c, h, blocks, facts) && LeftoversIn(v.outputs, v.cursor, cfg.replay)
    && n <= |c| && n <= |d| && v.cursor == cfg.restore + n && c[..n] == d[..n] && OffBlockZero(v)
  }

  // ---------------------------------------------------------------------------------------------
  // One batch
  // ---------------------------------------------------------------------------------------------

  lemma AlignedParent(v: Working, cfg: Config, c: seq<Block>, h: nat, n: nat, d: seq<Block>, blocks: iset<Block>, facts: map<Outpoint, Owned>)
    requires Aligned(v, cfg, c, h, n, d, blocks, facts) && n < |d| && Linked(d, cfg.restore)
    ensures ExpectedParent(v) == None || ExpectedParent(v) == Some(d[n].previous)
  {
    if n > 0 {
      var k := n - 1;
      assert c[..n][k] == d[..n][k];
      assert v.hashes[v.cursor - 1 - v.start] == c[k].hash;
    }
  }

  lemma SliceLinked(d: seq<Block>, base: nat, n: nat, m: nat, from: nat)
    requires Linked(d, base) && n < m <= |d| && from == base + n && (base == 0 ==> d[0].previous == 0)
    ensures Linked(d[n..m], from) && ValidRange(from, d[n..m])
  {}

  lemma HonestIsValid(v: Working, cfg: Config, daemonHeight: nat, batch: nat, failures: nat, ev: Event, d: seq<Block>, n: nat, m: nat, blocks: iset<Block>)
    requires Serves(d, cfg.restore, daemonHeight, blocks) && v.cursor < daemonHeight && batch > 0
    requires HonestAnswer(ev, v.cursor, daemonHeight, batch, d, cfg.restore) && v.cursor == cfg.restore + n && m == n + |ev.blocks|
    ensures n < m <= |d|
    ensures ev.blocks == d[n..m] && ev.blocks[0] == d[n] && Linked(ev.blocks, v.cursor) && Among(ev.blocks, blocks)
    ensures Pass(v, cfg, daemonHeight, batch, failures, ev) == OnResponse(v, cfg, failures, ev.blocks, ev.probe, false)
  {
    SliceLinked(d, cfg.restore, n, m, v.cursor);
  }

  lemma AlignedNext(u: Working, cfg: Config, c: seq<Block>, x: seq<Block>, n: nat, m: nat, d: seq<Block>, blocks: iset<Block>, facts: map<Outpoint, Owned>)
    requires n <= |c| && n < m <= |d| && c[..n] == d[..n] && x == d[n..m] && u.cursor == cfg.restore + m
    requires Anchored(u, cfg, c[..n] + x, u.cursor, blocks, facts) && LeftoversIn(u.outputs, u.cursor, cfg.replay)
    ensures Aligned(u, cfg, d[..m], u.cursor, m, d, blocks, facts)
  {
    assert c[..n] + x == d[..m];
    assert d[..m][..m] == d[..m];
  }

  /** An honest answer to an aligned state is applied as a whole, and leaves an aligned state. */
  lemma HonestBatch(v: Working, cfg: Config, c: seq<Block>, h: nat, n: nat, m: nat, d: seq<Block>, daemonHeight: nat, batch: nat, failures: nat, ev: Event,
                    u: Working, blocks: iset<Block>, facts: map<Outpoint, Owned>)
    requires World(blocks, facts) && Aligned(v, cfg, c, h, n, d, blocks, facts) && Serves(d, cfg.restore, daemonHeight, blocks)
    requires v.cursor < daemonHeight && batch > 0 && HonestAnswer(ev, v.cursor, daemonHeight, batch, d, cfg.restore) && m == n + |ev.blocks|
    requires ApplyBlocks(v, cfg, ev.blocks).Ok? ==> u == ApplyBlocks(v, cfg, ev.blocks).value
    ensures Pass(v, cfg, daemonHeight, batch, failures, ev) == Next(u, 0, true) && Aligned(u, cfg, d[..m], u.cursor, m, d, blocks, facts)
  {
    HonestIsValid(v, cfg, daemonHeight, batch, failures, ev, d, n, m, blocks);
    AlignedParent(v, cfg, c, h, n, d, blocks, facts);
    BatchAnchors(v, cfg, c, h, n, ev.blocks, blocks, facts);
    OnResponseCases(v, cfg, failures, ev.blocks, ev.probe, false);
    AlignedNext(u, cfg, c, ev.blocks, n, m, d, blocks, facts);
  }

  // ---------------------------------------------------------------------------------------------
  // A fork
  // ---------------------------------------------------------------------------------------------

  /** Chains that share the block at a height share everything below it. */
  lemma {:induction false} SharedBelow(c: seq<Block>, d: seq<Block>, base: nat, k: nat, blocks: iset<Block>)
    requires Linked(c, base) && Linked(d, base) && Among(c, blocks) && Among(d, blocks) && L.HashFixesBlock(blocks)
    requires k < |c| && k < |d| && c[k].hash == d[k].hash
    ensures c[..k + 1] == d[..k + 1]
  {
    assert c[k] in c && d[k] in d;
    if k > 0 {
      SharedBelow(c, d, base, k - 1, blocks);
      assert c[..k + 1] == c[..k] + [c[k]] && d[..k + 1] == d[..k] + [d[k]];
    } else {
      assert c[..1] == [c[0]] && d[..1] == [d[0]];
    }
  }

  lemma SliceParents(c: seq<Block>, d: seq<Block>, from: nat, to: nat, blocks: iset<Block>)
    requires from <= to <= |c| && to <= |d| && Among(c, blocks) && Among(d, blocks) && L.HashFixesBlock(blocks)
    ensures RH.HashFixesParent(c[from..to], d[from..to])
  {
    var x, y := c[from..to], d[from..to];
    forall a, b | a in x && b in y && a.hash == b.hash ensures a.previous == b.previous {
      assert a in c && b in d;
    }
  }

  lemma PartLinked(c: seq<Block>, base: nat, from: nat, to: nat, start: nat)
    requires Linked(c, base) && from <= to <= |c| && start == base + from
    ensures Linked(c[from..to], start)
  {}

  lemma SliceAnswered(d: seq<Block>, base: nat, from: nat, to: nat, start: nat, probe: RH.Probe)
    requires HonestProbe(probe, d, base) && from <= to <= |d| && start == base + from
    ensures RH.Answers(probe, d[from..to], start)
  {
    forall i | 0 <= i < to - from ensures probe(start + i) == Some(d[from..to][i].hash) {
      var k := from + i;
      assert probe(base + k) == Some(d[k].hash);
    }
  }

  /** The window's blocks on the two chains. */
  lemma WindowCompared(w: Window, c: seq<Block>, d: seq<Block>, base: nat, from: nat, to: nat, probe: RH.Probe, blocks: iset<Block>)
    requires RH.WindowOf(w, c, base) && w.start >= base && Linked(c, base) && Linked(d, base) && Among(c, blocks) && Among(d, blocks)
    requires L.HashFixesBlock(blocks) && HonestProbe(probe, d, base) && from == w.start - base && to == from + |w.hashes| && to <= |d|
    ensures to <= |c| && RH.Comparable(w, c[from..to], d[from..to]) && RH.Answers(probe, d[from..to], w.start)
  {
    SliceParents(c, d, from, to, blocks);
    PartLinked(c, base, from, to, w.start);
    PartLinked(d, base, from, to, w.start);
    SliceAnswered(d, base, from, to, w.start, probe);
    assert forall i :: 0 <= i < |w.hashes| ==> c[from..to][i] == c[w.start + i - base];
  }

  /** What the fork search says: no fork only when the chain is a prefix of the daemon's; else a height up to which the
      two agree and from which on they differ. */
  ghost predicate ForkSaid(w: Window, c: seq<Block>, d: seq<Block>, base: nat, located: Result<Option<nat>>) {
    && located.Ok? && |c| <= |d|
    && (located.value == None ==> c == d[..|c|])
    && (located.value.Some? ==> ForkAt(w, c, d, base, located.value.value))
  }

  ghost predicate ForkAt(w: Window, c: seq<Block>, d: seq<Block>, base: nat, at: nat)
    requires |c| <= |d|
  {
    exists m: nat :: at == base + m && SharedTo(w, c, d, base, m)
  }

  /** The first `m` blocks are shared, and from there on nothing in the window is. */
  ghost predicate SharedTo(w: Window, c: seq<Block>, d: seq<Block>, base: nat, m: nat)
    requires |c| <= |d|
  {
    && m < |c| && c[..m] == d[..m] && (m == 0 || w.start < base + m)
    && forall k :: m <= k < |c| && w.start <= base + k ==> c[k] != d[k]
  }

  lemma WindowDiffers(w: Window, c: seq<Block>, d: seq<Block>, base: nat, at: nat, from: nat, k: nat)
    requires RH.WindowOf(w, c, base) && from == w.start - base && from <= k < |c| <= |d| && at <= base + k
    requires forall i :: 0 <= i < |w.hashes| ==> (w.hashes[i] == d[from..|c|][i].hash <==> w.start + i < at)
    ensures c[k] != d[k]
  {
    var i := k - from;
    assert w.hashes[i] == c[w.start + i - base].hash;
    assert d[from..|c|][i] == d[k];
  }

  lemma ForkShared(w: Window, c: seq<Block>, d: seq<Block>, base: nat, at: nat, m: nat, from: nat, blocks: iset<Block>)
    requires RH.WindowOf(w, c, base) && w.start >= base && Linked(c, base) && Linked(d, base) && Among(c, blocks) && Among(d, blocks)
    requires L.HashFixesBlock(blocks) && from == w.start - base && |c| <= |d|
    requires at == base + m && m < |c| && (at == base || w.start < at)
    requires forall i :: 0 <= i < |w.hashes| ==> (w.hashes[i] == d[from..|c|][i].hash <==> w.start + i < at)
    ensures ForkAt(w, c, d, base, at)
  {
    if m > 0 {
      var i := m - 1 - from;
      assert w.hashes[i] == d[from..|c|][i].hash && w.hashes[i] == c[w.start + i - base].hash;
      SharedBelow(c, d, base, m - 1, blocks);
    }
    forall k | m <= k < |c| && w.start <= base + k ensures c[k] != d[k] {
      WindowDiffers(w, c, d, base, at, from, k);
    }
    assert SharedTo(w, c, d, base, m);
  }

  lemma NoForkShared(w: Window, c: seq<Block>, d: seq<Block>, base: nat, from: nat, to: nat, blocks: iset<Block>)
    requires RH.WindowOf(w, c, base) && w.start >= base && Linked(c, base) && Linked(d, base) && Among(c, blocks) && Among(d, blocks)
    requires L.HashFixesBlock(blocks) && from == w.start - base && to == from + |w.hashes| == |c| <= |d| && w.hashes != []
    requires forall i :: 0 <= i < |w.hashes| ==> w.hashes[i] == d[from..to][i].hash
    ensures c == d[..|c|]
  {
    var k := |c| - 1;
    assert w.hashes[k - from] == d[from..to][k - from].hash;
    SharedBelow(c, d, base, k, blocks);
    assert c[..k + 1] == c;
  }

  lemma ForkFound(w: Window, c: seq<Block>, d: seq<Block>, base: nat, probe: RH.Probe, blocks: iset<Block>)
    requires RH.WindowOf(w, c, base) && w.start >= base && w.hashes != [] && |c| <= |d|
    requires Linked(c, base) && Linked(d, base) && Among(c, blocks) && Among(d, blocks)
    requires L.HashFixesBlock(blocks) && HonestProbe(probe, d, base)
    ensures ForkSaid(w, c, d, base, RH.FindReorg(base, w, probe))
  {
    var from, to := w.start - base, |c|;
    WindowCompared(w, c, d, base, from, to, probe, blocks);
    RH.ForkIsExact(base, w, probe, c[from..to], d[from..to]);
    var located := RH.FindReorg(base, w, probe);
    if located.value == None {
      NoForkShared(w, c, d, base, from, to, blocks);
    } else {
      RH.LocatedHeight(base, w, probe);
      ForkShared(w, c, d, base, located.value.value, located.value.value - base, from, blocks);
    }
  }

  /** A rewind to what the chains share leaves an aligned state, wherever at or below it scanning resumes. */
  lemma RewoundAligned(v: Working, cfg: Config, c: seq<Block>, h: nat, m: nat, k: nat, n: nat, d: seq<Block>, u: Working, at: nat,
                       blocks: iset<Block>, facts: map<Outpoint, Owned>)
    requires World(blocks, facts) && Anchored(v, cfg, c, h, blocks, facts) && c != [] && LeftoversIn(v.outputs, v.cursor, cfg.replay)
    requires m <= |c| && m <= |d| && c[..m] == d[..m] && at == cfg.restore + m && (at == cfg.restore || v.start < at)
    requires n <= m && k == cfg.restore + n && (k == cfg.restore || v.start < k)
    requires OffBlockZero(v)
    requires u == Rewind(cfg.restore, at, v).(cursor := k) && (k == at || k == v.cursor)
    ensures Aligned(u, cfg, c[..m], at, n, d, blocks, facts)
  {
    RewindAnchors(v, cfg, c, h, m, at, k, u, blocks, facts);
    RewoundLeftovers(v.outputs, at, cfg.replay);
    assert c[..m][..n] == d[..m][..n] && d[..m][..n] == d[..n];
  }

  // ---------------------------------------------------------------------------------------------
  // From any chain
  // ---------------------------------------------------------------------------------------------

  /** A state on some chain, not ahead of the daemon. */
  ghost predicate Behind(v: Working, cfg: Config, c: seq<Block>, h: nat, n: nat, d: seq<Block>, blocks: iset<Block>, facts: map<Outpoint, Owned>) {
    && Anchored(v, cfg, c, h, blocks, facts) && LeftoversIn(v.outputs, v.cursor, cfg.replay)
    && n <= |c| <= |d| && v.cursor == cfg.restore + n && OffBlockZero(v)
  }

  lemma ShorterShared(c: seq<Block>, d: seq<Block>, n: nat, m: nat)
    requires n <= m <= |c| && m <= |d| && c[..m] == d[..m]
    ensures c[..n] == d[..n]
  {
    assert c[..n] == c[..m][..n] && d[..n] == d[..m][..n];
  }

  lemma ForkStays(c: seq<Block>, d: seq<Block>, n: nat, m: nat)
    requires n <= m <= |c| && m <= |d| && c[..n] != d[..n]
    ensures c[..m] != d[..m]
  {
    if c[..m] == d[..m] {
      ShorterShared(c, d, n, m);
    }
  }

  /** The block below the cursor is still in the window. */
  lemma WindowReaches(w: Window, c: seq<Block>, base: nat, k: nat, n: nat)
    requires WindowFor(w, c, base, k) && n > 0 && k == base + n
    ensures w.start <= k - 1 && n <= |c| && HashAt(w, Below(k)) == Some(c[n - 1].hash)
  {
    var i := k - 1 - w.start;
    assert w.hashes[i] == c[w.start + i - base].hash;
  }

  lemma MismatchSeen(w: Window, c: seq<Block>, n: nat, m: nat, d: seq<Block>, base: nat, blocks: iset<Block>)
    requires 0 < n <= |c| <= |d| && n < |d| && c[..n] != d[..n] && w.start <= base + (n - 1)
    requires Among(c, blocks) && Linked(d, base) && Among(d, blocks) && L.HashFixesBlock(blocks) && SharedTo(w, c, d, base, m)
    ensures c[n - 1].hash != d[n].previous
  {
    var k := n - 1;
    if n <= m {
      ShorterShared(c, d, n, m);
    }
    assert c[k] in c && d[k] in d && c[k] != d[k];
  }

  /** The fork search finds where the chains part, below the cursor, and the parents differ there. */
  lemma ForkLocated(w: Window, c: seq<Block>, d: seq<Block>, base: nat, k: nat, n: nat, probe: RH.Probe, blocks: iset<Block>) returns (m: nat, at: nat)
    requires RH.WindowOf(w, c, base) && w.start >= base && w.hashes != [] && WindowFor(w, c, base, k) && k == base + n
    requires n <= |c| <= |d| && n < |d| && c[..n] != d[..n] && Linked(c, base) && Linked(d, base) && Among(c, blocks) && Among(d, blocks)
    requires L.HashFixesBlock(blocks) && HonestProbe(probe, d, base)
    ensures at == base + m && RH.FindReorg(base, w, probe) == Ok(Some(at)) && SharedTo(w, c, d, base, m)
    ensures HashAt(w, Below(k)).Some? && HashAt(w, Below(k)).value != d[n].previous
  {
    ForkFound(w, c, d, base, probe, blocks);
    assert c[..|c|] == c;
    ForkStays(c, d, n, |c|);
    at := RH.FindReorg(base, w, probe).value.value;
    m :| at == base + m && SharedTo(w, c, d, base, m);
    WindowReaches(w, c, base, k, n);
    MismatchSeen(w, c, n, m, d, base, blocks);
  }

  lemma ForkRewinds(v: Working, cfg: Config, failures: nat, x: seq<Block>, probe: RH.Probe, at: nat)
    requires x != [] && ExpectedParent(v).Some? && ExpectedParent(v).value != x[0].previous
    requires RH.FindReorg(cfg.restore, Window(v.start, v.hashes), probe) == Ok(Some(at))
    ensures OnResponse(v, cfg, failures, x, probe, false) == Next(Rewind(cfg.restore, at, v), 0, true)
  {
    OnResponseCases(v, cfg, failures, x, probe, false);
  }

  /** The first honest answer after a fork rewinds to what the chains share. */
  lemma ForkPass(v: Working, cfg: Config, c: seq<Block>, h: nat, n: nat, d: seq<Block>, daemonHeight: nat, batch: nat, failures: nat, ev: Event,
                 blocks: iset<Block>, facts: map<Outpoint, Owned>) returns (m: nat, u: Working)
    requires World(blocks, facts) && Behind(v, cfg, c, h, n, d, blocks, facts) && c[..n] != d[..n]
    requires Serves(d, cfg.restore, daemonHeight, blocks) && L.HashFixesBlock(blocks)
    requires v.cursor < daemonHeight && batch > 0 && HonestAnswer(ev, v.cursor, daemonHeight, batch, d, cfg.restore)
    ensures m < |c| && Pass(v, cfg, daemonHeight, batch, failures, ev) == Next(u, 0, true)
    ensures Aligned(u, cfg, c[..m], u.cursor, m, d, blocks, facts)
  {
    var at;
    m, at := ForkLocated(Window(v.start, v.hashes), c, d, cfg.restore, v.cursor, n, ev.probe, blocks);
    u := Rewind(cfg.restore, at, v);
    HonestIsValid(v, cfg, daemonHeight, batch, failures, ev, d, n, n + |ev.blocks|, blocks);
    ForkRewinds(v, cfg, failures, ev.blocks, ev.probe, at);
    RewoundAligned(v, cfg, c, h, m, at, m, d, u, at, blocks, facts);
  }

  // ---------------------------------------------------------------------------------------------
  // The loop
  // ---------------------------------------------------------------------------------------------

  /** The last wallet published is at the daemon's tip, and the daemon's chain explains it. */
  ghost predicate EndsAtTip(ps: seq<Wallet>, d: seq<Block>, daemonHeight: nat, blocks: iset<Block>, facts: map<Outpoint, Owned>) {
    ps != [] && ps[|ps|-1].work.cursor == daemonHeight && Explains(ps[|ps|-1], d, daemonHeight, blocks, facts)
  }

  lemma EndsLater(p: seq<Wallet>, ps: seq<Wallet>, d: seq<Block>, daemonHeight: nat, blocks: iset<Block>, facts: map<Outpoint, Owned>)
    requires EndsAtTip(ps, d, daemonHeight, blocks, facts)
    ensures EndsAtTip(p + ps, d, daemonHeight, blocks, facts)
  {}

  lemma TipCommitted(w: Wallet, v: Working, cfg: Config, c: seq<Block>, h: nat, n: nat, d: seq<Block>, daemonHeight: nat,
                     blocks: iset<Block>, facts: map<Outpoint, Owned>)
    requires World(blocks, facts) && Aligned(v, cfg, c, h, n, d, blocks, facts) && n == |d| && Serves(d, cfg.restore, daemonHeight, blocks)
    requires cfg.restore == w.restore && cfg.coverage == w.coverage
    ensures EndsAtTip([Commit(w, v, daemonHeight)], d, daemonHeight, blocks, facts)
  {
    AgreesAtCursor(v.outputs, cfg.restore, cfg.coverage, c, h, n, v.cursor, blocks, facts);
    assert c[..n] == d[..n] == d;
  }

  lemma {:induction false} AlignedCatchesUp(w: Wallet, v: Working, cfg: Config, c: seq<Block>, h: nat, n: nat, d: seq<Block>, daemonHeight: nat, batch: nat,
                                            failures: nat, events: seq<Event>, blocks: iset<Block>, facts: map<Outpoint, Owned>)
    requires World(blocks, facts) && Aligned(v, cfg, c, h, n, d, blocks, facts) && Serves(d, cfg.restore, daemonHeight, blocks)
    requires cfg.restore == w.restore && cfg.coverage == w.coverage && batch > 0
    requires Truthful(v, cfg, daemonHeight, batch, failures, events, d) && |events| >= |d| - n
    ensures EndsAtTip(Loop(w, v, cfg, daemonHeight, batch, failures, events), d, daemonHeight, blocks, facts)
    decreases |events|
  {
    if n == |d| {
      TipCommitted(w, v, cfg, c, h, n, d, daemonHeight, blocks, facts);
    } else {
      var ev := events[0];
      var m := n + |ev.blocks|;
      var r := Pass(v, cfg, daemonHeight, batch, failures, ev);
      var u := if ApplyBlocks(v, cfg, ev.blocks).Ok? then ApplyBlocks(v, cfg, ev.blocks).value else v;
      HonestBatch(v, cfg, c, h, n, m, d, daemonHeight, batch, failures, ev, u, blocks, facts);
      AlignedCatchesUp(w, u, cfg, d[..m], u.cursor, m, d, daemonHeight, batch, 0, events[1..], blocks, facts);
      EndsLater([Commit(w, u, daemonHeight)], Loop(w, u, cfg, daemonHeight, batch, 0, events[1..]), d, daemonHeight, blocks, facts);
    }
  }

  /** Enough honest answers - one for each block, and one for a fork - bring the loop to the daemon's tip. */
  lemma LoopCatchesUp(w: Wallet, v: Working, cfg: Config, c: seq<Block>, h: nat, n: nat, d: seq<Block>, daemonHeight: nat, batch: nat,
                      failures: nat, events: seq<Event>, blocks: iset<Block>, facts: map<Outpoint, Owned>)
    requires World(blocks, facts) && Behind(v, cfg, c, h, n, d, blocks, facts) && Serves(d, cfg.restore, daemonHeight, blocks) && L.HashFixesBlock(blocks)
    requires cfg.restore == w.restore && cfg.coverage == w.coverage && batch > 0 && v.cursor < daemonHeight
    requires Truthful(v, cfg, daemonHeight, batch, failures, events, d) && |events| > |d|
    ensures EndsAtTip(Loop(w, v, cfg, daemonHeight, batch, failures, events), d, daemonHeight, blocks, facts)
  {
    if c[..n] == d[..n] {
      AlignedCatchesUp(w, v, cfg, c, h, n, d, daemonHeight, batch, failures, events, blocks, facts);
    } else {
      var m, u := ForkPass(v, cfg, c, h, n, d, daemonHeight, batch, failures, events[0], blocks, facts);
      AlignedCatchesUp(w, u, cfg, c[..m], u.cursor, m, d, daemonHeight, batch, 0, events[1..], blocks, facts);
      EndsLater([Commit(w, u, daemonHeight)], Loop(w, u, cfg, daemonHeight, batch, 0, events[1..]), d, daemonHeight, blocks, facts);
    }
  }

  // ---------------------------------------------------------------------------------------------
  // A refresh
  // ---------------------------------------------------------------------------------------------

  /** The state the loop starts from: the wallet's, or after the rewind the resume probe asks for. */
  function Started(v: Working, cfg: Config, located: Option<nat>): Working {
    if located.Some? then ResumedAt(v, cfg, located.value) else v
  }

  lemma {:induction false} HonestWalk(restore: nat, w: Window, probe: RH.Probe, n: nat)
    requires n <= |w.hashes| && forall k: nat :: w.start <= k < w.start + |w.hashes| ==> probe(k).Some?
    ensures RH.WalkBack(restore, w, probe, n).Ok?
  {
    if n > 0 {
      HonestWalk(restore, w, probe, n - 1);
    }
  }

  /** With nothing scanned at this coverage yet, the search gets its answers, and scanning starts at the restore height. */
  lemma StartedGrown(v: Working, cfg: Config, h: nat, d: seq<Block>, probe: RH.Probe, blocks: iset<Block>, facts: map<Outpoint, Owned>)
    requires Behind(v, cfg, [], h, 0, d, blocks, facts) && HonestProbe(probe, d, cfg.restore) && v.start + |v.hashes| <= cfg.restore + |d|
    ensures RH.FindReorg(cfg.restore, Window(v.start, v.hashes), probe).Ok?
    ensures Aligned(Started(v, cfg, RH.FindReorg(cfg.restore, Window(v.start, v.hashes), probe).value), cfg, [], h, 0, d, blocks, facts)
  {
    var w := Window(v.start, v.hashes);
    forall k: nat | w.start <= k < w.start + |w.hashes| ensures probe(k).Some? {
      var i := k - cfg.restore;
      assert probe(cfg.restore + i) == Some(d[i].hash);
    }
    HonestWalk(cfg.restore, w, probe, |w.hashes|);
    if w.hashes != [] {
      HonestWalk(cfg.restore, w, probe, |w.hashes| - 1);
    }
    var located := RH.FindReorg(cfg.restore, w, probe);
    if located.value.Some? {
      RH.LocatedHeight(cfg.restore, w, probe);
      var at := located.value.value;
      RewindAnchorsGrown(v, cfg, h, at, ResumedAt(v, cfg, at), blocks, facts);
      RewoundLeftovers(v.outputs, at, cfg.replay);
    }
  }

  /** On a scanned chain it finds the fork, and scanning starts on what the chains share. */
  lemma StartedScanned(v: Working, cfg: Config, c: seq<Block>, h: nat, n: nat, d: seq<Block>, probe: RH.Probe, blocks: iset<Block>, facts: map<Outpoint, Owned>)
    returns (e: seq<Block>, end: nat, k: nat)
    requires World(blocks, facts) && Behind(v, cfg, c, h, n, d, blocks, facts) && c != [] && HonestProbe(probe, d, cfg.restore)
    requires Linked(d, cfg.restore) && Among(d, blocks) && L.HashFixesBlock(blocks)
    ensures RH.FindReorg(cfg.restore, Window(v.start, v.hashes), probe).Ok?
    ensures Aligned(Started(v, cfg, RH.FindReorg(cfg.restore, Window(v.start, v.hashes), probe).value), cfg, e, end, k, d, blocks, facts)
  {
    var w := Window(v.start, v.hashes);
    ForkFound(w, c, d, cfg.restore, probe, blocks);
    var located := RH.FindReorg(cfg.restore, w, probe);
    e, end, k := c, h, n;
    if located.value == None {
      assert c[..|c|] == c;
      ShorterShared(c, d, n, |c|);
    } else {
      var at := located.value.value;
      var m: nat :| at == cfg.restore + m && SharedTo(w, c, d, cfg.restore, m);
      e, end, k := c[..m], at, if n < m then n else m;
      RewoundAligned(v, cfg, c, h, m, cfg.restore + k, k, d, ResumedAt(v, cfg, at), at, blocks, facts);
    }
  }

  ghost predicate HonestRefresh(w: Wallet, input: RefreshInput, d: seq<Block>) {
    var v, cfg := w.work.(cursor := StartHeight(w)), RefreshConfig(w);
    var located := RH.FindReorg(cfg.restore, Window(v.start, v.hashes), input.resumeProbe);
    && input.batch > 0 && |input.events| > |d| && HonestProbe(input.resumeProbe, d, w.restore)
    && (located.Ok? ==> Truthful(Started(v, cfg, located.value), cfg, input.daemonHeight, input.batch, 0, input.events, d))
  }

  lemma RefreshIs(w: Wallet, input: RefreshInput, located: Option<nat>, u: Working)
    requires input.batch > 0 && StartHeight(w) < input.daemonHeight && (w.work.hashes != [] ==> w.work.start >= w.restore)
    requires RH.FindReorg(w.restore, Window(w.work.start, w.work.hashes), input.resumeProbe) == Ok(located)
    requires u == Started(w.work.(cursor := StartHeight(w)), RefreshConfig(w), located)
    ensures Refresh(w, input) == [Progress(w, input.daemonHeight)]
      + ((if located.Some? then [Commit(w, u, input.daemonHeight)] else [])
         + Loop(w, u, RefreshConfig(w), input.daemonHeight, input.batch, 0, input.events))
  {
    var v := w.work.(cursor := StartHeight(w));
    if located.Some? {
      RH.ResumeNeverIgnoresFork(w.restore, Window(v.start, v.hashes), input.resumeProbe, v.cursor);
    }
    var loop := Loop(w, u, RefreshConfig(w), input.daemonHeight, input.batch, 0, input.events);
    assert [] + loop == loop;
  }

  /** A refresh against a daemon that stays on one chain and answers truthfully: whatever chain the wallet was on, whatever
      history it retains from a narrower coverage, the last wallet published stands at the daemon's tip, and the
      daemon's chain explains it. */
  lemma RefreshCatchesUp(w: Wallet, input: RefreshInput, c: seq<Block>, h: nat, d: seq<Block>, blocks: iset<Block>, facts: map<Outpoint, Owned>)
    requires World(blocks, facts) && Inv(w, c, h, blocks, facts) && Serves(d, w.restore, input.daemonHeight, blocks) && L.HashFixesBlock(blocks)
    requires |c| <= |d| && StartHeight(w) < input.daemonHeight && w.work.start + |w.work.hashes| <= input.daemonHeight
    requires OffBlockZero(w.work.(cursor := StartHeight(w))) && HonestRefresh(w, input, d)
    ensures EndsAtTip(Refresh(w, input), d, input.daemonHeight, blocks, facts)
  {
    var v, cfg := w.work.(cursor := StartHeight(w)), RefreshConfig(w);
    var n := v.cursor - w.restore;
    AllHistory(v.outputs, v.cursor);
    assert Behind(v, cfg, c, h, n, d, blocks, facts);
    var located := RH.FindReorg(cfg.restore, Window(v.start, v.hashes), input.resumeProbe);
    var e, end, k := c, h, n;
    if c == [] {
      StartedGrown(v, cfg, h, d, input.resumeProbe, blocks, facts);
    } else {
      e, end, k := StartedScanned(v, cfg, c, h, n, d, input.resumeProbe, blocks, facts);
    }
    var u := Started(v, cfg, located.value);
    var loop := Loop(w, u, cfg, input.daemonHeight, input.batch, 0, input.events);
    AlignedCatchesUp(w, u, cfg, e, end, k, d, input.daemonHeight, input.batch, 0, input.events, blocks, facts);
    RefreshIs(w, input, located.value, u);
    EndsLater(if located.value.Some? then [Commit(w, u, input.daemonHeight)] else [], loop, d, input.daemonHeight, blocks, facts);
    EndsLater([Progress(w, input.daemonHeight)], (if located.value.Some? then [Commit(w, u, input.daemonHeight)] else []) + loop, d, input.daemonHeight, blocks, facts);
  }
}
