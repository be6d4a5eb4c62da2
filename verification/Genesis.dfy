/** Restore height 0: the parent of block 0 is looked up at block 0's own height, so that with its hash retained a
    widened scan gets nowhere, or jumps to where a fork search leads. When that is harmless, exactly. */
module Genesis {
  import opened Chain
  import opened Scan
  import opened RecentHashes
  import opened Replay
  import opened Engine
  import opened OnePass
  import opened Samples
  import opened Limits
  import C = Cores
  import R = Rewinding

  // ---------------------------------------------------------------------------------------------
  // A widened scan against the retained hash of block 0
  // ---------------------------------------------------------------------------------------------

  /** The daemon confirms the newest retained hash. */
  predicate ConfirmsTip(probe: Probe, w: Window) {
    w.hashes != [] ==> probe(w.start + (|w.hashes| - 1)) == Some(w.hashes[|w.hashes| - 1])
  }

  lemma ConfirmedMeansNoFork(restore: nat, w: Window, probe: Probe)
    requires ConfirmsTip(probe, w)
    ensures FindReorg(restore, w, probe) == Ok(None)
  {}

  /** The hash of block 0 is retained and block 0 is scanned next. */
  predicate GenesisRetained(restore: nat, v: Working) {
    restore == 0 && v.start == 0 && v.hashes != []
  }

  /** Coverage was widened on a wallet that retains hashes, and the scan starts over. A valid batch of a daemon
      that confirms the retained tip is applied exactly when the parent of the first block is not looked up
      at that block's own height: unless the restore height is 0 and the hash of block 0 is retained. */
  lemma GrownScanProceedsIff(w: Wallet, gap: nat, v: Working, cfg: Config, failures: nat, d: seq<Block>, probe: Probe,
                             blocks: iset<Block>, facts: map<Outpoint, Owned>)
    requires World(blocks, facts) && Safe(w, blocks, facts) && gap > w.coverage.gap
    requires v == Expand(w, gap).work && cfg == RefreshConfig(Expand(w, gap))
    requires d != [] && ValidRange(v.cursor, d) && Among(d, blocks)
    requires ConfirmsTip(probe, Window(v.start, v.hashes)) && (v.hashes != [] ==> v.hashes[0] != 0)
    ensures var r := OnResponse(v, cfg, failures, d, probe, false);
      && ((r.Next? && r.committed) <==> !GenesisRetained(w.restore, w.work))
      && (r.Next? && r.committed ==> Ok(r.work) == ApplyBlocks(v, cfg, d))
  {
    if GenesisRetained(w.restore, w.work) {
      GenesisRefused(v, cfg, failures, d, probe);
    } else {
      GrownBatchApplied(w, gap, v, cfg, d, blocks, facts);
      OnResponseCases(v, cfg, failures, d, probe, false);
    }
  }

  lemma GenesisRefused(v: Working, cfg: Config, failures: nat, d: seq<Block>, probe: Probe)
    requires v.cursor == 0 && v.start == 0 && v.hashes != [] && v.hashes[0] != 0 && d != [] && d[0].previous == 0
    requires ConfirmsTip(probe, Window(v.start, v.hashes))
    ensures var r := OnResponse(v, cfg, failures, d, probe, false); !(r.Next? && r.committed)
  {
    ConfirmedMeansNoFork(cfg.restore, Window(v.start, v.hashes), probe);
    OnResponseCases(v, cfg, failures, d, probe, false);
  }

  lemma GrownBatchApplied(w: Wallet, gap: nat, v: Working, cfg: Config, d: seq<Block>, blocks: iset<Block>, facts: map<Outpoint, Owned>)
    requires World(blocks, facts) && Safe(w, blocks, facts) && gap > w.coverage.gap && !GenesisRetained(w.restore, w.work)
    requires v == Expand(w, gap).work && cfg == RefreshConfig(Expand(w, gap))
    requires d != [] && Linked(d, v.cursor) && Among(d, blocks)
    ensures ExpectedParent(v) == None && ApplyBlocks(v, cfg, d).Ok?
  {
    var c, h :| Inv(w, c, h, blocks, facts);
    GrownAnchored(w, gap, v, cfg, c, h, blocks, facts);
    NothingScannedNoParent(v, cfg, [], w.restore, blocks, facts);
    BatchAnchors(v, cfg, [], w.restore, 0, d, blocks, facts);
  }

  lemma GrownAnchored(w: Wallet, gap: nat, v: Working, cfg: Config, c: seq<Block>, h: nat, blocks: iset<Block>, facts: map<Outpoint, Owned>)
    requires Inv(w, c, h, blocks, facts) && gap > w.coverage.gap && OffGenesis(w.restore, w.work)
    requires v == Expand(w, gap).work && cfg == RefreshConfig(Expand(w, gap))
    ensures Anchored(v, cfg, [], w.restore, blocks, facts) && LeftoversIn(v.outputs, v.cursor, cfg.replay)
  {
    AgreesGrown(w.work.outputs, c, w.restore, h, w.coverage, cfg.coverage, facts);
    AllHistory(v.outputs, v.cursor);
  }

  ghost predicate ConfirmingEvent(ev: Event, w: Window) {
    ev.Response? ==> ConfirmsTip(ev.probe, w)
  }

  /** In that one case the loop never publishes anything, whatever else the daemon does: block 0 names no
      parent, the retained hash is not zero, and every fork search comes back empty. */
  lemma {:induction false} GenesisScanIsStuck(w: Wallet, v: Working, cfg: Config, daemonHeight: nat, batch: nat, failures: nat, events: seq<Event>)
    requires batch > 0 && v.cursor == 0 < daemonHeight && v.start == 0 && v.hashes != [] && v.hashes[0] != 0
    requires forall ev :: ev in events ==> ConfirmingEvent(ev, Window(v.start, v.hashes))
    ensures Loop(w, v, cfg, daemonHeight, batch, failures, events) == []
    decreases |events|
  {
    if events != [] {
      var ev := events[0];
      assert ConfirmingEvent(ev, Window(v.start, v.hashes));
      StuckPass(v, cfg, daemonHeight, batch, failures, ev);
      var r := Pass(v, cfg, daemonHeight, batch, failures, ev);
      if r.Next? {
        GenesisScanIsStuck(w, v, cfg, daemonHeight, batch, r.failures, events[1..]);
      }
    }
  }

  lemma StuckPass(v: Working, cfg: Config, daemonHeight: nat, batch: nat, failures: nat, ev: Event)
    requires batch > 0 && v.cursor == 0 < daemonHeight && v.start == 0 && v.hashes != [] && v.hashes[0] != 0
    requires ConfirmingEvent(ev, Window(v.start, v.hashes))
    ensures var r := Pass(v, cfg, daemonHeight, batch, failures, ev); r.Next? ==> !r.committed && r.work == v
  {
    if ev.Response? {
      ConfirmedMeansNoFork(cfg.restore, Window(v.start, v.hashes), ev.probe);
      if ValidResponse(ev.path, 0, Requested(0, daemonHeight, batch), ev.blocks) {
        assert ev.path.OneByOne? ==> ValidRange(0 + 0, [ev.blocks[0]]);
        OnResponseCases(v, cfg, failures, ev.blocks, ev.probe, ev.stopped);
      }
    }
  }

  /** So a refresh of such a wallet publishes its progress mark and nothing else. */
  lemma GenesisRefreshIsStuck(w: Wallet, input: RefreshInput)
    requires input.batch > 0 && w.restore == 0 && w.work.cursor == 0 < input.daemonHeight
    requires w.work.start == 0 && w.work.hashes != [] && w.work.hashes[0] != 0
    requires ConfirmsTip(input.resumeProbe, Window(w.work.start, w.work.hashes))
    requires forall ev :: ev in input.events ==> ConfirmingEvent(ev, Window(w.work.start, w.work.hashes))
    ensures Refresh(w, input) == [Progress(w, input.daemonHeight)]
  {
    ConfirmedMeansNoFork(0, Window(w.work.start, w.work.hashes), input.resumeProbe);
    GenesisScanIsStuck(w, w.work.(cursor := 0), RefreshConfig(w), input.daemonHeight, input.batch, 0, input.events);
    ResumeCases(w, w.work.(cursor := 0), RefreshConfig(w), input);
  }

  /** The wallet after scanning blocks 0 and 1 with the default coverage: block 0 pays an address beyond it. */
  const SCANNED_GENESIS := Wallet(0, SAMPLE_COVERAGE, Working([], 0, [5, 6], map[], None, 2))

  lemma GenesisApplied(w: Wallet, d: seq<Block>)
    requires w == Opened(0, 1) && d == [G0, G1]
    ensures ApplyBlocks(w.work, RefreshConfig(w), d) == Ok(SCANNED_GENESIS.work)
  {
    var cfg := RefreshConfig(w);
    TwoBlocks(w.work, cfg, G0, G1);
    FirstFind(w.work, cfg, G0, FAR_PAYMENT);
    var x := ApplyBlock(w.work, cfg, G0).value;
    assert x == Working([], 0, [5], map[], None, 1);
    FindNothing(x, cfg, G1);
    assert [5][..1] + [6] == [5, 6];
  }

  lemma GenesisScanned(w: Wallet, input: RefreshInput, probe: Probe)
    requires w == Opened(0, 1) && input == RefreshInput(2, 2, probe, [Response(RangeResponse, [G0, G1], probe, false)])
    ensures |Refresh(w, input)| == 3 && Refresh(w, input)[2] == SCANNED_GENESIS
  {
    var d, u := [G0, G1], SCANNED_GENESIS.work;
    GenesisApplied(w, d);
    assert ValidRange(0, d);
    ServedOnce(w.work, RefreshConfig(w), 2, 2, RangeResponse, d, probe, u);
    RefreshOnce(w, input, Response(RangeResponse, d, probe, false), u);
  }

  /** If instead the daemon changes chain between the two probes, the fork search during the replay sends the
      cursor up to the fork, past blocks the wider coverage has not seen. */
  lemma GenesisForkJumps(w: Wallet, input: RefreshInput, before: Probe, after: Probe)
    requires w == Wallet(0, WIDE_COVERAGE, Working([], 0, [5, 6], map[], None, 0))
    requires before(1) == Some(6) && after(1) == Some(7) && after(0) == Some(5)
    requires input == RefreshInput(2, 2, before, [Response(RangeResponse, [G0, G1], after, false)])
    ensures |Refresh(w, input)| == 2
    ensures var p := Refresh(w, input)[1]; p.restore == 0 && p.coverage == WIDE_COVERAGE && p.work.outputs == [] && StartHeight(p) == 1
  {
    var cfg, d := RefreshConfig(w), [G0, G1];
    var window := Window(0, [5, 6]);
    assert WalkBack(0, window, after, 1) == Ok(Some(1));
    assert FindReorg(0, window, after) == Ok(Some(1));
    assert ValidRange(0, d);
    OnResponseCases(w.work, cfg, 0, d, after, false);
    var u := Rewind(0, 1, w.work);
    assert Pass(w.work, cfg, 2, 2, 0, input.events[0]) == Next(u, 0, true);
    assert input.events[1..] == [];
    assert Loop(w, w.work, cfg, 2, 2, 0, input.events) == [Commit(w, u, 2)];
    ResumeCases(w, w.work, cfg, input);
  }

  /** Scan blocks 0 and 1, widen coverage, refresh while the daemon changes chain: the published wallet is past
      block 0 and misses what block 0 pays to an address it watches. */
  lemma GenesisRunSkipsPayment(s: Sys, first: RefreshInput, second: RefreshInput, before: Probe, after: Probe)
    requires s == Sys(Opened(0, 1), [])
    requires before(1) == Some(6) && after(1) == Some(7) && after(0) == Some(5)
    requires first == RefreshInput(2, 2, before, [Response(RangeResponse, [G0, G1], before, false)])
    requires second == RefreshInput(2, 2, before, [Response(RangeResponse, [G0, G1], after, false)])
    ensures World(GENESIS_BLOCKS, GENESIS_FACTS) && SafeSys(s, GENESIS_BLOCKS, GENESIS_FACTS)
    ensures Unexplained(StepOp(Run(s, [RefreshOp(first, 2), GrowOp(100)]), RefreshOp(second, 1)).live, GENESIS_BLOCKS, GENESIS_FACTS)
  {
    GenesisWorld();
    EmptySafe(0, SAMPLE_COVERAGE, GENESIS_BLOCKS, GENESIS_FACTS);
    GenesisScanned(s.live, first, before);
    TwoSteps(s, RefreshOp(first, 2), GrowOp(100));
    var grown := Run(s, [RefreshOp(first, 2), GrowOp(100)]).live;
    GenesisForkJumps(grown, second, before, after);
    var p := Refresh(grown, second)[1];
    forall d, h ensures !Explains(p, d, h, GENESIS_BLOCKS, GENESIS_FACTS) {
      FarMissedIsUnexplained(p, d);
    }
  }

  // ---------------------------------------------------------------------------------------------
  // When the jump is harmless
  // ---------------------------------------------------------------------------------------------

  /** No output of the blocks is watched under the wider coverage only. */
  ghost predicate AddsNothing(d: seq<Block>, narrow: Coverage, wide: Coverage) {
    forall b, o :: b in d && o in b.owned && Covers(wide, o) ==> Covers(narrow, o)
  }

  lemma TellsWiderIff(d: seq<Block>, base: nat, narrow: Coverage, wide: Coverage, w: Owned, y: Option<TrackedOutput>)
    requires Widens(narrow, wide) && Tells(d, base, narrow, w, y)
    ensures Tells(d, base, wide, w, y) <==> (Created(d, base, w) && Covers(wide, w) ==> Covers(narrow, w))
  {}

  lemma AddsNothingIff(d: seq<Block>, base: nat, narrow: Coverage, wide: Coverage, facts: map<Outpoint, Owned>)
    requires GoodFacts(facts) && R.GoodChain(d, facts)
    ensures AddsNothing(d, narrow, wide)
       <==> forall p :: p in facts ==> (Created(d, base, facts[p]) && Covers(wide, facts[p]) ==> Covers(narrow, facts[p]))
  {
    if forall p :: p in facts ==> (Created(d, base, facts[p]) && Covers(wide, facts[p]) ==> Covers(narrow, facts[p])) {
      forall b, o | b in d && o in b.owned && Covers(wide, o) ensures Covers(narrow, o) {
        var i: nat :| i < |d| && d[i] == b;
        assert GoodBlock(b, facts) && o.outpoint in facts && facts[o.outpoint] == o;
        assert CreatedAt(d, base, o, base + i);
      }
    }
    forall p | AddsNothing(d, narrow, wide) && p in facts && Created(d, base, facts[p]) && Covers(wide, facts[p]) ensures Covers(narrow, facts[p]) {
      var h: nat :| CreatedAt(d, base, facts[p], h);
      assert d[h - base] in d;
    }
  }

  lemma WellWider(outputs: Outputs, narrow: Coverage, wide: Coverage, facts: map<Outpoint, Owned>)
    requires C.Well(outputs, facts, narrow) && Widens(narrow, wide)
    ensures C.Well(outputs, facts, wide)
  {
    forall o | o in outputs ensures C.KnownOutput(o, facts, wide) {
      assert C.KnownOutput(o, facts, narrow);
    }
  }

  /** A state that agrees with the scan of a chain agrees with its wider scan exactly when that finds nothing
      more. */
  lemma AgreesWiderIff(outputs: Outputs, d: seq<Block>, base: nat, h: nat, narrow: Coverage, wide: Coverage, facts: map<Outpoint, Owned>)
    requires GoodFacts(facts) && R.GoodChain(d, facts) && Widens(narrow, wide) && Agrees(outputs, d, base, h, narrow, facts)
    ensures Agrees(outputs, d, base, h, wide, facts) <==> AddsNothing(d, narrow, wide)
  {
    WellWider(outputs, narrow, wide, facts);
    AgreesIffTold(outputs, d, base, h, narrow, facts);
    AgreesIffTold(outputs, d, base, h, wide, facts);
    AddsNothingIff(d, base, narrow, wide, facts);
    forall p | p in facts
      ensures Tells(d, base, wide, facts[p], C.Bind(C.CoreAt(outputs, p), Rewinder(h)))
         <==> (Created(d, base, facts[p]) && Covers(wide, facts[p]) ==> Covers(narrow, facts[p]))
    {
      TellsWiderIff(d, base, narrow, wide, facts[p], C.Bind(C.CoreAt(outputs, p), Rewinder(h)));
    }
  }

  /** The widened wallet after a jump to height `k`. */
  function Jumped(w: Wallet, gap: nat, k: nat): Wallet {
    var x := Expand(w, gap);
    x.(work := Rewind(0, k, x.work))
  }

  lemma JumpedIs(w: Wallet, gap: nat, k: nat)
    requires w.restore == 0 && w.work.start == 0 && 0 < k < |w.work.hashes| && gap > w.coverage.gap
    ensures var p := Jumped(w, gap, k);
      && p.restore == 0 && p.coverage == w.coverage.(gap := gap) && p.work.outputs == RewindOutputs(w.work.outputs, k)
      && p.work.start == 0 && p.work.hashes == w.work.hashes[..k] && p.work.cursor == k && p.work.rescan == w.work.rescan
      && StartHeight(p) == k
  {}

  /** The window from block 0 on is the whole chain. */
  lemma WholeWindow(w: Wallet, c: seq<Block>, h: nat, blocks: iset<Block>, facts: map<Outpoint, Owned>)
    requires Inv(w, c, h, blocks, facts) && w.restore == 0 && w.work.start == 0 && |w.work.hashes| > 1
    ensures |c| == |w.work.hashes| && forall i :: 0 <= i < |c| ==> w.work.hashes[i] == c[i].hash
  {}

  lemma PinnedPrefix(hashes: seq<Hash>, c: seq<Block>, x: seq<Block>, k: nat, blocks: iset<Block>)
    requires k <= |c| == |hashes| && |x| == k && HashFixesBlock(blocks) && Among(c, blocks) && Among(x, blocks)
    requires forall i :: 0 <= i < |c| ==> hashes[i] == c[i].hash
    requires forall i :: 0 <= i < k ==> hashes[i] == x[i].hash
    ensures x == c[..k]
  {
    forall i | 0 <= i < k ensures x[i] == c[i] {
      assert x[i] in x && c[i] in c;
    }
  }

  lemma JumpedWindow(p: Wallet, hashes: seq<Hash>, k: nat, x: seq<Block>, e: nat, blocks: iset<Block>, facts: map<Outpoint, Owned>)
    requires Inv(p, x, e, blocks, facts) && p.restore == 0 && p.work.start == 0 && 0 < k <= |hashes|
    requires p.work.hashes == hashes[..k] && p.work.cursor == k
    ensures |x| == k && Among(x, blocks) && Agrees(p.work.outputs, x, 0, k, p.coverage, facts)
    ensures forall i :: 0 <= i < k ==> hashes[i] == x[i].hash
  {
    assert forall i :: 0 <= i < k ==> hashes[..k][i] == hashes[i];
    assert forall i :: 0 <= i < k ==> hashes[..k][i] == x[0 + i - 0].hash;
  }

  lemma JumpAgrees(w: Wallet, c: seq<Block>, h: nat, k: nat, blocks: iset<Block>, facts: map<Outpoint, Owned>)
    requires World(blocks, facts) && Inv(w, c, h, blocks, facts) && w.restore == 0 && k <= |c|
    ensures Linked(c[..k], 0) && Among(c[..k], blocks) && R.GoodChain(c[..k], facts)
    ensures Agrees(RewindOutputs(w.work.outputs, k), c[..k], 0, k, w.coverage, facts)
  {
    AgreesAtCursor(w.work.outputs, 0, w.coverage, c, h, k, k, blocks, facts);
    AgreesRewound(w.work.outputs, c[..k], 0, k, k, w.coverage, facts);
    WorldChain(c[..k], 0, blocks, facts);
  }

  /** A jump to `k` is harmless exactly when the blocks it skips hold nothing for the addresses that are new. */
  lemma JumpSafeIff(w: Wallet, gap: nat, c: seq<Block>, h: nat, k: nat, blocks: iset<Block>, facts: map<Outpoint, Owned>)
    requires World(blocks, facts) && Inv(w, c, h, blocks, facts) && gap > w.coverage.gap && HashFixesBlock(blocks)
    requires w.restore == 0 && w.work.start == 0 && 0 < k < |w.work.hashes|
    ensures k <= |c| && (Safe(Jumped(w, gap, k), blocks, facts) <==> AddsNothing(c[..k], w.coverage, w.coverage.(gap := gap)))
  {
    var p, wide := Jumped(w, gap, k), w.coverage.(gap := gap);
    JumpedIs(w, gap, k);
    WholeWindow(w, c, h, blocks, facts);
    JumpAgrees(w, c, h, k, blocks, facts);
    AgreesWiderIff(RewindOutputs(w.work.outputs, k), c[..k], 0, k, w.coverage, wide, facts);
    if Safe(p, blocks, facts) {
      var x, e :| Inv(p, x, e, blocks, facts);
      JumpedWindow(p, w.work.hashes, k, x, e, blocks, facts);
      PinnedPrefix(w.work.hashes, c, x, k, blocks);
    }
    if AddsNothing(c[..k], w.coverage, wide) {
      JumpedInv(w, p, c, k, wide, blocks, facts);
    }
  }

  lemma JumpedInv(w: Wallet, p: Wallet, c: seq<Block>, k: nat, wide: Coverage, blocks: iset<Block>, facts: map<Outpoint, Owned>)
    requires 0 < k <= |c| == |w.work.hashes| && forall i :: 0 <= i < |c| ==> w.work.hashes[i] == c[i].hash
    requires p.restore == 0 && p.coverage == wide && p.work.start == 0 && p.work.hashes == w.work.hashes[..k] && p.work.cursor == k
    requires p.work.rescan == None && Linked(c[..k], 0) && Among(c[..k], blocks)
    requires Agrees(p.work.outputs, c[..k], 0, k, wide, facts)
    ensures Safe(p, blocks, facts)
  {
    assert Inv(p, c[..k], k, blocks, facts);
  }

  // ---------------------------------------------------------------------------------------------
  // What one answer can do
  // ---------------------------------------------------------------------------------------------

  /** Block 0 never matches the retained hash: the state stays, or goes where the fork search leads. */
  lemma GenesisPassCases(v: Working, cfg: Config, daemonHeight: nat, batch: nat, failures: nat, ev: Event)
    requires batch > 0 && cfg.restore == 0 && v.cursor == 0 < daemonHeight && v.start == 0 && v.hashes != [] && v.hashes[0] != 0
    ensures var r := Pass(v, cfg, daemonHeight, batch, failures, ev);
      || r == Stop || (r.Next? && r.work == v && !r.committed)
      || exists k: nat :: k < |v.hashes| && r == Next(Rewind(0, k, v), 0, true)
  {
    if ev.Response? && ValidResponse(ev.path, 0, Requested(0, daemonHeight, batch), ev.blocks) {
      assert ev.path.OneByOne? ==> ValidRange(0 + 0, [ev.blocks[0]]);
      OnResponseCases(v, cfg, failures, ev.blocks, ev.probe, ev.stopped);
      var located := FindReorg(0, Window(v.start, v.hashes), ev.probe);
      if located.Ok? && located.value.Some? {
        LocatedHeight(0, Window(v.start, v.hashes), ev.probe);
      }
    }
  }

  /** A daemon that shares exactly the first `k` retained blocks. */
  function ForkAt(hashes: seq<Hash>, k: nat): Probe {
    (height: nat) => Some(if height < |hashes| then if height < k then hashes[height] else hashes[height] + 1 else 0)
  }

  lemma {:induction false} ForkAtWalks(hashes: seq<Hash>, k: nat, n: nat)
    requires k <= n <= |hashes|
    ensures WalkBack(0, Window(0, hashes), ForkAt(hashes, k), n) == Ok(Some(k))
  {
    if k < n {
      ForkAtWalks(hashes, k, n - 1);
    }
  }

  lemma ForkAtFound(hashes: seq<Hash>, k: nat)
    requires k < |hashes|
    ensures FindReorg(0, Window(0, hashes), ForkAt(hashes, k)) == Ok(Some(k))
  {
    ForkAtWalks(hashes, k, |hashes| - 1);
  }

  /** Every answer that is committed is committed as a safe wallet. */
  ghost predicate AnswersSafely(x: Wallet, d: seq<Block>, daemonHeight: nat, blocks: iset<Block>, facts: map<Outpoint, Owned>)
    requires d != []
  {
    forall probe: Probe ::
      var r := OnResponse(x.work, RefreshConfig(x), 0, d, probe, false);
      r.Next? && r.committed ==> Safe(Commit(x, r.work, daemonHeight), blocks, facts)
  }

  lemma CommitJump(w: Wallet, gap: nat, k: nat, daemonHeight: nat)
    requires w.restore == 0 && gap > w.coverage.gap && k <= daemonHeight
    ensures Commit(Expand(w, gap), Rewind(0, k, Expand(w, gap).work), daemonHeight) == Jumped(w, gap, k)
  {}

  lemma JumpToNothing(w: Wallet, gap: nat, c: seq<Block>, h: nat, blocks: iset<Block>, facts: map<Outpoint, Owned>)
    requires Inv(w, c, h, blocks, facts) && gap > w.coverage.gap && w.restore == 0 && w.work.start == 0
    ensures Safe(Jumped(w, gap, 0), blocks, facts)
  {
    var p := Jumped(w, gap, 0);
    AgreesGrown(w.work.outputs, c, 0, h, w.coverage, p.coverage, facts);
    AgreesRewound(w.work.outputs, [], 0, 0, 0, p.coverage, facts);
    assert Inv(p, [], 0, blocks, facts);
  }

  lemma AddsNothingPrefix(c: seq<Block>, k: nat, n: nat, narrow: Coverage, wide: Coverage)
    requires k <= n <= |c| && AddsNothing(c[..n], narrow, wide)
    ensures AddsNothing(c[..k], narrow, wide)
  {
    forall b | b in c[..k] ensures b in c[..n] {}
  }

  lemma JumpsSafely(w: Wallet, gap: nat, c: seq<Block>, h: nat, n: nat, k: nat, blocks: iset<Block>, facts: map<Outpoint, Owned>)
    requires World(blocks, facts) && Inv(w, c, h, blocks, facts) && gap > w.coverage.gap && HashFixesBlock(blocks)
    requires w.restore == 0 && w.work.start == 0 && k <= n <= |c| && n < |w.work.hashes|
    requires AddsNothing(c[..n], w.coverage, w.coverage.(gap := gap))
    ensures Safe(Jumped(w, gap, k), blocks, facts)
  {
    if k == 0 {
      JumpToNothing(w, gap, c, h, blocks, facts);
    } else {
      AddsNothingPrefix(c, k, n, w.coverage, w.coverage.(gap := gap));
      JumpSafeIff(w, gap, c, h, k, blocks, facts);
    }
  }

  /** The answer to a block 0 that does not match, by its fork search. */
  lemma GenesisAnswer(x: Wallet, d: seq<Block>, probe: Probe)
    requires x.restore == 0 && x.work.cursor == 0 && x.work.start == 0 && x.work.hashes != [] && x.work.hashes[0] != 0
    requires d != [] && d[0].previous == 0
    ensures var r, located := OnResponse(x.work, RefreshConfig(x), 0, d, probe, false), FindReorg(0, Window(0, x.work.hashes), probe);
      && (r.Next? && r.committed ==> located.Ok? && located.value.Some?)
      && (located.Ok? && located.value.Some? ==> located.value.value < |x.work.hashes| && r == Next(Rewind(0, located.value.value, x.work), 0, true))
  {
    OnResponseCases(x.work, RefreshConfig(x), 0, d, probe, false);
    var located := FindReorg(0, Window(0, x.work.hashes), probe);
    if located.Ok? && located.value.Some? {
      LocatedHeight(0, Window(0, x.work.hashes), probe);
    }
  }

  /** Coverage is widened at restore height 0 with a window from block 0 on. Whatever a daemon answers to the fork
      search, the wallet committed is safe - exactly when no retained block but the newest holds anything
      for the addresses that are new. */
  lemma GenesisSafeIff(w: Wallet, gap: nat, c: seq<Block>, h: nat, d: seq<Block>, daemonHeight: nat, blocks: iset<Block>,
                       facts: map<Outpoint, Owned>)
    requires World(blocks, facts) && Inv(w, c, h, blocks, facts) && gap > w.coverage.gap && HashFixesBlock(blocks)
    requires w.restore == 0 && w.work.start == 0 && 1 < |w.work.hashes| <= daemonHeight && w.work.hashes[0] != 0
    requires d != [] && d[0].previous == 0
    ensures |c| == |w.work.hashes|
    ensures AnswersSafely(Expand(w, gap), d, daemonHeight, blocks, facts) <==> AddsNothing(c[..|c|-1], w.coverage, w.coverage.(gap := gap))
  {
    WholeWindow(w, c, h, blocks, facts);
    var x, n := Expand(w, gap), |c| - 1;
    if AddsNothing(c[..n], w.coverage, w.coverage.(gap := gap)) {
      forall probe: Probe
        ensures var r := OnResponse(x.work, RefreshConfig(x), 0, d, probe, false);
          r.Next? && r.committed ==> Safe(Commit(x, r.work, daemonHeight), blocks, facts)
      {
        GenesisAnswer(x, d, probe);
        var located := FindReorg(0, Window(0, x.work.hashes), probe);
        if located.Ok? && located.value.Some? {
          JumpsSafely(w, gap, c, h, n, located.value.value, blocks, facts);
          CommitJump(w, gap, located.value.value, daemonHeight);
        }
      }
    }
    if AnswersSafely(x, d, daemonHeight, blocks, facts) {
      ForkAtFound(w.work.hashes, n);
      GenesisAnswer(x, d, ForkAt(w.work.hashes, n));
      CommitJump(w, gap, n, daemonHeight);
      JumpSafeIff(w, gap, c, h, n, blocks, facts);
    }
  }
}
