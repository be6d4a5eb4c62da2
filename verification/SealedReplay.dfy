/** Where the rescan marker does not help: a sealed find, coverage growth, a reorganisation that moves the
    transaction below the marker, a sealed replay, and an unseal that leaves an output nobody can see spent;
    and a marker older than the hash window. */
module SealedReplay {
  import opened Chain
  import opened Scan
  import opened Engine
  import opened Samples
  import opened WholeRuns
  import opened InStep
  import L = Limits
  import R = Rewinding
  import RW = RecentWindow
  import V = Sealing
  import RH = RecentHashes

  /** An ordinary payment: its transaction can be mined in a block of either chain. */
  const MOVABLE_PAYMENT := Owned(Outpoint(130, 0), 504, 604, 11, NoLock, 0, 1, false)

  const X1 := Block(1, 10, 9, 0, 110, [], [], [], [])
  const X2 := Block(2, 20, 10, 0, 120, [], [130], [DecodedTx(false, [])], [MOVABLE_PAYMENT])
  const Y1 := Block(1, 11, 9, 0, 111, [], [130], [DecodedTx(false, [])], [MOVABLE_PAYMENT])

  ghost const MOVABLE_BLOCKS: iset<Block> := iset b | b in [X1, X2, Y1]
  const MOVABLE_FACTS: map<Outpoint, Owned> := map[MOVABLE_PAYMENT.outpoint := MOVABLE_PAYMENT]

  lemma MovableBlockGood(b: Block)
    requires b in MOVABLE_BLOCKS
    ensures (b == X1 || b == X2 || b == Y1) && GoodBlock(b, MOVABLE_FACTS) && Spendless(b)
  {
    assert b.txids == [130] ==> 130 in TxidsOf(b);
    assert b == X1 ==> TxidsOf(b) == {110};
  }

  lemma PaidOnce(a: Block, b: Block)
    requires a in MOVABLE_BLOCKS && b in MOVABLE_BLOCKS && a.height < b.height && !(a == Y1 && b == X2)
    ensures forall o, p :: o in a.owned && p in b.owned ==> o.outpoint != p.outpoint
  {}

  /** No chain holds the payment twice. */
  lemma MovableConsensus(c: seq<Block>, base: nat)
    requires Linked(c, base) && Among(c, MOVABLE_BLOCKS)
    ensures Consensus(c)
  {
    forall i, x | 0 <= i < |c| ensures !Spends(c[i], x) {
      assert c[i] in c;
      MovableBlockGood(c[i]);
      NoSpends(c[i]);
    }
    forall i, j | 0 <= i < j < |c| ensures forall o, p :: o in c[i].owned && p in c[j].owned ==> o.outpoint != p.outpoint {
      assert c[i] in c && c[j] in c && c[i].height < c[j].height;
      assert !(c[i] == Y1 && c[j] == X2) by {
        assert c[i].height + 1 == c[j].height ==> c[j].previous == c[i].hash;
      }
      PaidOnce(c[i], c[j]);
    }
  }

  lemma MovableWorld()
    ensures World(MOVABLE_BLOCKS, MOVABLE_FACTS)
  {
    forall b | b in MOVABLE_BLOCKS ensures GoodBlock(b, MOVABLE_FACTS) {
      MovableBlockGood(b);
    }
    forall c: seq<Block>, base: nat | Linked(c, base) && Among(c, MOVABLE_BLOCKS) ensures Consensus(c) {
      MovableConsensus(c, base);
    }
  }

  // ---------------------------------------------------------------------------------------------
  // The run
  // ---------------------------------------------------------------------------------------------

  const BLIND_AT_TWO := Tracked(MOVABLE_PAYMENT, 2, true)
  const BLIND_AT_ONE := Tracked(MOVABLE_PAYMENT, 1, true)

  /** After the view-only scan of the first chain: the marker is at the find. */
  const FOUND_SEALED := Wallet(1, SAMPLE_COVERAGE, Working([BLIND_AT_TWO], 1, [10, 20], map[], Some(2), 3))

  /** After the view-only replay of the second chain: the output moved below the marker. */
  const MOVED_SEALED := Wallet(1, WIDE_COVERAGE, Working([BLIND_AT_ONE], 1, [11], map[], Some(2), 2))

  lemma SealedFind(v: Working, cfg: Config)
    requires v == Working([], 1, [10], map[], None, 2) && cfg == Config(1, SAMPLE_COVERAGE, true, {})
    ensures ApplyBlock(v, cfg, X2) == Ok(FOUND_SEALED.work)
  {
    NoSpends(X2);
    SealedReceive(Receipt([], None), 2, SAMPLE_COVERAGE);
    assert [] + [BLIND_AT_TWO] == [BLIND_AT_TWO];
    NothingToAttribute([BLIND_AT_TWO], 2);
    assert [10][..1] + [20] == [10, 20];
    assert ApplySightings(Reconciled([], cfg, 2, X2), Sightings(X2), 2) == [];
  }

  lemma SealedReceive(r: Receipt, h: nat, coverage: Coverage)
    requires Covers(coverage, MOVABLE_PAYMENT)
    ensures ScanOwned([MOVABLE_PAYMENT], coverage) == [MOVABLE_PAYMENT]
    ensures Receive(r, [MOVABLE_PAYMENT], h, true) == ReceiveOne(r, MOVABLE_PAYMENT, h, true)
  {
    assert [MOVABLE_PAYMENT][1..] == [] && ScanOwned([], coverage) == [];
    assert [MOVABLE_PAYMENT][..0] == [] && Receive(r, [], h, true) == Ok(r);
  }

  lemma SealedMove(v: Working, cfg: Config)
    requires v == FOUND_SEALED.work.(cursor := 1) && cfg == Config(1, WIDE_COVERAGE, true, {2})
    ensures ApplyBlock(v, cfg, Y1) == Ok(MOVED_SEALED.work)
  {
    NoSpends(Y1);
    SealedReceive(Receipt([BLIND_AT_TWO], Some(2)), 1, WIDE_COVERAGE);
    assert [BLIND_AT_TWO][0 := BLIND_AT_ONE] == [BLIND_AT_ONE];
    NothingToAttribute([BLIND_AT_ONE], 1);
    assert [10, 20][..0] + [11] == [11];
    assert ApplySightings(Reconciled([BLIND_AT_TWO], cfg, 1, Y1), Sightings(Y1), 1) == [BLIND_AT_TWO];
  }

  lemma FirstBatch(v: Working, cfg: Config, probe: RH.Probe)
    requires v == Empty(1) && cfg == Config(1, SAMPLE_COVERAGE, true, {})
    ensures Pass(v, cfg, 3, 2, 0, Response(RangeResponse, [X1, X2], probe, false)) == Next(FOUND_SEALED.work, 0, true)
  {
    TwoBlocks(v, cfg, X1, X2);
    SealedNothing(v, cfg);
    SealedFind(Working([], 1, [10], map[], None, 2), cfg);
    assert ValidRange(1, [X1, X2]);
    ServedOnce(v, cfg, 3, 2, RangeResponse, [X1, X2], probe, FOUND_SEALED.work);
  }

  lemma FirstScan(w: Wallet, input: RefreshInput, probe: RH.Probe)
    requires w == Opened(1, 1)
    requires input == RefreshInput(3, 2, probe, [Response(RangeResponse, [X1, X2], probe, false)])
    ensures Publishes(w, true, input) == [Progress(w, 3), FOUND_SEALED, FOUND_SEALED]
  {
    var cfg, d := WatchConfig(w, true), [X1, X2];
    assert cfg == Config(1, SAMPLE_COVERAGE, true, {});
    FirstBatch(w.work, cfg, probe);
    ResumeOnce(w, w.work, cfg, input, Response(RangeResponse, d, probe, false), FOUND_SEALED.work);
  }

  lemma SealedNothing(v: Working, cfg: Config)
    requires v == Empty(1) && cfg == Config(1, SAMPLE_COVERAGE, true, {})
    ensures ApplyBlock(v, cfg, X1) == Ok(Working([], 1, [10], map[], None, 2))
  {
    NoSpends(X1);
    NothingToAttribute([], 1);
  }

  lemma SecondScan(w: Wallet, input: RefreshInput, probe: RH.Probe)
    requires w == Expand(FOUND_SEALED, 100) && probe(2) == Some(20)
    requires input == RefreshInput(2, 1, probe, [Response(RangeResponse, [Y1], probe, false)])
    ensures Publishes(w, true, input) == [Progress(w, 2), MOVED_SEALED, MOVED_SEALED]
  {
    var cfg := WatchConfig(w, true);
    assert cfg == Config(1, WIDE_COVERAGE, true, {2});
    OneBlock(w.work, cfg, Y1);
    SealedMove(w.work, cfg);
    assert ValidRange(1, [Y1]);
    ServedOnce(w.work, cfg, 2, 1, RangeResponse, [Y1], probe, MOVED_SEALED.work);
    ResumeOnce(w, w.work, cfg, input, Response(RangeResponse, [Y1], probe, false), MOVED_SEALED.work);
  }

  /** A wallet is sealed; a view-only scan finds a payment in block 2 and sets the marker there; coverage grows; the
      chain changes right after the resume probe and the payment is now in block 1. The view-only replay moves
      the output to height 1 and leaves the marker at 2, so unsealing rewinds only to 2: the wallet is
      unsealed, has no marker left, and holds an output whose key image it does not know - no spend of it is
      ever seen, and no chain explains it. */
  lemma UnsealedYetBlind(s: Holding, first: RefreshInput, second: RefreshInput, probe: RH.Probe, ops: seq<HoldOp>)
    requires s == Holding(Opened(1, 1), false, []) && probe(2) == Some(20)
    requires first == RefreshInput(3, 2, probe, [Response(RangeResponse, [X1, X2], probe, false)])
    requires second == RefreshInput(2, 1, probe, [Response(RangeResponse, [Y1], probe, false)])
    requires ops == [Seal, Look(first, 2), Widen(100), Look(second, 2), Unseal]
    ensures World(MOVABLE_BLOCKS, MOVABLE_FACTS) && StartsSafe(s, MOVABLE_BLOCKS, MOVABLE_FACTS)
    ensures (forall op :: op in ops ==> op.Look? ==> op.input.batch > 0) && forall op :: op in ops[..2] ==> op.Look? ==> op.input.batch > 0
    ensures MarkerCleans(HoldRun(s, ops[..2]).live)
    ensures var r := HoldRun(s, ops);
      && !r.sealed && r.live.work.rescan == None && V.SomeBlind(r.live.work.outputs)
      && !Explained(r.live, MOVABLE_BLOCKS, MOVABLE_FACTS)
  {
    MovableWorld();
    EmptySafe(1, SAMPLE_COVERAGE, MOVABLE_BLOCKS, MOVABLE_FACTS);
    RunEnds(s, first, second, probe, ops);
    FoundIsCovered();
    MovedIsNotCovered();
    BlindIsUnexplained(ApplyPendingRescan(MOVED_SEALED));
  }

  lemma BlindIsUnexplained(p: Wallet)
    requires V.SomeBlind(p.work.outputs)
    ensures !Explained(p, MOVABLE_BLOCKS, MOVABLE_FACTS)
  {
    MovableWorld();
    var o :| o in p.work.outputs && o.image == NO_IMAGE;
    forall d: seq<Block> ensures !Explains(p, d, StartHeight(p), MOVABLE_BLOCKS, MOVABLE_FACTS) {
      UncleanIsUnexplained(p, o, d, StartHeight(p), MOVABLE_BLOCKS, MOVABLE_FACTS);
    }
  }

  lemma FoundIsCovered()
    ensures MarkerCleans(FOUND_SEALED)
  {}

  lemma MovedIsNotCovered()
    ensures ApplyPendingRescan(MOVED_SEALED).work.rescan == None && V.SomeBlind(ApplyPendingRescan(MOVED_SEALED).work.outputs)
  {
    assert BLIND_AT_ONE in MOVED_SEALED.work.outputs;
    V.UnsealLeavesBlindIff(MOVED_SEALED, Some(2));
  }

  ghost predicate Follows(ops: seq<HoldOp>, states: seq<Holding>)
    requires forall op :: op in ops ==> op.Look? ==> op.input.batch > 0
  {
    |states| == |ops| + 1 && forall i :: 0 <= i < |ops| ==> states[i+1] == HoldStep(states[i], ops[i])
  }

  lemma {:induction false} RunFollows(ops: seq<HoldOp>, states: seq<Holding>)
    requires forall op :: op in ops ==> op.Look? ==> op.input.batch > 0
    requires Follows(ops, states)
    ensures HoldRun(states[0], ops) == states[|ops|]
  {
    if ops != [] {
      RunFollows(ops[1..], states[1..]);
    }
  }

  lemma FollowsCons(s: Holding, ops: seq<HoldOp>, rest: seq<Holding>)
    requires forall op :: op in ops ==> op.Look? ==> op.input.batch > 0
    requires ops != [] && Follows(ops[1..], rest) && rest[0] == HoldStep(s, ops[0])
    ensures Follows(ops, [s] + rest)
  {
    var states := [s] + rest;
    forall i | 0 <= i < |ops| ensures states[i+1] == HoldStep(states[i], ops[i]) {
      if i > 0 {
        var k := i - 1;
        assert rest[k+1] == HoldStep(rest[k], ops[1..][k]);
      }
    }
  }

  /** The states a run goes through. */
  lemma {:induction false} Trace(s: Holding, ops: seq<HoldOp>) returns (states: seq<Holding>)
    requires forall op :: op in ops ==> op.Look? ==> op.input.batch > 0
    ensures Follows(ops, states) && states[0] == s
    decreases |ops|
  {
    states := [s];
    if ops != [] {
      var rest := Trace(HoldStep(s, ops[0]), ops[1..]);
      states := [s] + rest;
      FollowsCons(s, ops, rest);
    }
  }

  lemma SealedIs(s: Holding)
    ensures HoldStep(s, Seal) == Holding(s.live, true, s.caches)
  {}

  lemma WidenedIs(s: Holding)
    ensures HoldStep(s, Widen(100)) == Holding(Expand(s.live, 100), s.sealed, s.caches)
  {}

  lemma UnsealedIs(s: Holding)
    ensures HoldStep(s, Unseal) == Holding(ApplyPendingRescan(s.live), false, s.caches)
  {}

  lemma FoundThenMoved(a: Holding, b: Holding, c: Holding, d: Holding, first: RefreshInput, second: RefreshInput, probe: RH.Probe)
    requires a == Holding(Opened(1, 1), true, []) && probe(2) == Some(20)
    requires first == RefreshInput(3, 2, probe, [Response(RangeResponse, [X1, X2], probe, false)])
    requires second == RefreshInput(2, 1, probe, [Response(RangeResponse, [Y1], probe, false)])
    requires b == HoldStep(a, Look(first, 2)) && c == HoldStep(b, Widen(100)) && d == HoldStep(c, Look(second, 2))
    ensures b.live == FOUND_SEALED && d.live == MOVED_SEALED
  {
    FirstLook(a, first, probe);
    WidenedIs(b);
    SecondLook(c, second, probe);
  }

  lemma BatchesOk(first: RefreshInput, second: RefreshInput, ops: seq<HoldOp>)
    requires first.batch > 0 && second.batch > 0 && ops == [Seal, Look(first, 2), Widen(100), Look(second, 2), Unseal]
    ensures forall op :: op in ops ==> op.Look? ==> op.input.batch > 0
    ensures forall op :: op in ops[..2] ==> op.Look? ==> op.input.batch > 0
  {}

  lemma StatesAre(ops: seq<HoldOp>, states: seq<Holding>, first: RefreshInput, second: RefreshInput, probe: RH.Probe)
    requires forall op :: op in ops ==> op.Look? ==> op.input.batch > 0
    requires Follows(ops, states) && states[0] == Holding(Opened(1, 1), false, []) && probe(2) == Some(20)
    requires first == RefreshInput(3, 2, probe, [Response(RangeResponse, [X1, X2], probe, false)])
    requires second == RefreshInput(2, 1, probe, [Response(RangeResponse, [Y1], probe, false)])
    requires ops == [Seal, Look(first, 2), Widen(100), Look(second, 2), Unseal]
    ensures |states| == 6 && states[2].live == FOUND_SEALED
    ensures states[5].live == ApplyPendingRescan(MOVED_SEALED) && !states[5].sealed
  {
    SealedIs(states[0]);
    assert states[1] == HoldStep(states[0], ops[0]) && states[2] == HoldStep(states[1], ops[1]) && states[3] == HoldStep(states[2], ops[2]);
    assert states[4] == HoldStep(states[3], ops[3]) && states[5] == HoldStep(states[4], ops[4]);
    FoundThenMoved(states[1], states[2], states[3], states[4], first, second, probe);
    UnsealedIs(states[4]);
  }

  lemma RunEnds(s: Holding, first: RefreshInput, second: RefreshInput, probe: RH.Probe, ops: seq<HoldOp>)
    requires s == Holding(Opened(1, 1), false, []) && probe(2) == Some(20)
    requires first == RefreshInput(3, 2, probe, [Response(RangeResponse, [X1, X2], probe, false)])
    requires second == RefreshInput(2, 1, probe, [Response(RangeResponse, [Y1], probe, false)])
    requires ops == [Seal, Look(first, 2), Widen(100), Look(second, 2), Unseal]
    ensures forall op :: op in ops ==> op.Look? ==> op.input.batch > 0
    ensures forall op :: op in ops[..2] ==> op.Look? ==> op.input.batch > 0
    ensures HoldRun(s, ops[..2]).live == FOUND_SEALED
    ensures HoldRun(s, ops).live == ApplyPendingRescan(MOVED_SEALED) && !HoldRun(s, ops).sealed
  {
    BatchesOk(first, second, ops);
    var states := Trace(s, ops);
    StatesAre(ops, states, first, second, probe);
    RunFollows(ops, states);
    RunFollows(ops[..2], states[..3]);
  }

  lemma FirstLook(s: Holding, first: RefreshInput, probe: RH.Probe)
    requires s == Holding(Opened(1, 1), true, [])
    requires first == RefreshInput(3, 2, probe, [Response(RangeResponse, [X1, X2], probe, false)])
    ensures HoldStep(s, Look(first, 2)).live == FOUND_SEALED && HoldStep(s, Look(first, 2)).sealed
  {
    FirstScan(s.live, first, probe);
  }

  lemma SecondLook(s: Holding, second: RefreshInput, probe: RH.Probe)
    requires s.live == Expand(FOUND_SEALED, 100) && s.sealed && probe(2) == Some(20)
    requires second == RefreshInput(2, 1, probe, [Response(RangeResponse, [Y1], probe, false)])
    ensures HoldStep(s, Look(second, 2)).live == MOVED_SEALED
  {
    SecondScan(s.live, second, probe);
  }

  // ---------------------------------------------------------------------------------------------
  // A marker that has fallen out of the window
  // ---------------------------------------------------------------------------------------------

  /** Some chain of served blocks is kept by every batch the next daemon can get accepted. */
  ghost predicate KeepsSomeChain(p: Wallet, blocks: iset<Block>, facts: map<Outpoint, Owned>) {
    exists c :: Among(c, blocks) && L.NextBatchSafe(p.work.(cursor := StartHeight(p)), RefreshConfig(p), c, facts)
  }

  /** Unsealing then empties the window, and some daemon that has the chain gets a batch accepted that leaves
      no chain behind. */
  lemma UnsealOutOfWindow(a: Wallet, blocks: iset<Block>, facts: map<Outpoint, Owned>)
    requires World(blocks, facts) && !MarkerInWindow(a)
    ensures !KeepsSomeChain(ApplyPendingRescan(a), blocks, facts)
  {
    var p := ApplyPendingRescan(a);
    assert p.work.hashes == [] && p.work.cursor > p.restore;
    forall c: seq<Block> | Among(c, blocks)
      ensures !L.NextBatchSafe(p.work.(cursor := StartHeight(p)), RefreshConfig(p), c, facts)
    {
      L.NoParentIsUnsafe(p.work, RefreshConfig(p), c, blocks, facts);
    }
  }

  lemma SafeKeepsChain(p: Wallet, blocks: iset<Block>, facts: map<Outpoint, Owned>)
    requires Safe(p, blocks, facts)
    ensures KeepsSomeChain(p, blocks, facts)
  {
    var c, h :| Inv(p, c, h, blocks, facts);
    L.InvIsNextSafe(p, c, h, blocks, facts);
  }

  /** After any run, an unseal that leaves a clean wallet leaves one that takes only batches of one chain exactly when
      the marker has not fallen out of the window. */
  lemma UnsealKeepsChainIff(s: Holding, ops: seq<HoldOp>, blocks: iset<Block>, facts: map<Outpoint, Owned>)
    requires World(blocks, facts) && StartsSafe(s, blocks, facts)
    requires forall op :: op in ops ==> op.Look? ==> op.input.batch > 0
    requires HoldRunOk(s, ops, blocks) && MarkerCleans(HoldRun(s, ops).live)
    ensures KeepsSomeChain(ApplyPendingRescan(HoldRun(s, ops).live), blocks, facts) <==> MarkerInWindow(HoldRun(s, ops).live)
  {
    var a := HoldRun(s, ops).live;
    if MarkerInWindow(a) {
      StartPartner(s, blocks, facts);
      var b, bs := RunPartner(s, s.live, s.caches, ops, blocks, facts);
      RescannedSafe(a, b, blocks, facts);
      SafeKeepsChain(ApplyPendingRescan(a), blocks, facts);
    } else {
      UnsealOutOfWindow(a, blocks, facts);
    }
  }

  lemma RescannedSafe(a: Wallet, b: Wallet, blocks: iset<Block>, facts: map<Outpoint, Owned>)
    requires World(blocks, facts) && WalletsInStep(a, b) && Safe(b, blocks, facts) && MarkerInWindow(a) && MarkerCleans(a)
    ensures Safe(ApplyPendingRescan(a), blocks, facts)
  {
    var p := ApplyPendingRescan(a);
    var q := UnsealedPartner(a, b, blocks, facts);
    if a.work.rescan.Some? {
      RescannedIs(a, a.work.rescan.value);
      CleanRewoundIff(a.work.outputs, UnsealHeight(a, a.work.rescan.value));
    }
    CleanCores(p.work.outputs, q.work.outputs);
    SafeCores(p, q, blocks, facts);
  }

  // ---------------------------------------------------------------------------------------------
  // It happens to every wallet left sealed long enough
  // ---------------------------------------------------------------------------------------------

  /** The first height at which the chain pays a watched address. */
  function FirstFind(c: seq<Block>, base: nat, coverage: Coverage): (m: Option<nat>)
    ensures m.Some? ==> base <= m.value < base + |c|
  {
    if c == [] then None
    else
      var before := FirstFind(c[..|c|-1], base, coverage);
      if before == None && ScanOwned(c[|c|-1].owned, coverage) != [] then Some(base + (|c| - 1)) else before
  }

  lemma {:induction false} ReceivesSomething(r: Receipt, owned: seq<Owned>, h: nat)
    requires owned != [] && Receive(r, owned, h, true).Ok?
    ensures |Receive(r, owned, h, true).value.outputs| > 0
  {
    var init := owned[..|owned|-1];
    if init != [] {
      ReceivesSomething(r, init, h);
      V.MarkerMoves(r, owned, h);
      V.MarkerMoves(r, init, h);
    }
  }

  lemma NothingYet(rescan: Option<nat>, cfg: Config, h: nat, b: Block)
    requires cfg.sealed
    ensures Reconciled([], cfg, h, b) == [] && ApplySightings([], Sightings(b), h) == []
    ensures ScanOwned(b.owned, cfg.coverage) == [] ==> ApplyOutputs([], rescan, cfg, h, b) == Ok(Receipt([], rescan))
    ensures ScanOwned(b.owned, cfg.coverage) != [] && ApplyOutputs([], rescan, cfg, h, b).Ok?
      ==> |ApplyOutputs([], rescan, cfg, h, b).value.outputs| > 0
  {
    assert Reconciled([], cfg, h, b) == [];
    assert ApplySightings([], Sightings(b), h) == [];
    var owned := ScanOwned(b.owned, cfg.coverage);
    if owned != [] && Receive(Receipt([], rescan), owned, h, true).Ok? {
      ReceivesSomething(Receipt([], rescan), owned, h);
    }
  }

  lemma FirstFindSnoc(c: seq<Block>, b: Block, base: nat, h: nat, coverage: Coverage)
    requires h == base + |c|
    ensures FirstFind(c + [b], base, coverage)
      == if FirstFind(c, base, coverage) == None && ScanOwned(b.owned, coverage) != [] then Some(h) else FirstFind(c, base, coverage)
  {
    assert (c + [b])[..|c|] == c;
  }

  /** The marker is at `m`; without one nothing was found. */
  predicate MarkedAt(w: Working, m: Option<nat>) {
    w.rescan == m && (m == None ==> w.outputs == []) && (m.Some? ==> m.value <= w.cursor)
  }

  /** One more block under seal: the marker stays at the first find. */
  lemma MarkerNext(w: Working, cfg: Config, c: seq<Block>, base: nat, b: Block, m: Option<nat>, facts: map<Outpoint, Owned>)
    requires cfg.sealed && w.cursor == base + |c| && R.OnChain(w.outputs, c, base)
    requires Consensus(c + [b]) && GoodBlock(b, facts) && ApplyBlock(w, cfg, b).Ok? && MarkedAt(w, m)
    ensures MarkedAt(ApplyBlock(w, cfg, b).value, if m == None && ScanOwned(b.owned, cfg.coverage) != [] then Some(w.cursor) else m)
  {
    V.MarkerStep(w, cfg, c, base, b, facts);
    NothingYet(w.rescan, cfg, w.cursor, b);
  }

  lemma {:induction false} SealedScan(cfg: Config, d: seq<Block>, facts: map<Outpoint, Owned>)
    requires R.GoodChain(d, facts)
    ensures var r := ApplyBlocks(Empty(cfg.restore), cfg, d);
      r.Ok? && r.value.cursor == cfg.restore + |d| && R.OnChain(r.value.outputs, d, cfg.restore)
  {
    var none: seq<Block> := [];
    assert none + d == d;
    assert R.StampsBelow(Empty(cfg.restore));
    R.ScanOn(Empty(cfg.restore), cfg, none, cfg.restore, d, facts);
  }

  lemma {:induction false} MarkerIsFirstFind(cfg: Config, d: seq<Block>, facts: map<Outpoint, Owned>)
    requires cfg.sealed && R.GoodChain(d, facts)
    ensures ApplyBlocks(Empty(cfg.restore), cfg, d).Ok?
    ensures MarkedAt(ApplyBlocks(Empty(cfg.restore), cfg, d).value, FirstFind(d, cfg.restore, cfg.coverage))
  {
    if d == [] {
      assert ApplyBlocks(Empty(cfg.restore), cfg, []) == Ok(Empty(cfg.restore));
    } else {
      var init, b := d[..|d|-1], d[|d|-1];
      assert d == init + [b];
      R.GoodChainPrefix(d, |init|, facts);
      MarkerIsFirstFind(cfg, init, facts);
      MarkerGoesOn(cfg, init, b, facts);
    }
  }

  lemma {:induction false} MarkerGoesOn(cfg: Config, init: seq<Block>, b: Block, facts: map<Outpoint, Owned>)
    requires cfg.sealed && R.GoodChain(init, facts) && R.GoodChain(init + [b], facts)
    requires ApplyBlocks(Empty(cfg.restore), cfg, init).Ok?
    requires MarkedAt(ApplyBlocks(Empty(cfg.restore), cfg, init).value, FirstFind(init, cfg.restore, cfg.coverage))
    ensures ApplyBlocks(Empty(cfg.restore), cfg, init + [b]).Ok?
    ensures MarkedAt(ApplyBlocks(Empty(cfg.restore), cfg, init + [b]).value, FirstFind(init + [b], cfg.restore, cfg.coverage))
  {
    SealedScan(cfg, init, facts);
    SealedScan(cfg, init + [b], facts);
    var w := ApplyBlocks(Empty(cfg.restore), cfg, init).value;
    assert b in init + [b];
    assert (init + [b])[..|init|] == init;
    assert ApplyBlocks(Empty(cfg.restore), cfg, init + [b]) == ApplyBlock(w, cfg, b);
    FirstFindSnoc(init, b, cfg.restore, w.cursor, cfg.coverage);
    MarkerNext(w, cfg, init, cfg.restore, b, FirstFind(init, cfg.restore, cfg.coverage), facts);
  }

  /** One view-only look at a chain that pays the wallet for the first time at height `m`, and goes on for more
      than the 4096 blocks of the window: the marker has fallen out of it - unless it is at the restore height. */
  lemma LongLookLosesMarker(s: Holding, input: RefreshInput, d: seq<Block>, m: nat, probe: RH.Probe, blocks: iset<Block>,
                            facts: map<Outpoint, Owned>)
    requires World(blocks, facts) && d != [] && Linked(d, s.live.restore) && Among(d, blocks)
    requires s.sealed && s.live == Opened(s.live.restore, s.live.coverage.accounts) && (s.live.restore == 0 ==> d[0].previous == 0)
    requires input == RefreshInput(s.live.restore + |d|, |d|, probe, [Response(RangeResponse, d, probe, false)])
    requires FirstFind(d, s.live.restore, s.live.coverage) == Some(m)
    ensures var a := HoldStep(s, Look(input, 2)).live;
      && a.work.rescan == Some(m)
      && (!MarkerInWindow(a) <==> s.live.restore < m && m + 4096 <= s.live.restore + |d|)
      && (s.live.restore < m && m + 4096 <= s.live.restore + |d| ==> !KeepsSomeChain(ApplyPendingRescan(a), blocks, facts))
  {
    var w, cfg := s.live, WatchConfig(s.live, true);
    WorldChain(d, w.restore, blocks, facts);
    SealedScan(cfg, d, facts);
    MarkerIsFirstFind(cfg, d, facts);
    var u := ApplyBlocks(w.work, cfg, d).value;
    RW.ScanPushesAll(w.work, cfg, d);
    RW.PushAllKeepsLast(w.restore, d);
    LookedOnce(s, input, d, u, probe);
    if !MarkerInWindow(w.(work := u)) {
      UnsealOutOfWindow(w.(work := u), blocks, facts);
    }
  }

  lemma {:induction false} LookedOnce(s: Holding, input: RefreshInput, d: seq<Block>, u: Working, probe: RH.Probe)
    requires d != [] && Linked(d, s.live.restore) && s.sealed && s.live == Opened(s.live.restore, s.live.coverage.accounts)
    requires s.live.restore == 0 ==> d[0].previous == 0
    requires input == RefreshInput(s.live.restore + |d|, |d|, probe, [Response(RangeResponse, d, probe, false)])
    requires ApplyBlocks(s.live.work, WatchConfig(s.live, true), d) == Ok(u) && u.cursor == s.live.restore + |d|
    ensures HoldStep(s, Look(input, 2)).live == s.live.(work := u)
  {
    var w, cfg := s.live, WatchConfig(s.live, true);
    assert ValidRange(w.restore, d);
    ServedOnce(w.work, cfg, input.daemonHeight, |d|, RangeResponse, d, probe, u);
    ResumeOnce(w, w.work, cfg, input, Response(RangeResponse, d, probe, false), u);
  }
}
