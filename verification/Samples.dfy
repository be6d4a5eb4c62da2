/** Two short chains of blocks that spend nothing, one of them paying the wallet in each block: enough to
    exhibit every run in which the one-chain guarantee is lost. */
module Samples {
  import opened Chain
  import opened Scan
  import opened Cores
  import opened Engine
  import opened OnePass
  import P = Replay
  import R = Rewinding
  import RH = RecentHashes

  const SAMPLE_COVERAGE := Coverage(1, 50)

  const FIRST_PAYMENT := Owned(Outpoint(111, 0), 501, 601, 7, NoLock, 0, 1, true)
  const SECOND_PAYMENT := Owned(Outpoint(121, 0), 502, 602, 9, NoLock, 0, 1, true)

  const A1 := Block(1, 10, 9, 0, 110, [], [], [], [])
  const A2 := Block(2, 20, 10, 0, 120, [], [], [], [])
  const B1 := Block(1, 11, 9, 0, 111, [], [], [], [FIRST_PAYMENT])
  const B2 := Block(2, 21, 11, 0, 121, [], [], [], [SECOND_PAYMENT])

  ghost const SAMPLE_BLOCKS: iset<Block> := iset b | b in [A1, A2, B1, B2]
  const SAMPLE_FACTS: map<Outpoint, Owned> :=
    map[FIRST_PAYMENT.outpoint := FIRST_PAYMENT, SECOND_PAYMENT.outpoint := SECOND_PAYMENT]

  // ---------------------------------------------------------------------------------------------
  // Worlds without spends
  // ---------------------------------------------------------------------------------------------

  predicate Spendless(b: Block) {
    b.minerInputs == [] && forall d :: d in b.decoded ==> d.inputs == []
  }

  lemma {:induction false} NothingSighted(txids: seq<Txid>, decoded: seq<DecodedTx>)
    requires forall d :: d in decoded ==> d.inputs == []
    ensures PairedSightings(txids, decoded) == []
  {
    if decoded != [] {
      NothingSighted(if txids == [] then [] else txids[1..], decoded[1..]);
    }
  }

  lemma NoSpends(b: Block)
    requires Spendless(b)
    ensures Sightings(b) == [] && forall x :: !Spends(b, x)
  {
    NothingSighted(b.txids, NonMiner(b));
    assert Sightings(b) == [];
  }

  /** An output is created at one height only. */
  ghost predicate CreatedOnce(blocks: iset<Block>) {
    forall a, b, o, p :: a in blocks && b in blocks && o in a.owned && p in b.owned && o.outpoint == p.outpoint ==> a.height == b.height
  }

  lemma SpendlessConsensus(c: seq<Block>, base: nat, blocks: iset<Block>)
    requires Linked(c, base) && Among(c, blocks) && CreatedOnce(blocks)
    requires forall b :: b in blocks ==> Spendless(b)
    ensures Consensus(c)
  {
    forall i, x | 0 <= i < |c| ensures !Spends(c[i], x) {
      assert c[i] in blocks;
      NoSpends(c[i]);
    }
    forall i, j, o, p | 0 <= i < j < |c| && o in c[i].owned && p in c[j].owned ensures o.outpoint != p.outpoint {
      assert c[i] in blocks && c[j] in blocks && c[i].height != c[j].height;
    }
  }

  lemma SpendlessWorld(blocks: iset<Block>, facts: map<Outpoint, Owned>)
    requires GoodFacts(facts) && CreatedOnce(blocks)
    requires forall b :: b in blocks ==> GoodBlock(b, facts) && Spendless(b)
    ensures World(blocks, facts)
  {
    forall c: seq<Block>, base: nat | Linked(c, base) && Among(c, blocks) ensures Consensus(c) {
      SpendlessConsensus(c, base, blocks);
    }
  }

  lemma SampleBlocksAre(b: Block)
    requires b in SAMPLE_BLOCKS
    ensures b == A1 || b == A2 || b == B1 || b == B2
  {}

  lemma SampleFactsAre(p: Outpoint)
    requires p in SAMPLE_FACTS
    ensures (p == FIRST_PAYMENT.outpoint && SAMPLE_FACTS[p] == FIRST_PAYMENT) || (p == SECOND_PAYMENT.outpoint && SAMPLE_FACTS[p] == SECOND_PAYMENT)
  {}

  lemma SampleFactsGood()
    ensures GoodFacts(SAMPLE_FACTS)
  {
    forall p | p in SAMPLE_FACTS ensures SAMPLE_FACTS[p].outpoint == p && SAMPLE_FACTS[p].image != NO_IMAGE {
      SampleFactsAre(p);
    }
    forall p, q | p in SAMPLE_FACTS && q in SAMPLE_FACTS
      ensures SAMPLE_FACTS[p].key == SAMPLE_FACTS[q].key ==> p == q
      ensures SAMPLE_FACTS[p].image == SAMPLE_FACTS[q].image ==> p == q
    {
      SampleFactsAre(p);
      SampleFactsAre(q);
    }
  }

  lemma SampleBlockGood(b: Block)
    requires b in SAMPLE_BLOCKS
    ensures GoodBlock(b, SAMPLE_FACTS) && Spendless(b)
  {
    SampleBlocksAre(b);
    assert TxidsOf(b) == {b.minerTxid};
    forall p | p in SAMPLE_FACTS && p.txid in TxidsOf(b) ensures SAMPLE_FACTS[p] in b.owned {
      SampleFactsAre(p);
    }
  }

  lemma SampleWorld()
    ensures World(SAMPLE_BLOCKS, SAMPLE_FACTS)
  {
    SampleFactsGood();
    forall b | b in SAMPLE_BLOCKS ensures GoodBlock(b, SAMPLE_FACTS) && Spendless(b) {
      SampleBlockGood(b);
    }
    SampleOnce();
    SpendlessWorld(SAMPLE_BLOCKS, SAMPLE_FACTS);
  }

  lemma SampleOnce()
    ensures CreatedOnce(SAMPLE_BLOCKS)
  {
    forall a, b, o, p | a in SAMPLE_BLOCKS && b in SAMPLE_BLOCKS && o in a.owned && p in b.owned && o.outpoint == p.outpoint
      ensures a.height == b.height
    {
      SampleBlocksAre(a);
      SampleBlocksAre(b);
    }
  }

  /** A part of a world is a world. */
  lemma SmallerWorld(small: iset<Block>, blocks: iset<Block>, facts: map<Outpoint, Owned>)
    requires World(blocks, facts) && small <= blocks
    ensures World(small, facts)
  {
    forall c: seq<Block>, base: nat | Linked(c, base) && Among(c, small) ensures Consensus(c) {
      assert Among(c, blocks);
    }
  }

  // ---------------------------------------------------------------------------------------------
  // Scanning sample blocks
  // ---------------------------------------------------------------------------------------------

  lemma NothingToAttribute(outputs: Outputs, h: nat)
    requires forall o :: o in outputs ==> !o.spent
    ensures Attribute(outputs, h) == outputs
  {
    R.AttributeMarks(outputs, h);
  }

  lemma ReceiveFirst(o: Owned, h: nat, coverage: Coverage, rescan: Option<nat>)
    ensures ScanOwned([o], coverage) == if Covers(coverage, o) then [o] else []
    ensures Receive(Receipt([], rescan), [o], h, false) == Ok(Receipt([Tracked(o, h, false)], rescan))
  {
    assert [o][..0] == [];
    assert Receive(Receipt([], rescan), [], h, false) == Ok(Receipt([], rescan));
    assert [] + [Tracked(o, h, false)] == [Tracked(o, h, false)];
    assert ReceiveOne(Receipt([], rescan), o, h, false) == Ok(Receipt([Tracked(o, h, false)], rescan));
    assert Receive(Receipt([], rescan), [o], h, false)
        == match Receive(Receipt([], rescan), [o][..0], h, false) case Err => Err case Ok(s) => ReceiveOne(s, o, h, false);
    assert [o][1..] == [];
    assert ScanOwned([], coverage) == [];
  }

  /** A wallet without outputs meets a block that spends nothing and pays at most once. */
  lemma FirstFind(v: Working, cfg: Config, b: Block, o: Owned)
    requires v.outputs == [] && !cfg.sealed && Spendless(b) && b.timestamp == 0 && b.owned == [o]
    ensures var w := PushHash(cfg.restore, Window(v.start, v.hashes), v.cursor, b.hash);
      ApplyBlock(v, cfg, b) == Ok(Working(if Covers(cfg.coverage, o) then [Tracked(o, v.cursor, false)] else [],
                                          w.start, w.hashes, v.stamps, v.rescan, v.cursor + 1))
  {
    NoSpends(b);
    ReceiveFirst(o, v.cursor, cfg.coverage, v.rescan);
    NothingToAttribute([Tracked(o, v.cursor, false)], v.cursor);
    NothingToAttribute([], v.cursor);
    assert ApplySightings(Reconciled(v.outputs, cfg, v.cursor, b), Sightings(b), v.cursor) == [];
    assert Receive(Receipt([], v.rescan), [], v.cursor, false) == Ok(Receipt([], v.rescan));
  }

  lemma FindNothing(v: Working, cfg: Config, b: Block)
    requires v.outputs == [] && !cfg.sealed && Spendless(b) && b.timestamp == 0 && b.owned == []
    ensures var w := PushHash(cfg.restore, Window(v.start, v.hashes), v.cursor, b.hash);
      ApplyBlock(v, cfg, b) == Ok(Working([], w.start, w.hashes, v.stamps, v.rescan, v.cursor + 1))
  {
    NoSpends(b);
    NothingToAttribute([], v.cursor);
  }

  lemma OneBlock(v: Working, cfg: Config, b: Block)
    ensures ApplyBlocks(v, cfg, [b]) == ApplyBlock(v, cfg, b)
  {
    assert [b][..0] == [];
    assert ApplyBlocks(v, cfg, []) == Ok(v);
  }

  lemma TwoBlocks(v: Working, cfg: Config, a: Block, b: Block)
    ensures ApplyBlocks(v, cfg, [a, b]) == ThenBlock(ApplyBlock(v, cfg, a), cfg, b)
  {
    OneBlock(v, cfg, a);
    assert [a, b][..1] == [a];
  }

  // ---------------------------------------------------------------------------------------------
  // Runs of one response
  // ---------------------------------------------------------------------------------------------

  lemma LoopOnce(w: Wallet, v: Working, cfg: Config, daemonHeight: nat, batch: nat, ev: Event, u: Working)
    requires batch > 0 && v.cursor < daemonHeight <= u.cursor && Pass(v, cfg, daemonHeight, batch, 0, ev) == Next(u, 0, true)
    ensures Loop(w, v, cfg, daemonHeight, batch, 0, [ev]) == [Commit(w, u, daemonHeight), Commit(w, u, daemonHeight)]
  {
    assert Loop(w, u, cfg, daemonHeight, batch, 0, [ev][1..]) == [Commit(w, u, daemonHeight)];
  }

  /** The resume probe finds no fork and one response brings the cursor to the daemon's height. */
  lemma ResumeOnce(w: Wallet, v: Working, cfg: Config, input: RefreshInput, ev: Event, u: Working)
    requires input.batch > 0 && input.events == [ev] && v.cursor < input.daemonHeight <= u.cursor
    requires RH.FindReorg(cfg.restore, Window(v.start, v.hashes), input.resumeProbe) == Ok(None)
    requires Pass(v, cfg, input.daemonHeight, input.batch, 0, ev) == Next(u, 0, true)
    ensures var p := Commit(w, u, input.daemonHeight); Resume(w, v, cfg, input) == [p, p]
  {
    LoopOnce(w, v, cfg, input.daemonHeight, input.batch, ev, u);
    ResumeCases(w, v, cfg, input);
  }

  lemma RefreshOnce(w: Wallet, input: RefreshInput, ev: Event, u: Working)
    requires input.batch > 0 && input.events == [ev] && StartHeight(w) < input.daemonHeight <= u.cursor
    requires RH.FindReorg(w.restore, Window(w.work.start, w.work.hashes), input.resumeProbe) == Ok(None)
    requires Pass(w.work.(cursor := StartHeight(w)), RefreshConfig(w), input.daemonHeight, input.batch, 0, ev) == Next(u, 0, true)
    ensures var p := Commit(w, u, input.daemonHeight); Refresh(w, input) == [Progress(w, input.daemonHeight), p, p]
  {
    ResumeOnce(w, w.work.(cursor := StartHeight(w)), RefreshConfig(w), input, ev, u);
  }

  lemma ServedOnce(v: Working, cfg: Config, daemonHeight: nat, batch: nat, path: Path, d: seq<Block>, probe: RH.Probe, u: Working)
    requires v.cursor < daemonHeight && batch > 0
    requires ValidResponse(path, v.cursor, Requested(v.cursor, daemonHeight, batch), d)
    requires ExpectedParent(v) == None && ApplyBlocks(v, cfg, d) == Ok(u)
    ensures Pass(v, cfg, daemonHeight, batch, 0, Response(path, d, probe, false)) == Next(u, 0, true)
  {}

  // ---------------------------------------------------------------------------------------------
  // What the samples say about a wallet
  // ---------------------------------------------------------------------------------------------

  const SECOND_FOUND := Tracked(SECOND_PAYMENT, 2, false)

  /** A chain of the samples over heights 1 and 2. */
  lemma SampleChains(d: seq<Block>)
    requires |d| == 2 && Linked(d, 1) && Among(d, SAMPLE_BLOCKS)
    ensures d == [A1, A2] || d == [B1, B2]
  {
    assert d[0] in d && d[1] in d;
    SampleBlocksAre(d[0]);
    SampleBlocksAre(d[1]);
  }

  /** The second payment without the first is on neither chain. */
  lemma HalfIsUnexplained(p: Wallet, d: seq<Block>)
    requires p.restore == 1 && p.coverage == SAMPLE_COVERAGE && p.work.outputs == [SECOND_FOUND] && StartHeight(p) == 3
    ensures !Explains(p, d, 3, SAMPLE_BLOCKS, SAMPLE_FACTS)
  {
    if Explains(p, d, 3, SAMPLE_BLOCKS, SAMPLE_FACTS) {
      SampleChains(d);
      BothTold(p, d);
      HalfIsToldByNone(p.work.outputs, d);
    }
  }

  lemma BothTold(p: Wallet, d: seq<Block>)
    requires Explains(p, d, 3, SAMPLE_BLOCKS, SAMPLE_FACTS)
    ensures Tells(d, p.restore, p.coverage, FIRST_PAYMENT, Bind(CoreAt(p.work.outputs, FIRST_PAYMENT.outpoint), Rewinder(3)))
    ensures Tells(d, p.restore, p.coverage, SECOND_PAYMENT, Bind(CoreAt(p.work.outputs, SECOND_PAYMENT.outpoint), Rewinder(3)))
  {
    SampleWorld();
    ExplainedIsTold(p, d, 3, FIRST_PAYMENT.outpoint, SAMPLE_BLOCKS, SAMPLE_FACTS);
    ExplainedIsTold(p, d, 3, SECOND_PAYMENT.outpoint, SAMPLE_BLOCKS, SAMPLE_FACTS);
  }

  lemma HalfIsToldByNone(outputs: Outputs, d: seq<Block>)
    requires outputs == [SECOND_FOUND] && (d == [A1, A2] || d == [B1, B2])
    ensures !Tells(d, 1, SAMPLE_COVERAGE, FIRST_PAYMENT, Bind(CoreAt(outputs, FIRST_PAYMENT.outpoint), Rewinder(3)))
         || !Tells(d, 1, SAMPLE_COVERAGE, SECOND_PAYMENT, Bind(CoreAt(outputs, SECOND_PAYMENT.outpoint), Rewinder(3)))
  {
    assert CoreAt(outputs, FIRST_PAYMENT.outpoint) == None;
    assert Bind(CoreAt(outputs, SECOND_PAYMENT.outpoint), Rewinder(3)) == Some(SECOND_FOUND);
    if d == [B1, B2] {
      assert CreatedAt(d, 1, FIRST_PAYMENT, 1);
    }
  }

  // ---------------------------------------------------------------------------------------------
  // One paying block
  // ---------------------------------------------------------------------------------------------

  ghost const ONE_PAYMENT: iset<Block> := iset{B1}

  lemma OnePaymentWorld()
    ensures World(ONE_PAYMENT, SAMPLE_FACTS)
  {
    SampleWorld();
    assert ONE_PAYMENT <= SAMPLE_BLOCKS by {
      forall b | b in ONE_PAYMENT ensures b in SAMPLE_BLOCKS {
        assert b == B1;
      }
    }
    SmallerWorld(ONE_PAYMENT, SAMPLE_BLOCKS, SAMPLE_FACTS);
  }

  lemma PaymentIsSomething(e: seq<Block>)
    requires |e| == 1 && Among(e, ONE_PAYMENT)
    ensures !AllHoldNothing(e, SAMPLE_COVERAGE)
  {
    assert e[0] in e;
    assert FIRST_PAYMENT in B1.owned && Covers(SAMPLE_COVERAGE, FIRST_PAYMENT);
  }

  lemma SampleGoodBlocks(e: seq<Block>)
    requires Among(e, ONE_PAYMENT)
    ensures forall b :: b in e ==> GoodBlock(b, SAMPLE_FACTS)
  {
    forall b | b in e ensures GoodBlock(b, SAMPLE_FACTS) {
      SampleBlockGood(b);
    }
  }

  const FIRST_FOUND := Tracked(FIRST_PAYMENT, 1, false)

  /** A wallet past the paying block and without its output. */
  lemma MissedIsUnexplained(p: Wallet, d: seq<Block>)
    requires p.restore == 1 && p.coverage == SAMPLE_COVERAGE && p.work.outputs == [] && StartHeight(p) == 2
    ensures !Explains(p, d, 2, ONE_PAYMENT, SAMPLE_FACTS)
  {
    if Explains(p, d, 2, ONE_PAYMENT, SAMPLE_FACTS) {
      assert d[0] in d && d[0] in ONE_PAYMENT;
      assert d == [B1];
      OnePaymentWorld();
      MissedIsToldByNone(d);
      ExplainedIsTold(p, d, 2, FIRST_PAYMENT.outpoint, ONE_PAYMENT, SAMPLE_FACTS);
    }
  }

  lemma MissedIsToldByNone(d: seq<Block>)
    requires d == [B1]
    ensures FIRST_PAYMENT.outpoint in SAMPLE_FACTS && SAMPLE_FACTS[FIRST_PAYMENT.outpoint] == FIRST_PAYMENT
    ensures !Tells(d, 1, SAMPLE_COVERAGE, FIRST_PAYMENT, None)
  {
    assert CreatedAt(d, 1, FIRST_PAYMENT, 1);
  }

  lemma FirstIsTold(p: Outpoint)
    requires p in SAMPLE_FACTS
    ensures Tells([B1], 1, SAMPLE_COVERAGE, SAMPLE_FACTS[p], Bind(CoreAt([FIRST_FOUND], p), Rewinder(2)))
  {
    SampleFactsAre(p);
    NoSpends(B1);
    if p == FIRST_PAYMENT.outpoint {
      assert CreatedAt([B1], 1, FIRST_PAYMENT, 1);
    }
  }

  /** A wallet that scanned the paying block. */
  lemma FoundIsExplained(w: Wallet)
    requires w.restore == 1 && w.coverage == SAMPLE_COVERAGE && w.work.outputs == [FIRST_FOUND] && StartHeight(w) == 2
    ensures Explains(w, [B1], 2, ONE_PAYMENT, SAMPLE_FACTS)
  {
    OnePaymentWorld();
    FirstIsKnown();
    forall p | p in SAMPLE_FACTS
      ensures Tells([B1], 1, SAMPLE_COVERAGE, SAMPLE_FACTS[p], Bind(CoreAt([FIRST_FOUND], p), Rewinder(2)))
    {
      FirstIsTold(p);
    }
    ToldExplains(w, [B1], 2, ONE_PAYMENT, SAMPLE_FACTS);
  }

  lemma FoundIsSafe(w: Wallet)
    requires w == Wallet(1, SAMPLE_COVERAGE, Working([FIRST_FOUND], 1, [11], map[], None, 2))
    ensures Safe(w, ONE_PAYMENT, SAMPLE_FACTS)
  {
    FoundIsExplained(w);
    ExplainedIsSafe(w, [B1], 2, ONE_PAYMENT, SAMPLE_FACTS);
  }

  lemma FirstIsKnown()
    ensures Well([FIRST_FOUND], SAMPLE_FACTS, SAMPLE_COVERAGE) && P.AllGrounded([FIRST_FOUND], [B1], 1)
  {
    assert FIRST_PAYMENT.outpoint in SAMPLE_FACTS;
  }

  /** A wallet that scanned the first chain, which pays nothing, and retains the hash of its last block. */
  lemma EmptyHandedIsSafe(w: Wallet)
    requires w == Wallet(1, SAMPLE_COVERAGE, Working([], 2, [20], map[], None, 3))
    ensures Safe(w, SAMPLE_BLOCKS, SAMPLE_FACTS)
  {
    var c := [A1, A2];
    SampleWorld();
    forall p | p in SAMPLE_FACTS
      ensures Tells(c, 1, SAMPLE_COVERAGE, SAMPLE_FACTS[p], Bind(CoreAt([], p), Rewinder(3)))
    {
      assert !Created(c, 1, SAMPLE_FACTS[p]);
    }
    ToldExplains(w, c, 3, SAMPLE_BLOCKS, SAMPLE_FACTS);
    ExplainedIsSafe(w, c, 3, SAMPLE_BLOCKS, SAMPLE_FACTS);
  }

  // ---------------------------------------------------------------------------------------------
  // A payment in block 0
  // ---------------------------------------------------------------------------------------------

  const WIDE_COVERAGE := Coverage(1, 100)

  /** To a subaddress beyond the default gap. */
  const FAR_PAYMENT := Owned(Outpoint(100, 0), 503, 603, 5, NoLock, 0, 60, true)

  const G0 := Block(0, 5, 0, 0, 100, [], [], [], [FAR_PAYMENT])
  const G1 := Block(1, 6, 5, 0, 101, [], [], [], [])

  ghost const GENESIS_BLOCKS: iset<Block> := iset b | b in [G0, G1]
  const GENESIS_FACTS: map<Outpoint, Owned> := map[FAR_PAYMENT.outpoint := FAR_PAYMENT]

  lemma GenesisBlockGood(b: Block)
    requires b in GENESIS_BLOCKS
    ensures (b == G0 || b == G1) && GoodBlock(b, GENESIS_FACTS) && Spendless(b)
  {
    assert TxidsOf(b) == {b.minerTxid};
  }

  lemma GenesisWorld()
    ensures World(GENESIS_BLOCKS, GENESIS_FACTS)
  {
    forall b | b in GENESIS_BLOCKS ensures (b == G0 || b == G1) && GoodBlock(b, GENESIS_FACTS) && Spendless(b) {
      GenesisBlockGood(b);
    }
    assert CreatedOnce(GENESIS_BLOCKS);
    SpendlessWorld(GENESIS_BLOCKS, GENESIS_FACTS);
  }

  /** A wallet that watches the far address and is past block 0 without its output. */
  lemma FarMissedIsUnexplained(p: Wallet, d: seq<Block>)
    requires p.restore == 0 && p.coverage == WIDE_COVERAGE && p.work.outputs == [] && StartHeight(p) == 1
    ensures !Explains(p, d, 1, GENESIS_BLOCKS, GENESIS_FACTS)
  {
    if Explains(p, d, 1, GENESIS_BLOCKS, GENESIS_FACTS) {
      assert d[0] in d;
      GenesisBlockGood(d[0]);
      assert d == [G0];
      GenesisWorld();
      FarMissedIsToldByNone(d);
      ExplainedIsTold(p, d, 1, FAR_PAYMENT.outpoint, GENESIS_BLOCKS, GENESIS_FACTS);
    }
  }

  lemma FarMissedIsToldByNone(d: seq<Block>)
    requires d == [G0]
    ensures FAR_PAYMENT.outpoint in GENESIS_FACTS && GENESIS_FACTS[FAR_PAYMENT.outpoint] == FAR_PAYMENT
    ensures !Tells(d, 0, WIDE_COVERAGE, FAR_PAYMENT, None)
  {
    assert CreatedAt(d, 0, FAR_PAYMENT, 0);
  }
}
