/** Where the one-chain guarantee stops: for each situation that `OpOk` and `EventOk` exclude - those of `Gaps`
    aside - a run that ends in a wallet no chain explains, and the exact condition under which the code is
    still right. */
module Limits {
  import opened Chain
  import opened Scan
  import opened RecentHashes
  import opened Replay
  import opened Engine
  import opened OnePass
  import opened Samples
  import C = Cores

  // ---------------------------------------------------------------------------------------------
  // Wallets that no chain explains
  // ---------------------------------------------------------------------------------------------

  /** No chain explains the open wallet. */
  ghost predicate Unexplained(w: Wallet, blocks: iset<Block>, facts: map<Outpoint, Owned>) {
    forall d, h :: !Explains(w, d, h, blocks, facts)
  }

  lemma HalfUnexplained(p: Wallet)
    requires p.restore == 1 && p.coverage == SAMPLE_COVERAGE && p.work.outputs == [SECOND_FOUND] && StartHeight(p) == 3
    ensures Unexplained(p, SAMPLE_BLOCKS, SAMPLE_FACTS)
  {
    forall d, h ensures !Explains(p, d, h, SAMPLE_BLOCKS, SAMPLE_FACTS) {
      HalfIsUnexplained(p, d);
    }
  }

  /** The second block of the other chain, taken where nothing says what it must build on. */
  lemma SecondBlockTaken(w: Wallet, input: RefreshInput, probe: Probe)
    requires w.restore == 1 && w.coverage == SAMPLE_COVERAGE && w.work.outputs == [] && w.work.cursor == 2
    requires w.work.hashes == [] || w.work.start == 2
    requires input.daemonHeight == 3 && input.batch == 1 && input.events == [Response(RangeResponse, [B2], probe, false)]
    requires FindReorg(1, Window(w.work.start, w.work.hashes), input.resumeProbe) == Ok(None)
    ensures |Refresh(w, input)| == 3 && Unexplained(Refresh(w, input)[2], SAMPLE_BLOCKS, SAMPLE_FACTS)
  {
    var cfg := RefreshConfig(w);
    FirstFind(w.work, cfg, B2, SECOND_PAYMENT);
    var u := ApplyBlock(w.work, cfg, B2).value;
    OneBlock(w.work, cfg, B2);
    assert ValidRange(2, [B2]);
    ServedOnce(w.work, cfg, 3, 1, RangeResponse, [B2], probe, u);
    RefreshOnce(w, input, Response(RangeResponse, [B2], probe, false), u);
    HalfUnexplained(Commit(w, u, 3));
  }

  // ---------------------------------------------------------------------------------------------
  // The one-by-one fallback checks no link between the blocks it collects
  // ---------------------------------------------------------------------------------------------

  ghost predicate LinksUp(d: seq<Block>) {
    forall i :: 0 < i < |d| ==> d[i].previous == d[i-1].hash
  }

  ghost predicate HashFixesBlock(blocks: iset<Block>) {
    forall a, b :: a in blocks && b in blocks && a.hash == b.hash ==> a == b
  }

  lemma FirstPushBound(x: Working, cfg: Config, b: Block)
    ensures ApplyBlock(x, cfg, b).Ok? ==> 0 < |ApplyBlock(x, cfg, b).value.hashes| <= RECENT_MAX
  {
    ApplyBlockWindow(x, cfg, b, PushHash(cfg.restore, Window(x.start, x.hashes), x.cursor, b.hash));
  }

  lemma NextPushBound(x: Working, cfg: Config, e: seq<Block>, b: Block)
    requires EndsAt(x, e, cfg.restore) && |x.hashes| <= RECENT_MAX
    ensures ApplyBlock(x, cfg, b).Ok? ==>
      |ApplyBlock(x, cfg, b).value.hashes| == if |x.hashes| < RECENT_MAX then |x.hashes| + 1 else RECENT_MAX
  {
    var w := Window(x.start, x.hashes);
    assert x.cursor == cfg.restore + |e|;
    PushOnChain(cfg.restore, w, e, cfg.restore, b);
    ApplyBlockWindow(x, cfg, b, PushHash(cfg.restore, w, x.cursor, b.hash));
  }

  /** After a batch the window retains at least the hashes of the batch. */
  lemma {:induction false} BatchRetained(v: Working, cfg: Config, c: seq<Block>, d: seq<Block>)
    requires v.cursor == cfg.restore + |c| && 0 < |d| <= RECENT_MAX
    requires WindowFor(Window(v.start, v.hashes), c, cfg.restore, v.cursor)
    ensures ApplyBlocks(v, cfg, d).Ok? ==> |d| <= |ApplyBlocks(v, cfg, d).value.hashes| <= RECENT_MAX
  {
    var init, b := d[..|d|-1], d[|d|-1];
    assert ApplyBlocks(v, cfg, d) == ThenBlock(ApplyBlocks(v, cfg, init), cfg, b);
    if ApplyBlocks(v, cfg, d).Ok? {
      var x := ApplyBlocks(v, cfg, init).value;
      FirstPushBound(x, cfg, b);
      if init != [] {
        BatchRetained(v, cfg, c, init);
        PushAllAnchors(v, cfg, c, init);
        NextPushBound(x, cfg, c + init, b);
      }
    }
  }

  /** Two chains of served blocks that share a window share the blocks it covers. */
  lemma WindowPins(w: Window, c: seq<Block>, x: seq<Block>, base: nat, blocks: iset<Block>)
    requires WindowOf(w, c, base) && WindowOf(w, x, base) && Among(c, blocks) && Among(x, blocks) && HashFixesBlock(blocks)
    ensures |c| == |x| && c[|c| - |w.hashes|..] == x[|x| - |w.hashes|..]
  {
    var n := |c| - |w.hashes|;
    forall i | n <= i < |c| ensures c[i] == x[i] {
      assert w.hashes[i - n] == c[w.start + (i - n) - base].hash;
      assert c[i] in c && x[i] in x;
    }
  }

  lemma PinnedLinksUp(c: seq<Block>, x: seq<Block>, d: seq<Block>, n: nat, base: nat)
    requires |c| == |x| && n <= |c| && c[n..] == x[n..] && Linked(x, base) && |d| <= |c| - n && c[|c| - |d|..] == d
    ensures LinksUp(d)
  {
    var m := |c| - |d|;
    forall i | 0 < i < |d| ensures d[i].previous == d[i-1].hash {
      assert c[n..][m + i - n] == c[m + i] && c[n..][m + i - 1 - n] == c[m + i - 1];
      assert x[n..][m + i - n] == x[m + i] && x[n..][m + i - 1 - n] == x[m + i - 1];
    }
  }

  /** A chain behind the published state must end with the batch itself. */
  lemma ChainHoldsBatch(v: Working, cfg: Config, c: seq<Block>, d: seq<Block>, u: Working, x: seq<Block>, blocks: iset<Block>)
    requires v.cursor == cfg.restore + |c| && 0 < |d| <= RECENT_MAX && ApplyBlocks(v, cfg, d) == Ok(u)
    requires WindowFor(Window(v.start, v.hashes), c, cfg.restore, v.cursor)
    requires Among(c, blocks) && Among(d, blocks) && HashFixesBlock(blocks)
    requires Among(x, blocks) && Linked(x, cfg.restore) && WindowOf(Window(u.start, u.hashes), x, cfg.restore)
    ensures LinksUp(d)
  {
    PushAllAnchors(v, cfg, c, d);
    BatchRetained(v, cfg, c, d);
    WindowPins(Window(u.start, u.hashes), c + d, x, cfg.restore, blocks);
    PinnedLinksUp(c + d, x, d, |c + d| - |u.hashes|, cfg.restore);
  }

  /** The state is that of some one chain of served blocks. */
  ghost predicate OnSomeChain(u: Working, cfg: Config, blocks: iset<Block>, facts: map<Outpoint, Owned>) {
    exists c, h :: Anchored(u, cfg, c, h, blocks, facts)
  }

  /** A one-by-one response that passed the parent check leaves some one chain behind - any chain of served
      blocks at all - exactly when its blocks happen to build on each other, which, unlike for a range
      response, nothing has checked. */
  lemma OneByOneIsSafeIffLinked(v: Working, cfg: Config, c: seq<Block>, h: nat, n: nat, d: seq<Block>,
                                blocks: iset<Block>, facts: map<Outpoint, Owned>)
    requires World(blocks, facts) && Anchored(v, cfg, c, h, blocks, facts) && LeftoversIn(v.outputs, v.cursor, cfg.replay)
    requires n <= |c| && v.cursor == cfg.restore + n && Among(d, blocks) && HashFixesBlock(blocks)
    requires ValidResponse(OneByOne, v.cursor, |d|, d) && |d| <= RECENT_MAX
    requires ExpectedParent(v) == None || ExpectedParent(v) == Some(d[0].previous)
    ensures LinksUp(d)
       <==> (ApplyBlocks(v, cfg, d).Ok? && OnSomeChain(ApplyBlocks(v, cfg, d).value, cfg, blocks, facts))
  {
    if LinksUp(d) {
      OneByOneLinked(d, v.cursor);
      LinkedBatchAnchors(v, cfg, c, h, n, d, blocks, facts);
    } else if ApplyBlocks(v, cfg, d).Ok? {
      var u := ApplyBlocks(v, cfg, d).value;
      forall x: seq<Block>, k: nat ensures !Anchored(u, cfg, x, k, blocks, facts) {
        NotAnchored(v, cfg, c, h, n, d, u, x, k, blocks, facts);
      }
    }
  }

  lemma SomeChain(u: Working, cfg: Config, c: seq<Block>, h: nat, blocks: iset<Block>, facts: map<Outpoint, Owned>)
    requires Anchored(u, cfg, c, h, blocks, facts)
    ensures OnSomeChain(u, cfg, blocks, facts)
  {}

  lemma LinkedBatchAnchors(v: Working, cfg: Config, c: seq<Block>, h: nat, n: nat, d: seq<Block>, blocks: iset<Block>, facts: map<Outpoint, Owned>)
    requires World(blocks, facts) && Anchored(v, cfg, c, h, blocks, facts) && LeftoversIn(v.outputs, v.cursor, cfg.replay)
    requires n <= |c| && v.cursor == cfg.restore + n
    requires d != [] && Linked(d, v.cursor) && Among(d, blocks)
    requires ExpectedParent(v) == None || ExpectedParent(v) == Some(d[0].previous)
    ensures ApplyBlocks(v, cfg, d).Ok? && OnSomeChain(ApplyBlocks(v, cfg, d).value, cfg, blocks, facts)
  {
    BatchAnchors(v, cfg, c, h, n, d, blocks, facts);
    SomeChain(ApplyBlocks(v, cfg, d).value, cfg, c[..n] + d, ApplyBlocks(v, cfg, d).value.cursor, blocks, facts);
  }

  lemma OneByOneLinked(d: seq<Block>, start: nat)
    requires ValidResponse(OneByOne, start, |d|, d) && LinksUp(d)
    ensures d != [] && Linked(d, start)
  {
    forall i | 0 <= i < |d| ensures d[i].height == start + i {
      assert ValidRange(start + i, [d[i]]);
      assert [d[i]][0].height == start + i + 0;
    }
  }

  lemma NotAnchored(v: Working, cfg: Config, c: seq<Block>, h: nat, n: nat, d: seq<Block>, u: Working, x: seq<Block>, k: nat,
                    blocks: iset<Block>, facts: map<Outpoint, Owned>)
    requires Anchored(v, cfg, c, h, blocks, facts) && n <= |c| && v.cursor == cfg.restore + n
    requires 0 < |d| <= RECENT_MAX && Among(d, blocks) && HashFixesBlock(blocks) && ApplyBlocks(v, cfg, d) == Ok(u) && !LinksUp(d)
    ensures !Anchored(u, cfg, x, k, blocks, facts)
  {
    WindowForPrefix(Window(v.start, v.hashes), c, cfg.restore, n, v.cursor);
    AmongPrefix(c, n, blocks);
    if Anchored(u, cfg, x, k, blocks, facts) {
      PushAllAnchors(v, cfg, c[..n], d);
      BatchMovesCursor(v, cfg, d);
      ChainHoldsBatch(v, cfg, c[..n], d, u, x, blocks);
    }
  }

  lemma MixedApplied(w: Wallet, d: seq<Block>)
    requires w == Opened(1, 1) && d == [A1, B2]
    ensures var r := ApplyBlocks(w.work, RefreshConfig(w), d); r.Ok? && r.value.outputs == [SECOND_FOUND] && r.value.cursor == 3
  {
    var cfg := RefreshConfig(w);
    TwoBlocks(w.work, cfg, A1, B2);
    FindNothing(w.work, cfg, A1);
    var x := ApplyBlock(w.work, cfg, A1).value;
    FirstFind(x, cfg, B2, SECOND_PAYMENT);
  }

  lemma MixedPublished(w: Wallet, probe: Probe, input: RefreshInput)
    requires w == Opened(1, 1) && input == RefreshInput(3, 2, probe, [Response(OneByOne, [A1, B2], probe, false)])
    ensures |Refresh(w, input)| == 3 && Unexplained(Refresh(w, input)[2], SAMPLE_BLOCKS, SAMPLE_FACTS)
  {
    MixedApplied(w, [A1, B2]);
    var u := ApplyBlocks(w.work, RefreshConfig(w), [A1, B2]).value;
    MixedPass(w, probe, u);
    OneResponseUnexplained(w, input, Response(OneByOne, [A1, B2], probe, false), u);
  }

  lemma OneResponseUnexplained(w: Wallet, input: RefreshInput, ev: Event, u: Working)
    requires w.restore == 1 && w.coverage == SAMPLE_COVERAGE && StartHeight(w) < 3 && w.work.hashes == []
    requires input.daemonHeight == 3 && input.batch > 0 && input.events == [ev]
    requires Pass(w.work.(cursor := StartHeight(w)), RefreshConfig(w), 3, input.batch, 0, ev) == Next(u, 0, true)
    requires u.outputs == [SECOND_FOUND] && u.cursor == 3
    ensures |Refresh(w, input)| == 3 && Unexplained(Refresh(w, input)[2], SAMPLE_BLOCKS, SAMPLE_FACTS)
  {
    RefreshOnce(w, input, ev, u);
    HalfUnexplained(Commit(w, u, 3));
  }

  lemma MixedPass(w: Wallet, probe: Probe, u: Working)
    requires w == Opened(1, 1) && ApplyBlocks(w.work, RefreshConfig(w), [A1, B2]) == Ok(u)
    ensures Pass(w.work, RefreshConfig(w), 3, 2, 0, Response(OneByOne, [A1, B2], probe, false)) == Next(u, 0, true)
  {
    MixedResponse([A1, B2]);
    ServedOnce(w.work, RefreshConfig(w), 3, 2, OneByOne, [A1, B2], probe, u);
  }

  /** Two blocks of different chains, fetched one by one around a chain switch, are published as one chain: the
      second block's payment without the first's, which no chain of served blocks has. A range response with
      the same blocks would have been refused. */
  lemma OneByOneMixesChains(probe: Probe, input: RefreshInput, s: Sys)
    requires s == Sys(Opened(1, 1), []) && input == RefreshInput(3, 2, probe, [Response(OneByOne, [A1, B2], probe, false)])
    ensures World(SAMPLE_BLOCKS, SAMPLE_FACTS) && SafeSys(s, SAMPLE_BLOCKS, SAMPLE_FACTS)
    ensures !ValidResponse(RangeResponse, 1, 2, [A1, B2])
    ensures Unexplained(StepOp(s, RefreshOp(input, 2)).live, SAMPLE_BLOCKS, SAMPLE_FACTS)
  {
    SampleWorld();
    EmptySafe(1, SAMPLE_COVERAGE, SAMPLE_BLOCKS, SAMPLE_FACTS);
    MixedResponse([A1, B2]);
    MixedPublished(s.live, probe, input);
  }

  lemma MixedResponse(d: seq<Block>)
    requires d == [A1, B2]
    ensures ValidResponse(OneByOne, 1, 2, d) && !ValidResponse(RangeResponse, 1, 2, d)
  {
    assert !ValidRange(1, d) by { assert d[1].previous != d[0].hash; }
  }

  // ---------------------------------------------------------------------------------------------
  // A lagging daemon, and a manual rewind, can lower the cursor out of the window
  // ---------------------------------------------------------------------------------------------

  /** Whatever blocks a daemon serves next - on top of the chain `c` or not, in any world that has that chain - an
      accepted batch leaves some one chain behind. */
  ghost predicate NextBatchSafe(v: Working, cfg: Config, c: seq<Block>, facts: map<Outpoint, Owned>) {
    forall blocks: iset<Block>, d: seq<Block> ::
      World(blocks, facts) && Among(c, blocks) && Accepted(v, d) && Among(d, blocks) ==>
        ApplyBlocks(v, cfg, d).Ok? && OnSomeChain(ApplyBlocks(v, cfg, d).value, cfg, blocks, facts)
  }

  /** The batch is linked in itself and passes the parent check. */
  ghost predicate Accepted(v: Working, d: seq<Block>) {
    && d != [] && Linked(d, v.cursor)
    && (ExpectedParent(v) == None || ExpectedParent(v) == Some(d[0].previous))
  }

  /** Above every hash and parent hash of `c`. */
  function HashBound(c: seq<Block>): (m: nat)
    ensures forall b :: b in c ==> b.hash <= m && b.previous <= m
  {
    if c == [] then 0
    else
      assert c == c[..|c|-1] + [c[|c|-1]];
      Max(HashBound(c[..|c|-1]), Max(c[|c|-1].hash, c[|c|-1].previous))
  }

  lemma UnusedTxid(ps: set<Outpoint>) returns (t: Txid)
    ensures forall p :: p in ps ==> p.txid < t
    decreases |ps|
  {
    t := 0;
    if ps != {} {
      var p :| p in ps;
      var rest := UnusedTxid(ps - {p});
      t := Max(rest, p.txid + 1);
      forall q | q in ps ensures q.txid < t {
        assert q == p || q in ps - {p};
      }
    }
  }

  /** An empty block that builds on nothing anybody serves, and on which nothing builds. */
  function Stray(height: nat, m: nat, t: Txid): Block {
    Block(height, m + 1, m + 2, 0, t, [], [], [], [])
  }

  ghost function WithBlock(c: seq<Block>, x: Block): iset<Block> {
    iset b | b in c || b == x
  }

  lemma StrayHasNoNeighbour(c: seq<Block>, x: Block, height: nat, m: nat, t: Txid, a: Block, b: Block)
    requires x == Stray(height, m, t) && forall y :: y in c ==> y.hash <= m && y.previous <= m
    requires a in WithBlock(c, x) && b in WithBlock(c, x) && b.previous == a.hash
    ensures a != x && b != x
  {}

  lemma StrayStandsAlone(c: seq<Block>, x: Block, height: nat, m: nat, t: Txid, e: seq<Block>, base: nat)
    requires x == Stray(height, m, t) && forall b :: b in c ==> b.hash <= m && b.previous <= m
    requires Linked(e, base) && Among(e, WithBlock(c, x)) && |e| > 1
    ensures x !in e
  {
    forall i | 0 <= i < |e| ensures e[i] != x {
      var j := if i == 0 then 1 else i;
      assert e[j-1] in e && e[j] in e;
      StrayHasNoNeighbour(c, x, height, m, t, e[j-1], e[j]);
    }
  }

  lemma StrayWorld(c: seq<Block>, x: Block, height: nat, m: nat, t: Txid, blocks: iset<Block>, facts: map<Outpoint, Owned>)
    requires World(blocks, facts) && Among(c, blocks)
    requires x == Stray(height, m, t) && forall b :: b in c ==> b.hash <= m && b.previous <= m
    requires forall p :: p in facts ==> p.txid < t
    ensures World(WithBlock(c, x), facts)
  {
    assert GoodBlock(x, facts) by {
      assert TxidsOf(x) == {t};
    }
    forall e: seq<Block>, base: nat | Linked(e, base) && Among(e, WithBlock(c, x)) ensures Consensus(e) {
      if |e| > 1 {
        StrayStandsAlone(c, x, height, m, t, e, base);
        assert Among(e, blocks);
      } else if e != [] && e[0] != x {
        assert e[0] in e && Among(e, blocks);
      } else {
        SingleStray(x, e);
      }
    }
  }

  lemma SingleStray(x: Block, e: seq<Block>)
    requires e == [] || e == [x]
    requires x.owned == [] && Spendless(x)
    ensures Consensus(e)
  {
    NoSpends(x);
  }

  lemma StrayOnNoChain(u: Working, cfg: Config, c: seq<Block>, x: Block, height: nat, m: nat, t: Txid, e: seq<Block>, h: nat,
                       facts: map<Outpoint, Owned>)
    requires x == Stray(height, m, t) && forall b :: b in c ==> b.hash <= m && b.previous <= m
    requires cfg.restore < height && u.cursor == height + 1 == u.start + |u.hashes|
    requires u.hashes != [] && u.hashes[|u.hashes|-1] == x.hash
    ensures !Anchored(u, cfg, e, h, WithBlock(c, x), facts)
  {
    if Anchored(u, cfg, e, h, WithBlock(c, x), facts) {
      EndsWithLastHash(u, cfg, e, h, WithBlock(c, x), facts);
      EndsWithStray(c, x, height, m, t, e);
      StrayStandsAlone(c, x, height, m, t, e, cfg.restore);
    }
  }

  lemma EndsWithStray(c: seq<Block>, x: Block, height: nat, m: nat, t: Txid, e: seq<Block>)
    requires x == Stray(height, m, t) && forall b :: b in c ==> b.hash <= m && b.previous <= m
    requires Among(e, WithBlock(c, x)) && e != [] && e[|e|-1].hash == x.hash
    ensures x in e
  {
    assert e[|e|-1] in e;
  }

  lemma EndsWithLastHash(u: Working, cfg: Config, e: seq<Block>, h: nat, blocks: iset<Block>, facts: map<Outpoint, Owned>)
    requires Anchored(u, cfg, e, h, blocks, facts) && u.hashes != [] && u.cursor == u.start + |u.hashes|
    requires cfg.restore + 1 < u.cursor
    ensures |e| > 1 && e[|e|-1].hash == u.hashes[|u.hashes|-1]
  {}

  /** Above the restore height and without a parent to compare with, some daemon breaks the chain. */
  lemma NoParentIsUnsafe(v: Working, cfg: Config, c: seq<Block>, blocks: iset<Block>, facts: map<Outpoint, Owned>)
    requires World(blocks, facts) && Among(c, blocks) && v.cursor > cfg.restore && ExpectedParent(v) == None
    ensures !NextBatchSafe(v, cfg, c, facts)
  {
    var m := HashBound(c);
    var t := UnusedTxid(facts.Keys);
    var x := Stray(v.cursor, m, t);
    StrayWorld(c, x, v.cursor, m, t, blocks, facts);
    assert Accepted(v, [x]) && Among([x], WithBlock(c, x)) && Among(c, WithBlock(c, x));
    OneBlock(v, cfg, x);
    if ApplyBlock(v, cfg, x).Ok? {
      var u := ApplyBlock(v, cfg, x).value;
      LastPushed(v, cfg, x);
      forall e: seq<Block>, h: nat ensures !Anchored(u, cfg, e, h, WithBlock(c, x), facts) {
        StrayOnNoChain(u, cfg, c, x, v.cursor, m, t, e, h, facts);
      }
    }
  }

  /** A safe wallet takes only batches that keep it on a chain. */
  lemma SafeTakesSafely(p: Wallet, d: seq<Block>, blocks: iset<Block>, facts: map<Outpoint, Owned>)
    requires World(blocks, facts) && Safe(p, blocks, facts) && Among(d, blocks)
    requires Accepted(p.work.(cursor := StartHeight(p)), d)
    ensures var r := ApplyBlocks(p.work.(cursor := StartHeight(p)), RefreshConfig(p), d);
      r.Ok? && OnSomeChain(r.value, RefreshConfig(p), blocks, facts)
  {
    var v, cfg := p.work.(cursor := StartHeight(p)), RefreshConfig(p);
    var c, h :| Inv(p, c, h, blocks, facts);
    assert Anchored(v, cfg, c, h, blocks, facts);
    AllHistory(v.outputs, v.cursor);
    LinkedBatchAnchors(v, cfg, c, h, v.cursor - cfg.restore, d, blocks, facts);
  }

  lemma InvElsewhere(w: Wallet, c: seq<Block>, h: nat, blocks: iset<Block>, other: iset<Block>, facts: map<Outpoint, Owned>)
    requires Inv(w, c, h, blocks, facts) && Among(c, other)
    ensures Inv(w, c, h, other, facts)
  {}

  /** A commit against a daemon that reports this height: every batch the next daemon can get accepted leaves one
      chain behind exactly when the reported height did not fall below the window. */
  lemma ClampIsSafeIff(w: Wallet, v: Working, c: seq<Block>, h: nat, daemonHeight: nat, p: Wallet,
                       blocks: iset<Block>, facts: map<Outpoint, Owned>)
    requires World(blocks, facts) && Anchored(v, FreshLike(w), c, h, blocks, facts) && p == Commit(w, v, daemonHeight)
    ensures NextBatchSafe(p.work.(cursor := StartHeight(p)), RefreshConfig(p), c, facts) <==> DaemonReaches(v, w.restore, daemonHeight)
  {
    if DaemonReaches(v, w.restore, daemonHeight) {
      CommitInv(w, v, FreshLike(w), daemonHeight, c, h, blocks, facts);
      InvIsNextSafe(p, c, h, blocks, facts);
    } else {
      NoParentIsUnsafe(p.work.(cursor := StartHeight(p)), RefreshConfig(p), c, blocks, facts);
    }
  }

  lemma InvIsNextSafe(p: Wallet, c: seq<Block>, h: nat, blocks: iset<Block>, facts: map<Outpoint, Owned>)
    requires Inv(p, c, h, blocks, facts)
    ensures NextBatchSafe(p.work.(cursor := StartHeight(p)), RefreshConfig(p), c, facts)
  {
    var v := p.work.(cursor := StartHeight(p));
    forall other: iset<Block>, d: seq<Block> | World(other, facts) && Among(c, other) && Accepted(v, d) && Among(d, other)
      ensures ApplyBlocks(v, RefreshConfig(p), d).Ok? && OnSomeChain(ApplyBlocks(v, RefreshConfig(p), d).value, RefreshConfig(p), other, facts)
    {
      InvElsewhere(p, c, h, blocks, other, facts);
      SafeTakesSafely(p, d, other, facts);
    }
  }

  /** The same for a manual rewind: exactly when it stays inside the window or goes all the way. */
  lemma ManualRewindIsSafeIff(w: Wallet, target: nat, c: seq<Block>, h: nat, p: Wallet, blocks: iset<Block>, facts: map<Outpoint, Owned>)
    requires World(blocks, facts) && Inv(w, c, h, blocks, facts) && target <= w.work.cursor
    requires p == w.(work := Rewind(w.restore, target, w.work))
    ensures NextBatchSafe(p.work, RefreshConfig(p), c, facts) <==> RewindStaysAnchored(w, target)
  {
    assert p.work.(cursor := StartHeight(p)) == p.work;
    if RewindStaysAnchored(w, target) {
      forall other: iset<Block>, d: seq<Block> | World(other, facts) && Among(c, other) && Accepted(p.work, d) && Among(d, other)
        ensures ApplyBlocks(p.work, RefreshConfig(p), d).Ok? && OnSomeChain(ApplyBlocks(p.work, RefreshConfig(p), d).value, RefreshConfig(p), other, facts)
      {
        InvElsewhere(w, c, h, blocks, other, facts);
        ManualRewindSafe(w, target, other, facts);
        SafeTakesSafely(p, d, other, facts);
      }
    } else {
      NoParentIsUnsafe(p.work, RefreshConfig(p), c, blocks, facts);
    }
  }

  /** Two blocks of the first chain passed, the hash of the second retained. */
  const SCANNED_TWO := Wallet(1, SAMPLE_COVERAGE, Working([], 2, [20], map[], None, 3))

  lemma SecondBlockScanned(w: Wallet, first: RefreshInput, probe: Probe)
    requires w == Opened(2, 1) && first == RefreshInput(3, 1, probe, [Response(RangeResponse, [A2], probe, false)])
    ensures |Refresh(w, first)| == 3 && Refresh(w, first)[2] == Wallet(2, SAMPLE_COVERAGE, SCANNED_TWO.work)
  {
    var u := SCANNED_TWO.work;
    FindNothing(w.work, RefreshConfig(w), A2);
    OneBlock(w.work, RefreshConfig(w), A2);
    assert ValidRange(2, [A2]);
    ServedOnce(w.work, RefreshConfig(w), 3, 1, RangeResponse, [A2], probe, u);
    RefreshOnce(w, first, Response(RangeResponse, [A2], probe, false), u);
  }

  /** A wallet gets there that is opened at height 2, scans block 2, and is opened again at height 1 - rightly
      so, since block 1 of that chain pays nothing. */
  lemma ScannedTwoIsReached(first: RefreshInput, probe: Probe)
    requires first == RefreshInput(3, 1, probe, [Response(RangeResponse, [A2], probe, false)])
    ensures Run(Sys(Opened(2, 1), []), [RefreshOp(first, 2), OpenOccupiedOp(1)]).live == SCANNED_TWO
    ensures World(SAMPLE_BLOCKS, SAMPLE_FACTS) && Safe(SCANNED_TWO, SAMPLE_BLOCKS, SAMPLE_FACTS)
  {
    SampleWorld();
    EmptyHandedIsSafe(SCANNED_TWO);
    SecondBlockScanned(Opened(2, 1), first, probe);
    OpenedAgain(StepOp(Sys(Opened(2, 1), []), RefreshOp(first, 2)));
    TwoSteps(Sys(Opened(2, 1), []), RefreshOp(first, 2), OpenOccupiedOp(1));
  }

  lemma OpenedAgain(s: Sys)
    requires s.live == Wallet(2, SAMPLE_COVERAGE, SCANNED_TWO.work)
    ensures StepOp(s, OpenOccupiedOp(1)).live == SCANNED_TWO
  {}

  /** A daemon that reports height 2 moves the cursor to the retained block; the next refresh finds that block
      confirmed, the daemon changes chain, and its block 2 is taken on top of nothing. */
  lemma LaggingDaemonMixesChains(s: Sys, first: RefreshInput, lag: RefreshInput, next: RefreshInput, probe: Probe)
    requires first == RefreshInput(3, 1, probe, [Response(RangeResponse, [A2], probe, false)])
    requires s == Run(Sys(Opened(2, 1), []), [RefreshOp(first, 2), OpenOccupiedOp(1)])
    requires lag == RefreshInput(2, 1, probe, []) && probe(2) == Some(20)
    requires next == RefreshInput(3, 1, probe, [Response(RangeResponse, [B2], probe, false)])
    ensures World(SAMPLE_BLOCKS, SAMPLE_FACTS) && Safe(s.live, SAMPLE_BLOCKS, SAMPLE_FACTS)
    ensures Unexplained(Run(s, [RefreshOp(lag, 0), RefreshOp(next, 2)]).live, SAMPLE_BLOCKS, SAMPLE_FACTS)
  {
    ScannedTwoIsReached(first, probe);
    LaggedBack(s, lag);
    SecondBlockTaken(StepOp(s, RefreshOp(lag, 0)).live, next, probe);
    TwoSteps(s, RefreshOp(lag, 0), RefreshOp(next, 2));
  }

  lemma LaggedBack(s: Sys, lag: RefreshInput)
    requires s.live == SCANNED_TWO && lag.daemonHeight == 2 && lag.batch > 0
    ensures StepOp(s, RefreshOp(lag, 0)).live == SCANNED_TWO.(work := SCANNED_TWO.work.(cursor := 2))
  {
    assert Refresh(SCANNED_TWO, lag)[0] == Progress(SCANNED_TWO, 2);
  }

  /** A manual rewind to the window's first height empties the window, and with it the memory of what block
      2 must build on. */
  lemma ManualRewindMixesChains(s: Sys, first: RefreshInput, next: RefreshInput, probe: Probe)
    requires first == RefreshInput(3, 1, probe, [Response(RangeResponse, [A2], probe, false)])
    requires s == Run(Sys(Opened(2, 1), []), [RefreshOp(first, 2), OpenOccupiedOp(1)])
    requires next == RefreshInput(3, 1, probe, [Response(RangeResponse, [B2], probe, false)])
    ensures World(SAMPLE_BLOCKS, SAMPLE_FACTS) && Safe(s.live, SAMPLE_BLOCKS, SAMPLE_FACTS)
    ensures Unexplained(Run(s, [RewindOp(2), RefreshOp(next, 2)]).live, SAMPLE_BLOCKS, SAMPLE_FACTS)
  {
    ScannedTwoIsReached(first, probe);
    SecondBlockTaken(StepOp(s, RewindOp(2)).live, next, probe);
    TwoSteps(s, RewindOp(2), RefreshOp(next, 2));
  }

  lemma TwoSteps(s: Sys, a: Op, b: Op)
    requires a.RefreshOp? ==> a.input.batch > 0
    requires b.RefreshOp? ==> b.input.batch > 0
    ensures Run(s, [a, b]) == StepOp(StepOp(s, a), b)
  {
    assert [a, b][1..] == [b] && [b][1..] == [];
    assert Run(StepOp(StepOp(s, a), b), []) == StepOp(StepOp(s, a), b);
  }

  // ---------------------------------------------------------------------------------------------
  // Resetting the tracked outputs
  // ---------------------------------------------------------------------------------------------

  /** `wallet_reset_tracked_outputs` drops the outputs but leaves the cursor. */
  function Reset(w: Wallet): Wallet {
    w.(work := w.work.(outputs := [], stamps := map[], rescan := None))
  }

  /** The wallet still matches its chain exactly when none of its outputs lay below the cursor: the next
      refresh does not look for them again. */
  lemma ResetForgetsIff(w: Wallet, d: seq<Block>, h: nat, blocks: iset<Block>, facts: map<Outpoint, Owned>)
    requires Explains(w, d, h, blocks, facts)
    ensures Explains(Reset(w), d, h, blocks, facts) <==> forall o :: o in w.work.outputs ==> o.height >= h
  {
    if o :| o in w.work.outputs && o.height < h {
      FoundBelow(w, d, h, o, blocks, facts);
    }
    if forall o :: o in w.work.outputs ==> o.height >= h {
      NothingFoundBelow(w, d, h, blocks, facts);
    }
  }

  lemma FoundBelow(w: Wallet, d: seq<Block>, h: nat, o: TrackedOutput, blocks: iset<Block>, facts: map<Outpoint, Owned>)
    requires Explains(w, d, h, blocks, facts) && o in w.work.outputs && o.height < h
    ensures !Explains(Reset(w), d, h, blocks, facts)
  {
    C.CoreAtMember(w.work.outputs, o);
    assert C.KnownOutput(o, facts, w.coverage);
    assert C.CoreAt([], o.outpoint) == None;
  }

  lemma NothingFoundBelow(w: Wallet, d: seq<Block>, h: nat, blocks: iset<Block>, facts: map<Outpoint, Owned>)
    requires Explains(w, d, h, blocks, facts) && forall o :: o in w.work.outputs ==> o.height >= h
    ensures Explains(Reset(w), d, h, blocks, facts)
  {
    forall p | p in facts ensures C.Bind(C.CoreAt(w.work.outputs, p), Rewinder(h)) == None {
      EntryOf(w.work.outputs, h, p);
    }
  }

  /** A wallet with one output, reset: no chain explains it any more. */
  lemma ResetForgetsPayment(w: Wallet)
    requires w == Wallet(1, SAMPLE_COVERAGE, Working([FIRST_FOUND], 1, [11], map[], None, 2))
    ensures World(ONE_PAYMENT, SAMPLE_FACTS) && Safe(w, ONE_PAYMENT, SAMPLE_FACTS)
    ensures Unexplained(Reset(w), ONE_PAYMENT, SAMPLE_FACTS)
  {
    OnePaymentWorld();
    FoundIsSafe(w);
    forall d, h ensures !Explains(Reset(w), d, h, ONE_PAYMENT, SAMPLE_FACTS) {
      MissedIsUnexplained(Reset(w), d);
    }
  }

  // ---------------------------------------------------------------------------------------------
  // A settled wallet
  // ---------------------------------------------------------------------------------------------

  /** Once nothing retained lies at or above `last_scanned`, the wallet is the fresh scan as a whole. */
  lemma SettledWalletIsFreshScan(w: Wallet, d: seq<Block>, h: nat, blocks: iset<Block>, facts: map<Outpoint, Owned>)
    requires Explains(w, d, h, blocks, facts)
    requires forall k :: k in HistoryHeights(w.work.outputs) ==> k < h
    ensures CoreSet(w.work.outputs) == CoreSet(Fresh(w.restore, w.coverage, d).value.outputs)
  {
    AllHistory(w.work.outputs, h);
    NoLeftovers(w.work.outputs, d, w.restore, h, w.coverage, facts, HistoryHeights(w.work.outputs));
  }

  // ---------------------------------------------------------------------------------------------
  // Coverage never shrinks
  // ---------------------------------------------------------------------------------------------

  /** No operation on the open wallet narrows its coverage; only opening it anew starts over. */
  lemma CoverageNeverShrinks(s: Sys, op: Op)
    requires op.RefreshOp? ==> op.input.batch > 0
    requires !op.OpenVacantOp? && (op.ImportOp? && op.cache < |s.caches| ==> s.caches[op.cache].coverage.accounts == s.live.coverage.accounts)
    ensures Widens(s.live.coverage, StepOp(s, op).live.coverage)
  {
    if op.RefreshOp? {
      RefreshKeepsCoverage(s.live, op.input);
      assert StepOp(s, op).live in Refresh(s.live, op.input);
    }
  }

  /** Inside the loop a batch is committed at exactly the height after its last block, however short the
      response: the clamp to the daemon's height never acts. */
  lemma BatchCommitIsNeverClamped(w: Wallet, v: Working, cfg: Config, daemonHeight: nat, batch: nat, failures: nat, ev: Event)
    requires batch > 0 && w.restore <= v.cursor < daemonHeight && ev.Response?
    requires ValidResponse(ev.path, v.cursor, Requested(v.cursor, daemonHeight, batch), ev.blocks)
    requires ExpectedParent(v) == None || ExpectedParent(v) == Some(ev.blocks[0].previous)
    ensures match Pass(v, cfg, daemonHeight, batch, failures, ev)
      case Stop => ev.stopped || ApplyBlocks(v, cfg, ev.blocks) == Err
      case Next(u, f, committed) =>
        && committed && f == 0 && Ok(u) == ApplyBlocks(v, cfg, ev.blocks)
        && Commit(w, u, daemonHeight).work.cursor == u.cursor == v.cursor + |ev.blocks| <= daemonHeight
  {
    BatchMovesCursor(v, cfg, ev.blocks);
  }

  /** The progress mark at the start of a refresh touches the cursor only: one between the restore height and the
      daemon's height stays, one below the restore height - or any, under a daemon without a height - is put there, and
      one past the daemon's height is taken back to that. */
  lemma ProgressMark(w: Wallet, daemonHeight: nat)
    ensures var p := Progress(w, daemonHeight);
      && p == w.(work := w.work.(cursor := p.work.cursor))
      && (w.restore <= w.work.cursor <= daemonHeight ==> p == w)
      && (daemonHeight == 0 || w.work.cursor <= w.restore <= daemonHeight ==> p.work.cursor == w.restore)
      && (0 < daemonHeight && (daemonHeight < w.work.cursor || daemonHeight < w.restore) ==> p.work.cursor == daemonHeight)
  {
    assert w.work.(cursor := w.work.cursor) == w.work;
  }
}
