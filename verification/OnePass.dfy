/** What the one-pass scan finds, said without scanning: an output is there exactly when a block of the
    chain creates it for a watched address, and spent exactly when a block of the chain spends it. */
module OnePass {
  import opened Chain
  import opened Scan
  import opened Cores
  import E = Engine
  import P = Replay
  import R = Rewinding
  import RH = RecentHashes

  ghost predicate CreatedAt(c: seq<Block>, base: nat, w: Owned, h: nat) {
    base <= h < base + |c| && w in c[h - base].owned
  }

  ghost predicate SpentAt(c: seq<Block>, base: nat, image: Image, h: nat) {
    base <= h < base + |c| && Spends(c[h - base], image)
  }

  ghost predicate Created(c: seq<Block>, base: nat, w: Owned) {
    exists h: nat :: CreatedAt(c, base, w, h)
  }

  /** `x` is what the chain says about the output `w`. */
  ghost predicate Tells(c: seq<Block>, base: nat, coverage: Coverage, w: Owned, x: Option<TrackedOutput>) {
    && (x.Some? <==> Covers(coverage, w) && Created(c, base, w))
    && (x.Some? ==>
          && Matches(x.value, w) && CreatedAt(c, base, w, x.value.height)
          && (x.value.spent <==> x.value.spendingHeight.Some?)
          && forall h: nat :: SpentAt(c, base, w.image, h) <==> x.value.spendingHeight == Some(h))
  }

  /** The chain with one more block, seen by the old heights and the new one. */
  lemma OneMore(c: seq<Block>, base: nat, b: Block, w: Owned, h: nat, k: nat)
    requires h == base + |c|
    ensures CreatedAt(c + [b], base, w, k) <==> CreatedAt(c, base, w, k) || (k == h && w in b.owned)
    ensures SpentAt(c + [b], base, w.image, k) <==> SpentAt(c, base, w.image, k) || (k == h && Spends(b, w.image))
  {
    var d := c + [b];
    assert d[|c|] == b;
    if base <= k < h {
      assert d[k - base] == c[k - base];
    }
  }

  lemma CreatedOneMore(c: seq<Block>, base: nat, b: Block, w: Owned, h: nat)
    requires h == base + |c|
    ensures Created(c + [b], base, w) <==> Created(c, base, w) || w in b.owned
  {
    OneMore(c, base, b, w, h, h);
    forall k: nat ensures CreatedAt(c + [b], base, w, k) <==> CreatedAt(c, base, w, k) || (k == h && w in b.owned) {
      OneMore(c, base, b, w, h, k);
    }
  }

  /** Consensus, for one output: not created again, not spent before it exists, not spent again. */
  lemma NewsIsNew(c: seq<Block>, base: nat, b: Block, w: Owned)
    requires Consensus(c + [b])
    ensures w in b.owned ==> !Created(c, base, w) && !Spends(b, w.image) && forall k: nat :: !SpentAt(c, base, w.image, k)
    ensures Spends(b, w.image) ==> forall k: nat :: !SpentAt(c, base, w.image, k)
  {
    var d := c + [b];
    assert d[|c|] == b && forall i :: 0 <= i < |c| ==> d[i] == c[i];
    assert w in d[|c|].owned ==> forall i :: 0 <= i < |c| ==> w !in d[i].owned;
    assert Spends(d[|c|], w.image) ==> forall i :: 0 <= i < |c| ==> !Spends(d[i], w.image);
    if w in b.owned {
      P.SpentLater(c, b, w);
    }
  }

  lemma TellsNext(c: seq<Block>, base: nat, coverage: Coverage, b: Block, w: Owned, h: nat, x: Option<TrackedOutput>, n: P.News)
    requires Tells(c, base, coverage, w, x) && Consensus(c + [b]) && h == base + |c|
    requires n == P.NewsOf(b, w, coverage)
    ensures Tells(c + [b], base, coverage, w, P.EntryStep(x, false, n, w, h))
  {
    var y, d := P.EntryStep(x, false, n, w, h), c + [b];
    CreatedOneMore(c, base, b, w, h);
    NewsIsNew(c, base, b, w);
    forall k: nat
      ensures CreatedAt(d, base, w, k) <==> CreatedAt(c, base, w, k) || (k == h && w in b.owned)
      ensures SpentAt(d, base, w.image, k) <==> SpentAt(c, base, w.image, k) || (k == h && Spends(b, w.image))
    {
      OneMore(c, base, b, w, h, k);
    }
  }

  lemma EntryNext(base: nat, coverage: Coverage, init: seq<Block>, b: Block, h: nat, p: Outpoint, facts: map<Outpoint, Owned>)
    requires GoodFacts(facts) && R.GoodChain(init + [b], facts) && p in facts && h == base + |init|
    requires Fresh(base, coverage, init).Ok? && Well(Fresh(base, coverage, init).value.outputs, facts, coverage)
    requires Fresh(base, coverage, init + [b]).Ok?
    ensures CoreAt(Fresh(base, coverage, init + [b]).value.outputs, p)
         == P.EntryStep(CoreAt(Fresh(base, coverage, init).value.outputs, p), false, P.NewsOf(b, facts[p], coverage), facts[p], h)
  {
    var once := Fresh(base, coverage, init).value.outputs;
    assert b in init + [b];
    P.FreshStep(base, coverage, init, h, b, facts);
    CoreAtSource(once, p);
    if CoreAt(once, p).Some? {
      var o :| o in once && o.outpoint == p && CoreAt(once, p) == Some(Core(o));
      assert KnownOutput(o, facts, coverage);
    }
    P.BlockAtIsEntryStep(CoreAt(once, p), facts[p], FreshConfig(base, coverage), h, b, facts);
  }

  ghost predicate ScanTells(base: nat, coverage: Coverage, c: seq<Block>, w: Owned) {
    Fresh(base, coverage, c).Ok? && Tells(c, base, coverage, w, CoreAt(Fresh(base, coverage, c).value.outputs, w.outpoint))
  }

  lemma TellsOneMore(base: nat, coverage: Coverage, init: seq<Block>, b: Block, w: Owned, facts: map<Outpoint, Owned>)
    requires GoodFacts(facts) && R.GoodChain(init + [b], facts) && w.outpoint in facts && facts[w.outpoint] == w
    requires ScanTells(base, coverage, init, w)
    ensures ScanTells(base, coverage, init + [b], w)
  {
    var h := base + |init|;
    FreshBoth(base, coverage, init, b, facts);
    EntryNext(base, coverage, init, b, h, w.outpoint, facts);
    TellsNext(init, base, coverage, b, w, h, CoreAt(Fresh(base, coverage, init).value.outputs, w.outpoint), P.NewsOf(b, w, coverage));
  }

  lemma FreshBoth(base: nat, coverage: Coverage, init: seq<Block>, b: Block, facts: map<Outpoint, Owned>)
    requires GoodFacts(facts) && R.GoodChain(init + [b], facts)
    ensures Fresh(base, coverage, init).Ok? && Well(Fresh(base, coverage, init).value.outputs, facts, coverage)
    ensures Fresh(base, coverage, init + [b]).Ok?
  {
    GoodInit(init, b, facts);
    P.FreshWell(base, coverage, init, facts);
    P.FreshWell(base, coverage, init + [b], facts);
  }

  lemma GoodInit(init: seq<Block>, b: Block, facts: map<Outpoint, Owned>)
    requires R.GoodChain(init + [b], facts)
    ensures R.GoodChain(init, facts)
  {
    R.GoodChainPrefix(init + [b], |init|, facts);
    assert (init + [b])[..|init|] == init;
  }

  /** The scan of a chain shows, for every output there can be, what the chain says about it. */
  lemma {:induction false} ScanTellsTheChain(base: nat, coverage: Coverage, c: seq<Block>, w: Owned, facts: map<Outpoint, Owned>)
    requires GoodFacts(facts) && R.GoodChain(c, facts) && w.outpoint in facts && facts[w.outpoint] == w
    ensures ScanTells(base, coverage, c, w)
  {
    if c == [] {
      NothingTold(base, coverage, w);
    } else {
      var init, b := c[..|c|-1], c[|c|-1];
      Rejoin(c, init, b);
      GoodInit(init, b, facts);
      ScanTellsTheChain(base, coverage, init, w, facts);
      TellsOneMore(base, coverage, init, b, w, facts);
    }
  }

  lemma Rejoin(c: seq<Block>, init: seq<Block>, b: Block)
    requires c != [] && init == c[..|c|-1] && b == c[|c|-1]
    ensures init + [b] == c
  {}

  lemma NothingTold(base: nat, coverage: Coverage, w: Owned)
    ensures ScanTells(base, coverage, [], w)
  {}

  /** What a wallet published by any run shows below its cursor is what one chain of served blocks says,
      output by output: every watched output the chain creates, each with its height and its spend, and
      nothing else. */
  lemma SafeWalletTellsItsChain(w: E.Wallet, blocks: iset<Block>, facts: map<Outpoint, Owned>)
    requires E.World(blocks, facts) && E.Safe(w, blocks, facts)
    ensures exists d ::
      && E.Explains(w, d, E.StartHeight(w), blocks, facts)
      && forall p :: p in facts ==>
           Tells(d, w.restore, w.coverage, facts[p], Bind(CoreAt(w.work.outputs, p), Rewinder(E.StartHeight(w))))
  {
    E.SafeMeansOneChain(w, blocks, facts);
    var h := E.StartHeight(w);
    var d :| E.Explains(w, d, h, blocks, facts);
    E.WorldChain(d, w.restore, blocks, facts);
    forall p | p in facts ensures Tells(d, w.restore, w.coverage, facts[p], Bind(CoreAt(w.work.outputs, p), Rewinder(h))) {
      ScanTellsTheChain(w.restore, w.coverage, d, facts[p], facts);
    }
  }

  // ---------------------------------------------------------------------------------------------
  // Agreement, output by output
  // ---------------------------------------------------------------------------------------------

  /** What a chain says about an output fixes its entry. */
  lemma TellsFixes(c: seq<Block>, base: nat, coverage: Coverage, w: Owned, x: Option<TrackedOutput>, y: Option<TrackedOutput>)
    requires Tells(c, base, coverage, w, x) && Tells(c, base, coverage, w, y) && Consensus(c)
    requires x.Some? ==> x.value.spendingTxid == None
    requires y.Some? ==> y.value.spendingTxid == None
    ensures x == y
  {
    if x.Some? {
      var i, j := x.value.height - base, y.value.height - base;
      assert w in c[i].owned && w in c[j].owned;
      assert x.value.height == y.value.height;
      SameSpend(c, base, w.image, x.value.spendingHeight, y.value.spendingHeight);
    }
  }

  lemma SameSpend(c: seq<Block>, base: nat, image: Image, a: Option<nat>, b: Option<nat>)
    requires forall h: nat :: SpentAt(c, base, image, h) <==> a == Some(h)
    requires forall h: nat :: SpentAt(c, base, image, h) <==> b == Some(h)
    ensures a == b
  {
    if a.Some? {
      assert SpentAt(c, base, image, a.value);
    }
    if b.Some? {
      assert SpentAt(c, base, image, b.value);
    }
  }

  lemma NoTxid(outputs: Outputs, h: nat, p: Outpoint)
    ensures var x := Bind(CoreAt(outputs, p), Rewinder(h)); x.Some? ==> x.value.spendingTxid == None
  {}

  ghost predicate AllTold(outputs: Outputs, c: seq<Block>, base: nat, h: nat, coverage: Coverage, facts: map<Outpoint, Owned>) {
    forall p :: p in facts ==> Tells(c, base, coverage, facts[p], Bind(CoreAt(outputs, p), Rewinder(h)))
  }

  /** The state agrees with the scan of a chain exactly when every entry is what the chain says. */
  lemma AgreesIffTold(outputs: Outputs, c: seq<Block>, base: nat, h: nat, coverage: Coverage, facts: map<Outpoint, Owned>)
    requires GoodFacts(facts) && R.GoodChain(c, facts) && h == base + |c|
    requires Well(outputs, facts, coverage) && P.AllGrounded(outputs, c, base)
    ensures P.Agrees(outputs, c, base, h, coverage, facts) <==> AllTold(outputs, c, base, h, coverage, facts)
  {
    P.FreshWell(base, coverage, c, facts);
    var there := Fresh(base, coverage, c).value.outputs;
    forall p | p in facts
      ensures Tells(c, base, coverage, facts[p], CoreAt(there, p))
      ensures Tells(c, base, coverage, facts[p], Bind(CoreAt(outputs, p), Rewinder(h)))
         <==> Bind(CoreAt(outputs, p), Rewinder(h)) == CoreAt(there, p)
    {
      EntryIffTold(outputs, c, base, h, coverage, p, facts);
    }
  }

  lemma EntryIffTold(outputs: Outputs, c: seq<Block>, base: nat, h: nat, coverage: Coverage, p: Outpoint, facts: map<Outpoint, Owned>)
    requires GoodFacts(facts) && R.GoodChain(c, facts) && p in facts
    ensures Fresh(base, coverage, c).Ok?
    ensures var there := Fresh(base, coverage, c).value.outputs;
      && Tells(c, base, coverage, facts[p], CoreAt(there, p))
      && (Tells(c, base, coverage, facts[p], Bind(CoreAt(outputs, p), Rewinder(h)))
          <==> Bind(CoreAt(outputs, p), Rewinder(h)) == CoreAt(there, p))
  {
    ScanTellsTheChain(base, coverage, c, facts[p], facts);
    var there := Fresh(base, coverage, c).value.outputs;
    NoTxid(outputs, h, p);
    if Tells(c, base, coverage, facts[p], Bind(CoreAt(outputs, p), Rewinder(h))) {
      TellsFixes(c, base, coverage, facts[p], Bind(CoreAt(outputs, p), Rewinder(h)), CoreAt(there, p));
    }
  }

  /** The entry behind a tracked output. */
  lemma EntryOf(outputs: Outputs, h: nat, p: Outpoint)
    ensures var y := Bind(CoreAt(outputs, p), Rewinder(h));
      y.Some? ==> exists o :: o in outputs && o.outpoint == p && Rewinder(h)(Core(o)) == y
  {
    CoreAtSource(outputs, p);
  }

  /** A block with nothing for any watched address. */
  ghost predicate HoldsNothing(b: Block, coverage: Coverage) {
    forall o :: o in b.owned ==> !Covers(coverage, o)
  }

  ghost predicate AllHoldNothing(c: seq<Block>, coverage: Coverage) {
    forall b :: b in c ==> HoldsNothing(b, coverage)
  }

  /** What an explaining chain says about one output is what the wallet shows of it. */
  lemma ExplainedIsTold(w: E.Wallet, d: seq<Block>, h: nat, p: Outpoint, blocks: iset<Block>, facts: map<Outpoint, Owned>)
    requires E.World(blocks, facts) && E.Explains(w, d, h, blocks, facts) && p in facts
    ensures Tells(d, w.restore, w.coverage, facts[p], Bind(CoreAt(w.work.outputs, p), Rewinder(h)))
  {
    E.WorldChain(d, w.restore, blocks, facts);
    EntryIffTold(w.work.outputs, d, w.restore, h, w.coverage, p, facts);
  }

  /** A chain that tells every output explains the wallet. */
  lemma ToldExplains(w: E.Wallet, d: seq<Block>, h: nat, blocks: iset<Block>, facts: map<Outpoint, Owned>)
    requires E.World(blocks, facts) && Linked(d, w.restore) && E.Among(d, blocks) && h == E.StartHeight(w) == w.restore + |d|
    requires Well(w.work.outputs, facts, w.coverage) && P.AllGrounded(w.work.outputs, d, w.restore)
    requires AllTold(w.work.outputs, d, w.restore, h, w.coverage, facts)
    ensures E.Explains(w, d, h, blocks, facts)
  {
    E.WorldChain(d, w.restore, blocks, facts);
    AgreesIffTold(w.work.outputs, d, w.restore, h, w.coverage, facts);
  }

  /** An explained wallet whose window ends where its chain ends, with the hashes of the chain, is safe. */
  lemma ExplainedIsSafe(w: E.Wallet, d: seq<Block>, h: nat, blocks: iset<Block>, facts: map<Outpoint, Owned>)
    requires E.Explains(w, d, h, blocks, facts) && d != [] && w.work.rescan == None
    requires w.work.hashes != [] && w.work.start >= w.restore && RH.WindowOf(Window(w.work.start, w.work.hashes), d, w.restore)
    ensures E.Safe(w, blocks, facts)
  {
    assert E.Inv(w, d, h, blocks, facts);
  }
}
