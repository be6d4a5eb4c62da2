/** Coverage replay: scanning again from the restore height while keeping the history of an earlier,
    smaller or since-abandoned scan ends in the fresh scan of the new chain. */
module Replay {
  import opened Chain
  import opened Scan
  import opened Cores
  import R = Rewinding
  import S = Seqs

  /** A known output whose spend record below height `h` comes from the chain `c`. */
  ghost predicate Grounded(o: TrackedOutput, c: seq<Block>, base: nat) {
    && base <= o.height
    && (o.spent <==> o.spendingHeight.Some?)
    && (o.spendingHeight.Some? ==>
          base <= o.spendingHeight.value
          && (o.spendingHeight.value < base + |c| ==> Spends(c[o.spendingHeight.value - base], o.image)))
  }

  ghost predicate AllGrounded(outputs: Outputs, c: seq<Block>, base: nat) {
    forall o :: o in outputs ==> Grounded(o, c, base)
  }

  /** The state relates to chain `c` the way the scan promises: it is made of known outputs, and what
      a rewind to the end of `c` keeps of it is, entry by entry, the one-pass scan of `c`. Anything else
      is retained history at or above that height. */
  ghost predicate Agrees(outputs: Outputs, c: seq<Block>, base: nat, h: nat, coverage: Coverage, facts: map<Outpoint, Owned>) {
    && h == base + |c|
    && Well(outputs, facts, coverage)
    && AllGrounded(outputs, c, base)
    && Fresh(base, coverage, c).Ok?
    && Well(Fresh(base, coverage, c).value.outputs, facts, coverage)
    && forall p :: p in facts ==>
         Bind(CoreAt(outputs, p), Rewinder(h)) == CoreAt(Fresh(base, coverage, c).value.outputs, p)
  }

  /** Retained history lies only at heights the refresh will reconcile. */
  ghost predicate LeftoversIn(outputs: Outputs, h: nat, replay: set<nat>) {
    forall o :: o in outputs ==>
      && (o.height >= h ==> o.height in replay)
      && (o.spendingHeight.Some? && o.spendingHeight.value >= h ==> o.spendingHeight.value in replay)
  }

  ghost predicate LeftoverIn(x: Option<TrackedOutput>, h: nat, replay: set<nat>) {
    x.Some? ==>
      && (x.value.height >= h ==> x.value.height in replay)
      && (x.value.spendingHeight.Some? && x.value.spendingHeight.value >= h ==> x.value.spendingHeight.value in replay)
  }

  /** The block does not spend an output before or in the block that creates it. */
  lemma SpentLater(c: seq<Block>, b: Block, w: Owned)
    requires Consensus(c + [b]) && w in b.owned
    ensures !Spends(b, w.image)
    ensures forall i :: 0 <= i < |c| ==> !Spends(c[i], w.image)
  {
    var d := c + [b];
    assert d[|c|] == b;
    assert !Spends(d[|c|], w.image);
    forall i | 0 <= i < |c| ensures !Spends(c[i], w.image) {
      assert d[i] == c[i];
    }
  }

  /** What a block says about one output: whether its transaction is mined there, whether the scanner
      reports it, whether its key image is spent there. */
  datatype News = News(mined: bool, found: bool, spends: bool)

  /** `BlockAt` in those terms; `replayed` says whether the height is reconciled. */
  function EntryStep(x: Option<TrackedOutput>, replayed: bool, n: News, w: Owned, h: nat): Option<TrackedOutput> {
    var kept :=
      if x == None || !replayed then x
      else if x.value.height == h && !n.mined then None
      else if x.value.spendingHeight == Some(h) && !n.spends then Some(ClearSpend(x.value))
      else x;
    ReceiveEntry(MarkIf(kept, n.spends, h), n.found, w, h)
  }

  function ReceiveEntry(x: Option<TrackedOutput>, found: bool, w: Owned, h: nat): Option<TrackedOutput> {
    if !found then x
    else if x.Some? then Some(x.value.(height := h))
    else Some(Tracked(w, h, false))
  }

  ghost function NewsOf(b: Block, w: Owned, coverage: Coverage): News {
    News(w.outpoint.txid in TxidsOf(b), w in b.owned && Covers(coverage, w), Spends(b, w.image))
  }

  lemma BlockAtIsEntryStep(x: Option<TrackedOutput>, w: Owned, cfg: Config, h: nat, b: Block, facts: map<Outpoint, Owned>)
    requires GoodFacts(facts) && GoodBlock(b, facts) && w.outpoint in facts && facts[w.outpoint] == w
    requires x.Some? ==> Matches(x.value, w)
    ensures BlockAt(x, cfg, h, b, w) == EntryStep(x, h in cfg.replay, NewsOf(b, w, cfg.coverage), w, h)
  {
    ReconcileImages(b, facts, w.image);
  }

  /** Heights of an entry relative to the chain scanned so far. */
  ghost predicate EntryOk(x: Option<TrackedOutput>, w: Owned) {
    x.Some? ==> Matches(x.value, w) && x.value.spendingTxid == None && (x.value.spent <==> x.value.spendingHeight.Some?)
  }

  /** One entry of the replay and the same entry of the fresh scan, one block further: `x` is the
      replay's, `f` the fresh scan's, and they agree below `h`. */
  lemma EntryStepAgrees(x: Option<TrackedOutput>, f: Option<TrackedOutput>, replayed: bool, n: News, w: Owned, h: nat, next: nat)
    requires next == h + 1 && EntryOk(x, w) && f == Bind(x, Rewinder(h))
    requires n.found ==> n.mined && !n.spends
    requires n.mined && x.Some? ==> n.found
    requires x.Some? && (x.value.height == h || x.value.spendingHeight == Some(h)) ==> replayed
    requires n.found && x.Some? && x.value.spendingHeight.Some? ==> x.value.spendingHeight.value >= h
    ensures EntryStep(f, false, n, w, h) == Bind(EntryStep(x, replayed, n, w, h), Rewinder(next))
    ensures EntryOk(EntryStep(x, replayed, n, w, h), w)
  {}

  /** Leftovers of the entry stay where they were or vanish. */
  lemma EntryStepLeftovers(x: Option<TrackedOutput>, replayed: bool, n: News, w: Owned, h: nat, next: nat, replay: set<nat>)
    requires LeftoverIn(x, h, replay) && next == h + 1
    ensures LeftoverIn(EntryStep(x, replayed, n, w, h), next, replay)
  {}

  ghost predicate EntryGrounded(x: Option<TrackedOutput>, c: seq<Block>, base: nat) {
    x.Some? ==> Grounded(x.value, c, base)
  }

  lemma EntryStepGrounded(x: Option<TrackedOutput>, replayed: bool, w: Owned, c: seq<Block>, base: nat, h: nat, b: Block, n: News)
    requires h == base + |c| && EntryOk(x, w) && EntryGrounded(x, c, base)
    requires n.spends == Spends(b, w.image)
    requires x.Some? && x.value.spendingHeight == Some(h) ==> replayed
    ensures EntryGrounded(EntryStep(x, replayed, n, w, h), c + [b], base)
  {
    var d := c + [b];
    assert d[|c|] == b && forall i :: 0 <= i < |c| ==> d[i] == c[i];
  }

  /** One block keeps one entry in agreement. */
  lemma BlockKeepsEntry(x: Option<TrackedOutput>, f: Option<TrackedOutput>, w: Owned, cfg: Config, plain: Config,
                        c: seq<Block>, base: nat, h: nat, next: nat, b: Block, facts: map<Outpoint, Owned>)
    requires h == base + |c| && next == h + 1 && Consensus(c + [b]) && GoodFacts(facts) && GoodBlock(b, facts)
    requires w.outpoint in facts && facts[w.outpoint] == w
    requires cfg.coverage == plain.coverage && plain.replay == {}
    requires EntryOk(x, w) && EntryGrounded(x, c, base) && (x.Some? ==> Covers(cfg.coverage, w))
    requires f == Bind(x, Rewinder(h)) && LeftoverIn(x, h, cfg.replay)
    ensures var y := BlockAt(x, cfg, h, b, w);
      && BlockAt(f, plain, h, b, w) == Bind(y, Rewinder(next))
      && EntryGrounded(y, c + [b], base)
      && LeftoverIn(y, next, cfg.replay)
  {
    var n := NewsOf(b, w, cfg.coverage);
    var replayed := h in cfg.replay;
    if w in b.owned {
      SpentLater(c, b, w);
    }
    BlockAtIsEntryStep(x, w, cfg, h, b, facts);
    BlockAtIsEntryStep(f, w, plain, h, b, facts);
    EntryStepAgrees(x, f, replayed, n, w, h, next);
    EntryStepLeftovers(x, replayed, n, w, h, next, cfg.replay);
    EntryStepGrounded(x, replayed, w, c, base, h, b, n);
  }

  lemma EntryFacts(outputs: Outputs, p: Outpoint, c: seq<Block>, base: nat, h: nat, coverage: Coverage,
                   facts: map<Outpoint, Owned>, replay: set<nat>)
    requires Well(outputs, facts, coverage) && AllGrounded(outputs, c, base) && LeftoversIn(outputs, h, replay)
    requires p in facts && GoodFacts(facts)
    ensures EntryOk(CoreAt(outputs, p), facts[p]) && EntryGrounded(CoreAt(outputs, p), c, base)
    ensures LeftoverIn(CoreAt(outputs, p), h, replay)
    ensures CoreAt(outputs, p).Some? ==> Covers(coverage, facts[p])
  {
    CoreAtSource(outputs, p);
    if CoreAt(outputs, p).Some? {
      var o :| o in outputs && o.outpoint == p && CoreAt(outputs, p) == Some(Core(o));
      assert KnownOutput(o, facts, coverage);
      assert Grounded(o, c, base);
      assert Grounded(Core(o), c, base);
    }
  }

  lemma FromEntries(outputs: Outputs, c: seq<Block>, base: nat, h: nat, coverage: Coverage,
                    facts: map<Outpoint, Owned>, replay: set<nat>)
    requires Well(outputs, facts, coverage)
    requires forall p :: p in facts ==> EntryGrounded(CoreAt(outputs, p), c, base) && LeftoverIn(CoreAt(outputs, p), h, replay)
    ensures AllGrounded(outputs, c, base) && LeftoversIn(outputs, h, replay)
  {
    forall o | o in outputs
      ensures Grounded(o, c, base)
      ensures (o.height >= h ==> o.height in replay)
        && (o.spendingHeight.Some? && o.spendingHeight.value >= h ==> o.spendingHeight.value in replay)
    {
      CoreAtMember(outputs, o);
      assert KnownOutput(o, facts, coverage);
      assert EntryGrounded(CoreAt(outputs, o.outpoint), c, base);
      assert LeftoverIn(CoreAt(outputs, o.outpoint), h, replay);
    }
  }

  /** The one-pass scan, one block further. */
  lemma FreshStep(base: nat, coverage: Coverage, c: seq<Block>, h: nat, b: Block, facts: map<Outpoint, Owned>)
    requires GoodFacts(facts) && R.GoodChain(c + [b], facts) && h == base + |c|
    requires Fresh(base, coverage, c).Ok? && Well(Fresh(base, coverage, c).value.outputs, facts, coverage)
    ensures var once := Fresh(base, coverage, c).value; var next := Fresh(base, coverage, c + [b]);
      && next.Ok? && Well(next.value.outputs, facts, coverage)
      && forall p :: p in facts ==>
           CoreAt(next.value.outputs, p) == BlockAt(CoreAt(once.outputs, p), FreshConfig(base, coverage), h, b, facts[p])
  {
    assert b in c + [b];
    var d := c + [b];
    assert d[..|d|-1] == c && d[|d|-1] == b;
    R.GoodChainPrefix(d, |c|, facts);
    R.FreshScan(base, coverage, c, facts);
    var once := Fresh(base, coverage, c).value;
    assert once.cursor == h;
    BlockActsLocally(once.outputs, once.rescan, FreshConfig(base, coverage), h, b, facts);
    assert Fresh(base, coverage, d) == ApplyBlock(once, FreshConfig(base, coverage), b);
  }

  lemma EntriesStep(outputs: Outputs, once: Outputs, after: Outputs, there: Outputs, cfg: Config, c: seq<Block>, base: nat, h: nat, next: nat, b: Block,
                    facts: map<Outpoint, Owned>)
    requires h == base + |c| && next == h + 1 && Well(outputs, facts, cfg.coverage) && AllGrounded(outputs, c, base)
    requires LeftoversIn(outputs, h, cfg.replay) && GoodFacts(facts) && GoodBlock(b, facts) && Consensus(c + [b])
    requires forall p :: p in facts ==> Bind(CoreAt(outputs, p), Rewinder(h)) == CoreAt(once, p)
    requires forall p :: p in facts ==> CoreAt(after, p) == BlockAt(CoreAt(outputs, p), cfg, h, b, facts[p])
    requires forall p :: p in facts ==> CoreAt(there, p) == BlockAt(CoreAt(once, p), FreshConfig(base, cfg.coverage), h, b, facts[p])
    ensures forall p :: p in facts ==> Bind(CoreAt(after, p), Rewinder(next)) == CoreAt(there, p)
    ensures forall p :: p in facts ==> EntryGrounded(CoreAt(after, p), c + [b], base) && LeftoverIn(CoreAt(after, p), next, cfg.replay)
  {
    forall p | p in facts
      ensures Bind(CoreAt(after, p), Rewinder(next)) == CoreAt(there, p)
      ensures EntryGrounded(CoreAt(after, p), c + [b], base) && LeftoverIn(CoreAt(after, p), next, cfg.replay)
    {
      EntryFacts(outputs, p, c, base, h, cfg.coverage, facts, cfg.replay);
      BlockKeepsEntry(CoreAt(outputs, p), CoreAt(once, p), facts[p], cfg, FreshConfig(base, cfg.coverage), c, base, h, next, b, facts);
    }
  }

  /** Replay and fresh scan stay in step over one block. */
  lemma ReplayStep(outputs: Outputs, rescan: Option<nat>, cfg: Config, c: seq<Block>, base: nat, h: nat, next: nat, b: Block,
                   facts: map<Outpoint, Owned>)
    requires next == h + 1 && Agrees(outputs, c, base, h, cfg.coverage, facts) && LeftoversIn(outputs, h, cfg.replay) && !cfg.sealed
    requires GoodFacts(facts) && R.GoodChain(c + [b], facts)
    ensures var r := ApplyOutputs(outputs, rescan, cfg, h, b);
      && r.Ok? && Agrees(r.value.outputs, c + [b], base, next, cfg.coverage, facts)
      && LeftoversIn(r.value.outputs, next, cfg.replay)
  {
    assert b in c + [b];
    FreshStep(base, cfg.coverage, c, h, b, facts);
    var once, there := Fresh(base, cfg.coverage, c).value.outputs, Fresh(base, cfg.coverage, c + [b]).value.outputs;
    BlockActsLocally(outputs, rescan, cfg, h, b, facts);
    var after := ApplyOutputs(outputs, rescan, cfg, h, b).value.outputs;
    EntriesStep(outputs, once, after, there, cfg, c, base, h, next, b, facts);
    FromEntries(after, c + [b], base, next, cfg.coverage, facts, cfg.replay);
  }

  // ---------------------------------------------------------------------------------------------
  // Agreement is stable: rewinding, stepping back, growing coverage
  // ---------------------------------------------------------------------------------------------

  lemma {:induction false} FreshWell(base: nat, coverage: Coverage, c: seq<Block>, facts: map<Outpoint, Owned>)
    requires GoodFacts(facts) && R.GoodChain(c, facts)
    ensures Fresh(base, coverage, c).Ok? && Well(Fresh(base, coverage, c).value.outputs, facts, coverage)
  {
    if c != [] {
      var init, b := c[..|c|-1], c[|c|-1];
      assert init + [b] == c;
      R.GoodChainPrefix(c, |init|, facts);
      FreshWell(base, coverage, init, facts);
      FreshStep(base, coverage, init, base + |init|, b, facts);
    }
  }

  /** The fresh scan of a prefix, entry by entry. */
  lemma FreshPrefixAt(base: nat, coverage: Coverage, c: seq<Block>, k: nat, h: nat, p: Outpoint, facts: map<Outpoint, Owned>)
    requires GoodFacts(facts) && R.GoodChain(c, facts) && k <= |c| && h == base + k
    ensures Fresh(base, coverage, c).Ok? && Fresh(base, coverage, c[..k]).Ok?
    ensures CoreAt(Fresh(base, coverage, c[..k]).value.outputs, p)
         == Bind(CoreAt(Fresh(base, coverage, c).value.outputs, p), Rewinder(h))
  {
    FreshWell(base, coverage, c, facts);
    R.RewindUndoesScan(base, coverage, c, k, h, facts);
    RewindAt(Fresh(base, coverage, c).value.outputs, h, p);
  }

  lemma RewindersCompose(x: Option<TrackedOutput>, h: nat, k: nat)
    ensures Bind(Bind(x, Rewinder(h)), Rewinder(k)) == Bind(x, Rewinder(if h < k then h else k))
  {}

  /** Seen from a lower height the state agrees with the shorter chain. */
  lemma AgreesLower(outputs: Outputs, c: seq<Block>, base: nat, h: nat, n: nat, k: nat, coverage: Coverage, facts: map<Outpoint, Owned>)
    requires Agrees(outputs, c, base, h, coverage, facts) && GoodFacts(facts) && R.GoodChain(c, facts)
    requires n <= |c| && k == base + n
    ensures Agrees(outputs, c[..n], base, k, coverage, facts)
  {
    var d := c[..n];
    R.GoodChainPrefix(c, n, facts);
    FreshWell(base, coverage, d, facts);
    forall o | o in outputs ensures Grounded(o, d, base) {
      assert Grounded(o, c, base);
    }
    forall p | p in facts
      ensures Bind(CoreAt(outputs, p), Rewinder(k)) == CoreAt(Fresh(base, coverage, d).value.outputs, p)
    {
      FreshPrefixAt(base, coverage, c, n, k, p, facts);
      RewindersCompose(CoreAt(outputs, p), h, k);
    }
  }

  /** Rewinding at or above the agreed height only drops retained history. */
  lemma AgreesRewound(outputs: Outputs, c: seq<Block>, base: nat, h: nat, k: nat, coverage: Coverage, facts: map<Outpoint, Owned>)
    requires Agrees(outputs, c, base, h, coverage, facts) && h <= k
    ensures Agrees(RewindOutputs(outputs, k), c, base, h, coverage, facts)
  {
    FilterMapWell(Rewinder(k), outputs, facts, coverage);
    RewoundGrounded(outputs, c, base, k);
    var back := RewindOutputs(outputs, k);
    forall p | p in facts ensures Bind(CoreAt(back, p), Rewinder(h)) == CoreAt(Fresh(base, coverage, c).value.outputs, p) {
      RewindAt(outputs, k, p);
      RewindersCompose(CoreAt(outputs, p), k, h);
    }
  }

  lemma RewoundGrounded(outputs: Outputs, c: seq<Block>, base: nat, k: nat)
    requires AllGrounded(outputs, c, base)
    ensures AllGrounded(RewindOutputs(outputs, k), c, base)
  {
    forall q | q in RewindOutputs(outputs, k) ensures Grounded(q, c, base) {
      S.FilterMapMembers(Rewinder(k), outputs, q);
      var o :| o in outputs && Rewinder(k)(o) == Some(q);
      assert Grounded(o, c, base);
    }
  }

  ghost predicate Widens(c: Coverage, d: Coverage) {
    c.accounts <= d.accounts && c.gap <= d.gap
  }

  /** After coverage grew, nothing is known to be scanned: the state agrees with the empty chain. */
  lemma AgreesGrown(outputs: Outputs, c: seq<Block>, base: nat, h: nat, coverage: Coverage, wider: Coverage, facts: map<Outpoint, Owned>)
    requires Agrees(outputs, c, base, h, coverage, facts) && Widens(coverage, wider)
    ensures Agrees(outputs, [], base, base, wider, facts)
  {
    forall o | o in outputs ensures KnownOutput(o, facts, wider) && Grounded(o, [], base) {
      assert KnownOutput(o, facts, coverage) && Grounded(o, c, base);
    }
    forall p | p in facts ensures Bind(CoreAt(outputs, p), Rewinder(base)) == None {
      CoreAtSource(outputs, p);
      if CoreAt(outputs, p).Some? {
        var o :| o in outputs && o.outpoint == p && CoreAt(outputs, p) == Some(Core(o));
        assert Grounded(o, c, base);
      }
    }
  }

  // ---------------------------------------------------------------------------------------------
  // A whole replay
  // ---------------------------------------------------------------------------------------------

  lemma ReplayBlock(v: Working, cfg: Config, c: seq<Block>, base: nat, b: Block, facts: map<Outpoint, Owned>)
    requires Agrees(v.outputs, c, base, v.cursor, cfg.coverage, facts) && LeftoversIn(v.outputs, v.cursor, cfg.replay) && !cfg.sealed
    requires GoodFacts(facts) && R.GoodChain(c + [b], facts)
    ensures var r := ApplyBlock(v, cfg, b);
      && r.Ok? && r.value.cursor == v.cursor + 1
      && Agrees(r.value.outputs, c + [b], base, r.value.cursor, cfg.coverage, facts)
      && LeftoversIn(r.value.outputs, r.value.cursor, cfg.replay)
  {
    var next := v.cursor + 1;
    ReplayStep(v.outputs, v.rescan, cfg, c, base, v.cursor, next, b, facts);
    assert ApplyBlock(v, cfg, b).value.cursor == next;
  }

  lemma {:induction false} ReplayBlocks(w: Working, cfg: Config, c: seq<Block>, base: nat, d: seq<Block>, facts: map<Outpoint, Owned>)
    requires Agrees(w.outputs, c, base, w.cursor, cfg.coverage, facts) && LeftoversIn(w.outputs, w.cursor, cfg.replay) && !cfg.sealed
    requires GoodFacts(facts) && R.GoodChain(c + d, facts)
    ensures var r := ApplyBlocks(w, cfg, d);
      && r.Ok? && r.value.cursor == w.cursor + |d|
      && Agrees(r.value.outputs, c + d, base, r.value.cursor, cfg.coverage, facts)
      && LeftoversIn(r.value.outputs, r.value.cursor, cfg.replay)
  {
    if d == [] {
      assert c + d == c;
    } else {
      var init, b := d[..|d|-1], d[|d|-1];
      var e := c + init;
      assert c + d == e + [b] && (c + d)[..|e|] == e;
      R.GoodChainPrefix(c + d, |e|, facts);
      ReplayBlocks(w, cfg, c, base, init, facts);
      var v := ApplyBlocks(w, cfg, init).value;
      ReplayBlock(v, cfg, e, base, b, facts);
      assert ApplyBlocks(w, cfg, d) == ApplyBlock(v, cfg, b);
    }
  }

  /** The heights at which a refresh keeps an eye on retained history. */
  function HistoryHeights(outputs: Outputs): set<nat> {
    (set o | o in outputs :: o.height) + (set o | o in outputs && o.spendingHeight.Some? :: o.spendingHeight.value)
  }

  /** The retained history as a set of (output data, height, spent, spending height). */
  function CoreSet(outputs: Outputs): set<TrackedOutput> {
    set o | o in outputs :: Core(o)
  }

  /** Once the replay has passed every retained height, nothing of the old history is left. */
  lemma NoLeftovers(outputs: Outputs, c: seq<Block>, base: nat, h: nat, coverage: Coverage, facts: map<Outpoint, Owned>, replay: set<nat>)
    requires Agrees(outputs, c, base, h, coverage, facts) && LeftoversIn(outputs, h, replay)
    requires forall k :: k in replay ==> k < h
    ensures CoreSet(outputs) == CoreSet(Fresh(base, coverage, c).value.outputs)
  {
    var there := Fresh(base, coverage, c).value.outputs;
    forall o | o in outputs ensures Core(o) in CoreSet(there) {
      CoreAtMember(outputs, o);
      assert KnownOutput(o, facts, coverage);
      var p := o.outpoint;
      assert Rewinder(h)(Core(o)) == Some(Core(o));
      assert CoreAt(there, p) == Some(Core(o));
      CoreAtSource(there, p);
    }
    forall q | q in there ensures Core(q) in CoreSet(outputs) {
      CoreAtMember(there, q);
      assert KnownOutput(q, facts, coverage);
      var p := q.outpoint;
      assert Bind(CoreAt(outputs, p), Rewinder(h)) == Some(Core(q));
      CoreAtSource(outputs, p);
      var o :| o in outputs && o.outpoint == p && CoreAt(outputs, p) == Some(Core(o));
      assert Rewinder(h)(Core(o)) == Some(Core(o));
    }
  }

  /** Coverage replay refines a fresh scan. Whatever chain `a` and coverage the retained history came
      from, scanning chain `d` from the restore height under a wider coverage, with the heights of that
      history reconciled, ends - once every such height is passed - in exactly the outputs, heights and
      spends of a fresh scan of `d` under the wider coverage. */
  lemma CoverageReplayIsFreshScan(restore: nat, narrow: Coverage, wide: Coverage, a: seq<Block>, d: seq<Block>,
                                  w: Working, cfg: Config, facts: map<Outpoint, Owned>)
    requires GoodFacts(facts) && R.GoodChain(a, facts) && R.GoodChain(d, facts) && Widens(narrow, wide)
    requires Fresh(restore, narrow, a).Ok? && w.outputs == Fresh(restore, narrow, a).value.outputs && w.cursor == restore
    requires cfg == Config(restore, wide, false, HistoryHeights(w.outputs))
    requires forall k :: k in HistoryHeights(w.outputs) ==> k < restore + |d|
    ensures ApplyBlocks(w, cfg, d).Ok? && Fresh(restore, wide, d).Ok?
    ensures CoreSet(ApplyBlocks(w, cfg, d).value.outputs) == CoreSet(Fresh(restore, wide, d).value.outputs)
  {
    var h := restore + |a|;
    FreshAgrees(restore, narrow, a, h, facts);
    AgreesGrown(w.outputs, a, restore, h, narrow, wide, facts);
    FreshWell(restore, wide, d, facts);
    assert [] + d == d;
    ReplayBlocks(w, cfg, [], restore, d, facts);
    var r := ApplyBlocks(w, cfg, d).value;
    NoLeftovers(r.outputs, d, restore, r.cursor, wide, facts, cfg.replay);
  }

  lemma FreshAgrees(restore: nat, coverage: Coverage, c: seq<Block>, h: nat, facts: map<Outpoint, Owned>)
    requires GoodFacts(facts) && R.GoodChain(c, facts) && h == restore + |c|
    ensures Fresh(restore, coverage, c).Ok?
    ensures Agrees(Fresh(restore, coverage, c).value.outputs, c, restore, h, coverage, facts)
  {
    FreshWell(restore, coverage, c, facts);
    R.FreshScan(restore, coverage, c, facts);
    var outputs := Fresh(restore, coverage, c).value.outputs;
    forall o | o in outputs ensures Grounded(o, c, restore) {
      assert R.OutputOnChain(o, c, restore);
    }
    forall p | p in facts ensures Bind(CoreAt(outputs, p), Rewinder(h)) == CoreAt(outputs, p) {
      R.RewindNothing(outputs, c, restore, h);
      RewindAt(outputs, h, p);
    }
  }
}
