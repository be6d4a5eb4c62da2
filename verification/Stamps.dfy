/** Which heights get a timestamp: those of blocks that pay the wallet or spend what an earlier block paid it. */
module Stamps {
  import opened Chain
  import opened Scan
  import C = Cores
  import OP = OnePass
  import P = Replay
  import R = Rewinding

  ghost predicate Pays(b: Block, coverage: Coverage) {
    exists w :: w in b.owned && Covers(coverage, w)
  }

  /** The block at height `k` spends an output that a lower block of the chain paid to a watched address. */
  ghost predicate SpendsBack(c: seq<Block>, base: nat, coverage: Coverage, k: nat) {
    exists w, i: nat :: i < k && OP.CreatedAt(c, base, w, i) && Covers(coverage, w) && OP.SpentAt(c, base, w.image, k)
  }

  ghost predicate Stamped(c: seq<Block>, base: nat, coverage: Coverage, k: nat) {
    && base <= k < base + |c| && c[k - base].timestamp > 0
    && (Pays(c[k - base], coverage) || SpendsBack(c, base, coverage, k))
  }

  lemma TouchedByReceipt(c: seq<Block>, base: nat, coverage: Coverage, outputs: Outputs, w: Owned, h: nat)
    requires Consensus(c) && OP.Tells(c, base, coverage, w, C.CoreAt(outputs, w.outpoint))
    requires Covers(coverage, w) && OP.CreatedAt(c, base, w, h)
    ensures Touches(outputs, h)
  {
    C.CoreAtSource(outputs, w.outpoint);
    assert OP.Created(c, base, w);
    var x := C.CoreAt(outputs, w.outpoint).value;
    var o :| o in outputs && C.CoreAt(outputs, w.outpoint) == Some(C.Core(o));
    SameHeight(c, base, w, x.height, h);
  }

  lemma SameHeight(c: seq<Block>, base: nat, w: Owned, i: nat, j: nat)
    requires Consensus(c) && OP.CreatedAt(c, base, w, i) && OP.CreatedAt(c, base, w, j)
    ensures i == j
  {}

  lemma TouchedBySpend(c: seq<Block>, base: nat, coverage: Coverage, outputs: Outputs, w: Owned, i: nat, h: nat)
    requires OP.Tells(c, base, coverage, w, C.CoreAt(outputs, w.outpoint))
    requires Covers(coverage, w) && OP.CreatedAt(c, base, w, i) && OP.SpentAt(c, base, w.image, h)
    ensures Touches(outputs, h)
  {
    C.CoreAtSource(outputs, w.outpoint);
    assert OP.Created(c, base, w);
    var o :| o in outputs && C.CoreAt(outputs, w.outpoint) == Some(C.Core(o));
    assert C.CoreAt(outputs, w.outpoint).value.spendingHeight == Some(h);
  }

  lemma TouchTells(c: seq<Block>, base: nat, coverage: Coverage, w: Owned, o: TrackedOutput, h: nat)
    requires Consensus(c) && base <= h < base + |c| && OP.Tells(c, base, coverage, w, Some(C.Core(o)))
    requires o.height == h || o.spendingHeight == Some(h)
    ensures Pays(c[h - base], coverage) || SpendsBack(c, base, coverage, h)
  {
    if o.height != h {
      assert OP.SpentAt(c, base, w.image, h) && OP.CreatedAt(c, base, w, o.height);
      Earlier(c, base, w, o.height, h);
    }
  }

  lemma Earlier(c: seq<Block>, base: nat, w: Owned, i: nat, k: nat)
    requires Consensus(c) && OP.CreatedAt(c, base, w, i) && OP.SpentAt(c, base, w.image, k)
    ensures i < k
  {
    var a, b := i - base, k - base;
    assert w in c[a].owned && Spends(c[b], w.image);
  }

  lemma CreatedIsFact(c: seq<Block>, base: nat, w: Owned, i: nat, facts: map<Outpoint, Owned>)
    requires R.GoodChain(c, facts) && OP.CreatedAt(c, base, w, i)
    ensures w.outpoint in facts && facts[w.outpoint] == w
  {
    assert c[i - base] in c && GoodBlock(c[i - base], facts);
  }

  lemma TouchIsTold(base: nat, coverage: Coverage, c: seq<Block>, h: nat, o: TrackedOutput, facts: map<Outpoint, Owned>)
    requires GoodFacts(facts) && R.GoodChain(c, facts) && base <= h < base + |c|
    requires Fresh(base, coverage, c).Ok? && o in Fresh(base, coverage, c).value.outputs && (o.height == h || o.spendingHeight == Some(h))
    ensures Pays(c[h - base], coverage) || SpendsBack(c, base, coverage, h)
  {
    P.FreshWell(base, coverage, c, facts);
    C.CoreAtMember(Fresh(base, coverage, c).value.outputs, o);
    assert C.KnownOutput(o, facts, coverage);
    OP.ScanTellsTheChain(base, coverage, c, facts[o.outpoint], facts);
    TouchTells(c, base, coverage, facts[o.outpoint], o, h);
  }

  lemma PaymentTouches(base: nat, coverage: Coverage, c: seq<Block>, h: nat, w: Owned, facts: map<Outpoint, Owned>)
    requires GoodFacts(facts) && R.GoodChain(c, facts) && Fresh(base, coverage, c).Ok?
    requires OP.CreatedAt(c, base, w, h) && Covers(coverage, w)
    ensures Touches(Fresh(base, coverage, c).value.outputs, h)
  {
    CreatedIsFact(c, base, w, h, facts);
    OP.ScanTellsTheChain(base, coverage, c, w, facts);
    TouchedByReceipt(c, base, coverage, Fresh(base, coverage, c).value.outputs, w, h);
  }

  lemma SpendTouches(base: nat, coverage: Coverage, c: seq<Block>, h: nat, w: Owned, i: nat, facts: map<Outpoint, Owned>)
    requires GoodFacts(facts) && R.GoodChain(c, facts) && Fresh(base, coverage, c).Ok?
    requires OP.CreatedAt(c, base, w, i) && Covers(coverage, w) && OP.SpentAt(c, base, w.image, h)
    ensures Touches(Fresh(base, coverage, c).value.outputs, h)
  {
    CreatedIsFact(c, base, w, i, facts);
    OP.ScanTellsTheChain(base, coverage, c, w, facts);
    TouchedBySpend(c, base, coverage, Fresh(base, coverage, c).value.outputs, w, i, h);
  }

  /** The scan of a chain touches a height exactly when its block pays the wallet or spends back. */
  lemma {:induction false} TouchesIff(base: nat, coverage: Coverage, c: seq<Block>, h: nat, facts: map<Outpoint, Owned>)
    requires GoodFacts(facts) && R.GoodChain(c, facts) && base <= h < base + |c| && Fresh(base, coverage, c).Ok?
    ensures Touches(Fresh(base, coverage, c).value.outputs, h) <==> Pays(c[h - base], coverage) || SpendsBack(c, base, coverage, h)
  {
    var outputs := Fresh(base, coverage, c).value.outputs;
    if o :| o in outputs && (o.height == h || o.spendingHeight == Some(h)) {
      TouchIsTold(base, coverage, c, h, o, facts);
    }
    if w :| w in c[h - base].owned && Covers(coverage, w) {
      PaymentTouches(base, coverage, c, h, w, facts);
    }
    if w, i: nat :| i < h && OP.CreatedAt(c, base, w, i) && Covers(coverage, w) && OP.SpentAt(c, base, w.image, h) {
      SpendTouches(base, coverage, c, h, w, i, facts);
    }
  }

  lemma StampedEarlier(init: seq<Block>, b: Block, base: nat, coverage: Coverage, k: nat)
    requires base <= k < base + |init|
    ensures Stamped(init + [b], base, coverage, k) <==> Stamped(init, base, coverage, k)
  {
    var c := init + [b];
    assert forall i :: 0 <= i < |init| ==> c[i] == init[i];
    if w, i: nat :| i < k && OP.CreatedAt(c, base, w, i) && Covers(coverage, w) && OP.SpentAt(c, base, w.image, k) {
      assert OP.CreatedAt(init, base, w, i) && OP.SpentAt(init, base, w.image, k);
    }
    if w, i: nat :| i < k && OP.CreatedAt(init, base, w, i) && Covers(coverage, w) && OP.SpentAt(init, base, w.image, k) {
      assert OP.CreatedAt(c, base, w, i) && OP.SpentAt(c, base, w.image, k);
    }
  }

  ghost predicate StampsAre(stamps: map<nat, nat>, c: seq<Block>, base: nat, coverage: Coverage) {
    forall k: nat :: (k in stamps <==> Stamped(c, base, coverage, k)) && (k in stamps ==> stamps[k] == c[k - base].timestamp)
  }

  /** The timestamps a scan keeps: a height has one exactly when its block has a time and pays a watched address or
      spends what a lower block of the chain paid to one, and it is that block's. */
  lemma {:induction false} StampsTellTheChain(base: nat, coverage: Coverage, c: seq<Block>, facts: map<Outpoint, Owned>)
    requires GoodFacts(facts) && R.GoodChain(c, facts)
    ensures Fresh(base, coverage, c).Ok? && StampsAre(Fresh(base, coverage, c).value.stamps, c, base, coverage)
  {
    R.FreshScan(base, coverage, c, facts);
    if c == [] {
      assert forall k: nat :: !Stamped(c, base, coverage, k);
    } else {
      var init, b := c[..|c|-1], c[|c|-1];
      assert init + [b] == c;
      R.GoodChainPrefix(c, |init|, facts);
      StampsTellTheChain(base, coverage, init, facts);
      R.FreshScan(base, coverage, init, facts);
      var before, after := Fresh(base, coverage, init).value, Fresh(base, coverage, c).value;
      assert ApplyBlock(before, FreshConfig(base, coverage), b) == Ok(after);
      StampedNext(before, FreshConfig(base, coverage), b, after);
      TouchesIff(base, coverage, c, before.cursor, facts);
      StampsOneMore(before.stamps, after.stamps, init, b, c, base, coverage, before.cursor);
    }
  }

  lemma StampsOneMore(before: map<nat, nat>, after: map<nat, nat>, init: seq<Block>, b: Block, c: seq<Block>, base: nat, coverage: Coverage, h: nat)
    requires c == init + [b] && h == base + |init| && StampsAre(before, init, base, coverage)
    requires after == if b.timestamp > 0 && (Pays(b, coverage) || SpendsBack(c, base, coverage, h)) then before[h := b.timestamp] else before
    ensures StampsAre(after, c, base, coverage)
  {
    forall k: nat ensures (k in after <==> Stamped(c, base, coverage, k)) && (k in after ==> after[k] == c[k - base].timestamp) {
      assert k in before <==> Stamped(init, base, coverage, k);
      if base <= k < h {
        StampedEarlier(init, b, base, coverage, k);
      }
    }
  }

  lemma {:induction false} StampedNext(before: Working, cfg: Config, b: Block, after: Working)
    requires ApplyBlock(before, cfg, b) == Ok(after)
    ensures after.stamps == if b.timestamp > 0 && Touches(after.outputs, before.cursor) then before.stamps[before.cursor := b.timestamp] else before.stamps
  {}
}
