/** Heights nobody scanned below the cursor: opening an open wallet with a lower restore height, and
    importing a cache that ends below the open wallet's restore height. Each leaves the wallet explained by
    a chain exactly when the skipped blocks happen to hold nothing the wallet does not know. */
module Gaps {
  import opened Chain
  import opened Scan
  import opened Cores
  import opened Engine
  import opened OnePass
  import opened Samples
  import P = Replay
  import R = Rewinding
  import RH = RecentHashes

  // ---------------------------------------------------------------------------------------------
  // Skipped blocks in front
  // ---------------------------------------------------------------------------------------------

  /** Everything the outputs record lies at or above `mid`. */
  ghost predicate RecordedFrom(outputs: Outputs, mid: nat) {
    forall o :: o in outputs ==> mid <= o.height && (o.spendingHeight.Some? ==> mid <= o.spendingHeight.value)
  }

  ghost predicate EntryFrom(x: Option<TrackedOutput>, mid: nat) {
    x.Some? ==> mid <= x.value.height && (x.value.spendingHeight.Some? ==> mid <= x.value.spendingHeight.value)
  }

  lemma RecordedEntry(outputs: Outputs, mid: nat, h: nat, p: Outpoint)
    requires RecordedFrom(outputs, mid)
    ensures EntryFrom(Bind(CoreAt(outputs, p), Rewinder(h)), mid)
  {
    EntryOf(outputs, h, p);
  }

  /** The longer chain, seen through its two parts. */
  lemma Parts(e: seq<Block>, d: seq<Block>, base: nat, mid: nat, w: Owned, h: nat)
    requires mid == base + |e|
    ensures CreatedAt(e + d, base, w, h) <==> CreatedAt(e, base, w, h) || CreatedAt(d, mid, w, h)
    ensures SpentAt(e + d, base, w.image, h) <==> SpentAt(e, base, w.image, h) || SpentAt(d, mid, w.image, h)
  {
    if base <= h < mid {
      assert (e + d)[h - base] == e[h - base];
    } else if mid <= h < mid + |d| {
      assert (e + d)[h - base] == d[h - mid];
    }
  }

  lemma NotCreatedInNothing(e: seq<Block>, base: nat, coverage: Coverage, w: Owned)
    requires AllHoldNothing(e, coverage) && Covers(coverage, w)
    ensures forall h: nat :: !CreatedAt(e, base, w, h)
  {
    forall h: nat ensures !CreatedAt(e, base, w, h) {
      if base <= h < base + |e| {
        assert e[h - base] in e && HoldsNothing(e[h - base], coverage);
      }
    }
  }

  /** An output of the later part is not spent in the earlier one. */
  lemma NotSpentBefore(e: seq<Block>, d: seq<Block>, base: nat, mid: nat, w: Owned, k: nat)
    requires mid == base + |e| && Consensus(e + d) && CreatedAt(d, mid, w, k)
    ensures forall h: nat :: !SpentAt(e, base, w.image, h)
  {
    var j := k - base;
    assert (e + d)[j] == d[k - mid];
    forall h: nat ensures !SpentAt(e, base, w.image, h) {
      if base <= h < mid {
        var i := h - base;
        assert (e + d)[i] == e[i];
      }
    }
  }

  lemma TellsPrefixed(e: seq<Block>, d: seq<Block>, base: nat, mid: nat, coverage: Coverage, w: Owned, y: Option<TrackedOutput>)
    requires mid == base + |e| && Consensus(e + d) && AllHoldNothing(e, coverage)
    requires Tells(d, mid, coverage, w, y)
    ensures Tells(e + d, base, coverage, w, y)
  {
    forall h: nat
      ensures CreatedAt(e + d, base, w, h) <==> CreatedAt(e, base, w, h) || CreatedAt(d, mid, w, h)
      ensures SpentAt(e + d, base, w.image, h) <==> SpentAt(e, base, w.image, h) || SpentAt(d, mid, w.image, h)
    {
      Parts(e, d, base, mid, w, h);
    }
    if Covers(coverage, w) {
      NotCreatedInNothing(e, base, coverage, w);
    }
    if y.Some? {
      NotSpentBefore(e, d, base, mid, w, y.value.height);
    }
  }

  lemma TellsSuffix(e: seq<Block>, d: seq<Block>, base: nat, mid: nat, coverage: Coverage, w: Owned, y: Option<TrackedOutput>)
    requires mid == base + |e| && EntryFrom(y, mid)
    requires Tells(e + d, base, coverage, w, y)
    ensures Tells(d, mid, coverage, w, y)
  {
    forall h: nat
      ensures CreatedAt(e + d, base, w, h) <==> CreatedAt(e, base, w, h) || CreatedAt(d, mid, w, h)
      ensures SpentAt(e + d, base, w.image, h) <==> SpentAt(e, base, w.image, h) || SpentAt(d, mid, w.image, h)
    {
      Parts(e, d, base, mid, w, h);
    }
    if Created(d, mid, w) {
      var h: nat :| CreatedAt(d, mid, w, h);
      assert CreatedAt(e + d, base, w, h);
    }
  }

  /** A chain that creates an output it does not show tells on the wallet. */
  lemma ToldMeansNothing(e: seq<Block>, d: seq<Block>, base: nat, mid: nat, coverage: Coverage, w: Owned, y: Option<TrackedOutput>, k: nat)
    requires mid == base + |e| && EntryFrom(y, mid) && Consensus(e + d)
    requires Tells(e + d, base, coverage, w, y) && CreatedAt(e, base, w, k)
    ensures !Covers(coverage, w)
  {
    Parts(e, d, base, mid, w, k);
  }

  lemma GroundedBehind(o: TrackedOutput, e: seq<Block>, d: seq<Block>, base: nat, mid: nat)
    requires mid == base + |e| && mid <= o.height && (o.spendingHeight.Some? ==> mid <= o.spendingHeight.value)
    ensures P.Grounded(o, e + d, base) <==> P.Grounded(o, d, mid)
  {
    if o.spendingHeight.Some? {
      var j := o.spendingHeight.value;
      assert j < mid + |d| ==> (e + d)[j - base] == d[j - mid];
    }
  }

  lemma GroundedParts(outputs: Outputs, e: seq<Block>, d: seq<Block>, base: nat, mid: nat)
    requires mid == base + |e| && RecordedFrom(outputs, mid)
    ensures P.AllGrounded(outputs, e + d, base) <==> P.AllGrounded(outputs, d, mid)
  {
    forall o | o in outputs ensures P.Grounded(o, e + d, base) <==> P.Grounded(o, d, mid) {
      GroundedBehind(o, e, d, base, mid);
    }
  }

  /** Blocks put in front of a chain: the state agrees with the whole exactly when it agrees with the rest
      and the blocks in front hold nothing. */
  lemma AgreesPrefixedIff(outputs: Outputs, e: seq<Block>, d: seq<Block>, base: nat, mid: nat, h: nat, coverage: Coverage,
                          facts: map<Outpoint, Owned>)
    requires GoodFacts(facts) && R.GoodChain(e + d, facts) && R.GoodChain(d, facts)
    requires mid == base + |e| && h == mid + |d|
    requires Well(outputs, facts, coverage) && RecordedFrom(outputs, mid)
    ensures P.Agrees(outputs, e + d, base, h, coverage, facts)
       <==> P.Agrees(outputs, d, mid, h, coverage, facts) && AllHoldNothing(e, coverage)
  {
    GroundedParts(outputs, e, d, base, mid);
    if P.AllGrounded(outputs, d, mid) {
      AgreesIffTold(outputs, e + d, base, h, coverage, facts);
      AgreesIffTold(outputs, d, mid, h, coverage, facts);
      ToldPrefixedIff(outputs, e, d, base, mid, h, coverage, facts);
    }
  }

  lemma ToldPrefixedIff(outputs: Outputs, e: seq<Block>, d: seq<Block>, base: nat, mid: nat, h: nat, coverage: Coverage,
                        facts: map<Outpoint, Owned>)
    requires R.GoodChain(e + d, facts) && mid == base + |e| && RecordedFrom(outputs, mid)
    ensures AllTold(outputs, e + d, base, h, coverage, facts)
       <==> AllTold(outputs, d, mid, h, coverage, facts) && AllHoldNothing(e, coverage)
  {
    forall p | p in facts
      ensures AllHoldNothing(e, coverage) && Tells(d, mid, coverage, facts[p], Bind(CoreAt(outputs, p), Rewinder(h)))
        ==> Tells(e + d, base, coverage, facts[p], Bind(CoreAt(outputs, p), Rewinder(h)))
      ensures Tells(e + d, base, coverage, facts[p], Bind(CoreAt(outputs, p), Rewinder(h)))
        ==> Tells(d, mid, coverage, facts[p], Bind(CoreAt(outputs, p), Rewinder(h)))
    {
      var y := Bind(CoreAt(outputs, p), Rewinder(h));
      RecordedEntry(outputs, mid, h, p);
      if AllHoldNothing(e, coverage) && Tells(d, mid, coverage, facts[p], y) {
        TellsPrefixed(e, d, base, mid, coverage, facts[p], y);
      }
      if Tells(e + d, base, coverage, facts[p], y) {
        TellsSuffix(e, d, base, mid, coverage, facts[p], y);
      }
    }
    if AllTold(outputs, e + d, base, h, coverage, facts) {
      NothingInFront(outputs, e, d, base, mid, h, coverage, facts);
    }
  }

  lemma NothingInFront(outputs: Outputs, e: seq<Block>, d: seq<Block>, base: nat, mid: nat, h: nat, coverage: Coverage,
                       facts: map<Outpoint, Owned>)
    requires R.GoodChain(e + d, facts) && mid == base + |e| && RecordedFrom(outputs, mid)
    requires AllTold(outputs, e + d, base, h, coverage, facts)
    ensures AllHoldNothing(e, coverage)
  {
    forall i: nat, o | i < |e| && o in e[i].owned ensures !Covers(coverage, o) {
      assert (e + d)[i] == e[i];
      InFront(outputs, e, d, base, mid, h, coverage, i, o, facts);
    }
    forall b | b in e ensures HoldsNothing(b, coverage) {
      var i: nat :| i < |e| && e[i] == b;
    }
  }

  lemma InFront(outputs: Outputs, e: seq<Block>, d: seq<Block>, base: nat, mid: nat, h: nat, coverage: Coverage, i: nat, o: Owned,
                facts: map<Outpoint, Owned>)
    requires Consensus(e + d) && mid == base + |e| && RecordedFrom(outputs, mid)
    requires i < |e| && o in e[i].owned && GoodBlock(e[i], facts)
    requires AllTold(outputs, e + d, base, h, coverage, facts)
    ensures !Covers(coverage, o)
  {
    var k, y := base + i, Bind(CoreAt(outputs, o.outpoint), Rewinder(h));
    assert CreatedAt(e, base, o, k) && Tells(e + d, base, coverage, o, y);
    RecordedEntry(outputs, mid, h, o.outpoint);
    ToldMeansNothing(e, d, base, mid, coverage, o, y, k);
  }

  // ---------------------------------------------------------------------------------------------
  // Opening an open wallet with a lower restore height
  // ---------------------------------------------------------------------------------------------

  function Min(a: nat, b: nat): nat {
    if a < b then a else b
  }

  /** The wallet's outputs are what scanning `x` from this height would have found. */
  ghost predicate ExplainedFrom(w: Wallet, restore: nat, x: seq<Block>, h: nat, blocks: iset<Block>, facts: map<Outpoint, Owned>) {
    && h == restore + |x| && Linked(x, restore) && Among(x, blocks)
    && P.Agrees(w.work.outputs, x, restore, h, w.coverage, facts)
  }

  /** Served blocks `e` from the new restore height up to the old one hold nothing for the wallet and link up
      with a chain `d` that explains it. While its cursor is below the old one, `d` is empty. */
  ghost predicate Extends(w: Wallet, restore: nat, e: seq<Block>, d: seq<Block>, mid: nat, h: nat,
                          blocks: iset<Block>, facts: map<Outpoint, Owned>) {
    && mid == Min(w.restore, h) && mid == restore + |e|
    && Linked(e + d, restore) && Among(e + d, blocks)
    && AllHoldNothing(e, w.coverage) && ExplainedFrom(w, mid, d, h, blocks, facts)
  }

  lemma LinkedSuffix(c: seq<Block>, base: nat, n: nat, mid: nat, blocks: iset<Block>)
    requires Linked(c, base) && Among(c, blocks) && n <= |c| && mid == base + n
    ensures Linked(c[n..], mid) && Among(c[n..], blocks)
  {
    var d := c[n..];
    assert forall i :: 0 <= i < |d| ==> d[i] == c[n + i];
    forall i | 0 < i < |d| ensures d[i].previous == d[i-1].hash {
      assert c[n + i].previous == c[n + i - 1].hash;
    }
  }

  /** A safe wallet records nothing below its restore height. */
  ghost predicate RecordsAbove(w: Wallet, facts: map<Outpoint, Owned>) {
    RecordedFrom(w.work.outputs, w.restore) && Well(w.work.outputs, facts, w.coverage)
  }

  lemma SafeRecords(w: Wallet, blocks: iset<Block>, facts: map<Outpoint, Owned>)
    requires Safe(w, blocks, facts)
    ensures RecordsAbove(w, facts)
  {
    var c, h :| Inv(w, c, h, blocks, facts);
    forall o | o in w.work.outputs
      ensures w.restore <= o.height && (o.spendingHeight.Some? ==> w.restore <= o.spendingHeight.value)
    {
      assert P.Grounded(o, c, w.restore);
    }
  }

  lemma ReopenedExplained(w: Wallet, restore: nat, x: seq<Block>, h: nat, blocks: iset<Block>, facts: map<Outpoint, Owned>)
    requires w.work.rescan == None && w.coverage.gap > 0 && restore < w.restore
    requires h == StartHeight(Reopened(w, restore))
    ensures Explains(Reopened(w, restore), x, h, blocks, facts) <==> ExplainedFrom(w, restore, x, h, blocks, facts)
    ensures h == RH.Max(w.work.cursor, restore)
  {}

  /** The two parts of a chain from the lower height. */
  lemma SplitAt(w: Wallet, restore: nat, e: seq<Block>, d: seq<Block>, mid: nat, h: nat, blocks: iset<Block>, facts: map<Outpoint, Owned>)
    requires World(blocks, facts) && RecordsAbove(w, facts)
    requires mid == Min(w.restore, h) && mid == restore + |e| && h == mid + |d|
    ensures ExplainedFrom(w, restore, e + d, h, blocks, facts) <==> Extends(w, restore, e, d, mid, h, blocks, facts)
  {
    if Linked(e + d, restore) && Among(e + d, blocks) {
      WorldChain(e + d, restore, blocks, facts);
      LinkedSuffix(e + d, restore, |e|, mid, blocks);
      assert (e + d)[|e|..] == d;
      WorldChain(d, mid, blocks, facts);
      AgreesPrefixedIff(w.work.outputs, e, d, restore, mid, h, w.coverage, facts);
    }
  }

  ghost predicate Extendable(w: Wallet, restore: nat, h: nat, blocks: iset<Block>, facts: map<Outpoint, Owned>) {
    exists e, d, mid :: Extends(w, restore, e, d, mid, h, blocks, facts)
  }

  lemma Halves(x: seq<Block>, n: nat)
    requires n <= |x|
    ensures x[..n] + x[n..] == x
  {}

  lemma LowerExplains(w: Wallet, restore: nat, e: seq<Block>, d: seq<Block>, mid: nat, h: nat, blocks: iset<Block>, facts: map<Outpoint, Owned>)
    requires World(blocks, facts) && RecordsAbove(w, facts) && ExplainedFrom(w, restore, e + d, h, blocks, facts)
    requires mid == Min(w.restore, h) && mid == restore + |e| && h == mid + |d|
    ensures Extendable(w, restore, h, blocks, facts)
  {
    SplitAt(w, restore, e, d, mid, h, blocks, facts);
  }

  lemma ExtendedExplains(w: Wallet, restore: nat, e: seq<Block>, d: seq<Block>, mid: nat, h: nat, blocks: iset<Block>, facts: map<Outpoint, Owned>)
    requires World(blocks, facts) && RecordsAbove(w, facts) && Extends(w, restore, e, d, mid, h, blocks, facts)
    ensures ExplainedFrom(w, restore, e + d, h, blocks, facts)
  {
    SplitAt(w, restore, e, d, mid, h, blocks, facts);
  }

  lemma LowerExplainedIff(w: Wallet, restore: nat, h: nat, blocks: iset<Block>, facts: map<Outpoint, Owned>)
    requires World(blocks, facts) && RecordsAbove(w, facts) && restore < w.restore && restore <= h
    ensures (exists x :: ExplainedFrom(w, restore, x, h, blocks, facts)) <==> Extendable(w, restore, h, blocks, facts)
  {
    if x :| ExplainedFrom(w, restore, x, h, blocks, facts) {
      var n := Min(w.restore, h) - restore;
      Halves(x, n);
      LowerExplains(w, restore, x[..n], x[n..], Min(w.restore, h), h, blocks, facts);
    }
    if Extendable(w, restore, h, blocks, facts) {
      var e, d, mid :| Extends(w, restore, e, d, mid, h, blocks, facts);
      ExtendedExplains(w, restore, e, d, mid, h, blocks, facts);
    }
  }

  /** An open wallet opened again stays explained by one chain exactly when its restore height is not
      lowered, or the blocks of the new heights - which nobody scans - hold nothing for it. */
  lemma ReopenExplainedIff(w: Wallet, restore: nat, h: nat, blocks: iset<Block>, facts: map<Outpoint, Owned>)
    requires World(blocks, facts) && Safe(w, blocks, facts) && w.coverage.gap > 0
    requires h == StartHeight(Reopened(w, restore))
    ensures (exists d :: Explains(Reopened(w, restore), d, h, blocks, facts))
       <==> restore >= w.restore || Extendable(w, restore, h, blocks, facts)
  {
    NoPendingRescan(w, blocks, facts);
    if restore >= w.restore {
      ReopenSafe(w, restore, blocks, facts);
      SafeMeansOneChain(Reopened(w, restore), blocks, facts);
    } else {
      forall x: seq<Block>
        ensures Explains(Reopened(w, restore), x, h, blocks, facts) <==> ExplainedFrom(w, restore, x, h, blocks, facts)
      {
        ReopenedExplained(w, restore, x, h, blocks, facts);
      }
      SafeRecords(w, blocks, facts);
      LowerExplainedIff(w, restore, h, blocks, facts);
    }
  }

  /** A wallet opened at height 2 and opened again at height 1: block 1 pays it, the cursor stays at 2, and no
      chain explains a wallet that has nothing. */
  lemma ReopenSkipsPayment(w: Wallet, h: nat)
    requires w == Opened(2, 1) && h == StartHeight(Reopened(w, 1))
    ensures h == 2 && World(ONE_PAYMENT, SAMPLE_FACTS) && Safe(w, ONE_PAYMENT, SAMPLE_FACTS)
    ensures !exists d :: Explains(Reopened(w, 1), d, h, ONE_PAYMENT, SAMPLE_FACTS)
  {
    OnePaymentWorld();
    EmptySafe(2, SAMPLE_COVERAGE, ONE_PAYMENT, SAMPLE_FACTS);
    ReopenExplainedIff(w, 1, h, ONE_PAYMENT, SAMPLE_FACTS);
    if Extendable(w, 1, h, ONE_PAYMENT, SAMPLE_FACTS) {
      var e, d, mid :| Extends(w, 1, e, d, mid, h, ONE_PAYMENT, SAMPLE_FACTS);
      FrontAmong(e, d, ONE_PAYMENT);
      PaymentIsSomething(e);
    }
  }

  lemma FrontAmong(e: seq<Block>, d: seq<Block>, blocks: iset<Block>)
    requires Among(e + d, blocks)
    ensures Among(e, blocks) && Among(d, blocks)
  {
    forall b | b in e || b in d ensures b in blocks {
      assert b in e + d;
    }
  }

  // ---------------------------------------------------------------------------------------------
  // Skipped blocks at the end
  // ---------------------------------------------------------------------------------------------

  /** What the wallet retains of an output at or above `k` is what the blocks `e` from `k` on say about it. */
  ghost predicate TellsTail(e: seq<Block>, k: nat, coverage: Coverage, w: Owned, y: Option<TrackedOutput>) {
    && (y.Some? && y.value.height >= k ==> CreatedAt(e, k, w, y.value.height))
    && (Covers(coverage, w) && Created(e, k, w) ==> y.Some? && y.value.height >= k)
    && (y.Some? ==> forall j: nat :: j >= k ==> (SpentAt(e, k, w.image, j) <==> y.value.spendingHeight == Some(j)))
  }

  /** Recorded spends in the skipped heights happened there. */
  ghost predicate SpendGrounded(o: TrackedOutput, e: seq<Block>, k: nat) {
    o.spendingHeight.Some? && k <= o.spendingHeight.value < k + |e| ==> Spends(e[o.spendingHeight.value - k], o.image)
  }

  ghost predicate SpendsGrounded(outputs: Outputs, e: seq<Block>, k: nat) {
    forall o :: o in outputs ==> SpendGrounded(o, e, k)
  }

  ghost predicate Retains(outputs: Outputs, e: seq<Block>, k: nat, h: nat, coverage: Coverage, facts: map<Outpoint, Owned>) {
    && (forall p :: p in facts ==> TellsTail(e, k, coverage, facts[p], Bind(CoreAt(outputs, p), Rewinder(h))))
    && SpendsGrounded(outputs, e, k)
  }

  lemma AllParts(d: seq<Block>, e: seq<Block>, base: nat, k: nat, w: Owned)
    requires k == base + |d|
    ensures forall h: nat :: CreatedAt(d + e, base, w, h) <==> CreatedAt(d, base, w, h) || CreatedAt(e, k, w, h)
    ensures forall h: nat :: SpentAt(d + e, base, w.image, h) <==> SpentAt(d, base, w.image, h) || SpentAt(e, k, w.image, h)
  {
    forall h: nat
      ensures CreatedAt(d + e, base, w, h) <==> CreatedAt(d, base, w, h) || CreatedAt(e, k, w, h)
      ensures SpentAt(d + e, base, w.image, h) <==> SpentAt(d, base, w.image, h) || SpentAt(e, k, w.image, h)
    {
      Parts(d, e, base, k, w, h);
    }
  }

  lemma SameHeight(c: seq<Block>, base: nat, w: Owned, i: nat, j: nat)
    requires Consensus(c) && CreatedAt(c, base, w, i) && CreatedAt(c, base, w, j)
    ensures i == j
  {
    var a, b := i - base, j - base;
    assert w in c[a].owned && w in c[b].owned;
  }

  lemma TellsItsTail(d: seq<Block>, e: seq<Block>, base: nat, k: nat, coverage: Coverage, w: Owned, y: Option<TrackedOutput>)
    requires k == base + |d| && Consensus(d + e) && Tells(d + e, base, coverage, w, y)
    ensures TellsTail(e, k, coverage, w, y)
  {
    AllParts(d, e, base, k, w);
    if Covers(coverage, w) && Created(e, k, w) {
      var j: nat :| CreatedAt(e, k, w, j);
      assert CreatedAt(d + e, base, w, j);
      SameHeight(d + e, base, w, j, y.value.height);
    }
  }

  lemma TellsContinued(d: seq<Block>, e: seq<Block>, base: nat, k: nat, coverage: Coverage, w: Owned, y: Option<TrackedOutput>)
    requires k == base + |d| && Consensus(d + e)
    requires Tells(d, base, coverage, w, Bind(y, Rewinder(k))) && TellsTail(e, k, coverage, w, y)
    requires y.Some? ==> Covers(coverage, w) && Matches(y.value, w) && P.Grounded(y.value, d, base)
    ensures Tells(d + e, base, coverage, w, y)
  {
    AllParts(d, e, base, k, w);
    if y.Some? && y.value.height >= k {
      NotSpentBefore(d, e, base, k, w, y.value.height);
    }
    if y.Some? && y.value.spendingHeight.Some? && y.value.spendingHeight.value < k {
      assert SpentAt(d, base, w.image, y.value.spendingHeight.value);
    }
  }

  lemma RewoundKnown(o: TrackedOutput, y: TrackedOutput, d: seq<Block>, base: nat, h: nat, w: Owned)
    requires Matches(o, w) && P.Grounded(o, d, base) && Rewinder(h)(Core(o)) == Some(y)
    ensures Matches(y, w) && P.Grounded(y, d, base)
  {}

  lemma EntryKnown(outputs: Outputs, d: seq<Block>, base: nat, h: nat, coverage: Coverage, p: Outpoint, facts: map<Outpoint, Owned>)
    requires p in facts && Well(outputs, facts, coverage) && P.AllGrounded(outputs, d, base)
    ensures var y := Bind(CoreAt(outputs, p), Rewinder(h));
      y.Some? ==> Covers(coverage, facts[p]) && Matches(y.value, facts[p]) && P.Grounded(y.value, d, base)
  {
    EntryOf(outputs, h, p);
    var y := Bind(CoreAt(outputs, p), Rewinder(h));
    if y.Some? {
      var o :| o in outputs && o.outpoint == p && Rewinder(h)(Core(o)) == y;
      assert KnownOutput(o, facts, coverage) && P.Grounded(o, d, base);
      RewoundKnown(o, y.value, d, base, h, facts[p]);
    }
  }

  lemma GroundedContinued(outputs: Outputs, d: seq<Block>, e: seq<Block>, base: nat, k: nat)
    requires k == base + |d|
    ensures P.AllGrounded(outputs, d + e, base) <==> P.AllGrounded(outputs, d, base) && SpendsGrounded(outputs, e, k)
  {
    forall o | o in outputs ensures P.Grounded(o, d + e, base) <==> (P.Grounded(o, d, base) && SpendGrounded(o, e, k)) {
      GroundedParted(o, d, e, base, k);
    }
  }

  lemma GroundedParted(o: TrackedOutput, d: seq<Block>, e: seq<Block>, base: nat, k: nat)
    requires k == base + |d|
    ensures P.Grounded(o, d + e, base) <==> (P.Grounded(o, d, base) && SpendGrounded(o, e, k))
  {
    if o.spendingHeight.Some? {
      var j := o.spendingHeight.value;
      assert base <= j < k ==> (d + e)[j - base] == d[j - base];
      assert k <= j < k + |e| ==> (d + e)[j - base] == e[j - k];
    }
  }

  lemma ToldContinuedIff(outputs: Outputs, d: seq<Block>, e: seq<Block>, base: nat, k: nat, h: nat, coverage: Coverage,
                         facts: map<Outpoint, Owned>)
    requires GoodFacts(facts) && k == base + |d| && k <= h && Consensus(d + e)
    requires Well(outputs, facts, coverage) && P.AllGrounded(outputs, d, base)
    requires AllTold(outputs, d, base, k, coverage, facts)
    ensures AllTold(outputs, d + e, base, h, coverage, facts)
       <==> forall p :: p in facts ==> TellsTail(e, k, coverage, facts[p], Bind(CoreAt(outputs, p), Rewinder(h)))
  {
    forall p | p in facts
      ensures Tells(d + e, base, coverage, facts[p], Bind(CoreAt(outputs, p), Rewinder(h)))
         <==> TellsTail(e, k, coverage, facts[p], Bind(CoreAt(outputs, p), Rewinder(h)))
    {
      var y := Bind(CoreAt(outputs, p), Rewinder(h));
      P.RewindersCompose(CoreAt(outputs, p), h, k);
      EntryKnown(outputs, d, base, h, coverage, p, facts);
      if Tells(d + e, base, coverage, facts[p], y) {
        TellsItsTail(d, e, base, k, coverage, facts[p], y);
      }
      if TellsTail(e, k, coverage, facts[p], y) {
        TellsContinued(d, e, base, k, coverage, facts[p], y);
      }
    }
  }

  /** Blocks put behind a chain: the state agrees with the whole exactly when it agrees with the chain and
      what it retains from there on is what the blocks say. */
  lemma AgreesContinuedIff(outputs: Outputs, d: seq<Block>, e: seq<Block>, base: nat, k: nat, h: nat, coverage: Coverage,
                           facts: map<Outpoint, Owned>)
    requires GoodFacts(facts) && R.GoodChain(d + e, facts) && R.GoodChain(d, facts)
    requires k == base + |d| && h == k + |e| && Well(outputs, facts, coverage)
    ensures P.Agrees(outputs, d + e, base, h, coverage, facts)
       <==> P.Agrees(outputs, d, base, k, coverage, facts) && Retains(outputs, e, k, h, coverage, facts)
  {
    GroundedContinued(outputs, d, e, base, k);
    if P.Agrees(outputs, d + e, base, h, coverage, facts) {
      P.AgreesLower(outputs, d + e, base, h, |d|, k, coverage, facts);
      assert (d + e)[..|d|] == d;
    }
    if P.Agrees(outputs, d, base, k, coverage, facts) {
      AgreesIffTold(outputs, d, base, k, coverage, facts);
      ToldContinuedIff(outputs, d, e, base, k, h, coverage, facts);
      if SpendsGrounded(outputs, e, k) {
        AgreesIffTold(outputs, d + e, base, h, coverage, facts);
      }
    }
  }

  // ---------------------------------------------------------------------------------------------
  // Importing a cache that ends below the open wallet's restore height
  // ---------------------------------------------------------------------------------------------

  /** Served blocks `e` follow a chain `d` that explains the cache up to `h`, and say what it retains there. */
  ghost predicate Continues(w: Wallet, d: seq<Block>, e: seq<Block>, k: nat, h: nat, blocks: iset<Block>, facts: map<Outpoint, Owned>) {
    && k == StartHeight(w) && h == k + |e|
    && Linked(d + e, w.restore) && Among(d + e, blocks)
    && Explains(w, d, k, blocks, facts) && Retains(w.work.outputs, e, k, h, w.coverage, facts)
  }

  ghost predicate Continuable(w: Wallet, h: nat, blocks: iset<Block>, facts: map<Outpoint, Owned>) {
    exists d, e, k :: Continues(w, d, e, k, h, blocks, facts)
  }

  lemma ContinueAt(w: Wallet, d: seq<Block>, e: seq<Block>, k: nat, h: nat, blocks: iset<Block>, facts: map<Outpoint, Owned>)
    requires World(blocks, facts) && Well(w.work.outputs, facts, w.coverage)
    requires k == StartHeight(w) && k == w.restore + |d| && h == k + |e|
    ensures ExplainedFrom(w, w.restore, d + e, h, blocks, facts) <==> Continues(w, d, e, k, h, blocks, facts)
  {
    if Linked(d + e, w.restore) && Among(d + e, blocks) {
      WorldChain(d + e, w.restore, blocks, facts);
      LinkedPrefix(d + e, w.restore, |d|);
      assert (d + e)[..|d|] == d;
      FrontAmong(d, e, blocks);
      WorldChain(d, w.restore, blocks, facts);
      AgreesContinuedIff(w.work.outputs, d, e, w.restore, k, h, w.coverage, facts);
    }
  }

  lemma HigherExplains(w: Wallet, d: seq<Block>, e: seq<Block>, k: nat, h: nat, blocks: iset<Block>, facts: map<Outpoint, Owned>)
    requires World(blocks, facts) && Well(w.work.outputs, facts, w.coverage) && ExplainedFrom(w, w.restore, d + e, h, blocks, facts)
    requires k == StartHeight(w) && k == w.restore + |d| && h == k + |e|
    ensures Continuable(w, h, blocks, facts)
  {
    ContinueAt(w, d, e, k, h, blocks, facts);
  }

  lemma HigherExplainedIff(w: Wallet, h: nat, blocks: iset<Block>, facts: map<Outpoint, Owned>)
    requires World(blocks, facts) && Well(w.work.outputs, facts, w.coverage) && StartHeight(w) <= h
    ensures (exists x :: ExplainedFrom(w, w.restore, x, h, blocks, facts)) <==> Continuable(w, h, blocks, facts)
  {
    if x :| ExplainedFrom(w, w.restore, x, h, blocks, facts) {
      var n := StartHeight(w) - w.restore;
      Halves(x, n);
      HigherExplains(w, x[..n], x[n..], StartHeight(w), h, blocks, facts);
    }
    if Continuable(w, h, blocks, facts) {
      var d, e, k :| Continues(w, d, e, k, h, blocks, facts);
      ContinueAt(w, d, e, k, h, blocks, facts);
    }
  }

  lemma ImportedExplained(cache: Wallet, live: Wallet, x: seq<Block>, h: nat, blocks: iset<Block>, facts: map<Outpoint, Owned>)
    requires cache.restore <= live.restore && !ImportGrows(cache, live) && h == StartHeight(Import(cache, live))
    ensures Explains(Import(cache, live), x, h, blocks, facts) <==> ExplainedFrom(cache, cache.restore, x, h, blocks, facts)
    ensures h == RH.Max(StartHeight(cache), live.restore)
  {}

  /** An import that widens coverage starts over, so that nothing needs explaining yet. */
  lemma GrownImportExplained(cache: Wallet, live: Wallet, blocks: iset<Block>, facts: map<Outpoint, Owned>)
    requires World(blocks, facts) && Safe(cache, blocks, facts) && ImportGrows(cache, live)
    ensures var p := Import(cache, live); StartHeight(p) == cache.restore && Explains(p, [], cache.restore, blocks, facts)
  {
    var c, h :| Inv(cache, c, h, blocks, facts);
    var p := Import(cache, live);
    P.AgreesGrown(cache.work.outputs, c, cache.restore, h, cache.coverage, p.coverage, facts);
  }

  /** An imported wallet is explained by one chain exactly when the cache reaches the open wallet's restore
      height, or its coverage has to grow, or the blocks nobody scanned - from the cache's cursor to that
      restore height - say just what the cache retains there. */
  lemma ImportExplainedIff(cache: Wallet, live: Wallet, h: nat, blocks: iset<Block>, facts: map<Outpoint, Owned>)
    requires World(blocks, facts) && Safe(cache, blocks, facts) && cache.restore <= live.restore
    requires h == StartHeight(Import(cache, live))
    ensures (exists d :: Explains(Import(cache, live), d, h, blocks, facts))
       <==> StartHeight(cache) >= live.restore || ImportGrows(cache, live) || Continuable(cache, h, blocks, facts)
  {
    if ImportGrows(cache, live) {
      GrownImportExplained(cache, live, blocks, facts);
    } else {
      forall x: seq<Block>
        ensures Explains(Import(cache, live), x, h, blocks, facts) <==> ExplainedFrom(cache, cache.restore, x, h, blocks, facts)
      {
        ImportedExplained(cache, live, x, h, blocks, facts);
      }
      ImportedExplained(cache, live, [], h, blocks, facts);
      SafeRecords(cache, blocks, facts);
      HigherExplainedIff(cache, h, blocks, facts);
      SafeMeansOneChain(cache, blocks, facts);
    }
  }

  ghost predicate RecordedBelow(outputs: Outputs, k: nat) {
    forall o :: o in outputs ==> o.height < k && (o.spendingHeight.Some? ==> o.spendingHeight.value < k)
  }

  /** No block of `e` spends a tracked output. */
  ghost predicate SpendsNone(e: seq<Block>, outputs: Outputs) {
    forall b, o :: b in e && o in outputs ==> !Spends(b, o.image)
  }

  lemma NothingAt(e: seq<Block>, k: nat, coverage: Coverage, w: Owned)
    requires Covers(coverage, w) && AllHoldNothing(e, coverage)
    ensures !Created(e, k, w)
  {
    NotCreatedInNothing(e, k, coverage, w);
  }

  lemma NothingMeansTail(outputs: Outputs, e: seq<Block>, k: nat, h: nat, coverage: Coverage, p: Outpoint, facts: map<Outpoint, Owned>)
    requires Well(outputs, facts, coverage) && RecordedBelow(outputs, k) && p in facts
    requires AllHoldNothing(e, coverage) && SpendsNone(e, outputs)
    ensures TellsTail(e, k, coverage, facts[p], Bind(CoreAt(outputs, p), Rewinder(h)))
  {
    EntryOf(outputs, h, p);
    var y, w := Bind(CoreAt(outputs, p), Rewinder(h)), facts[p];
    if Covers(coverage, w) {
      NothingAt(e, k, coverage, w);
    }
    if y.Some? {
      var o :| o in outputs && o.outpoint == p && Rewinder(h)(Core(o)) == y;
      assert KnownOutput(o, facts, coverage);
      forall j: nat ensures !SpentAt(e, k, w.image, j) {
        if k <= j < k + |e| {
          assert e[j - k] in e;
        }
      }
    }
  }

  lemma TailPaysNothing(outputs: Outputs, e: seq<Block>, k: nat, h: nat, coverage: Coverage, i: nat, facts: map<Outpoint, Owned>)
    requires RecordedBelow(outputs, k) && i < |e| && GoodBlock(e[i], facts)
    requires Retains(outputs, e, k, h, coverage, facts)
    ensures HoldsNothing(e[i], coverage)
  {
    forall w | w in e[i].owned ensures !Covers(coverage, w) {
      EntryOf(outputs, h, w.outpoint);
      assert CreatedAt(e, k, w, k + i);
    }
  }

  lemma TailSpendsNone(outputs: Outputs, e: seq<Block>, k: nat, h: nat, coverage: Coverage, i: nat, o: TrackedOutput, facts: map<Outpoint, Owned>)
    requires Well(outputs, facts, coverage) && RecordedBelow(outputs, k) && k <= h && i < |e| && o in outputs
    requires Retains(outputs, e, k, h, coverage, facts)
    ensures !Spends(e[i], o.image)
  {
    CoreAtMember(outputs, o);
    assert KnownOutput(o, facts, coverage);
    assert TellsTail(e, k, coverage, facts[o.outpoint], Bind(CoreAt(outputs, o.outpoint), Rewinder(h)));
    assert SpentAt(e, k, o.image, k + i) <==> Spends(e[i], o.image);
  }

  /** With nothing retained from the cache's cursor on, that means: the skipped blocks pay no watched
      address and spend none of the outputs. */
  lemma SettledRetainsIff(outputs: Outputs, e: seq<Block>, k: nat, h: nat, coverage: Coverage, facts: map<Outpoint, Owned>)
    requires Well(outputs, facts, coverage) && RecordedBelow(outputs, k) && k <= h
    requires forall b :: b in e ==> GoodBlock(b, facts)
    ensures Retains(outputs, e, k, h, coverage, facts) <==> AllHoldNothing(e, coverage) && SpendsNone(e, outputs)
  {
    if Retains(outputs, e, k, h, coverage, facts) {
      forall b | b in e ensures HoldsNothing(b, coverage) && forall o :: o in outputs ==> !Spends(b, o.image) {
        var i: nat :| i < |e| && e[i] == b;
        TailPaysNothing(outputs, e, k, h, coverage, i, facts);
        forall o | o in outputs ensures !Spends(b, o.image) {
          TailSpendsNone(outputs, e, k, h, coverage, i, o, facts);
        }
      }
    }
    if AllHoldNothing(e, coverage) && SpendsNone(e, outputs) {
      forall p | p in facts ensures TellsTail(e, k, coverage, facts[p], Bind(CoreAt(outputs, p), Rewinder(h))) {
        NothingMeansTail(outputs, e, k, h, coverage, p, facts);
      }
    }
  }

  /** Importing the empty cache of a wallet restored at height 1 into one restored at height 2: block 1 pays,
      the cursor goes to 2, and no chain explains a wallet that has nothing. */
  lemma ImportSkipsPayment(cache: Wallet, live: Wallet, h: nat)
    requires cache == Opened(1, 1) && live == Opened(2, 1) && h == StartHeight(Import(cache, live))
    ensures h == 2 && World(ONE_PAYMENT, SAMPLE_FACTS)
    ensures Safe(cache, ONE_PAYMENT, SAMPLE_FACTS) && Safe(live, ONE_PAYMENT, SAMPLE_FACTS)
    ensures !exists d :: Explains(Import(cache, live), d, h, ONE_PAYMENT, SAMPLE_FACTS)
  {
    OnePaymentWorld();
    EmptySafe(1, SAMPLE_COVERAGE, ONE_PAYMENT, SAMPLE_FACTS);
    EmptySafe(2, SAMPLE_COVERAGE, ONE_PAYMENT, SAMPLE_FACTS);
    ImportExplainedIff(cache, live, h, ONE_PAYMENT, SAMPLE_FACTS);
    if Continuable(cache, h, ONE_PAYMENT, SAMPLE_FACTS) {
      var d, e, k :| Continues(cache, d, e, k, h, ONE_PAYMENT, SAMPLE_FACTS);
      FrontAmong(d, e, ONE_PAYMENT);
      SampleGoodBlocks(e);
      SettledRetainsIff([], e, 1, 2, SAMPLE_COVERAGE, SAMPLE_FACTS);
      PaymentIsSomething(e);
    }
  }
}
