/** A rewind takes back exactly what scanning added: rewinding the scan of a chain gives the scan of
    its prefix, outputs in the same order with the same spend records and timestamps. */
module Rewinding {
  import opened Chain
  import opened Seqs
  import opened Scan

  /** The output differs only by having been seen spent at height `h`. */
  predicate MarkedAt(o: TrackedOutput, p: TrackedOutput, h: nat) {
    p == o.(spent := true, spendingHeight := Some(h), spendingTxid := p.spendingTxid)
  }

  ghost predicate Sighted(ss: seq<Sighting>, image: Image) {
    image != NO_IMAGE && exists s :: s in ss && s.image == image
  }

  /** Sightings touch only the outputs whose key image they carry, and only their spend record. */
  lemma {:induction false} SightingsMark(outputs: Outputs, ss: seq<Sighting>, h: nat)
    ensures forall i :: 0 <= i < |outputs| ==>
      var p := ApplySightings(outputs, ss, h)[i];
      p == outputs[i] || (Sighted(ss, outputs[i].image) && MarkedAt(outputs[i], p, h))
  {
    if ss != [] {
      var init, last := ss[..|ss|-1], ss[|ss|-1];
      assert ss == init + [last];
      SightingsMark(outputs, init, h);
      var mid := ApplySightings(outputs, init, h);
      var k := ImageIndex(mid, last.image);
      forall i | 0 <= i < |outputs|
        ensures var p := ApplySightings(outputs, ss, h)[i];
          p == outputs[i] || (Sighted(ss, outputs[i].image) && MarkedAt(outputs[i], p, h))
      {
        if Sighted(init, outputs[i].image) {
          var s :| s in init && s.image == outputs[i].image;
          assert s in ss;
        }
        if i == k && last.image != NO_IMAGE {
          assert last in ss;
          assert outputs[i].image == last.image;
        }
      }
    }
  }

  ghost predicate TrackedFrom(owned: seq<Owned>, p: TrackedOutput, h: nat, sealed: bool) {
    exists o :: o in owned && p == Tracked(o, h, sealed)
  }

  ghost predicate Unseen(o: Owned, outputs: Outputs) {
    forall p :: p in outputs ==> p.outpoint != o.outpoint
  }

  /** Receiving outputs nobody has seen only appends. */
  lemma {:induction false} ReceiveAppends(r: Receipt, owned: seq<Owned>, h: nat, sealed: bool)
    requires forall o :: o in owned ==> Unseen(o, r.outputs)
    requires forall i, j :: 0 <= i < j < |owned| ==> owned[i].outpoint != owned[j].outpoint
    ensures var s := Receive(r, owned, h, sealed);
      && s.Ok? && |s.value.outputs| >= |r.outputs| && s.value.outputs[..|r.outputs|] == r.outputs
      && (forall j :: |r.outputs| <= j < |s.value.outputs| ==> TrackedFrom(owned, s.value.outputs[j], h, sealed))
  {
    if owned != [] {
      var init, last := owned[..|owned|-1], owned[|owned|-1];
      assert owned == init + [last];
      ReceiveAppends(r, init, h, sealed);
      var s := Receive(r, init, h, sealed).value;
      forall i | 0 <= i < |s.outputs| ensures s.outputs[i].outpoint != last.outpoint {
        if i < |r.outputs| {
          assert s.outputs[i] == r.outputs[i] && r.outputs[i] in r.outputs && last in owned;
        } else {
          assert TrackedFrom(init, s.outputs[i], h, sealed);
        }
      }
      var t := Receive(r, owned, h, sealed).value;
      forall j | |r.outputs| <= j < |t.outputs|
        ensures TrackedFrom(owned, t.outputs[j], h, sealed)
      {
        if j < |s.outputs| {
          assert TrackedFrom(init, s.outputs[j], h, sealed);
          var o :| o in init && s.outputs[j] == Tracked(o, h, sealed);
          assert o in owned;
        } else {
          assert last in owned;
        }
      }
    }
  }

  ghost predicate DistinctOwned(owned: seq<Owned>) {
    forall i, j :: 0 <= i < j < |owned| ==> owned[i].outpoint != owned[j].outpoint
  }

  lemma DistinctCons(o: Owned, rest: seq<Owned>)
    requires DistinctOwned(rest) && forall p :: p in rest ==> p.outpoint != o.outpoint
    ensures DistinctOwned([o] + rest)
  {}

  lemma {:induction false} ScanOwnedDistinct(owned: seq<Owned>, c: Coverage)
    requires DistinctOwned(owned)
    ensures DistinctOwned(ScanOwned(owned, c))
  {
    if owned != [] {
      assert DistinctOwned(owned[1..]);
      ScanOwnedDistinct(owned[1..], c);
      ScanOwnedMembers(owned[1..], c);
      forall p | p in owned[1..] ensures p.outpoint != owned[0].outpoint {
        var i :| 0 <= i < |owned[1..]| && owned[1..][i] == p;
        assert owned[i + 1] == p;
      }
      DistinctCons(owned[0], ScanOwned(owned[1..], c));
      assert [] + ScanOwned(owned[1..], c) == ScanOwned(owned[1..], c);
    }
  }

  /** Attribution fills in spender ids of spends seen at this height and nothing else. */
  lemma AttributeMarks(outputs: Outputs, h: nat)
    ensures forall i :: 0 <= i < |outputs| ==>
      var p := Attribute(outputs, h)[i];
      p == outputs[i] || (Unattributed(outputs[i], h) && MarkedAt(outputs[i], p, h))
  {}

  // ---------------------------------------------------------------------------------------------
  // States produced by scanning a chain
  // ---------------------------------------------------------------------------------------------

  /** A spend is on record exactly when its height is. */
  predicate ScanProduced(o: TrackedOutput) {
    (o.spent <==> o.spendingHeight.Some?) && (!o.spent ==> o.spendingTxid == None)
  }

  ghost predicate ReceivedIn(p: TrackedOutput, b: Block) {
    exists w :: w in b.owned && w.outpoint == p.outpoint
  }

  ghost predicate OutputOnChain(o: TrackedOutput, c: seq<Block>, base: nat) {
    && ScanProduced(o)
    && base <= o.height < base + |c|
    && ReceivedIn(o, c[o.height - base])
    && (o.spendingHeight.Some? ==>
          base <= o.spendingHeight.value < base + |c| && Spends(c[o.spendingHeight.value - base], o.image))
  }

  /** Every output was received in, and every spend seen in, the block of the chain at its height. */
  ghost predicate OnChain(outputs: Outputs, c: seq<Block>, base: nat) {
    forall o :: o in outputs ==> OutputOnChain(o, c, base)
  }

  ghost predicate KeptOrMarked(o: TrackedOutput, p: TrackedOutput, b: Block, h: nat) {
    p == o || (Spends(b, o.image) && MarkedAt(o, p, h))
  }

  ghost predicate NewAt(p: TrackedOutput, b: Block, h: nat) {
    p.height == h && !p.spent && ScanProduced(p) && ReceivedIn(p, b)
  }

  /** What one more block does to a state on the chain: old outputs are at most marked at the new
      height, new ones are at the new height. */
  ghost predicate Extends(before: Outputs, after: Outputs, b: Block, h: nat) {
    && |before| <= |after|
    && (forall i :: 0 <= i < |before| ==> KeptOrMarked(before[i], after[i], b, h))
    && (forall i :: |before| <= i < |after| ==> NewAt(after[i], b, h))
  }

  /** Nothing on the chain below `h` is at height `h`, so reconciling there changes nothing. */
  lemma ReconcileNothing(outputs: Outputs, c: seq<Block>, base: nat, h: nat, txids: set<Txid>, images: set<Image>)
    requires OnChain(outputs, c, base) && h == base + |c|
    ensures Reconcile(outputs, h, txids, images) == outputs
  {
    FilterMapIdentity(Reconciler(h, txids, images), outputs);
  }

  lemma OnChainUnseen(outputs: Outputs, c: seq<Block>, base: nat, b: Block, o: Owned)
    requires OnChain(outputs, c, base) && Consensus(c + [b]) && o in b.owned
    ensures Unseen(o, outputs)
  {
    var d := c + [b];
    forall p | p in outputs ensures o.outpoint != p.outpoint {
      assert OutputOnChain(p, c, base);
      var w :| w in c[p.height - base].owned && w.outpoint == p.outpoint;
      assert w in d[p.height - base].owned && o in d[|c|].owned;
    }
  }

  lemma OnChainStep(outputs: Outputs, rescan: Option<nat>, cfg: Config, c: seq<Block>, base: nat, h: nat, b: Block,
                    facts: map<Outpoint, Owned>)
    requires OnChain(outputs, c, base) && h == base + |c| && Consensus(c + [b]) && GoodBlock(b, facts)
    ensures var r := ApplyOutputs(outputs, rescan, cfg, h, b);
      r.Ok? && Extends(outputs, r.value.outputs, b, h)
  {
    ReconcileNothing(outputs, c, base, h, TxidsOf(b), DecodedImages(b.decoded));
    var marked := ApplySightings(outputs, Sightings(b), h);
    BlockMarks(outputs, b, h);
    var owned := ScanOwned(b.owned, cfg.coverage);
    NewOutputs(outputs, marked, owned, cfg.coverage, c, base, h, b, facts);
    ReceiveExtends(outputs, marked, rescan, owned, cfg.sealed, c, base, h, b);
    ApplyOutputsIs(outputs, rescan, cfg, h, b);
  }

  /** Without anything to reconcile a block is: mark the spends, receive the outputs, attribute. */
  lemma ApplyOutputsIs(outputs: Outputs, rescan: Option<nat>, cfg: Config, h: nat, b: Block)
    requires Reconcile(outputs, h, TxidsOf(b), DecodedImages(b.decoded)) == outputs
    ensures ApplyOutputs(outputs, rescan, cfg, h, b) ==
      match Receive(Receipt(ApplySightings(outputs, Sightings(b), h), rescan), ScanOwned(b.owned, cfg.coverage), h, cfg.sealed)
      case Err => Err
      case Ok(r) => Ok(r.(outputs := Attribute(r.outputs, h)))
  {}

  lemma ReceiveExtends(outputs: Outputs, marked: Outputs, rescan: Option<nat>, owned: seq<Owned>, sealed: bool,
                       c: seq<Block>, base: nat, h: nat, b: Block)
    requires OnChain(outputs, c, base) && h == base + |c|
    requires |marked| == |outputs|
    requires forall i :: 0 <= i < |outputs| ==> KeptOrMarked(outputs[i], marked[i], b, h)
    requires forall o :: o in owned ==> o in b.owned && Unseen(o, marked)
    requires forall i, j :: 0 <= i < j < |owned| ==> owned[i].outpoint != owned[j].outpoint
    ensures var r := Receive(Receipt(marked, rescan), owned, h, sealed);
      r.Ok? && Extends(outputs, Attribute(r.value.outputs, h), b, h)
  {
    ReceiveAppends(Receipt(marked, rescan), owned, h, sealed);
    var r := Receive(Receipt(marked, rescan), owned, h, sealed).value;
    ReceivedExtends(outputs, marked, r.outputs, owned, sealed, c, base, h, b);
  }

  lemma BlockMarks(outputs: Outputs, b: Block, h: nat)
    ensures var marked := ApplySightings(outputs, Sightings(b), h);
      forall i :: 0 <= i < |outputs| ==> KeptOrMarked(outputs[i], marked[i], b, h)
  {
    SightingsMark(outputs, Sightings(b), h);
  }

  lemma NewOutputs(outputs: Outputs, marked: Outputs, owned: seq<Owned>, coverage: Coverage, c: seq<Block>, base: nat, h: nat,
                   b: Block, facts: map<Outpoint, Owned>)
    requires OnChain(outputs, c, base) && h == base + |c| && Consensus(c + [b]) && GoodBlock(b, facts)
    requires |marked| == |outputs|
    requires forall i :: 0 <= i < |outputs| ==> KeptOrMarked(outputs[i], marked[i], b, h)
    requires owned == ScanOwned(b.owned, coverage)
    ensures forall o :: o in owned ==> o in b.owned && Unseen(o, marked)
    ensures forall i, j :: 0 <= i < j < |owned| ==> owned[i].outpoint != owned[j].outpoint
  {
    ScanOwnedMembers(b.owned, coverage);
    ScanOwnedDistinct(b.owned, coverage);
    forall o | o in owned ensures Unseen(o, marked) {
      OnChainUnseen(outputs, c, base, b, o);
      StillUnseen(outputs, marked, b, h, o);
    }
  }

  lemma StillUnseen(outputs: Outputs, marked: Outputs, b: Block, h: nat, o: Owned)
    requires |marked| == |outputs| && Unseen(o, outputs)
    requires forall i :: 0 <= i < |outputs| ==> KeptOrMarked(outputs[i], marked[i], b, h)
    ensures Unseen(o, marked)
  {
    forall p | p in marked ensures p.outpoint != o.outpoint {
      var i :| 0 <= i < |marked| && marked[i] == p;
      assert KeptOrMarked(outputs[i], marked[i], b, h) && outputs[i] in outputs;
    }
  }

  lemma ReceivedExtends(outputs: Outputs, marked: Outputs, received: Outputs, owned: seq<Owned>, sealed: bool,
                        c: seq<Block>, base: nat, h: nat, b: Block)
    requires OnChain(outputs, c, base) && h == base + |c|
    requires |marked| == |outputs| && |received| >= |marked| && received[..|marked|] == marked
    requires forall i :: 0 <= i < |outputs| ==> KeptOrMarked(outputs[i], marked[i], b, h)
    requires forall j :: |marked| <= j < |received| ==> TrackedFrom(owned, received[j], h, sealed)
    requires forall o :: o in owned ==> o in b.owned
    ensures Extends(outputs, Attribute(received, h), b, h)
  {
    AttributeMarks(received, h);
    var after := Attribute(received, h);
    forall i | 0 <= i < |outputs| ensures KeptOrMarked(outputs[i], after[i], b, h) {
      assert received[i] == marked[i] && outputs[i] in outputs && OutputOnChain(outputs[i], c, base);
    }
    forall i | |outputs| <= i < |after| ensures NewAt(after[i], b, h) {
      assert TrackedFrom(owned, received[i], h, sealed);
      var o :| o in owned && received[i] == Tracked(o, h, sealed);
      assert after[i] == received[i] && o in b.owned;
    }
  }

  /** Extending keeps a state on the chain ... */
  lemma ExtendsOnChain(before: Outputs, after: Outputs, c: seq<Block>, base: nat, h: nat, b: Block)
    requires OnChain(before, c, base) && h == base + |c| && Extends(before, after, b, h)
    ensures OnChain(after, c + [b], base)
  {
    var d := c + [b];
    assert d[|c|] == b;
    forall p | p in after ensures OutputOnChain(p, d, base) {
      var i :| 0 <= i < |after| && after[i] == p;
      if i < |before| {
        assert before[i] in before && KeptOrMarked(before[i], p, b, h);
        assert OutputOnChain(before[i], c, base);
      } else {
        assert NewAt(p, b, h);
      }
    }
  }

  /** ... and is invisible to any rewind at or below the new height. */
  lemma ExtendsInvisible(before: Outputs, after: Outputs, c: seq<Block>, base: nat, h: nat, b: Block, k: nat)
    requires OnChain(before, c, base) && h == base + |c| && Extends(before, after, b, h) && Consensus(c + [b])
    requires k <= h
    ensures RewindOutputs(after, k) == RewindOutputs(before, k)
  {
    var kept := after[..|before|];
    forall i | 0 <= i < |before| ensures RewindOne(kept[i], k) == RewindOne(before[i], k) {
      var o := before[i];
      assert o in before && OutputOnChain(o, c, base) && KeptOrMarked(o, kept[i], b, h);
      NotSpentAgain(o, c, base, b);
    }
    FilterMapPointwise(Rewinder(k), kept, before);
    DropTail(after, |before|, k);
  }

  lemma NotSpentAgain(o: TrackedOutput, c: seq<Block>, base: nat, b: Block)
    requires OutputOnChain(o, c, base) && Consensus(c + [b])
    ensures o.spendingHeight.Some? ==> !Spends(b, o.image)
  {
    var d := c + [b];
    assert d[|c|] == b;
    if o.spendingHeight.Some? {
      var i := o.spendingHeight.value - base;
      assert Spends(d[i], o.image);
    }
  }

  lemma {:induction false} DropTail(outputs: Outputs, n: nat, k: nat)
    requires n <= |outputs| && forall i :: n <= i < |outputs| ==> outputs[i].height >= k
    ensures RewindOutputs(outputs, k) == RewindOutputs(outputs[..n], k)
  {
    if n < |outputs| {
      var init := outputs[..|outputs|-1];
      DropTail(init, n, k);
      assert init[..n] == outputs[..n];
    } else {
      assert outputs[..n] == outputs;
    }
  }

  // ---------------------------------------------------------------------------------------------
  // Scanning a chain never fails, and rewinding undoes it
  // ---------------------------------------------------------------------------------------------

  /** Outputs on the chain below `k` are what a rewind to `k` keeps. */
  lemma RewindNothing(outputs: Outputs, c: seq<Block>, base: nat, k: nat)
    requires OnChain(outputs, c, base) && k >= base + |c|
    ensures RewindOutputs(outputs, k) == outputs
  {
    FilterMapIdentity(Rewinder(k), outputs);
  }

  predicate StampsBelow(w: Working) {
    forall k :: k in w.stamps ==> k < w.cursor
  }

  /** `after` holds what `before` held below height `k`. */
  ghost predicate SameBelow(before: Working, after: Working, k: nat) {
    && RewindOutputs(after.outputs, k) == RewindOutputs(before.outputs, k)
    && (forall j :: j < k ==> (j in after.stamps <==> j in before.stamps))
    && (forall j :: j < k && j in before.stamps ==> after.stamps[j] == before.stamps[j])
  }

  lemma ScanStep(v: Working, cfg: Config, c: seq<Block>, base: nat, b: Block, facts: map<Outpoint, Owned>)
    requires v.cursor == base + |c| && OnChain(v.outputs, c, base) && StampsBelow(v)
    requires Consensus(c + [b]) && GoodBlock(b, facts)
    ensures var r := ApplyBlock(v, cfg, b);
      && r.Ok? && r.value.cursor == v.cursor + 1
      && OnChain(r.value.outputs, c + [b], base) && StampsBelow(r.value)
      && forall k :: 0 <= k <= v.cursor ==> SameBelow(v, r.value, k)
  {
    OnChainStep(v.outputs, v.rescan, cfg, c, base, v.cursor, b, facts);
    var r := ApplyBlock(v, cfg, b).value;
    ExtendsOnChain(v.outputs, r.outputs, c, base, v.cursor, b);
    forall k | 0 <= k <= v.cursor ensures SameBelow(v, r, k) {
      ExtendsInvisible(v.outputs, r.outputs, c, base, v.cursor, b, k);
    }
  }

  /** Scanning blocks `d` on top of a state that is on chain `c`, sealed or not, replaying or not. */
  lemma {:induction false} ScanOn(w: Working, cfg: Config, c: seq<Block>, base: nat, d: seq<Block>, facts: map<Outpoint, Owned>)
    requires w.cursor == base + |c| && OnChain(w.outputs, c, base) && StampsBelow(w)
    requires Consensus(c + d) && forall b :: b in d ==> GoodBlock(b, facts)
    ensures var r := ApplyBlocks(w, cfg, d);
      && r.Ok? && r.value.cursor == base + |c| + |d|
      && OnChain(r.value.outputs, c + d, base) && StampsBelow(r.value)
      && forall k :: 0 <= k <= w.cursor ==> SameBelow(w, r.value, k)
  {
    if d == [] {
      assert c + d == c;
    } else {
      var init, b := d[..|d|-1], d[|d|-1];
      var e := c + init;
      assert c + d == e + [b] && (c + d)[..|e|] == e;
      ConsensusPrefix(c + d, |e|);
      ScanOn(w, cfg, c, base, init, facts);
      var v := ApplyBlocks(w, cfg, init).value;
      ScanStep(v, cfg, e, base, b, facts);
      var r := ApplyBlock(v, cfg, b).value;
      forall k | 0 <= k <= w.cursor ensures SameBelow(w, r, k) {
        assert SameBelow(w, v, k) && SameBelow(v, r, k);
      }
    }
  }

  ghost predicate GoodChain(c: seq<Block>, facts: map<Outpoint, Owned>) {
    Consensus(c) && forall b :: b in c ==> GoodBlock(b, facts)
  }

  lemma GoodChainPrefix(c: seq<Block>, k: nat, facts: map<Outpoint, Owned>)
    requires GoodChain(c, facts) && k <= |c|
    ensures GoodChain(c[..k], facts)
  {
    ConsensusPrefix(c, k);
  }

  /** The one-pass scan of a chain succeeds and stays on the chain. */
  lemma FreshScan(restore: nat, coverage: Coverage, c: seq<Block>, facts: map<Outpoint, Owned>)
    requires GoodChain(c, facts)
    ensures var r := Fresh(restore, coverage, c);
      && r.Ok? && r.value.cursor == restore + |c| && r.value.rescan == None
      && OnChain(r.value.outputs, c, restore) && StampsBelow(r.value)
  {
    assert [] + c == c;
    ScanOn(Empty(restore), FreshConfig(restore, coverage), [], restore, c, facts);
    NoRescan(Empty(restore), FreshConfig(restore, coverage), c);
  }

  /** An unsealed scan never asks for a spend rescan. */
  lemma {:induction false} NoRescan(w: Working, cfg: Config, d: seq<Block>)
    requires !cfg.sealed
    ensures ApplyBlocks(w, cfg, d).Ok? ==> ApplyBlocks(w, cfg, d).value.rescan == w.rescan
  {
    if d != [] {
      NoRescan(w, cfg, d[..|d|-1]);
      if ApplyBlocks(w, cfg, d).Ok? {
        var v := ApplyBlocks(w, cfg, d[..|d|-1]).value;
        var b := d[|d|-1];
        NoRescanReceive(Receipt(ApplySightings(Reconciled(v.outputs, cfg, v.cursor, b), Sightings(b), v.cursor), v.rescan),
          ScanOwned(b.owned, cfg.coverage), v.cursor);
      }
    }
  }

  lemma {:induction false} NoRescanReceive(r: Receipt, owned: seq<Owned>, h: nat)
    ensures Receive(r, owned, h, false).Ok? ==> Receive(r, owned, h, false).value.rescan == r.rescan
  {
    if owned != [] {
      NoRescanReceive(r, owned[..|owned|-1], h);
    }
  }

  ghost function ThenBlocks(r: Result<Working>, cfg: Config, bs: seq<Block>): Result<Working> {
    match r case Err => Err case Ok(w) => ApplyBlocks(w, cfg, bs)
  }

  /** A batch boundary leaves no trace: scanning `a + b` is scanning `a`, then `b`. */
  lemma {:induction false} ApplyBlocksSplit(w: Working, cfg: Config, a: seq<Block>, b: seq<Block>)
    ensures ApplyBlocks(w, cfg, a + b) == ThenBlocks(ApplyBlocks(w, cfg, a), cfg, b)
  {
    if b == [] {
      assert a + b == a;
    } else {
      var init, last := b[..|b|-1], b[|b|-1];
      ApplyBlocksSplit(w, cfg, a, init);
      var r := ApplyBlocks(w, cfg, a);
      assert (a + b)[..|a + b| - 1] == a + init && (a + b)[|a + b|-1] == last;
      assert ApplyBlocks(w, cfg, a + b) == ThenBlock(ThenBlocks(r, cfg, init), cfg, last);
      if r.Ok? {
        assert ApplyBlocks(r.value, cfg, b) == ThenBlock(ApplyBlocks(r.value, cfg, init), cfg, last);
      }
    }
  }

  /** Rewinding undoes scanning exactly: the scan of the first `k` blocks is what a rewind of the whole
      scan to that height leaves - the same output sequence, spend records, timestamps, marker and
      cursor. The hash window may be shorter, never different: see RecentHashes. */
  lemma RewindUndoesScan(restore: nat, coverage: Coverage, c: seq<Block>, k: nat, h: nat, facts: map<Outpoint, Owned>)
    requires GoodChain(c, facts) && k <= |c| && h == restore + k
    ensures Fresh(restore, coverage, c).Ok? && Fresh(restore, coverage, c[..k]).Ok?
    ensures var back := Rewind(restore, h, Fresh(restore, coverage, c).value);
            var there := Fresh(restore, coverage, c[..k]).value;
      && back.outputs == there.outputs && back.stamps == there.stamps
      && back.rescan == there.rescan && back.cursor == there.cursor
  {
    var cfg := FreshConfig(restore, coverage);
    var a, b := c[..k], c[k..];
    assert a + b == c;
    GoodChainPrefix(c, k, facts);
    FreshScan(restore, coverage, a, facts);
    FreshScan(restore, coverage, c, facts);
    ApplyBlocksSplit(Empty(restore), cfg, a, b);
    var there, whole := Fresh(restore, coverage, a).value, Fresh(restore, coverage, c).value;
    ScanOn(there, cfg, a, restore, b, facts);
    RewindNothing(there.outputs, a, restore, h);
    BackThere(restore, there, whole, h);
  }

  lemma BackThere(restore: nat, there: Working, whole: Working, h: nat)
    requires there.cursor == h >= restore && SameBelow(there, whole, h) && StampsBelow(there)
    requires RewindOutputs(there.outputs, h) == there.outputs && there.rescan == whole.rescan
    ensures var back := Rewind(restore, h, whole);
      && back.outputs == there.outputs && back.stamps == there.stamps
      && back.rescan == there.rescan && back.cursor == there.cursor
  {}

  /** A rewind followed by a deeper one is the deeper one. */
  lemma RewindComposes(restore: nat, a: nat, b: nat, w: Working)
    requires b <= a
    ensures Rewind(restore, b, Rewind(restore, a, w)) == Rewind(restore, b, w)
  {
    var h, k := if a < restore then restore else a, if b < restore then restore else b;
    RewindOutputsCompose(w.outputs, h, k);
    RewindWindowsCompose(restore, Window(w.start, w.hashes), h, k);
    var mid := Rewind(restore, a, w);
    assert (map j | j in mid.stamps && j < k :: mid.stamps[j]) == (map j | j in w.stamps && j < k :: w.stamps[j]);
  }

  lemma RewindWindowsCompose(restore: nat, w: Window, h: nat, k: nat)
    requires restore <= k <= h
    ensures RewindWindow(restore, RewindWindow(restore, w, h), k) == RewindWindow(restore, w, k)
  {
    if w.hashes != [] && w.start < k && h - w.start < |w.hashes| {
      assert w.hashes[..h - w.start][..k - w.start] == w.hashes[..k - w.start];
    }
  }

  /** In either order two rewinds keep what the deeper one keeps. */
  lemma RewindOutputsCompose(outputs: Outputs, h: nat, k: nat)
    ensures RewindOutputs(RewindOutputs(outputs, h), k) == RewindOutputs(outputs, if h < k then h else k)
  {
    FilterMapComposes(Rewinder(h), Rewinder(k), Rewinder(if h < k then h else k), outputs);
  }

  /** Scan chain `a`, find the fork, rewind, scan the rest of chain `b`: the result is the one-pass scan
      of `b`, whatever the replay heights of the second refresh and the window left by the first. */
  lemma ReorgIsFreshScan(restore: nat, coverage: Coverage, a: seq<Block>, b: seq<Block>, k: nat, h: nat, cfg: Config,
                         facts: map<Outpoint, Owned>)
    requires GoodChain(a, facts) && GoodChain(b, facts) && h == restore + k
    requires k <= |a| && k <= |b| && a[..k] == b[..k]
    requires cfg.restore == restore && cfg.coverage == coverage && !cfg.sealed
    ensures Fresh(restore, coverage, a).Ok? && Fresh(restore, coverage, b).Ok?
    ensures var back := Rewind(restore, h, Fresh(restore, coverage, a).value);
            var redone := ApplyBlocks(back, cfg, b[k..]);
            var there := Fresh(restore, coverage, b).value;
      && redone.Ok? && redone.value.outputs == there.outputs && redone.value.stamps == there.stamps
      && redone.value.rescan == there.rescan && redone.value.cursor == there.cursor
  {
    RewindUndoesScan(restore, coverage, a, k, h, facts);
    GoodChainPrefix(b, k, facts);
    var x, y := b[..k], b[k..];
    FreshScan(restore, coverage, x, facts);
    FreshScan(restore, coverage, b, facts);
    assert x + y == b;
    ApplyBlocksSplit(Empty(restore), FreshConfig(restore, coverage), x, y);
    var back := Rewind(restore, h, Fresh(restore, coverage, a).value);
    var mid := Fresh(restore, coverage, x).value;
    SameScan(back, mid, cfg, FreshConfig(restore, coverage), x, restore, y, facts);
  }

  /** The window and the replay heights do not influence what is found on a chain. */
  lemma {:induction false} SameScan(w: Working, v: Working, cfg: Config, cfg': Config, c: seq<Block>, base: nat,
                                    d: seq<Block>, facts: map<Outpoint, Owned>)
    requires w.outputs == v.outputs && w.stamps == v.stamps && w.rescan == v.rescan && w.cursor == v.cursor == base + |c|
    requires cfg.coverage == cfg'.coverage && cfg.sealed == cfg'.sealed
    requires OnChain(w.outputs, c, base) && StampsBelow(w)
    requires Consensus(c + d) && forall b :: b in d ==> GoodBlock(b, facts)
    ensures var x, y := ApplyBlocks(w, cfg, d), ApplyBlocks(v, cfg', d);
      && x.Ok? && y.Ok? && x.value.outputs == y.value.outputs && x.value.stamps == y.value.stamps
      && x.value.rescan == y.value.rescan && x.value.cursor == y.value.cursor
  {
    if d != [] {
      var init, b := d[..|d|-1], d[|d|-1];
      var e := c + init;
      assert c + d == e + [b] && (c + d)[..|e|] == e;
      ConsensusPrefix(c + d, |e|);
      SameScan(w, v, cfg, cfg', c, base, init, facts);
      ScanOn(w, cfg, c, base, init, facts);
      var x, y := ApplyBlocks(w, cfg, init).value, ApplyBlocks(v, cfg', init).value;
      ReconcileNothing(x.outputs, e, base, x.cursor, TxidsOf(b), DecodedImages(b.decoded));
      ScanStep(x, cfg, e, base, b, facts);
      SameStep(x, y, cfg, cfg', b);
    }
  }

  lemma SameStep(x: Working, y: Working, cfg: Config, cfg': Config, b: Block)
    requires x.outputs == y.outputs && x.stamps == y.stamps && x.rescan == y.rescan && x.cursor == y.cursor
    requires cfg.coverage == cfg'.coverage && cfg.sealed == cfg'.sealed
    requires Reconcile(x.outputs, x.cursor, TxidsOf(b), DecodedImages(b.decoded)) == x.outputs
    requires ApplyBlock(x, cfg, b).Ok?
    ensures var u, v := ApplyBlock(x, cfg, b), ApplyBlock(y, cfg', b);
      && v.Ok? && u.value.outputs == v.value.outputs && u.value.stamps == v.value.stamps
      && u.value.rescan == v.value.rescan && u.value.cursor == v.value.cursor
  {
    assert ApplyOutputs(x.outputs, x.rescan, cfg, x.cursor, b) == ApplyOutputs(y.outputs, y.rescan, cfg', y.cursor, b);
  }
}
