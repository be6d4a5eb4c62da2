/** Scanning seen one outpoint at a time.

    A coverage replay keeps outputs it already knows where they are in the list, so its result matches a
    fresh scan as a set, not as a sequence. `CoreAt` is the entry at an outpoint without the
    spending transaction id (a replay keeps an id it already has); this module shows that a block acts on
    every outpoint separately. */
module Cores {
  import opened Chain
  import opened Seqs
  import opened Scan
  import R = Rewinding

  function Core(o: TrackedOutput): TrackedOutput {
    o.(spendingTxid := None)
  }

  function CoreAt(outputs: Outputs, p: Outpoint): Option<TrackedOutput> {
    var i := OutpointIndex(outputs, p);
    if i < |outputs| then Some(Core(outputs[i])) else None
  }

  /** The working state's representation: distinct outpoints, each carrying the data of its output. */
  ghost predicate Distinct(outputs: Outputs) {
    forall i, j :: 0 <= i < j < |outputs| ==> outputs[i].outpoint != outputs[j].outpoint
  }

  ghost predicate Matches(o: TrackedOutput, w: Owned) {
    o.outpoint == w.outpoint && o.key == w.key && o.image == w.image && o.amount == w.amount
    && o.timelock == w.timelock && o.coinbase == w.coinbase && o.major == w.major && o.minor == w.minor
  }

  ghost predicate KnownOutput(o: TrackedOutput, facts: map<Outpoint, Owned>, coverage: Coverage) {
    o.outpoint in facts && Matches(o, facts[o.outpoint]) && Covers(coverage, facts[o.outpoint])
  }

  ghost predicate Well(outputs: Outputs, facts: map<Outpoint, Owned>, coverage: Coverage) {
    Distinct(outputs) && forall o :: o in outputs ==> KnownOutput(o, facts, coverage)
  }

  lemma CoreAtMember(outputs: Outputs, o: TrackedOutput)
    requires Distinct(outputs) && o in outputs
    ensures CoreAt(outputs, o.outpoint) == Some(Core(o))
  {
    var i :| 0 <= i < |outputs| && outputs[i] == o;
  }

  lemma CoreAtSource(outputs: Outputs, p: Outpoint)
    ensures CoreAt(outputs, p).Some? ==> exists o :: o in outputs && o.outpoint == p && CoreAt(outputs, p) == Some(Core(o))
    ensures CoreAt(outputs, p) == None ==> forall o :: o in outputs ==> o.outpoint != p
  {
    var i := OutpointIndex(outputs, p);
    if i < |outputs| { assert outputs[i] in outputs; }
  }

  /** Outputs that agree on outpoints and cores place by place have the same entries. */
  lemma CoreAtPointwise(a: Outputs, b: Outputs, p: Outpoint)
    requires |a| == |b| && forall i :: 0 <= i < |a| ==> Core(a[i]) == Core(b[i])
    ensures CoreAt(a, p) == CoreAt(b, p)
  {
    assert forall i :: 0 <= i < |a| ==> a[i].outpoint == Core(a[i]).outpoint && b[i].outpoint == Core(b[i]).outpoint;
    var i, j := OutpointIndex(a, p), OutpointIndex(b, p);
    assert i <= j && j <= i by {
      if i < |a| { assert b[i].outpoint == p; }
      if j < |b| { assert a[j].outpoint == p; }
    }
  }

  // ---------------------------------------------------------------------------------------------
  // Partial maps: rewinding and reconciling
  // ---------------------------------------------------------------------------------------------

  function Bind(x: Option<TrackedOutput>, f: TrackedOutput -> Option<TrackedOutput>): Option<TrackedOutput> {
    match x case None => None case Some(o) => f(o)
  }

  ghost predicate Local(f: TrackedOutput -> Option<TrackedOutput>) {
    forall o :: (f(o).Some? ==> f(o).value.outpoint == o.outpoint)
      && f(Core(o)) == match f(o) case None => None case Some(q) => Some(Core(q))
  }

  lemma {:induction false} FilterMapAt(f: TrackedOutput -> Option<TrackedOutput>, outputs: Outputs, p: Outpoint)
    requires Local(f) && Distinct(outputs)
    ensures CoreAt(FilterMap(f, outputs), p) == Bind(CoreAt(outputs, p), f)
  {
    if outputs != [] {
      var init, last := outputs[..|outputs|-1], outputs[|outputs|-1];
      FilterMapAt(f, init, p);
      SnocAt(init, last, p);
      assert init + [last] == outputs;
      match f(last)
      case None => assert FilterMap(f, outputs) == FilterMap(f, init);
      case Some(q) => SnocAt(FilterMap(f, init), q, p);
    }
  }

  lemma SnocAt(outputs: Outputs, last: TrackedOutput, p: Outpoint)
    ensures CoreAt(outputs + [last], p) ==
      if CoreAt(outputs, p).Some? then CoreAt(outputs, p) else if last.outpoint == p then Some(Core(last)) else None
  {
    var all := outputs + [last];
    var i, j := OutpointIndex(outputs, p), OutpointIndex(all, p);
    assert all[|outputs|] == last;
    if i < |outputs| {
      assert all[i].outpoint == p;
      assert all[j] == outputs[j];
    } else {
      assert forall k :: 0 <= k < |outputs| ==> all[k] == outputs[k];
    }
  }

  lemma FilterMapWell(f: TrackedOutput -> Option<TrackedOutput>, outputs: Outputs, facts: map<Outpoint, Owned>, coverage: Coverage)
    requires Local(f) && Well(outputs, facts, coverage)
    requires forall o :: f(o).Some? && KnownOutput(o, facts, coverage) ==> KnownOutput(f(o).value, facts, coverage)
    ensures Well(FilterMap(f, outputs), facts, coverage)
  {
    forall q | q in FilterMap(f, outputs) ensures KnownOutput(q, facts, coverage) {
      FilterMapMembers(f, outputs, q);
      var o :| o in outputs && f(o) == Some(q);
    }
    FilterMapDistinct(f, outputs);
  }

  lemma {:induction false} FilterMapDistinct(f: TrackedOutput -> Option<TrackedOutput>, outputs: Outputs)
    requires Local(f) && Distinct(outputs)
    ensures Distinct(FilterMap(f, outputs))
  {
    if outputs != [] {
      var init, last := outputs[..|outputs|-1], outputs[|outputs|-1];
      FilterMapDistinct(f, init);
      var kept := FilterMap(f, init);
      forall i | 0 <= i < |kept| ensures kept[i].outpoint != last.outpoint {
        assert kept[i] in kept;
        FilterMapMembers(f, init, kept[i]);
        var o :| o in init && f(o) == Some(kept[i]);
      }
    }
  }

  lemma RewindAt(outputs: Outputs, h: nat, p: Outpoint)
    requires Distinct(outputs)
    ensures CoreAt(RewindOutputs(outputs, h), p) == Bind(CoreAt(outputs, p), Rewinder(h))
  {
    FilterMapAt(Rewinder(h), outputs, p);
  }

  // ---------------------------------------------------------------------------------------------
  // Spends
  // ---------------------------------------------------------------------------------------------

  function Mark(o: TrackedOutput, h: nat): TrackedOutput {
    o.(spent := true, spendingHeight := Some(h))
  }

  /** With one output per key image, an output is marked exactly when its image is sighted. */
  lemma {:induction false} SightingsHit(outputs: Outputs, ss: seq<Sighting>, h: nat)
    requires forall i, j :: 0 <= i < j < |outputs| ==> outputs[i].image != outputs[j].image
    ensures forall i :: 0 <= i < |outputs| ==>
      Core(ApplySightings(outputs, ss, h)[i]) == if R.Sighted(ss, outputs[i].image) then Mark(Core(outputs[i]), h) else Core(outputs[i])
  {
    if ss != [] {
      var init, last := ss[..|ss|-1], ss[|ss|-1];
      assert ss == init + [last];
      SightingsHit(outputs, init, h);
      R.SightingsMark(outputs, init, h);
      var mid, res := ApplySightings(outputs, init, h), ApplySightings(outputs, ss, h);
      var k := ImageIndex(mid, last.image);
      forall i | 0 <= i < |outputs|
        ensures Core(res[i]) == if R.Sighted(ss, outputs[i].image) then Mark(Core(outputs[i]), h) else Core(outputs[i])
      {
        assert mid[i].image == outputs[i].image;
        if last.image != NO_IMAGE && outputs[i].image == last.image {
          assert last in ss && R.Sighted(ss, outputs[i].image);
          assert k == i by {
            assert mid[k].image == outputs[k].image == last.image;
          }
        } else {
          assert R.Sighted(ss, outputs[i].image) <==> R.Sighted(init, outputs[i].image) by {
            if R.Sighted(init, outputs[i].image) {
              var s :| s in init && s.image == outputs[i].image;
              assert s in ss;
            }
          }
          assert res[i] == mid[i];
        }
      }
    }
  }

  lemma ImagesDistinct(outputs: Outputs, facts: map<Outpoint, Owned>, coverage: Coverage)
    requires Well(outputs, facts, coverage) && GoodFacts(facts)
    ensures forall i, j :: 0 <= i < j < |outputs| ==> outputs[i].image != outputs[j].image
    ensures forall i, j :: 0 <= i < j < |outputs| ==> outputs[i].key != outputs[j].key
  {
    forall i, j | 0 <= i < j < |outputs| ensures outputs[i].image != outputs[j].image && outputs[i].key != outputs[j].key {
      assert outputs[i] in outputs && outputs[j] in outputs;
      assert KnownOutput(outputs[i], facts, coverage) && KnownOutput(outputs[j], facts, coverage);
    }
  }

  function MarkIf(x: Option<TrackedOutput>, spent: bool, h: nat): Option<TrackedOutput> {
    if x.Some? && spent then Some(Mark(x.value, h)) else x
  }

  lemma SightingsAt(outputs: Outputs, b: Block, h: nat, p: Outpoint, facts: map<Outpoint, Owned>, coverage: Coverage)
    requires Well(outputs, facts, coverage) && GoodFacts(facts)
    ensures var marked := ApplySightings(outputs, Sightings(b), h);
      && Well(marked, facts, coverage)
      && CoreAt(marked, p) == MarkIf(CoreAt(outputs, p), CoreAt(outputs, p).Some? && Spends(b, CoreAt(outputs, p).value.image), h)
  {
    ImagesDistinct(outputs, facts, coverage);
    SightingsHit(outputs, Sightings(b), h);
    R.SightingsMark(outputs, Sightings(b), h);
    var marked := ApplySightings(outputs, Sightings(b), h);
    forall o | o in marked ensures KnownOutput(o, facts, coverage) {
      var i :| 0 <= i < |marked| && marked[i] == o;
      assert outputs[i] in outputs && KnownOutput(outputs[i], facts, coverage);
    }
    var i, j := OutpointIndex(outputs, p), OutpointIndex(marked, p);
    assert forall k :: 0 <= k < |outputs| ==> marked[k].outpoint == outputs[k].outpoint;
    assert i == j;
  }

  // ---------------------------------------------------------------------------------------------
  // Receives
  // ---------------------------------------------------------------------------------------------

  ghost predicate Found(owned: seq<Owned>, p: Outpoint) {
    exists o :: o in owned && o.outpoint == p
  }

  /** A found outpoint moves to this height, or starts here. */
  ghost function ReceiveAt(x: Option<TrackedOutput>, found: bool, w: Owned, h: nat): Option<TrackedOutput> {
    if !found then x
    else if x.Some? then Some(x.value.(height := h))
    else Some(Tracked(w, h, false))
  }

  ghost predicate AllFacts(owned: seq<Owned>, facts: map<Outpoint, Owned>, coverage: Coverage) {
    && (forall o :: o in owned ==> o.outpoint in facts && facts[o.outpoint] == o && Covers(coverage, o))
    && (forall i, j :: 0 <= i < j < |owned| ==> owned[i].outpoint != owned[j].outpoint)
  }

  lemma ReceiveOneAt(r: Receipt, o: Owned, h: nat, facts: map<Outpoint, Owned>, coverage: Coverage)
    requires Well(r.outputs, facts, coverage) && GoodFacts(facts)
    requires o.outpoint in facts && facts[o.outpoint] == o && Covers(coverage, o)
    ensures var s := ReceiveOne(r, o, h, false);
      && s.Ok? && Well(s.value.outputs, facts, coverage)
      && forall p :: CoreAt(s.value.outputs, p) == ReceiveAt(CoreAt(r.outputs, p), p == o.outpoint, o, h)
  {
    var i := OutpointIndex(r.outputs, o.outpoint);
    if i < |r.outputs| {
      assert r.outputs[i] in r.outputs && KnownOutput(r.outputs[i], facts, coverage);
      var moved := r.outputs[i := r.outputs[i].(height := h)];
      forall q | q in moved ensures KnownOutput(q, facts, coverage) {
        assert q in r.outputs || q == moved[i];
      }
      forall p ensures CoreAt(moved, p) == ReceiveAt(CoreAt(r.outputs, p), p == o.outpoint, o, h) {
        var j, k := OutpointIndex(r.outputs, p), OutpointIndex(moved, p);
        assert forall l :: 0 <= l < |moved| ==> moved[l].outpoint == r.outputs[l].outpoint;
        assert j == k;
      }
    } else {
      assert forall l :: 0 <= l < |r.outputs| ==> r.outputs[l].outpoint != o.outpoint;
      assert !HasKey(r.outputs, o.key) by {
        forall q | q in r.outputs ensures q.key != o.key {
          assert KnownOutput(q, facts, coverage);
        }
      }
      forall p ensures CoreAt(r.outputs + [Tracked(o, h, false)], p) == ReceiveAt(CoreAt(r.outputs, p), p == o.outpoint, o, h) {
        SnocAt(r.outputs, Tracked(o, h, false), p);
      }
    }
  }

  lemma {:induction false} ReceiveAllAt(r: Receipt, owned: seq<Owned>, h: nat, facts: map<Outpoint, Owned>, coverage: Coverage)
    requires Well(r.outputs, facts, coverage) && GoodFacts(facts) && AllFacts(owned, facts, coverage)
    ensures var s := Receive(r, owned, h, false);
      && s.Ok? && Well(s.value.outputs, facts, coverage)
      && forall p :: p in facts ==> CoreAt(s.value.outputs, p) == ReceiveAt(CoreAt(r.outputs, p), Found(owned, p), facts[p], h)
  {
    if owned != [] {
      var init, last := owned[..|owned|-1], owned[|owned|-1];
      assert owned == init + [last];
      ReceiveAllAt(r, init, h, facts, coverage);
      var s := Receive(r, init, h, false).value;
      assert last in owned;
      ReceiveOneAt(s, last, h, facts, coverage);
      var t := Receive(r, owned, h, false).value;
      forall p | p in facts
        ensures CoreAt(t.outputs, p) == ReceiveAt(CoreAt(r.outputs, p), Found(owned, p), facts[p], h)
      {
        FoundSnoc(init, last, p);
        assert !(Found(init, p) && p == last.outpoint) by {
          if Found(init, p) {
            var o :| o in init && o.outpoint == p;
            var i :| 0 <= i < |init| && init[i] == o;
            assert owned[i] == o && owned[|owned|-1] == last;
          }
        }
      }
    }
  }

  lemma FoundSnoc(init: seq<Owned>, last: Owned, p: Outpoint)
    ensures Found(init + [last], p) <==> Found(init, p) || last.outpoint == p
  {
    assert last in init + [last];
    if Found(init, p) {
      var o :| o in init && o.outpoint == p;
      assert o in init + [last];
    }
  }

  // ---------------------------------------------------------------------------------------------
  // A whole block
  // ---------------------------------------------------------------------------------------------

  ghost function ReconcileAt(x: Option<TrackedOutput>, cfg: Config, h: nat, b: Block): Option<TrackedOutput> {
    if h in cfg.replay then Bind(x, Reconciler(h, TxidsOf(b), DecodedImages(b.decoded))) else x
  }

  /** What a block at height `h` does to the entry at one outpoint. */
  ghost function BlockAt(x: Option<TrackedOutput>, cfg: Config, h: nat, b: Block, w: Owned): Option<TrackedOutput> {
    var kept := ReconcileAt(x, cfg, h, b);
    ReceiveAt(MarkIf(kept, kept.Some? && Spends(b, kept.value.image), h), w in b.owned && Covers(cfg.coverage, w), w, h)
  }

  lemma ReconciledWell(outputs: Outputs, cfg: Config, h: nat, b: Block, facts: map<Outpoint, Owned>)
    requires Well(outputs, facts, cfg.coverage)
    ensures var kept := Reconciled(outputs, cfg, h, b);
      && Well(kept, facts, cfg.coverage)
      && forall p :: CoreAt(kept, p) == ReconcileAt(CoreAt(outputs, p), cfg, h, b)
  {
    var f := Reconciler(h, TxidsOf(b), DecodedImages(b.decoded));
    FilterMapWell(f, outputs, facts, cfg.coverage);
    forall p ensures CoreAt(Reconcile(outputs, h, TxidsOf(b), DecodedImages(b.decoded)), p) == Bind(CoreAt(outputs, p), f) {
      FilterMapAt(f, outputs, p);
    }
  }

  lemma ScannedFacts(b: Block, facts: map<Outpoint, Owned>, coverage: Coverage)
    requires GoodBlock(b, facts)
    ensures AllFacts(ScanOwned(b.owned, coverage), facts, coverage)
    ensures forall p :: p in facts && facts[p].outpoint == p ==>
      (Found(ScanOwned(b.owned, coverage), p) <==> facts[p] in b.owned && Covers(coverage, facts[p]))
  {
    ScanOwnedMembers(b.owned, coverage);
    R.ScanOwnedDistinct(b.owned, coverage);
    var owned := ScanOwned(b.owned, coverage);
    forall p | p in facts && facts[p].outpoint == p
      ensures Found(owned, p) <==> facts[p] in b.owned && Covers(coverage, facts[p])
    {
      if facts[p] in b.owned && Covers(coverage, facts[p]) { assert facts[p] in owned; }
    }
  }

  lemma AttributeAt(outputs: Outputs, h: nat, facts: map<Outpoint, Owned>, coverage: Coverage)
    requires Well(outputs, facts, coverage)
    ensures Well(Attribute(outputs, h), facts, coverage)
    ensures forall p :: CoreAt(Attribute(outputs, h), p) == CoreAt(outputs, p)
  {
    R.AttributeMarks(outputs, h);
    var after := Attribute(outputs, h);
    forall o | o in after ensures KnownOutput(o, facts, coverage) {
      var i :| 0 <= i < |after| && after[i] == o;
      assert outputs[i] in outputs && KnownOutput(outputs[i], facts, coverage);
    }
    forall p ensures CoreAt(after, p) == CoreAt(outputs, p) {
      CoreAtPointwise(after, outputs, p);
    }
  }

  lemma MarkedWell(kept: Outputs, b: Block, h: nat, facts: map<Outpoint, Owned>, coverage: Coverage)
    requires Well(kept, facts, coverage) && GoodFacts(facts)
    ensures var marked := ApplySightings(kept, Sightings(b), h);
      && Well(marked, facts, coverage)
      && forall p :: CoreAt(marked, p) == MarkIf(CoreAt(kept, p), CoreAt(kept, p).Some? && Spends(b, CoreAt(kept, p).value.image), h)
  {
    SightingsAt(kept, b, h, Outpoint(0, 0), facts, coverage);
    forall p ensures CoreAt(ApplySightings(kept, Sightings(b), h), p)
        == MarkIf(CoreAt(kept, p), CoreAt(kept, p).Some? && Spends(b, CoreAt(kept, p).value.image), h)
    {
      SightingsAt(kept, b, h, p, facts, coverage);
    }
  }

  lemma ReceivedWell(marked: Outputs, rescan: Option<nat>, coverage: Coverage, h: nat, b: Block, facts: map<Outpoint, Owned>)
    requires Well(marked, facts, coverage) && GoodFacts(facts) && GoodBlock(b, facts)
    ensures var s := Receive(Receipt(marked, rescan), ScanOwned(b.owned, coverage), h, false);
      && s.Ok? && Well(Attribute(s.value.outputs, h), facts, coverage)
      && forall p :: p in facts ==>
           CoreAt(Attribute(s.value.outputs, h), p)
             == ReceiveAt(CoreAt(marked, p), facts[p] in b.owned && Covers(coverage, facts[p]), facts[p], h)
  {
    ScannedFacts(b, facts, coverage);
    ReceiveAllAt(Receipt(marked, rescan), ScanOwned(b.owned, coverage), h, facts, coverage);
    var s := Receive(Receipt(marked, rescan), ScanOwned(b.owned, coverage), h, false).value;
    AttributeAt(s.outputs, h, facts, coverage);
  }

  /** A block acts on each outpoint by itself, and never fails on known outputs. */
  lemma BlockActsLocally(outputs: Outputs, rescan: Option<nat>, cfg: Config, h: nat, b: Block, facts: map<Outpoint, Owned>)
    requires Well(outputs, facts, cfg.coverage) && GoodFacts(facts) && GoodBlock(b, facts) && !cfg.sealed
    ensures var r := ApplyOutputs(outputs, rescan, cfg, h, b);
      && r.Ok? && Well(r.value.outputs, facts, cfg.coverage)
      && forall p :: p in facts ==> CoreAt(r.value.outputs, p) == BlockAt(CoreAt(outputs, p), cfg, h, b, facts[p])
  {
    ReconciledWell(outputs, cfg, h, b, facts);
    var kept := Reconciled(outputs, cfg, h, b);
    MarkedWell(kept, b, h, facts, cfg.coverage);
    var marked := ApplySightings(kept, Sightings(b), h);
    ReceivedWell(marked, rescan, cfg.coverage, h, b, facts);
    var s := Receive(Receipt(marked, rescan), ScanOwned(b.owned, cfg.coverage), h, false).value;
    var after := Attribute(s.outputs, h);
    assert ApplyOutputs(outputs, rescan, cfg, h, b) == Ok(Receipt(after, s.rescan));
    forall p | p in facts ensures CoreAt(after, p) == BlockAt(CoreAt(outputs, p), cfg, h, b, facts[p]) {
      BlockAtIs(CoreAt(outputs, p), CoreAt(kept, p), CoreAt(marked, p), CoreAt(after, p), cfg, h, b, facts[p]);
    }
  }

  lemma BlockAtIs(x: Option<TrackedOutput>, kept: Option<TrackedOutput>, marked: Option<TrackedOutput>, after: Option<TrackedOutput>,
                  cfg: Config, h: nat, b: Block, w: Owned)
    requires kept == ReconcileAt(x, cfg, h, b)
    requires marked == MarkIf(kept, kept.Some? && Spends(b, kept.value.image), h)
    requires after == ReceiveAt(marked, w in b.owned && Covers(cfg.coverage, w), w, h)
    ensures after == BlockAt(x, cfg, h, b, w)
  {}
}
