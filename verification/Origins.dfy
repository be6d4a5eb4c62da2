/** Which transactions a scan can name: every transaction id the scan of a chain records - of the receiving
    transaction, of a spender, even of one the change heuristic guesses - is one of the block at the recorded
    height, and where the block names the spender of an output, that is the one recorded. */
module Origins {
  import opened Chain
  import opened Scan
  import opened Spenders
  import R = Rewinding

  ghost predicate SpenderFrom(o: TrackedOutput, c: seq<Block>, base: nat) {
    o.spendingTxid.Some? ==>
      && o.spendingHeight.Some? && base <= o.spendingHeight.value < base + |c|
      && o.spendingTxid.value in TxidsOf(c[o.spendingHeight.value - base])
  }

  ghost predicate CreditedIn(o: TrackedOutput, b: Block) {
    forall t: Txid :: Spender(b, o.image, t) ==> o.spendingTxid == Some(t)
  }

  ghost predicate Credited(o: TrackedOutput, c: seq<Block>, base: nat) {
    o.spendingHeight.Some? ==>
      base <= o.spendingHeight.value < base + |c| && CreditedIn(o, c[o.spendingHeight.value - base])
  }

  ghost predicate From(o: TrackedOutput, c: seq<Block>, base: nat) {
    && base <= o.height < base + |c| && o.outpoint.txid in TxidsOf(c[o.height - base])
    && SpenderFrom(o, c, base) && Credited(o, c, base)
  }

  ghost predicate AllFrom(outputs: Outputs, c: seq<Block>, base: nat) {
    forall o :: o in outputs ==> From(o, c, base)
  }

  // ---------------------------------------------------------------------------------------------
  // Sightings name transactions of their block
  // ---------------------------------------------------------------------------------------------

  ghost predicate Names(ss: seq<Sighting>, txids: set<Txid>) {
    forall s :: s in ss && s.txid.Some? ==> s.txid.value in txids
  }

  lemma PairedNames(txids: seq<Txid>, decoded: seq<DecodedTx>)
    ensures Names(PairedSightings(txids, decoded), set t | t in txids)
  {
    if decoded != [] && txids != [] {
      PairedNames(txids[1..], decoded[1..]);
    } else if decoded != [] {
      PairedNames([], decoded[1..]);
    }
  }

  lemma SightingsName(b: Block)
    ensures Names(Sightings(b), TxidsOf(b))
  {
    PairedNames(b.txids, NonMiner(b));
  }

  /** What the sightings of a block do to an output: nothing, or a spend at this height by one of them. */
  ghost predicate NamedOrKept(o: TrackedOutput, p: TrackedOutput, h: nat, txids: set<Txid>) {
    || p == o
    || (R.MarkedAt(o, p, h) && (p.spendingTxid == o.spendingTxid || (p.spendingTxid.Some? ==> p.spendingTxid.value in txids)))
  }

  lemma OneSighting(outputs: Outputs, s: Sighting, h: nat, txids: set<Txid>)
    requires s.txid.Some? ==> s.txid.value in txids
    ensures forall i :: 0 <= i < |outputs| ==> NamedOrKept(outputs[i], ApplySighting(outputs, s, h)[i], h, txids)
  {}

  lemma {:induction false} SightingsKeepNames(outputs: Outputs, ss: seq<Sighting>, h: nat, txids: set<Txid>)
    requires Names(ss, txids)
    ensures forall i :: 0 <= i < |outputs| ==> NamedOrKept(outputs[i], ApplySightings(outputs, ss, h)[i], h, txids)
  {
    if ss != [] {
      var init, last := ss[..|ss|-1], ss[|ss|-1];
      assert ss == init + [last];
      SightingsKeepNames(outputs, init, h, txids);
      var mid := ApplySightings(outputs, init, h);
      OneSighting(mid, last, h, txids);
      forall i | 0 <= i < |outputs| ensures NamedOrKept(outputs[i], ApplySightings(outputs, ss, h)[i], h, txids) {
        assert NamedOrKept(outputs[i], mid[i], h, txids);
        assert NamedOrKept(mid[i], ApplySighting(mid, last, h)[i], h, txids);
      }
    }
  }

  /** An output without a spender is given the one the sightings name. */
  lemma {:induction false} SightingsCredit(outputs: Outputs, ss: seq<Sighting>, h: nat, i: nat, t: Txid)
    requires i < |outputs| && outputs[i].spendingTxid == None
    requires forall s :: s in ss && s.image == outputs[i].image ==> s.txid == Some(t)
    ensures var p := ApplySightings(outputs, ss, h)[i];
      p == outputs[i] || (p.image == outputs[i].image && p.spendingTxid == Some(t))
  {
    if ss != [] {
      var init, last := ss[..|ss|-1], ss[|ss|-1];
      assert ss == init + [last];
      SightingsCredit(outputs, init, h, i, t);
      assert last in ss;
    }
  }

  lemma SightedCredit(outputs: Outputs, b: Block, h: nat, i: nat)
    requires i < |outputs| && outputs[i].spendingTxid == None
    ensures var p := ApplySightings(outputs, Sightings(b), h)[i];
      p == outputs[i] || CreditedIn(p, b)
  {
    var p := ApplySightings(outputs, Sightings(b), h)[i];
    R.SightingsMark(outputs, Sightings(b), h);
    if p != outputs[i] {
      forall t: Txid | Spender(b, p.image, t) ensures p.spendingTxid == Some(t) {
        forall s | s in Sightings(b) && s.image == p.image ensures s.txid == Some(t) {
          SpenderIsSighted(b, p.image, t, s);
        }
        SightingsCredit(outputs, Sightings(b), h, i, t);
      }
    }
  }

  // ---------------------------------------------------------------------------------------------
  // One block
  // ---------------------------------------------------------------------------------------------

  lemma StillFrom(o: TrackedOutput, c: seq<Block>, base: nat, b: Block)
    requires From(o, c, base)
    ensures From(o, c + [b], base)
  {
    var d := c + [b];
    assert forall i :: 0 <= i < |c| ==> d[i] == c[i];
  }

  /** An output of the chain after the sightings of the next block. */
  lemma MarkedFrom(o: TrackedOutput, p: TrackedOutput, c: seq<Block>, base: nat, h: nat, b: Block)
    requires From(o, c, base) && R.OutputOnChain(o, c, base) && Consensus(c + [b]) && h == base + |c|
    requires R.KeptOrMarked(o, p, b, h) && NamedOrKept(o, p, h, TxidsOf(b)) && (o.spendingTxid == None ==> p == o || CreditedIn(p, b))
    ensures From(p, c + [b], base)
  {
    StillFrom(o, c, base, b);
    if p != o {
      R.NotSpentAgain(o, c, base, b);
      assert o.spendingTxid == None;
      SpentHere(o, p, c + [b], base, h, b);
    }
  }

  lemma SpentHere(o: TrackedOutput, p: TrackedOutput, d: seq<Block>, base: nat, h: nat, b: Block)
    requires From(o, d, base) && R.MarkedAt(o, p, h) && base <= h < base + |d| && d[h - base] == b
    requires CreditedIn(p, b) && (p.spendingTxid.Some? ==> p.spendingTxid.value in TxidsOf(b))
    ensures From(p, d, base)
  {}

  lemma AllMarkedFrom(outputs: Outputs, c: seq<Block>, base: nat, h: nat, b: Block)
    requires AllFrom(outputs, c, base) && R.OnChain(outputs, c, base) && Consensus(c + [b]) && h == base + |c|
    ensures AllFrom(ApplySightings(outputs, Sightings(b), h), c + [b], base)
  {
    var marked := ApplySightings(outputs, Sightings(b), h);
    R.BlockMarks(outputs, b, h);
    SightingsName(b);
    SightingsKeepNames(outputs, Sightings(b), h, TxidsOf(b));
    forall p | p in marked ensures From(p, c + [b], base) {
      var i :| 0 <= i < |marked| && marked[i] == p;
      assert outputs[i] in outputs && From(outputs[i], c, base) && R.OutputOnChain(outputs[i], c, base);
      if outputs[i].spendingTxid == None {
        SightedCredit(outputs, b, h, i);
      }
      MarkedFrom(outputs[i], p, c, base, h, b);
    }
  }

  lemma ReceivedFrom(marked: Outputs, received: Outputs, owned: seq<Owned>, c: seq<Block>, base: nat, h: nat, b: Block,
                     facts: map<Outpoint, Owned>)
    requires AllFrom(marked, c + [b], base) && h == base + |c| && GoodBlock(b, facts)
    requires forall o :: o in owned ==> o in b.owned
    requires |marked| <= |received| && received[..|marked|] == marked
    requires forall j :: |marked| <= j < |received| ==> R.TrackedFrom(owned, received[j], h, false)
    ensures AllFrom(received, c + [b], base)
  {
    var d := c + [b];
    assert d[|c|] == b;
    forall p | p in received ensures From(p, d, base) {
      var j :| 0 <= j < |received| && received[j] == p;
      if j < |marked| {
        assert received[..|marked|][j] == marked[j] && marked[j] in marked;
      } else {
        assert R.TrackedFrom(owned, received[j], h, false);
      }
    }
  }

  /** The change heuristic names a transaction that paid the wallet in this very block. */
  lemma AttributedFrom(outputs: Outputs, c: seq<Block>, base: nat, h: nat)
    requires AllFrom(outputs, c, base)
    ensures AllFrom(Attribute(outputs, h), c, base)
  {
    var after := Attribute(outputs, h);
    forall p | p in after ensures From(p, c, base) {
      var i :| 0 <= i < |after| && after[i] == p;
      assert outputs[i] in outputs && From(outputs[i], c, base);
      if p != outputs[i] {
        var t :| IsChangeTx(outputs, t, h) && p == outputs[i].(spendingTxid := Some(t));
        var o :| o in outputs && FreshChange(o, h) && o.outpoint.txid == t;
        assert From(o, c, base);
      }
    }
  }

  lemma BlockFrom(outputs: Outputs, rescan: Option<nat>, cfg: Config, c: seq<Block>, base: nat, h: nat, b: Block, facts: map<Outpoint, Owned>)
    requires AllFrom(outputs, c, base) && R.OnChain(outputs, c, base) && h == base + |c| && !cfg.sealed
    requires Consensus(c + [b]) && GoodBlock(b, facts)
    ensures var r := ApplyOutputs(outputs, rescan, cfg, h, b); r.Ok? && AllFrom(r.value.outputs, c + [b], base)
  {
    R.ReconcileNothing(outputs, c, base, h, TxidsOf(b), DecodedImages(b.decoded));
    R.ApplyOutputsIs(outputs, rescan, cfg, h, b);
    var marked, owned := ApplySightings(outputs, Sightings(b), h), ScanOwned(b.owned, cfg.coverage);
    R.BlockMarks(outputs, b, h);
    R.NewOutputs(outputs, marked, owned, cfg.coverage, c, base, h, b, facts);
    AllMarkedFrom(outputs, c, base, h, b);
    R.ReceiveAppends(Receipt(marked, rescan), owned, h, false);
    var r := Receive(Receipt(marked, rescan), owned, h, false).value;
    ReceivedFrom(marked, r.outputs, owned, c, base, h, b, facts);
    AttributedFrom(r.outputs, c + [b], base, h);
  }

  // ---------------------------------------------------------------------------------------------
  // A whole scan
  // ---------------------------------------------------------------------------------------------

  lemma ScanOneMore(restore: nat, coverage: Coverage, init: seq<Block>, b: Block, facts: map<Outpoint, Owned>)
    requires R.GoodChain(init + [b], facts) && R.GoodChain(init, facts)
    requires Fresh(restore, coverage, init).Ok? && AllFrom(Fresh(restore, coverage, init).value.outputs, init, restore)
    ensures Fresh(restore, coverage, init + [b]).Ok?
    ensures AllFrom(Fresh(restore, coverage, init + [b]).value.outputs, init + [b], restore)
  {
    R.FreshScan(restore, coverage, init, facts);
    var once := Fresh(restore, coverage, init).value;
    assert b in init + [b];
    BlockFrom(once.outputs, once.rescan, FreshConfig(restore, coverage), init, restore, once.cursor, b, facts);
    FreshIs(restore, coverage, init, b);
  }

  lemma FreshIs(restore: nat, coverage: Coverage, init: seq<Block>, b: Block)
    ensures Fresh(restore, coverage, init + [b]) == ThenBlock(Fresh(restore, coverage, init), FreshConfig(restore, coverage), b)
  {
    assert (init + [b])[..|init|] == init;
  }

  /** Every transaction id in the scan of a chain is one of the block at its height. */
  lemma {:induction false} ScanNamesItsChain(restore: nat, coverage: Coverage, c: seq<Block>, facts: map<Outpoint, Owned>)
    requires R.GoodChain(c, facts)
    ensures Fresh(restore, coverage, c).Ok? && AllFrom(Fresh(restore, coverage, c).value.outputs, c, restore)
  {
    if c != [] {
      var init, b := c[..|c|-1], c[|c|-1];
      assert init + [b] == c;
      R.GoodChainPrefix(c, |init|, facts);
      ScanNamesItsChain(restore, coverage, init, facts);
      ScanOneMore(restore, coverage, init, b, facts);
    }
  }
}
