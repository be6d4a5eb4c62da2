/** What sending does to the one-chain guarantee: sends and sweeps mark their inputs spent at once, without a height. */
module Sends {
  import opened Chain
  import opened Seqs
  import opened Scan
  import opened Cores
  import opened Engine
  import opened Samples
  import opened WholeRuns
  import A = Each
  import R = Rewinding
  import RH = RecentHashes
  import WS = WalletStore

  // ---------------------------------------------------------------------------------------------
  // One send
  // ---------------------------------------------------------------------------------------------

  function Sent(w: Wallet, inputs: set<Outpoint>, txid: Option<Txid>): Wallet {
    w.(work := w.work.(outputs := SendFrom(w.work.outputs, inputs, txid)))
  }

  lemma SentCleanIff(w: Wallet, inputs: set<Outpoint>, txid: Option<Txid>, blocks: iset<Block>, facts: map<Outpoint, Owned>)
    requires World(blocks, facts) && Safe(w, blocks, facts)
    ensures Clean(Sent(w, inputs, txid).work.outputs) <==> forall o :: o in w.work.outputs && o.outpoint in inputs ==> o.spent
  {
    SafeIsSeen(w, blocks, facts);
    SafeSpends(w, blocks, facts);
    MarkedCleanIff(w.work.outputs, inputs, txid);
  }

  lemma MarkedCleanIff(outputs: Outputs, inputs: set<Outpoint>, txid: Option<Txid>)
    requires A.All(Seen(), outputs) && forall o :: o in outputs ==> (o.spent <==> o.spendingHeight.Some?)
    ensures Clean(SendFrom(outputs, inputs, txid)) <==> forall o :: o in outputs && o.outpoint in inputs ==> o.spent
  {
    var r := SendFrom(outputs, inputs, txid);
    if o :| o in outputs && o.outpoint in inputs && !o.spent {
      var i :| 0 <= i < |outputs| && outputs[i] == o;
      assert r[i] in r && !CleanOne(r[i]);
    }
    if p :| p in r && !CleanOne(p) {
      var i :| 0 <= i < |r| && r[i] == p;
      assert outputs[i] in outputs && Seen()(outputs[i]);
    }
  }

  /** A send leaves a safe wallet explained by a chain exactly when it marks nothing that was unspent. */
  lemma SendExplainedIff(w: Wallet, inputs: set<Outpoint>, txid: Option<Txid>, blocks: iset<Block>, facts: map<Outpoint, Owned>)
    requires World(blocks, facts) && Safe(w, blocks, facts)
    ensures Explained(Sent(w, inputs, txid), blocks, facts)
      <==> forall o :: o in w.work.outputs && o.outpoint in inputs ==> o.spent
  {
    SafeMeansOneChain(w, blocks, facts);
    SafeSpends(w, blocks, facts);
    SentInStep(w.work.outputs, w.work.outputs, inputs, txid);
    ExplainedIffClean(Sent(w, inputs, txid), w, blocks, facts);
    SentCleanIff(w, inputs, txid, blocks, facts);
  }

  /** Marking the inputs of a sweep one by one is a send of their set: each known input is spent, by the transaction
      recorded for it already or by this one, and no height is recorded. */
  lemma {:induction false} SweepIsSend(outputs: Outputs, spent: seq<Outpoint>, tx: Txid)
    requires Distinct(outputs)
    ensures forall i :: 0 <= i < |outputs| ==>
      var o := outputs[i];
      WS.MarkedAll(outputs, spent, tx)[i] == if o.outpoint in spent then o.(spent := true, spendingTxid := Some(if o.spendingTxid.Some? then o.spendingTxid.value else tx)) else o
    ensures WS.MarkedAll(outputs, spent, tx) == SendFrom(outputs, (set p | p in spent), Some(tx))
  {
    if spent != [] {
      var init, last := spent[..|spent|-1], spent[|spent|-1];
      assert spent == init + [last];
      SweepIsSend(outputs, init, tx);
      var before := WS.MarkedAll(outputs, init, tx);
      assert forall i :: 0 <= i < |outputs| ==> before[i].outpoint == outputs[i].outpoint;
      assert forall i, j :: 0 <= i < j < |outputs| ==> before[i].outpoint != before[j].outpoint;
    }
  }

  // ---------------------------------------------------------------------------------------------
  // Until the transaction is mined
  // ---------------------------------------------------------------------------------------------

  lemma MarkedClean(outputs: Outputs, b: Block, h: nat, coverage: Coverage, facts: map<Outpoint, Owned>)
    requires Well(outputs, facts, coverage) && GoodFacts(facts)
    requires forall o :: o in outputs ==> CleanOne(o) || Spends(b, o.image)
    ensures A.All(CleanOne, ApplySightings(outputs, Sightings(b), h))
  {
    ImagesDistinct(outputs, facts, coverage);
    SightingsHit(outputs, Sightings(b), h);
    var marked := ApplySightings(outputs, Sightings(b), h);
    forall p | p in marked ensures CleanOne(p) {
      var i :| 0 <= i < |marked| && marked[i] == p;
      assert outputs[i] in outputs && (CleanOne(outputs[i]) || Spends(b, outputs[i].image));
      assert R.Sighted(Sightings(b), outputs[i].image) <==> Spends(b, outputs[i].image);
    }
  }

  lemma CleanCloses(blocks: iset<Block>, facts: map<Outpoint, Owned>)
    requires GoodFacts(facts) && forall b :: b in blocks ==> GoodBlock(b, facts)
    ensures A.Closed(CleanOne, blocks, false)
  {
    forall w, b, h: nat | b in blocks && w in b.owned ensures CleanOne(Tracked(w, h, false)) {
      assert GoodBlock(b, facts);
    }
  }

  lemma StillOpen(outputs: Outputs, cfg: Config, h: nat, b: Block)
    requires forall o :: o in outputs ==> CleanOne(o) || Spends(b, o.image)
    ensures forall o :: o in Reconciled(outputs, cfg, h, b) ==> CleanOne(o) || Spends(b, o.image)
  {
    var f := Reconciler(h, TxidsOf(b), DecodedImages(b.decoded));
    forall p | p in FilterMap(f, outputs) ensures CleanOne(p) || Spends(b, p.image) {
      FilterMapMembers(f, outputs, p);
      var o :| o in outputs && f(o) == Some(p);
    }
  }

  /** A block that spends every output the sends left without a height makes the wallet clean, and so explained,
      again. */
  lemma MinedIsClean(outputs: Outputs, rescan: Option<nat>, cfg: Config, h: nat, b: Block, facts: map<Outpoint, Owned>)
    requires Well(outputs, facts, cfg.coverage) && GoodFacts(facts) && GoodBlock(b, facts) && !cfg.sealed
    requires forall o :: o in outputs ==> CleanOne(o) || Spends(b, o.image)
    ensures ApplyOutputs(outputs, rescan, cfg, h, b).Ok? ==> Clean(ApplyOutputs(outputs, rescan, cfg, h, b).value.outputs)
  {
    var blocks := iset{b};
    CleanCloses(blocks, facts);
    var before := Reconciled(outputs, cfg, h, b);
    ReconciledWell(outputs, cfg, h, b, facts);
    StillOpen(outputs, cfg, h, b);
    MarkedClean(before, b, h, cfg.coverage, facts);
    var marked, owned := ApplySightings(before, Sightings(b), h), ScanOwned(b.owned, cfg.coverage);
    ScanOwnedMembers(b.owned, cfg.coverage);
    A.ReceiveAll(CleanOne, Receipt(marked, rescan), b, owned, h, blocks, false);
    var r := Receive(Receipt(marked, rescan), owned, h, false);
    if r.Ok? {
      A.AttributeAll(CleanOne, r.value.outputs, h, blocks, false);
    }
  }

  // ---------------------------------------------------------------------------------------------
  // A run that sends
  // ---------------------------------------------------------------------------------------------

  const FOUND := Wallet(1, SAMPLE_COVERAGE, Working([FIRST_FOUND], 1, [11], map[], None, 2))

  lemma PaymentFound(w: Wallet, input: RefreshInput, probe: RH.Probe)
    requires w == Opened(1, 1) && input == RefreshInput(2, 1, probe, [Response(RangeResponse, [B1], probe, false)])
    ensures Publishes(w, false, input) == [Progress(w, 2), FOUND, FOUND]
  {
    var u := FOUND.work;
    FirstFind(w.work, RefreshConfig(w), B1, FIRST_PAYMENT);
    OneBlock(w.work, RefreshConfig(w), B1);
    assert ValidRange(1, [B1]);
    ServedOnce(w.work, RefreshConfig(w), 2, 1, RangeResponse, [B1], probe, u);
    RefreshOnce(w, input, Response(RangeResponse, [B1], probe, false), u);
  }

  lemma FoundThenSent(s: Holding, ops: seq<HoldOp>, input: RefreshInput, inputs: set<Outpoint>, t: Txid)
    requires !s.sealed && input.batch > 0 && ops == [Look(input, 2), Send(inputs, Some(t))]
    requires |Publishes(s.live, false, input)| == 3 && Publishes(s.live, false, input)[2] == FOUND
    ensures forall op :: op in ops ==> op.Look? ==> op.input.batch > 0
    ensures HoldRun(s, ops[..1]).live == FOUND && HoldRun(s, ops).live == Sent(FOUND, inputs, Some(t))
  {
    var mid := HoldStep(s, ops[0]);
    assert mid.live == FOUND && !mid.sealed;
    assert ops[..1][1..] == [] && ops[1..] == [ops[1]] && [ops[1]][1..] == [];
    assert HoldRun(mid, []) == mid;
    assert HoldRun(mid, [ops[1]]) == HoldRun(HoldStep(mid, ops[1]), []);
  }

  lemma LookThenSendOk(s: Holding, ops: seq<HoldOp>, input: RefreshInput, inputs: set<Outpoint>, t: Txid, blocks: iset<Block>)
    requires ops == [Look(input, 2), Send(inputs, Some(t))] && InputOk(s.live, input, blocks)
    ensures forall op :: op in ops ==> op.Look? ==> op.input.batch > 0
    ensures HoldRunOk(s, ops, blocks)
  {
    var mid := HoldStep(s, ops[0]);
    assert ops[1..] == [ops[1]] && [ops[1]][1..] == [];
    assert HoldRunOk(HoldStep(mid, ops[1]), [], blocks);
    assert HoldRunOk(mid, [ops[1]], blocks);
  }

  lemma FoundThenUnexplained(inputs: set<Outpoint>, t: Txid)
    requires FIRST_PAYMENT.outpoint in inputs
    ensures World(ONE_PAYMENT, SAMPLE_FACTS) && Explained(FOUND, ONE_PAYMENT, SAMPLE_FACTS)
    ensures !Explained(Sent(FOUND, inputs, Some(t)), ONE_PAYMENT, SAMPLE_FACTS)
  {
    OnePaymentWorld();
    FoundIsSafe(FOUND);
    SafeMeansOneChain(FOUND, ONE_PAYMENT, SAMPLE_FACTS);
    assert FIRST_FOUND in FOUND.work.outputs;
    SendExplainedIff(FOUND, inputs, Some(t), ONE_PAYMENT, SAMPLE_FACTS);
  }

  lemma PaymentServed(input: RefreshInput, probe: RH.Probe)
    requires input == RefreshInput(2, 1, probe, [Response(RangeResponse, [B1], probe, false)])
    ensures InputOk(Opened(1, 1), input, ONE_PAYMENT)
  {}

  /** A wallet scans the block that pays it, and sends the payment on: from that moment no chain explains it, until a
      block with the transaction comes. */
  lemma SentIsUnexplained(s: Holding, ops: seq<HoldOp>, input: RefreshInput, probe: RH.Probe, t: Txid)
    requires s == Holding(Opened(1, 1), false, [])
    requires input == RefreshInput(2, 1, probe, [Response(RangeResponse, [B1], probe, false)])
    requires ops == [Look(input, 2), Send({FIRST_PAYMENT.outpoint}, Some(t))]
    ensures World(ONE_PAYMENT, SAMPLE_FACTS) && StartsSafe(s, ONE_PAYMENT, SAMPLE_FACTS)
    ensures (forall op :: op in ops ==> op.Look? ==> op.input.batch > 0) && HoldRunOk(s, ops, ONE_PAYMENT)
    ensures Explained(HoldRun(s, ops[..1]).live, ONE_PAYMENT, SAMPLE_FACTS)
    ensures !Explained(HoldRun(s, ops).live, ONE_PAYMENT, SAMPLE_FACTS)
  {
    EmptySafe(1, SAMPLE_COVERAGE, ONE_PAYMENT, SAMPLE_FACTS);
    FoundThenUnexplained({FIRST_PAYMENT.outpoint}, t);
    PaymentServed(input, probe);
    LookThenSendOk(s, ops, input, {FIRST_PAYMENT.outpoint}, t, ONE_PAYMENT);
    PaymentFound(s.live, input, probe);
    FoundThenSent(s, ops, input, {FIRST_PAYMENT.outpoint}, t);
  }
}
