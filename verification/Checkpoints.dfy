/** Pending sends over whole runs: from the refreshes and rewinds that publish checkpoints to the records each
    checkpoint keeps. */
module Checkpoints {
  import opened Chain
  import opened Scan
  import opened Engine
  import opened Ledger
  import opened Settling
  import opened WholeRuns
  import A = Each
  import C = Cores
  import O = Origins
  import OP = OnePass
  import R = Rewinding
  import SP = Spenders

  /** A published wallet, with the fees and the chain time known by then. */
  datatype Checkpoint = Checkpoint(wallet: Wallet, fees: map<Txid, nat>, chainTime: nat)

  ghost function AfterCheckpoint(cp: Checkpoint, pending: seq<Pending>): seq<Pending> {
    var w := cp.wallet.work;
    Retained(Rebuilt(w.outputs, pending, cp.fees, cp.chainTime, w.stamps), pending)
  }

  ghost function AfterCheckpoints(cps: seq<Checkpoint>, pending: seq<Pending>): seq<Pending> {
    if cps == [] then pending else AfterCheckpoint(cps[|cps|-1], AfterCheckpoints(cps[..|cps|-1], pending))
  }

  // ---------------------------------------------------------------------------------------------
  // Not mined yet
  // ---------------------------------------------------------------------------------------------

  function Unnamed(t: Txid): A.Property {
    (o: TrackedOutput) => o.outpoint.txid != t && o.spendingTxid != Some(t)
  }

  ghost predicate Unmined(blocks: iset<Block>, t: Txid) {
    forall b :: b in blocks ==> t !in TxidsOf(b)
  }

  /** A wallet comes to name a transaction only through a block that contains it. */
  lemma UnnamedCloses(t: Txid, blocks: iset<Block>, sealed: bool, facts: map<Outpoint, Owned>)
    requires World(blocks, facts) && Unmined(blocks, t)
    ensures A.Closed(Unnamed(t), blocks, sealed)
  {
    var q := Unnamed(t);
    forall o, b, x, h: nat | q(o) && b in blocks && x in Sightings(b) ensures q(MarkSpent(o, x, h)) {
      O.SightingsName(b);
    }
    forall w, b, h: nat | b in blocks && w in b.owned ensures q(Tracked(w, h, sealed)) {
      assert GoodBlock(b, facts);
    }
  }

  lemma UnnamedIsSilent(outputs: Outputs, t: Txid)
    requires A.All(Unnamed(t), outputs)
    ensures Silent(outputs, t)
  {
    assert forall o :: o in outputs ==> Unnamed(t)(o);
    SumNeedsOutput(outputs, Created(t));
    SumNeedsOutput(outputs, SpentBy(t));
  }

  lemma {:induction false} SurvivesAll(cps: seq<Checkpoint>, pending: seq<Pending>, p: Pending)
    requires p in pending && forall cp :: cp in cps ==> A.All(Unnamed(p.txid), cp.wallet.work.outputs)
    ensures p in AfterCheckpoints(cps, pending)
  {
    if cps != [] {
      var init, cp := cps[..|cps|-1], cps[|cps|-1];
      SurvivesAll(init, pending, p);
      assert cp in cps;
      UnnamedIsSilent(cp.wallet.work.outputs, p.txid);
      PendingSurvivesUntilSeen(cp.wallet.work.outputs, AfterCheckpoints(init, pending), cp.fees, cp.chainTime, cp.wallet.work.stamps, p);
    }
  }

  /** The step hands the wallet served blocks only, and is not the sending of `t` itself. */
  ghost predicate Apart(op: HoldOp, t: Txid, blocks: iset<Block>) {
    && (op.Look? ==> forall ev :: ev in op.input.events ==> A.Served(ev, blocks))
    && (op.Send? ==> op.txid != Some(t))
  }

  /** A pending send survives every checkpoint of every run - refreshes sealed or not, reorganisations and replays,
      rewinds, caches, process death - as long as no served block contains its transaction and no input was
      marked for it. Nothing is asked of the run itself: it may well lose its chain. */
  lemma PendingSurvivesUntilMined(s: Holding, ops: seq<HoldOp>, cps: seq<Checkpoint>, pending: seq<Pending>, p: Pending,
                                  blocks: iset<Block>, facts: map<Outpoint, Owned>)
    requires World(blocks, facts) && Unmined(blocks, p.txid) && Throughout(Unnamed(p.txid), s)
    requires forall op :: op in ops ==> op.Look? ==> op.input.batch > 0
    requires forall op :: op in ops ==> Apart(op, p.txid, blocks)
    requires p in pending && forall cp :: cp in cps ==> cp.wallet == HoldRun(s, ops).live || cp.wallet in HoldRun(s, ops).caches
    ensures p in AfterCheckpoints(cps, pending)
  {
    var q := Unnamed(p.txid);
    UnnamedCloses(p.txid, blocks, true, facts);
    UnnamedCloses(p.txid, blocks, false, facts);
    forall op | op in ops ensures Keeps(q, op, blocks) {
      assert Apart(op, p.txid, blocks);
    }
    RunAll(q, s, ops, blocks);
    SurvivesAll(cps, pending, p);
  }

  // ---------------------------------------------------------------------------------------------
  // Mined
  // ---------------------------------------------------------------------------------------------

  /** Once the chain that explains the wallet holds change of the transaction above height 0, the next checkpoint
      settles the record. */
  lemma MinedChangeSettles(cp: Checkpoint, d: seq<Block>, h: nat, pending: seq<Pending>, p: Pending, change: Owned, at: nat,
                           blocks: iset<Block>, facts: map<Outpoint, Owned>)
    requires World(blocks, facts) && Explains(cp.wallet, d, h, blocks, facts)
    requires OP.CreatedAt(d, cp.wallet.restore, change, at) && at > 0
    requires Covers(cp.wallet.coverage, change) && change.amount > 0 && change.outpoint.txid == p.txid
    ensures p !in AfterCheckpoint(cp, pending)
  {
    var w := cp.wallet;
    var o := ChangeIsTracked(w, d, h, change, at, blocks, facts);
    ReceiptSettles(w.work.outputs, pending, cp.fees, cp.chainTime, w.work.stamps, p, o);
  }

  lemma ChangeIsTracked(w: Wallet, d: seq<Block>, h: nat, change: Owned, at: nat, blocks: iset<Block>, facts: map<Outpoint, Owned>)
    returns (o: TrackedOutput)
    requires World(blocks, facts) && Explains(w, d, h, blocks, facts)
    requires OP.CreatedAt(d, w.restore, change, at) && Covers(w.coverage, change)
    ensures o in w.work.outputs && o.outpoint == change.outpoint && o.amount == change.amount && o.height == at
  {
    CreatedIsKnown(d, w.restore, change, at, blocks, facts);
    OP.ExplainedIsTold(w, d, h, change.outpoint, blocks, facts);
    o := ReceiptIsTold(d, w.restore, w.coverage, w.work.outputs, h, change, at);
  }

  lemma CreatedIsKnown(d: seq<Block>, base: nat, w: Owned, at: nat, blocks: iset<Block>, facts: map<Outpoint, Owned>)
    requires World(blocks, facts) && Linked(d, base) && Among(d, blocks) && OP.CreatedAt(d, base, w, at)
    ensures w.outpoint in facts && facts[w.outpoint] == w && Consensus(d)
  {
    assert d[at - base] in d && GoodBlock(d[at - base], facts);
  }

  lemma ReceiptIsTold(d: seq<Block>, base: nat, coverage: Coverage, outputs: Outputs, h: nat, w: Owned, at: nat) returns (o: TrackedOutput)
    requires Consensus(d) && OP.CreatedAt(d, base, w, at) && Covers(coverage, w)
    requires OP.Tells(d, base, coverage, w, C.Bind(C.CoreAt(outputs, w.outpoint), Rewinder(h)))
    ensures o in outputs && o.outpoint == w.outpoint && o.amount == w.amount && o.height == at
  {
    C.CoreAtSource(outputs, w.outpoint);
    assert OP.Created(d, base, w);
    o :| o in outputs && o.outpoint == w.outpoint && C.CoreAt(outputs, w.outpoint) == Some(C.Core(o));
    OnceCreated(d, base, w, at, o.height);
  }

  lemma OnceCreated(d: seq<Block>, base: nat, w: Owned, i: nat, j: nat)
    requires Consensus(d) && OP.CreatedAt(d, base, w, i) && OP.CreatedAt(d, base, w, j)
    ensures i == j
  {}

  /** The same for a transaction without change: a scan of a block whose inputs name it as the spender of a tracked
      output settles its record at the next checkpoint. */
  lemma {:induction false} MinedSpendSettles(cp: Checkpoint, c: seq<Block>, pending: seq<Pending>, p: Pending, coin: Owned, at: nat, spentAt: nat,
                          facts: map<Outpoint, Owned>)
    requires GoodFacts(facts) && R.GoodChain(c, facts) && Fresh(cp.wallet.restore, cp.wallet.coverage, c) == Ok(cp.wallet.work)
    requires OP.CreatedAt(c, cp.wallet.restore, coin, at) && Covers(cp.wallet.coverage, coin) && coin.amount > 0
    requires OP.SpentAt(c, cp.wallet.restore, coin.image, spentAt) && SP.Spender(c[spentAt - cp.wallet.restore], coin.image, p.txid)
    ensures p !in AfterCheckpoint(cp, pending)
  {
    var o := SpendIsNamed(cp.wallet.restore, cp.wallet.coverage, c, cp.wallet.work, coin, at, spentAt, p.txid, facts);
    if p in pending {
      SweptPendingIsDropped(cp.wallet.work.outputs, pending, cp.fees, cp.chainTime, cp.wallet.work.stamps, p, o);
    }
  }

  lemma SpendIsNamed(restore: nat, coverage: Coverage, c: seq<Block>, v: Working, coin: Owned, at: nat, spentAt: nat, t: Txid,
                     facts: map<Outpoint, Owned>)
    returns (o: TrackedOutput)
    requires GoodFacts(facts) && R.GoodChain(c, facts) && Fresh(restore, coverage, c) == Ok(v)
    requires OP.CreatedAt(c, restore, coin, at) && Covers(coverage, coin)
    requires OP.SpentAt(c, restore, coin.image, spentAt) && SP.Spender(c[spentAt - restore], coin.image, t)
    ensures o in v.outputs && o.amount == coin.amount && o.spent && o.spendingTxid == Some(t)
  {
    assert c[at - restore] in c && GoodBlock(c[at - restore], facts);
    OP.ScanTellsTheChain(restore, coverage, c, coin, facts);
    o := SpendIsTold(c, restore, coverage, v.outputs, coin, at, spentAt);
    O.ScanNamesItsChain(restore, coverage, c, facts);
    SpendIsCredited(o, c, restore, spentAt, t);
  }

  lemma SpendIsTold(c: seq<Block>, base: nat, coverage: Coverage, outputs: Outputs, coin: Owned, at: nat, spentAt: nat) returns (o: TrackedOutput)
    requires OP.Tells(c, base, coverage, coin, C.CoreAt(outputs, coin.outpoint))
    requires OP.CreatedAt(c, base, coin, at) && Covers(coverage, coin) && OP.SpentAt(c, base, coin.image, spentAt)
    ensures o in outputs && C.Matches(o, coin) && o.spent && o.spendingHeight == Some(spentAt)
  {
    C.CoreAtSource(outputs, coin.outpoint);
    assert OP.Created(c, base, coin);
    o :| o in outputs && o.outpoint == coin.outpoint && C.CoreAt(outputs, coin.outpoint) == Some(C.Core(o));
  }

  lemma SpendIsCredited(o: TrackedOutput, c: seq<Block>, base: nat, spentAt: nat, t: Txid)
    requires O.From(o, c, base) && o.spendingHeight == Some(spentAt)
    requires base <= spentAt < base + |c| && SP.Spender(c[spentAt - base], o.image, t)
    ensures o.spendingTxid == Some(t)
  {
    assert O.CreditedIn(o, c[spentAt - base]);
  }
}
