/** Everything that can happen to a wallet, in any order: refreshes and view-only refreshes against a daemon that
    may change chain at any time, seals and unseals, coverage growth, rewinds, sends, caches exported and
    imported, process death and reopening. One chain explains the wallet exactly when no output lacks its key
    image and no spend lacks its height. */
module WholeRuns {
  import opened Chain
  import opened Scan
  import opened Cores
  import opened Engine
  import opened InStep
  import A = Each
  import P = Replay
  import R = Rewinding
  import RH = RecentHashes
  import S = Seqs
  import V = Sealing

  // ---------------------------------------------------------------------------------------------
  // Clean wallets
  // ---------------------------------------------------------------------------------------------

  predicate CleanOne(o: TrackedOutput) {
    o.image != NO_IMAGE && (o.spent ==> o.spendingHeight.Some?)
  }

  ghost predicate Clean(outputs: Outputs) {
    forall o :: o in outputs ==> CleanOne(o)
  }

  /** Clean as far as it was found below height `k`. */
  ghost predicate CleanBelow(outputs: Outputs, k: nat) {
    forall o :: o in outputs && o.height < k ==> CleanOne(o)
  }

  /** A rewind forgets what lies above it, so it leaves a clean state exactly when what lies below is clean. */
  lemma CleanRewoundIff(outputs: Outputs, k: nat)
    ensures Clean(RewindOutputs(outputs, k)) <==> CleanBelow(outputs, k)
  {
    if o :| o in outputs && o.height < k && !CleanOne(o) {
      var q := Rewinder(k)(o).value;
      S.FilterMapMembers(Rewinder(k), outputs, q);
      assert q in RewindOutputs(outputs, k) && !CleanOne(q);
    }
    if q :| q in RewindOutputs(outputs, k) && !CleanOne(q) {
      S.FilterMapMembers(Rewinder(k), outputs, q);
      var o :| o in outputs && Rewinder(k)(o) == Some(q);
      assert o.height < k && !CleanOne(o);
    }
  }

  ghost predicate SameCores(x: Outputs, y: Outputs) {
    |x| == |y| && forall i :: 0 <= i < |x| ==> Core(x[i]) == Core(y[i])
  }

  lemma CleanCores(x: Outputs, y: Outputs)
    requires Shadows(x, y) && Clean(x)
    ensures SameCores(x, y)
  {
    forall i | 0 <= i < |x| ensures Core(x[i]) == Core(y[i]) {
      assert x[i] in x && Shadow(x[i], y[i]) && CleanOne(x[i]);
    }
  }

  lemma WellCores(x: Outputs, y: Outputs, coverage: Coverage, facts: map<Outpoint, Owned>)
    requires SameCores(x, y) && Well(y, facts, coverage)
    ensures Well(x, facts, coverage)
  {
    forall i | 0 <= i < |x| ensures x[i].outpoint == y[i].outpoint && KnownOutput(x[i], facts, coverage) {
      assert y[i] in y && KnownOutput(y[i], facts, coverage) && Core(x[i]) == Core(y[i]);
    }
  }

  lemma GroundedCores(x: Outputs, y: Outputs, c: seq<Block>, base: nat)
    requires SameCores(x, y) && P.AllGrounded(y, c, base)
    ensures P.AllGrounded(x, c, base)
  {
    forall i | 0 <= i < |x| ensures P.Grounded(x[i], c, base) {
      assert y[i] in y && P.Grounded(y[i], c, base) && Core(x[i]) == Core(y[i]);
    }
  }

  /** Agreement does not look at spender ids. */
  lemma AgreesCores(x: Outputs, y: Outputs, c: seq<Block>, base: nat, h: nat, coverage: Coverage, facts: map<Outpoint, Owned>)
    requires SameCores(x, y) && P.Agrees(y, c, base, h, coverage, facts)
    ensures P.Agrees(x, c, base, h, coverage, facts)
  {
    WellCores(x, y, coverage, facts);
    GroundedCores(x, y, c, base);
    forall p | p in facts ensures CoreAt(x, p) == CoreAt(y, p) {
      CoreAtPointwise(x, y, p);
    }
  }

  lemma ExplainsCores(a: Wallet, b: Wallet, d: seq<Block>, h: nat, blocks: iset<Block>, facts: map<Outpoint, Owned>)
    requires a.restore == b.restore && a.coverage == b.coverage && a.work.cursor == b.work.cursor
    requires SameCores(a.work.outputs, b.work.outputs) && Explains(b, d, h, blocks, facts)
    ensures Explains(a, d, h, blocks, facts)
  {
    AgreesCores(a.work.outputs, b.work.outputs, d, b.restore, h, b.coverage, facts);
  }

  /** An output without a key image is on no chain, nor is a spend without a height. */
  lemma UncleanIsUnexplained(p: Wallet, o: TrackedOutput, d: seq<Block>, h: nat, blocks: iset<Block>, facts: map<Outpoint, Owned>)
    requires World(blocks, facts) && o in p.work.outputs && !CleanOne(o)
    ensures !Explains(p, d, h, blocks, facts)
  {
    assert Explains(p, d, h, blocks, facts) ==> KnownOutput(o, facts, p.coverage) && P.Grounded(o, d, p.restore);
  }

  ghost predicate Explained(w: Wallet, blocks: iset<Block>, facts: map<Outpoint, Owned>) {
    exists d :: Explains(w, d, StartHeight(w), blocks, facts)
  }

  /** In step with an explained wallet, a wallet is explained exactly when it is clean. */
  lemma ExplainedIffClean(a: Wallet, b: Wallet, blocks: iset<Block>, facts: map<Outpoint, Owned>)
    requires World(blocks, facts) && Explained(b, blocks, facts)
    requires a.restore == b.restore && a.coverage == b.coverage && a.work.cursor == b.work.cursor && Shadows(a.work.outputs, b.work.outputs)
    ensures Explained(a, blocks, facts) <==> Clean(a.work.outputs)
  {
    var h := StartHeight(a);
    if Clean(a.work.outputs) {
      CleanCores(a.work.outputs, b.work.outputs);
      var d :| Explains(b, d, h, blocks, facts);
      ExplainsCores(a, b, d, h, blocks, facts);
    } else {
      var o :| o in a.work.outputs && !CleanOne(o);
      forall d: seq<Block> ensures !Explains(a, d, h, blocks, facts) {
        UncleanIsUnexplained(a, o, d, h, blocks, facts);
      }
    }
  }

  // ---------------------------------------------------------------------------------------------
  // The holding: an open wallet, sealed or not, and every cache exported so far
  // ---------------------------------------------------------------------------------------------

  datatype Holding = Holding(live: Wallet, sealed: bool, caches: seq<Wallet>)

  datatype HoldOp =
    | Look(input: RefreshInput, seen: nat)
    | Widen(gap: nat)
    | GoBack(target: nat)
    | Rescan(restore: nat)
    | OpenNew(restore: nat)
    | OpenAgain(restore: nat)
    | Keep
    | Bring(cache: nat)
    | Seal
    | Unseal
    | Send(inputs: set<Outpoint>, txid: Option<Txid>)

  /** `mark_tracked_output_spent`: no height, and an id already there stays. */
  function MarkSent(o: TrackedOutput, txid: Option<Txid>): TrackedOutput {
    o.(spent := true, spendingTxid := if o.spendingTxid == None then txid else o.spendingTxid)
  }

  function SendFrom(outputs: Outputs, inputs: set<Outpoint>, txid: Option<Txid>): (r: Outputs)
    ensures |r| == |outputs|
    ensures forall i :: 0 <= i < |r| ==> r[i] == if outputs[i].outpoint in inputs then MarkSent(outputs[i], txid) else outputs[i]
  {
    seq(|outputs|, i requires 0 <= i < |outputs| => if outputs[i].outpoint in inputs then MarkSent(outputs[i], txid) else outputs[i])
  }

  /** A refresh is observed, or killed, after any of its publications, each of which could have been exported. A
      process that dies comes back by opening anew and importing. */
  ghost function HoldStep(s: Holding, op: HoldOp): Holding
    requires op.Look? ==> op.input.batch > 0
  {
    match op
    case Look(input, seen) =>
      var published := Publishes(s.live, s.sealed, input);
      s.(live := if seen < |published| then published[seen] else published[|published|-1], caches := s.caches + published)
    case Widen(gap) => s.(live := Expand(s.live, RH.Max(gap, 1)))
    case GoBack(target) =>
      if target > s.live.work.cursor then s else s.(live := s.live.(work := Rewind(s.live.restore, target, s.live.work)))
    case Rescan(restore) => s.(live := Wallet(restore, s.live.coverage, Empty(restore)))
    case OpenNew(restore) => s.(live := Opened(restore, s.live.coverage.accounts), sealed := false)
    case OpenAgain(restore) => s.(live := Reopened(s.live, restore), sealed := false)
    case Keep => s.(caches := s.caches + [s.live])
    case Bring(i) =>
      if i >= |s.caches| || s.caches[i].restore > s.live.restore then s
      else s.(live := if s.sealed then Import(s.caches[i], s.live) else ApplyPendingRescan(Import(s.caches[i], s.live)))
    case Seal => s.(sealed := true)
    case Unseal => Holding(ApplyPendingRescan(s.live), false, s.caches)
    case Send(inputs, txid) =>
      if s.sealed then s else s.(live := s.live.(work := s.live.work.(outputs := SendFrom(s.live.work.outputs, inputs, txid))))
  }

  ghost function HoldRun(s: Holding, ops: seq<HoldOp>): Holding
    requires forall op :: op in ops ==> op.Look? ==> op.input.batch > 0
    decreases |ops|
  {
    if ops == [] then s else HoldRun(HoldStep(s, ops[0]), ops[1..])
  }

  /** The marker has not fallen out of the hash window. */
  predicate MarkerInWindow(w: Wallet) {
    w.work.rescan.Some? ==> RewindStaysAnchored(w, UnsealTarget(w, w.work.rescan.value))
  }

  /** What the run must not do: the demands of `OpOk`, and unsealing to a marker out of the window. */
  ghost predicate HoldOk(s: Holding, op: HoldOp, blocks: iset<Block>) {
    match op
    case Look(input, _) => InputOk(s.live, input, blocks)
    case Widen(gap) => RH.Max(gap, 1) > s.live.coverage.gap ==> OffGenesis(s.live.restore, s.live.work)
    case GoBack(target) => target <= s.live.work.cursor ==> RewindStaysAnchored(s.live, target)
    case OpenAgain(restore) => MarkerInWindow(s.live) && restore >= s.live.restore
    case Bring(i) =>
      i < |s.caches| && s.caches[i].restore <= s.live.restore ==>
        ImportOk(s.caches[i], s.live) && (!s.sealed ==> MarkerInWindow(Import(s.caches[i], s.live)))
    case Unseal => MarkerInWindow(s.live)
    case _ => true
  }

  ghost predicate HoldRunOk(s: Holding, ops: seq<HoldOp>, blocks: iset<Block>)
    requires forall op :: op in ops ==> op.Look? ==> op.input.batch > 0
    decreases |ops|
  {
    ops != [] ==> HoldOk(s, ops[0], blocks) && HoldRunOk(HoldStep(s, ops[0]), ops[1..], blocks)
  }

  // ---------------------------------------------------------------------------------------------
  // The plain partner
  // ---------------------------------------------------------------------------------------------

  /** A safe wallet and safe caches, never sealed and never spent from, in step with the holding. */
  ghost predicate Partnered(s: Holding, b: Wallet, bs: seq<Wallet>, blocks: iset<Block>, facts: map<Outpoint, Owned>) {
    && WalletsInStep(s.live, b) && Safe(b, blocks, facts) && b.coverage.gap > 0
    && AllInStep(s.caches, bs) && AllSafe(bs, blocks, facts)
  }

  lemma AppendInStep(a: seq<Wallet>, b: seq<Wallet>, c: seq<Wallet>, d: seq<Wallet>)
    requires AllInStep(a, b) && AllInStep(c, d)
    ensures AllInStep(a + c, b + d)
  {}

  lemma AppendSafe(a: seq<Wallet>, b: seq<Wallet>, blocks: iset<Block>, facts: map<Outpoint, Owned>)
    requires AllSafe(a, blocks, facts) && AllSafe(b, blocks, facts)
    ensures AllSafe(a + b, blocks, facts)
  {}

  lemma LookPartner(s: Holding, b: Wallet, bs: seq<Wallet>, input: RefreshInput, seen: nat, blocks: iset<Block>, facts: map<Outpoint, Owned>)
    returns (b': Wallet, bs': seq<Wallet>)
    requires World(blocks, facts) && Partnered(s, b, bs, blocks, facts) && InputOk(b, input, blocks)
    ensures Partnered(HoldStep(s, Look(input, seen)), b', bs', blocks, facts)
  {
    RefreshInStep(s.live, b, s.sealed, input, blocks, facts);
    RefreshSafe(b, input, blocks, facts);
    RefreshKeepsCoverage(b, input);
    var published := Refresh(b, input);
    b' := if seen < |published| then published[seen] else published[|published|-1];
    bs' := bs + published;
    assert b' in published;
    AppendInStep(s.caches, bs, Publishes(s.live, s.sealed, input), published);
    AppendSafe(bs, published, blocks, facts);
  }

  lemma RewoundPartner(a: Wallet, b: Wallet, target: nat, blocks: iset<Block>, facts: map<Outpoint, Owned>) returns (b': Wallet)
    requires World(blocks, facts) && WalletsInStep(a, b) && Safe(b, blocks, facts)
    requires target <= a.work.cursor && RewindStaysAnchored(a, target)
    ensures b'.coverage == b.coverage && Safe(b', blocks, facts)
    ensures forall rescan :: WalletsInStep(a.(work := Rewind(a.restore, target, a.work.(rescan := rescan))), b')
  {
    b' := b.(work := Rewind(b.restore, target, b.work));
    ManualRewindSafe(b, target, blocks, facts);
    RewindShadows(a.work.outputs, b.work.outputs, if target < a.restore then a.restore else target);
  }

  lemma UnsealedPartner(a: Wallet, b: Wallet, blocks: iset<Block>, facts: map<Outpoint, Owned>) returns (b': Wallet)
    requires World(blocks, facts) && WalletsInStep(a, b) && Safe(b, blocks, facts) && MarkerInWindow(a)
    ensures b'.coverage == b.coverage && Safe(b', blocks, facts) && WalletsInStep(ApplyPendingRescan(a), b')
  {
    if a.work.rescan == None {
      b' := b;
    } else {
      b' := RewoundPartner(a, b, UnsealTarget(a, a.work.rescan.value), blocks, facts);
    }
  }

  lemma ReopenedPartner(a: Wallet, b: Wallet, restore: nat, blocks: iset<Block>, facts: map<Outpoint, Owned>) returns (b': Wallet)
    requires World(blocks, facts) && WalletsInStep(a, b) && Safe(b, blocks, facts) && b.coverage.gap > 0
    requires MarkerInWindow(a) && restore >= a.restore
    ensures b'.coverage == b.coverage && Safe(b', blocks, facts) && WalletsInStep(Reopened(a, restore), b')
  {
    var x := UnsealedPartner(a, b, blocks, facts);
    ReopenSafe(x, restore, blocks, facts);
    NoPendingRescan(x, blocks, facts);
    b' := Reopened(x, restore);
  }

  lemma {:induction false} SameMinors(s: Outputs, u: Outputs)
    requires Shadows(s, u)
    ensures MaxMinor(s) == MaxMinor(u)
  {
    if s != [] {
      SameMinors(s[..|s|-1], u[..|u|-1]);
      assert Shadow(s[|s|-1], u[|u|-1]);
    }
  }

  lemma ImportedPartner(x: Wallet, a: Wallet, y: Wallet, b: Wallet, blocks: iset<Block>, facts: map<Outpoint, Owned>) returns (b': Wallet)
    requires WalletsInStep(x, y) && WalletsInStep(a, b) && Safe(y, blocks, facts) && x.restore <= a.restore && ImportOk(x, a)
    ensures b' == Import(y, b) && Safe(b', blocks, facts) && WalletsInStep(Import(x, a), b')
  {
    SameMinors(x.work.outputs, y.work.outputs);
    ImportSafe(y, b, blocks, facts);
    b' := Import(y, b);
  }

  lemma SentInStep(outputs: Outputs, u: Outputs, inputs: set<Outpoint>, txid: Option<Txid>)
    requires Shadows(outputs, u)
    requires forall q :: q in u ==> (q.spent <==> q.spendingHeight.Some?)
    ensures Shadows(SendFrom(outputs, inputs, txid), u)
  {
    var r := SendFrom(outputs, inputs, txid);
    forall i | 0 <= i < |r| ensures Shadow(r[i], u[i]) {
      assert Shadow(outputs[i], u[i]) && u[i] in u;
    }
  }

  lemma SafeSpends(b: Wallet, blocks: iset<Block>, facts: map<Outpoint, Owned>)
    requires Safe(b, blocks, facts)
    ensures forall q :: q in b.work.outputs ==> (q.spent <==> q.spendingHeight.Some?)
    ensures forall q :: q in b.work.outputs ==> q.height >= b.restore
  {
    var c, h :| Inv(b, c, h, blocks, facts);
    forall q | q in b.work.outputs ensures (q.spent <==> q.spendingHeight.Some?) && q.height >= b.restore {
      assert P.Grounded(q, c, b.restore);
    }
  }

  lemma BroughtPartner(s: Holding, b: Wallet, bs: seq<Wallet>, i: nat, blocks: iset<Block>, facts: map<Outpoint, Owned>) returns (b': Wallet)
    requires World(blocks, facts) && Partnered(s, b, bs, blocks, facts) && HoldOk(s, Bring(i), blocks)
    ensures b'.coverage.gap > 0 && Safe(b', blocks, facts) && WalletsInStep(HoldStep(s, Bring(i)).live, b')
  {
    b' := b;
    if i < |s.caches| && s.caches[i].restore <= s.live.restore {
      assert bs[i] in bs;
      b' := ImportedPartner(s.caches[i], s.live, bs[i], b, blocks, facts);
      if !s.sealed {
        b' := UnsealedPartner(Import(s.caches[i], s.live), b', blocks, facts);
      }
    }
  }

  lemma SentPartner(s: Holding, b: Wallet, inputs: set<Outpoint>, txid: Option<Txid>, blocks: iset<Block>, facts: map<Outpoint, Owned>)
    requires WalletsInStep(s.live, b) && Safe(b, blocks, facts)
    ensures WalletsInStep(HoldStep(s, Send(inputs, txid)).live, b)
  {
    SafeSpends(b, blocks, facts);
    SentInStep(s.live.work.outputs, b.work.outputs, inputs, txid);
  }

  /** Every step leaves the holding with a plain partner. */
  lemma StepPartner(s: Holding, b: Wallet, bs: seq<Wallet>, op: HoldOp, blocks: iset<Block>, facts: map<Outpoint, Owned>)
    returns (b': Wallet, bs': seq<Wallet>)
    requires World(blocks, facts) && Partnered(s, b, bs, blocks, facts)
    requires (op.Look? ==> op.input.batch > 0) && HoldOk(s, op, blocks)
    ensures Partnered(HoldStep(s, op), b', bs', blocks, facts)
  {
    b', bs' := b, bs;
    match op
    case Look(input, seen) => b', bs' := LookPartner(s, b, bs, input, seen, blocks, facts);
    case Widen(gap) =>
      ExpandSafe(b, RH.Max(gap, 1), blocks, facts);
      b' := Expand(b, RH.Max(gap, 1));
    case GoBack(target) =>
      if target <= s.live.work.cursor {
        b' := RewoundPartner(s.live, b, target, blocks, facts);
        assert s.live.work.(rescan := s.live.work.rescan) == s.live.work;
      }
    case Rescan(restore) =>
      EmptySafe(restore, b.coverage, blocks, facts);
      b' := Wallet(restore, b.coverage, Empty(restore));
    case OpenNew(restore) =>
      b' := Opened(restore, b.coverage.accounts);
      EmptySafe(restore, b'.coverage, blocks, facts);
    case OpenAgain(restore) => b' := ReopenedPartner(s.live, b, restore, blocks, facts);
    case Keep =>
      bs' := bs + [b];
      AppendInStep(s.caches, bs, [s.live], [b]);
    case Bring(i) => b' := BroughtPartner(s, b, bs, i, blocks, facts);
    case Seal =>
    case Unseal => b' := UnsealedPartner(s.live, b, blocks, facts);
    case Send(inputs, txid) => SentPartner(s, b, inputs, txid, blocks, facts);
  }

  lemma {:induction false} RunPartner(s: Holding, b: Wallet, bs: seq<Wallet>, ops: seq<HoldOp>, blocks: iset<Block>, facts: map<Outpoint, Owned>)
    returns (b': Wallet, bs': seq<Wallet>)
    requires World(blocks, facts) && Partnered(s, b, bs, blocks, facts)
    requires forall op :: op in ops ==> op.Look? ==> op.input.batch > 0
    requires HoldRunOk(s, ops, blocks)
    ensures Partnered(HoldRun(s, ops), b', bs', blocks, facts)
    decreases |ops|
  {
    b', bs' := b, bs;
    if ops != [] {
      b', bs' := StepPartner(s, b, bs, ops[0], blocks, facts);
      b', bs' := RunPartner(HoldStep(s, ops[0]), b', bs', ops[1..], blocks, facts);
    }
  }

  /** Where a run may start: wallet and caches safe, as after any run of `Engine`. */
  ghost predicate StartsSafe(s: Holding, blocks: iset<Block>, facts: map<Outpoint, Owned>) {
    Safe(s.live, blocks, facts) && s.live.coverage.gap > 0 && AllSafe(s.caches, blocks, facts)
  }

  lemma StartPartner(s: Holding, blocks: iset<Block>, facts: map<Outpoint, Owned>)
    requires StartsSafe(s, blocks, facts)
    ensures Partnered(s, s.live, s.caches, blocks, facts)
  {}

  // ---------------------------------------------------------------------------------------------
  // When a wallet is explained
  // ---------------------------------------------------------------------------------------------

  /** After any run the open wallet and every cache exported is explained by one chain exactly when it is clean:
      no output without its key image, no spend without its height. */
  lemma RunExplainedIff(s: Holding, ops: seq<HoldOp>, blocks: iset<Block>, facts: map<Outpoint, Owned>)
    requires World(blocks, facts) && StartsSafe(s, blocks, facts)
    requires forall op :: op in ops ==> op.Look? ==> op.input.batch > 0
    requires HoldRunOk(s, ops, blocks)
    ensures Explained(HoldRun(s, ops).live, blocks, facts) <==> Clean(HoldRun(s, ops).live.work.outputs)
    ensures forall p :: p in HoldRun(s, ops).caches ==> (Explained(p, blocks, facts) <==> Clean(p.work.outputs))
  {
    StartPartner(s, blocks, facts);
    var b, bs := RunPartner(s, s.live, s.caches, ops, blocks, facts);
    var r := HoldRun(s, ops);
    SafeMeansOneChain(b, blocks, facts);
    ExplainedIffClean(r.live, b, blocks, facts);
    forall p | p in r.caches ensures Explained(p, blocks, facts) <==> Clean(p.work.outputs) {
      var i :| 0 <= i < |r.caches| && r.caches[i] == p;
      assert bs[i] in bs && WalletsInStep(p, bs[i]);
      SafeMeansOneChain(bs[i], blocks, facts);
      ExplainedIffClean(p, bs[i], blocks, facts);
    }
  }

  /** What the wallet shows below its cursor. */
  function Shown(w: Wallet): Wallet {
    w.(work := w.work.(outputs := RewindOutputs(w.work.outputs, StartHeight(w))))
  }

  lemma ShownExplained(b: Wallet, blocks: iset<Block>, facts: map<Outpoint, Owned>)
    requires World(blocks, facts) && Safe(b, blocks, facts)
    ensures Explained(Shown(b), blocks, facts)
  {
    SafeMeansOneChain(b, blocks, facts);
    var h := StartHeight(b);
    var d :| Explains(b, d, h, blocks, facts);
    P.AgreesRewound(b.work.outputs, d, b.restore, h, h, b.coverage, facts);
    assert Explains(Shown(b), d, h, blocks, facts);
  }

  /** Looking below the cursor only: what is shown there is one chain's exactly when every output found below it
      has its key image and, if marked spent, its height. */
  lemma ShownExplainedIff(s: Holding, ops: seq<HoldOp>, blocks: iset<Block>, facts: map<Outpoint, Owned>)
    requires World(blocks, facts) && StartsSafe(s, blocks, facts)
    requires forall op :: op in ops ==> op.Look? ==> op.input.batch > 0
    requires HoldRunOk(s, ops, blocks)
    ensures var w := HoldRun(s, ops).live;
      Explained(Shown(w), blocks, facts) <==> CleanBelow(w.work.outputs, StartHeight(w))
  {
    StartPartner(s, blocks, facts);
    var b, bs := RunPartner(s, s.live, s.caches, ops, blocks, facts);
    var w := HoldRun(s, ops).live;
    ShownExplained(b, blocks, facts);
    RewindShadows(w.work.outputs, b.work.outputs, StartHeight(w));
    ExplainedIffClean(Shown(w), Shown(b), blocks, facts);
    CleanRewoundIff(w.work.outputs, StartHeight(w));
  }

  // ---------------------------------------------------------------------------------------------
  // Unsealing
  // ---------------------------------------------------------------------------------------------

  /** What the pending rescan leaves is clean. */
  ghost predicate MarkerCleans(w: Wallet) {
    if w.work.rescan.Some? then CleanBelow(w.work.outputs, UnsealHeight(w, w.work.rescan.value)) else Clean(w.work.outputs)
  }

  lemma RescannedIs(a: Wallet, marker: nat)
    requires a.work.rescan == Some(marker)
    ensures var p, k := ApplyPendingRescan(a), UnsealHeight(a, marker);
      && p.restore == a.restore && p.coverage == a.coverage && p.work.outputs == RewindOutputs(a.work.outputs, k)
      && p.work.cursor == k && p.work.rescan == None && a.restore <= k <= StartHeight(a)
  {}

  /** The partner, rewound as far as the rescan rewinds, is still one chain's - in the window or not. */
  lemma RewoundExplained(b: Wallet, q: Wallet, k: nat, blocks: iset<Block>, facts: map<Outpoint, Owned>)
    requires World(blocks, facts) && Safe(b, blocks, facts) && b.restore <= k <= StartHeight(b)
    requires q == b.(work := b.work.(outputs := RewindOutputs(b.work.outputs, k), cursor := k))
    ensures Explained(q, blocks, facts)
  {
    var c, h :| Inv(b, c, h, blocks, facts);
    var n := k - b.restore;
    AgreesAtCursor(b.work.outputs, b.restore, b.coverage, c, h, n, k, blocks, facts);
    P.AgreesRewound(b.work.outputs, c[..n], b.restore, k, k, b.coverage, facts);
    assert Explains(q, c[..n], k, blocks, facts);
  }

  lemma RescannedExplainedIff(a: Wallet, b: Wallet, blocks: iset<Block>, facts: map<Outpoint, Owned>)
    requires World(blocks, facts) && WalletsInStep(a, b) && Safe(b, blocks, facts)
    ensures Explained(ApplyPendingRescan(a), blocks, facts) <==> MarkerCleans(a)
  {
    if a.work.rescan == None {
      SafeMeansOneChain(b, blocks, facts);
      ExplainedIffClean(a, b, blocks, facts);
    } else {
      var k := UnsealHeight(a, a.work.rescan.value);
      var q := b.(work := b.work.(outputs := RewindOutputs(b.work.outputs, k), cursor := k));
      RescannedIs(a, a.work.rescan.value);
      RewoundExplained(b, q, k, blocks, facts);
      RewindShadows(a.work.outputs, b.work.outputs, k);
      ExplainedIffClean(ApplyPendingRescan(a), q, blocks, facts);
      CleanRewoundIff(a.work.outputs, k);
    }
  }

  /** Unsealing after any run: the wallet is explained by one chain exactly when the marker covers every output
      without its key image, and every spend without its height. */
  lemma UnsealedExplainedIff(s: Holding, ops: seq<HoldOp>, blocks: iset<Block>, facts: map<Outpoint, Owned>)
    requires World(blocks, facts) && StartsSafe(s, blocks, facts)
    requires forall op :: op in ops ==> op.Look? ==> op.input.batch > 0
    requires HoldRunOk(s, ops, blocks)
    ensures Explained(HoldStep(HoldRun(s, ops), Unseal).live, blocks, facts) <==> MarkerCleans(HoldRun(s, ops).live)
  {
    StartPartner(s, blocks, facts);
    var b, bs := RunPartner(s, s.live, s.caches, ops, blocks, facts);
    RescannedExplainedIff(HoldRun(s, ops).live, b, blocks, facts);
  }

  lemma SafeCores(p: Wallet, q: Wallet, blocks: iset<Block>, facts: map<Outpoint, Owned>)
    requires Safe(q, blocks, facts) && p.restore == q.restore && p.coverage == q.coverage && p.work.rescan == None
    requires p.work.start == q.work.start && p.work.hashes == q.work.hashes && p.work.cursor == q.work.cursor
    requires SameCores(p.work.outputs, q.work.outputs)
    ensures Safe(p, blocks, facts)
  {
    var c, h :| Inv(q, c, h, blocks, facts);
    AgreesCores(p.work.outputs, q.work.outputs, c, q.restore, h, q.coverage, facts);
    assert Inv(p, c, h, blocks, facts);
  }

  /** A clean wallet without a marker is safe, so that all that holds of runs from a safe wallet holds from there
      on. */
  lemma CleanIsSafe(s: Holding, ops: seq<HoldOp>, blocks: iset<Block>, facts: map<Outpoint, Owned>)
    requires World(blocks, facts) && StartsSafe(s, blocks, facts)
    requires forall op :: op in ops ==> op.Look? ==> op.input.batch > 0
    requires HoldRunOk(s, ops, blocks)
    ensures var w := HoldRun(s, ops).live;
      w.work.rescan == None ==> (Safe(w, blocks, facts) <==> Clean(w.work.outputs))
  {
    StartPartner(s, blocks, facts);
    var b, bs := RunPartner(s, s.live, s.caches, ops, blocks, facts);
    var w := HoldRun(s, ops).live;
    RunExplainedIff(s, ops, blocks, facts);
    if Clean(w.work.outputs) && w.work.rescan == None {
      CleanCores(w.work.outputs, b.work.outputs);
      SafeCores(w, b, blocks, facts);
    }
    if Safe(w, blocks, facts) {
      SafeMeansOneChain(w, blocks, facts);
    }
  }

  // ---------------------------------------------------------------------------------------------
  // Runs without sends, and steady runs
  // ---------------------------------------------------------------------------------------------

  /** A spend has its height. */
  function Dated(): A.Property {
    (o: TrackedOutput) => o.spent ==> o.spendingHeight.Some?
  }

  /** An output has its key image. */
  function Seen(): A.Property {
    (o: TrackedOutput) => o.image != NO_IMAGE
  }

  lemma DatedCloses(blocks: iset<Block>, sealed: bool)
    ensures A.Closed(Dated(), blocks, sealed)
  {}

  lemma SeenCloses(blocks: iset<Block>, facts: map<Outpoint, Owned>)
    requires World(blocks, facts)
    ensures A.Closed(Seen(), blocks, false)
  {
    forall w, b, h: nat | b in blocks && w in b.owned ensures Seen()(Tracked(w, h, false)) {
      assert GoodBlock(b, facts);
    }
  }

  lemma ServedEvents(w: Wallet, input: RefreshInput, blocks: iset<Block>)
    requires InputOk(w, input, blocks)
    ensures forall ev :: ev in input.events ==> A.Served(ev, blocks)
  {}

  /** Every output of the open wallet and of every cache has the property. */
  ghost predicate Throughout(q: A.Property, s: Holding) {
    A.All(q, s.live.work.outputs) && A.AllOf(q, s.caches)
  }

  /** The blocks a refresh is given are served ones, and a send does not break the property. */
  ghost predicate Keeps(q: A.Property, op: HoldOp, blocks: iset<Block>) {
    && (op.Look? ==> forall ev :: ev in op.input.events ==> A.Served(ev, blocks))
    && (op.Send? ==> forall o :: q(o) ==> q(MarkSent(o, op.txid)))
  }

  lemma RescannedAll(q: A.Property, w: Wallet, blocks: iset<Block>, sealed: bool)
    requires A.Closed(q, blocks, sealed) && A.All(q, w.work.outputs)
    ensures A.All(q, ApplyPendingRescan(w).work.outputs)
  {
    if w.work.rescan.Some? {
      RescannedIs(w, w.work.rescan.value);
      A.RewindAll(q, w.work.outputs, UnsealHeight(w, w.work.rescan.value), blocks, sealed);
    }
  }

  lemma SentAll(q: A.Property, outputs: Outputs, inputs: set<Outpoint>, txid: Option<Txid>)
    requires A.All(q, outputs) && forall o :: q(o) ==> q(MarkSent(o, txid))
    ensures A.All(q, SendFrom(outputs, inputs, txid))
  {
    var r := SendFrom(outputs, inputs, txid);
    forall y | y in r ensures q(y) {
      var i :| 0 <= i < |r| && r[i] == y;
      assert outputs[i] in outputs;
    }
  }

  lemma LookAll(q: A.Property, s: Holding, input: RefreshInput, seen: nat)
    requires input.batch > 0 && A.AllOf(q, Publishes(s.live, s.sealed, input)) && A.AllOf(q, s.caches)
    ensures Throughout(q, HoldStep(s, Look(input, seen)))
  {
    var published := Publishes(s.live, s.sealed, input);
    assert HoldStep(s, Look(input, seen)).live in published;
  }

  lemma StepAll(q: A.Property, s: Holding, op: HoldOp, blocks: iset<Block>)
    requires A.Closed(q, blocks, s.sealed) && Throughout(q, s) && (op.Look? ==> op.input.batch > 0) && Keeps(q, op, blocks)
    ensures Throughout(q, HoldStep(s, op))
  {
    match op
    case Look(input, seen) =>
      A.PublishesAll(q, s.live, s.sealed, input, blocks);
      LookAll(q, s, input, seen);
    case GoBack(target) => A.RewindAll(q, s.live.work.outputs, RH.Max(target, s.live.restore), blocks, s.sealed);
    case OpenAgain(restore) => RescannedAll(q, s.live, blocks, s.sealed);
    case Unseal => RescannedAll(q, s.live, blocks, s.sealed);
    case Bring(i) =>
      if i < |s.caches| && s.caches[i].restore <= s.live.restore {
        assert s.caches[i] in s.caches;
        RescannedAll(q, Import(s.caches[i], s.live), blocks, s.sealed);
      }
    case Send(inputs, txid) => SentAll(q, s.live.work.outputs, inputs, txid);
    case _ =>
  }

  /** What no single step on one output can break holds throughout every run, whatever the daemon does. */
  lemma {:induction false} RunAll(q: A.Property, s: Holding, ops: seq<HoldOp>, blocks: iset<Block>)
    requires A.Closed(q, blocks, true) && A.Closed(q, blocks, false) && Throughout(q, s)
    requires forall op :: op in ops ==> op.Look? ==> op.input.batch > 0
    requires forall op :: op in ops ==> Keeps(q, op, blocks)
    ensures Throughout(q, HoldRun(s, ops))
    decreases |ops|
  {
    if ops != [] {
      StepAll(q, s, ops[0], blocks);
      RunAll(q, HoldStep(s, ops[0]), ops[1..], blocks);
    }
  }

  lemma {:induction false} RunServed(s: Holding, ops: seq<HoldOp>, blocks: iset<Block>)
    requires forall op :: op in ops ==> op.Look? ==> op.input.batch > 0
    requires HoldRunOk(s, ops, blocks)
    ensures forall op, ev :: op in ops && op.Look? && ev in op.input.events ==> A.Served(ev, blocks)
    decreases |ops|
  {
    if ops != [] {
      RunServed(HoldStep(s, ops[0]), ops[1..], blocks);
      assert ops[0].Look? ==> InputOk(s.live, ops[0].input, blocks);
      assert ops == [ops[0]] + ops[1..];
    }
  }

  /** As long as nothing is sent, every spend has its height. */
  lemma UnspentRun(s: Holding, ops: seq<HoldOp>, blocks: iset<Block>)
    requires Throughout(Dated(), s) && forall op :: op in ops ==> (op.Look? ==> op.input.batch > 0) && !op.Send?
    requires HoldRunOk(s, ops, blocks)
    ensures Throughout(Dated(), HoldRun(s, ops))
  {
    DatedCloses(blocks, true);
    DatedCloses(blocks, false);
    RunServed(s, ops, blocks);
    RunAll(Dated(), s, ops, blocks);
  }

  lemma OnResponseUnmarked(v: Working, cfg: Config, failures: nat, d: seq<Block>, probe: RH.Probe, stopped: bool)
    requires !cfg.sealed && v.rescan == None && d != []
    ensures var r := OnResponse(v, cfg, failures, d, probe, stopped); r.Next? ==> r.work.rescan == None
  {
    OnResponseCases(v, cfg, failures, d, probe, stopped);
    R.NoRescan(v, cfg, d);
  }

  ghost predicate Unmarked(ps: seq<Wallet>) {
    forall p :: p in ps ==> p.work.rescan == None
  }

  lemma {:induction false} LoopUnmarked(w: Wallet, v: Working, cfg: Config, daemonHeight: nat, batch: nat, failures: nat, events: seq<Event>)
    requires !cfg.sealed && v.rescan == None && batch > 0
    ensures Unmarked(Loop(w, v, cfg, daemonHeight, batch, failures, events))
    decreases |events|
  {
    if v.cursor < daemonHeight && events != [] {
      var ev := events[0];
      if ev.Response? && ev.blocks != [] {
        OnResponseUnmarked(v, cfg, failures, ev.blocks, ev.probe, ev.stopped);
      }
      var r := Pass(v, cfg, daemonHeight, batch, failures, ev);
      if r.Next? {
        LoopUnmarked(w, r.work, cfg, daemonHeight, batch, r.failures, events[1..]);
      }
    }
  }

  /** An unsealed refresh sets no marker. */
  lemma PublishesUnmarked(w: Wallet, input: RefreshInput)
    requires w.work.rescan == None && input.batch > 0
    ensures Unmarked(Publishes(w, false, input))
  {
    var v, cfg, dh := w.work.(cursor := StartHeight(w)), WatchConfig(w, false), input.daemonHeight;
    LoopUnmarked(w, v, cfg, dh, input.batch, 0, input.events);
    ResumeCases(w, v, cfg, input);
    var located := RH.FindReorg(cfg.restore, Window(v.start, v.hashes), input.resumeProbe);
    if located.Ok? && located.value.Some? {
      LoopUnmarked(w, ResumedAt(v, cfg, located.value.value), cfg, dh, input.batch, 0, input.events);
    }
  }

  /** While sealed, nothing makes the scan pass again over heights with finds: coverage does not grow, and no
      daemon is behind what the wallet has scanned. */
  predicate Steady(s: Holding, op: HoldOp) {
    match op
    case Look(input, _) => s.sealed ==> Ahead(s.live.work.(cursor := StartHeight(s.live)), input.daemonHeight)
    case Widen(gap) => s.sealed ==> RH.Max(gap, 1) <= s.live.coverage.gap
    case Bring(i) => s.sealed && i < |s.caches| ==> !ImportGrows(s.caches[i], s.live)
    case _ => true
  }

  ghost predicate SteadyRun(s: Holding, ops: seq<HoldOp>)
    requires forall op :: op in ops ==> op.Look? ==> op.input.batch > 0
    decreases |ops|
  {
    ops != [] ==> Steady(s, ops[0]) && SteadyRun(HoldStep(s, ops[0]), ops[1..])
  }

  /** Markers cover what was found under seal, and an unsealed wallet has none to cover. */
  ghost predicate AllCovered(s: Holding) {
    WalletKept(s.live) && AllKept(s.caches) && (!s.sealed ==> s.live.work.rescan == None)
  }

  lemma SeenIsKept(w: Wallet)
    requires A.All(Seen(), w.work.outputs)
    ensures WalletKept(w)
  {
    forall o | o in w.work.outputs ensures o.image != NO_IMAGE {
      assert Seen()(o);
    }
  }

  lemma UnmarkedIsSeen(w: Wallet)
    requires WalletKept(w) && w.work.rescan == None
    ensures A.All(Seen(), w.work.outputs)
  {}

  /** A marker that covers the blind outputs makes the rescan drop them all. */
  lemma CoveredIsSeen(a: Wallet)
    requires V.BlindAbove(a.work.outputs, a.work.rescan) && forall o :: o in a.work.outputs ==> o.height >= a.restore
    ensures A.All(Seen(), ApplyPendingRescan(a).work.outputs) && ApplyPendingRescan(a).work.rescan == None
  {
    if a.work.rescan.Some? {
      var k := UnsealHeight(a, a.work.rescan.value);
      RescannedIs(a, a.work.rescan.value);
      forall q | q in RewindOutputs(a.work.outputs, k) ensures Seen()(q) {
        S.FilterMapMembers(Rewinder(k), a.work.outputs, q);
        var o :| o in a.work.outputs && Rewinder(k)(o) == Some(q);
      }
    }
  }

  lemma HeightsAbove(a: Wallet, b: Wallet, blocks: iset<Block>, facts: map<Outpoint, Owned>)
    requires WalletsInStep(a, b) && Safe(b, blocks, facts)
    ensures forall o :: o in a.work.outputs ==> o.height >= a.restore
  {
    SafeSpends(b, blocks, facts);
    forall o | o in a.work.outputs ensures o.height >= a.restore {
      var i :| 0 <= i < |a.work.outputs| && a.work.outputs[i] == o;
      assert Shadow(o, b.work.outputs[i]) && b.work.outputs[i] in b.work.outputs;
    }
  }

  lemma LookCovered(s: Holding, b: Wallet, bs: seq<Wallet>, input: RefreshInput, seen: nat, blocks: iset<Block>, facts: map<Outpoint, Owned>)
    requires World(blocks, facts) && Partnered(s, b, bs, blocks, facts) && InputOk(b, input, blocks)
    requires AllCovered(s) && Steady(s, Look(input, seen))
    ensures AllCovered(HoldStep(s, Look(input, seen)))
  {
    var published := Publishes(s.live, s.sealed, input);
    if s.sealed {
      RefreshKept(s.live, b, input, blocks, facts);
    } else {
      UnmarkedIsSeen(s.live);
      SeenCloses(blocks, facts);
      ServedEvents(b, input, blocks);
      A.PublishesAll(Seen(), s.live, false, input, blocks);
      PublishesUnmarked(s.live, input);
      forall p | p in published ensures WalletKept(p) {
        SeenIsKept(p);
      }
    }
    assert HoldStep(s, Look(input, seen)).live in published;
  }

  lemma RescannedCovered(a: Wallet, b: Wallet, blocks: iset<Block>, facts: map<Outpoint, Owned>)
    requires WalletsInStep(a, b) && Safe(b, blocks, facts) && V.BlindAbove(a.work.outputs, a.work.rescan)
    ensures A.All(Seen(), ApplyPendingRescan(a).work.outputs) && ApplyPendingRescan(a).work.rescan == None
    ensures WalletKept(ApplyPendingRescan(a))
  {
    HeightsAbove(a, b, blocks, facts);
    CoveredIsSeen(a);
    SeenIsKept(ApplyPendingRescan(a));
  }

  lemma ReopenedCovered(a: Wallet, b: Wallet, restore: nat, blocks: iset<Block>, facts: map<Outpoint, Owned>)
    requires WalletsInStep(a, b) && Safe(b, blocks, facts) && WalletKept(a)
    ensures WalletKept(Reopened(a, restore)) && Reopened(a, restore).work.rescan == None
  {
    RescannedCovered(a, b, blocks, facts);
    SeenIsKept(Reopened(a, restore));
  }

  lemma BroughtCovered(s: Holding, b: Wallet, bs: seq<Wallet>, i: nat, blocks: iset<Block>, facts: map<Outpoint, Owned>)
    requires World(blocks, facts) && Partnered(s, b, bs, blocks, facts) && HoldOk(s, Bring(i), blocks)
    requires AllCovered(s) && Steady(s, Bring(i))
    ensures AllCovered(HoldStep(s, Bring(i)))
  {
    if i < |s.caches| && s.caches[i].restore <= s.live.restore {
      assert bs[i] in bs && s.caches[i] in s.caches;
      var x := Import(s.caches[i], s.live);
      if !s.sealed {
        var y := ImportedPartner(s.caches[i], s.live, bs[i], b, blocks, facts);
        RescannedCovered(x, y, blocks, facts);
      } else {
        assert StartHeight(x) == StartHeight(s.caches[i]);
      }
    }
  }

  lemma SentCovered(s: Holding, inputs: set<Outpoint>, txid: Option<Txid>)
    requires AllCovered(s)
    ensures AllCovered(HoldStep(s, Send(inputs, txid)))
  {
    if !s.sealed {
      var r := SendFrom(s.live.work.outputs, inputs, txid);
      UnmarkedIsSeen(s.live);
      forall o | o in r ensures Seen()(o) {
        var i :| 0 <= i < |r| && r[i] == o;
        assert Seen()(s.live.work.outputs[i]);
      }
      SeenIsKept(HoldStep(s, Send(inputs, txid)).live);
    }
  }

  lemma StepCovered(s: Holding, b: Wallet, bs: seq<Wallet>, op: HoldOp, blocks: iset<Block>, facts: map<Outpoint, Owned>)
    requires World(blocks, facts) && Partnered(s, b, bs, blocks, facts)
    requires (op.Look? ==> op.input.batch > 0) && HoldOk(s, op, blocks) && AllCovered(s) && Steady(s, op)
    ensures AllCovered(HoldStep(s, op))
  {
    match op
    case Look(input, seen) => LookCovered(s, b, bs, input, seen, blocks, facts);
    case Widen(gap) =>
    case GoBack(target) =>
      var k := if target < s.live.restore then s.live.restore else target;
      RewoundKept(s.live.work.outputs, s.live.work.rescan, StartHeight(s.live), k, k);
    case OpenAgain(restore) => ReopenedCovered(s.live, b, restore, blocks, facts);
    case Unseal => RescannedCovered(s.live, b, blocks, facts);
    case Bring(i) => BroughtCovered(s, b, bs, i, blocks, facts);
    case Send(inputs, txid) => SentCovered(s, inputs, txid);
    case _ =>
  }

  lemma {:induction false} RunCovered(s: Holding, b: Wallet, bs: seq<Wallet>, ops: seq<HoldOp>, blocks: iset<Block>, facts: map<Outpoint, Owned>)
    requires World(blocks, facts) && Partnered(s, b, bs, blocks, facts)
    requires forall op :: op in ops ==> op.Look? ==> op.input.batch > 0
    requires HoldRunOk(s, ops, blocks) && AllCovered(s) && SteadyRun(s, ops)
    ensures AllCovered(HoldRun(s, ops))
    decreases |ops|
  {
    if ops != [] {
      StepCovered(s, b, bs, ops[0], blocks, facts);
      var b', bs' := StepPartner(s, b, bs, ops[0], blocks, facts);
      RunCovered(HoldStep(s, ops[0]), b', bs', ops[1..], blocks, facts);
    }
  }

  lemma SafeIsSeen(w: Wallet, blocks: iset<Block>, facts: map<Outpoint, Owned>)
    requires World(blocks, facts) && Safe(w, blocks, facts)
    ensures A.All(Seen(), w.work.outputs) && A.All(Dated(), w.work.outputs) && WalletKept(w) && w.work.rescan == None
  {
    var c, h :| Inv(w, c, h, blocks, facts);
    forall o | o in w.work.outputs ensures Seen()(o) && Dated()(o) {
      assert KnownOutput(o, facts, w.coverage) && P.Grounded(o, c, w.restore);
    }
    SeenIsKept(w);
    NoPendingRescan(w, blocks, facts);
  }

  lemma StartsCovered(s: Holding, blocks: iset<Block>, facts: map<Outpoint, Owned>)
    requires World(blocks, facts) && StartsSafe(s, blocks, facts)
    ensures AllCovered(s) && Throughout(Dated(), s)
  {
    SafeIsSeen(s.live, blocks, facts);
    forall p | p in s.caches ensures WalletKept(p) && A.All(Dated(), p.work.outputs) {
      SafeIsSeen(p, blocks, facts);
    }
  }

  /** The wallet unsealed, if it is not already. */
  ghost function Opening(s: Holding): Wallet {
    if s.sealed then ApplyPendingRescan(s.live) else s.live
  }

  /** Sealing and unsealing any number of times, sealed caches carried over process death, the daemon free to change
      chain as ever: as long as the run is steady, every output of the unsealed wallet has its key image, and
      the wallet is explained by one chain exactly when every spend has its height. */
  lemma SteadyRunExplainedIff(s: Holding, ops: seq<HoldOp>, blocks: iset<Block>, facts: map<Outpoint, Owned>)
    requires World(blocks, facts) && StartsSafe(s, blocks, facts)
    requires forall op :: op in ops ==> op.Look? ==> op.input.batch > 0
    requires HoldRunOk(s, ops, blocks) && SteadyRun(s, ops)
    ensures var w := Opening(HoldRun(s, ops));
      && A.All(Seen(), w.work.outputs)
      && (Explained(w, blocks, facts) <==> A.All(Dated(), w.work.outputs))
  {
    StartPartner(s, blocks, facts);
    StartsCovered(s, blocks, facts);
    RunCovered(s, s.live, s.caches, ops, blocks, facts);
    var b, bs := RunPartner(s, s.live, s.caches, ops, blocks, facts);
    var r := HoldRun(s, ops);
    RescannedCovered(r.live, b, blocks, facts);
    RescannedExplainedIff(r.live, b, blocks, facts);
    OpeningClean(r);
  }

  lemma OpeningClean(r: Holding)
    requires (!r.sealed ==> r.live.work.rescan == None) && A.All(Seen(), ApplyPendingRescan(r.live).work.outputs)
    ensures Opening(r) == ApplyPendingRescan(r.live)
    ensures MarkerCleans(r.live) <==> A.All(Dated(), Opening(r).work.outputs)
  {
    var outputs := ApplyPendingRescan(r.live).work.outputs;
    if r.live.work.rescan.Some? {
      RescannedIs(r.live, r.live.work.rescan.value);
      CleanRewoundIff(r.live.work.outputs, UnsealHeight(r.live, r.live.work.rescan.value));
    }
    assert Clean(outputs) <==> A.All(Dated(), outputs) by {
      forall o | o in outputs ensures CleanOne(o) <==> Dated()(o) {
        assert Seen()(o);
      }
    }
  }

  /** Without sends such a wallet is always explained. */
  lemma SteadyUnspentRunExplained(s: Holding, ops: seq<HoldOp>, blocks: iset<Block>, facts: map<Outpoint, Owned>)
    requires World(blocks, facts) && StartsSafe(s, blocks, facts)
    requires forall op :: op in ops ==> (op.Look? ==> op.input.batch > 0) && !op.Send?
    requires HoldRunOk(s, ops, blocks) && SteadyRun(s, ops)
    ensures Explained(Opening(HoldRun(s, ops)), blocks, facts)
  {
    StartsCovered(s, blocks, facts);
    UnspentRun(s, ops, blocks);
    SteadyRunExplainedIff(s, ops, blocks, facts);
    var r := HoldRun(s, ops);
    DatedCloses(blocks, false);
    RescannedAll(Dated(), r.live, blocks, false);
  }
}
