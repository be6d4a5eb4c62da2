/** Two scans of the same answers. The first may be sealed, so that it loses the key images of what it finds and
    with them the spends of those outputs; and outputs of its wallet may have been marked spent by a send
    that no scanned block contains. In everything else it runs in step with a plain, unsealed scan. */
module InStep {
  import opened Chain
  import opened Scan
  import opened Cores
  import opened Engine
  import P = Replay
  import R = Rewinding
  import RH = RecentHashes
  import S = Seqs
  import V = Sealing

  // ---------------------------------------------------------------------------------------------
  // In step
  // ---------------------------------------------------------------------------------------------

  /** What a sealed scan holds of an output it found. */
  function Blinded(q: TrackedOutput): TrackedOutput {
    q.(image := NO_IMAGE, spent := false, spendingTxid := None, spendingHeight := None)
  }

  predicate Blind(p: TrackedOutput, q: TrackedOutput) {
    Core(p).(spent := false) == Blinded(q)
  }

  /** The same, but perhaps marked spent without a height. */
  predicate Marked(p: TrackedOutput, q: TrackedOutput) {
    Core(p).(spent := q.spent) == Core(q) && (p.spent != q.spent ==> p.spent && p.spendingHeight == None)
  }

  /** `p` is the first scan's record of `q`. Spender ids aside. */
  predicate Shadow(p: TrackedOutput, q: TrackedOutput) {
    Marked(p, q) || Blind(p, q)
  }

  ghost predicate Shadows(s: Outputs, u: Outputs) {
    |s| == |u| && forall i :: 0 <= i < |s| ==> Shadow(s[i], u[i])
  }

  ghost predicate Respects(f: TrackedOutput -> Option<TrackedOutput>) {
    forall p, q :: Shadow(p, q) ==> (f(p).Some? <==> f(q).Some?) && (f(p).Some? ==> Shadow(f(p).value, f(q).value))
  }

  lemma {:induction false} FilterShadows(f: TrackedOutput -> Option<TrackedOutput>, s: Outputs, u: Outputs)
    requires Respects(f) && Shadows(s, u)
    ensures Shadows(S.FilterMap(f, s), S.FilterMap(f, u))
  {
    if s != [] {
      FilterShadows(f, s[..|s|-1], u[..|u|-1]);
      assert Shadow(s[|s|-1], u[|u|-1]);
    }
  }

  lemma RewindShadows(s: Outputs, u: Outputs, h: nat)
    requires Shadows(s, u)
    ensures Shadows(RewindOutputs(s, h), RewindOutputs(u, h))
  {
    FilterShadows(Rewinder(h), s, u);
  }

  lemma ReconcileShadows(s: Outputs, u: Outputs, h: nat, txids: set<Txid>, images: set<Image>)
    requires Shadows(s, u)
    ensures Shadows(Reconcile(s, h, txids, images), Reconcile(u, h, txids, images))
  {
    FilterShadows(Reconciler(h, txids, images), s, u);
  }

  ghost predicate ImagesTell(u: Outputs) {
    && (forall i, j :: 0 <= i < j < |u| ==> u[i].image != u[j].image)
    && (forall i :: 0 <= i < |u| ==> u[i].image != NO_IMAGE)
  }

  lemma SightingShadows(s: Outputs, u: Outputs, x: Sighting, h: nat)
    requires Shadows(s, u) && ImagesTell(u)
    ensures Shadows(ApplySighting(s, x, h), ApplySighting(u, x, h)) && ImagesTell(ApplySighting(u, x, h))
  {
    if x.image != NO_IMAGE {
      var i, k := ImageIndex(s, x.image), ImageIndex(u, x.image);
      assert forall j :: 0 <= j < |s| ==> s[j].image == u[j].image || s[j].image == NO_IMAGE;
      if i < |s| {
        assert u[i].image == x.image && k == i;
      }
    }
  }

  lemma {:induction false} SightingsShadow(s: Outputs, u: Outputs, ss: seq<Sighting>, h: nat)
    requires Shadows(s, u) && ImagesTell(u)
    ensures Shadows(ApplySightings(s, ss, h), ApplySightings(u, ss, h)) && ImagesTell(ApplySightings(u, ss, h))
  {
    if ss != [] {
      var init, last := ss[..|ss|-1], ss[|ss|-1];
      SightingsShadow(s, u, init, h);
      SightingShadows(ApplySightings(s, init, h), ApplySightings(u, init, h), last, h);
    }
  }

  lemma SameOutpoint(s: Outputs, u: Outputs, p: Outpoint)
    requires Shadows(s, u)
    ensures OutpointIndex(s, p) == OutpointIndex(u, p)
  {
    var i, k := OutpointIndex(s, p), OutpointIndex(u, p);
    assert forall j :: 0 <= j < |s| ==> Core(s[j]).outpoint == u[j].outpoint;
  }

  lemma SameKey(s: Outputs, u: Outputs, key: Key)
    requires Shadows(s, u)
    ensures HasKey(s, key) <==> HasKey(u, key)
  {
    assert forall j :: 0 <= j < |s| ==> Core(s[j]).key == u[j].key;
    if HasKey(s, key) {
      var o :| o in s && o.key == key;
      var j :| 0 <= j < |s| && s[j] == o;
      assert u[j] in u;
    }
    if HasKey(u, key) {
      var o :| o in u && o.key == key;
      var j :| 0 <= j < |u| && u[j] == o;
      assert s[j] in s;
    }
  }

  ghost predicate ReceiptsShadow(a: Result<Receipt>, b: Result<Receipt>) {
    (a.Ok? <==> b.Ok?) && (a.Ok? ==> Shadows(a.value.outputs, b.value.outputs))
  }

  lemma ReceiveOneShadows(s: Receipt, u: Receipt, o: Owned, h: nat, sealed: bool)
    requires Shadows(s.outputs, u.outputs)
    ensures ReceiptsShadow(ReceiveOne(s, o, h, sealed), ReceiveOne(u, o, h, false))
  {
    SameOutpoint(s.outputs, u.outputs, o.outpoint);
    SameKey(s.outputs, u.outputs, o.key);
    var i := OutpointIndex(s.outputs, o.outpoint);
    assert i < |s.outputs| ==> Shadow(s.outputs[i], u.outputs[i]);
    assert Shadow(Tracked(o, h, sealed), Tracked(o, h, false));
  }

  lemma {:induction false} ReceiveShadows(s: Receipt, u: Receipt, owned: seq<Owned>, h: nat, sealed: bool)
    requires Shadows(s.outputs, u.outputs)
    ensures ReceiptsShadow(Receive(s, owned, h, sealed), Receive(u, owned, h, false))
  {
    if owned != [] {
      var init, last := owned[..|owned|-1], owned[|owned|-1];
      ReceiveShadows(s, u, init, h, sealed);
      if Receive(s, init, h, sealed).Ok? {
        ReceiveOneShadows(Receive(s, init, h, sealed).value, Receive(u, init, h, false).value, last, h, sealed);
      }
    }
  }

  /** The change heuristic can judge differently, but only about spender ids. */
  lemma AttributeShadows(s: Outputs, u: Outputs, h: nat)
    requires Shadows(s, u)
    ensures Shadows(Attribute(s, h), Attribute(u, h))
  {
    R.AttributeMarks(s, h);
    R.AttributeMarks(u, h);
    var a, b := Attribute(s, h), Attribute(u, h);
    forall i | 0 <= i < |s| ensures Shadow(a[i], b[i]) {
      assert Core(a[i]) == Core(s[i]) && Core(b[i]) == Core(u[i]) && Shadow(s[i], u[i]);
    }
  }

  // ---------------------------------------------------------------------------------------------
  // One block
  // ---------------------------------------------------------------------------------------------

  /** Where there is nothing to reconcile, reconciling changes nothing. */
  lemma ReconciledIs(outputs: Outputs, cfg: Config, h: nat, b: Block)
    requires P.LeftoversIn(outputs, h, cfg.replay)
    ensures Reconciled(outputs, cfg, h, b) == Reconcile(outputs, h, TxidsOf(b), DecodedImages(b.decoded))
  {
    if h !in cfg.replay {
      S.FilterMapIdentity(Reconciler(h, TxidsOf(b), DecodedImages(b.decoded)), outputs);
    }
  }

  ghost predicate LeftoverOne(o: TrackedOutput, h: nat, replay: set<nat>) {
    && (o.height >= h ==> o.height in replay)
    && (o.spendingHeight.Some? && o.spendingHeight.value >= h ==> o.spendingHeight.value in replay)
  }

  lemma ReconcileLeaves(outputs: Outputs, h: nat, txids: set<Txid>, images: set<Image>, next: nat, replay: set<nat>)
    requires P.LeftoversIn(outputs, h, replay) && h <= next
    ensures P.LeftoversIn(Reconcile(outputs, h, txids, images), next, replay)
  {
    forall q | q in Reconcile(outputs, h, txids, images) ensures LeftoverOne(q, next, replay) {
      S.FilterMapMembers(Reconciler(h, txids, images), outputs, q);
      var o :| o in outputs && Reconciler(h, txids, images)(o) == Some(q);
    }
  }

  lemma SightingsLeave(outputs: Outputs, ss: seq<Sighting>, h: nat, next: nat, replay: set<nat>)
    requires P.LeftoversIn(outputs, next, replay) && h < next
    ensures P.LeftoversIn(ApplySightings(outputs, ss, h), next, replay)
  {
    R.SightingsMark(outputs, ss, h);
    var marked := ApplySightings(outputs, ss, h);
    forall q | q in marked ensures LeftoverOne(q, next, replay) {
      var i :| 0 <= i < |marked| && marked[i] == q;
      assert outputs[i] in outputs && LeftoverOne(outputs[i], next, replay);
    }
  }

  lemma {:induction false} ReceiveLeaves(r: Receipt, owned: seq<Owned>, h: nat, sealed: bool, next: nat, replay: set<nat>)
    requires P.LeftoversIn(r.outputs, next, replay) && h < next
    ensures Receive(r, owned, h, sealed).Ok? ==> P.LeftoversIn(Receive(r, owned, h, sealed).value.outputs, next, replay)
  {
    if owned != [] && Receive(r, owned, h, sealed).Ok? {
      var init, last := owned[..|owned|-1], owned[|owned|-1];
      ReceiveLeaves(r, init, h, sealed, next, replay);
      var mid, after := Receive(r, init, h, sealed).value.outputs, Receive(r, owned, h, sealed).value.outputs;
      forall q | q in after ensures LeftoverOne(q, next, replay) {
        var i :| 0 <= i < |after| && after[i] == q;
        assert i < |mid| ==> mid[i] in mid && LeftoverOne(mid[i], next, replay);
      }
    }
  }

  lemma AttributeLeaves(outputs: Outputs, h: nat, next: nat, replay: set<nat>)
    requires P.LeftoversIn(outputs, next, replay)
    ensures P.LeftoversIn(Attribute(outputs, h), next, replay)
  {
    R.AttributeMarks(outputs, h);
    var after := Attribute(outputs, h);
    forall q | q in after ensures LeftoverOne(q, next, replay) {
      var i :| 0 <= i < |after| && after[i] == q;
      assert outputs[i] in outputs && LeftoverOne(outputs[i], next, replay);
    }
  }

  /** A block leaves no history behind at its own height, whatever state it meets. */
  lemma BlockLeaves(outputs: Outputs, rescan: Option<nat>, cfg: Config, h: nat, next: nat, b: Block)
    requires P.LeftoversIn(outputs, h, cfg.replay) && next == h + 1
    ensures ApplyOutputs(outputs, rescan, cfg, h, b).Ok?
      ==> P.LeftoversIn(ApplyOutputs(outputs, rescan, cfg, h, b).value.outputs, next, cfg.replay)
  {
    ReconciledIs(outputs, cfg, h, b);
    var kept := Reconciled(outputs, cfg, h, b);
    ReconcileLeaves(outputs, h, TxidsOf(b), DecodedImages(b.decoded), next, cfg.replay);
    SightingsLeave(kept, Sightings(b), h, next, cfg.replay);
    var marked, owned := ApplySightings(kept, Sightings(b), h), ScanOwned(b.owned, cfg.coverage);
    ReceiveLeaves(Receipt(marked, rescan), owned, h, cfg.sealed, next, cfg.replay);
    var r := Receive(Receipt(marked, rescan), owned, h, cfg.sealed);
    if r.Ok? {
      AttributeLeaves(r.value.outputs, h, next, cfg.replay);
    }
  }

  /** The two configurations of one answer, each with the heights of its own history. */
  ghost predicate Paired(s: Config, u: Config) {
    s.restore == u.restore && s.coverage == u.coverage && !u.sealed
  }

  lemma KnownImages(u: Outputs, facts: map<Outpoint, Owned>, coverage: Coverage)
    requires Well(u, facts, coverage) && GoodFacts(facts)
    ensures ImagesTell(u)
  {
    ImagesDistinct(u, facts, coverage);
    forall i | 0 <= i < |u| ensures u[i].image != NO_IMAGE {
      assert u[i] in u && KnownOutput(u[i], facts, coverage);
    }
  }

  /** The outputs of a block after reconciling and marking. */
  function Sighted(outputs: Outputs, cfg: Config, h: nat, b: Block): Outputs {
    ApplySightings(Reconciled(outputs, cfg, h, b), Sightings(b), h)
  }

  lemma MarkedShadows(s: Outputs, u: Outputs, cfgS: Config, cfgU: Config, h: nat, b: Block, facts: map<Outpoint, Owned>)
    requires Shadows(s, u) && Paired(cfgS, cfgU) && GoodFacts(facts) && Well(u, facts, cfgU.coverage)
    requires P.LeftoversIn(s, h, cfgS.replay) && P.LeftoversIn(u, h, cfgU.replay)
    ensures Shadows(Sighted(s, cfgS, h, b), Sighted(u, cfgU, h, b)) && Well(Sighted(u, cfgU, h, b), facts, cfgU.coverage)
  {
    ReconciledIs(s, cfgS, h, b);
    ReconciledIs(u, cfgU, h, b);
    ReconcileShadows(s, u, h, TxidsOf(b), DecodedImages(b.decoded));
    var ks, ku := Reconciled(s, cfgS, h, b), Reconciled(u, cfgU, h, b);
    ReconciledWell(u, cfgU, h, b, facts);
    KnownImages(ku, facts, cfgU.coverage);
    SightingsShadow(ks, ku, Sightings(b), h);
    MarkedWell(ku, b, h, facts, cfgU.coverage);
  }

  lemma BlockShadows(s: Outputs, u: Outputs, rescan: Option<nat>, mark: Option<nat>, cfgS: Config, cfgU: Config, h: nat, b: Block,
                     facts: map<Outpoint, Owned>)
    requires Shadows(s, u) && Paired(cfgS, cfgU) && GoodFacts(facts) && Well(u, facts, cfgU.coverage)
    requires P.LeftoversIn(s, h, cfgS.replay) && P.LeftoversIn(u, h, cfgU.replay)
    ensures ReceiptsShadow(ApplyOutputs(s, mark, cfgS, h, b), ApplyOutputs(u, rescan, cfgU, h, b))
  {
    MarkedShadows(s, u, cfgS, cfgU, h, b, facts);
    var ms, mu := Sighted(s, cfgS, h, b), Sighted(u, cfgU, h, b);
    var owned := ScanOwned(b.owned, cfgU.coverage);
    ReceiveShadows(Receipt(ms, mark), Receipt(mu, rescan), owned, h, cfgS.sealed);
    var rs, ru := Receive(Receipt(ms, mark), owned, h, cfgS.sealed), Receive(Receipt(mu, rescan), owned, h, false);
    if rs.Ok? {
      AttributeShadows(rs.value.outputs, ru.value.outputs, h);
    }
  }

  // ---------------------------------------------------------------------------------------------
  // A batch
  // ---------------------------------------------------------------------------------------------

  /** Same outputs but for what the seal hides, same window, same cursor. */
  ghost predicate InStep(s: Working, u: Working) {
    Shadows(s.outputs, u.outputs) && s.start == u.start && s.hashes == u.hashes && s.cursor == u.cursor
  }

  ghost predicate ResultsInStep(a: Result<Working>, b: Result<Working>, replay: set<nat>) {
    (a.Ok? <==> b.Ok?) && (a.Ok? ==> InStep(a.value, b.value) && P.LeftoversIn(a.value.outputs, a.value.cursor, replay))
  }

  lemma BlockInStep(s: Working, u: Working, cfgS: Config, cfgU: Config, b: Block, facts: map<Outpoint, Owned>)
    requires InStep(s, u) && Paired(cfgS, cfgU) && GoodFacts(facts) && Well(u.outputs, facts, cfgU.coverage)
    requires P.LeftoversIn(s.outputs, s.cursor, cfgS.replay) && P.LeftoversIn(u.outputs, u.cursor, cfgU.replay)
    ensures ResultsInStep(ApplyBlock(s, cfgS, b), ApplyBlock(u, cfgU, b), cfgS.replay)
  {
    var next := s.cursor + 1;
    BlockShadows(s.outputs, u.outputs, u.rescan, s.rescan, cfgS, cfgU, s.cursor, b, facts);
    BlockLeaves(s.outputs, s.rescan, cfgS, s.cursor, next, b);
  }

  lemma {:induction false} BlocksInStep(s: Working, u: Working, cfgS: Config, cfgU: Config, c: seq<Block>, d: seq<Block>, facts: map<Outpoint, Owned>)
    requires InStep(s, u) && Paired(cfgS, cfgU) && GoodFacts(facts) && R.GoodChain(c + d, facts)
    requires P.Agrees(u.outputs, c, cfgU.restore, u.cursor, cfgU.coverage, facts)
    requires P.LeftoversIn(s.outputs, s.cursor, cfgS.replay) && P.LeftoversIn(u.outputs, u.cursor, cfgU.replay)
    ensures ResultsInStep(ApplyBlocks(s, cfgS, d), ApplyBlocks(u, cfgU, d), cfgS.replay)
  {
    if d != [] {
      var init, b := d[..|d|-1], d[|d|-1];
      var e := c + init;
      AppendSnoc(c, d);
      assert (c + d)[..|e|] == e;
      R.GoodChainPrefix(c + d, |e|, facts);
      BlocksInStep(s, u, cfgS, cfgU, c, init, facts);
      P.ReplayBlocks(u, cfgU, c, cfgU.restore, init, facts);
      BlockInStep(ApplyBlocks(s, cfgS, init).value, ApplyBlocks(u, cfgU, init).value, cfgS, cfgU, b, facts);
      assert ApplyBlocks(s, cfgS, d) == ThenBlock(ApplyBlocks(s, cfgS, init), cfgS, b);
      assert ApplyBlocks(u, cfgU, d) == ThenBlock(ApplyBlocks(u, cfgU, init), cfgU, b);
    }
  }

  lemma BatchInStep(s: Working, u: Working, cfgS: Config, cfgU: Config, c: seq<Block>, h: nat, n: nat, d: seq<Block>,
                    blocks: iset<Block>, facts: map<Outpoint, Owned>)
    requires World(blocks, facts) && InStep(s, u) && Paired(cfgS, cfgU) && Anchored(u, cfgU, c, h, blocks, facts)
    requires P.LeftoversIn(s.outputs, s.cursor, cfgS.replay) && P.LeftoversIn(u.outputs, u.cursor, cfgU.replay)
    requires n <= |c| && u.cursor == cfgU.restore + n && d != [] && Linked(d, u.cursor) && Among(d, blocks)
    requires ExpectedParent(u) == None || ExpectedParent(u) == Some(d[0].previous)
    ensures ResultsInStep(ApplyBlocks(s, cfgS, d), ApplyBlocks(u, cfgU, d), cfgS.replay)
  {
    var base, e := cfgU.restore, c[..n];
    AgreesAtCursor(u.outputs, base, cfgU.coverage, c, h, n, u.cursor, blocks, facts);
    WindowForPrefix(Window(u.start, u.hashes), c, base, n, u.cursor);
    BatchLinked(Window(u.start, u.hashes), e, base, u.cursor, d);
    WorldChain(e + d, base, blocks, facts);
    BlocksInStep(s, u, cfgS, cfgU, e, d, facts);
  }

  // ---------------------------------------------------------------------------------------------
  // A pass and the loop
  // ---------------------------------------------------------------------------------------------

  ghost predicate OutcomesInStep(a: Outcome, b: Outcome, replay: set<nat>) {
    && (a.Stop? <==> b.Stop?)
    && (a.Next? ==> a.failures == b.failures && a.committed == b.committed && InStep(a.work, b.work)
                    && P.LeftoversIn(a.work.outputs, a.work.cursor, replay))
  }

  lemma RewindInStep(s: Working, u: Working, restore: nat, h: nat, replay: set<nat>)
    requires InStep(s, u) && restore <= h
    ensures InStep(Rewind(restore, h, s), Rewind(restore, h, u)) && P.LeftoversIn(Rewind(restore, h, s).outputs, h, replay)
  {
    RewindShadows(s.outputs, u.outputs, h);
    RewoundLeftovers(s.outputs, h, replay);
  }

  /** With neither a match nor a fork both retry, or both stop. */
  lemma BothWait(s: Working, u: Working, cfgS: Config, cfgU: Config, failures: nat, d: seq<Block>, probe: RH.Probe, stopped: bool)
    requires s.start == u.start && s.hashes == u.hashes && s.cursor == u.cursor && cfgS.restore == cfgU.restore && d != []
    requires ExpectedParent(u) != None && ExpectedParent(u) != Some(d[0].previous)
    requires var located := RH.FindReorg(cfgU.restore, Window(u.start, u.hashes), probe); located == Err || located == Ok(None)
    ensures var a, b := OnResponse(s, cfgS, failures, d, probe, stopped), OnResponse(u, cfgU, failures, d, probe, stopped);
      (a == Stop && b == Stop) || (a == Next(s, failures + 1, false) && b == Next(u, failures + 1, false))
  {}

  lemma OnResponseInStep(s: Working, u: Working, cfgS: Config, cfgU: Config, failures: nat, d: seq<Block>, probe: RH.Probe, stopped: bool,
                         c: seq<Block>, h: nat, blocks: iset<Block>, facts: map<Outpoint, Owned>)
    requires World(blocks, facts) && InStep(s, u) && Paired(cfgS, cfgU) && Anchored(u, cfgU, c, h, blocks, facts)
    requires P.LeftoversIn(s.outputs, s.cursor, cfgS.replay) && P.LeftoversIn(u.outputs, u.cursor, cfgU.replay)
    requires d != [] && Linked(d, u.cursor) && Among(d, blocks)
    ensures OutcomesInStep(OnResponse(s, cfgS, failures, d, probe, stopped), OnResponse(u, cfgU, failures, d, probe, stopped), cfgS.replay)
  {
    OnResponseCases(s, cfgS, failures, d, probe, stopped);
    OnResponseCases(u, cfgU, failures, d, probe, stopped);
    if ExpectedParent(u) == None || ExpectedParent(u) == Some(d[0].previous) {
      BatchInStep(s, u, cfgS, cfgU, c, h, u.cursor - cfgU.restore, d, blocks, facts);
    } else {
      var located := RH.FindReorg(cfgU.restore, Window(u.start, u.hashes), probe);
      if located.Ok? && located.value.Some? {
        LocatedAbove(u, cfgU, c, h, probe, blocks, facts);
        RewindInStep(s, u, cfgU.restore, located.value.value, cfgS.replay);
      } else {
        BothWait(s, u, cfgS, cfgU, failures, d, probe, stopped);
      }
    }
  }

  lemma LocatedAbove(u: Working, cfg: Config, c: seq<Block>, h: nat, probe: RH.Probe, blocks: iset<Block>, facts: map<Outpoint, Owned>)
    requires Anchored(u, cfg, c, h, blocks, facts)
    ensures match RH.FindReorg(cfg.restore, Window(u.start, u.hashes), probe) case Ok(Some(k)) => cfg.restore <= k case _ => true
  {
    var located := RH.FindReorg(cfg.restore, Window(u.start, u.hashes), probe);
    if located.Ok? && located.value.Some? {
      RH.LocatedHeight(cfg.restore, Window(u.start, u.hashes), probe);
    }
  }

  lemma PassInStep(s: Working, u: Working, cfgS: Config, cfgU: Config, daemonHeight: nat, batch: nat, failures: nat, ev: Event,
                   blocks: iset<Block>, facts: map<Outpoint, Owned>)
    requires World(blocks, facts) && InStep(s, u) && Paired(cfgS, cfgU) && Resumable(u, cfgU, daemonHeight, blocks, facts)
    requires P.LeftoversIn(s.outputs, s.cursor, cfgS.replay)
    requires u.cursor < daemonHeight && batch > 0 && EventOk(ev, blocks)
    ensures OutcomesInStep(Pass(s, cfgS, daemonHeight, batch, failures, ev), Pass(u, cfgU, daemonHeight, batch, failures, ev), cfgS.replay)
  {
    var requested := Requested(u.cursor, daemonHeight, batch);
    if ev.Response? && ValidResponse(ev.path, u.cursor, requested, ev.blocks) {
      ResponseLinked(ev, u.cursor, requested, blocks);
      ServedInStep(s, u, cfgS, cfgU, daemonHeight, failures, ev, blocks, facts);
    }
  }

  lemma ServedInStep(s: Working, u: Working, cfgS: Config, cfgU: Config, daemonHeight: nat, failures: nat, ev: Event,
                     blocks: iset<Block>, facts: map<Outpoint, Owned>)
    requires World(blocks, facts) && InStep(s, u) && Paired(cfgS, cfgU) && Resumable(u, cfgU, daemonHeight, blocks, facts)
    requires P.LeftoversIn(s.outputs, s.cursor, cfgS.replay)
    requires ev.Response? && ev.blocks != [] && Linked(ev.blocks, u.cursor) && Among(ev.blocks, blocks)
    ensures OutcomesInStep(OnResponse(s, cfgS, failures, ev.blocks, ev.probe, ev.stopped),
                           OnResponse(u, cfgU, failures, ev.blocks, ev.probe, ev.stopped), cfgS.replay)
  {
    var c, h :| Anchored(u, cfgU, c, h, blocks, facts);
    OnResponseInStep(s, u, cfgS, cfgU, failures, ev.blocks, ev.probe, ev.stopped, c, h, blocks, facts);
  }

  /** Two published wallets, sealed and not. */
  ghost predicate WalletsInStep(a: Wallet, b: Wallet) {
    a.restore == b.restore && a.coverage == b.coverage && InStep(a.work, b.work)
  }

  ghost predicate AllInStep(a: seq<Wallet>, b: seq<Wallet>) {
    |a| == |b| && forall i :: 0 <= i < |a| ==> WalletsInStep(a[i], b[i])
  }

  lemma CommitInStep(a: Wallet, b: Wallet, s: Working, u: Working, daemonHeight: nat)
    requires WalletsInStep(a, b) && InStep(s, u)
    ensures WalletsInStep(Commit(a, s, daemonHeight), Commit(b, u, daemonHeight))
  {}

  lemma ConsInStep(a: Wallet, b: Wallet, ps: seq<Wallet>, qs: seq<Wallet>)
    requires WalletsInStep(a, b) && AllInStep(ps, qs)
    ensures AllInStep([a] + ps, [b] + qs)
  {}

  lemma {:induction false} LoopInStep(a: Wallet, b: Wallet, s: Working, u: Working, cfgS: Config, cfgU: Config, daemonHeight: nat, batch: nat,
                                      failures: nat, events: seq<Event>, blocks: iset<Block>, facts: map<Outpoint, Owned>)
    requires World(blocks, facts) && WalletsInStep(a, b) && InStep(s, u) && Paired(cfgS, cfgU)
    requires Resumable(u, cfgU, daemonHeight, blocks, facts) && P.LeftoversIn(s.outputs, s.cursor, cfgS.replay)
    requires batch > 0 && forall ev :: ev in events ==> EventOk(ev, blocks)
    ensures AllInStep(Loop(a, s, cfgS, daemonHeight, batch, failures, events), Loop(b, u, cfgU, daemonHeight, batch, failures, events))
    decreases |events|
  {
    if u.cursor >= daemonHeight {
      CommitInStep(a, b, s, u, daemonHeight);
    } else if events != [] {
      PassInStep(s, u, cfgS, cfgU, daemonHeight, batch, failures, events[0], blocks, facts);
      PassKeeps(u, cfgU, daemonHeight, batch, failures, events[0], blocks, facts);
      var x, y := Pass(s, cfgS, daemonHeight, batch, failures, events[0]), Pass(u, cfgU, daemonHeight, batch, failures, events[0]);
      if y.Next? {
        CommitInStep(a, b, x.work, y.work, daemonHeight);
        var ps, qs := Loop(a, x.work, cfgS, daemonHeight, batch, x.failures, events[1..]), Loop(b, y.work, cfgU, daemonHeight, batch, y.failures, events[1..]);
        LoopInStep(a, b, x.work, y.work, cfgS, cfgU, daemonHeight, batch, y.failures, events[1..], blocks, facts);
        ConsInStep(Commit(a, x.work, daemonHeight), Commit(b, y.work, daemonHeight), ps, qs);
        assert [] + ps == ps && [] + qs == qs;
      }
    }
  }

  // ---------------------------------------------------------------------------------------------
  // A refresh
  // ---------------------------------------------------------------------------------------------

  lemma ResumedInStep(s: Working, u: Working, cfgS: Config, cfgU: Config, h: nat)
    requires InStep(s, u) && Paired(cfgS, cfgU) && P.LeftoversIn(s.outputs, 0, cfgS.replay)
    ensures InStep(ResumedAt(s, cfgS, h), ResumedAt(u, cfgU, h))
    ensures P.LeftoversIn(ResumedAt(s, cfgS, h).outputs, ResumedAt(s, cfgS, h).cursor, cfgS.replay)
  {
    RewindShadows(s.outputs, u.outputs, if h < cfgS.restore then cfgS.restore else h);
    ResumedLeftovers(s, cfgS, h);
  }

  /** The resume step of both, by the fork search they share. */
  lemma ResumeBoth(a: Wallet, b: Wallet, s: Working, u: Working, cfgS: Config, cfgU: Config, input: RefreshInput)
    requires s.start == u.start && s.hashes == u.hashes && s.cursor == u.cursor && cfgS.restore == cfgU.restore && input.batch > 0
    ensures var x, y, dh := Resume(a, s, cfgS, input), Resume(b, u, cfgU, input), input.daemonHeight;
      match RH.FindReorg(cfgU.restore, Window(u.start, u.hashes), input.resumeProbe)
      case Err => x == [] && y == []
      case Ok(located) =>
        match RH.DecideResume(RH.Max(u.cursor, u.start + |u.hashes|), located)
        case KeepCursor =>
          && x == Loop(a, s, cfgS, dh, input.batch, 0, input.events)
          && y == Loop(b, u, cfgU, dh, input.batch, 0, input.events)
        case ResumeRewind(h) =>
          && located == Some(h)
          && x == [Commit(a, ResumedAt(s, cfgS, h), dh)] + Loop(a, ResumedAt(s, cfgS, h), cfgS, dh, input.batch, 0, input.events)
          && y == [Commit(b, ResumedAt(u, cfgU, h), dh)] + Loop(b, ResumedAt(u, cfgU, h), cfgU, dh, input.batch, 0, input.events)
  {}

  lemma ResumeInStep(a: Wallet, b: Wallet, s: Working, u: Working, cfgS: Config, cfgU: Config, input: RefreshInput, c: seq<Block>, end: nat,
                     blocks: iset<Block>, facts: map<Outpoint, Owned>)
    requires World(blocks, facts) && WalletsInStep(a, b) && InStep(s, u) && Paired(cfgS, cfgU) && Anchored(u, cfgU, c, end, blocks, facts)
    requires P.LeftoversIn(u.outputs, 0, cfgU.replay) && P.LeftoversIn(s.outputs, 0, cfgS.replay)
    requires Resumable(u, cfgU, input.daemonHeight, blocks, facts) && input.batch > 0 && u.cursor < input.daemonHeight
    requires forall ev :: ev in input.events ==> EventOk(ev, blocks)
    ensures AllInStep(Resume(a, s, cfgS, input), Resume(b, u, cfgU, input))
  {
    var dh := input.daemonHeight;
    ResumeBoth(a, b, s, u, cfgS, cfgU, input);
    LoopInStep(a, b, s, u, cfgS, cfgU, dh, input.batch, 0, input.events, blocks, facts);
    var located := RH.FindReorg(cfgU.restore, Window(u.start, u.hashes), input.resumeProbe);
    if located.Ok? && located.value.Some? {
      var h := located.value.value;
      var x, y := ResumedAt(s, cfgS, h), ResumedAt(u, cfgU, h);
      ResumeKeeps(u, cfgU, dh, input.resumeProbe, c, end, h, blocks, facts);
      ResumedInStep(s, u, cfgS, cfgU, h);
      CommitInStep(a, b, x, y, dh);
      LoopInStep(a, b, x, y, cfgS, cfgU, dh, input.batch, 0, input.events, blocks, facts);
      ConsInStep(Commit(a, x, dh), Commit(b, y, dh), Loop(a, x, cfgS, dh, input.batch, 0, input.events), Loop(b, y, cfgU, dh, input.batch, 0, input.events));
    }
  }

  /** Where both refreshes start. */
  lemma BothStart(a: Wallet, b: Wallet, sealed: bool, s: Working, u: Working, cfgS: Config, cfgU: Config, input: RefreshInput,
                  blocks: iset<Block>, facts: map<Outpoint, Owned>) returns (c: seq<Block>, h: nat)
    requires WalletsInStep(a, b) && Safe(b, blocks, facts) && InputOk(b, input, blocks)
    requires s == a.work.(cursor := StartHeight(a)) && cfgS == WatchConfig(a, sealed)
    requires u == b.work.(cursor := StartHeight(b)) && cfgU == RefreshConfig(b)
    ensures InStep(s, u) && Paired(cfgS, cfgU) && Anchored(u, cfgU, c, h, blocks, facts)
    ensures P.LeftoversIn(u.outputs, 0, cfgU.replay) && P.LeftoversIn(s.outputs, 0, cfgS.replay)
    ensures P.LeftoversIn(s.outputs, s.cursor, cfgS.replay) && Resumable(u, cfgU, input.daemonHeight, blocks, facts)
  {
    c, h :| Inv(b, c, h, blocks, facts);
    assert Anchored(u, cfgU, c, h, blocks, facts);
    AllHistory(u.outputs, u.cursor);
    AllHistory(u.outputs, 0);
    AllHistory(s.outputs, s.cursor);
    AllHistory(s.outputs, 0);
    Resumes(u, cfgU, input.daemonHeight, c, h, blocks, facts);
  }

  /** A refresh, view-only or not, publishes what the plain one would, but for what a seal hides and a send
      marked. */
  lemma RefreshInStep(a: Wallet, b: Wallet, sealed: bool, input: RefreshInput, blocks: iset<Block>, facts: map<Outpoint, Owned>)
    requires World(blocks, facts) && WalletsInStep(a, b) && Safe(b, blocks, facts) && InputOk(b, input, blocks)
    ensures AllInStep(Publishes(a, sealed, input), Refresh(b, input))
  {
    var dh := input.daemonHeight;
    var s, u, cfgS, cfgU := a.work.(cursor := StartHeight(a)), b.work.(cursor := StartHeight(b)), WatchConfig(a, sealed), RefreshConfig(b);
    var c, h := BothStart(a, b, sealed, s, u, cfgS, cfgU, input, blocks, facts);
    if u.cursor >= dh {
      LoopInStep(a, b, s, u, cfgS, cfgU, dh, input.batch, 0, input.events, blocks, facts);
      ConsInStep(Progress(a, dh), Progress(b, dh), Loop(a, s, cfgS, dh, input.batch, 0, input.events), Loop(b, u, cfgU, dh, input.batch, 0, input.events));
    } else {
      ResumeInStep(a, b, s, u, cfgS, cfgU, input, c, h, blocks, facts);
      ConsInStep(Progress(a, dh), Progress(b, dh), Resume(a, s, cfgS, input), Resume(b, u, cfgU, input));
    }
  }

  // ---------------------------------------------------------------------------------------------
  // When the marker covers
  // ---------------------------------------------------------------------------------------------

  /** Every output without a key image was found at or above the marker and below the cursor. */
  ghost predicate Kept(outputs: Outputs, rescan: Option<nat>, cursor: nat) {
    forall o :: o in outputs && o.image == NO_IMAGE ==> rescan.Some? && rescan.value <= o.height < cursor
  }

  ghost predicate WorkKept(v: Working) {
    Kept(v.outputs, v.rescan, v.cursor)
  }

  lemma MarkedKept(outputs: Outputs, rescan: Option<nat>, cfg: Config, h: nat, b: Block)
    requires Kept(outputs, rescan, h)
    ensures Kept(Sighted(outputs, cfg, h, b), rescan, h)
    ensures forall q :: q in Sighted(outputs, cfg, h, b) && q.image == NO_IMAGE ==> exists o :: o in outputs && o.image == NO_IMAGE && o.outpoint == q.outpoint
  {
    var kept, marked := Reconciled(outputs, cfg, h, b), Sighted(outputs, cfg, h, b);
    R.SightingsMark(kept, Sightings(b), h);
    forall q | q in marked && q.image == NO_IMAGE
      ensures exists o :: o in outputs && o.image == NO_IMAGE && o.outpoint == q.outpoint && o.height == q.height
    {
      var i :| 0 <= i < |marked| && marked[i] == q;
      assert kept[i] == q && q in kept;
      if h in cfg.replay {
        S.FilterMapMembers(Reconciler(h, TxidsOf(b), DecodedImages(b.decoded)), outputs, q);
        var o :| o in outputs && Reconciler(h, TxidsOf(b), DecodedImages(b.decoded))(o) == Some(q);
        assert o.image == NO_IMAGE && o.outpoint == q.outpoint && o.height == q.height;
      }
    }
  }

  /** What was found below the cursor is part of the one-pass scan. */
  lemma FoundIsScanned(s: Outputs, u: Outputs, o: TrackedOutput, c: seq<Block>, base: nat, h: nat, coverage: Coverage, facts: map<Outpoint, Owned>)
    requires Shadows(s, u) && o in s && o.height < h && P.Agrees(u, c, base, h, coverage, facts)
    ensures Fresh(base, coverage, c).Ok? && exists x :: x in Fresh(base, coverage, c).value.outputs && x.outpoint == o.outpoint
  {
    var i :| 0 <= i < |s| && s[i] == o;
    var q, there := u[i], Fresh(base, coverage, c).value.outputs;
    assert Shadow(o, q) && q in u && KnownOutput(q, facts, coverage);
    CoreAtMember(u, q);
    assert Bind(CoreAt(u, q.outpoint), Rewinder(h)) == CoreAt(there, q.outpoint);
    CoreAtSource(there, q.outpoint);
  }

  /** So it is not found again: the chain would create it twice. */
  lemma NotFoundAgain(s: Outputs, u: Outputs, o: TrackedOutput, c: seq<Block>, base: nat, h: nat, b: Block, coverage: Coverage,
                      facts: map<Outpoint, Owned>)
    requires Shadows(s, u) && o in s && o.height < h && P.Agrees(u, c, base, h, coverage, facts)
    requires R.GoodChain(c + [b], facts) && R.GoodChain(c, facts)
    ensures forall w :: w in b.owned ==> w.outpoint != o.outpoint
  {
    FoundIsScanned(s, u, o, c, base, h, coverage, facts);
    R.FreshScan(base, coverage, c, facts);
    NotCreatedTwice(Fresh(base, coverage, c).value.outputs, o.outpoint, c, base, b);
  }

  lemma NotCreatedTwice(there: Outputs, p: Outpoint, c: seq<Block>, base: nat, b: Block)
    requires R.OnChain(there, c, base) && Consensus(c + [b]) && exists x :: x in there && x.outpoint == p
    ensures forall w :: w in b.owned ==> w.outpoint != p
  {
    var x :| x in there && x.outpoint == p;
    forall w | w in b.owned ensures w.outpoint != p {
      R.OnChainUnseen(there, c, base, b, w);
    }
  }

  lemma DistinctShadow(s: Outputs, u: Outputs)
    requires Shadows(s, u) && Distinct(u)
    ensures Distinct(s)
  {
    forall i, j | 0 <= i < j < |s| ensures s[i].outpoint != s[j].outpoint {
      assert Shadow(s[i], u[i]) && Shadow(s[j], u[j]);
    }
  }

  lemma ReceiveKept(r: Receipt, owned: seq<Owned>, h: nat, next: nat)
    requires Distinct(r.outputs) && Kept(r.outputs, r.rescan, h) && !V.MeetsBlind(r.outputs, owned) && next == h + 1
    ensures Receive(r, owned, h, true).Ok? ==>
      var after := Receive(r, owned, h, true).value; Kept(after.outputs, after.rescan, next)
  {
    if Receive(r, owned, h, true).Ok? {
      V.MarkerStaysIff(r, owned, h);
      V.ReceiveMoves(r, owned, h);
      var after := Receive(r, owned, h, true).value.outputs;
      forall q | q in after && q.image == NO_IMAGE ensures q.height <= h {
        var i :| 0 <= i < |after| && after[i] == q;
        assert i < |r.outputs| ==> r.outputs[i] in r.outputs;
      }
    }
  }

  lemma AttributeKept(outputs: Outputs, rescan: Option<nat>, h: nat, next: nat)
    requires Kept(outputs, rescan, next)
    ensures Kept(Attribute(outputs, h), rescan, next)
  {
    R.AttributeMarks(outputs, h);
    var after := Attribute(outputs, h);
    forall q | q in after && q.image == NO_IMAGE ensures rescan.Some? && rescan.value <= q.height < next {
      var i :| 0 <= i < |after| && after[i] == q;
      assert outputs[i] in outputs && outputs[i].height == q.height;
    }
  }

  lemma BlockKept(s: Outputs, u: Outputs, mark: Option<nat>, cfgS: Config, cfgU: Config, c: seq<Block>, h: nat, next: nat, b: Block,
                  facts: map<Outpoint, Owned>)
    requires Shadows(s, u) && Paired(cfgS, cfgU) && cfgS.sealed && GoodFacts(facts) && R.GoodChain(c + [b], facts) && R.GoodChain(c, facts)
    requires P.Agrees(u, c, cfgU.restore, h, cfgU.coverage, facts)
    requires P.LeftoversIn(s, h, cfgS.replay) && P.LeftoversIn(u, h, cfgU.replay)
    requires Kept(s, mark, h) && next == h + 1
    ensures ApplyOutputs(s, mark, cfgS, h, b).Ok? ==>
      var r := ApplyOutputs(s, mark, cfgS, h, b).value; Kept(r.outputs, r.rescan, next)
  {
    MarkedShadows(s, u, cfgS, cfgU, h, b, facts);
    MarkedKept(s, mark, cfgS, h, b);
    var ms, owned := Sighted(s, cfgS, h, b), ScanOwned(b.owned, cfgS.coverage);
    DistinctShadow(ms, Sighted(u, cfgU, h, b));
    BlindNotMet(s, u, mark, cfgS, cfgU, c, h, b, facts);
    ReceiveKept(Receipt(ms, mark), owned, h, next);
    var r := Receive(Receipt(ms, mark), owned, h, true);
    if r.Ok? {
      AttributeKept(r.value.outputs, r.value.rescan, h, next);
    }
  }

  lemma BlindNotMet(s: Outputs, u: Outputs, mark: Option<nat>, cfgS: Config, cfgU: Config, c: seq<Block>, h: nat, b: Block,
                    facts: map<Outpoint, Owned>)
    requires Shadows(s, u) && GoodFacts(facts) && R.GoodChain(c + [b], facts) && R.GoodChain(c, facts)
    requires P.Agrees(u, c, cfgU.restore, h, cfgU.coverage, facts) && Kept(s, mark, h)
    ensures !V.MeetsBlind(Sighted(s, cfgS, h, b), ScanOwned(b.owned, cfgS.coverage))
  {
    MarkedKept(s, mark, cfgS, h, b);
    ScanOwnedMembers(b.owned, cfgS.coverage);
    forall q | q in Sighted(s, cfgS, h, b) && q.image == NO_IMAGE ensures !Found(ScanOwned(b.owned, cfgS.coverage), q.outpoint) {
      var o :| o in s && o.image == NO_IMAGE && o.outpoint == q.outpoint;
      NotFoundAgain(s, u, o, c, cfgU.restore, h, b, cfgU.coverage, facts);
    }
  }

  lemma {:induction false} BlocksKept(s: Working, u: Working, cfgS: Config, cfgU: Config, c: seq<Block>, d: seq<Block>, facts: map<Outpoint, Owned>)
    requires InStep(s, u) && Paired(cfgS, cfgU) && cfgS.sealed && GoodFacts(facts) && R.GoodChain(c + d, facts)
    requires P.Agrees(u.outputs, c, cfgU.restore, u.cursor, cfgU.coverage, facts)
    requires P.LeftoversIn(s.outputs, s.cursor, cfgS.replay) && P.LeftoversIn(u.outputs, u.cursor, cfgU.replay)
    requires WorkKept(s)
    ensures ApplyBlocks(s, cfgS, d).Ok? ==> WorkKept(ApplyBlocks(s, cfgS, d).value)
  {
    if d != [] {
      var init, b := d[..|d|-1], d[|d|-1];
      var e := c + init;
      AppendSnoc(c, d);
      assert (c + d)[..|e|] == e;
      R.GoodChainPrefix(c + d, |e|, facts);
      BlocksInStep(s, u, cfgS, cfgU, c, init, facts);
      BlocksKept(s, u, cfgS, cfgU, c, init, facts);
      P.ReplayBlocks(u, cfgU, c, cfgU.restore, init, facts);
      assert ApplyBlocks(s, cfgS, d) == ThenBlock(ApplyBlocks(s, cfgS, init), cfgS, b);
      OneBlockKept(ApplyBlocks(s, cfgS, init).value, ApplyBlocks(u, cfgU, init).value, cfgS, cfgU, e, b, facts);
    }
  }

  lemma OneBlockKept(s: Working, u: Working, cfgS: Config, cfgU: Config, c: seq<Block>, b: Block, facts: map<Outpoint, Owned>)
    requires InStep(s, u) && Paired(cfgS, cfgU) && cfgS.sealed && GoodFacts(facts) && R.GoodChain(c + [b], facts) && R.GoodChain(c, facts)
    requires P.Agrees(u.outputs, c, cfgU.restore, u.cursor, cfgU.coverage, facts)
    requires P.LeftoversIn(s.outputs, s.cursor, cfgS.replay) && P.LeftoversIn(u.outputs, u.cursor, cfgU.replay)
    requires WorkKept(s)
    ensures ApplyBlock(s, cfgS, b).Ok? ==> WorkKept(ApplyBlock(s, cfgS, b).value)
  {
    var next := s.cursor + 1;
    BlockKept(s.outputs, u.outputs, s.rescan, cfgS, cfgU, c, s.cursor, next, b, facts);
  }

  lemma BatchKept(s: Working, u: Working, cfgS: Config, cfgU: Config, c: seq<Block>, h: nat, n: nat, d: seq<Block>,
                  blocks: iset<Block>, facts: map<Outpoint, Owned>)
    requires World(blocks, facts) && InStep(s, u) && Paired(cfgS, cfgU) && cfgS.sealed && Anchored(u, cfgU, c, h, blocks, facts)
    requires P.LeftoversIn(s.outputs, s.cursor, cfgS.replay) && P.LeftoversIn(u.outputs, u.cursor, cfgU.replay)
    requires n <= |c| && u.cursor == cfgU.restore + n && d != [] && Linked(d, u.cursor) && Among(d, blocks)
    requires ExpectedParent(u) == None || ExpectedParent(u) == Some(d[0].previous)
    requires WorkKept(s)
    ensures ApplyBlocks(s, cfgS, d).Ok? ==> WorkKept(ApplyBlocks(s, cfgS, d).value)
  {
    var base, e := cfgU.restore, c[..n];
    AgreesAtCursor(u.outputs, base, cfgU.coverage, c, h, n, u.cursor, blocks, facts);
    WindowForPrefix(Window(u.start, u.hashes), c, base, n, u.cursor);
    BatchLinked(Window(u.start, u.hashes), e, base, u.cursor, d);
    WorldChain(e + d, base, blocks, facts);
    BlocksKept(s, u, cfgS, cfgU, e, d, facts);
  }

  lemma RewoundKept(outputs: Outputs, rescan: Option<nat>, cursor: nat, h: nat, k: nat)
    requires Kept(outputs, rescan, cursor) && (k == h || (k == cursor && k <= h))
    ensures Kept(RewindOutputs(outputs, h), rescan, k)
  {
    forall q | q in RewindOutputs(outputs, h) && q.image == NO_IMAGE ensures rescan.Some? && rescan.value <= q.height < k {
      S.FilterMapMembers(Rewinder(h), outputs, q);
      var o :| o in outputs && Rewinder(h)(o) == Some(q);
      assert o.image == NO_IMAGE && o.height == q.height && o.height < h;
    }
  }

  /** The daemon is not behind what the wallet has scanned. */
  predicate Ahead(v: Working, daemonHeight: nat) {
    v.cursor <= daemonHeight && v.start + |v.hashes| <= daemonHeight
  }

  lemma RewoundWorkKept(s: Working, restore: nat, h: nat, daemonHeight: nat)
    requires WorkKept(s) && restore <= h <= daemonHeight && s.start + |s.hashes| <= daemonHeight && (s.hashes != [] ==> restore <= s.start)
    ensures WorkKept(Rewind(restore, h, s)) && Ahead(Rewind(restore, h, s), daemonHeight)
  {
    RewoundKept(s.outputs, s.rescan, s.cursor, h, h);
  }

  lemma OnResponseKept(s: Working, u: Working, cfgS: Config, cfgU: Config, daemonHeight: nat, failures: nat, d: seq<Block>, probe: RH.Probe,
                       stopped: bool, c: seq<Block>, h: nat, blocks: iset<Block>, facts: map<Outpoint, Owned>)
    requires World(blocks, facts) && InStep(s, u) && Paired(cfgS, cfgU) && cfgS.sealed && Anchored(u, cfgU, c, h, blocks, facts)
    requires P.LeftoversIn(s.outputs, s.cursor, cfgS.replay) && P.LeftoversIn(u.outputs, u.cursor, cfgU.replay)
    requires d != [] && Linked(d, u.cursor) && Among(d, blocks) && u.cursor + |d| <= daemonHeight
    requires WorkKept(s) && Ahead(s, daemonHeight)
    ensures var r := OnResponse(s, cfgS, failures, d, probe, stopped); r.Next? ==> WorkKept(r.work) && Ahead(r.work, daemonHeight)
  {
    OnResponseCases(s, cfgS, failures, d, probe, stopped);
    if ExpectedParent(u) == None || ExpectedParent(u) == Some(d[0].previous) {
      BatchKept(s, u, cfgS, cfgU, c, h, u.cursor - cfgU.restore, d, blocks, facts);
      BatchEnds(s, cfgS, d);
    } else {
      var located := RH.FindReorg(cfgU.restore, Window(u.start, u.hashes), probe);
      if located.Ok? && located.value.Some? {
        RH.LocatedHeight(cfgU.restore, Window(u.start, u.hashes), probe);
        RewoundWorkKept(s, cfgS.restore, located.value.value, daemonHeight);
      }
    }
  }

  lemma PassKept(s: Working, u: Working, cfgS: Config, cfgU: Config, daemonHeight: nat, batch: nat, failures: nat, ev: Event,
                 blocks: iset<Block>, facts: map<Outpoint, Owned>)
    requires World(blocks, facts) && InStep(s, u) && Paired(cfgS, cfgU) && cfgS.sealed && Resumable(u, cfgU, daemonHeight, blocks, facts)
    requires P.LeftoversIn(s.outputs, s.cursor, cfgS.replay) && WorkKept(s) && Ahead(s, daemonHeight)
    requires u.cursor < daemonHeight && batch > 0 && EventOk(ev, blocks)
    ensures var r := Pass(s, cfgS, daemonHeight, batch, failures, ev); r.Next? ==> WorkKept(r.work) && Ahead(r.work, daemonHeight)
  {
    var requested := Requested(s.cursor, daemonHeight, batch);
    if ev.Response? && ValidResponse(ev.path, s.cursor, requested, ev.blocks) {
      var c, h :| Anchored(u, cfgU, c, h, blocks, facts);
      ResponseLinked(ev, s.cursor, requested, blocks);
      OnResponseKept(s, u, cfgS, cfgU, daemonHeight, failures, ev.blocks, ev.probe, ev.stopped, c, h, blocks, facts);
    }
  }

  ghost predicate WalletKept(w: Wallet) {
    Kept(w.work.outputs, w.work.rescan, StartHeight(w))
  }

  ghost predicate AllKept(ps: seq<Wallet>) {
    forall p :: p in ps ==> WalletKept(p)
  }

  lemma CommitKept(w: Wallet, s: Working, daemonHeight: nat)
    requires WorkKept(s) && Ahead(s, daemonHeight)
    ensures WalletKept(Commit(w, s, daemonHeight))
  {}

  lemma ConsKept(p: Wallet, ps: seq<Wallet>)
    requires WalletKept(p) && AllKept(ps)
    ensures AllKept([p] + ps)
  {}

  lemma {:induction false} LoopKept(a: Wallet, s: Working, u: Working, cfgS: Config, cfgU: Config, daemonHeight: nat, batch: nat,
                                    failures: nat, events: seq<Event>, blocks: iset<Block>, facts: map<Outpoint, Owned>)
    requires World(blocks, facts) && InStep(s, u) && Paired(cfgS, cfgU) && cfgS.sealed
    requires Resumable(u, cfgU, daemonHeight, blocks, facts) && P.LeftoversIn(s.outputs, s.cursor, cfgS.replay)
    requires WorkKept(s) && Ahead(s, daemonHeight)
    requires batch > 0 && forall ev :: ev in events ==> EventOk(ev, blocks)
    ensures AllKept(Loop(a, s, cfgS, daemonHeight, batch, failures, events))
    decreases |events|
  {
    if u.cursor >= daemonHeight {
      CommitKept(a, s, daemonHeight);
    } else if events != [] {
      PassInStep(s, u, cfgS, cfgU, daemonHeight, batch, failures, events[0], blocks, facts);
      PassKept(s, u, cfgS, cfgU, daemonHeight, batch, failures, events[0], blocks, facts);
      PassKeeps(u, cfgU, daemonHeight, batch, failures, events[0], blocks, facts);
      var x, y := Pass(s, cfgS, daemonHeight, batch, failures, events[0]), Pass(u, cfgU, daemonHeight, batch, failures, events[0]);
      if x.Next? {
        CommitKept(a, x.work, daemonHeight);
        var rest := Loop(a, x.work, cfgS, daemonHeight, batch, x.failures, events[1..]);
        LoopKept(a, x.work, y.work, cfgS, cfgU, daemonHeight, batch, x.failures, events[1..], blocks, facts);
        ConsKept(Commit(a, x.work, daemonHeight), rest);
        assert [] + rest == rest;
      }
    }
  }

  lemma ResumedKept(s: Working, cfg: Config, h: nat, daemonHeight: nat)
    requires WorkKept(s) && Ahead(s, daemonHeight)
    ensures WorkKept(ResumedAt(s, cfg, h)) && ResumedAt(s, cfg, h).cursor <= daemonHeight
  {
    var k := if h < cfg.restore then cfg.restore else h;
    RewoundKept(s.outputs, s.rescan, s.cursor, k, if s.cursor < k then s.cursor else k);
  }

  lemma ResumeKept(a: Wallet, s: Working, u: Working, cfgS: Config, cfgU: Config, input: RefreshInput, c: seq<Block>, end: nat,
                   blocks: iset<Block>, facts: map<Outpoint, Owned>)
    requires World(blocks, facts) && InStep(s, u) && Paired(cfgS, cfgU) && cfgS.sealed && Anchored(u, cfgU, c, end, blocks, facts)
    requires P.LeftoversIn(u.outputs, 0, cfgU.replay) && P.LeftoversIn(s.outputs, 0, cfgS.replay)
    requires Resumable(u, cfgU, input.daemonHeight, blocks, facts) && input.batch > 0 && u.cursor < input.daemonHeight
    requires forall ev :: ev in input.events ==> EventOk(ev, blocks)
    requires WorkKept(s) && Ahead(s, input.daemonHeight)
    ensures AllKept(Resume(a, s, cfgS, input))
  {
    var dh := input.daemonHeight;
    ResumeCases(a, s, cfgS, input);
    LoopKept(a, s, u, cfgS, cfgU, dh, input.batch, 0, input.events, blocks, facts);
    var located := RH.FindReorg(cfgU.restore, Window(u.start, u.hashes), input.resumeProbe);
    if located.Ok? && located.value.Some? {
      var h := located.value.value;
      var x, y := ResumedAt(s, cfgS, h), ResumedAt(u, cfgU, h);
      ResumeKeeps(u, cfgU, dh, input.resumeProbe, c, end, h, blocks, facts);
      ResumedInStep(s, u, cfgS, cfgU, h);
      ResumedKept(s, cfgS, h, dh);
      ResumedAhead(s, cfgS, h, dh);
      CommitKept(a, x, dh);
      LoopKept(a, x, y, cfgS, cfgU, dh, input.batch, 0, input.events, blocks, facts);
      ConsKept(Commit(a, x, dh), Loop(a, x, cfgS, dh, input.batch, 0, input.events));
    }
  }

  lemma ResumedAhead(s: Working, cfg: Config, h: nat, daemonHeight: nat)
    requires Ahead(s, daemonHeight) && cfg.restore <= daemonHeight
    ensures Ahead(ResumedAt(s, cfg, h), daemonHeight)
  {}

  lemma ProgressKept(w: Wallet, daemonHeight: nat)
    requires WalletKept(w) && StartHeight(w) <= daemonHeight
    ensures WalletKept(Progress(w, daemonHeight))
  {}

  lemma RefreshKept(a: Wallet, b: Wallet, input: RefreshInput, blocks: iset<Block>, facts: map<Outpoint, Owned>)
    requires World(blocks, facts) && WalletsInStep(a, b) && Safe(b, blocks, facts) && InputOk(b, input, blocks)
    requires WalletKept(a) && Ahead(a.work.(cursor := StartHeight(a)), input.daemonHeight)
    ensures AllKept(Publishes(a, true, input))
  {
    var dh := input.daemonHeight;
    var s, u, cfgS, cfgU := a.work.(cursor := StartHeight(a)), b.work.(cursor := StartHeight(b)), WatchConfig(a, true), RefreshConfig(b);
    var c, h := BothStart(a, b, true, s, u, cfgS, cfgU, input, blocks, facts);
    ProgressKept(a, dh);
    if u.cursor >= dh {
      LoopKept(a, s, u, cfgS, cfgU, dh, input.batch, 0, input.events, blocks, facts);
      ConsKept(Progress(a, dh), Loop(a, s, cfgS, dh, input.batch, 0, input.events));
    } else {
      ResumeKept(a, s, u, cfgS, cfgU, input, c, h, blocks, facts);
      ConsKept(Progress(a, dh), Resume(a, s, cfgS, input));
    }
  }
}
