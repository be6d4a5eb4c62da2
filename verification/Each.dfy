/** What holds of every tracked output, whatever the daemon does: a property that no single step on one output
    can break is kept by blocks, rewinds, refreshes - sealed or not - and so by everything they publish. */
module Each {
  import opened Chain
  import opened Scan
  import opened Engine
  import RH = RecentHashes
  import S = Seqs

  type Property = TrackedOutput -> bool

  ghost predicate All(q: Property, outputs: Outputs) {
    forall o :: o in outputs ==> q(o)
  }

  /** No step on one output breaks it: forgetting a spend, a spend seen in a served block, a move, being found in
      one, being given the transaction of another output as its spender. */
  ghost predicate Closed(q: Property, blocks: iset<Block>, sealed: bool) {
    && (forall o :: q(o) ==> q(ClearSpend(o)))
    && (forall o, h: nat :: q(o) ==> q(o.(height := h)))
    && (forall o, b, x, h: nat :: q(o) && b in blocks && x in Sightings(b) ==> q(MarkSpent(o, x, h)))
    && (forall w, b, h: nat :: b in blocks && w in b.owned ==> q(Tracked(w, h, sealed)))
    && (forall o, p :: q(o) && q(p) && o.spent ==> q(o.(spendingTxid := Some(p.outpoint.txid))))
  }

  // ---------------------------------------------------------------------------------------------
  // One block
  // ---------------------------------------------------------------------------------------------

  lemma RewindAll(q: Property, outputs: Outputs, h: nat, blocks: iset<Block>, sealed: bool)
    requires Closed(q, blocks, sealed) && All(q, outputs)
    ensures All(q, RewindOutputs(outputs, h))
  {
    forall y | y in RewindOutputs(outputs, h) ensures q(y) {
      S.FilterMapMembers(Rewinder(h), outputs, y);
      var o :| o in outputs && Rewinder(h)(o) == Some(y);
    }
  }

  lemma ReconcileAll(q: Property, outputs: Outputs, cfg: Config, h: nat, b: Block, blocks: iset<Block>, sealed: bool)
    requires Closed(q, blocks, sealed) && All(q, outputs)
    ensures All(q, Reconciled(outputs, cfg, h, b))
  {
    if h in cfg.replay {
      var f := Reconciler(h, TxidsOf(b), DecodedImages(b.decoded));
      forall y | y in Reconciled(outputs, cfg, h, b) ensures q(y) {
        S.FilterMapMembers(f, outputs, y);
        var o :| o in outputs && f(o) == Some(y);
      }
    }
  }

  lemma SightingAll(q: Property, outputs: Outputs, b: Block, x: Sighting, h: nat, blocks: iset<Block>, sealed: bool)
    requires Closed(q, blocks, sealed) && All(q, outputs) && b in blocks && x in Sightings(b)
    ensures All(q, ApplySighting(outputs, x, h))
  {
    var i := ImageIndex(outputs, x.image);
    if x.image != NO_IMAGE && i < |outputs| {
      assert outputs[i] in outputs;
      forall y | y in ApplySighting(outputs, x, h) ensures q(y) {
        assert y in outputs || y == MarkSpent(outputs[i], x, h);
      }
    }
  }

  lemma {:induction false} SightingsAll(q: Property, outputs: Outputs, b: Block, ss: seq<Sighting>, h: nat, blocks: iset<Block>, sealed: bool)
    requires Closed(q, blocks, sealed) && All(q, outputs) && b in blocks && forall x :: x in ss ==> x in Sightings(b)
    ensures All(q, ApplySightings(outputs, ss, h))
  {
    if ss != [] {
      SightingsAll(q, outputs, b, ss[..|ss|-1], h, blocks, sealed);
      SightingAll(q, ApplySightings(outputs, ss[..|ss|-1], h), b, ss[|ss|-1], h, blocks, sealed);
    }
  }

  lemma {:induction false} ReceiveAll(q: Property, r: Receipt, b: Block, owned: seq<Owned>, h: nat, blocks: iset<Block>, sealed: bool)
    requires Closed(q, blocks, sealed) && All(q, r.outputs) && b in blocks && forall w :: w in owned ==> w in b.owned
    ensures Receive(r, owned, h, sealed).Ok? ==> All(q, Receive(r, owned, h, sealed).value.outputs)
  {
    if owned != [] && Receive(r, owned, h, sealed).Ok? {
      var init, last := owned[..|owned|-1], owned[|owned|-1];
      ReceiveAll(q, r, b, init, h, blocks, sealed);
      ReceiveOneAll(q, Receive(r, init, h, sealed).value, b, last, h, blocks, sealed);
    }
  }

  lemma ReceiveOneAll(q: Property, r: Receipt, b: Block, w: Owned, h: nat, blocks: iset<Block>, sealed: bool)
    requires Closed(q, blocks, sealed) && All(q, r.outputs) && b in blocks && w in b.owned
    ensures ReceiveOne(r, w, h, sealed).Ok? ==> All(q, ReceiveOne(r, w, h, sealed).value.outputs)
  {
    var i := OutpointIndex(r.outputs, w.outpoint);
    if ReceiveOne(r, w, h, sealed).Ok? {
      assert i < |r.outputs| ==> r.outputs[i] in r.outputs;
      forall y | y in ReceiveOne(r, w, h, sealed).value.outputs ensures q(y) {
        assert y in r.outputs || y == Tracked(w, h, sealed) || (i < |r.outputs| && y == r.outputs[i].(height := h));
      }
    }
  }

  lemma AttributeAll(q: Property, outputs: Outputs, h: nat, blocks: iset<Block>, sealed: bool)
    requires Closed(q, blocks, sealed) && All(q, outputs)
    ensures All(q, Attribute(outputs, h))
  {
    var after := Attribute(outputs, h);
    forall y | y in after ensures q(y) {
      var i :| 0 <= i < |after| && after[i] == y;
      assert outputs[i] in outputs;
      if y != outputs[i] {
        var t :| IsChangeTx(outputs, t, h) && y == outputs[i].(spendingTxid := Some(t)) && outputs[i].spent;
        var p :| p in outputs && FreshChange(p, h) && p.outpoint.txid == t;
      }
    }
  }

  lemma BlockAll(q: Property, outputs: Outputs, rescan: Option<nat>, cfg: Config, h: nat, b: Block, blocks: iset<Block>)
    requires Closed(q, blocks, cfg.sealed) && All(q, outputs) && b in blocks
    ensures ApplyOutputs(outputs, rescan, cfg, h, b).Ok? ==> All(q, ApplyOutputs(outputs, rescan, cfg, h, b).value.outputs)
  {
    ReconcileAll(q, outputs, cfg, h, b, blocks, cfg.sealed);
    SightingsAll(q, Reconciled(outputs, cfg, h, b), b, Sightings(b), h, blocks, cfg.sealed);
    var marked, owned := ApplySightings(Reconciled(outputs, cfg, h, b), Sightings(b), h), ScanOwned(b.owned, cfg.coverage);
    ScanOwnedMembers(b.owned, cfg.coverage);
    ReceiveAll(q, Receipt(marked, rescan), b, owned, h, blocks, cfg.sealed);
    var r := Receive(Receipt(marked, rescan), owned, h, cfg.sealed);
    if r.Ok? {
      AttributeAll(q, r.value.outputs, h, blocks, cfg.sealed);
    }
  }

  lemma {:induction false} BlocksAll(q: Property, v: Working, cfg: Config, d: seq<Block>, blocks: iset<Block>)
    requires Closed(q, blocks, cfg.sealed) && All(q, v.outputs) && Among(d, blocks)
    ensures ApplyBlocks(v, cfg, d).Ok? ==> All(q, ApplyBlocks(v, cfg, d).value.outputs)
  {
    if d != [] {
      var init, b := d[..|d|-1], d[|d|-1];
      BlocksAll(q, v, cfg, init, blocks);
      assert b in d;
      if ApplyBlocks(v, cfg, init).Ok? {
        var x := ApplyBlocks(v, cfg, init).value;
        BlockAll(q, x.outputs, x.rescan, cfg, x.cursor, b, blocks);
      }
    }
  }

  // ---------------------------------------------------------------------------------------------
  // A refresh
  // ---------------------------------------------------------------------------------------------

  ghost predicate Served(ev: Event, blocks: iset<Block>) {
    ev.Response? ==> Among(ev.blocks, blocks)
  }

  lemma OnResponseAll(q: Property, v: Working, cfg: Config, failures: nat, d: seq<Block>, probe: RH.Probe, stopped: bool, blocks: iset<Block>)
    requires Closed(q, blocks, cfg.sealed) && All(q, v.outputs) && d != [] && Among(d, blocks)
    ensures var r := OnResponse(v, cfg, failures, d, probe, stopped); r.Next? ==> All(q, r.work.outputs)
  {
    OnResponseCases(v, cfg, failures, d, probe, stopped);
    BlocksAll(q, v, cfg, d, blocks);
    var located := RH.FindReorg(cfg.restore, Window(v.start, v.hashes), probe);
    if located.Ok? && located.value.Some? {
      RewindAll(q, v.outputs, RH.Max(located.value.value, cfg.restore), blocks, cfg.sealed);
    }
  }

  lemma PassAll(q: Property, v: Working, cfg: Config, daemonHeight: nat, batch: nat, failures: nat, ev: Event, blocks: iset<Block>)
    requires Closed(q, blocks, cfg.sealed) && All(q, v.outputs) && v.cursor < daemonHeight && batch > 0 && Served(ev, blocks)
    ensures var r := Pass(v, cfg, daemonHeight, batch, failures, ev); r.Next? ==> All(q, r.work.outputs)
  {
    if ev.Response? && ev.blocks != [] {
      OnResponseAll(q, v, cfg, failures, ev.blocks, ev.probe, ev.stopped, blocks);
    }
  }

  /** The property holds throughout each of these wallets. */
  ghost predicate AllOf(q: Property, ps: seq<Wallet>) {
    forall p :: p in ps ==> All(q, p.work.outputs)
  }

  lemma ConsAll(q: Property, p: Wallet, ps: seq<Wallet>)
    requires All(q, p.work.outputs) && AllOf(q, ps)
    ensures AllOf(q, [p] + ps)
  {}

  lemma {:induction false} LoopAll(q: Property, w: Wallet, v: Working, cfg: Config, daemonHeight: nat, batch: nat, failures: nat, events: seq<Event>,
                                   blocks: iset<Block>)
    requires Closed(q, blocks, cfg.sealed) && All(q, v.outputs) && batch > 0 && forall ev :: ev in events ==> Served(ev, blocks)
    ensures AllOf(q, Loop(w, v, cfg, daemonHeight, batch, failures, events))
    decreases |events|
  {
    if v.cursor < daemonHeight && events != [] {
      PassAll(q, v, cfg, daemonHeight, batch, failures, events[0], blocks);
      var r := Pass(v, cfg, daemonHeight, batch, failures, events[0]);
      if r.Next? {
        LoopAll(q, w, r.work, cfg, daemonHeight, batch, r.failures, events[1..], blocks);
        ConsAll(q, Commit(w, r.work, daemonHeight), Loop(w, r.work, cfg, daemonHeight, batch, r.failures, events[1..]));
      }
    }
  }

  /** Everything a refresh publishes, sealed or not. */
  lemma PublishesAll(q: Property, w: Wallet, sealed: bool, input: RefreshInput, blocks: iset<Block>)
    requires Closed(q, blocks, sealed) && All(q, w.work.outputs) && input.batch > 0
    requires forall ev :: ev in input.events ==> Served(ev, blocks)
    ensures AllOf(q, Publishes(w, sealed, input))
  {
    var v, cfg, dh := w.work.(cursor := StartHeight(w)), WatchConfig(w, sealed), input.daemonHeight;
    LoopAll(q, w, v, cfg, dh, input.batch, 0, input.events, blocks);
    ResumeCases(w, v, cfg, input);
    var located := RH.FindReorg(cfg.restore, Window(v.start, v.hashes), input.resumeProbe);
    if located.Ok? && located.value.Some? {
      var u := ResumedAt(v, cfg, located.value.value);
      RewindAll(q, v.outputs, RH.Max(located.value.value, cfg.restore), blocks, sealed);
      LoopAll(q, w, u, cfg, dh, input.batch, 0, input.events, blocks);
      ConsAll(q, Commit(w, u, dh), Loop(w, u, cfg, dh, input.batch, 0, input.events));
    }
  }
}
