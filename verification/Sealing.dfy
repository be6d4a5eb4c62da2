/** Sealing is invisible: view-only scans lose the key images of what they find, and the marker they
    leave makes unsealing (or importing the cache after process death) rebuild exactly that part. */
module Sealing {
  import opened Chain
  import opened Scan
  import opened Replay
  import E = Engine
  import C = Cores
  import R = Rewinding
  import S = Seqs

  datatype Vault = Vault(wallet: E.Wallet, sealed: bool)

  datatype VaultOp =
    | ScanNext(count: nat, replay: set<nat>)
    | Seal
    | Unseal
    | RewindTo(target: nat)
    | DieAndImport

  function ScanConfig(v: Vault, replay: set<nat>): Config {
    Config(v.wallet.restore, v.wallet.coverage, v.sealed, replay)
  }

  /** The blocks the next scan meets on the fixed chain. */
  function Upcoming(w: E.Wallet, c: seq<Block>, count: nat): seq<Block> {
    var from := w.work.cursor - w.restore;
    if 0 <= from && from + count <= |c| then c[from..from + count] else []
  }

  ghost function VaultStep(v: Vault, op: VaultOp, c: seq<Block>): Vault {
    match op
    case ScanNext(count, replay) =>
      (match ApplyBlocks(v.wallet.work, ScanConfig(v, replay), Upcoming(v.wallet, c, count))
       case Err => v
       case Ok(u) => v.(wallet := v.wallet.(work := u)))
    case Seal => v.(sealed := true)
    case Unseal => Vault(E.ApplyPendingRescan(v.wallet), false)
    case RewindTo(target) =>
      if target > v.wallet.work.cursor then v
      else v.(wallet := v.wallet.(work := Rewind(v.wallet.restore, target, v.wallet.work)))
    case DieAndImport =>
      Vault(E.ApplyPendingRescan(E.Import(v.wallet, E.Opened(v.wallet.restore, v.wallet.coverage.accounts))), false)
  }

  /** Below this height nothing depends on what a sealed scan could not see. */
  function Trusted(w: Working): nat {
    if w.rescan.Some? && w.rescan.value < w.cursor then w.rescan.value else w.cursor
  }

  ghost predicate SameStamps(w: Working, v: Working, t: nat) {
    && (forall j :: j < t ==> (j in w.stamps <==> j in v.stamps))
    && (forall j :: j < t && j in v.stamps ==> w.stamps[j] == v.stamps[j])
  }

  /** Up to its trusted height the state is the unsealed scan, and every output without a key image
      lies at or above the marker. `e` is the scanned part of the chain, `d` the trusted part. */
  ghost predicate Faithful(w: Working, e: seq<Block>, restore: nat, coverage: Coverage, d: seq<Block>, t: nat) {
    && t == Trusted(w) && t == restore + |d| && w.cursor == restore + |e| && d <= e
    && R.OnChain(w.outputs, e, restore) && R.StampsBelow(w)
    && Fresh(restore, coverage, d).Ok?
    && RewindOutputs(w.outputs, t) == Fresh(restore, coverage, d).value.outputs
    && SameStamps(w, Fresh(restore, coverage, d).value, t)
    && BlindAbove(w.outputs, w.rescan)
    && MinorsWithin(w.outputs, coverage.gap)
  }

  ghost predicate BlindAbove(outputs: Outputs, rescan: Option<nat>) {
    forall o :: o in outputs && o.image == NO_IMAGE ==> rescan.Some? && o.height >= rescan.value
  }

  ghost predicate MinorsWithin(outputs: Outputs, gap: nat) {
    forall o :: o in outputs ==> o.minor <= gap
  }

  /** `e` is what the vault has scanned of the fixed chain. */
  ghost predicate VaultInv(v: Vault, restore: nat, coverage: Coverage, c: seq<Block>, e: seq<Block>) {
    && e <= c
    && v.wallet.restore == restore && v.wallet.coverage == coverage && coverage.gap >= E.DEFAULT_GAP
    && (exists d, t :: Faithful(v.wallet.work, e, restore, coverage, d, t))
    && (!v.sealed ==> v.wallet.work.rescan == None)
  }

  // ---------------------------------------------------------------------------------------------
  // One sealed block
  // ---------------------------------------------------------------------------------------------

  /** The marker moves exactly when something new is found, and then covers this height. */
  lemma {:induction false} MarkerMoves(r: Receipt, owned: seq<Owned>, h: nat)
    ensures var s := Receive(r, owned, h, true);
      s.Ok? ==>
        && |s.value.outputs| >= |r.outputs|
        && s.value.rescan == if |s.value.outputs| == |r.outputs| then r.rescan else LowerRescan(r.rescan, h)
  {
    if owned != [] {
      MarkerMoves(r, owned[..|owned|-1], h);
    }
  }

  /** A sealed scan that found nothing new did what an unsealed one does, whatever the marker. */
  lemma {:induction false} NothingNewNoDifference(r: Receipt, owned: seq<Owned>, h: nat, other: Option<nat>)
    requires Receive(r, owned, h, true).Ok? && |Receive(r, owned, h, true).value.outputs| == |r.outputs|
    ensures var s := Receive(Receipt(r.outputs, other), owned, h, false);
      s.Ok? && s.value.outputs == Receive(r, owned, h, true).value.outputs && s.value.rescan == other
  {
    if owned != [] {
      MarkerMoves(r, owned[..|owned|-1], h);
      NothingNewNoDifference(r, owned[..|owned|-1], h, other);
    }
  }

  lemma {:induction false} MinorsReceived(r: Receipt, owned: seq<Owned>, h: nat, sealed: bool, gap: nat)
    requires MinorsWithin(r.outputs, gap) && forall o :: o in owned ==> o.minor <= gap
    ensures Receive(r, owned, h, sealed).Ok? ==> MinorsWithin(Receive(r, owned, h, sealed).value.outputs, gap)
  {
    if owned != [] && Receive(r, owned, h, sealed).Ok? {
      var init, last := owned[..|owned|-1], owned[|owned|-1];
      MinorsReceived(r, init, h, sealed, gap);
      var s := Receive(r, init, h, sealed).value;
      assert last in owned;
      var i := OutpointIndex(s.outputs, last.outpoint);
      forall o | o in Receive(r, owned, h, sealed).value.outputs ensures o.minor <= gap {
        if i < |s.outputs| { assert s.outputs[i] in s.outputs; }
        assert o in s.outputs || o.minor == last.minor || (i < |s.outputs| && o.minor == s.outputs[i].minor);
      }
    }
  }

  lemma MinorsKept(before: Outputs, after: Outputs, gap: nat)
    requires MinorsWithin(before, gap) && |before| == |after|
    requires forall i :: 0 <= i < |before| ==> after[i].minor == before[i].minor
    ensures MinorsWithin(after, gap)
  {
    forall o | o in after ensures o.minor <= gap {
      var i :| 0 <= i < |after| && after[i] == o;
      assert before[i] in before;
    }
  }

  lemma MinorsStep(outputs: Outputs, rescan: Option<nat>, cfg: Config, c: seq<Block>, base: nat, h: nat, b: Block)
    requires R.OnChain(outputs, c, base) && h == base + |c| && MinorsWithin(outputs, cfg.coverage.gap)
    requires ApplyOutputs(outputs, rescan, cfg, h, b).Ok?
    ensures MinorsWithin(ApplyOutputs(outputs, rescan, cfg, h, b).value.outputs, cfg.coverage.gap)
  {
    R.ReconcileNothing(outputs, c, base, h, TxidsOf(b), DecodedImages(b.decoded));
    R.ApplyOutputsIs(outputs, rescan, cfg, h, b);
    MinorsApplied(outputs, rescan, cfg, h, b);
  }

  lemma MinorsApplied(outputs: Outputs, rescan: Option<nat>, cfg: Config, h: nat, b: Block)
    requires MinorsWithin(outputs, cfg.coverage.gap)
    ensures var s := Receive(Receipt(ApplySightings(outputs, Sightings(b), h), rescan), ScanOwned(b.owned, cfg.coverage), h, cfg.sealed);
      s.Ok? ==> MinorsWithin(Attribute(s.value.outputs, h), cfg.coverage.gap)
  {
    R.SightingsMark(outputs, Sightings(b), h);
    var marked := ApplySightings(outputs, Sightings(b), h);
    MinorsKept(outputs, marked, cfg.coverage.gap);
    ScanOwnedMembers(b.owned, cfg.coverage);
    var s := Receive(Receipt(marked, rescan), ScanOwned(b.owned, cfg.coverage), h, cfg.sealed);
    if s.Ok? {
      MinorsReceived(Receipt(marked, rescan), ScanOwned(b.owned, cfg.coverage), h, cfg.sealed, cfg.coverage.gap);
      R.AttributeMarks(s.value.outputs, h);
      MinorsKept(s.value.outputs, Attribute(s.value.outputs, h), cfg.coverage.gap);
    }
  }

  /** The marker and the outputs after one block on the chain. */
  lemma MarkerStep(w: Working, cfg: Config, c: seq<Block>, base: nat, b: Block, facts: map<Outpoint, Owned>)
    requires w.cursor == base + |c| && R.OnChain(w.outputs, c, base)
    requires Consensus(c + [b]) && GoodBlock(b, facts)
    requires ApplyBlock(w, cfg, b).Ok?
    ensures var u := ApplyBlock(w, cfg, b).value;
      && R.Extends(w.outputs, u.outputs, b, w.cursor)
      && (!cfg.sealed ==> u.rescan == w.rescan)
      && (cfg.sealed ==> u.rescan == if |u.outputs| == |w.outputs| then w.rescan else LowerRescan(w.rescan, w.cursor))
      && (cfg.sealed && |u.outputs| == |w.outputs| ==>
            ApplyOutputs(w.outputs, None, cfg.(sealed := false), w.cursor, b) == Ok(Receipt(u.outputs, None)))
  {
    var h := w.cursor;
    R.OnChainStep(w.outputs, w.rescan, cfg, c, base, h, b, facts);
    R.ReconcileNothing(w.outputs, c, base, h, TxidsOf(b), DecodedImages(b.decoded));
    R.ApplyOutputsIs(w.outputs, w.rescan, cfg, h, b);
    R.ApplyOutputsIs(w.outputs, None, cfg.(sealed := false), h, b);
    var r := Receipt(ApplySightings(w.outputs, Sightings(b), h), w.rescan);
    var owned := ScanOwned(b.owned, cfg.coverage);
    if cfg.sealed {
      MarkerMoves(r, owned, h);
      if |Receive(r, owned, h, true).value.outputs| == |r.outputs| {
        NothingNewNoDifference(r, owned, h, None);
      }
    } else {
      R.NoRescanReceive(r, owned, h);
    }
  }

  /** Blind outputs stay above the marker. */
  lemma BlindStep(before: Outputs, after: Outputs, rescan: Option<nat>, rescan': Option<nat>, b: Block, h: nat)
    requires BlindAbove(before, rescan) && R.Extends(before, after, b, h)
    requires rescan' == if |after| == |before| then rescan else LowerRescan(rescan, h)
    ensures BlindAbove(after, rescan')
  {
    forall o | o in after && o.image == NO_IMAGE ensures rescan'.Some? && o.height >= rescan'.value {
      var i :| 0 <= i < |after| && after[i] == o;
      if i < |before| {
        assert R.KeptOrMarked(before[i], after[i], b, h) && before[i] in before;
      } else {
        assert R.NewAt(after[i], b, h);
      }
    }
  }

  /** A fresh unsealed scan has no blind output. */
  lemma FreshSees(restore: nat, coverage: Coverage, c: seq<Block>, facts: map<Outpoint, Owned>)
    requires GoodFacts(facts) && R.GoodChain(c, facts)
    ensures Fresh(restore, coverage, c).Ok? && BlindAbove(Fresh(restore, coverage, c).value.outputs, None)
  {
    FreshWell(restore, coverage, c, facts);
    forall o | o in Fresh(restore, coverage, c).value.outputs ensures o.image != NO_IMAGE {
      assert C.KnownOutput(o, facts, coverage);
    }
  }

  lemma {:induction false} RescanIrrelevant(outputs: Outputs, a: Option<nat>, b: Option<nat>, owned: seq<Owned>, h: nat)
    ensures var x, y := Receive(Receipt(outputs, a), owned, h, false), Receive(Receipt(outputs, b), owned, h, false);
      x.Ok? == y.Ok? && (x.Ok? ==> x.value.outputs == y.value.outputs)
  {
    if owned != [] {
      RescanIrrelevant(outputs, a, b, owned[..|owned|-1], h);
    }
  }

  /** What a block finds, when it finds nothing blindly, is what the plain unsealed scan finds. */
  lemma PlainOutputs(w: Working, cfg: Config, e: seq<Block>, restore: nat, b: Block, u: Working, facts: map<Outpoint, Owned>)
    requires w.cursor == restore + |e| && R.OnChain(w.outputs, e, restore)
    requires Consensus(e + [b]) && GoodBlock(b, facts)
    requires ApplyBlock(w, cfg, b) == Ok(u) && (cfg.sealed ==> |u.outputs| == |w.outputs|)
    ensures var r := ApplyOutputs(w.outputs, None, FreshConfig(restore, cfg.coverage), w.cursor, b);
      r.Ok? && r.value.outputs == u.outputs
  {
    var plain, h := FreshConfig(restore, cfg.coverage), w.cursor;
    MarkerStep(w, cfg, e, restore, b, facts);
    R.ReconcileNothing(w.outputs, e, restore, h, TxidsOf(b), DecodedImages(b.decoded));
    R.ApplyOutputsIs(w.outputs, w.rescan, cfg, h, b);
    R.ApplyOutputsIs(w.outputs, None, cfg.(sealed := false), h, b);
    R.ApplyOutputsIs(w.outputs, None, plain, h, b);
    RescanIrrelevant(ApplySightings(w.outputs, Sightings(b), h), w.rescan, None, ScanOwned(b.owned, cfg.coverage), h);
  }

  /** Outputs equal to the fresh scan, and nothing found blindly: one more block keeps them equal. */
  lemma TrustedStep(w: Working, cfg: Config, e: seq<Block>, restore: nat, b: Block, u: Working, facts: map<Outpoint, Owned>)
    requires w.cursor == restore + |e| && R.StampsBelow(w) && R.OnChain(w.outputs, e, restore)
    requires GoodFacts(facts) && R.GoodChain(e + [b], facts)
    requires Fresh(restore, cfg.coverage, e).Ok? && w.outputs == Fresh(restore, cfg.coverage, e).value.outputs
    requires SameStamps(w, Fresh(restore, cfg.coverage, e).value, w.cursor)
    requires ApplyBlock(w, cfg, b) == Ok(u)
    requires cfg.sealed ==> |u.outputs| == |w.outputs|
    ensures Fresh(restore, cfg.coverage, e + [b]).Ok?
    ensures u.outputs == Fresh(restore, cfg.coverage, e + [b]).value.outputs
    ensures SameStamps(u, Fresh(restore, cfg.coverage, e + [b]).value, u.cursor)
  {
    var once := Fresh(restore, cfg.coverage, e).value;
    assert b in e + [b];
    assert (e + [b])[..|e|] == e;
    R.GoodChainPrefix(e + [b], |e|, facts);
    R.FreshScan(restore, cfg.coverage, e, facts);
    PlainOutputs(w, cfg, e, restore, b, u, facts);
    FreshSnoc(restore, cfg.coverage, e, b);
    SameResult(w, once, u, cfg, FreshConfig(restore, cfg.coverage), b);
  }

  lemma SameResult(w: Working, once: Working, u: Working, cfg: Config, plain: Config, b: Block)
    requires w.outputs == once.outputs && w.cursor == once.cursor && once.rescan == None
    requires SameStamps(w, once, w.cursor) && R.StampsBelow(w) && R.StampsBelow(once)
    requires ApplyBlock(w, cfg, b) == Ok(u)
    requires var r := ApplyOutputs(w.outputs, None, plain, w.cursor, b); r.Ok? && r.value.outputs == u.outputs
    ensures var next := ApplyBlock(once, plain, b);
      next.Ok? && next.value.outputs == u.outputs && SameStamps(u, next.value, u.cursor)
  {}

  lemma FreshSnoc(restore: nat, coverage: Coverage, e: seq<Block>, b: Block)
    ensures Fresh(restore, coverage, e + [b]) == ThenBlock(Fresh(restore, coverage, e), FreshConfig(restore, coverage), b)
  {
    assert (e + [b])[..|e|] == e;
  }

  /** The trusted height stays: the block adds nothing below it. */
  lemma FaithfulBelow(w: Working, u: Working, cfg: Config, e: seq<Block>, d: seq<Block>, t: nat, b: Block)
    requires Faithful(w, e, cfg.restore, cfg.coverage, d, t) && Trusted(u) == t
    requires u.cursor == w.cursor + 1 && R.SameBelow(w, u, t)
    requires R.OnChain(u.outputs, e + [b], cfg.restore) && R.StampsBelow(u)
    requires R.Extends(w.outputs, u.outputs, b, w.cursor) && MinorsWithin(u.outputs, cfg.coverage.gap)
    requires u.rescan == if |u.outputs| == |w.outputs| then w.rescan else LowerRescan(w.rescan, w.cursor)
    ensures Faithful(u, e + [b], cfg.restore, cfg.coverage, d, t)
  {
    BlindStep(w.outputs, u.outputs, w.rescan, u.rescan, b, w.cursor);
  }

  /** The trusted height moves along: the block was seen in full. */
  lemma FaithfulAlong(w: Working, u: Working, cfg: Config, e: seq<Block>, t: nat, b: Block, facts: map<Outpoint, Owned>)
    requires Faithful(w, e, cfg.restore, cfg.coverage, e, t) && t == w.cursor && Trusted(u) == u.cursor == w.cursor + 1
    requires ApplyBlock(w, cfg, b) == Ok(u) && (cfg.sealed ==> |u.outputs| == |w.outputs|)
    requires GoodFacts(facts) && R.GoodChain(e + [b], facts)
    requires R.OnChain(u.outputs, e + [b], cfg.restore) && R.StampsBelow(u) && MinorsWithin(u.outputs, cfg.coverage.gap)
    ensures Faithful(u, e + [b], cfg.restore, cfg.coverage, e + [b], u.cursor)
  {
    R.RewindNothing(w.outputs, e, cfg.restore, t);
    TrustedStep(w, cfg, e, cfg.restore, b, u, facts);
    R.RewindNothing(u.outputs, e + [b], cfg.restore, u.cursor);
    FreshSees(cfg.restore, cfg.coverage, e + [b], facts);
  }

  /** One block, sealed or not, keeps the state faithful. */
  lemma FaithfulStep(w: Working, cfg: Config, e: seq<Block>, d: seq<Block>, t: nat, b: Block, facts: map<Outpoint, Owned>)
    returns (d': seq<Block>, t': nat)
    requires Faithful(w, e, cfg.restore, cfg.coverage, d, t) && (!cfg.sealed ==> w.rescan == None)
    requires GoodFacts(facts) && R.GoodChain(e + [b], facts)
    ensures ApplyBlock(w, cfg, b).Ok?
    ensures Faithful(ApplyBlock(w, cfg, b).value, e + [b], cfg.restore, cfg.coverage, d', t')
    ensures !cfg.sealed ==> ApplyBlock(w, cfg, b).value.rescan == None
  {
    assert b in e + [b];
    R.ScanStep(w, cfg, e, cfg.restore, b, facts);
    var u := ApplyBlock(w, cfg, b).value;
    MarkerStep(w, cfg, e, cfg.restore, b, facts);
    MinorsStep(w.outputs, w.rescan, cfg, e, cfg.restore, w.cursor, b);
    t' := Trusted(u);
    if t' == t {
      d' := d;
      FaithfulBelow(w, u, cfg, e, d, t, b);
    } else {
      d' := e + [b];
      assert d == e;
      FaithfulAlong(w, u, cfg, e, t, b, facts);
    }
  }

  lemma {:induction false} FaithfulBlocks(w: Working, cfg: Config, e: seq<Block>, d: seq<Block>, t: nat, bs: seq<Block>, facts: map<Outpoint, Owned>)
    returns (d': seq<Block>, t': nat)
    requires Faithful(w, e, cfg.restore, cfg.coverage, d, t) && (!cfg.sealed ==> w.rescan == None)
    requires GoodFacts(facts) && R.GoodChain(e + bs, facts)
    ensures ApplyBlocks(w, cfg, bs).Ok?
    ensures Faithful(ApplyBlocks(w, cfg, bs).value, e + bs, cfg.restore, cfg.coverage, d', t')
    ensures !cfg.sealed ==> ApplyBlocks(w, cfg, bs).value.rescan == None
  {
    if bs == [] {
      d', t' := d, t;
      assert e + bs == e;
    } else {
      var init, b := bs[..|bs|-1], bs[|bs|-1];
      E.AppendSnoc(e, bs);
      assert (e + bs)[..|e + init|] == e + init;
      R.GoodChainPrefix(e + bs, |e + init|, facts);
      d', t' := FaithfulBlocks(w, cfg, e, d, t, init, facts);
      var v := ApplyBlocks(w, cfg, init).value;
      d', t' := FaithfulStep(v, cfg, e + init, d', t', b, facts);
      assert ApplyBlocks(w, cfg, bs) == ApplyBlock(v, cfg, b);
    }
  }

  // ---------------------------------------------------------------------------------------------
  // Unsealing and rewinding
  // ---------------------------------------------------------------------------------------------

  lemma RewoundOnChain(outputs: Outputs, e: seq<Block>, base: nat, f: seq<Block>, h: nat, gap: nat, rescan: Option<nat>)
    requires R.OnChain(outputs, e, base) && h == base + |f| && f <= e
    requires BlindAbove(outputs, rescan) && MinorsWithin(outputs, gap)
    ensures R.OnChain(RewindOutputs(outputs, h), f, base)
    ensures BlindAbove(RewindOutputs(outputs, h), rescan) && MinorsWithin(RewindOutputs(outputs, h), gap)
  {
    forall q | q in RewindOutputs(outputs, h)
      ensures R.OutputOnChain(q, f, base) && q.minor <= gap
      ensures q.image == NO_IMAGE ==> rescan.Some? && q.height >= rescan.value
    {
      S.FilterMapMembers(Rewinder(h), outputs, q);
      var o :| o in outputs && Rewinder(h)(o) == Some(q);
      RewoundOutput(o, q, e, base, f, h);
    }
  }

  lemma RewoundOutput(o: TrackedOutput, q: TrackedOutput, e: seq<Block>, base: nat, f: seq<Block>, h: nat)
    requires R.OutputOnChain(o, e, base) && h == base + |f| && f <= e && RewindOne(o, h) == Some(q)
    ensures R.OutputOnChain(q, f, base) && q.minor == o.minor && q.image == o.image && q.height == o.height
  {
    assert q.height < h && f[q.height - base] == e[o.height - base];
    if q.spendingHeight.Some? {
      assert f[q.spendingHeight.value - base] == e[o.spendingHeight.value - base];
    }
  }

  lemma RewoundTwice(outputs: Outputs, trusted: Outputs, h: nat, t: nat, k: nat)
    requires RewindOutputs(outputs, t) == trusted && k == if t < h then t else h
    ensures RewindOutputs(RewindOutputs(outputs, h), k) == RewindOutputs(trusted, k)
  {
    R.RewindOutputsCompose(outputs, h, k);
    R.RewindOutputsCompose(outputs, t, k);
  }

  lemma RewoundTrusted(w: Working, u: Working, restore: nat, coverage: Coverage, d: seq<Block>, t: nat, h: nat,
                       d': seq<Block>, t': nat, n: nat, facts: map<Outpoint, Owned>)
    requires GoodFacts(facts) && R.GoodChain(d, facts) && Fresh(restore, coverage, d).Ok? && t == restore + |d|
    requires RewindOutputs(w.outputs, t) == Fresh(restore, coverage, d).value.outputs
    requires SameStamps(w, Fresh(restore, coverage, d).value, t)
    requires u == Rewind(restore, h, w) && restore <= h
    requires t' == (if t < h then t else h) && t' == restore + n && n <= |d| && d' == d[..n]
    ensures Fresh(restore, coverage, d').Ok?
    ensures RewindOutputs(u.outputs, t') == Fresh(restore, coverage, d').value.outputs
    ensures SameStamps(u, Fresh(restore, coverage, d').value, t')
  {
    R.RewindUndoesScan(restore, coverage, d, n, t', facts);
    var once, there := Fresh(restore, coverage, d).value, Fresh(restore, coverage, d').value;
    RewoundTwice(w.outputs, once.outputs, h, t, t');
    RewoundStamps(w, u, once, there, restore, h, t, t');
  }

  /** A rewind keeps the state faithful, whether or not it passes the marker. */
  lemma FaithfulRewound(w: Working, u: Working, e: seq<Block>, restore: nat, coverage: Coverage, d: seq<Block>, t: nat, h: nat,
                        f: seq<Block>, facts: map<Outpoint, Owned>) returns (d': seq<Block>, t': nat)
    requires Faithful(w, e, restore, coverage, d, t) && GoodFacts(facts) && R.GoodChain(e, facts)
    requires u == Rewind(restore, h, w) && h == restore + |f| && f <= e
    ensures Faithful(u, f, restore, coverage, d', t')
  {
    t' := if t < h then t else h;
    var n := if |d| < |f| then |d| else |f|;
    d' := d[..n];
    GoodPrefix(d, e, facts);
    RewoundTrusted(w, u, restore, coverage, d, t, h, d', t', n, facts);
    RewoundOnChain(w.outputs, e, restore, f, h, coverage.gap, w.rescan);
    assert d' <= f;
  }

  lemma RewoundStamps(w: Working, u: Working, once: Working, there: Working, restore: nat, h: nat, t: nat, t': nat)
    requires SameStamps(w, once, t) && u == Rewind(restore, h, w) && restore <= t' <= t && t' <= h
    requires there.stamps == Rewind(restore, t', once).stamps
    ensures SameStamps(u, there, t')
  {}

  lemma GoodPrefix(d: seq<Block>, c: seq<Block>, facts: map<Outpoint, Owned>)
    requires R.GoodChain(c, facts) && d <= c
    ensures R.GoodChain(d, facts)
  {
    R.GoodChainPrefix(c, |d|, facts);
    assert d == c[..|d|];
  }

  /** Going back to the trusted height drops every blind output and needs no marker any more. */
  lemma FaithfulUnsealed(w: Working, u: Working, e: seq<Block>, restore: nat, coverage: Coverage, d: seq<Block>, t: nat,
                         facts: map<Outpoint, Owned>)
    requires Faithful(w, e, restore, coverage, d, t) && GoodFacts(facts) && R.GoodChain(e, facts)
    requires u == Rewind(restore, t, w.(rescan := None))
    ensures Faithful(u, d, restore, coverage, d, t)
  {
    GoodPrefix(d, e, facts);
    FreshSees(restore, coverage, d, facts);
    RewoundOnChain(w.outputs, e, restore, d, t, coverage.gap, w.rescan);
    R.RewindNothing(u.outputs, d, restore, t);
  }

  lemma {:induction false} MaxMinorWithin(outputs: Outputs, gap: nat)
    requires MinorsWithin(outputs, gap)
    ensures E.MaxMinor(outputs) <= gap
  {
    if outputs != [] {
      MaxMinorWithin(outputs[..|outputs|-1], gap);
    }
  }

  // ---------------------------------------------------------------------------------------------
  // Any interleaving
  // ---------------------------------------------------------------------------------------------

  lemma UnsealKeeps(v: Vault, restore: nat, coverage: Coverage, c: seq<Block>, e: seq<Block>, facts: map<Outpoint, Owned>)
    returns (e': seq<Block>)
    requires VaultInv(v, restore, coverage, c, e) && GoodFacts(facts) && R.GoodChain(c, facts)
    ensures VaultInv(Vault(E.ApplyPendingRescan(v.wallet), false), restore, coverage, c, e')
  {
    var w := v.wallet.work;
    var d, t :| Faithful(w, e, restore, coverage, d, t);
    GoodPrefix(e, c, facts);
    if w.rescan == None {
      e' := e;
    } else {
      var u := E.ApplyPendingRescan(v.wallet).work;
      FaithfulUnsealed(w, u, e, restore, coverage, d, t, facts);
      e' := d;
    }
  }

  lemma RewindKeeps(v: Vault, target: nat, restore: nat, coverage: Coverage, c: seq<Block>, e: seq<Block>, facts: map<Outpoint, Owned>)
    returns (e': seq<Block>)
    requires VaultInv(v, restore, coverage, c, e) && GoodFacts(facts) && R.GoodChain(c, facts)
    requires target <= v.wallet.work.cursor
    ensures VaultInv(v.(wallet := v.wallet.(work := Rewind(restore, target, v.wallet.work))), restore, coverage, c, e')
  {
    var w := v.wallet.work;
    var d, t :| Faithful(w, e, restore, coverage, d, t);
    GoodPrefix(e, c, facts);
    var h := if target < restore then restore else target;
    var u := Rewind(restore, target, w);
    assert u == Rewind(restore, h, w);
    var n := h - restore;
    e' := e[..n];
    var d', t' := FaithfulRewound(w, u, e, restore, coverage, d, t, h, e', facts);
    assert Faithful(u, e', restore, coverage, d', t');
  }

  lemma ScanKeeps(v: Vault, bs: seq<Block>, replay: set<nat>, restore: nat, coverage: Coverage, c: seq<Block>, e: seq<Block>, facts: map<Outpoint, Owned>)
    requires VaultInv(v, restore, coverage, c, e) && GoodFacts(facts) && R.GoodChain(c, facts)
    requires e + bs <= c
    ensures ApplyBlocks(v.wallet.work, ScanConfig(v, replay), bs).Ok?
    ensures VaultInv(v.(wallet := v.wallet.(work := ApplyBlocks(v.wallet.work, ScanConfig(v, replay), bs).value)), restore, coverage, c, e + bs)
  {
    var d, t :| Faithful(v.wallet.work, e, restore, coverage, d, t);
    GoodPrefix(e + bs, c, facts);
    var d', t' := FaithfulBlocks(v.wallet.work, ScanConfig(v, replay), e, d, t, bs, facts);
  }

  lemma ImportIsWallet(v: Vault, restore: nat, coverage: Coverage, c: seq<Block>, e: seq<Block>)
    requires VaultInv(v, restore, coverage, c, e)
    ensures E.Import(v.wallet, E.Opened(restore, coverage.accounts)) == v.wallet
  {
    var d, t :| Faithful(v.wallet.work, e, restore, coverage, d, t);
    MaxMinorWithin(v.wallet.work.outputs, coverage.gap);
  }

  lemma VaultAt(v: Vault, restore: nat, coverage: Coverage, c: seq<Block>, e: seq<Block>, n: nat)
    requires VaultInv(v, restore, coverage, c, e) && n == |e|
    ensures v.wallet.work.cursor == restore + n && v.wallet.restore == restore && e <= c
  {
    var d, t :| Faithful(v.wallet.work, e, restore, coverage, d, t);
  }

  lemma UpcomingAt(w: E.Wallet, c: seq<Block>, count: nat, n: nat)
    requires w.work.cursor == w.restore + n
    ensures Upcoming(w, c, count) == if n + count <= |c| then c[n..n + count] else []
  {}

  lemma UpcomingIs(v: Vault, count: nat, restore: nat, coverage: Coverage, c: seq<Block>, e: seq<Block>) returns (bs: seq<Block>)
    requires VaultInv(v, restore, coverage, c, e)
    ensures bs == Upcoming(v.wallet, c, count) && e + bs <= c
    ensures v.wallet.work.cursor == restore + |e| && (|e| + count <= |c| ==> |bs| == count)
  {
    var n := |e|;
    VaultAt(v, restore, coverage, c, e, n);
    UpcomingAt(v.wallet, c, count, n);
    NextSlice(e, c, count);
    bs := Upcoming(v.wallet, c, count);
  }

  lemma NextSlice(e: seq<Block>, c: seq<Block>, count: nat)
    requires e <= c
    ensures var bs := if |e| + count <= |c| then c[|e|..|e| + count] else [];
      e + bs <= c
  {}

  lemma ScanStepKeeps(v: Vault, count: nat, replay: set<nat>, restore: nat, coverage: Coverage, c: seq<Block>, e: seq<Block>,
                      facts: map<Outpoint, Owned>) returns (e': seq<Block>)
    requires VaultInv(v, restore, coverage, c, e) && GoodFacts(facts) && R.GoodChain(c, facts)
    ensures VaultInv(VaultStep(v, ScanNext(count, replay), c), restore, coverage, c, e')
  {
    var bs := UpcomingIs(v, count, restore, coverage, c, e);
    ScanKeeps(v, bs, replay, restore, coverage, c, e, facts);
    e' := e + bs;
  }

  lemma RewindStepKeeps(v: Vault, target: nat, restore: nat, coverage: Coverage, c: seq<Block>, e: seq<Block>,
                        facts: map<Outpoint, Owned>) returns (e': seq<Block>)
    requires VaultInv(v, restore, coverage, c, e) && GoodFacts(facts) && R.GoodChain(c, facts)
    ensures VaultInv(VaultStep(v, RewindTo(target), c), restore, coverage, c, e')
  {
    VaultAt(v, restore, coverage, c, e, |e|);
    RewindStepIs(v, target, c);
    e' := e;
    if target <= v.wallet.work.cursor {
      e' := RewindKeeps(v, target, restore, coverage, c, e, facts);
    }
  }

  lemma RewindStepIs(v: Vault, target: nat, c: seq<Block>)
    ensures VaultStep(v, RewindTo(target), c)
      == if target > v.wallet.work.cursor then v else v.(wallet := v.wallet.(work := Rewind(v.wallet.restore, target, v.wallet.work)))
  {}

  lemma StepKeeps(v: Vault, op: VaultOp, restore: nat, coverage: Coverage, c: seq<Block>, e: seq<Block>, facts: map<Outpoint, Owned>)
    returns (e': seq<Block>)
    requires VaultInv(v, restore, coverage, c, e) && GoodFacts(facts) && R.GoodChain(c, facts)
    ensures VaultInv(VaultStep(v, op, c), restore, coverage, c, e')
  {
    match op
    case Seal => e' := e;
    case Unseal => e' := UnsealKeeps(v, restore, coverage, c, e, facts);
    case DieAndImport =>
      ImportIsWallet(v, restore, coverage, c, e);
      e' := UnsealKeeps(v, restore, coverage, c, e, facts);
    case RewindTo(target) => e' := RewindStepKeeps(v, target, restore, coverage, c, e, facts);
    case ScanNext(count, replay) => e' := ScanStepKeeps(v, count, replay, restore, coverage, c, e, facts);
  }

  ghost function VaultRun(v: Vault, ops: seq<VaultOp>, c: seq<Block>): Vault {
    if ops == [] then v else VaultStep(VaultRun(v, ops[..|ops|-1], c), ops[|ops|-1], c)
  }

  function NewVault(restore: nat, coverage: Coverage): Vault {
    Vault(E.Wallet(restore, coverage, Empty(restore)), false)
  }

  lemma {:induction false} RunKeeps(restore: nat, coverage: Coverage, ops: seq<VaultOp>, c: seq<Block>, facts: map<Outpoint, Owned>)
    returns (e: seq<Block>)
    requires GoodFacts(facts) && R.GoodChain(c, facts) && coverage.gap >= E.DEFAULT_GAP
    ensures VaultInv(VaultRun(NewVault(restore, coverage), ops, c), restore, coverage, c, e)
  {
    if ops == [] {
      e := [];
      assert Faithful(Empty(restore), e, restore, coverage, [], restore);
    } else {
      var before := RunKeeps(restore, coverage, ops[..|ops|-1], c, facts);
      e := StepKeeps(VaultRun(NewVault(restore, coverage), ops[..|ops|-1], c), ops[|ops|-1], restore, coverage, c, before, facts);
    }
  }

  /** In every reachable state the marker covers all outputs without a key image, and an unsealed
      wallet has none. */
  lemma MarkerCoversBlindOutputs(restore: nat, coverage: Coverage, ops: seq<VaultOp>, c: seq<Block>, facts: map<Outpoint, Owned>)
    requires GoodFacts(facts) && R.GoodChain(c, facts) && coverage.gap >= E.DEFAULT_GAP
    ensures var v := VaultRun(NewVault(restore, coverage), ops, c);
      && BlindAbove(v.wallet.work.outputs, v.wallet.work.rescan)
      && (!v.sealed ==> forall o :: o in v.wallet.work.outputs ==> o.image != NO_IMAGE)
  {
    var e := RunKeeps(restore, coverage, ops, c, facts);
  }

  /** Scanned to the tip without a marker, the vault holds the fresh scan. */
  lemma FaithfulToTheTip(w: Working, c: seq<Block>, restore: nat, coverage: Coverage, d: seq<Block>, t: nat)
    requires Faithful(w, c, restore, coverage, d, t) && w.rescan == None
    ensures Fresh(restore, coverage, c).Ok? && w.outputs == Fresh(restore, coverage, c).value.outputs
    ensures SameStamps(w, Fresh(restore, coverage, c).value, w.cursor)
  {
    assert |d| == |c| && d == c;
    R.RewindNothing(w.outputs, c, restore, t);
  }

  /** Sealing is invisible: after any interleaving of scans, seals, view-only scans, unseals, rewinds
      and process deaths on a fixed chain, unsealing and scanning to the tip gives the very outputs,
      spend records and timestamps of an always-unsealed scan. */
  lemma SealingIsInvisible(restore: nat, coverage: Coverage, ops: seq<VaultOp>, c: seq<Block>, replay: set<nat>, left: nat,
                           facts: map<Outpoint, Owned>)
    requires GoodFacts(facts) && R.GoodChain(c, facts) && coverage.gap >= E.DEFAULT_GAP
    requires VaultStep(VaultRun(NewVault(restore, coverage), ops, c), Unseal, c).wallet.work.cursor + left == restore + |c|
    ensures var done := VaultStep(VaultStep(VaultRun(NewVault(restore, coverage), ops, c), Unseal, c), ScanNext(left, replay), c).wallet.work;
      && Fresh(restore, coverage, c).Ok?
      && done.outputs == Fresh(restore, coverage, c).value.outputs
      && SameStamps(done, Fresh(restore, coverage, c).value, done.cursor)
      && done.cursor == restore + |c| && done.rescan == None
  {
    var e := RunKeeps(restore, coverage, ops, c, facts);
    var open := VaultStep(VaultRun(NewVault(restore, coverage), ops, c), Unseal, c);
    e := UnsealKeeps(VaultRun(NewVault(restore, coverage), ops, c), restore, coverage, c, e, facts);
    var bs := UpcomingIs(open, left, restore, coverage, c, e);
    ScanKeeps(open, bs, replay, restore, coverage, c, e, facts);
    assert e + bs == c;
    var done := VaultStep(open, ScanNext(left, replay), c);
    assert VaultInv(done, restore, coverage, c, c);
    var d, t :| Faithful(done.wallet.work, c, restore, coverage, d, t);
    FaithfulToTheTip(done.wallet.work, c, restore, coverage, d, t);
  }

  /** The tip is always ahead: the distance left to scan exists. */
  lemma CursorWithinChain(restore: nat, coverage: Coverage, ops: seq<VaultOp>, c: seq<Block>, facts: map<Outpoint, Owned>)
    requires GoodFacts(facts) && R.GoodChain(c, facts) && coverage.gap >= E.DEFAULT_GAP
    ensures restore <= VaultStep(VaultRun(NewVault(restore, coverage), ops, c), Unseal, c).wallet.work.cursor <= restore + |c|
  {
    var e := RunKeeps(restore, coverage, ops, c, facts);
    e := UnsealKeeps(VaultRun(NewVault(restore, coverage), ops, c), restore, coverage, c, e, facts);
    var v := VaultStep(VaultRun(NewVault(restore, coverage), ops, c), Unseal, c);
    var d, t :| Faithful(v.wallet.work, e, restore, coverage, d, t);
  }

  // ---------------------------------------------------------------------------------------------
  // Where the marker does not help
  // ---------------------------------------------------------------------------------------------

  function MovedIf(o: TrackedOutput, found: bool, h: nat): TrackedOutput {
    if found then o.(height := h) else o
  }

  lemma ReceiveOneMoves(r: Receipt, o: Owned, h: nat)
    requires C.Distinct(r.outputs) && ReceiveOne(r, o, h, true).Ok?
    ensures var s := ReceiveOne(r, o, h, true).value.outputs;
      && |s| >= |r.outputs| && C.Distinct(s)
      && (forall i :: 0 <= i < |r.outputs| ==> s[i] == MovedIf(r.outputs[i], r.outputs[i].outpoint == o.outpoint, h))
      && (forall i :: |r.outputs| <= i < |s| ==> s[i].height == h)
  {}

  /** What receiving does to outputs already tracked: those found again move here, and that is all. */
  ghost predicate Moves(before: Outputs, after: Outputs, owned: seq<Owned>, h: nat) {
    && |after| >= |before|
    && (forall i :: 0 <= i < |before| ==> after[i] == MovedIf(before[i], C.Found(owned, before[i].outpoint), h))
    && (forall i :: |before| <= i < |after| ==> after[i].height == h)
  }

  lemma MovesOneMore(before: Outputs, mid: Outputs, after: Outputs, init: seq<Owned>, last: Owned, h: nat)
    requires Moves(before, mid, init, h) && |after| >= |mid|
    requires forall i :: 0 <= i < |mid| ==> after[i] == MovedIf(mid[i], mid[i].outpoint == last.outpoint, h)
    requires forall i :: |mid| <= i < |after| ==> after[i].height == h
    ensures Moves(before, after, init + [last], h)
  {
    forall i | 0 <= i < |before| ensures after[i] == MovedIf(before[i], C.Found(init + [last], before[i].outpoint), h) {
      C.FoundSnoc(init, last, before[i].outpoint);
    }
  }

  lemma {:induction false} ReceiveMoves(r: Receipt, owned: seq<Owned>, h: nat)
    requires C.Distinct(r.outputs) && Receive(r, owned, h, true).Ok?
    ensures var s := Receive(r, owned, h, true).value.outputs; C.Distinct(s) && Moves(r.outputs, s, owned, h)
  {
    if owned != [] {
      var init, last := owned[..|owned|-1], owned[|owned|-1];
      assert owned == init + [last];
      ReceiveMoves(r, init, h);
      var mid := Receive(r, init, h, true).value;
      ReceiveOneMoves(mid, last, h);
      MovesOneMore(r.outputs, mid.outputs, ReceiveOne(mid, last, h, true).value.outputs, init, last, h);
    }
  }

  /** A tracked output without a key image is found again. */
  ghost predicate MeetsBlind(outputs: Outputs, owned: seq<Owned>) {
    exists o :: o in outputs && o.image == NO_IMAGE && C.Found(owned, o.outpoint)
  }

  /** Receiving at height `h` under seal, from any state whose marker covers its blind outputs: the marker
      still covers them exactly when it is not above `h`, or something new was found, or no blind output was
      found again. A known output that moves does not lower it. */
  lemma MarkerStaysIff(r: Receipt, owned: seq<Owned>, h: nat)
    requires C.Distinct(r.outputs) && BlindAbove(r.outputs, r.rescan) && Receive(r, owned, h, true).Ok?
    ensures var s := Receive(r, owned, h, true).value;
      BlindAbove(s.outputs, s.rescan)
      <==> (r.rescan.Some? && r.rescan.value <= h) || |s.outputs| > |r.outputs| || !MeetsBlind(r.outputs, owned)
  {
    MarkerMoves(r, owned, h);
    ReceiveMoves(r, owned, h);
    var s := Receive(r, owned, h, true).value;
    if |s.outputs| == |r.outputs| && MeetsBlind(r.outputs, owned) {
      var o :| o in r.outputs && o.image == NO_IMAGE && C.Found(owned, o.outpoint);
      var i :| 0 <= i < |r.outputs| && r.outputs[i] == o;
      assert s.outputs[i] == o.(height := h) && s.outputs[i] in s.outputs;
    } else {
      forall q | q in s.outputs && q.image == NO_IMAGE ensures q.height == h || (q in r.outputs) {
        var i :| 0 <= i < |s.outputs| && s.outputs[i] == q;
      }
    }
    if !MeetsBlind(r.outputs, owned) {
      forall q | q in s.outputs && q.image == NO_IMAGE ensures q in r.outputs || |s.outputs| > |r.outputs| {
        var i :| 0 <= i < |s.outputs| && s.outputs[i] == q;
        assert i < |r.outputs| ==> r.outputs[i] in r.outputs;
      }
    }
  }

  ghost predicate SomeBlind(outputs: Outputs) {
    exists o :: o in outputs && o.image == NO_IMAGE
  }

  /** Unsealing leaves an output without a key image behind exactly when one lies below the height the rescan
      rewinds to - the marker, but no later than the cursor and no earlier than the restore height. */
  lemma UnsealLeavesBlindIff(w: E.Wallet, from: Option<nat>)
    requires from == match w.work.rescan case None => None case Some(m) => Some(E.UnsealHeight(w, m))
    ensures SomeBlind(E.ApplyPendingRescan(w).work.outputs) <==> !BlindAbove(w.work.outputs, from)
  {
    if from.Some? {
      var m := from.value;
      var after := RewindOutputs(w.work.outputs, m);
      assert E.ApplyPendingRescan(w).work.outputs == after;
      if SomeBlind(after) {
        var q :| q in after && q.image == NO_IMAGE;
        S.FilterMapMembers(Rewinder(m), w.work.outputs, q);
        var o :| o in w.work.outputs && Rewinder(m)(o) == Some(q);
        assert o.image == NO_IMAGE && o.height < m;
      }
      if !BlindAbove(w.work.outputs, from) {
        var o :| o in w.work.outputs && o.image == NO_IMAGE && o.height < m;
        var q := Rewinder(m)(o).value;
        S.FilterMapMembers(Rewinder(m), w.work.outputs, q);
        assert q in after && q.image == NO_IMAGE;
      }
    }
  }
}
