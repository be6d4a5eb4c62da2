/** Which transaction a spend is put down to, read off the block itself: the id at the place of the decoded
    transaction that has the key image among its inputs. */
module Spenders {
  import opened Chain
  import opened Scan
  import R = Rewinding

  // ---------------------------------------------------------------------------------------------
  // The inputs of a block
  // ---------------------------------------------------------------------------------------------

  /** A miner transaction in front of the decoded list makes it one longer than the list of ids. */
  function Front(b: Block): nat {
    if |b.decoded| == 1 + |b.txids| && b.decoded[0].isMiner then 1 else 0
  }

  /** The image is an input of the `i`-th decoded transaction that is not the miner's. */
  predicate InputOf(b: Block, i: nat, image: Image) {
    Front(b) + i < |b.decoded| && image in b.decoded[Front(b) + i].inputs
  }

  ghost predicate Consumes(b: Block, image: Image) {
    image in b.minerInputs || exists i: nat :: InputOf(b, i, image)
  }

  /** The first transaction with a known id that has the image among its inputs. */
  ghost predicate FirstSpender(b: Block, image: Image, i: nat) {
    i < |b.txids| && InputOf(b, i, image) && forall j: nat :: j < i ==> !InputOf(b, j, image)
  }

  // ---------------------------------------------------------------------------------------------
  // Sightings, one output at a time
  // ---------------------------------------------------------------------------------------------

  function SightOne(o: TrackedOutput, s: Sighting, h: nat): TrackedOutput {
    if s.image == o.image then MarkSpent(o, s, h) else o
  }

  function SightAll(o: TrackedOutput, ss: seq<Sighting>, h: nat): (p: TrackedOutput)
    ensures p.image == o.image
    decreases ss
  {
    if ss == [] then o else SightAll(SightOne(o, ss[0], h), ss[1..], h)
  }

  lemma {:induction false} SightAppend(o: TrackedOutput, a: seq<Sighting>, b: seq<Sighting>, h: nat)
    ensures SightAll(o, a + b, h) == SightAll(SightAll(o, a, h), b, h)
    decreases a
  {
    if a == [] {
      assert a + b == b;
    } else {
      assert (a + b)[0] == a[0] && (a + b)[1..] == a[1..] + b;
      SightAppend(SightOne(o, a[0], h), a[1..], b, h);
    }
  }

  lemma SightLast(o: TrackedOutput, ss: seq<Sighting>, s: Sighting, h: nat)
    ensures SightAll(o, ss + [s], h) == SightOne(SightAll(o, ss, h), s, h)
  {
    SightAppend(o, ss, [s], h);
    assert [s][1..] == [];
  }

  ghost predicate First(outputs: Outputs, k: nat) {
    k < |outputs| && outputs[k].image != NO_IMAGE && forall j :: 0 <= j < k ==> outputs[j].image != outputs[k].image
  }

  lemma FirstIsIndexed(outputs: Outputs, mid: Outputs, k: nat, image: Image)
    requires First(outputs, k) && |mid| == |outputs| && forall i :: 0 <= i < |mid| ==> mid[i].image == outputs[i].image
    ensures ImageIndex(mid, image) == k && k < |mid| <==> image == outputs[k].image
  {
    if image == outputs[k].image {
      assert mid[k].image == image;
    }
  }

  /** The first output with a key image is the one the sightings act on. */
  lemma {:induction false} SightedIs(outputs: Outputs, ss: seq<Sighting>, h: nat, k: nat)
    requires First(outputs, k)
    ensures ApplySightings(outputs, ss, h)[k] == SightAll(outputs[k], ss, h)
  {
    if ss != [] {
      var init, last := ss[..|ss|-1], ss[|ss|-1];
      assert ss == init + [last];
      SightedIs(outputs, init, h, k);
      SightLast(outputs[k], init, last, h);
      R.SightingsMark(outputs, init, h);
      FirstIsIndexed(outputs, ApplySightings(outputs, init, h), k, last.image);
    }
  }

  // ---------------------------------------------------------------------------------------------
  // One transaction, then all of them
  // ---------------------------------------------------------------------------------------------

  /** Marked at this height and put down to `txid`. */
  function SpentIn(o: TrackedOutput, h: nat, txid: Option<Txid>): TrackedOutput {
    o.(spent := true, spendingHeight := Some(h), spendingTxid := txid)
  }

  /** A recorded id stays. */
  function Or(recorded: Option<Txid>, found: Option<Txid>): Option<Txid> {
    if recorded.Some? then recorded else found
  }

  lemma {:induction false} MinerSighted(o: TrackedOutput, inputs: seq<Image>, t: Txid, h: nat)
    ensures SightAll(o, TxSightings(inputs, Some(t), true), h) == if o.image in inputs then SpentIn(o, h, Some(t)) else o
    decreases inputs
  {
    if inputs != [] {
      var ss := TxSightings(inputs, Some(t), true);
      assert ss[1..] == TxSightings(inputs[1..], Some(t), true);
      MinerSighted(SightOne(o, ss[0], h), inputs[1..], t, h);
    }
  }

  lemma {:induction false} TxSighted(o: TrackedOutput, inputs: seq<Image>, txid: Option<Txid>, h: nat)
    ensures SightAll(o, TxSightings(inputs, txid, false), h)
         == if o.image in inputs then SpentIn(o, h, Or(o.spendingTxid, txid)) else o
    decreases inputs
  {
    if inputs != [] {
      var ss := TxSightings(inputs, txid, false);
      assert ss[1..] == TxSightings(inputs[1..], txid, false);
      TxSighted(SightOne(o, ss[0], h), inputs[1..], txid, h);
    }
  }

  /** The place of the first transaction with the image among its inputs, or the length of the list. */
  function Place(decoded: seq<DecodedTx>, image: Image): (i: nat)
    ensures i <= |decoded|
    ensures i < |decoded| ==> image in decoded[i].inputs
    ensures forall j :: 0 <= j < i ==> image !in decoded[j].inputs
  {
    if decoded == [] || image in decoded[0].inputs then 0 else 1 + Place(decoded[1..], image)
  }

  /** The id at a place, if the list is that long. */
  function IdAt(txids: seq<Txid>, i: nat): Option<Txid> {
    if i < |txids| then Some(txids[i]) else None
  }

  lemma {:induction false} PairedSighted(o: TrackedOutput, txids: seq<Txid>, decoded: seq<DecodedTx>, h: nat, p: TrackedOutput, i: nat)
    requires p == SightAll(o, PairedSightings(txids, decoded), h) && i == Place(decoded, o.image)
    ensures i == |decoded| ==> p == o
    ensures i < |decoded| ==> p == SpentIn(o, h, Or(o.spendingTxid, IdAt(txids, i)))
    decreases decoded
  {
    if decoded != [] {
      var id, rest := IdAt(txids, 0), if txids == [] then [] else txids[1..];
      var here, more := TxSightings(decoded[0].inputs, id, false), PairedSightings(rest, decoded[1..]);
      assert PairedSightings(txids, decoded) == here + more;
      SightAppend(o, here, more, h);
      TxSighted(o, decoded[0].inputs, id, h);
      var q := SightAll(o, here, h);
      PairedSighted(q, rest, decoded[1..], h, p, Place(decoded[1..], o.image));
    }
  }

  // ---------------------------------------------------------------------------------------------
  // A block
  // ---------------------------------------------------------------------------------------------

  lemma NonMinerIs(b: Block)
    ensures NonMiner(b) == b.decoded[Front(b)..]
  {
    assert b.decoded[0..] == b.decoded;
  }

  lemma PlaceIs(b: Block, image: Image, i: nat)
    requires Front(b) <= |b.decoded| && i == Place(b.decoded[Front(b)..], image)
    ensures Front(b) + i < |b.decoded| ==> InputOf(b, i, image)
    ensures forall j: nat :: InputOf(b, j, image) ==> i <= j
  {
    var rest := b.decoded[Front(b)..];
    forall j: nat | InputOf(b, j, image) ensures i <= j {
      assert rest[j] == b.decoded[Front(b) + j];
    }
  }

  /** What the spend detection of a block makes of an output, said of the block's inputs alone: nothing, unless
      they have its key image; else it is spent at this height - by the miner transaction if that has the image;
      by the transaction recorded already; or by the transaction whose id stands at the place of the first
      decoded transaction with the image, if the id list is that long. */
  ghost predicate PairedAs(o: TrackedOutput, p: TrackedOutput, b: Block, h: nat) {
    && (!Consumes(b, o.image) ==> p == o)
    && (Consumes(b, o.image) ==> p == o.(spent := true, spendingHeight := Some(h), spendingTxid := p.spendingTxid))
    && (o.image in b.minerInputs ==> p.spendingTxid == Some(b.minerTxid))
    && (o.image !in b.minerInputs && o.spendingTxid.Some? ==> p.spendingTxid == o.spendingTxid)
    && (o.image !in b.minerInputs && o.spendingTxid == None ==>
          && (forall i: nat :: FirstSpender(b, o.image, i) ==> p.spendingTxid == Some(b.txids[i]))
          && ((forall i: nat :: i < |b.txids| ==> !InputOf(b, i, o.image)) ==> p.spendingTxid == None))
  }

  /** The first output with a key image is the one that is marked. */
  lemma SpendIsPaired(outputs: Outputs, b: Block, h: nat, k: nat)
    requires First(outputs, k)
    ensures PairedAs(outputs[k], ApplySightings(outputs, Sightings(b), h)[k], b, h)
  {
    var o, p, rest := outputs[k], ApplySightings(outputs, Sightings(b), h)[k], b.decoded[Front(b)..];
    var i := Place(rest, o.image);
    SightedIs(outputs, Sightings(b), h, k);
    SightAppend(o, TxSightings(b.minerInputs, Some(b.minerTxid), true), PairedSightings(b.txids, NonMiner(b)), h);
    MinerSighted(o, b.minerInputs, b.minerTxid, h);
    NonMinerIs(b);
    var q := SightAll(o, TxSightings(b.minerInputs, Some(b.minerTxid), true), h);
    PairedSighted(q, b.txids, rest, h, p, i);
    PlaceIs(b, o.image, i);
    PairedCases(o, q, p, b, h, i);
  }

  lemma PairedCases(o: TrackedOutput, q: TrackedOutput, p: TrackedOutput, b: Block, h: nat, i: nat)
    requires Front(b) + i <= |b.decoded| && forall j: nat :: InputOf(b, j, o.image) ==> i <= j
    requires Front(b) + i < |b.decoded| ==> InputOf(b, i, o.image)
    requires q == if o.image in b.minerInputs then SpentIn(o, h, Some(b.minerTxid)) else o
    requires p == if Front(b) + i < |b.decoded| then SpentIn(q, h, Or(q.spendingTxid, IdAt(b.txids, i))) else q
    ensures PairedAs(o, p, b, h)
  {}

  /** Receives only move outputs. */
  lemma {:induction false} ReceiveMoves(r: Receipt, owned: seq<Owned>, h: nat, sealed: bool)
    ensures Receive(r, owned, h, sealed).Ok? ==>
      var s := Receive(r, owned, h, sealed).value.outputs;
      |s| >= |r.outputs| && forall k :: 0 <= k < |r.outputs| ==> s[k] == r.outputs[k].(height := s[k].height)
  {
    if owned != [] {
      ReceiveMoves(r, owned[..|owned|-1], h, sealed);
    }
  }

  /** Through a whole block: what was spent when, and by which transaction if the block says so. A spend the block
      names no transaction for is left without one, or guessed from the change of this height. */
  lemma BlockNamesSpender(outputs: Outputs, rescan: Option<nat>, cfg: Config, h: nat, b: Block, k: nat) returns (p: TrackedOutput)
    requires ApplyOutputs(outputs, rescan, cfg, h, b).Ok? && First(Reconciled(outputs, cfg, h, b), k)
    ensures PairedAs(Reconciled(outputs, cfg, h, b)[k], p, b, h)
    ensures var after := ApplyOutputs(outputs, rescan, cfg, h, b).value.outputs;
      && k < |after| && after[k] == p.(height := after[k].height, spendingTxid := after[k].spendingTxid)
      && (after[k].spendingTxid == p.spendingTxid || (p.spent && p.spendingTxid == None && p.spendingHeight == Some(h)))
  {
    var before := Reconciled(outputs, cfg, h, b);
    var marked, owned := ApplySightings(before, Sightings(b), h), ScanOwned(b.owned, cfg.coverage);
    SpendIsPaired(before, b, h, k);
    p := marked[k];
    ReceiveMoves(Receipt(marked, rescan), owned, h, cfg.sealed);
    R.AttributeMarks(Receive(Receipt(marked, rescan), owned, h, cfg.sealed).value.outputs, h);
  }

  // ---------------------------------------------------------------------------------------------
  // What the sightings say
  // ---------------------------------------------------------------------------------------------

  lemma {:induction false} PairedFrom(txids: seq<Txid>, decoded: seq<DecodedTx>, s: Sighting) returns (i: nat)
    requires s in PairedSightings(txids, decoded)
    ensures i < |decoded| && s.image in decoded[i].inputs && s.txid == IdAt(txids, i) && !s.byMiner
    decreases decoded
  {
    var here := TxSightings(decoded[0].inputs, IdAt(txids, 0), false);
    i := 0;
    if s !in here {
      var rest := if txids == [] then [] else txids[1..];
      assert PairedSightings(txids, decoded) == here + PairedSightings(rest, decoded[1..]);
      i := PairedFrom(rest, decoded[1..], s);
      i := i + 1;
    }
  }

  /** Every input of the block with this key image is one of `t`. */
  ghost predicate Spender(b: Block, image: Image, t: Txid) {
    && image != NO_IMAGE && Consumes(b, image)
    && (image in b.minerInputs ==> t == b.minerTxid)
    && forall i: nat :: InputOf(b, i, image) ==> i < |b.txids| && b.txids[i] == t
  }

  lemma SpenderIsSighted(b: Block, image: Image, t: Txid, s: Sighting)
    requires Spender(b, image, t) && s in Sightings(b) && s.image == image
    ensures s.txid == Some(t)
  {
    if s in PairedSightings(b.txids, NonMiner(b)) {
      var i := PairedFrom(b.txids, NonMiner(b), s);
      NonMinerIs(b);
      assert InputOf(b, i, image);
    }
  }

  /** A block spends a key image exactly when one of its inputs has it. */
  lemma SpendsIff(b: Block, image: Image)
    ensures Spends(b, image) <==> image != NO_IMAGE && Consumes(b, image)
  {
    PairedImages(b.txids, NonMiner(b), image);
    DecodedConsumes(b, image);
    var miner, paired := TxSightings(b.minerInputs, Some(b.minerTxid), true), PairedSightings(b.txids, NonMiner(b));
    if image in b.minerInputs {
      var j :| 0 <= j < |b.minerInputs| && b.minerInputs[j] == image;
      assert miner[j] in Sightings(b);
    }
    if s :| s in paired && s.image == image {
      assert s in Sightings(b);
    }
  }

  lemma {:induction false} DecodedPlace(decoded: seq<DecodedTx>, image: Image)
    ensures image in DecodedImages(decoded) <==> Place(decoded, image) < |decoded|
    decreases decoded
  {
    if decoded != [] {
      DecodedPlace(decoded[1..], image);
    }
  }

  lemma DecodedConsumes(b: Block, image: Image)
    ensures image in DecodedImages(NonMiner(b)) <==> exists i: nat :: InputOf(b, i, image)
  {
    NonMinerIs(b);
    var i := Place(NonMiner(b), image);
    DecodedPlace(NonMiner(b), image);
    PlaceIs(b, image, i);
    if j: nat :| InputOf(b, j, image) {
      assert i <= j;
    }
  }
}
