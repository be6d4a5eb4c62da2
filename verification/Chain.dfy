/** The vocabulary of the scan: blocks as the daemon serves them, the outputs the ownership scanner
    finds in them, and what it means for a run of blocks to be one parent-linked chain.

    Hashes, transaction ids, one-time keys and key images are 32-byte values compared only for
    equality, so they are modelled as numbers; 0 is the all-zero key image of a sealed scan. */
module Chain {
  datatype Option<+T> = None | Some(value: T)

  type Hash = nat
  type Txid = nat
  type Key = nat
  type Image = nat

  const NO_IMAGE: Image := 0

  datatype Outpoint = Outpoint(txid: Txid, index: nat)

  datatype Timelock = NoLock | BlockLock(height: nat) | TimeLock(timestamp: nat)

  /** One output the scanner can recognise; `image` is the key image its private key would give and
      `coinbase` says whether its transaction is a miner transaction. */
  datatype Owned = Owned(outpoint: Outpoint, key: Key, image: Image, amount: nat, timelock: Timelock,
                         major: nat, minor: nat, coinbase: bool)

  /** A transaction as decoded from a response: pruned, so it does not carry its own id. */
  datatype DecodedTx = DecodedTx(isMiner: bool, inputs: seq<Image>)

  datatype Block = Block(height: nat, hash: Hash, previous: Hash, timestamp: nat,
                         minerTxid: Txid, minerInputs: seq<Image>,
                         txids: seq<Txid>, decoded: seq<DecodedTx>, owned: seq<Owned>)

  /** The registered subaddresses: accounts below `accounts`, minors up to and including `gap`. */
  datatype Coverage = Coverage(accounts: nat, gap: nat)

  predicate Covers(c: Coverage, o: Owned) {
    o.major < c.accounts && o.minor <= c.gap
  }

  /** The ownership scan is a deterministic function of the block and the registered subaddresses. */
  function ScanOwned(owned: seq<Owned>, c: Coverage): seq<Owned> {
    if owned == [] then []
    else (if Covers(c, owned[0]) then [owned[0]] else []) + ScanOwned(owned[1..], c)
  }

  lemma ScanOwnedMembers(owned: seq<Owned>, c: Coverage)
    ensures forall o :: o in ScanOwned(owned, c) <==> o in owned && Covers(c, o)
  {
    if owned != [] {
      ScanOwnedMembers(owned[1..], c);
      assert owned == [owned[0]] + owned[1..];
    }
  }

  /** Transaction ids of the block, the miner's included. */
  function TxidsOf(b: Block): set<Txid> {
    {b.minerTxid} + set t | t in b.txids
  }

  /** The decoded list without the miner transaction some daemons put in front of it. */
  function NonMiner(b: Block): seq<DecodedTx> {
    if b.decoded != [] && b.decoded[0].isMiner && |b.decoded| == |b.txids| + 1 then b.decoded[1..]
    else b.decoded
  }

  /** A key image consumed by the block. `txid` is unknown when the id list is shorter than the
      decoded list; a miner sighting replaces a recorded spender, any other one keeps it. */
  datatype Sighting = Sighting(image: Image, txid: Option<Txid>, byMiner: bool)

  function TxSightings(inputs: seq<Image>, txid: Option<Txid>, byMiner: bool): (r: seq<Sighting>)
    ensures |r| == |inputs|
    ensures forall i :: 0 <= i < |r| ==> r[i] == Sighting(inputs[i], txid, byMiner)
  {
    seq(|inputs|, i requires 0 <= i < |inputs| => Sighting(inputs[i], txid, byMiner))
  }

  /** Decoded transactions paired with the id list; the surplus has no id. */
  function PairedSightings(txids: seq<Txid>, decoded: seq<DecodedTx>): seq<Sighting> {
    if decoded == [] then []
    else if txids == [] then TxSightings(decoded[0].inputs, None, false) + PairedSightings([], decoded[1..])
    else TxSightings(decoded[0].inputs, Some(txids[0]), false) + PairedSightings(txids[1..], decoded[1..])
  }

  function Sightings(b: Block): seq<Sighting> {
    TxSightings(b.minerInputs, Some(b.minerTxid), true) + PairedSightings(b.txids, NonMiner(b))
  }

  ghost predicate Spends(b: Block, image: Image) {
    image != NO_IMAGE && exists s :: s in Sightings(b) && s.image == image
  }

  /** Key images as the replay reconciliation collects them, from the decoded list alone. */
  function DecodedImages(decoded: seq<DecodedTx>): set<Image> {
    if decoded == [] then {}
    else (set x | x in decoded[0].inputs) + DecodedImages(decoded[1..])
  }

  lemma PairedImages(txids: seq<Txid>, decoded: seq<DecodedTx>, image: Image)
    ensures (exists s :: s in PairedSightings(txids, decoded) && s.image == image)
       <==> image in DecodedImages(decoded)
  {
    if decoded != [] {
      var rest := if txids == [] then [] else txids[1..];
      PairedImages(rest, decoded[1..], image);
      var here := TxSightings(decoded[0].inputs, if txids == [] then None else Some(txids[0]), false);
      var tail := PairedSightings(rest, decoded[1..]);
      assert PairedSightings(txids, decoded) == here + tail;
      if image in decoded[0].inputs {
        var i :| 0 <= i < |decoded[0].inputs| && decoded[0].inputs[i] == image;
        assert here[i] in here + tail;
      }
      if s :| s in tail && s.image == image {
        assert s in here + tail;
      }
    }
  }

  // ---------------------------------------------------------------------------------------------
  // Chains
  // ---------------------------------------------------------------------------------------------

  /** A run of blocks starting at height `base`: numbered consecutively, each on its predecessor. */
  ghost predicate Linked(c: seq<Block>, base: nat) {
    && (forall i :: 0 <= i < |c| ==> c[i].height == base + i)
    && (forall i :: 0 < i < |c| ==> c[i].previous == c[i-1].hash)
  }

  lemma LinkedPrefix(c: seq<Block>, base: nat, k: nat)
    requires Linked(c, base) && k <= |c|
    ensures Linked(c[..k], base)
  {}

  lemma LinkedAppend(c: seq<Block>, d: seq<Block>, base: nat)
    requires Linked(c, base) && Linked(d, base + |c|)
    requires c != [] && d != [] ==> d[0].previous == c[|c|-1].hash
    ensures Linked(c + d, base)
  {
    var e := c + d;
    forall i | 0 < i < |e| ensures e[i].previous == e[i-1].hash {
      if i > |c| { assert e[i] == d[i-|c|] && e[i-1] == d[i-1-|c|]; }
    }
  }

  /** What every block handed out by a daemon satisfies, whichever chain it is on: `facts` records
      the fixed data of each recognisable output, so an outpoint always names the same output, no two
      outpoints share a one-time key or a key image, the outputs of a transaction are found wherever
      it is mined, and a miner transaction spends nothing. */
  ghost predicate GoodFacts(facts: map<Outpoint, Owned>) {
    && (forall p :: p in facts ==> facts[p].outpoint == p && facts[p].image != NO_IMAGE)
    && (forall p, q :: p in facts && q in facts && facts[p].key == facts[q].key ==> p == q)
    && (forall p, q :: p in facts && q in facts && facts[p].image == facts[q].image ==> p == q)
  }

  ghost predicate GoodBlock(b: Block, facts: map<Outpoint, Owned>) {
    && (forall o :: o in b.owned ==> o.outpoint in facts && facts[o.outpoint] == o)
    && (forall i, j :: 0 <= i < j < |b.owned| ==> b.owned[i].outpoint != b.owned[j].outpoint)
    && (forall o :: o in b.owned ==> o.outpoint.txid in TxidsOf(b) && (o.coinbase <==> o.outpoint.txid == b.minerTxid))
    && (forall p :: p in facts && p.txid in TxidsOf(b) ==> facts[p] in b.owned)
    && b.minerInputs == []
    && (forall d :: d in b.decoded && d.isMiner ==> d.inputs == [])
  }

  /** Consensus over one chain: an output is created once, spent at most once, and only after the
      block that created it. */
  ghost predicate Consensus(c: seq<Block>) {
    && (forall i, j, o, p :: 0 <= i < j < |c| && o in c[i].owned && p in c[j].owned ==> o.outpoint != p.outpoint)
    && (forall i, j, x :: 0 <= i < j < |c| && Spends(c[i], x) ==> !Spends(c[j], x))
    && (forall i, j, o :: 0 <= i < |c| && 0 <= j < |c| && o in c[i].owned && Spends(c[j], o.image) ==> i < j)
  }

  lemma ConsensusPrefix(c: seq<Block>, k: nat)
    requires Consensus(c) && k <= |c|
    ensures Consensus(c[..k])
  {
    var d := c[..k];
    forall i, j, o | 0 <= i < |d| && 0 <= j < |d| && o in d[i].owned && Spends(d[j], o.image) ensures i < j {
      assert d[i] == c[i] && d[j] == c[j];
    }
    forall i, j, x | 0 <= i < j < |d| && Spends(d[i], x) ensures !Spends(d[j], x) {
      assert d[i] == c[i] && d[j] == c[j];
    }
    forall i, j, o, p | 0 <= i < j < |d| && o in d[i].owned && p in d[j].owned ensures o.outpoint != p.outpoint {
      assert d[i] == c[i] && d[j] == c[j];
    }
  }

  /** The reconciliation's image set is the block's spend set, the zero image aside. */
  lemma ReconcileImages(b: Block, facts: map<Outpoint, Owned>, image: Image)
    requires GoodBlock(b, facts) && image != NO_IMAGE
    ensures image in DecodedImages(b.decoded) <==> Spends(b, image)
  {
    PairedImages(b.txids, NonMiner(b), image);
    assert TxSightings(b.minerInputs, Some(b.minerTxid), true) == [];
    assert Sightings(b) == PairedSightings(b.txids, NonMiner(b));
    if NonMiner(b) != b.decoded {
      assert b.decoded[0] in b.decoded;
      assert DecodedImages(b.decoded) == DecodedImages(b.decoded[1..]);
    }
  }
}
