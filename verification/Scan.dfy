/** What scanning one block does to the wallet's working state, and what a rewind takes back.

    The set of seen outpoints is not a separate component here: it is the set of outpoints of the
    tracked outputs, which the imperative form keeps in step (see ScanLoop). */
module Scan {
  import opened Chain
  import opened Seqs
  import opened Money

  datatype TrackedOutput = TrackedOutput(
    outpoint: Outpoint, key: Key, image: Image, amount: nat, height: nat, timelock: Timelock,
    coinbase: bool, major: nat, minor: nat,
    spent: bool, spendingTxid: Option<Txid>, spendingHeight: Option<nat>)

  type Outputs = seq<TrackedOutput>

  /** The state one refresh works on. `hashes[i]` is the hash at height `start + i`; `rescan` is the
      height from which spends must be rebuilt once the wallet is unsealed; `cursor` is the next
      height to scan. */
  datatype Working = Working(outputs: Outputs, start: nat, hashes: seq<Hash>, stamps: map<nat, nat>,
                             rescan: Option<nat>, cursor: nat)

  /** What a refresh fixes at its start. */
  datatype Config = Config(restore: nat, coverage: Coverage, sealed: bool, replay: set<nat>)

  datatype Result<+T> = Ok(value: T) | Err

  const RECENT_MAX: nat := 4096

  // ---------------------------------------------------------------------------------------------
  // Recent-hash window
  // ---------------------------------------------------------------------------------------------

  datatype Window = Window(start: nat, hashes: seq<Hash>)

  /** Append at the expected height, cut back on overlap, start over on a gap or below the start. */
  function PushHash(restore: nat, w: Window, height: nat, hash: Hash): Window {
    var start := if w.start == 0 then restore else w.start;
    if w.hashes == [] then Window(height, [hash])
    else
      var v := if start <= height <= start + |w.hashes|
               then Window(start, w.hashes[..height - start] + [hash])
               else Window(height, [hash]);
      if |v.hashes| > RECENT_MAX
      then Window(v.start + (|v.hashes| - RECENT_MAX), v.hashes[|v.hashes| - RECENT_MAX..])
      else v
  }

  function HashAt(w: Window, height: nat): Option<Hash> {
    if w.start <= height < w.start + |w.hashes| then Some(w.hashes[height - w.start]) else None
  }

  function RewindWindow(restore: nat, w: Window, h: nat): Window {
    if w.hashes == [] then w
    else if h <= w.start then Window(restore, [])
    else if h - w.start < |w.hashes| then Window(w.start, w.hashes[..h - w.start])
    else w
  }

  // ---------------------------------------------------------------------------------------------
  // Rewinding
  // ---------------------------------------------------------------------------------------------

  function ClearSpend(o: TrackedOutput): TrackedOutput {
    o.(spent := false, spendingTxid := None, spendingHeight := None)
  }

  function RewindOne(o: TrackedOutput, h: nat): Option<TrackedOutput> {
    if o.height >= h then None
    else if o.spendingHeight.Some? && o.spendingHeight.value >= h then Some(ClearSpend(o))
    else Some(o)
  }

  function Rewinder(h: nat): TrackedOutput -> Option<TrackedOutput> {
    o => RewindOne(o, h)
  }

  function RewindOutputs(outputs: Outputs, h: nat): Outputs {
    FilterMap(Rewinder(h), outputs)
  }

  /** Back to the state in which `Max(target, restore)` is the next height scanned. */
  function Rewind(restore: nat, target: nat, w: Working): Working {
    var h := if target < restore then restore else target;
    var v := RewindWindow(restore, Window(w.start, w.hashes), h);
    Working(RewindOutputs(w.outputs, h), v.start, v.hashes,
            map k | k in w.stamps && k < h :: w.stamps[k], w.rescan, h)
  }

  // ---------------------------------------------------------------------------------------------
  // One block
  // ---------------------------------------------------------------------------------------------

  /** At a height of retained history: drop receives the block does not contain, forget spends it
      does not confirm. */
  function ReconcileOne(o: TrackedOutput, h: nat, txids: set<Txid>, images: set<Image>): Option<TrackedOutput> {
    if o.height == h && o.outpoint.txid !in txids then None
    else if o.spendingHeight == Some(h) && o.image !in images then Some(ClearSpend(o))
    else Some(o)
  }

  function Reconciler(h: nat, txids: set<Txid>, images: set<Image>): TrackedOutput -> Option<TrackedOutput> {
    o => ReconcileOne(o, h, txids, images)
  }

  function Reconcile(outputs: Outputs, h: nat, txids: set<Txid>, images: set<Image>): Outputs {
    FilterMap(Reconciler(h, txids, images), outputs)
  }

  /** First output carrying the image, or the length of the list. */
  function ImageIndex(outputs: Outputs, image: Image): (i: nat)
    ensures i <= |outputs|
    ensures i < |outputs| ==> outputs[i].image == image
    ensures forall j :: 0 <= j < i ==> outputs[j].image != image
  {
    if outputs == [] then 0
    else if outputs[0].image == image then 0
    else 1 + ImageIndex(outputs[1..], image)
  }

  function MarkSpent(o: TrackedOutput, s: Sighting, h: nat): TrackedOutput {
    o.(spent := true, spendingHeight := Some(h),
       spendingTxid := if s.byMiner || (o.spendingTxid == None && s.txid.Some?) then s.txid else o.spendingTxid)
  }

  function ApplySighting(outputs: Outputs, s: Sighting, h: nat): (r: Outputs)
    ensures |r| == |outputs|
  {
    var i := ImageIndex(outputs, s.image);
    if s.image == NO_IMAGE || i == |outputs| then outputs
    else outputs[i := MarkSpent(outputs[i], s, h)]
  }

  function ApplySightings(outputs: Outputs, ss: seq<Sighting>, h: nat): (r: Outputs)
    ensures |r| == |outputs|
  {
    if ss == [] then outputs
    else ApplySighting(ApplySightings(outputs, ss[..|ss|-1], h), ss[|ss|-1], h)
  }

  /** First output with the outpoint, or the length of the list. */
  function OutpointIndex(outputs: Outputs, p: Outpoint): (i: nat)
    ensures i <= |outputs|
    ensures i < |outputs| ==> outputs[i].outpoint == p
    ensures forall j :: 0 <= j < i ==> outputs[j].outpoint != p
  {
    if outputs == [] then 0
    else if outputs[0].outpoint == p then 0
    else 1 + OutpointIndex(outputs[1..], p)
  }

  predicate HasKey(outputs: Outputs, key: Key) {
    exists o :: o in outputs && o.key == key
  }

  function Tracked(o: Owned, h: nat, sealed: bool): TrackedOutput {
    TrackedOutput(o.outpoint, o.key, if sealed then NO_IMAGE else o.image, o.amount, h, o.timelock,
                  o.coinbase, o.major, o.minor, false, None, None)
  }

  function LowerRescan(rescan: Option<nat>, h: nat): Option<nat> {
    if rescan.Some? && rescan.value <= h then rescan else Some(h)
  }

  datatype Receipt = Receipt(outputs: Outputs, rescan: Option<nat>)

  /** One output the scanner reports: a known outpoint only moves to this height, a known one-time
      key is refused, anything else is tracked, and a sealed wallet remembers to come back. */
  function ReceiveOne(r: Receipt, o: Owned, h: nat, sealed: bool): Result<Receipt> {
    var i := OutpointIndex(r.outputs, o.outpoint);
    if i < |r.outputs| then
      if r.outputs[i].key != o.key then Err
      else Ok(r.(outputs := r.outputs[i := r.outputs[i].(height := h)]))
    else if HasKey(r.outputs, o.key) then Ok(r)
    else Ok(Receipt(r.outputs + [Tracked(o, h, sealed)], if sealed then LowerRescan(r.rescan, h) else r.rescan))
  }

  function Receive(r: Receipt, owned: seq<Owned>, h: nat, sealed: bool): Result<Receipt> {
    if owned == [] then Ok(r)
    else
      match Receive(r, owned[..|owned|-1], h, sealed)
      case Err => Err
      case Ok(s) => ReceiveOne(s, owned[|owned|-1], h, sealed)
  }

  predicate Unattributed(o: TrackedOutput, h: nat) {
    o.spent && o.spendingTxid == None && o.spendingHeight == Some(h)
  }

  predicate FreshChange(o: TrackedOutput, h: nat) {
    !o.spent && o.height == h
  }

  function UnattributedSum(outputs: Outputs, h: nat): nat {
    if outputs == [] then 0
    else UnattributedSum(outputs[..|outputs|-1], h)
         + if Unattributed(outputs[|outputs|-1], h) then outputs[|outputs|-1].amount else 0
  }

  function ChangeSum(outputs: Outputs, t: Txid, h: nat): nat {
    if outputs == [] then 0
    else ChangeSum(outputs[..|outputs|-1], t, h)
         + if FreshChange(outputs[|outputs|-1], h) && outputs[|outputs|-1].outpoint.txid == t
           then outputs[|outputs|-1].amount else 0
  }

  /** Transactions of this height whose unspent receipts could be the change of the spends seen here
      without a transaction id. */
  ghost predicate IsChangeTx(outputs: Outputs, t: Txid, h: nat) {
    && (exists o :: o in outputs && FreshChange(o, h) && o.outpoint.txid == t)
    && (forall o :: o in outputs && Unattributed(o, h) ==> o.outpoint.txid != t)
    && 0 < ChangeSum(outputs, t, h) < Cap(UnattributedSum(outputs, h))
  }

  /** Give the anonymous spends of this height to the change transaction, when there is just one. */
  ghost function Attribute(outputs: Outputs, h: nat): (r: Outputs)
    ensures |r| == |outputs|
  {
    if exists t :: IsChangeTx(outputs, t, h) && forall u :: IsChangeTx(outputs, u, h) ==> u == t then
      var t :| IsChangeTx(outputs, t, h) && forall u :: IsChangeTx(outputs, u, h) ==> u == t;
      seq(|outputs|, i requires 0 <= i < |outputs| =>
        if Unattributed(outputs[i], h) then outputs[i].(spendingTxid := Some(t)) else outputs[i])
    else outputs
  }

  predicate Touches(outputs: Outputs, h: nat) {
    exists o :: o in outputs && (o.height == h || o.spendingHeight == Some(h))
  }

  /** Ordinary heights need no reconciliation, only those of history retained by the refresh. */
  function Reconciled(outputs: Outputs, cfg: Config, h: nat, b: Block): Outputs {
    if h in cfg.replay then Reconcile(outputs, h, TxidsOf(b), DecodedImages(b.decoded)) else outputs
  }

  /** The outputs after one block at height `h`. */
  ghost function ApplyOutputs(outputs: Outputs, rescan: Option<nat>, cfg: Config, h: nat, b: Block): Result<Receipt> {
    var marked := ApplySightings(Reconciled(outputs, cfg, h, b), Sightings(b), h);
    match Receive(Receipt(marked, rescan), ScanOwned(b.owned, cfg.coverage), h, cfg.sealed)
    case Err => Err
    case Ok(r) => Ok(r.(outputs := Attribute(r.outputs, h)))
  }

  /** One block at the cursor. */
  ghost function ApplyBlock(w: Working, cfg: Config, b: Block): Result<Working> {
    match ApplyOutputs(w.outputs, w.rescan, cfg, w.cursor, b)
    case Err => Err
    case Ok(r) =>
      var v := PushHash(cfg.restore, Window(w.start, w.hashes), w.cursor, b.hash);
      Ok(Working(r.outputs, v.start, v.hashes,
                 if b.timestamp > 0 && Touches(r.outputs, w.cursor) then w.stamps[w.cursor := b.timestamp] else w.stamps,
                 r.rescan, w.cursor + 1))
  }

  ghost function ThenBlock(r: Result<Working>, cfg: Config, b: Block): Result<Working> {
    match r case Err => Err case Ok(w) => ApplyBlock(w, cfg, b)
  }

  /** The serial block-by-block fold. */
  ghost function ApplyBlocks(w: Working, cfg: Config, bs: seq<Block>): Result<Working> {
    if bs == [] then Ok(w) else ThenBlock(ApplyBlocks(w, cfg, bs[..|bs|-1]), cfg, bs[|bs|-1])
  }

  // ---------------------------------------------------------------------------------------------
  // The simple thing: one pass over one chain from the restore height
  // ---------------------------------------------------------------------------------------------

  function Empty(restore: nat): Working {
    Working([], restore, [], map[], None, restore)
  }

  function FreshConfig(restore: nat, coverage: Coverage): Config {
    Config(restore, coverage, false, {})
  }

  ghost function Fresh(restore: nat, coverage: Coverage, c: seq<Block>): Result<Working> {
    ApplyBlocks(Empty(restore), FreshConfig(restore, coverage), c)
  }
}
