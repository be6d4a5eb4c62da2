/** The scan as the program runs it: loops updating one working state in place. Every method is proved
    to do what the corresponding function of Scan says. */
module ScanLoop {
  import opened Chain
  import opened Seqs
  import opened Money
  import opened Scan
  import C = Cores
  import P = ParallelScan

  function Outpoints(outputs: Outputs): set<Outpoint> {
    set o | o in outputs :: o.outpoint
  }

  function Keys(outputs: Outputs): set<Key> {
    set o | o in outputs :: o.key
  }

  ghost predicate DistinctKeys(outputs: Outputs) {
    forall i, j :: 0 <= i < j < |outputs| ==> outputs[i].key != outputs[j].key
  }

  ghost predicate SameIds(a: Outputs, b: Outputs) {
    |a| == |b| && forall i :: 0 <= i < |a| ==> a[i].outpoint == b[i].outpoint && a[i].key == b[i].key
  }

  lemma SameIdsWithin(a: Outputs, b: Outputs)
    requires SameIds(a, b)
    ensures Outpoints(a) <= Outpoints(b) && Keys(a) <= Keys(b)
  {
    forall o | o in a ensures o.outpoint in Outpoints(b) && o.key in Keys(b) {
      var i :| 0 <= i < |a| && a[i] == o;
      assert b[i] in b;
    }
  }

  lemma SameIdsDistinct(a: Outputs, b: Outputs)
    requires SameIds(a, b) && C.Distinct(a) && DistinctKeys(a)
    ensures C.Distinct(b) && DistinctKeys(b)
  {}

  lemma SameIdsSets(a: Outputs, b: Outputs)
    requires SameIds(a, b) && C.Distinct(a) && DistinctKeys(a)
    ensures Outpoints(a) == Outpoints(b) && Keys(a) == Keys(b)
    ensures C.Distinct(b) && DistinctKeys(b)
  {
    assert SameIds(b, a);
    SameIdsWithin(a, b);
    SameIdsWithin(b, a);
    SameIdsDistinct(a, b);
  }

  /** The bookkeeping sets agree with a list of outputs. */
  ghost predicate Tracks(outputs: Outputs, seen: set<Outpoint>, keys: set<Key>) {
    seen == Outpoints(outputs) && keys == Keys(outputs) && C.Distinct(outputs) && DistinctKeys(outputs)
  }

  lemma TracksDrop(kept: Outputs, rest: Outputs, seen: set<Outpoint>, keys: set<Key>)
    requires rest != [] && Tracks(kept + rest, seen, keys)
    ensures Tracks(kept + rest[1..], seen - {rest[0].outpoint}, keys - {rest[0].key})
  {
    RemoveAt(kept + rest, |kept|);
    assert (kept + rest)[..|kept|] + (kept + rest)[|kept| + 1..] == kept + rest[1..];
  }

  lemma TracksReplace(kept: Outputs, rest: Outputs, q: TrackedOutput, seen: set<Outpoint>, keys: set<Key>)
    requires rest != [] && Tracks(kept + rest, seen, keys)
    requires q.outpoint == rest[0].outpoint && q.key == rest[0].key
    ensures Tracks((kept + [q]) + rest[1..], seen, keys)
  {
    SameIdsSets(kept + rest, (kept + [q]) + rest[1..]);
  }

  lemma ReconcileStep(all: Outputs, i: nat, h: nat, txids: set<Txid>, images: set<Image>)
    requires i < |all|
    ensures all[i..][1..] == all[i + 1..] && all[i..][0] == all[i]
    ensures Reconcile(all[..i + 1], h, txids, images)
      == Reconcile(all[..i], h, txids, images)
         + match ReconcileOne(all[i], h, txids, images) case None => [] case Some(q) => [q]
  {
    assert all[..i + 1] == all[..i] + [all[i]];
    FilterMapSnoc(Reconciler(h, txids, images), all[..i], all[i]);
  }

  ghost predicate SameImages(a: Outputs, b: Outputs) {
    SameIds(a, b) && forall i :: 0 <= i < |a| ==> a[i].image == b[i].image
  }

  lemma ImageIndexSame(a: Outputs, b: Outputs, image: Image)
    requires |a| == |b| && forall i :: 0 <= i < |a| ==> a[i].image == b[i].image
    ensures ImageIndex(a, image) == ImageIndex(b, image)
  {}

  lemma SightingKeepsImages(a: Outputs, b: Outputs, s: Sighting, h: nat)
    requires SameImages(a, b)
    ensures SameImages(ApplySighting(a, s, h), b) && ImageIndex(a, s.image) == ImageIndex(b, s.image)
  {
    ImageIndexSame(a, b, s.image);
  }

  /** The key images the wallet knows, each with the first output carrying it. */
  method IndexImages(outputs: Outputs) returns (index: map<Image, nat>)
    ensures forall x: Image :: x in index <==> x != NO_IMAGE && ImageIndex(outputs, x) < |outputs|
    ensures forall x :: x in index ==> index[x] == ImageIndex(outputs, x)
  {
    index := map[];
    for i := 0 to |outputs|
      invariant forall x: Image :: x in index <==> x != NO_IMAGE && ImageIndex(outputs, x) < i
      invariant forall x :: x in index ==> index[x] == ImageIndex(outputs, x)
    {
      if outputs[i].image != NO_IMAGE && outputs[i].image !in index {
        index := index[outputs[i].image := i];
      }
    }
  }

  /** The two passes a rewind makes over the outputs. */
  function Retainer(h: nat): TrackedOutput -> Option<TrackedOutput> {
    (o: TrackedOutput) => if o.height < h then Some(o) else None
  }

  function Clearer(h: nat): TrackedOutput -> Option<TrackedOutput> {
    (o: TrackedOutput) => Some(if o.spendingHeight.Some? && o.spendingHeight.value >= h then ClearSpend(o) else o)
  }

  lemma RewoundIs(restore: nat, target: nat, w: Working, h: nat, v: Window, stamps: map<nat, nat>)
    requires h == (if target < restore then restore else target) && v == RewindWindow(restore, Window(w.start, w.hashes), h)
    requires stamps == map k | k in w.stamps && k < h :: w.stamps[k]
    ensures Rewind(restore, target, w) == Working(RewindOutputs(w.outputs, h), v.start, v.hashes, stamps, w.rescan, h)
  {}

  lemma RetainThenClear(outputs: Outputs, h: nat)
    ensures FilterMap(Clearer(h), FilterMap(Retainer(h), outputs)) == RewindOutputs(outputs, h)
  {
    FilterMapComposes(Retainer(h), Clearer(h), Rewinder(h), outputs);
  }

  lemma {:induction false} ClearedLength(outputs: Outputs, h: nat)
    ensures |FilterMap(Clearer(h), outputs)| == |outputs|
  {
    if outputs != [] {
      ClearedLength(outputs[..|outputs|-1], h);
    }
  }

  lemma ClearStep(all: Outputs, i: nat, h: nat, now: Outputs)
    requires i < |all| && now == FilterMap(Clearer(h), all[..i]) + all[i..]
    ensures |now| == |all| && now[i] == all[i]
    ensures now[i := Clearer(h)(all[i]).value] == FilterMap(Clearer(h), all[..i + 1]) + all[i + 1..]
  {
    ClearedLength(all[..i], h);
    assert all[..i + 1] == all[..i] + [all[i]];
    FilterMapSnoc(Clearer(h), all[..i], all[i]);
  }

  /** The working state of one refresh. */
  class WorkingState {
    var outputs: Outputs
    var seen: set<Outpoint>
    var start: nat
    var hashes: seq<Hash>
    var stamps: map<nat, nat>
    var rescan: Option<nat>
    var cursor: nat

    function Value(): Working
      reads this
    {
      Working(outputs, start, hashes, stamps, rescan, cursor)
    }

    /** The seen outpoints are exactly those of the tracked outputs, and neither outpoints nor one-time
        keys repeat. */
    ghost predicate Valid()
      reads this
    {
      seen == Outpoints(outputs) && C.Distinct(outputs) && DistinctKeys(outputs)
    }

    constructor (w: Working, seen: set<Outpoint>)
      ensures Value() == w && this.seen == seen
      ensures seen == Outpoints(w.outputs) && C.Distinct(w.outputs) && DistinctKeys(w.outputs) ==> Valid()
    {
      outputs, this.seen, start, hashes, stamps, rescan, cursor := w.outputs, seen, w.start, w.hashes, w.stamps, w.rescan, w.cursor;
    }

    method PushRecentBlockHash(restore: nat, height: nat, hash: Hash)
      modifies this`start, this`hashes
      ensures Window(start, hashes) == PushHash(restore, Window(old(start), old(hashes)), height, hash)
    {
      if start == 0 {
        start := restore;
      }
      if hashes == [] {
        start, hashes := height, [hash];
        return;
      }
      var expected := start + |hashes|;
      if height == expected {
        assert hashes[..height - start] == hashes;
        hashes := hashes + [hash];
      } else if start <= height < expected {
        hashes := hashes[..height - start] + [hash];
      } else {
        start, hashes := height, [hash];
      }
      if |hashes| > RECENT_MAX {
        var overflow := |hashes| - RECENT_MAX;
        start, hashes := start + overflow, hashes[overflow..];
      }
    }

    method RetainBelow(h: nat)
      modifies this`outputs
      ensures outputs == FilterMap(Retainer(h), old(outputs))
    {
      var kept: Outputs := [];
      ghost var all := outputs;
      for i := 0 to |outputs|
        invariant outputs == all && kept == FilterMap(Retainer(h), all[..i])
      {
        assert all[..i + 1] == all[..i] + [all[i]];
        FilterMapSnoc(Retainer(h), all[..i], all[i]);
        if outputs[i].height < h {
          kept := kept + [outputs[i]];
        }
      }
      assert all[..|all|] == all;
      outputs := kept;
    }

    method ClearSpendsFrom(h: nat)
      modifies this`outputs
      ensures outputs == FilterMap(Clearer(h), old(outputs))
    {
      ghost var all := outputs;
      for i := 0 to |outputs|
        invariant |outputs| == |all| && outputs == FilterMap(Clearer(h), all[..i]) + all[i..]
      {
        ClearStep(all, i, h, outputs);
        if outputs[i].spendingHeight.Some? && outputs[i].spendingHeight.value >= h {
          outputs := outputs[i := ClearSpend(outputs[i])];
        }
      }
      assert all[..|all|] == all;
    }

    method RebuildSeen()
      modifies this`seen
      ensures seen == Outpoints(outputs)
    {
      seen := {};
      for k := 0 to |outputs|
        invariant seen == Outpoints(outputs[..k])
      {
        assert outputs[..k + 1] == outputs[..k] + [outputs[k]];
        seen := seen + {outputs[k].outpoint};
      }
      assert outputs[..|outputs|] == outputs;
    }

    method CutWindow(restore: nat, h: nat)
      modifies this`start, this`hashes
      ensures Window(start, hashes) == RewindWindow(restore, Window(old(start), old(hashes)), h)
    {
      if hashes != [] {
        if h <= start {
          start, hashes := restore, [];
        } else if h - start < |hashes| {
          hashes := hashes[..h - start];
        }
      }
    }

    /** Retain what lies below the height, clear the spends seen from it on, rebuild the seen set, cut
        the window and the timestamps. */
    method RewindTo(restore: nat, target: nat)
      modifies this
      ensures Value() == Rewind(restore, target, old(Value())) && seen == Outpoints(outputs)
      ensures old(Valid()) ==> Valid()
    {
      ghost var w := Value();
      var h := if target < restore then restore else target;
      RewindTracked(h);
      CutWindow(restore, h);
      stamps := map k | k in stamps && k < h :: stamps[k];
      cursor := h;
      RewoundIs(restore, target, w, h, Window(start, hashes), stamps);
    }

    method RewindTracked(h: nat)
      modifies this`outputs, this`seen
      ensures outputs == RewindOutputs(old(outputs), h) && seen == Outpoints(outputs)
      ensures old(Valid()) ==> Valid()
    {
      RetainThenClear(outputs, h);
      RewoundIds(outputs, h);
      RetainBelow(h);
      ClearSpendsFrom(h);
      RebuildSeen();
    }

    /** `retain_mut` over the tracked outputs, keeping the seen set and the key set in step. */
    method ReconcileReplayedHeight(h: nat, txids: set<Txid>, images: set<Image>, keys: set<Key>) returns (keys': set<Key>)
      requires Valid() && keys == Keys(outputs)
      modifies this`outputs, this`seen
      ensures Valid() && outputs == Reconcile(old(outputs), h, txids, images) && keys' == Keys(outputs)
    {
      var kept: Outputs := [];
      keys' := keys;
      ghost var all := outputs;
      assert kept + all[0..] == all;
      for i := 0 to |outputs|
        invariant outputs == all && kept == Reconcile(all[..i], h, txids, images)
        invariant Tracks(kept + all[i..], seen, keys')
      {
        ReconcileStep(all, i, h, txids, images);
        var o := outputs[i];
        if o.height == h && o.outpoint.txid !in txids {
          TracksDrop(kept, all[i..], seen, keys');
          seen, keys' := seen - {o.outpoint}, keys' - {o.key};
        } else {
          var q := if o.spendingHeight == Some(h) && o.image !in images then ClearSpend(o) else o;
          TracksReplace(kept, all[i..], q, seen, keys');
          kept := kept + [q];
        }
      }
      assert all[..|all|] == all && kept + all[|all|..] == kept;
      outputs := kept;
    }

    /** Index the key images once, then mark every sighting. */
    method MarkSpends(sightings: seq<Sighting>, h: nat)
      requires Valid()
      modifies this`outputs
      ensures Valid() && outputs == ApplySightings(old(outputs), sightings, h)
      ensures SameIds(outputs, old(outputs))
    {
      ghost var all := outputs;
      var index := IndexImages(outputs);
      for k := 0 to |sightings|
        invariant outputs == ApplySightings(all, sightings[..k], h)
        invariant SameImages(outputs, all)
      {
        assert sightings[..k + 1][..k] == sightings[..k];
        var s := sightings[k];
        SightingKeepsImages(outputs, all, s, h);
        if s.image in index {
          var i := index[s.image];
          outputs := outputs[i := MarkSpent(outputs[i], s, h)];
        }
      }
      assert sightings[..|sightings|] == sightings;
      SameIdsSets(all, outputs);
    }

    /** Take in what the scanner found. `false` is the error return, after which the caller drops the
        whole working state. */
    method ReceiveOwned(owned: seq<Owned>, h: nat, sealed: bool, keys: set<Key>) returns (ok: bool, keys': set<Key>)
      requires Valid() && keys == Keys(outputs)
      modifies this`outputs, this`seen, this`rescan
      ensures ok <==> Receive(Receipt(old(outputs), old(rescan)), owned, h, sealed).Ok?
      ensures ok ==> Valid() && keys' == Keys(outputs)
      ensures ok ==> Receive(Receipt(old(outputs), old(rescan)), owned, h, sealed) == Ok(Receipt(outputs, rescan))
    {
      keys' := keys;
      ghost var r0 := Receipt(outputs, rescan);
      for i := 0 to |owned|
        invariant Receive(r0, owned[..i], h, sealed) == Ok(Receipt(outputs, rescan))
        invariant Valid() && keys' == Keys(outputs)
      {
        ghost var before := Receipt(outputs, rescan);
        ReceiveNext(r0, owned, i, h, sealed, before);
        ok, keys' := ReceiveOutput(owned[i], h, sealed, keys');
        if !ok {
          ReceiveFails(r0, owned, i + 1, h, sealed);
          return;
        }
      }
      assert owned[..|owned|] == owned;
      ok := true;
    }

    method ReceiveOutput(o: Owned, h: nat, sealed: bool, keys: set<Key>) returns (ok: bool, keys': set<Key>)
      requires Valid() && keys == Keys(outputs)
      modifies this`outputs, this`seen, this`rescan
      ensures ok <==> ReceiveOne(Receipt(old(outputs), old(rescan)), o, h, sealed).Ok?
      ensures ok ==> Valid() && keys' == Keys(outputs)
      ensures ok ==> ReceiveOne(Receipt(old(outputs), old(rescan)), o, h, sealed) == Ok(Receipt(outputs, rescan))
    {
      ok, keys' := true, keys;
      if o.outpoint in seen {
        ok := RelocateReplayedOutput(o.outpoint, o.key, h);
        SameIdsSets(old(outputs), outputs);
      } else {
        assert forall q :: q in outputs ==> q.outpoint != o.outpoint;
        assert OutpointIndex(outputs, o.outpoint) == |outputs|;
        if o.key !in keys {
          AppendIds(outputs, Tracked(o, h, sealed));
          keys', seen := keys' + {o.key}, seen + {o.outpoint};
          if sealed {
            rescan := LowerRescan(rescan, h);
          }
          outputs := outputs + [Tracked(o, h, sealed)];
        }
      }
    }

    method RelocateReplayedOutput(p: Outpoint, key: Key, h: nat) returns (ok: bool)
      requires Valid() && p in seen
      modifies this`outputs
      ensures Valid() && SameIds(outputs, old(outputs))
      ensures var i := OutpointIndex(old(outputs), p);
        && i < |old(outputs)| && (ok <==> old(outputs)[i].key == key)
        && outputs == if ok then old(outputs)[i := old(outputs)[i].(height := h)] else old(outputs)
    {
      var i := 0;
      while i < |outputs| && outputs[i].outpoint != p
        invariant 0 <= i <= |outputs|
        invariant forall j :: 0 <= j < i ==> outputs[j].outpoint != p
      {
        i := i + 1;
      }
      assert OutpointIndex(outputs, p) == i;
      if outputs[i].key != key {
        return false;
      }
      ghost var all := outputs;
      outputs := outputs[i := outputs[i].(height := h)];
      SameIdsSets(all, outputs);
      return true;
    }

    /** Spends of this height seen without a transaction id go to the only possible change transaction. */
    method AttributeSpends(h: nat)
      modifies this`outputs
      ensures outputs == Attribute(old(outputs), h) && SameIds(old(outputs), outputs)
    {
      var anonymous, owner := FindChangeTransaction(outputs, h);
      ghost var all := outputs;
      AttributedTo(all, h, owner);
      if owner.Some? {
        for k := 0 to |anonymous|
          invariant |outputs| == |all|
          invariant forall i :: 0 <= i < |all| ==>
            outputs[i] == if i in anonymous[..k] then all[i].(spendingTxid := owner) else all[i]
        {
          assert anonymous[k] in anonymous;
          outputs := outputs[anonymous[k] := outputs[anonymous[k]].(spendingTxid := owner)];
        }
        assert anonymous[..|anonymous|] == anonymous;
      }
    }

    /** Reconciliation at a retained height, spends, receives, attribution. */
    method ScanOutputs(cfg: Config, b: Block, found: seq<Owned>, keys: set<Key>) returns (ok: bool, keys': set<Key>)
      requires Valid() && keys == Keys(outputs) && found == ScanOwned(b.owned, cfg.coverage)
      modifies this`outputs, this`seen, this`rescan
      ensures ok <==> ApplyOutputs(old(outputs), old(rescan), cfg, cursor, b).Ok?
      ensures ok ==> Valid() && keys' == Keys(outputs)
      ensures ok ==> ApplyOutputs(old(outputs), old(rescan), cfg, cursor, b) == Ok(Receipt(outputs, rescan))
    {
      keys' := keys;
      if cursor in cfg.replay {
        keys' := ReconcileReplayedHeight(cursor, TxidsOf(b), DecodedImages(b.decoded), keys');
      }
      ghost var reconciled := outputs;
      MarkSpends(Sightings(b), cursor);
      SameIdsKeys(reconciled, outputs);
      ok, keys' := ReceiveOwned(found, cursor, cfg.sealed, keys');
      if ok {
        ghost var received := outputs;
        AttributeSpends(cursor);
        SameIdsSets(received, outputs);
      }
    }

    /** One block: the window, the outputs, the timestamp of a height that touches the wallet. */
    method ScanBlock(cfg: Config, b: Block, found: seq<Owned>, keys: set<Key>) returns (ok: bool, keys': set<Key>)
      requires Valid() && keys == Keys(outputs) && found == ScanOwned(b.owned, cfg.coverage)
      modifies this
      ensures ok <==> ApplyBlock(old(Value()), cfg, b).Ok?
      ensures ok ==> Valid() && keys' == Keys(outputs) && ApplyBlock(old(Value()), cfg, b) == Ok(Value())
    {
      ghost var w := Value();
      PushRecentBlockHash(cfg.restore, cursor, b.hash);
      ok, keys' := ScanOutputs(cfg, b, found, keys);
      if ok {
        ghost var r, v := Receipt(outputs, rescan), Window(start, hashes);
        BlockCases(w, cfg, b, r, v);
        Stamp(b.timestamp);
      } else {
        BlockFails(w, cfg, b);
      }
    }

    /** Remember the timestamp of a height that touches the wallet and move on. */
    method Stamp(timestamp: nat)
      modifies this`stamps, this`cursor
      ensures stamps == StampedAt(old(stamps), outputs, old(cursor), timestamp) && cursor == old(cursor) + 1
    {
      if timestamp > 0 && Touches(outputs, cursor) {
        stamps := stamps[cursor := timestamp];
      }
      cursor := cursor + 1;
    }

    /** One response: the ownership scan may already have run in parallel, everything else is serial. An
        error abandons the working state. */
    method ScanBatch(cfg: Config, bs: seq<Block>, workers: nat) returns (ok: bool)
      requires Valid()
      modifies this
      ensures ok <==> ApplyBlocks(old(Value()), cfg, bs).Ok?
      ensures ok ==> Valid() && ApplyBlocks(old(Value()), cfg, bs) == Ok(Value())
      ensures ok ==> cursor == old(cursor) + |bs|
    {
      var found := P.ScanOrdered(bs, cfg.coverage, workers);
      var keys := set o | o in outputs :: o.key;
      ghost var w0 := Value();
      for i := 0 to |bs|
        invariant Valid() && keys == Keys(outputs) && cursor == w0.cursor + i
        invariant ApplyBlocks(w0, cfg, bs[..i]) == Ok(Value())
      {
        assert bs[..i + 1][..i] == bs[..i];
        ghost var w := Value();
        ok, keys := ScanBlock(cfg, bs[i], found[i], keys);
        assert ApplyBlocks(w0, cfg, bs[..i + 1]) == ApplyBlock(w, cfg, bs[i]);
        if !ok {
          ApplyBlocksFails(w0, cfg, bs, i + 1);
          return;
        }
      }
      assert bs[..|bs|] == bs;
      ok := true;
    }
  }

  lemma RewoundIds(outputs: Outputs, h: nat)
    ensures C.Distinct(outputs) && DistinctKeys(outputs)
      ==> C.Distinct(RewindOutputs(outputs, h)) && DistinctKeys(RewindOutputs(outputs, h))
  {
    if C.Distinct(outputs) && DistinctKeys(outputs) {
      C.FilterMapDistinct(Rewinder(h), outputs);
      RewoundKeys(outputs, h);
    }
  }

  lemma {:induction false} RewoundKeys(outputs: Outputs, h: nat)
    requires DistinctKeys(outputs)
    ensures DistinctKeys(RewindOutputs(outputs, h))
  {
    if outputs != [] {
      var init, last := outputs[..|outputs|-1], outputs[|outputs|-1];
      RewoundKeys(init, h);
      var kept := RewindOutputs(init, h);
      forall i | 0 <= i < |kept| ensures kept[i].key != last.key {
        assert kept[i] in kept;
        FilterMapMembers(Rewinder(h), init, kept[i]);
        var o :| o in init && Rewinder(h)(o) == Some(kept[i]);
      }
    }
  }

  lemma RemoveAt(outputs: Outputs, k: nat)
    requires k < |outputs| && C.Distinct(outputs) && DistinctKeys(outputs)
    ensures var rest := outputs[..k] + outputs[k + 1..];
      && Outpoints(rest) == Outpoints(outputs) - {outputs[k].outpoint} && Keys(rest) == Keys(outputs) - {outputs[k].key}
      && C.Distinct(rest) && DistinctKeys(rest)
  {
    var rest := outputs[..k] + outputs[k + 1..];
    forall i | 0 <= i < |outputs| && i != k ensures outputs[i] in rest {
      if i < k { assert rest[i] == outputs[i]; } else { assert rest[i - 1] == outputs[i]; }
    }
    forall o | o in rest ensures o in outputs && o.outpoint != outputs[k].outpoint && o.key != outputs[k].key {
      var j :| 0 <= j < |rest| && rest[j] == o;
      assert o == outputs[if j < k then j else j + 1];
    }
  }

  lemma AppendIds(outputs: Outputs, o: TrackedOutput)
    requires C.Distinct(outputs) && DistinctKeys(outputs) && o.outpoint !in Outpoints(outputs) && o.key !in Keys(outputs)
    ensures var all := outputs + [o];
      && Outpoints(all) == Outpoints(outputs) + {o.outpoint} && Keys(all) == Keys(outputs) + {o.key}
      && C.Distinct(all) && DistinctKeys(all)
  {
    forall i | 0 <= i < |outputs| ensures outputs[i].outpoint != o.outpoint && outputs[i].key != o.key {
      assert outputs[i] in outputs;
    }
  }

  lemma ReceiveNext(r: Receipt, owned: seq<Owned>, i: nat, h: nat, sealed: bool, before: Receipt)
    requires i < |owned| && Receive(r, owned[..i], h, sealed) == Ok(before)
    ensures Receive(r, owned[..i + 1], h, sealed) == ReceiveOne(before, owned[i], h, sealed)
  {
    assert owned[..i + 1][..i] == owned[..i];
  }

  /** An error stays an error. */
  lemma {:induction false} ReceiveFails(r: Receipt, owned: seq<Owned>, k: nat, h: nat, sealed: bool)
    requires k <= |owned| && Receive(r, owned[..k], h, sealed) == Err
    ensures Receive(r, owned, h, sealed) == Err
    decreases |owned| - k
  {
    if k < |owned| {
      assert owned[..k + 1][..k] == owned[..k];
      ReceiveFails(r, owned, k + 1, h, sealed);
    } else {
      assert owned[..k] == owned;
    }
  }

  function StampedAt(stamps: map<nat, nat>, outputs: Outputs, h: nat, timestamp: nat): map<nat, nat> {
    if timestamp > 0 && Touches(outputs, h) then stamps[h := timestamp] else stamps
  }

  lemma BlockCases(w: Working, cfg: Config, b: Block, r: Receipt, v: Window)
    requires ApplyOutputs(w.outputs, w.rescan, cfg, w.cursor, b) == Ok(r)
    requires v == PushHash(cfg.restore, Window(w.start, w.hashes), w.cursor, b.hash)
    ensures ApplyBlock(w, cfg, b)
      == Ok(Working(r.outputs, v.start, v.hashes, StampedAt(w.stamps, r.outputs, w.cursor, b.timestamp), r.rescan, w.cursor + 1))
  {}

  lemma BlockFails(w: Working, cfg: Config, b: Block)
    requires ApplyOutputs(w.outputs, w.rescan, cfg, w.cursor, b) == Err
    ensures ApplyBlock(w, cfg, b) == Err
  {}

  lemma SameIdsKeys(a: Outputs, b: Outputs)
    requires SameIds(b, a)
    ensures Keys(a) == Keys(b)
  {
    assert SameIds(a, b);
    SameIdsWithin(a, b);
    SameIdsWithin(b, a);
  }

  lemma {:induction false} ApplyBlocksFails(w: Working, cfg: Config, bs: seq<Block>, k: nat)
    requires k <= |bs| && ApplyBlocks(w, cfg, bs[..k]) == Err
    ensures ApplyBlocks(w, cfg, bs) == Err
    decreases |bs| - k
  {
    if k < |bs| {
      assert bs[..k + 1][..k] == bs[..k];
      ApplyBlocksFails(w, cfg, bs, k + 1);
    } else {
      assert bs[..k] == bs;
    }
  }

  // ---------------------------------------------------------------------------------------------
  // The change transaction of a height
  // ---------------------------------------------------------------------------------------------

  method ChangeTotal(outputs: Outputs, t: Txid, h: nat) returns (sum: nat)
    ensures sum == ChangeSum(outputs, t, h)
  {
    sum := 0;
    for i := 0 to |outputs|
      invariant sum == ChangeSum(outputs[..i], t, h)
    {
      assert outputs[..i + 1][..i] == outputs[..i];
      if FreshChange(outputs[i], h) && outputs[i].outpoint.txid == t {
        sum := sum + outputs[i].amount;
      }
    }
    assert outputs[..|outputs|] == outputs;
  }

  /** The anonymous spends of the height, what they are worth, and the transactions it receives from. */
  method CollectChange(outputs: Outputs, h: nat) returns (anonymous: seq<nat>, spent: nat, receiving: set<Txid>)
    ensures forall i: nat :: i in anonymous <==> i < |outputs| && Unattributed(outputs[i], h)
    ensures spent == Cap(UnattributedSum(outputs, h))
    ensures forall t :: t in receiving <==> exists o :: o in outputs && FreshChange(o, h) && o.outpoint.txid == t
  {
    anonymous, spent, receiving := [], 0, {};
    for i := 0 to |outputs|
      invariant forall j: nat :: j in anonymous <==> j < i && Unattributed(outputs[j], h)
      invariant spent == Cap(UnattributedSum(outputs[..i], h))
      invariant forall t :: t in receiving <==> exists o :: o in outputs[..i] && FreshChange(o, h) && o.outpoint.txid == t
    {
      var upto := outputs[..i + 1];
      assert upto[..i] == outputs[..i] && upto == outputs[..i] + [outputs[i]];
      SatAddCap(UnattributedSum(outputs[..i], h), outputs[i].amount);
      if Unattributed(outputs[i], h) {
        anonymous, spent := anonymous + [i], SatAdd(spent, outputs[i].amount);
      } else if FreshChange(outputs[i], h) {
        receiving := receiving + {outputs[i].outpoint.txid};
      }
    }
    assert outputs[..|outputs|] == outputs;
  }

  predicate Excludes(outputs: Outputs, anonymous: seq<nat>, t: Txid)
    requires forall m :: 0 <= m < |anonymous| ==> anonymous[m] < |outputs|
  {
    forall m :: 0 <= m < |anonymous| ==> outputs[anonymous[m]].outpoint.txid != t
  }

  /** A transaction whose own output is among those spends is not their change. */
  method ExcludeSources(outputs: Outputs, anonymous: seq<nat>, receiving: set<Txid>) returns (change: set<Txid>)
    requires forall m :: 0 <= m < |anonymous| ==> anonymous[m] < |outputs|
    ensures forall t :: t in change <==> t in receiving && Excludes(outputs, anonymous, t)
  {
    change := receiving;
    for k := 0 to |anonymous|
      invariant forall t :: t in change <==> t in receiving && forall m :: 0 <= m < k ==> outputs[anonymous[m]].outpoint.txid != t
    {
      change := change - {outputs[anonymous[k]].outpoint.txid};
    }
  }

  /** The set is visited in no particular order. */
  method RetainPossible(outputs: Outputs, h: nat, spent: nat, change: set<Txid>) returns (kept: set<Txid>)
    ensures forall t :: t in kept <==> t in change && 0 < ChangeSum(outputs, t, h) < spent
  {
    var pending := change;
    kept := {};
    while pending != {}
      invariant pending <= change
      invariant forall t :: t in kept <==> t in change - pending && 0 < ChangeSum(outputs, t, h) < spent
    {
      var t :| t in pending;
      pending := pending - {t};
      var incoming := ChangeTotal(outputs, t, h);
      if 0 < incoming < spent {
        kept := kept + {t};
      }
    }
  }

  method FindChangeTransaction(outputs: Outputs, h: nat) returns (anonymous: seq<nat>, owner: Option<Txid>)
    ensures forall i: nat :: i in anonymous <==> i < |outputs| && Unattributed(outputs[i], h)
    ensures forall t: Txid :: owner == Some(t) <==> IsChangeTx(outputs, t, h) && forall u :: IsChangeTx(outputs, u, h) ==> u == t
  {
    var spent, receiving;
    anonymous, spent, receiving := CollectChange(outputs, h);
    assert forall m :: 0 <= m < |anonymous| ==> anonymous[m] in anonymous;
    var change := ExcludeSources(outputs, anonymous, receiving);
    SourcesExcluded(outputs, anonymous, h);
    var kept := RetainPossible(outputs, h, spent, change);
    assert forall t :: t in kept <==> IsChangeTx(outputs, t, h);
    owner := None;
    if anonymous != [] && |kept| == 1 {
      var t :| t in kept;
      Singleton(kept, t);
      owner := Some(t);
    } else if kept != {} {
      NeedsAnonymous(outputs, h);
      NotSingleton(kept);
    }
  }

  lemma SourcesExcluded(outputs: Outputs, anonymous: seq<nat>, h: nat)
    requires forall i: nat :: i in anonymous <==> i < |outputs| && Unattributed(outputs[i], h)
    requires forall m :: 0 <= m < |anonymous| ==> anonymous[m] < |outputs|
    ensures forall t: Txid :: Excludes(outputs, anonymous, t) <==> forall o :: o in outputs && Unattributed(o, h) ==> o.outpoint.txid != t
  {
    forall t: Txid | Excludes(outputs, anonymous, t) ensures forall o :: o in outputs && Unattributed(o, h) ==> o.outpoint.txid != t {
      forall o | o in outputs && Unattributed(o, h) ensures o.outpoint.txid != t {
        var i :| 0 <= i < |outputs| && outputs[i] == o;
        assert i in anonymous;
      }
    }
    forall m | 0 <= m < |anonymous| ensures outputs[anonymous[m]] in outputs && Unattributed(outputs[anonymous[m]], h) {
      assert anonymous[m] in anonymous;
    }
  }

  lemma Singleton<T>(s: set<T>, x: T)
    requires |s| == 1 && x in s
    ensures s == {x}
  {
    assert |s - {x}| == 0;
  }

  lemma NotSingleton<T>(s: set<T>)
    requires |s| != 1 && s != {}
    ensures forall x :: x in s ==> exists y :: y in s && y != x
  {
    forall x | x in s ensures exists y :: y in s && y != x {
      assert |s - {x}| > 0;
      var y :| y in s - {x};
    }
  }

  lemma NeedsAnonymous(outputs: Outputs, h: nat)
    ensures UnattributedSum(outputs, h) > 0 ==> exists i :: 0 <= i < |outputs| && Unattributed(outputs[i], h)
  {
    if outputs != [] {
      var init := outputs[..|outputs|-1];
      NeedsAnonymous(init, h);
      if i :| 0 <= i < |init| && Unattributed(init[i], h) {
        assert outputs[i] == init[i];
      }
    }
  }

  lemma AttributedTo(outputs: Outputs, h: nat, owner: Option<Txid>)
    requires forall t: Txid :: owner == Some(t) <==> IsChangeTx(outputs, t, h) && forall u :: IsChangeTx(outputs, u, h) ==> u == t
    ensures var r := Attribute(outputs, h);
      forall i :: 0 <= i < |outputs| ==>
        r[i] == if owner.Some? && Unattributed(outputs[i], h) then outputs[i].(spendingTxid := owner) else outputs[i]
  {
    if owner.Some? {
      var t := owner.value;
      assert IsChangeTx(outputs, t, h);
    }
  }
}
