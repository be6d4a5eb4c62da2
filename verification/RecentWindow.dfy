/** Exactly which block hashes the bounded window keeps. */
module RecentWindow {
  import opened Chain
  import opened Scan
  import opened RecentHashes

  // ---------------------------------------------------------------------------------------------
  // Exactly which hashes are kept
  // ---------------------------------------------------------------------------------------------

  predicate Joins(m: map<nat, Hash>, height: nat) {
    height in m || (height > 0 && height - 1 in m)
  }

  /** A push that overlaps or continues what is kept forgets the heights from its own on and those 4096 or
      more below it; any other push forgets everything else. */
  function KeptStep(m: map<nat, Hash>, op: WindowOp): map<nat, Hash> {
    match op
    case Push(height, hash) =>
      (map k | k in m && k < height < k + 4096 && Joins(m, height) :: m[k])[height := hash]
    case Cut(height) => CutMap(m, height)
  }

  function RunKept(ops: seq<WindowOp>): map<nat, Hash> {
    if ops == [] then map[] else KeptStep(RunKept(ops[..|ops|-1]), ops[|ops|-1])
  }

  ghost predicate Shows(w: Window, m: map<nat, Hash>) {
    && |w.hashes| <= RECENT_MAX
    && (forall k: nat :: k in m <==> w.start <= k < w.start + |w.hashes|)
    && (forall k: nat :: k in m ==> w.hashes[k - w.start] == m[k])
  }

  lemma KeptStepShown(restore: nat, w: Window, m: map<nat, Hash>, op: WindowOp)
    requires Shows(w, m) && w.start >= restore && op.height >= restore
    ensures Shows(WindowStep(restore, w, op), KeptStep(m, op)) && WindowStep(restore, w, op).start >= restore
  {
    var v, n := WindowStep(restore, w, op), KeptStep(m, op);
    if op.Push? {
      assert Joins(m, op.height) <==> w.hashes != [] && w.start <= op.height <= w.start + |w.hashes|;
    }
  }

  /** After any run of pushes - appending, repeating, overlapping, leaving a gap, below the start - and
      cuts, the window is exactly the map of kept hashes: contiguous, at most 4096 entries, none missing. */
  lemma {:induction false} WindowKeepsExactly(restore: nat, ops: seq<WindowOp>)
    requires forall op :: op in ops ==> op.height >= restore
    ensures Shows(RunWindow(restore, ops), RunKept(ops)) && RunWindow(restore, ops).start >= restore
    ensures forall k: nat :: HashAt(RunWindow(restore, ops), k) == if k in RunKept(ops) then Some(RunKept(ops)[k]) else None
  {
    if ops != [] {
      var init, op := ops[..|ops|-1], ops[|ops|-1];
      WindowKeepsExactly(restore, init);
      assert op in ops;
      KeptStepShown(restore, RunWindow(restore, init), RunKept(init), op);
    }
  }

  // ---------------------------------------------------------------------------------------------
  // The window of a scan
  // ---------------------------------------------------------------------------------------------

  ghost predicate KeepsLast(w: Window, c: seq<Block>, base: nat) {
    WindowOf(w, c, base) && |w.hashes| == if |c| < RECENT_MAX then |c| else RECENT_MAX
  }

  lemma KeepsLastSnoc(restore: nat, w: Window, c: seq<Block>, b: Block, h: nat)
    requires KeepsLast(w, c, restore) && w.start >= restore && h == restore + |c|
    ensures KeepsLast(PushHash(restore, w, h, b.hash), c + [b], restore) && PushHash(restore, w, h, b.hash).start >= restore
  {
    PushOnChain(restore, w, c, restore, b);
  }

  datatype Pushed = Pushed(window: Window, next: nat)

  /** Pushing the hashes of a chain one after the other. */
  function PushAll(restore: nat, c: seq<Block>): Pushed {
    if c == [] then Pushed(Window(restore, []), restore)
    else
      var p := PushAll(restore, c[..|c|-1]);
      Pushed(PushHash(restore, p.window, p.next, c[|c|-1].hash), p.next + 1)
  }

  lemma {:induction false} PushAllKeepsLast(restore: nat, c: seq<Block>)
    ensures var p := PushAll(restore, c);
      KeepsLast(p.window, c, restore) && p.window.start >= restore && p.next == restore + |c|
  {
    if c != [] {
      var init, b := c[..|c|-1], c[|c|-1];
      PushAllKeepsLast(restore, init);
      var p := PushAll(restore, init);
      KeepsLastSnoc(restore, p.window, init, b, p.next);
      assert c == init + [b];
    }
  }

  lemma {:induction false} ScanPushesAll(w: Working, cfg: Config, c: seq<Block>)
    requires w.start == cfg.restore && w.hashes == [] && w.cursor == cfg.restore && ApplyBlocks(w, cfg, c).Ok?
    ensures var u := ApplyBlocks(w, cfg, c).value;
      Pushed(Window(u.start, u.hashes), u.cursor) == PushAll(cfg.restore, c)
  {
    if c != [] {
      ScanPushesAll(w, cfg, c[..|c|-1]);
      var x := ApplyBlocks(w, cfg, c[..|c|-1]).value;
      assert ApplyBlocks(w, cfg, c) == ApplyBlock(x, cfg, c[|c|-1]);
    }
  }

  /** Scanning a chain keeps the hashes of exactly its last 4096 blocks. */
  lemma ScanKeepsLastHashes(restore: nat, coverage: Coverage, c: seq<Block>)
    requires Fresh(restore, coverage, c).Ok?
    ensures var u := Fresh(restore, coverage, c).value;
      && u.cursor == restore + |c| && |u.hashes| == (if |c| < 4096 then |c| else 4096)
      && WindowOf(Window(u.start, u.hashes), c, restore)
  {
    ScanPushesAll(Empty(restore), FreshConfig(restore, coverage), c);
    PushAllKeepsLast(restore, c);
  }
}
