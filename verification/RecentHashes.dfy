/** The bounded window of recent block hashes, and locating a fork against it. */
module RecentHashes {
  import opened Chain
  import opened Scan

  // ---------------------------------------------------------------------------------------------
  // The window as a height-to-hash map
  // ---------------------------------------------------------------------------------------------

  datatype WindowOp = Push(height: nat, hash: Hash) | Cut(height: nat)

  function WindowStep(restore: nat, w: Window, op: WindowOp): Window {
    match op
    case Push(height, hash) => PushHash(restore, w, height, hash)
    case Cut(height) => RewindWindow(restore, w, height)
  }

  function RunWindow(restore: nat, ops: seq<WindowOp>): Window {
    if ops == [] then Window(restore, []) else WindowStep(restore, RunWindow(restore, ops[..|ops|-1]), ops[|ops|-1])
  }

  function CutMap(m: map<nat, Hash>, height: nat): map<nat, Hash> {
    map k | k in m && k < height :: m[k]
  }

  function MapStep(m: map<nat, Hash>, op: WindowOp): map<nat, Hash> {
    match op
    case Push(height, hash) => CutMap(m, height)[height := hash]
    case Cut(height) => CutMap(m, height)
  }

  /** What the window stands for: the last hash pushed at each height, with everything at or above a
      later push or cut forgotten. */
  function RunMap(ops: seq<WindowOp>): map<nat, Hash> {
    if ops == [] then map[] else MapStep(RunMap(ops[..|ops|-1]), ops[|ops|-1])
  }

  ghost predicate WindowRefines(w: Window, m: map<nat, Hash>) {
    && |w.hashes| <= RECENT_MAX
    && (forall k :: HashAt(w, k).Some? ==> k in m && m[k] == HashAt(w, k).value)
    && (w.hashes != [] ==> forall k :: k in m ==> k < w.start + |w.hashes|)
  }

  lemma WindowStepRefines(restore: nat, w: Window, m: map<nat, Hash>, op: WindowOp)
    requires WindowRefines(w, m) && w.start >= restore && op.height >= restore
    ensures var v := WindowStep(restore, w, op);
      && WindowRefines(v, MapStep(m, op)) && v.start >= restore
      && (op.Push? ==> HashAt(v, op.height) == Some(op.hash) && v.start + |v.hashes| == op.height + 1)
  {
    var v, n := WindowStep(restore, w, op), MapStep(m, op);
    forall k | HashAt(v, k).Some? ensures k in n && n[k] == HashAt(v, k).value {
      if op.Cut? || k != op.height {
        assert HashAt(w, k) == HashAt(v, k);
      }
    }
  }

  /** After any run of pushes and cuts at or above the restore height the window is bounded, every
      lookup is the last hash pushed at that height, and nothing lies above its end. */
  lemma {:induction false} WindowIsLastHashes(restore: nat, ops: seq<WindowOp>)
    requires forall op :: op in ops ==> op.height >= restore
    ensures var w := RunWindow(restore, ops);
      && WindowRefines(w, RunMap(ops))
      && w.start >= restore
      && (ops != [] && ops[|ops|-1].Push? ==>
            HashAt(w, ops[|ops|-1].height) == Some(ops[|ops|-1].hash)
            && w.start + |w.hashes| == ops[|ops|-1].height + 1)
  {
    if ops != [] {
      var init, op := ops[..|ops|-1], ops[|ops|-1];
      WindowIsLastHashes(restore, init);
      assert op in ops;
      WindowStepRefines(restore, RunWindow(restore, init), RunMap(init), op);
    }
  }

  /** The window ends where the chain ends and holds the hashes of its last blocks. */
  ghost predicate WindowOf(w: Window, c: seq<Block>, base: nat) {
    && |w.hashes| <= |c|
    && w.start + |w.hashes| == base + |c|
    && forall i :: 0 <= i < |w.hashes| ==> w.hashes[i] == c[w.start + i - base].hash
  }

  lemma PushOnChain(restore: nat, w: Window, c: seq<Block>, base: nat, b: Block)
    requires w.hashes != [] ==> base >= restore && WindowOf(w, c, base) && (w.start == 0 ==> restore == 0)
    ensures var v := PushHash(restore, w, base + |c|, b.hash);
      && v.hashes != [] && WindowOf(v, c + [b], base)
      && (w.hashes == [] ==> v == Window(base + |c|, [b.hash]))
      && |v.hashes| <= RECENT_MAX
      && (|w.hashes| <= RECENT_MAX ==> |v.hashes| == if |w.hashes| < RECENT_MAX then |w.hashes| + 1 else RECENT_MAX)
  {
    var v := PushHash(restore, w, base + |c|, b.hash);
    var d := c + [b];
    forall i | 0 <= i < |v.hashes| ensures v.hashes[i] == d[v.start + i - base].hash {}
  }

  // ---------------------------------------------------------------------------------------------
  // Locating a fork
  // ---------------------------------------------------------------------------------------------

  /** A probe asks the daemon for its hash at a height; `None` is an error. Each height is asked at
      most once, so a function describes any daemon, even one that changes chain between answers. */
  type Probe = nat -> Option<Hash>

  function Max(a: nat, b: nat): nat { if a < b then b else a }

  /** Newest to oldest over the first `n` entries. */
  function WalkBack(restore: nat, w: Window, probe: Probe, n: nat): Result<Option<nat>>
    requires n <= |w.hashes|
  {
    if n == 0 then Ok(Some(restore))
    else
      var i := n - 1;
      match probe(w.start + i)
      case None => Err
      case Some(remote) =>
        if remote == w.hashes[i] then Ok(Some(Max(w.start + i + 1, restore)))
        else WalkBack(restore, w, probe, i)
  }

  /** `Ok(None)`: no fork; `Ok(Some(h))`: scanning must resume at `h`. */
  function FindReorg(restore: nat, w: Window, probe: Probe): Result<Option<nat>> {
    if w.hashes == [] then Ok(None)
    else
      var tip := |w.hashes| - 1;
      match probe(w.start + tip)
      case None => Err
      case Some(remote) => if remote == w.hashes[tip] then Ok(None) else WalkBack(restore, w, probe, tip)
  }

  /** Whatever the daemon answers, a located height is inside the window or the restore height, and a
      rewind to it leaves the window ending right below it. */
  lemma {:induction false} WalkBackPlaces(restore: nat, w: Window, probe: Probe, n: nat)
    requires n <= |w.hashes| && w.start >= restore
    ensures match WalkBack(restore, w, probe, n)
      case Ok(Some(h)) => h == restore || w.start < h <= w.start + n
      case Ok(None) => false
      case Err => true
  {
    if n > 0 && probe(w.start + (n - 1)).Some? {
      WalkBackPlaces(restore, w, probe, n - 1);
    }
  }

  lemma LocatedHeight(restore: nat, w: Window, probe: Probe)
    requires w.hashes != [] ==> w.start >= restore
    requires FindReorg(restore, w, probe).Ok? && FindReorg(restore, w, probe).value.Some?
    ensures var h := FindReorg(restore, w, probe).value.value; var v := RewindWindow(restore, w, h);
      && restore <= h < w.start + |w.hashes|
      && (h == restore || (w.start < h && v.start == w.start && v.start + |v.hashes| == h && v.hashes == w.hashes[..h - w.start]))
      && (h <= w.start ==> h == restore && v.hashes == [])
  {
    WalkBackPlaces(restore, w, probe, |w.hashes| - 1);
  }

  /** The daemon answers from one chain `remote`, the window comes from one chain `local`, and a block
      hash fixes the parent: then a common entry has only common entries below it. */
  ghost predicate HashFixesParent(local: seq<Block>, remote: seq<Block>) {
    forall a, b :: a in local && b in remote && a.hash == b.hash ==> a.previous == b.previous
  }

  ghost predicate Answers(probe: Probe, remote: seq<Block>, base: nat) {
    forall i :: 0 <= i < |remote| ==> probe(base + i) == Some(remote[i].hash)
  }

  /** `local` and `remote` cover the window's heights. */
  ghost predicate Comparable(w: Window, local: seq<Block>, remote: seq<Block>) {
    && |local| == |remote| == |w.hashes|
    && Linked(local, w.start) && Linked(remote, w.start) && HashFixesParent(local, remote)
    && forall i :: 0 <= i < |w.hashes| ==> w.hashes[i] == local[i].hash
  }

  lemma {:induction false} CommonBelow(w: Window, local: seq<Block>, remote: seq<Block>, n: nat, k: nat)
    requires Comparable(w, local, remote) && k <= n < |w.hashes| && local[n].hash == remote[n].hash
    ensures local[k].hash == remote[k].hash
  {
    if k < n {
      assert local[n] in local && remote[n] in remote;
      CommonBelow(w, local, remote, n - 1, k);
    }
  }

  lemma {:induction false} WalkBackExact(restore: nat, w: Window, probe: Probe, local: seq<Block>, remote: seq<Block>, n: nat)
    requires Comparable(w, local, remote) && Answers(probe, remote, w.start)
    requires n <= |w.hashes| && w.start >= restore
    requires forall i :: n <= i < |w.hashes| ==> local[i].hash != remote[i].hash
    ensures WalkBack(restore, w, probe, n).Ok? && WalkBack(restore, w, probe, n).value.Some?
    ensures var h := WalkBack(restore, w, probe, n).value.value;
      forall i :: 0 <= i < |w.hashes| ==> (local[i].hash == remote[i].hash <==> w.start + i < h)
  {
    if n > 0 {
      var k := n - 1;
      assert probe(w.start + k) == Some(remote[k].hash) && w.hashes[k] == local[k].hash;
      if local[k].hash == remote[k].hash {
        assert WalkBack(restore, w, probe, n) == Ok(Some(w.start + n));
        forall i | 0 <= i < n ensures local[i].hash == remote[i].hash {
          CommonBelow(w, local, remote, k, i);
        }
      } else {
        assert WalkBack(restore, w, probe, n) == WalkBack(restore, w, probe, k);
        WalkBackExact(restore, w, probe, local, remote, k);
      }
    }
  }

  /** Against a daemon on one chain the search is exact in both directions: no fork is reported exactly
      when the whole window agrees, and otherwise the entries below the located height are precisely
      the ones the daemon shares. */
  lemma ForkIsExact(restore: nat, w: Window, probe: Probe, local: seq<Block>, remote: seq<Block>)
    requires Comparable(w, local, remote) && Answers(probe, remote, w.start)
    requires w.hashes != [] && w.start >= restore
    ensures FindReorg(restore, w, probe).Ok?
    ensures FindReorg(restore, w, probe).value == None <==>
      forall i :: 0 <= i < |w.hashes| ==> w.hashes[i] == remote[i].hash
    ensures FindReorg(restore, w, probe).value.Some? ==>
      forall i :: 0 <= i < |w.hashes| ==>
        (w.hashes[i] == remote[i].hash <==> w.start + i < FindReorg(restore, w, probe).value.value)
  {
    var n := |w.hashes| - 1;
    assert probe(w.start + n) == Some(remote[n].hash);
    if local[n].hash == remote[n].hash {
      forall i | 0 <= i < |w.hashes| ensures w.hashes[i] == remote[i].hash {
        CommonBelow(w, local, remote, n, i);
      }
    } else {
      WalkBackExact(restore, w, probe, local, remote, n);
    }
  }

  // ---------------------------------------------------------------------------------------------
  // What the refresh does with the answer
  // ---------------------------------------------------------------------------------------------

  datatype ResumeAction = KeepCursor | ResumeRewind(scanFrom: nat)

  function DecideResume(cursor: nat, located: Option<nat>): ResumeAction {
    if located.Some? && located.value < cursor then ResumeRewind(located.value) else KeepCursor
  }

  /** The cursor the resume decision compares with is never below the window's end, so a fork that was
      found is never ignored, even while the cursor is back at the restore height. */
  lemma ResumeNeverIgnoresFork(restore: nat, w: Window, probe: Probe, cursor: nat)
    requires w.hashes != [] ==> w.start >= restore
    requires FindReorg(restore, w, probe).Ok? && FindReorg(restore, w, probe).value.Some?
    ensures DecideResume(Max(cursor, w.start + |w.hashes|), FindReorg(restore, w, probe).value)
         == ResumeRewind(FindReorg(restore, w, probe).value.value)
  {
    LocatedHeight(restore, w, probe);
  }

  datatype ParentAction = Continue | ParentRewind(scanFrom: nat) | Retry(failures: nat) | Abort(failures: nat)

  const PROBE_RETRY_LIMIT: nat := 3

  /** `probe` is what the fork search returned; it is consulted only on a real mismatch. */
  function DecideParent(expected: Option<Hash>, actual: Hash, probe: Result<Option<nat>>, prior: nat, limit: nat): ParentAction {
    if expected == None || expected == Some(actual) then Continue
    else
      match probe
      case Ok(Some(h)) => ParentRewind(h)
      case _ => if prior + 1 > limit then Abort(prior + 1) else Retry(prior + 1)
  }

  /** The search as the source runs it: one loop from the newest entry down. */
  method FindReorgRewindHeight(restore: nat, start: nat, hashes: seq<Hash>, probe: Probe) returns (r: Result<Option<nat>>)
    ensures r == FindReorg(restore, Window(start, hashes), probe)
  {
    if hashes == [] {
      return Ok(None);
    }
    var tip := probe(start + (|hashes| - 1));
    if tip == None {
      return Err;
    }
    if tip.value == hashes[|hashes| - 1] {
      return Ok(None);
    }
    ghost var w := Window(start, hashes);
    var i := |hashes| - 1;
    while i > 0
      invariant 0 <= i < |hashes|
      invariant FindReorg(restore, w, probe) == WalkBack(restore, w, probe, i)
    {
      i := i - 1;
      var remote := probe(start + i);
      if remote == None {
        return Err;
      }
      if remote.value == hashes[i] {
        return Ok(Some(Max(start + i + 1, restore)));
      }
    }
    return Ok(Some(restore));
  }
}
