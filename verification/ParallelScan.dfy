/** The ownership scan of a response, spread over a pool of workers: chunks finish in any order and are
    flattened in input order, so the caller sees what a serial scan would have found. */
module ParallelScan {
  import opened Chain

  /** As many equal chunks as workers, the last one shorter. */
  function ChunkSize(blocks: nat, threads: nat): (size: nat)
    requires blocks > 0
    ensures size >= 1
  {
    var workers := if threads < 1 then 1 else if threads > blocks then blocks else threads;
    (blocks + workers - 1) / workers
  }

  function Range(n: nat): (r: set<nat>)
    ensures forall k: nat :: k in r <==> k < n
  {
    if n == 0 then {} else Range(n - 1) + {n - 1}
  }

  function ChunkStart(n: nat, width: nat, k: nat): (start: nat)
    ensures start <= n
  {
    if k * width < n then k * width else n
  }

  lemma ChunksOrdered(n: nat, width: nat, k: nat)
    ensures ChunkStart(n, width, k) <= ChunkStart(n, width, k + 1)
  {
    assert (k + 1) * width == k * width + width;
  }

  lemma ChunksCover(n: nat, width: nat, chunks: nat)
    requires width >= 1 && chunks == (n + width - 1) / width
    ensures ChunkStart(n, width, chunks) == n
  {
    assert n + width - 1 == chunks * width + (n + width - 1) % width;
  }

  /** No more chunks than workers, and none without a block. */
  lemma ChunksFitWorkers(n: nat, threads: nat, width: nat, chunks: nat)
    requires n > 0 && width == ChunkSize(n, threads) && chunks == (n + width - 1) / width
    ensures chunks <= if threads == 0 then 1 else threads
    ensures forall k :: 0 <= k < chunks ==> ChunkStart(n, width, k) < n
  {
    var workers := if threads < 1 then 1 else if threads > n then n else threads;
    Rounded(n, workers, width);
    Rounded(n, width, chunks);
    if chunks > workers {
      Product(workers, chunks - 1, width);
    }
    forall k | 0 <= k < chunks ensures ChunkStart(n, width, k) < n {
      Product(k, chunks - 1, width);
    }
  }

  lemma Product(a: nat, b: nat, width: nat)
    requires a <= b
    ensures a * width <= b * width
  {}

  /** A division rounded up. */
  lemma Rounded(n: nat, size: nat, q: nat)
    requires n > 0 && size > 0 && q == (n + size - 1) / size
    ensures (q - 1) * size < n <= q * size
  {
    assert n + size - 1 == q * size + (n + size - 1) % size;
    assert (q - 1) * size == q * size - size;
  }

  predicate IsChunk(bs: seq<Block>, c: Coverage, width: nat, k: nat, found: seq<seq<Owned>>) {
    var lo, hi := ChunkStart(|bs|, width, k), ChunkStart(|bs|, width, k + 1);
    && lo + |found| == hi
    && forall i :: 0 <= i < |found| ==> found[i] == ScanOwned(bs[lo + i].owned, c)
  }

  method ScanChunk(bs: seq<Block>, c: Coverage, width: nat, k: nat) returns (found: seq<seq<Owned>>)
    ensures IsChunk(bs, c, width, k, found)
  {
    ChunksOrdered(|bs|, width, k);
    var lo, hi := ChunkStart(|bs|, width, k), ChunkStart(|bs|, width, k + 1);
    found := [];
    for i := lo to hi
      invariant |found| == i - lo
      invariant forall j :: 0 <= j < |found| ==> found[j] == ScanOwned(bs[lo + j].owned, c)
    {
      found := found + [ScanOwned(bs[i].owned, c)];
    }
  }

  method ScanOrdered(bs: seq<Block>, c: Coverage, threads: nat) returns (found: seq<seq<Owned>>)
    ensures |found| == |bs|
    ensures forall i :: 0 <= i < |bs| ==> found[i] == ScanOwned(bs[i].owned, c)
  {
    if bs == [] {
      return [];
    }
    var width := ChunkSize(|bs|, threads);
    var chunks := (|bs| + width - 1) / width;
    var finished: map<nat, seq<seq<Owned>>> := map[];
    var all := Range(chunks);
    var running := all;
    while running != {}
      invariant running <= all
      invariant forall k :: k in all - running ==> k in finished && IsChunk(bs, c, width, k, finished[k])
    {
      var k :| k in running;
      var chunk := ScanChunk(bs, c, width, k);
      running, finished := running - {k}, finished[k := chunk];
    }
    found := [];
    for k := 0 to chunks
      invariant |found| == ChunkStart(|bs|, width, k)
      invariant forall i :: 0 <= i < |found| ==> found[i] == ScanOwned(bs[i].owned, c)
    {
      assert k in all;
      assert IsChunk(bs, c, width, k, finished[k]);
      found := found + finished[k];
    }
    ChunksCover(|bs|, width, chunks);
  }
}
