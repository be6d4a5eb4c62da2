/** The refresh loop as the program runs it: one working state updated in place, a list of published
    checkpoints. Proved to publish exactly what Engine.Refresh says. */
module RefreshLoop {
  import opened Chain
  import opened Scan
  import opened Engine
  import RH = RecentHashes
  import C = Cores
  import L = ScanLoop

  /** `validate_range_blocks`: numbers and parents, checked block by block. */
  method ValidateRangeBlocks(start: nat, blocks: seq<Block>) returns (ok: bool)
    ensures ok <==> ValidRange(start, blocks)
  {
    var parent: Option<Hash> := if start == 0 then Some(0) else None;
    for i := 0 to |blocks|
      invariant forall j :: 0 <= j < i ==> blocks[j].height == start + j
      invariant start == 0 && i > 0 ==> blocks[0].previous == 0
      invariant forall j :: 0 < j < i ==> blocks[j].previous == blocks[j-1].hash
      invariant parent == if i > 0 then Some(blocks[i-1].hash) else if start == 0 then Some(0) else None
    {
      if blocks[i].height != start + i {
        return false;
      }
      if parent.Some? && parent.value != blocks[i].previous {
        return false;
      }
      parent := Some(blocks[i].hash);
    }
    ok := true;
  }

  /** A range response is validated whole; the one-by-one fallback validates every block by itself. */
  method ValidateResponse(path: Path, start: nat, requested: nat, blocks: seq<Block>) returns (ok: bool)
    ensures ok <==> ValidResponse(path, start, requested, blocks)
  {
    if |blocks| == 0 || |blocks| > requested {
      return false;
    }
    match path
    case RangeResponse =>
      ok := ValidateRangeBlocks(start, blocks);
    case OneByOne =>
      if |blocks| != requested {
        return false;
      }
      for i := 0 to |blocks|
        invariant forall j :: 0 <= j < i ==> ValidRange(start + j, [blocks[j]])
      {
        ok := ValidateRangeBlocks(start + i, [blocks[i]]);
        if !ok {
          return false;
        }
      }
      ok := true;
  }

  /** The outputs a wallet stores name each outpoint and each one-time key once. */
  ghost predicate Stored(outputs: Outputs) {
    C.Distinct(outputs) && L.DistinctKeys(outputs)
  }

  datatype Verdict = Stopped | Going(failures: nat, committed: bool)

  ghost predicate Reports(o: Outcome, r: Verdict, after: Working) {
    match r
    case Stopped => o == Stop
    case Going(f, committed) => o == Next(after, f, committed)
  }

  /** A valid response: parent check, then rewind, retry, abort, or scan the batch. */
  method HandleResponse(state: L.WorkingState, cfg: Config, failures: nat, blocks: seq<Block>, probe: RH.Probe, stopped: bool,
                        threads: nat) returns (r: Verdict)
    requires state.Valid() && blocks != []
    modifies state
    ensures r.Going? ==> state.Valid()
    ensures Reports(OnResponse(old(state.Value()), cfg, failures, blocks, probe, stopped), r, state.Value())
  {
    var expected := HashAt(Window(state.start, state.hashes), Below(state.cursor));
    var located := Ok(None);
    if expected.Some? && expected.value != blocks[0].previous {
      located := RH.FindReorgRewindHeight(cfg.restore, state.start, state.hashes, probe);
    }
    match RH.DecideParent(expected, blocks[0].previous, located, failures, RH.PROBE_RETRY_LIMIT)
    case Continue =>
      if stopped {
        return Stopped;
      }
      var ok := state.ScanBatch(cfg, blocks, threads);
      r := if ok then Going(0, true) else Stopped;
    case ParentRewind(h) =>
      state.RewindTo(cfg.restore, h);
      r := Going(0, true);
    case Retry(f) => r := Going(f, false);
    case Abort(_) => r := Stopped;
  }

  method RunPass(state: L.WorkingState, cfg: Config, daemonHeight: nat, batch: nat, failures: nat, ev: Event, threads: nat)
    returns (r: Verdict)
    requires state.Valid() && state.cursor < daemonHeight && batch > 0
    modifies state
    ensures r.Going? ==> state.Valid()
    ensures Reports(Pass(old(state.Value()), cfg, daemonHeight, batch, failures, ev), r, state.Value())
  {
    match ev
    case Cancelled => r := Stopped;
    case FetchFailed => r := Stopped;
    case FetchRetried => r := Going(failures, false);
    case Response(path, blocks, probe, stopped) =>
      var ok := ValidateResponse(path, state.cursor, Requested(state.cursor, daemonHeight, batch), blocks);
      if ok {
        r := HandleResponse(state, cfg, failures, blocks, probe, stopped, threads);
      } else {
        r := Stopped;
      }
  }

  /** What is published already, and what the loop still has to publish from here. */
  ghost predicate Pending(all: seq<Wallet>, published: seq<Wallet>, w: Wallet, v: Working, cfg: Config, daemonHeight: nat,
                          batch: nat, failures: nat, events: seq<Event>, k: nat)
    requires batch > 0
  {
    k <= |events| && all == published + Loop(w, v, cfg, daemonHeight, batch, failures, events[k..])
  }

  method RunLoop(state: L.WorkingState, w: Wallet, cfg: Config, daemonHeight: nat, batch: nat, events: seq<Event>, threads: nat)
    returns (published: seq<Wallet>)
    requires state.Valid() && batch > 0
    modifies state
    ensures published == Loop(w, old(state.Value()), cfg, daemonHeight, batch, 0, events)
  {
    published := [];
    ghost var all := Loop(w, state.Value(), cfg, daemonHeight, batch, 0, events);
    var failures, k := 0, 0;
    assert events[0..] == events;
    while state.cursor < daemonHeight
      invariant k <= |events| && state.Valid()
      invariant Pending(all, published, w, state.Value(), cfg, daemonHeight, batch, failures, events, k)
      decreases |events| - k
    {
      if k == |events| {
        LoopCut(all, published, w, state.Value(), cfg, daemonHeight, batch, failures, events, k);
        return;
      }
      ghost var v := state.Value();
      var r := RunPass(state, cfg, daemonHeight, batch, failures, events[k], threads);
      LoopStep(all, published, w, v, cfg, daemonHeight, batch, failures, events, k, r, state.Value());
      if r.Stopped? {
        return;
      }
      if r.committed {
        published := published + [Commit(w, state.Value(), daemonHeight)];
      }
      failures, k := r.failures, k + 1;
    }
    LoopDone(all, published, w, state.Value(), cfg, daemonHeight, batch, failures, events, k);
    published := published + [Commit(w, state.Value(), daemonHeight)];
  }

  lemma LoopCut(all: seq<Wallet>, published: seq<Wallet>, w: Wallet, v: Working, cfg: Config, daemonHeight: nat, batch: nat,
                failures: nat, events: seq<Event>, k: nat)
    requires batch > 0 && Pending(all, published, w, v, cfg, daemonHeight, batch, failures, events, k)
    requires v.cursor < daemonHeight && k == |events|
    ensures all == published
  {}

  lemma LoopDone(all: seq<Wallet>, published: seq<Wallet>, w: Wallet, v: Working, cfg: Config, daemonHeight: nat, batch: nat,
                 failures: nat, events: seq<Event>, k: nat)
    requires batch > 0 && Pending(all, published, w, v, cfg, daemonHeight, batch, failures, events, k) && v.cursor >= daemonHeight
    ensures all == published + [Commit(w, v, daemonHeight)]
  {}

  lemma LoopStep(all: seq<Wallet>, published: seq<Wallet>, w: Wallet, v: Working, cfg: Config, daemonHeight: nat, batch: nat,
                 failures: nat, events: seq<Event>, k: nat, r: Verdict, u: Working)
    requires batch > 0 && Pending(all, published, w, v, cfg, daemonHeight, batch, failures, events, k)
    requires k < |events| && v.cursor < daemonHeight
    requires Reports(Pass(v, cfg, daemonHeight, batch, failures, events[k]), r, u)
    ensures match r
      case Stopped => all == published
      case Going(f, committed) =>
        Pending(all, if committed then published + [Commit(w, u, daemonHeight)] else published, w, u, cfg, daemonHeight, batch, f, events, k + 1)
  {
    var ahead := events[k..];
    assert ahead[0] == events[k] && ahead[1..] == events[k + 1..];
    LoopUnfolds(w, v, cfg, daemonHeight, batch, failures, ahead, r, u);
    if r.Going? {
      var rest := Loop(w, u, cfg, daemonHeight, batch, r.failures, ahead[1..]);
      if r.committed {
        Assoc(published, [Commit(w, u, daemonHeight)], rest);
      } else {
        assert [] + rest == rest;
      }
    }
  }

  lemma Assoc<T>(a: seq<T>, b: seq<T>, c: seq<T>)
    ensures a + (b + c) == (a + b) + c
  {}

  lemma LoopUnfolds(w: Wallet, v: Working, cfg: Config, daemonHeight: nat, batch: nat, failures: nat, ahead: seq<Event>,
                    r: Verdict, u: Working)
    requires batch > 0 && ahead != [] && v.cursor < daemonHeight
    requires Reports(Pass(v, cfg, daemonHeight, batch, failures, ahead[0]), r, u)
    ensures Loop(w, v, cfg, daemonHeight, batch, failures, ahead) ==
      match r
      case Stopped => []
      case Going(f, committed) =>
        (if committed then [Commit(w, u, daemonHeight)] else []) + Loop(w, u, cfg, daemonHeight, batch, f, ahead[1..])
  {}

  /** The resume rewind never moves the cursor forward. */
  method RewindForResume(state: L.WorkingState, cfg: Config, h: nat)
    requires state.Valid()
    modifies state
    ensures state.Valid() && state.Value() == ResumedAt(old(state.Value()), cfg, h)
  {
    var before := state.cursor;
    state.RewindTo(cfg.restore, h);
    if before < state.cursor {
      state.cursor := before;
    }
  }

  /** One whole refresh over the stored wallet: progress mark, resume probe and its rewind, the loop. */
  method RefreshWallet(w: Wallet, input: RefreshInput, threads: nat) returns (published: seq<Wallet>)
    requires Stored(w.work.outputs) && input.batch > 0
    ensures published == Refresh(w, input)
  {
    var dh, cfg := input.daemonHeight, RefreshConfig(w);
    var v := w.work.(cursor := StartHeight(w));
    var seen := set o | o in w.work.outputs :: o.outpoint;
    var state := new L.WorkingState(v, seen);
    published := [Progress(w, dh)];
    if v.cursor < dh {
      var located := RH.FindReorgRewindHeight(cfg.restore, v.start, v.hashes, input.resumeProbe);
      if located.Err? {
        return;
      }
      match RH.DecideResume(RH.Max(v.cursor, v.start + |v.hashes|), located.value)
      case KeepCursor =>
      case ResumeRewind(h) =>
        RewindForResume(state, cfg, h);
        published := published + [Commit(w, state.Value(), dh)];
    }
    var rest := RunLoop(state, w, cfg, dh, input.batch, input.events, threads);
    published := published + rest;
  }
}
