/** Parent mismatches the fork search cannot explain: how often the loop asks again, and when it gives up. */
module Retries {
  import opened Chain
  import opened Scan
  import opened Engine
  import RH = RecentHashes

  /** A valid response that does not build on the retained parent, and a fork search that fails or finds no fork. */
  ghost predicate Inconclusive(v: Working, cfg: Config, daemonHeight: nat, batch: nat, ev: Event)
    requires v.cursor < daemonHeight
  {
    && ev.Response? && ValidResponse(ev.path, v.cursor, Requested(v.cursor, daemonHeight, batch), ev.blocks)
    && Mismatch(v, ev.blocks) && FindsNoFork(v, cfg.restore, ev.probe)
  }

  /** The hash retained right below the cursor - for block 0, at its own height - is not the block's parent. */
  predicate Mismatch(v: Working, blocks: seq<Block>)
    requires blocks != []
  {
    var at := if v.cursor == 0 then 0 else v.cursor - 1;
    v.start <= at < v.start + |v.hashes| && v.hashes[at - v.start] != blocks[0].previous
  }

  predicate FindsNoFork(v: Working, restore: nat, probe: RH.Probe) {
    match RH.FindReorg(restore, Window(v.start, v.hashes), probe)
    case Err => true
    case Ok(located) => located == None
  }

  lemma MismatchIs(v: Working, blocks: seq<Block>)
    requires blocks != []
    ensures Mismatch(v, blocks) <==> ExpectedParent(v).Some? && ExpectedParent(v).value != blocks[0].previous
  {}

  ghost predicate AllInconclusive(v: Working, cfg: Config, daemonHeight: nat, batch: nat, events: seq<Event>)
    requires v.cursor < daemonHeight
  {
    forall ev :: ev in events ==> Inconclusive(v, cfg, daemonHeight, batch, ev)
  }

  lemma InconclusiveResponse(v: Working, cfg: Config, failures: nat, blocks: seq<Block>, probe: RH.Probe, stopped: bool)
    requires blocks != [] && Mismatch(v, blocks) && FindsNoFork(v, cfg.restore, probe)
    ensures OnResponse(v, cfg, failures, blocks, probe, stopped) == if failures < 3 then Next(v, failures + 1, false) else Stop
  {
    MismatchIs(v, blocks);
  }

  lemma InconclusivePass(v: Working, cfg: Config, daemonHeight: nat, batch: nat, failures: nat, ev: Event)
    requires v.cursor < daemonHeight && batch > 0 && Inconclusive(v, cfg, daemonHeight, batch, ev)
    ensures Pass(v, cfg, daemonHeight, batch, failures, ev) == if failures < 3 then Next(v, failures + 1, false) else Stop
  {
    InconclusiveResponse(v, cfg, failures, ev.blocks, ev.probe, ev.stopped);
  }

  lemma FirstRetry(v: Working, cfg: Config, daemonHeight: nat, batch: nat, failures: nat, events: seq<Event>, k: nat)
    requires v.cursor < daemonHeight && batch > 0 && 0 < k <= |events| && failures < 3
    requires AllInconclusive(v, cfg, daemonHeight, batch, events[..k])
    ensures Pass(v, cfg, daemonHeight, batch, failures, events[0]) == Next(v, failures + 1, false)
    ensures AllInconclusive(v, cfg, daemonHeight, batch, events[1..][..k-1]) && events[1..][k-1..] == events[k..]
  {
    assert events[0] == events[..k][0] && events[1..][..k-1] == events[..k][1..];
    InconclusivePass(v, cfg, daemonHeight, batch, failures, events[0]);
  }

  /** Up to three in a row change neither the state nor what is published; the loop goes on from there. */
  lemma {:induction false} RetriesGoOn(w: Wallet, v: Working, cfg: Config, daemonHeight: nat, batch: nat, failures: nat, events: seq<Event>, k: nat)
    requires v.cursor < daemonHeight && batch > 0 && k <= |events| && failures + k <= 3
    requires AllInconclusive(v, cfg, daemonHeight, batch, events[..k])
    ensures Loop(w, v, cfg, daemonHeight, batch, failures, events) == Loop(w, v, cfg, daemonHeight, batch, failures + k, events[k..])
    decreases k
  {
    if k == 0 {
      assert events[0..] == events;
    } else {
      FirstRetry(v, cfg, daemonHeight, batch, failures, events, k);
      RetriesGoOn(w, v, cfg, daemonHeight, batch, failures + 1, events[1..], k - 1);
      var rest := Loop(w, v, cfg, daemonHeight, batch, failures + 1, events[1..]);
      assert [] + rest == rest;
    }
  }

  /** The fourth in a row ends the refresh: nothing more is published. */
  lemma FourthGivesUp(w: Wallet, v: Working, cfg: Config, daemonHeight: nat, batch: nat, events: seq<Event>, k: nat)
    requires v.cursor < daemonHeight && batch > 0 && 4 <= k <= |events|
    requires AllInconclusive(v, cfg, daemonHeight, batch, events[..k])
    ensures Loop(w, v, cfg, daemonHeight, batch, 0, events) == []
  {
    assert forall ev :: ev in events[..3] ==> ev in events[..k];
    RetriesGoOn(w, v, cfg, daemonHeight, batch, 0, events, 3);
    assert events[3..][0] == events[..k][3];
    InconclusivePass(v, cfg, daemonHeight, batch, 3, events[3..][0]);
  }

  /** A response that settles the matter - the parent matches, or the fork is found - does not care how many went
      before it. */
  ghost predicate Conclusive(v: Working, cfg: Config, daemonHeight: nat, batch: nat, ev: Event)
    requires v.cursor < daemonHeight
  {
    && ev.Response? && ValidResponse(ev.path, v.cursor, Requested(v.cursor, daemonHeight, batch), ev.blocks)
    && !Inconclusive(v, cfg, daemonHeight, batch, ev)
  }

  lemma ConclusivePass(v: Working, cfg: Config, daemonHeight: nat, batch: nat, failures: nat, ev: Event)
    requires v.cursor < daemonHeight && batch > 0 && Conclusive(v, cfg, daemonHeight, batch, ev)
    ensures Pass(v, cfg, daemonHeight, batch, failures, ev) == Pass(v, cfg, daemonHeight, batch, 0, ev)
  {
    ConclusiveResponse(v, cfg, failures, ev.blocks, ev.probe, ev.stopped);
  }

  lemma ConclusiveResponse(v: Working, cfg: Config, failures: nat, blocks: seq<Block>, probe: RH.Probe, stopped: bool)
    requires blocks != [] && !(Mismatch(v, blocks) && FindsNoFork(v, cfg.restore, probe))
    ensures OnResponse(v, cfg, failures, blocks, probe, stopped) == OnResponse(v, cfg, 0, blocks, probe, stopped)
  {
    MismatchIs(v, blocks);
    OnResponseCases(v, cfg, failures, blocks, probe, stopped);
    OnResponseCases(v, cfg, 0, blocks, probe, stopped);
  }

  /** From a fresh count, a run of inconclusive responses and then a conclusive one: the loop publishes what it would
      have published without them exactly when there were at most three. */
  lemma RetryBudgetIff(w: Wallet, v: Working, cfg: Config, daemonHeight: nat, batch: nat, events: seq<Event>, k: nat)
    requires v.cursor < daemonHeight && batch > 0 && k < |events|
    requires AllInconclusive(v, cfg, daemonHeight, batch, events[..k]) && Conclusive(v, cfg, daemonHeight, batch, events[k])
    requires Loop(w, v, cfg, daemonHeight, batch, 0, events[k..]) != []
    ensures Loop(w, v, cfg, daemonHeight, batch, 0, events) == Loop(w, v, cfg, daemonHeight, batch, 0, events[k..]) <==> k <= 3
  {
    if k <= 3 {
      RetriesGoOn(w, v, cfg, daemonHeight, batch, 0, events, k);
      assert events[k..][0] == events[k];
      ConclusivePass(v, cfg, daemonHeight, batch, k, events[k]);
    } else {
      FourthGivesUp(w, v, cfg, daemonHeight, batch, events, k);
    }
  }

  // ---------------------------------------------------------------------------------------------
  // What ends a refresh, and what does not
  // ---------------------------------------------------------------------------------------------

  predicate Breaks(ev: Event) {
    ev.Cancelled? || ev.FetchFailed?
  }

  /** A cancellation or a failed fetch at any point of a run: what was published until then stays published, and
      nothing that comes after counts. */
  lemma {:induction false} CutOff(w: Wallet, v: Working, cfg: Config, daemonHeight: nat, batch: nat, failures: nat, events: seq<Event>, k: nat)
    requires batch > 0 && k < |events| && Breaks(events[k])
    ensures Loop(w, v, cfg, daemonHeight, batch, failures, events) == Loop(w, v, cfg, daemonHeight, batch, failures, events[..k])
    decreases k
  {
    if v.cursor < daemonHeight && k > 0 {
      assert events[..k][0] == events[0] && events[..k][1..] == events[1..][..k-1];
      match Pass(v, cfg, daemonHeight, batch, failures, events[0])
      case Stop =>
      case Next(u, f, _) => CutOff(w, u, cfg, daemonHeight, batch, f, events[1..], k - 1);
    }
  }

  /** A fetch that is retried at any point of a run leaves no trace. */
  lemma {:induction false} RetriedFetch(w: Wallet, v: Working, cfg: Config, daemonHeight: nat, batch: nat, failures: nat, events: seq<Event>, k: nat)
    requires batch > 0 && k < |events| && events[k].FetchRetried?
    ensures Loop(w, v, cfg, daemonHeight, batch, failures, events)
         == Loop(w, v, cfg, daemonHeight, batch, failures, events[..k] + events[k + 1..])
    decreases k
  {
    var without := events[..k] + events[k + 1..];
    if v.cursor < daemonHeight {
      if k == 0 {
        assert without == events[1..];
        var rest := Loop(w, v, cfg, daemonHeight, batch, failures, events[1..]);
        assert [] + rest == rest;
      } else {
        assert without[0] == events[0] && without[1..] == events[1..][..k-1] + events[1..][k..];
        match Pass(v, cfg, daemonHeight, batch, failures, events[0])
        case Stop =>
        case Next(u, f, _) => RetriedFetch(w, u, cfg, daemonHeight, batch, f, events[1..], k - 1);
      }
    }
  }

  /** A response that is not what was asked for, or one that is interrupted while its blocks are scanned: nothing of it
      is published, nor anything after it. */
  lemma InterruptedBatch(w: Wallet, v: Working, cfg: Config, daemonHeight: nat, batch: nat, failures: nat, events: seq<Event>)
    requires v.cursor < daemonHeight && batch > 0 && events != [] && events[0].Response?
    requires ValidResponse(events[0].path, v.cursor, Requested(v.cursor, daemonHeight, batch), events[0].blocks)
      ==> events[0].stopped && !Mismatch(v, events[0].blocks)
    ensures Loop(w, v, cfg, daemonHeight, batch, failures, events) == []
  {
    if ValidResponse(events[0].path, v.cursor, Requested(v.cursor, daemonHeight, batch), events[0].blocks) {
      MismatchIs(v, events[0].blocks);
    }
  }
}
