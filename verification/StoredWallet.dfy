/** The wallet object behind every entry point. */
module Wallets {
  import opened Chain
  import opened Money
  import opened Scan
  import opened Sums
  import opened Ledger
  import opened WalletStore
  import B = LedgerBuild
  import C = Cores
  import E = Engine
  import L = ScanLoop
  import RH = RecentHashes
  import T = Settling
  import W = WholeRuns
  import Z = Sends

  /** The outputs a wallet may hold with this set of seen outpoints. */
  ghost predicate Tracks(outputs: Outputs, seen: set<Outpoint>) {
    seen == L.Outpoints(outputs) && C.Distinct(outputs) && L.DistinctKeys(outputs)
  }

  /** The history a rebuild gives, with the fees learned from the ledger before it. */
  ghost function History(w: Working, pending: seq<Pending>, before: Book, chainTime: nat): Book {
    Rebuilt(w.outputs, pending, T.KnownFees(before), chainTime, w.stamps)
  }

  ghost predicate BalancesFit(outputs: Outputs, total: nat, unlocked: nat) {
    total == Cap(Sum(outputs, Unspent())) && unlocked <= total
  }

  class StoredWallet {
    const identity: nat
    const accounts: nat
    var isSealed: bool
    var restore: nat
    var gap: nat
    var work: Working
    var seen: set<Outpoint>
    var total: nat
    var unlocked: nat
    var chainHeight: nat
    var chainTime: nat
    var pending: seq<Pending>
    var ledger: Book
    var quarantine: set<Outpoint>

    /** The scan state, as Engine and Sealing see it. */
    function View(): E.Wallet
      reads this
    {
      E.Wallet(restore, Coverage(accounts, gap), work)
    }

    /** Seen outpoints are those of the tracked outputs, neither outpoints nor one-time keys repeat, the
        total is the sum of the unspent amounts and bounds what is available. */
    ghost predicate Valid()
      reads this
    {
      Tracks(work.outputs, seen) && BalancesFit(work.outputs, total, unlocked)
    }

    constructor (identity: nat, accounts: nat, restore: nat)
      ensures Valid() && !isSealed && View() == E.Opened(restore, accounts)
      ensures pending == [] && ledger == map[] && this.identity == identity && gap == 50 && work.outputs == [] && work.cursor == restore
    {
      this.identity, this.accounts, this.restore, isSealed := identity, accounts, restore, false;
      gap, work, seen := E.DEFAULT_GAP, Empty(restore), {};
      chainHeight, chainTime := restore, 0;
      pending, ledger, quarantine, total, unlocked := [], map[], {}, 0, 0;
    }

    // -------------------------------------------------------------------------------------------
    // Refresh
    // -------------------------------------------------------------------------------------------

    /** Publish a complete batch: ledger, balances, cursor and scan state in one step. */
    method CommitRefreshCheckpoint(state: L.WorkingState, newHeight: nat, newTime: nat, fees: map<Txid, nat>)
      requires Valid() && state.Valid()
      modifies this
      ensures Valid() && View() == E.Commit(old(View()), old(state.Value()), newHeight)
      ensures ledger == Rebuilt(work.outputs, old(pending), fees, newTime, work.stamps)
      ensures pending == T.Retained(ledger, old(pending))
      ensures unlocked == Cap(Sum(work.outputs, UnlockedAt(newHeight, newTime)))
      ensures chainHeight == newHeight && chainTime == newTime && quarantine == old(quarantine) && isSealed == old(isSealed)
    {
      var v := state.Value();
      SettleHistory(v, fees, newTime);
      SettleBalances(v.outputs, newHeight, newTime);
      work, seen := v.(cursor := E.Clamp(v.cursor, restore, newHeight)), state.seen;
    }

    method SettleBalances(outputs: Outputs, newHeight: nat, newTime: nat)
      modifies this`total, this`unlocked, this`chainHeight, this`chainTime
      ensures BalancesFit(outputs, total, unlocked) && unlocked == Cap(Sum(outputs, UnlockedAt(newHeight, newTime)))
      ensures chainHeight == newHeight && chainTime == newTime
    {
      total, unlocked := Balances(outputs, newHeight, newTime);
      chainHeight, chainTime := newHeight, newTime;
    }

    /** The new ledger, and the pending records it does not settle. */
    method SettleHistory(v: Working, fees: map<Txid, nat>, newTime: nat)
      modifies this`ledger, this`pending
      ensures ledger == Rebuilt(v.outputs, old(pending), fees, newTime, v.stamps) && pending == T.Retained(ledger, old(pending))
    {
      ledger := B.RebuildTransferLedger(v.outputs, pending, fees, newTime, v.stamps);
      pending := T.Retained(ledger, pending);
    }

    /** Never reports a height past what was walked. */
    method UpdateScanProgress(scanned: nat, newHeight: nat, newTime: nat)
      requires Valid()
      modifies this`work, this`chainHeight, this`chainTime
      ensures Valid() && View() == old(View()).(work := old(work).(cursor := E.Clamp(scanned, restore, newHeight)))
      ensures chainHeight == newHeight && chainTime == newTime
    {
      work := work.(cursor := E.Clamp(scanned, restore, newHeight));
      chainHeight, chainTime := newHeight, newTime;
    }

    // -------------------------------------------------------------------------------------------
    // Coverage, rewinds, rescans
    // -------------------------------------------------------------------------------------------

    method ExpandScanCoverage(requested: nat)
      modifies this`gap, this`work
      ensures View() == E.Expand(old(View()), requested) && gap >= old(gap) && gap >= requested
      ensures work.outputs == old(work).outputs
    {
      if requested > gap {
        gap, work := requested, work.(cursor := restore);
      }
    }

    /** The rewind all callers share, on the stored scan state. */
    method RewindStored(target: nat)
      modifies this`work, this`seen
      ensures work == Rewind(restore, target, old(work))
      ensures old(Tracks(work.outputs, seen)) ==> Tracks(work.outputs, seen)
    {
      var state := new L.WorkingState(work, seen);
      state.RewindTo(restore, target);
      work, seen := state.Value(), state.seen;
    }

    /** Ledger and balances from the outputs, with the fees learned so far. */
    method RecomputeHistory()
      modifies this`ledger, this`total, this`unlocked
      ensures ledger == History(work, pending, old(ledger), chainTime)
      ensures BalancesFit(work.outputs, total, unlocked) && unlocked == Cap(Sum(work.outputs, UnlockedAt(chainHeight, chainTime)))
    {
      ledger := B.RebuildTransferLedger(work.outputs, pending, T.KnownFees(ledger), chainTime, work.stamps);
      total, unlocked := Balances(work.outputs, chainHeight, chainTime);
    }

    /** `false` when the target would move the cursor forward. */
    method RewindScanCursor(target: nat) returns (ok: bool)
      requires Valid()
      modifies this`work, this`seen, this`ledger, this`total, this`unlocked, this`quarantine
      ensures Valid() && (ok <==> target <= old(work).cursor)
      ensures ok ==> work == Rewind(restore, target, old(work)) && quarantine == {}
      ensures ok ==> ledger == History(work, pending, old(ledger), chainTime)
      ensures !ok ==> unchanged(this)
    {
      if target > work.cursor {
        return false;
      }
      RewindStored(target);
      quarantine := {};
      RecomputeHistory();
      ok := true;
    }

    /** Forget every output, pending send and row; the cursor goes with the new restore height. */
    method ForceRescanFromHeight(newRestore: nat)
      modifies this
      ensures Valid() && View() == E.Wallet(newRestore, old(View()).coverage, Empty(newRestore))
      ensures ledger == map[] && pending == [] && quarantine == {} && isSealed == old(isSealed)
    {
      restore := newRestore;
      chainHeight, chainTime := if newRestore > chainHeight then newRestore else chainHeight, 0;
      ForgetOutputs(Empty(newRestore));
    }

    method ForgetOutputs(w: Working)
      requires w.outputs == []
      modifies this`work, this`seen, this`pending, this`ledger, this`quarantine, this`total, this`unlocked
      ensures Valid() && work == w && ledger == map[] && pending == [] && quarantine == {}
    {
      work, seen := w, {};
      pending, ledger, quarantine, total, unlocked := [], map[], {}, 0, 0;
    }

    /** The cursor and the hash window stay where they are. */
    method ResetTrackedOutputs()
      modifies this`work, this`seen, this`pending, this`ledger, this`quarantine, this`total, this`unlocked
      ensures Valid() && work == old(work).(outputs := [], stamps := map[], rescan := None)
      ensures ledger == map[] && pending == [] && quarantine == {}
    {
      ForgetOutputs(work.(outputs := [], stamps := map[], rescan := None));
    }

    // -------------------------------------------------------------------------------------------
    // Spend authority
    // -------------------------------------------------------------------------------------------

    method Seal()
      modifies this`isSealed
    {
      isSealed := true;
    }

    method ApplyPendingSpendRescan() returns (applied: bool)
      modifies this`work, this`seen
      ensures View() == E.ApplyPendingRescan(old(View()))
      ensures old(Tracks(work.outputs, seen)) ==> Tracks(work.outputs, seen)
      ensures applied <==> old(work).rescan.Some?
      ensures !applied ==> unchanged(this)
    {
      applied := work.rescan.Some?;
      if applied {
        var from := if work.rescan.value < work.cursor then work.rescan.value else work.cursor;
        work := work.(rescan := None);
        RewindStored(from);
      }
    }

    /** Unsealing with the wallet's own mnemonic; any other is refused and changes nothing. */
    method RestoreSpendAuthority(supplied: nat) returns (ok: bool)
      requires Valid()
      modifies this`isSealed, this`work, this`seen, this`ledger, this`total, this`unlocked
      ensures Valid() && (ok <==> supplied == identity)
      ensures ok ==> !isSealed && work.rescan == None && View() == E.ApplyPendingRescan(old(View()))
      ensures ok ==> ledger == if old(work).rescan.Some? then History(work, pending, old(ledger), chainTime) else old(ledger)
      ensures !ok ==> unchanged(this)
    {
      if supplied != identity {
        return false;
      }
      isSealed := false;
      var applied := ApplyPendingSpendRescan();
      if applied {
        RecomputeHistory();
      }
      ok := true;
    }

    /** Opening a wallet that is open already: spend authority first, then the restore height, which only
        falls; the cursor never lies below it and never moves down to it. */
    method OpenAgain(supplied: nat, newRestore: nat) returns (ok: bool)
      requires Valid()
      modifies this`isSealed, this`work, this`seen, this`ledger, this`total, this`unlocked, this`restore, this`gap
      ensures Valid() && (ok <==> supplied == identity)
      ensures ok ==> !isSealed && View() == E.Reopened(old(View()), newRestore)
      ensures ok ==> ledger == if old(work).rescan.Some? then History(work, pending, old(ledger), chainTime) else old(ledger)
      ensures !ok ==> unchanged(this)
    {
      ok := RestoreSpendAuthority(supplied);
      if !ok {
        return;
      }
      if newRestore < restore {
        restore := newRestore;
      }
      if work.cursor < restore {
        work := work.(cursor := restore);
      }
      if gap == 0 {
        gap := E.DEFAULT_GAP;
      }
    }

    // -------------------------------------------------------------------------------------------
    // Caches
    // -------------------------------------------------------------------------------------------

    method ExportCache() returns (c: Cache)
      requires Valid()
      ensures WellFormed(c) && L.DistinctKeys(c.work.outputs) && c.identity == identity && CacheView(c, accounts) == View()
      ensures c.pending == pending && c.ledger == ledger && c.quarantine == quarantine && c.chainTime == chainTime
    {
      c := Cache(identity, restore, gap, work, seen, total, unlocked, chainHeight, chainTime, pending, ledger, quarantine);
    }

    /** Repeated keys, absurd coverage, another identity or a later restore height refuse the cache and
        change nothing. Outpoints are taken as the cache has them. */
    method ImportCache(c: Cache) returns (ok: bool)
      requires Valid()
      modifies this
      ensures ok <==>
        && L.DistinctKeys(c.work.outputs) && c.gap <= 100_000 && (forall o :: o in c.work.outputs ==> o.minor <= 100_000)
        && c.identity == identity && c.restore <= old(restore)
      ensures (ok ==> WellFormed(c)) ==> Valid()
      ensures gap >= old(gap) && isSealed == old(isSealed)
      ensures ok ==> View() == Imported(c, old(View()), isSealed)
      ensures ok ==> ledger == History(work, c.pending, c.ledger, c.chainTime) && pending == c.pending && quarantine == c.quarantine
      ensures !ok ==> unchanged(this)
    {
      var repeat := KeysRepeat(c.work.outputs);
      if repeat || !CoverageValid(c) || c.identity != identity || c.restore > restore {
        return false;
      }
      AcceptCache(c);
      ok := true;
    }

    method AcceptCache(c: Cache)
      modifies this
      ensures BalancesFit(work.outputs, total, unlocked) && (Tracks(c.work.outputs, c.seen) ==> Valid())
      ensures gap >= old(gap) && isSealed == old(isSealed)
      ensures View() == Imported(c, old(View()), isSealed)
      ensures ledger == History(work, c.pending, c.ledger, c.chainTime) && pending == c.pending && quarantine == c.quarantine
    {
      ApplyToState(c);
      if !isSealed {
        var _ := ApplyPendingSpendRescan();
      }
      RecomputeHistory();
    }

    /** The cursor is compared with the open wallet's restore height before that is replaced; coverage
        only grows. */
    method ApplyToState(c: Cache)
      modifies this
      ensures View() == E.Import(CacheView(c, accounts), old(View())) && gap >= old(gap)
      ensures seen == c.seen && pending == c.pending && ledger == c.ledger && quarantine == c.quarantine
      ensures chainTime == c.chainTime && isSealed == old(isSealed)
    {
      var previous := gap;
      work, seen := c.work.(cursor := RH.Max(c.work.cursor, restore)), c.seen;
      total, unlocked, chainHeight, chainTime := c.total, c.unlocked, c.chainHeight, c.chainTime;
      pending, ledger, quarantine := c.pending, c.ledger, c.quarantine;
      gap, restore := c.gap, c.restore;
      ExpandScanCoverage(RH.Max(E.MaxMinor(work.outputs), previous));
    }

    // -------------------------------------------------------------------------------------------
    // Spending
    // -------------------------------------------------------------------------------------------

    /** After a sweep was broadcast: mark, debit, remember. The wallet stays valid exactly when the debit is
        what the marking newly spent. */
    method RecordSweep(spent: seq<Outpoint>, inputsSum: nat, tx: Txid, amount: nat, fee: nat)
      requires Valid()
      modifies this`work, this`total, this`unlocked, this`pending, this`ledger
      ensures Tracks(work.outputs, seen) && unlocked <= total == SatSub(old(total), inputsSum)
      ensures Sum(old(work).outputs, Unspent()) <= MAX_U64 ==>
        (Valid() <==> DebitExact(Sum(old(work).outputs, Unspent()), Newly(old(work).outputs, spent, tx), inputsSum))
      ensures work == old(work).(outputs := MarkedAll(old(work).outputs, spent, tx))
      ensures pending == old(pending) + [Pending(tx, amount, fee, chainTime)]
      ensures ledger == old(ledger)[tx := Entry(true, SatAdd(amount, fee), Some(fee), None, Some(chainTime), true, false)]
    {
      MarkingDebits(work.outputs, spent, tx);
      if Sum(work.outputs, Unspent()) <= MAX_U64 {
        SweepTotalIsExactIff(work.outputs, spent, tx, inputsSum);
      }
      L.SameIdsSets(work.outputs, MarkedAll(work.outputs, spent, tx));
      MarkSpent(spent, tx);
      total, unlocked := SatSub(total, inputsSum), SatSub(unlocked, inputsSum);
      pending := pending + [Pending(tx, amount, fee, chainTime)];
      ledger := ledger[tx := Entry(true, SatAdd(amount, fee), Some(fee), None, Some(chainTime), true, false)];
    }

    method MarkSpent(spent: seq<Outpoint>, tx: Txid)
      modifies this`work
      ensures work == old(work).(outputs := MarkedAll(old(work).outputs, spent, tx))
    {
      ghost var w := work;
      for k := 0 to |spent|
        invariant work == w.(outputs := MarkedAll(w.outputs, spent[..k], tx))
      {
        assert spent[..k + 1][..k] == spent[..k];
        work := work.(outputs := MarkedAt(work.outputs, spent[k], tx));
      }
      assert spent[..|spent|] == spent;
    }

    /** Daemon reports move outputs in and out of quarantine; they never touch outputs or the ledger, and from a
        daemon that has not caught up they never make more available. */
    method ApplyStatuses(asked: Outputs, statuses: seq<nat>, daemonHeight: nat, allowRelease: bool) returns (ok: bool)
      requires Valid()
      modifies this`quarantine, this`unlocked
      ensures Valid() && (ok <==> |statuses| == |asked| && forall s :: s in statuses ==> s <= 2)
      ensures ok ==> quarantine == Quarantined(old(quarantine), asked, statuses, work.outputs, allowRelease && 0 < daemonHeight <= work.cursor)
      ensures ok ==> unlocked == Cap(Sum(work.outputs, Available(chainHeight, chainTime, quarantine)))
      ensures ok && !(allowRelease && 0 < daemonHeight <= work.cursor)
        ==> unlocked <= Cap(Sum(work.outputs, Available(chainHeight, chainTime, old(quarantine))))
      ensures !ok ==> unchanged(this)
    {
      if |statuses| != |asked| || exists s :: s in statuses && s > 2 {
        return false;
      }
      var caughtUp := MayRelease(work.cursor, daemonHeight, allowRelease);
      quarantine := MoveQuarantine(quarantine, asked, statuses, work.outputs, caughtUp);
      unlocked := UnlockedBalance(work.outputs, chainHeight, chainTime, quarantine);
      if !caughtUp {
        NothingReleased(old(quarantine), asked, statuses, work.outputs);
        QuarantineOnlyLowers(work.outputs, chainHeight, chainTime, old(quarantine), quarantine);
      }
      ok := true;
    }
  }

  method MoveQuarantine(blocked: set<Outpoint>, asked: Outputs, statuses: seq<nat>, outputs: Outputs, caughtUp: bool)
    returns (r: set<Outpoint>)
    requires |statuses| == |asked|
    ensures r == Quarantined(blocked, asked, statuses, outputs, caughtUp)
  {
    r := blocked;
    var current := set o | o in outputs && !o.spent :: (o.outpoint, o.image);
    for k := 0 to |asked|
      invariant r == Quarantined(blocked, asked[..k], statuses[..k], outputs, caughtUp)
    {
      assert asked[..k + 1][..k] == asked[..k] && statuses[..k + 1][..k] == statuses[..k];
      var q := asked[k];
      assert (q.outpoint, q.image) in current <==> IsCurrent(outputs, q);
      if (q.outpoint, q.image) in current {
        if statuses[k] == 0 && caughtUp {
          r := r - {q.outpoint};
        } else if statuses[k] == 1 || statuses[k] == 2 {
          r := r + {q.outpoint};
        }
      }
    }
    assert asked[..|asked|] == asked && statuses[..|statuses|] == statuses;
  }

  /** What an accepted cache makes of the scan state. */
  ghost function Imported(c: Cache, live: E.Wallet, isSealed: bool): E.Wallet {
    var merged := E.Import(CacheView(c, live.coverage.accounts), live);
    if isSealed then merged else E.ApplyPendingRescan(merged)
  }

  // ---------------------------------------------------------------------------------------------
  // The mutators as steps of whole runs
  // ---------------------------------------------------------------------------------------------

  /** The step takes the scan state and the seal from one to the other. */
  ghost predicate Steps(w: E.Wallet, isSealed: bool, op: W.HoldOp, after: E.Wallet, sealedAfter: bool)
    requires !op.Look?
  {
    W.HoldStep(W.Holding(w, isSealed, []), op) == W.Holding(after, sealedAfter, [])
  }

  /** What the mutators are proved to do to the scan state and the seal is the step of `WholeRuns` they stand for. */
  lemma MutatorSteps(w: E.Wallet, isSealed: bool, n: nat)
    ensures n > 0 ==> Steps(w, isSealed, W.Widen(n), E.Expand(w, n), isSealed)
    ensures n <= w.work.cursor ==> Steps(w, isSealed, W.GoBack(n), w.(work := Rewind(w.restore, n, w.work)), isSealed)
    ensures n > w.work.cursor ==> Steps(w, isSealed, W.GoBack(n), w, isSealed)
    ensures Steps(w, isSealed, W.Rescan(n), E.Wallet(n, w.coverage, Empty(n)), isSealed)
    ensures Steps(w, isSealed, W.OpenNew(n), E.Opened(n, w.coverage.accounts), false)
    ensures Steps(w, isSealed, W.OpenAgain(n), E.Reopened(w, n), false)
    ensures Steps(w, isSealed, W.Seal, w, true) && Steps(w, isSealed, W.Unseal, E.ApplyPendingRescan(w), false)
  {}

  /** A sweep recorded by an unsealed wallet is a send of the set of its inputs. */
  lemma SweepSteps(w: E.Wallet, spent: seq<Outpoint>, tx: Txid)
    requires C.Distinct(w.work.outputs)
    ensures Steps(w, false, W.Send((set p | p in spent), Some(tx)),
                  w.(work := w.work.(outputs := MarkedAll(w.work.outputs, spent, tx))), false)
  {
    Z.SweepIsSend(w.work.outputs, spent, tx);
  }

  /** An import is accepted and done as in whole runs. */
  lemma ImportSteps(c: Cache, w: E.Wallet, isSealed: bool)
    ensures var cache := CacheView(c, w.coverage.accounts);
      W.HoldStep(W.Holding(w, isSealed, [cache]), W.Bring(0))
        == W.Holding(if c.restore <= w.restore then Imported(c, w, isSealed) else w, isSealed, [cache])
  {}
}
