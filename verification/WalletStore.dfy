/** The stored wallet: one object whose fields every entry point updates in place. Each mutator keeps
    the representation invariant and acts on the scan state as the step of Engine or Sealing says. */
module WalletStore {
  import opened Chain
  import opened Money
  import opened Scan
  import opened Sums
  import opened Ledger
  import C = Cores
  import E = Engine
  import L = ScanLoop

  // ---------------------------------------------------------------------------------------------
  // Balances
  // ---------------------------------------------------------------------------------------------

  const DEFAULT_LOCK_WINDOW: nat := 10
  const COINBASE_LOCK_WINDOW: nat := 60

  predicate IsUnlocked(o: TrackedOutput, height: nat, time: nat) {
    var base := SatAdd(o.height, if o.coinbase then COINBASE_LOCK_WINDOW else DEFAULT_LOCK_WINDOW);
    match o.timelock
    case NoLock => height >= base
    case BlockLock(h) => height >= if h > base then h else base
    case TimeLock(t) => time >= t && height >= base
  }

  function UnlockedAt(height: nat, time: nat): Test {
    (o: TrackedOutput) => !o.spent && IsUnlocked(o, height, time)
  }

  function Available(height: nat, time: nat, blocked: set<Outpoint>): Test {
    (o: TrackedOutput) => !o.spent && IsUnlocked(o, height, time) && o.outpoint !in blocked
  }

  /** So many blocks on top of the output's, counted up to the top of the 64-bit range. */
  predicate Buried(o: TrackedOutput, blocks: nat, height: nat) {
    height >= o.height + blocks || (o.height + blocks > 0xffff_ffff_ffff_ffff && height >= 0xffff_ffff_ffff_ffff)
  }

  /** An output counts as unlocked exactly when it is unspent, sixty blocks deep if it was mined and ten if not, and
      its own lock has run out. */
  lemma UnlockedIff(o: TrackedOutput, height: nat, time: nat)
    ensures UnlockedAt(height, time)(o) <==>
      && !o.spent
      && Buried(o, if o.coinbase then 60 else 10, height)
      && (o.timelock.BlockLock? ==> height >= o.timelock.height)
      && (o.timelock.TimeLock? ==> time >= o.timelock.timestamp)
  {}

  method Balances(outputs: Outputs, height: nat, time: nat) returns (total: nat, unlocked: nat)
    ensures total == Cap(Sum(outputs, Unspent())) && unlocked == Cap(Sum(outputs, UnlockedAt(height, time)))
    ensures total == if Sum(outputs, Unspent()) < 0x1_0000_0000_0000_0000 then Sum(outputs, Unspent()) else 18_446_744_073_709_551_615
    ensures unlocked <= total
  {
    total, unlocked := 0, 0;
    for i := 0 to |outputs|
      invariant total == Cap(Sum(outputs[..i], Unspent()))
      invariant unlocked == Cap(Sum(outputs[..i], UnlockedAt(height, time)))
    {
      var o := outputs[i];
      SumSnoc(outputs, i, Unspent());
      SumSnoc(outputs, i, UnlockedAt(height, time));
      SatAddCap(Sum(outputs[..i], Unspent()), o.amount);
      SatAddCap(Sum(outputs[..i], UnlockedAt(height, time)), o.amount);
      if !o.spent {
        total := SatAdd(total, o.amount);
        if IsUnlocked(o, height, time) {
          unlocked := SatAdd(unlocked, o.amount);
        }
      }
    }
    assert outputs[..|outputs|] == outputs;
    SumWithin(outputs, UnlockedAt(height, time), Unspent());
  }

  /** `unlocked_balance` over all subaddresses. */
  method UnlockedBalance(outputs: Outputs, height: nat, time: nat, blocked: set<Outpoint>) returns (sum: nat)
    ensures sum == Cap(Sum(outputs, Available(height, time, blocked)))
    ensures sum <= Cap(Sum(outputs, Unspent()))
  {
    sum := 0;
    for i := 0 to |outputs|
      invariant sum == Cap(Sum(outputs[..i], Available(height, time, blocked)))
    {
      SumSnoc(outputs, i, Available(height, time, blocked));
      SatAddCap(Sum(outputs[..i], Available(height, time, blocked)), outputs[i].amount);
      var o := outputs[i];
      if !o.spent && IsUnlocked(o, height, time) && o.outpoint !in blocked {
        sum := SatAdd(sum, o.amount);
      }
    }
    assert outputs[..|outputs|] == outputs;
    SumWithin(outputs, Available(height, time, blocked), Unspent());
  }

  /** Blocking more never makes more available. */
  lemma QuarantineOnlyLowers(outputs: Outputs, height: nat, time: nat, blocked: set<Outpoint>, more: set<Outpoint>)
    requires blocked <= more
    ensures Sum(outputs, Available(height, time, more)) <= Sum(outputs, Available(height, time, blocked))
    ensures Sum(outputs, Available(height, time, blocked)) <= Sum(outputs, UnlockedAt(height, time)) <= Sum(outputs, Unspent())
  {
    SumWithin(outputs, Available(height, time, more), Available(height, time, blocked));
    SumWithin(outputs, Available(height, time, blocked), UnlockedAt(height, time));
    SumWithin(outputs, UnlockedAt(height, time), Unspent());
  }

  // ---------------------------------------------------------------------------------------------
  // Caches
  // ---------------------------------------------------------------------------------------------

  /** The persisted form of a wallet. `identity` stands for the bound primary address and network. */
  datatype Cache = Cache(identity: nat, restore: nat, gap: nat, work: Working, seen: set<Outpoint>, total: nat, unlocked: nat,
                         chainHeight: nat, chainTime: nat, pending: seq<Pending>, ledger: Book, quarantine: set<Outpoint>)

  const MAX_COVERAGE: nat := 100_000

  /** The outpoint set of a cache belongs to its outputs; whether the one-time keys are distinct is
      checked on import. */
  ghost predicate WellFormed(c: Cache) {
    c.seen == L.Outpoints(c.work.outputs) && C.Distinct(c.work.outputs)
  }

  function CacheView(c: Cache, accounts: nat): E.Wallet {
    E.Wallet(c.restore, Coverage(accounts, c.gap), c.work)
  }

  /** `output_keys.insert` over the cached outputs. */
  method KeysRepeat(outputs: Outputs) returns (repeat: bool)
    ensures repeat <==> !L.DistinctKeys(outputs)
  {
    var keys: set<Key> := {};
    for i := 0 to |outputs|
      invariant forall k :: k in keys <==> exists j :: 0 <= j < i && outputs[j].key == k
      invariant forall j, k :: 0 <= j < k < i ==> outputs[j].key != outputs[k].key
    {
      if outputs[i].key in keys {
        return true;
      }
      keys := keys + {outputs[i].key};
    }
    repeat := false;
  }

  predicate CoverageValid(c: Cache) {
    c.gap <= MAX_COVERAGE && forall o :: o in c.work.outputs ==> o.minor <= MAX_COVERAGE
  }

  // ---------------------------------------------------------------------------------------------
  // Spent-status answers
  // ---------------------------------------------------------------------------------------------

  /** An "unspent" counts only when the wallet has scanned all the daemon has. */
  predicate MayRelease(cursor: nat, daemonHeight: nat, allowRelease: bool) {
    allowRelease && daemonHeight > 0 && cursor >= daemonHeight
  }

  /** The quarantine after the daemon's answers, in order. */
  ghost function Quarantined(blocked: set<Outpoint>, asked: Outputs, statuses: seq<nat>, outputs: Outputs, caughtUp: bool): set<Outpoint>
    requires |asked| == |statuses|
  {
    if asked == [] then blocked
    else
      var k := |asked| - 1;
      var before := Quarantined(blocked, asked[..k], statuses[..k], outputs, caughtUp);
      if !IsCurrent(outputs, asked[k]) then before
      else if statuses[k] == 0 && caughtUp then before - {asked[k].outpoint}
      else if statuses[k] == 1 || statuses[k] == 2 then before + {asked[k].outpoint}
      else before
  }

  /** Before the daemon has caught up nothing is released. */
  lemma {:induction false} NothingReleased(blocked: set<Outpoint>, asked: Outputs, statuses: seq<nat>, outputs: Outputs)
    requires |asked| == |statuses|
    ensures blocked <= Quarantined(blocked, asked, statuses, outputs, false)
  {
    if asked != [] {
      NothingReleased(blocked, asked[..|asked|-1], statuses[..|asked|-1], outputs);
    }
  }

  /** Unspent and with the same key image as when it was asked about. */
  predicate IsCurrent(outputs: Outputs, q: TrackedOutput) {
    exists o :: o in outputs && !o.spent && o.outpoint == q.outpoint && o.image == q.image
  }

  /** The `i`-th answer decides about the outpoint: it is about an output that still is what it was - unspent, the
      same key image - and says spent, or says unspent when that may release. */
  ghost predicate Decides(asked: Outputs, statuses: seq<nat>, outputs: Outputs, caughtUp: bool, p: Outpoint, i: nat)
    requires |asked| == |statuses|
  {
    && i < |asked| && asked[i].outpoint == p
    && (exists o :: o in outputs && !o.spent && o.outpoint == p && o.image == asked[i].image)
    && (statuses[i] == 1 || statuses[i] == 2 || (statuses[i] == 0 && caughtUp))
  }

  ghost predicate DecidesLast(asked: Outputs, statuses: seq<nat>, outputs: Outputs, caughtUp: bool, p: Outpoint, i: nat)
    requires |asked| == |statuses|
  {
    Decides(asked, statuses, outputs, caughtUp, p, i) && forall j: nat :: j > i ==> !Decides(asked, statuses, outputs, caughtUp, p, j)
  }

  lemma DecidesEarlier(asked: Outputs, statuses: seq<nat>, outputs: Outputs, caughtUp: bool, p: Outpoint, k: nat, i: nat)
    requires |asked| == |statuses| == k + 1 && i != k
    ensures Decides(asked[..k], statuses[..k], outputs, caughtUp, p, i) <==> Decides(asked, statuses, outputs, caughtUp, p, i)
  {}

  /** An outpoint is in quarantine afterwards exactly when the last answer that decides about it says spent, or
      none does and it was there before. */
  lemma {:induction false} QuarantinedIff(blocked: set<Outpoint>, asked: Outputs, statuses: seq<nat>, outputs: Outputs, caughtUp: bool, p: Outpoint)
    requires |asked| == |statuses|
    ensures var q := Quarantined(blocked, asked, statuses, outputs, caughtUp);
      && ((forall i: nat :: !Decides(asked, statuses, outputs, caughtUp, p, i)) ==> (p in q <==> p in blocked))
      && (forall i: nat :: DecidesLast(asked, statuses, outputs, caughtUp, p, i) ==> (p in q <==> statuses[i] != 0))
  {
    if asked != [] {
      var k := |asked| - 1;
      var init, said := asked[..k], statuses[..k];
      QuarantinedIff(blocked, init, said, outputs, caughtUp, p);
      forall i: nat | i != k
        ensures Decides(init, said, outputs, caughtUp, p, i) <==> Decides(asked, statuses, outputs, caughtUp, p, i)
      {
        DecidesEarlier(asked, statuses, outputs, caughtUp, p, k, i);
      }
      if !Decides(asked, statuses, outputs, caughtUp, p, k) {
        forall i: nat | DecidesLast(asked, statuses, outputs, caughtUp, p, i)
          ensures i != k && DecidesLast(init, said, outputs, caughtUp, p, i) && said[i] == statuses[i]
        {
        }
        assert !Decides(init, said, outputs, caughtUp, p, k);
      }
    }
  }

  // ---------------------------------------------------------------------------------------------
  // Marking what a sweep spent
  // ---------------------------------------------------------------------------------------------

  /** `mark_tracked_output_spent`: no height is recorded. */
  function MarkSwept(o: TrackedOutput, tx: Txid): TrackedOutput {
    o.(spent := true, spendingTxid := if o.spendingTxid == None then Some(tx) else o.spendingTxid)
  }

  function MarkedAt(outputs: Outputs, p: Outpoint, tx: Txid): (r: Outputs)
    ensures |r| == |outputs|
  {
    var i := OutpointIndex(outputs, p);
    if i < |outputs| then outputs[i := MarkSwept(outputs[i], tx)] else outputs
  }

  function MarkedAll(outputs: Outputs, spent: seq<Outpoint>, tx: Txid): (r: Outputs)
    ensures |r| == |outputs|
  {
    if spent == [] then outputs
    else MarkedAt(MarkedAll(outputs, spent[..|spent|-1], tx), spent[|spent|-1], tx)
  }

  /** What marking newly takes out of the unspent amounts. */
  function Newly(outputs: Outputs, spent: seq<Outpoint>, tx: Txid): nat {
    if spent == [] then 0
    else
      var before := MarkedAll(outputs, spent[..|spent|-1], tx);
      var i := OutpointIndex(before, spent[|spent|-1]);
      Newly(outputs, spent[..|spent|-1], tx) + if i < |outputs| && !before[i].spent then before[i].amount else 0
  }

  lemma {:induction false} SumUpdated(outputs: Outputs, i: nat, o: TrackedOutput)
    requires i < |outputs| && !outputs[i].spent && o.spent
    ensures Sum(outputs[i := o], Unspent()) + outputs[i].amount == Sum(outputs, Unspent())
  {
    var a, b := outputs, outputs[i := o];
    SumWithout(a, i, Unspent());
    SumWithout(b, i, Unspent());
    assert b[..i] == a[..i] && b[i + 1..] == a[i + 1..];
  }

  lemma {:induction false} SumReplaced(outputs: Outputs, i: nat, o: TrackedOutput)
    requires i < |outputs| && outputs[i].spent && o.spent
    ensures Sum(outputs[i := o], Unspent()) == Sum(outputs, Unspent())
  {
    var a, b := outputs, outputs[i := o];
    SumWithout(a, i, Unspent());
    SumWithout(b, i, Unspent());
    assert b[..i] == a[..i] && b[i + 1..] == a[i + 1..];
  }

  /** Marking removes exactly the newly spent amount and moves no outpoint or key. */
  lemma {:induction false} MarkingDebits(outputs: Outputs, spent: seq<Outpoint>, tx: Txid)
    ensures Sum(MarkedAll(outputs, spent, tx), Unspent()) + Newly(outputs, spent, tx) == Sum(outputs, Unspent())
    ensures L.SameIds(outputs, MarkedAll(outputs, spent, tx))
  {
    if spent != [] {
      var init, p := spent[..|spent|-1], spent[|spent|-1];
      MarkingDebits(outputs, init, tx);
      var before := MarkedAll(outputs, init, tx);
      var i := OutpointIndex(before, p);
      if i < |before| {
        if before[i].spent {
          SumReplaced(before, i, MarkSwept(before[i], tx));
        } else {
          SumUpdated(before, i, MarkSwept(before[i], tx));
        }
      }
    }
  }

  /** The debit is what was newly spent, or at least everything when everything was spent. */
  predicate DebitExact(unspent: nat, newly: nat, debit: nat) {
    debit == newly || (newly == unspent && debit >= unspent)
  }

  /** The debited total is the sum of the unspent amounts exactly when the debit is what the marking
      newly spent: an input spent in the meantime, or listed twice, is taken off twice. */
  lemma SweepTotalIsExactIff(outputs: Outputs, spent: seq<Outpoint>, tx: Txid, inputsSum: nat)
    requires Sum(outputs, Unspent()) <= MAX_U64
    ensures SatSub(Cap(Sum(outputs, Unspent())), inputsSum) == Cap(Sum(MarkedAll(outputs, spent, tx), Unspent()))
       <==> DebitExact(Sum(outputs, Unspent()), Newly(outputs, spent, tx), inputsSum)
  {
    MarkingDebits(outputs, spent, tx);
  }
}
