/** What repeated checkpoints do to the ledger and to the pending sends. */
module Settling {
  import opened Chain
  import opened Money
  import opened Scan
  import opened Sums
  import opened Ledger

  /** `known_transaction_fees`. */
  function KnownFees(book: Book): map<Txid, nat> {
    map t | t in book && book[t].fee.Some? :: book[t].fee.value
  }

  /** The pending records of one transaction, in order. */
  function Mine(pending: seq<Pending>, t: Txid): seq<Pending> {
    if pending == [] then []
    else Mine(pending[..|pending|-1], t) + if pending[|pending|-1].txid == t then [pending[|pending|-1]] else []
  }

  function FoldRow(row: Option<Entry>, ps: seq<Pending>, chainTime: nat): Option<Entry> {
    if ps == [] then row
    else Some(Record(FoldRow(row, ps[..|ps|-1], chainTime), ps[|ps|-1], chainTime))
  }

  /** Folding the pending records in works transaction by transaction. */
  lemma {:induction false} FoldAt(book: Book, pending: seq<Pending>, chainTime: nat, t: Txid)
    ensures Lookup(Fold(book, pending, chainTime), t) == FoldRow(Lookup(book, t), Mine(pending, t), chainTime)
  {
    if pending != [] {
      var init, p := pending[..|pending|-1], pending[|pending|-1];
      FoldAt(book, init, chainTime, t);
      if p.txid == t {
        var ps := Mine(pending, t);
        assert ps[..|ps|-1] == Mine(init, t) && ps[|ps|-1] == p;
      } else {
        assert Mine(pending, t) == Mine(init, t);
      }
    }
  }

  function FirstFee(ps: seq<Pending>): Option<nat> {
    if ps == [] then None
    else
      var before := FirstFee(ps[..|ps|-1]);
      if before.Some? then before else PendingFee(ps[|ps|-1])
  }

  /** The row some pending records leave, in one step: the last one gives the amount, the first known fee
      stays, and only a row the outputs know a height for is not pending. */
  function Folded(row: Option<Entry>, ps: seq<Pending>, chainTime: nat): Entry
    requires ps != []
  {
    var last := ps[|ps|-1];
    var first := Record(row, ps[0], chainTime);
    first.(amount := SatAdd(last.amount, last.fee),
           fee := if row.Some? && row.value.out && row.value.fee.Some? then row.value.fee else FirstFee(ps))
  }

  lemma {:induction false} FoldRowIs(row: Option<Entry>, ps: seq<Pending>, chainTime: nat)
    requires ps != []
    ensures FoldRow(row, ps, chainTime) == Some(Folded(row, ps, chainTime))
  {
    var init := ps[..|ps|-1];
    if init != [] {
      FoldRowIs(row, init, chainTime);
      assert init[0] == ps[0];
    } else {
      assert FoldRow(row, init, chainTime) == row && FirstFee(init) == None;
    }
  }

  lemma RebuiltAt(outputs: Outputs, pending: seq<Pending>, fees: map<Txid, nat>, chainTime: nat, stamps: map<nat, nat>, t: Txid)
    ensures Lookup(Rebuilt(outputs, pending, fees, chainTime, stamps), t)
         == FoldRow(BaseRow(outputs, fees, stamps, t), Mine(pending, t), chainTime)
  {
    FoldAt(Base(outputs, fees, stamps), pending, chainTime, t);
  }

  /** The row of `t` before any pending record. */
  ghost function BaseRow(outputs: Outputs, fees: map<Txid, nat>, stamps: map<nat, nat>, t: Txid): Option<Entry> {
    Lookup(Base(outputs, fees, stamps), t)
  }

  lemma BaseRowIs(outputs: Outputs, fees: map<Txid, nat>, stamps: map<nat, nat>, t: Txid)
    ensures BaseRow(outputs, fees, stamps, t) == if t in Txids(outputs) then Row(Final(outputs, t), Lookup(fees, t), stamps) else None
  {
    assert Rows(outputs, fees, stamps)(t) == Row(Final(outputs, t), Lookup(fees, t), stamps);
  }

  lemma SameBooks(a: Book, b: Book)
    requires forall t :: Lookup(a, t) == Lookup(b, t)
    ensures a == b
  {
    forall t: Txid ensures (t in a <==> t in b) && (t in a ==> a[t] == b[t]) {
      assert Lookup(a, t) == Lookup(b, t);
    }
  }

  /** The first fee above 0 among the records, if any. */
  ghost predicate FirstKnownFee(ps: seq<Pending>, fee: Option<nat>) {
    if fee == None then forall i :: 0 <= i < |ps| ==> ps[i].fee == 0
    else exists i :: 0 <= i < |ps| && Some(ps[i].fee) == fee && fee.value > 0 && forall j :: 0 <= j < i ==> ps[j].fee == 0
  }

  lemma {:induction false} FirstFeeIs(ps: seq<Pending>)
    ensures FirstKnownFee(ps, FirstFee(ps))
  {
    if ps != [] {
      var init := ps[..|ps|-1];
      FirstFeeIs(init);
      if FirstFee(init).Some? {
        var i :| 0 <= i < |init| && Some(init[i].fee) == FirstFee(init) && init[i].fee > 0 && forall j :: 0 <= j < i ==> init[j].fee == 0;
        assert Some(ps[i].fee) == FirstFee(ps) && forall j :: 0 <= j < i ==> ps[j] == init[j];
      } else {
        var n := |ps| - 1;
        assert forall i :: 0 <= i < n ==> ps[i] == init[i] && init[i].fee == 0;
      }
    }
  }

  /** What the pending records `ps` of a transaction, oldest first, make of the row `base` the outputs give it. */
  ghost predicate SentRow(base: Option<Entry>, ps: seq<Pending>, chainTime: nat, e: Entry)
    requires ps != []
  {
    && e.out && !e.coinbase && e.amount == SatAdd(ps[|ps|-1].amount, ps[|ps|-1].fee)
    && (match base
        case None =>
          && e.pending && e.height == None && FirstKnownFee(ps, e.fee)
          && (ps[0].createdAt > 0 ==> e.timestamp == Some(ps[0].createdAt))
          && (ps[0].createdAt == 0 ==> e.timestamp == if chainTime > 0 then Some(chainTime) else None)
        case Some(b) =>
          && e.height == b.height && e.timestamp == b.timestamp
          && (e.pending <==> !b.out && b.height == None)
          && (if b.out && b.fee.Some? then e.fee == b.fee else FirstKnownFee(ps, e.fee)))
  }

  /** The ledger with pending sends, transaction by transaction: one without a record has the row the outputs give
      it; one with records has an outgoing row of payment plus fee, pending exactly when the outputs know no
      height for it. */
  lemma SentRowsTold(outputs: Outputs, pending: seq<Pending>, fees: map<Txid, nat>, chainTime: nat, stamps: map<nat, nat>, t: Txid)
    ensures var base, e := Lookup(Rebuilt(outputs, [], fees, chainTime, stamps), t), Lookup(Rebuilt(outputs, pending, fees, chainTime, stamps), t);
      && (Mine(pending, t) == [] ==> e == base)
      && (Mine(pending, t) != [] ==> e.Some? && SentRow(base, Mine(pending, t), chainTime, e.value))
  {
    var ps, base := Mine(pending, t), BaseRow(outputs, fees, stamps, t);
    RebuiltAt(outputs, [], fees, chainTime, stamps, t);
    RebuiltAt(outputs, pending, fees, chainTime, stamps, t);
    BaseRowIs(outputs, fees, stamps, t);
    if ps != [] {
      FoldRowIs(base, ps, chainTime);
      FirstFeeIs(ps);
      BaseRowPlain(outputs, fees, stamps, t);
    }
  }

  lemma BaseRowPlain(outputs: Outputs, fees: map<Txid, nat>, stamps: map<nat, nat>, t: Txid)
    ensures var b := BaseRow(outputs, fees, stamps, t); b.Some? ==> !b.value.pending && (b.value.out ==> !b.value.coinbase)
  {
    BaseRowIs(outputs, fees, stamps, t);
  }

  /** The records of one transaction are exactly those with its id, in order. */
  lemma {:induction false} MineIs(pending: seq<Pending>, t: Txid)
    ensures forall p :: p in Mine(pending, t) <==> p in pending && p.txid == t
    ensures multiset(Mine(pending, t)) <= multiset(pending)
  {
    if pending != [] {
      var init, p := pending[..|pending|-1], pending[|pending|-1];
      assert pending == init + [p];
      MineIs(init, t);
    }
  }

  // ---------------------------------------------------------------------------------------------
  // Fees learned from a rebuilt ledger
  // ---------------------------------------------------------------------------------------------

  function WithFee(row: Option<Entry>, fee: Option<nat>): Option<Entry> {
    match row case None => None case Some(e) => Some(e.(fee := fee))
  }

  lemma FoldKeepsFee(row: Option<Entry>, ps: seq<Pending>, chainTime: nat, fee: Option<nat>)
    requires var r := FoldRow(row, ps, chainTime); r.Some? ==> fee == r.value.fee
    ensures FoldRow(WithFee(row, fee), ps, chainTime) == FoldRow(row, ps, chainTime)
  {
    if ps != [] {
      FoldRowIs(row, ps, chainTime);
      FoldRowIs(WithFee(row, fee), ps, chainTime);
    }
  }

  lemma FixpointAt(outputs: Outputs, pending: seq<Pending>, fees: map<Txid, nat>, chainTime: nat, stamps: map<nat, nat>,
                   learned: map<Txid, nat>, t: Txid)
    requires learned == KnownFees(Rebuilt(outputs, pending, fees, chainTime, stamps))
    ensures Lookup(Rebuilt(outputs, pending, learned, chainTime, stamps), t) == Lookup(Rebuilt(outputs, pending, fees, chainTime, stamps), t)
  {
    var row, ps, fee := BaseRow(outputs, fees, stamps, t), Mine(pending, t), Lookup(learned, t);
    RebuiltAt(outputs, pending, fees, chainTime, stamps, t);
    RebuiltAt(outputs, pending, learned, chainTime, stamps, t);
    BaseRowFee(outputs, fees, learned, stamps, t);
    KnownFeeAt(Rebuilt(outputs, pending, fees, chainTime, stamps), t);
    FoldKeepsFee(row, ps, chainTime, fee);
  }

  lemma KnownFeeAt(book: Book, t: Txid)
    ensures Lookup(book, t).Some? ==> Lookup(KnownFees(book), t) == Lookup(book, t).value.fee
  {}

  lemma BaseRowFee(outputs: Outputs, fees: map<Txid, nat>, learned: map<Txid, nat>, stamps: map<nat, nat>, t: Txid)
    ensures BaseRow(outputs, learned, stamps, t) == WithFee(BaseRow(outputs, fees, stamps, t), Lookup(learned, t))
  {
    BaseRowIs(outputs, fees, stamps, t);
    BaseRowIs(outputs, learned, stamps, t);
    if t in Txids(outputs) {
      RowFee(Final(outputs, t), Lookup(fees, t), Lookup(learned, t), stamps);
    }
  }

  lemma RowFee(a: Agg, fee: Option<nat>, other: Option<nat>, stamps: map<nat, nat>)
    ensures Row(a, other, stamps) == WithFee(Row(a, fee, stamps), other)
  {}

  /** Rebuilding with the fees of a rebuilt ledger gives that ledger again, duplicate pending records
      of one transaction included. */
  lemma RebuildIsAFixpoint(outputs: Outputs, pending: seq<Pending>, fees: map<Txid, nat>, chainTime: nat, stamps: map<nat, nat>)
    ensures var book := Rebuilt(outputs, pending, fees, chainTime, stamps);
      Rebuilt(outputs, pending, KnownFees(book), chainTime, stamps) == book
  {
    var book := Rebuilt(outputs, pending, fees, chainTime, stamps);
    forall t ensures Lookup(Rebuilt(outputs, pending, KnownFees(book), chainTime, stamps), t) == Lookup(book, t) {
      FixpointAt(outputs, pending, fees, chainTime, stamps, KnownFees(book), t);
    }
    SameBooks(Rebuilt(outputs, pending, KnownFees(book), chainTime, stamps), book);
  }

  // ---------------------------------------------------------------------------------------------
  // Which pending records a checkpoint keeps
  // ---------------------------------------------------------------------------------------------

  predicate StillPending(book: Book, p: Pending) {
    p.txid in book ==> book[p.txid].out && book[p.txid].pending
  }

  /** The `retain` of a checkpoint. */
  function Retained(book: Book, pending: seq<Pending>): (r: seq<Pending>)
    ensures forall p :: p in r <==> p in pending && StillPending(book, p)
  {
    if pending == [] then []
    else
      var init, last := pending[..|pending|-1], pending[|pending|-1];
      assert pending == init + [last];
      Retained(book, init) + if StillPending(book, last) then [last] else []
  }

  /** The outputs do not settle `t` yet: no row, or a receipt whose height is unknown. */
  predicate Unsettled(row: Option<Entry>) {
    row == None || (!row.value.out && row.value.height == None)
  }

  lemma {:induction false} MineMembers(pending: seq<Pending>, p: Pending)
    requires p in pending
    ensures Mine(pending, p.txid) != []
  {
    var init, last := pending[..|pending|-1], pending[|pending|-1];
    assert pending == init + [last];
    if p != last {
      MineMembers(init, p);
    }
  }

  lemma SurvivesIff(outputs: Outputs, pending: seq<Pending>, fees: map<Txid, nat>, chainTime: nat, stamps: map<nat, nat>, p: Pending)
    requires p in pending
    ensures p in Retained(Rebuilt(outputs, pending, fees, chainTime, stamps), pending) <==> Unsettled(BaseRow(outputs, fees, stamps, p.txid))
  {
    MineMembers(pending, p);
    RebuiltAt(outputs, pending, fees, chainTime, stamps, p.txid);
    FoldRowIs(BaseRow(outputs, fees, stamps, p.txid), Mine(pending, p.txid), chainTime);
    BaseRowIs(outputs, fees, stamps, p.txid);
  }

  /** As far as known nothing tracked was spent by `t`, and what was received from it - of any amount - has no
      known height. */
  predicate Silent(outputs: Outputs, t: Txid) {
    && Sum(outputs, SpentBy(t)) == 0
    && (Sum(outputs, Created(t)) == 0 || forall o :: o in outputs && o.outpoint.txid == t ==> o.height == 0)
  }

  lemma HeightOfReceipts(outputs: Outputs, t: Txid)
    ensures Highest(outputs, CreatedHeight(t)) == 0 <==> forall o :: o in outputs && o.outpoint.txid == t ==> o.height == 0
  {
    if o :| o in outputs && o.outpoint.txid == t && o.height > 0 {
      assert CreatedHeight(t)(o) == o.height;
    }
  }

  /** The row the outputs give `t` is missing or open exactly when they are silent about it. */
  lemma SilentRow(outputs: Outputs, t: Txid, fee: Option<nat>, stamps: map<nat, nat>)
    ensures Unsettled(Row(Final(outputs, t), fee, stamps)) <==> Silent(outputs, t)
    ensures t !in Txids(outputs) ==> Silent(outputs, t)
  {
    SumNeedsOutput(outputs, Created(t));
    SumNeedsOutput(outputs, SpentBy(t));
    HeightOfReceipts(outputs, t);
    var a := Direct(outputs, t);
    if a.incomingHeight.Some? {
      var h := a.incomingHeight.value;
      assert Candidate(outputs, t, h) ==> a.incoming > 0;
    }
  }

  /** A pending send survives a checkpoint exactly as long as the tracked outputs are silent about its
      transaction. */
  lemma PendingSurvivesUntilSeen(outputs: Outputs, pending: seq<Pending>, fees: map<Txid, nat>, chainTime: nat, stamps: map<nat, nat>, p: Pending)
    requires p in pending
    ensures p in Retained(Rebuilt(outputs, pending, fees, chainTime, stamps), pending) <==> Silent(outputs, p.txid)
  {
    SurvivesIff(outputs, pending, fees, chainTime, stamps, p);
    BaseRowIs(outputs, fees, stamps, p.txid);
    SilentRow(outputs, p.txid, Lookup(fees, p.txid), stamps);
  }

  /** A send or sweep that marks its inputs spent at once is taken for settled by the very next checkpoint, which drops
      its record, whether or not any block contains the transaction. */
  lemma SweptPendingIsDropped(outputs: Outputs, pending: seq<Pending>, fees: map<Txid, nat>, chainTime: nat, stamps: map<nat, nat>,
                              p: Pending, o: TrackedOutput)
    requires p in pending && o in outputs && o.spent && o.spendingTxid == Some(p.txid) && o.amount > 0
    ensures p !in Retained(Rebuilt(outputs, pending, fees, chainTime, stamps), pending)
  {
    SurvivesIff(outputs, pending, fees, chainTime, stamps, p);
    BaseRowIs(outputs, fees, stamps, p.txid);
    SumAtLeast(outputs, SpentBy(p.txid), o);
    assert Mentions(o, p.txid);
  }

  lemma ReceiptSettles(outputs: Outputs, pending: seq<Pending>, fees: map<Txid, nat>, chainTime: nat, stamps: map<nat, nat>,
                       p: Pending, o: TrackedOutput)
    requires o in outputs && o.outpoint.txid == p.txid && o.height > 0 && o.amount > 0
    ensures p !in Retained(Rebuilt(outputs, pending, fees, chainTime, stamps), pending)
  {
    SumAtLeast(outputs, Created(p.txid), o);
    if p in pending {
      PendingSurvivesUntilSeen(outputs, pending, fees, chainTime, stamps, p);
    }
  }

  // ---------------------------------------------------------------------------------------------
  // A second identical checkpoint
  // ---------------------------------------------------------------------------------------------

  /** Retention looks at the transaction only, so all its records stay or go together. */
  lemma {:induction false} RetainedMine(book: Book, pending: seq<Pending>, t: Txid)
    ensures Mine(Retained(book, pending), t)
      == if t in book ==> book[t].out && book[t].pending then Mine(pending, t) else []
  {
    if pending != [] {
      var init, last := pending[..|pending|-1], pending[|pending|-1];
      RetainedMine(book, init, t);
      var r := Retained(book, pending);
      if StillPending(book, last) {
        assert r[..|r|-1] == Retained(book, init) && r[|r|-1] == last;
      } else {
        assert r == Retained(book, init);
      }
    }
  }

  /** What the outputs say about a confirmed transaction agrees with what was recorded when it was sent. */
  predicate AgreesWithRecords(row: Option<Entry>, ps: seq<Pending>) {
    ps != [] ==>
      && row.Some? && row.value.out
      && row.value.amount == SatAdd(ps[|ps|-1].amount, ps[|ps|-1].fee)
      && (row.value.fee == None ==> FirstFee(ps) == None)
  }

  lemma SettledRow(row: Option<Entry>, ps: seq<Pending>, chainTime: nat)
    requires !Unsettled(row)
    ensures FoldRow(row, ps, chainTime) == row <==> AgreesWithRecords(row, ps)
  {
    if ps != [] {
      FoldRowIs(row, ps, chainTime);
    }
  }

  lemma SecondAt(outputs: Outputs, pending: seq<Pending>, fees: map<Txid, nat>, chainTime: nat, stamps: map<nat, nat>, book: Book, t: Txid)
    requires book == Rebuilt(outputs, pending, fees, chainTime, stamps)
    ensures var row := BaseRow(outputs, fees, stamps, t);
      && Lookup(Rebuilt(outputs, Retained(book, pending), fees, chainTime, stamps), t)
         == (if Unsettled(row) then Lookup(book, t) else row)
      && Lookup(book, t) == FoldRow(row, Mine(pending, t), chainTime)
  {
    RebuiltAt(outputs, pending, fees, chainTime, stamps, t);
    RebuiltAt(outputs, Retained(book, pending), fees, chainTime, stamps, t);
    RetainedMine(book, pending, t);
    BaseRowIs(outputs, fees, stamps, t);
    if Mine(pending, t) != [] {
      FoldRowIs(BaseRow(outputs, fees, stamps, t), Mine(pending, t), chainTime);
    }
  }

  /** A second identical checkpoint leaves the ledger alone exactly when, for every transaction the
      outputs have settled, payment plus fee is inputs minus change and the fee is known if it was. */
  lemma SecondCheckpointChangesNothingIff(outputs: Outputs, pending: seq<Pending>, fees: map<Txid, nat>, chainTime: nat, stamps: map<nat, nat>)
    ensures var book := Rebuilt(outputs, pending, fees, chainTime, stamps);
      Rebuilt(outputs, Retained(book, pending), fees, chainTime, stamps) == book
      <==> forall t: Txid :: !Unsettled(BaseRow(outputs, fees, stamps, t)) ==> AgreesWithRecords(BaseRow(outputs, fees, stamps, t), Mine(pending, t))
  {
    var book := Rebuilt(outputs, pending, fees, chainTime, stamps);
    var second := Rebuilt(outputs, Retained(book, pending), fees, chainTime, stamps);
    forall t: Txid
      ensures Lookup(second, t) == Lookup(book, t)
        <==> (!Unsettled(BaseRow(outputs, fees, stamps, t)) ==> AgreesWithRecords(BaseRow(outputs, fees, stamps, t), Mine(pending, t)))
    {
      SecondAt(outputs, pending, fees, chainTime, stamps, book, t);
      if !Unsettled(BaseRow(outputs, fees, stamps, t)) {
        SettledRow(BaseRow(outputs, fees, stamps, t), Mine(pending, t), chainTime);
      }
    }
    if forall t: Txid :: Lookup(second, t) == Lookup(book, t) {
      SameBooks(second, book);
    }
  }

  /** Whatever the second checkpoint changed, the third changes nothing more. */
  lemma ThirdCheckpointChangesNothing(outputs: Outputs, pending: seq<Pending>, fees: map<Txid, nat>, chainTime: nat, stamps: map<nat, nat>)
    ensures var book := Rebuilt(outputs, pending, fees, chainTime, stamps);
      var second := Rebuilt(outputs, Retained(book, pending), fees, chainTime, stamps);
      Rebuilt(outputs, Retained(second, Retained(book, pending)), fees, chainTime, stamps) == second
  {
    var book := Rebuilt(outputs, pending, fees, chainTime, stamps);
    var kept := Retained(book, pending);
    var second := Rebuilt(outputs, kept, fees, chainTime, stamps);
    forall t: Txid
      ensures !Unsettled(BaseRow(outputs, fees, stamps, t)) ==> AgreesWithRecords(BaseRow(outputs, fees, stamps, t), Mine(kept, t))
    {
      SecondAt(outputs, pending, fees, chainTime, stamps, book, t);
      RetainedMine(book, pending, t);
      BaseRowIs(outputs, fees, stamps, t);
      if Mine(pending, t) != [] {
        FoldRowIs(BaseRow(outputs, fees, stamps, t), Mine(pending, t), chainTime);
      }
    }
    SecondCheckpointChangesNothingIff(outputs, kept, fees, chainTime, stamps);
  }
}
