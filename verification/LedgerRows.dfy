/** The rows of the ledger, told from the tracked outputs alone: which transactions have one, in which direction,
    at which height and time. */
module LedgerRows {
  import opened Chain
  import opened Money
  import opened Scan
  import opened Sums
  import opened Ledger

  /** The output counts as spent by the transaction, attribution included. */
  ghost predicate ChargedTo(outputs: Outputs, o: TrackedOutput, t: Txid) {
    o in outputs && o.spent && (o.spendingTxid == Some(t) || (o.spendingTxid == None && o.spendingHeight.Some? && HeightOwner(outputs, o.spendingHeight.value) == Some(t)))
  }

  ghost predicate From(outputs: Outputs, o: TrackedOutput, t: Txid) {
    o in outputs && o.outpoint.txid == t
  }

  ghost predicate Spends(outputs: Outputs, t: Txid) {
    exists o :: ChargedTo(outputs, o, t) && o.amount > 0
  }

  ghost predicate Receives(outputs: Outputs, t: Txid) {
    exists o :: From(outputs, o, t) && o.amount > 0
  }

  /** The greatest height above 0 at which something counts as spent by the transaction, if any. */
  ghost predicate SpentAt(outputs: Outputs, t: Txid, h: Option<nat>) {
    && (h.Some? ==> h.value > 0 && exists o :: ChargedTo(outputs, o, t) && o.spendingHeight == h)
    && (forall o, k: nat :: ChargedTo(outputs, o, t) && o.spendingHeight == Some(k) && k > 0 ==> h.Some? && k <= h.value)
  }

  /** The greatest height above 0 at which the transaction paid the wallet, if any. */
  ghost predicate ReceivedAt(outputs: Outputs, t: Txid, h: Option<nat>) {
    && (h.Some? ==> h.value > 0 && exists o :: From(outputs, o, t) && o.height == h.value)
    && (forall o :: From(outputs, o, t) && o.height > 0 ==> h.Some? && o.height <= h.value)
  }

  /** The height of a row: where it spent, else where it received. */
  ghost predicate HeightOf(outputs: Outputs, t: Txid, out: bool, h: Option<nat>) {
    exists spent: Option<nat>, received: Option<nat> ::
      && SpentAt(outputs, t, spent) && ReceivedAt(outputs, t, received)
      && h == if out && spent.Some? then spent else received
  }

  /** The stamp of a known height, unless it is 0. */
  ghost predicate TimeOf(stamps: map<nat, nat>, h: Option<nat>, time: Option<nat>) {
    forall s: nat :: time == Some(s) <==> h.Some? && h.value in stamps && stamps[h.value] == s && s > 0
  }

  // ---------------------------------------------------------------------------------------------
  // What the aggregates are
  // ---------------------------------------------------------------------------------------------

  lemma ChargedIs(outputs: Outputs, o: TrackedOutput, t: Txid)
    ensures ChargedTo(outputs, o, t) <==> o in outputs && Effective(outputs)(o) == Some(t)
    ensures ChargedTo(outputs, o, t) && o.spendingTxid == None ==> OnlyCandidate(outputs, t, o.spendingHeight.value)
  {}

  /** The height whose anonymous spends the transaction is charged with. */
  ghost function PaidFor(outputs: Outputs, t: Txid): Option<nat> {
    var h := Direct(outputs, t).incomingHeight;
    if h.Some? && OnlyCandidate(outputs, t, h.value) then h else None
  }

  lemma ChargedCases(outputs: Outputs, o: TrackedOutput, t: Txid)
    ensures ChargedTo(outputs, o, t)
      <==> o in outputs && (SpentBy(t)(o) || (PaidFor(outputs, t).Some? && AnonymousAt(PaidFor(outputs, t).value)(o)))
  {
    var h := PaidFor(outputs, t);
    if h.Some? {
      assert HeightOwner(outputs, h.value) == Some(t);
    }
  }

  lemma SpentIff(outputs: Outputs, t: Txid)
    ensures Final(outputs, t).spent > 0 <==> Spends(outputs, t)
  {
    SumNeedsAmount(outputs, SpentBy(t));
    if Sum(outputs, SpentBy(t)) > 0 {
      var o :| o in outputs && SpentBy(t)(o) && o.amount > 0;
      assert ChargedTo(outputs, o, t);
    }
    if PaidFor(outputs, t).Some? {
      var o := PaidForSome(outputs, t, PaidFor(outputs, t).value);
    }
    if o :| ChargedTo(outputs, o, t) && o.amount > 0 {
      ChargedCases(outputs, o, t);
      if SpentBy(t)(o) {
        SumAtLeast(outputs, SpentBy(t), o);
      }
    }
  }

  lemma PaidForSome(outputs: Outputs, t: Txid, h: nat) returns (o: TrackedOutput)
    requires PaidFor(outputs, t) == Some(h)
    ensures ChargedTo(outputs, o, t) && o.spendingHeight == Some(h) && o.amount > 0 && h > 0
  {
    SumNeedsAmount(outputs, AnonymousAt(h));
    o :| o in outputs && AnonymousAt(h)(o) && o.amount > 0;
    ChargedCases(outputs, o, t);
  }

  lemma ReceivedIff(outputs: Outputs, t: Txid)
    ensures Final(outputs, t).incoming > 0 <==> Receives(outputs, t)
  {
    SumNeedsAmount(outputs, Created(t));
    if Sum(outputs, Created(t)) > 0 {
      var o :| o in outputs && Created(t)(o) && o.amount > 0;
      assert From(outputs, o, t);
    }
    if o :| From(outputs, o, t) && o.amount > 0 {
      SumAtLeast(outputs, Created(t), o);
    }
  }

  lemma ReceivedAtIs(outputs: Outputs, t: Txid)
    ensures ReceivedAt(outputs, t, Final(outputs, t).incomingHeight)
  {
    var m := Highest(outputs, CreatedHeight(t));
    if m > 0 {
      var o :| o in outputs && CreatedHeight(t)(o) == m;
      assert From(outputs, o, t) && o.height == m;
    }
    forall o | From(outputs, o, t) ensures o.height <= m {
      assert CreatedHeight(t)(o) == o.height;
    }
  }

  lemma DirectSpentAt(outputs: Outputs, t: Txid, m: nat)
    requires m == Highest(outputs, SpentHeight(t))
    ensures m > 0 ==> exists o :: ChargedTo(outputs, o, t) && o.spendingHeight == Some(m)
    ensures forall o, k: nat :: o in outputs && SpentBy(t)(o) && o.spendingHeight == Some(k) ==> k <= m
  {
    if m > 0 {
      var o :| o in outputs && SpentHeight(t)(o) == m;
      assert ChargedTo(outputs, o, t) && o.spendingHeight == Some(m);
    }
    forall o, k: nat | o in outputs && SpentBy(t)(o) && o.spendingHeight == Some(k) ensures k <= m {
      assert SpentHeight(t)(o) == k;
    }
  }

  lemma SpentAtIs(outputs: Outputs, t: Txid)
    ensures SpentAt(outputs, t, Final(outputs, t).spendHeight)
  {
    var m, r := Highest(outputs, SpentHeight(t)), Final(outputs, t).spendHeight;
    DirectSpentAt(outputs, t, m);
    forall o, k: nat | ChargedTo(outputs, o, t) && o.spendingHeight == Some(k) && k > 0 ensures r.Some? && k <= r.value {
      ChargedCases(outputs, o, t);
    }
    if PaidFor(outputs, t).Some? {
      var o := PaidForSome(outputs, t, PaidFor(outputs, t).value);
    }
  }

  // ---------------------------------------------------------------------------------------------
  // The rows
  // ---------------------------------------------------------------------------------------------

  /** A row, told from the outputs. */
  ghost predicate Told(outputs: Outputs, stamps: map<nat, nat>, t: Txid, e: Entry) {
    && (e.out <==> Spends(outputs, t))
    && HeightOf(outputs, t, e.out, e.height) && TimeOf(stamps, e.height, e.timestamp)
    && (e.coinbase <==> !e.out && exists o :: From(outputs, o, t) && o.coinbase)
    && !e.pending
  }

  lemma RowTold(outputs: Outputs, fee: Option<nat>, stamps: map<nat, nat>, t: Txid)
    ensures var row := Row(Final(outputs, t), fee, stamps);
      && (row.Some? <==> Spends(outputs, t) || Receives(outputs, t))
      && (row.Some? ==> Told(outputs, stamps, t, row.value) && row.value.fee == fee)
  {
    var row, a := Row(Final(outputs, t), fee, stamps), Final(outputs, t);
    SpentIff(outputs, t);
    ReceivedIff(outputs, t);
    SpentAtIs(outputs, t);
    ReceivedAtIs(outputs, t);
    if row.Some? {
      assert HeightOf(outputs, t, row.value.out, row.value.height);
      assert Mined(outputs, t) <==> exists o :: From(outputs, o, t) && o.coinbase;
    }
  }

  /** Without pending sends: a transaction has a row exactly when something of nonzero amount came from it or counts as
      spent by it, and that row is outgoing exactly in the second case. Its height is the greatest known one at
      which it spent, else the greatest at which it paid the wallet; its time is the positive stamp of that
      height; and a receipt is marked mined exactly when some output of it is. */
  lemma RowsTold(outputs: Outputs, fees: map<Txid, nat>, chainTime: nat, stamps: map<nat, nat>, t: Txid)
    ensures var book := Rebuilt(outputs, [], fees, chainTime, stamps);
      && (t in book <==> Spends(outputs, t) || Receives(outputs, t))
      && (t in book ==> Told(outputs, stamps, t, book[t]) && book[t].fee == Lookup(fees, t))
  {
    RowTold(outputs, Lookup(fees, t), stamps, t);
    assert Rows(outputs, fees, stamps)(t) == Row(Final(outputs, t), Lookup(fees, t), stamps);
    if o :| ChargedTo(outputs, o, t) {
      EffectiveKnown(outputs);
      ChargedIs(outputs, o, t);
    }
    if o :| From(outputs, o, t) {
      assert Mentions(o, t);
    }
  }

  lemma AmountTold(a: Agg, fee: Option<nat>, stamps: map<nat, nat>)
    ensures var row := Row(a, fee, stamps);
      row.Some? ==> row.value.amount == if !row.value.out then a.incoming else if a.spent > a.incoming then a.spent - a.incoming else 0
  {}

  /** Its amount, short of saturation: what it spent less what it returned, or what it paid. */
  lemma RowAmounts(outputs: Outputs, fees: map<Txid, nat>, chainTime: nat, stamps: map<nat, nat>, t: Txid, spent: nat, paid: nat)
    requires Sum(outputs, Every()) <= MAX_U64
    requires spent == Sum(outputs, OwnedBy(Effective(outputs), t)) && paid == Sum(outputs, Created(t))
    ensures var book := Rebuilt(outputs, [], fees, chainTime, stamps);
      t in book ==> book[t].amount == if !book[t].out then paid else if spent > paid then spent - paid else 0
  {
    FinalSpent(outputs, t);
    AmountTold(Final(outputs, t), Lookup(fees, t), stamps);
    BookRow(outputs, fees, stamps, t);
  }

  lemma BookRow(outputs: Outputs, fees: map<Txid, nat>, stamps: map<nat, nat>, t: Txid)
    ensures t in Base(outputs, fees, stamps) ==> Some(Base(outputs, fees, stamps)[t]) == Row(Final(outputs, t), Lookup(fees, t), stamps)
  {
    assert Rows(outputs, fees, stamps)(t) == Row(Final(outputs, t), Lookup(fees, t), stamps);
  }
}
