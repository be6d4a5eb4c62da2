/** The guess at the spender of inputs whose transaction the block does not name, told from the tracked outputs:
    the only transaction of that height whose receipts could be their change. */
module ChangeGuess {
  import opened Chain
  import opened Money
  import opened Scan
  import opened Sums
  import L = Ledger

  // ---------------------------------------------------------------------------------------------
  // While scanning
  // ---------------------------------------------------------------------------------------------

  /** Spent at this height by nobody known. */
  function Nameless(h: nat): Test {
    (o: TrackedOutput) => o.spent && o.spendingHeight == Some(h) && o.spendingTxid == None
  }

  /** Paid by the transaction at this height, and not spent since. */
  function Returned(t: Txid, h: nat): Test {
    (o: TrackedOutput) => o.outpoint.txid == t && o.height == h && !o.spent
  }

  /** The transaction pays the wallet at this height, none of the nameless inputs came from it, and it returns
      something, but less than they are worth. */
  ghost predicate CouldBeChange(outputs: Outputs, t: Txid, h: nat) {
    && (exists o :: o in outputs && Returned(t, h)(o))
    && (forall o :: o in outputs && Nameless(h)(o) ==> o.outpoint.txid != t)
    && 0 < Sum(outputs, Returned(t, h)) && Sum(outputs, Returned(t, h)) < Cap(Sum(outputs, Nameless(h)))
  }

  ghost predicate OnlyChange(outputs: Outputs, t: Txid, h: nat) {
    CouldBeChange(outputs, t, h) && forall u :: CouldBeChange(outputs, u, h) ==> u == t
  }

  lemma {:induction false} ChangeSumIs(outputs: Outputs, t: Txid, h: nat)
    ensures ChangeSum(outputs, t, h) == Sum(outputs, Returned(t, h))
  {
    if outputs != [] {
      ChangeSumIs(outputs[..|outputs|-1], t, h);
    }
  }

  lemma {:induction false} UnattributedSumIs(outputs: Outputs, h: nat)
    ensures UnattributedSum(outputs, h) == Sum(outputs, Nameless(h))
  {
    if outputs != [] {
      UnattributedSumIs(outputs[..|outputs|-1], h);
    }
  }

  lemma ChangeIs(outputs: Outputs, t: Txid, h: nat)
    ensures IsChangeTx(outputs, t, h) <==> CouldBeChange(outputs, t, h)
  {
    ChangeSumIs(outputs, t, h);
    UnattributedSumIs(outputs, h);
    assert forall o: TrackedOutput :: Unattributed(o, h) <==> Nameless(h)(o);
    assert forall o: TrackedOutput :: FreshChange(o, h) && o.outpoint.txid == t <==> Returned(t, h)(o);
  }

  /** After a block the nameless spends of its height are put down to the only transaction that could be their change;
      when there is none, or more than one, they stay nameless. Nothing else moves. */
  lemma GuessIff(outputs: Outputs, h: nat, i: nat)
    requires i < |outputs|
    ensures var o, p := outputs[i], Attribute(outputs, h)[i];
      && (forall t :: OnlyChange(outputs, t, h) && Nameless(h)(o) ==> p == o.(spendingTxid := Some(t)))
      && ((forall t :: !OnlyChange(outputs, t, h)) || !Nameless(h)(o) ==> p == o)
  {
    forall t ensures IsChangeTx(outputs, t, h) <==> CouldBeChange(outputs, t, h) {
      ChangeIs(outputs, t, h);
    }
    assert Unattributed(outputs[i], h) <==> Nameless(h)(outputs[i]);
    forall t ensures OnlyChange(outputs, t, h) <==> IsChangeTx(outputs, t, h) && forall u :: IsChangeTx(outputs, u, h) ==> u == t {
    }
  }

  // ---------------------------------------------------------------------------------------------
  // While rebuilding the ledger
  // ---------------------------------------------------------------------------------------------

  function PaidBy(t: Txid): Test {
    (o: TrackedOutput) => o.outpoint.txid == t
  }

  function KnownSpentBy(t: Txid): Test {
    (o: TrackedOutput) => o.spendingTxid == Some(t) && o.spent
  }

  /** All the transaction paid the wallet, none of it later than this height and some of it at it, is something but less
      than the nameless spends of the height; none of any nameless spend came from it; and nothing of value is
      known to be spent by it. */
  ghost predicate CouldPay(outputs: Outputs, t: Txid, h: nat) {
    && h > 0
    && (exists o :: o in outputs && o.outpoint.txid == t && o.height == h)
    && (forall o :: o in outputs && o.outpoint.txid == t ==> o.height <= h)
    && (forall o :: o in outputs && o.outpoint.txid == t ==> !(o.spent && o.spendingTxid == None))
    && 0 < Sum(outputs, PaidBy(t)) && Cap(Sum(outputs, PaidBy(t))) < Cap(Sum(outputs, Nameless(h)))
    && Sum(outputs, KnownSpentBy(t)) == 0
  }

  lemma LatestReceipt(outputs: Outputs, t: Txid, h: nat)
    requires h > 0
    ensures Highest(outputs, L.CreatedHeight(t)) == h
      <==> (exists o :: o in outputs && o.outpoint.txid == t && o.height == h) && forall o :: o in outputs && o.outpoint.txid == t ==> o.height <= h
  {
    var m := Highest(outputs, L.CreatedHeight(t));
    if o :| o in outputs && L.CreatedHeight(t)(o) == m && m > 0 {
      assert o.outpoint.txid == t && o.height == m;
    }
    forall o | o in outputs && o.outpoint.txid == t ensures o.height <= m {
      assert L.CreatedHeight(t)(o) == o.height;
    }
  }

  lemma CouldPayIs(outputs: Outputs, t: Txid, h: nat)
    ensures L.Candidate(outputs, t, h) <==> CouldPay(outputs, t, h)
  {
    SumSame(outputs, L.Created(t), PaidBy(t));
    SumSame(outputs, L.SpentBy(t), KnownSpentBy(t));
    SumSame(outputs, L.AnonymousAt(h), Nameless(h));
    if h > 0 {
      LatestReceipt(outputs, t, h);
    }
  }

  /** The nameless spends of a height are charged to the only transaction that could pay them. */
  lemma ChargeIff(outputs: Outputs, h: nat, t: Txid)
    ensures L.HeightOwner(outputs, h) == Some(t) <==> CouldPay(outputs, t, h) && forall u :: CouldPay(outputs, u, h) ==> u == t
  {
    forall u: Txid ensures L.Candidate(outputs, u, h) <==> CouldPay(outputs, u, h) {
      CouldPayIs(outputs, u, h);
    }
  }
}
