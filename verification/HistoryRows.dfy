/** What a history query lists, told from the tracked outputs and the pending sends behind the ledger. */
module HistoryRows {
  import opened Chain
  import opened Scan
  import opened Ledger
  import H = History
  import LR = LedgerRows
  import T = Settling

  ghost predicate Sent(pending: seq<Pending>, t: Txid) {
    exists p :: p in pending && p.txid == t
  }

  /** No block is known to hold it: nothing counts as spent by it, and what it paid the wallet has no height. */
  ghost predicate Unconfirmed(outputs: Outputs, t: Txid) {
    !LR.Spends(outputs, t) && (LR.Receives(outputs, t) ==> forall o :: LR.From(outputs, o, t) ==> o.height == 0)
  }

  /** The transactions a filter is about. */
  ghost predicate Listed(outputs: Outputs, pending: seq<Pending>, filter: H.Filter, t: Txid) {
    match filter
    case All => Sent(pending, t) || LR.Spends(outputs, t) || LR.Receives(outputs, t)
    case Sent => Sent(pending, t) || LR.Spends(outputs, t)
    case Received => !Sent(pending, t) && !LR.Spends(outputs, t) && LR.Receives(outputs, t)
    case PendingOnly => Sent(pending, t) && Unconfirmed(outputs, t)
  }

  ghost predicate InRange(time: Option<nat>, from: Option<nat>, to: Option<nat>) {
    (from == None && to == None) || exists s: nat :: time == Some(s) && (from.Some? ==> from.value <= s) && (to.Some? ==> s <= to.value)
  }

  lemma HasRecords(pending: seq<Pending>, t: Txid)
    ensures T.Mine(pending, t) != [] <==> Sent(pending, t)
  {
    T.MineIs(pending, t);
    if T.Mine(pending, t) != [] {
      assert T.Mine(pending, t)[0] in T.Mine(pending, t);
    }
  }

  lemma ReceivedKnownIff(outputs: Outputs, t: Txid, h: Option<nat>)
    requires LR.ReceivedAt(outputs, t, h)
    ensures h == None <==> forall o :: LR.From(outputs, o, t) ==> o.height == 0
  {}

  lemma HeightKnownIff(outputs: Outputs, t: Txid, h: Option<nat>)
    requires LR.HeightOf(outputs, t, false, h)
    ensures h == None <==> forall o :: LR.From(outputs, o, t) ==> o.height == 0
  {
    var spent: Option<nat>, received: Option<nat> :| LR.SpentAt(outputs, t, spent) && LR.ReceivedAt(outputs, t, received) && h == received;
    ReceivedKnownIff(outputs, t, received);
  }

  /** Whether a filter lets a row through. */
  predicate Passes(filter: H.Filter, e: Entry) {
    match filter case All => true case Sent => e.out case Received => !e.out case PendingOnly => e.pending
  }

  lemma RowCases(base: Option<Entry>, e: Option<Entry>, ps: seq<Pending>, chainTime: nat, spends: bool, receives: bool, unknown: bool)
    requires base.Some? <==> spends || receives
    requires base.Some? ==> (base.value.out <==> spends) && !base.value.pending && (!spends ==> (base.value.height == None <==> unknown))
    requires ps == [] ==> e == base
    requires ps != [] ==> e.Some? && T.SentRow(base, ps, chainTime, e.value)
    ensures e.Some? <==> ps != [] || spends || receives
    ensures e.Some? && e.value.out <==> ps != [] || spends
    ensures e.Some? && e.value.pending <==> ps != [] && !spends && (receives ==> unknown)
  {}

  lemma BaseTold(outputs: Outputs, fees: map<Txid, nat>, chainTime: nat, stamps: map<nat, nat>, t: Txid, base: Option<Entry>)
    requires base == Lookup(Rebuilt(outputs, [], fees, chainTime, stamps), t)
    ensures base.Some? <==> LR.Spends(outputs, t) || LR.Receives(outputs, t)
    ensures base.Some? ==> (base.value.out <==> LR.Spends(outputs, t)) && !base.value.pending
    ensures base.Some? && !LR.Spends(outputs, t) ==> (base.value.height == None <==> forall o :: LR.From(outputs, o, t) ==> o.height == 0)
  {
    LR.RowsTold(outputs, fees, chainTime, stamps, t);
    if base.Some? && !base.value.out {
      HeightKnownIff(outputs, t, base.value.height);
    }
  }

  /** The row of a transaction, as the filters see it. */
  lemma RowListed(outputs: Outputs, pending: seq<Pending>, fees: map<Txid, nat>, chainTime: nat, stamps: map<nat, nat>, t: Txid,
                  e: Option<Entry>, filter: H.Filter)
    requires e == Lookup(Rebuilt(outputs, pending, fees, chainTime, stamps), t)
    ensures e.Some? && Passes(filter, e.value) <==> Listed(outputs, pending, filter, t)
  {
    var base, ps := Lookup(Rebuilt(outputs, [], fees, chainTime, stamps), t), T.Mine(pending, t);
    BaseTold(outputs, fees, chainTime, stamps, t, base);
    T.SentRowsTold(outputs, pending, fees, chainTime, stamps, t);
    HasRecords(pending, t);
    RowCases(base, e, ps, chainTime, LR.Spends(outputs, t), LR.Receives(outputs, t), forall o :: LR.From(outputs, o, t) ==> o.height == 0);
  }

  lemma MatchIs(book: Book, q: H.Query, t: Txid, e: Entry)
    requires t in book && book[t] == e
    ensures H.Matches(book, q, t) <==>
      Passes(q.filter, e) && q.search(t) && (q.txid == None || q.txid == Some(t)) && InRange(e.timestamp, q.from, q.to)
  {}

  /** Following a query from its first page: exactly the transactions the filter is about that pass the search, the id
      and the time range - each once, in the one order. */
  lemma HistoryTold(index: H.Index, q: H.Query, outputs: Outputs, pending: seq<Pending>, fees: map<Txid, nat>, chainTime: nat,
                    stamps: map<nat, nat>, t: Txid)
    requires index.book == Rebuilt(outputs, pending, fees, chainTime, stamps) && H.IsOrder(index.ordered, index.book)
    requires q.limit > 0 && q.anchor == None
    ensures t in H.Walk(index, q, 0) <==>
      && Listed(outputs, pending, q.filter, t) && q.search(t) && (q.txid == None || q.txid == Some(t))
      && t in index.book && InRange(index.book[t].timestamp, q.from, q.to)
  {
    H.PagesTileTheRows(index, q);
    RowListed(outputs, pending, fees, chainTime, stamps, t, Lookup(index.book, t), q.filter);
    if t in index.book {
      MatchIs(index.book, q, t, index.book[t]);
    }
  }
}
