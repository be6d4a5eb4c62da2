/** The transfer ledger, said declaratively: one row per transaction id, read off the tracked outputs,
    with the pending local sends folded in. LedgerBuild rebuilds it with loops and hash maps. */
module Ledger {
  import opened Chain
  import opened Money
  import opened Scan
  import opened Sums

  datatype Entry = Entry(out: bool, amount: nat, fee: Option<nat>, height: Option<nat>, timestamp: Option<nat>,
                         pending: bool, coinbase: bool)

  type Book = map<Txid, Entry>

  datatype Pending = Pending(txid: Txid, amount: nat, fee: nat, createdAt: nat)

  /** What the outputs say about one transaction id; amounts saturate, height 0 means unknown. */
  datatype Agg = Agg(incoming: nat, incomingHeight: Option<nat>, coinbase: bool, spent: nat, spendHeight: Option<nat>)

  const NOTHING := Agg(0, None, false, 0, None)

  function Known(height: nat): Option<nat> { if height == 0 then None else Some(height) }

  function OrZero(height: Option<nat>): nat { match height case None => 0 case Some(h) => h }

  /** `bump_height`. */
  function Bump(slot: Option<nat>, height: nat): Option<nat> {
    if height == 0 then slot else Some(if height > OrZero(slot) then height else OrZero(slot))
  }

  predicate Anonymous(o: TrackedOutput) { o.spent && o.spendingTxid == None }

  function Created(t: Txid): Test { (o: TrackedOutput) => o.outpoint.txid == t }

  function SpentBy(t: Txid): Test { (o: TrackedOutput) => o.spent && o.spendingTxid == Some(t) }

  function AnonymousAt(h: nat): Test { (o: TrackedOutput) => Anonymous(o) && o.spendingHeight == Some(h) }

  function CreatedHeight(t: Txid): Measure { (o: TrackedOutput) => if o.outpoint.txid == t then o.height else 0 }

  function SpentHeight(t: Txid): Measure {
    (o: TrackedOutput) => if o.spent && o.spendingTxid == Some(t) then OrZero(o.spendingHeight) else 0
  }

  predicate Mined(outputs: Outputs, t: Txid) {
    exists o :: o in outputs && o.outpoint.txid == t && o.coinbase
  }

  predicate Mentions(o: TrackedOutput, t: Txid) {
    o.outpoint.txid == t || (o.spent && o.spendingTxid == Some(t))
  }

  /** Every transaction id that creates or, as far as known, spends a tracked output. */
  function Txids(outputs: Outputs): (r: set<Txid>)
    ensures forall t :: t in r <==> exists o :: o in outputs && Mentions(o, t)
  {
    var created := set o | o in outputs :: o.outpoint.txid;
    var spending := set o | o in outputs && o.spent && o.spendingTxid.Some? :: o.spendingTxid.value;
    created + spending
  }

  /** Receipts and directly attributed spends. */
  function Direct(outputs: Outputs, t: Txid): Agg {
    Agg(Cap(Sum(outputs, Created(t))), Known(Highest(outputs, CreatedHeight(t))), Mined(outputs, t),
        Cap(Sum(outputs, SpentBy(t))), Known(Highest(outputs, SpentHeight(t))))
  }

  predicate IsSource(outputs: Outputs, t: Txid) {
    exists o :: o in outputs && Anonymous(o) && o.outpoint.txid == t
  }

  /** A transaction that could be the change of the spends seen at `h` without a transaction id. */
  predicate Candidate(outputs: Outputs, t: Txid, h: nat) {
    var a := Direct(outputs, t);
    && h > 0 && a.incomingHeight == Some(h) && !IsSource(outputs, t)
    && 0 < a.incoming < Cap(Sum(outputs, AnonymousAt(h))) && a.spent == 0
  }

  ghost predicate OnlyCandidate(outputs: Outputs, t: Txid, h: nat) {
    Candidate(outputs, t, h) && forall u :: Candidate(outputs, u, h) ==> u == t
  }

  /** With the anonymous spends of a height given to its only candidate. */
  ghost function Final(outputs: Outputs, t: Txid): Agg {
    var a := Direct(outputs, t);
    if a.incomingHeight.Some? && OnlyCandidate(outputs, t, a.incomingHeight.value) then
      var h := a.incomingHeight.value;
      a.(spent := SatAdd(a.spent, Cap(Sum(outputs, AnonymousAt(h)))), spendHeight := Bump(a.spendHeight, h))
    else a
  }

  function StampFor(height: Option<nat>, stamps: map<nat, nat>): Option<nat> {
    if height.Some? && height.value > 0 && height.value in stamps && stamps[height.value] > 0
    then Some(stamps[height.value]) else None
  }

  function Lookup<V>(m: map<Txid, V>, t: Txid): Option<V> {
    if t in m then Some(m[t]) else None
  }

  function Row(a: Agg, fee: Option<nat>, stamps: map<nat, nat>): Option<Entry> {
    if a.spent > 0 then
      var height := if a.spendHeight.Some? then a.spendHeight else a.incomingHeight;
      Some(Entry(true, SatSub(a.spent, a.incoming), fee, height, StampFor(height, stamps), false, false))
    else if a.incoming > 0 then
      Some(Entry(false, a.incoming, fee, a.incomingHeight, StampFor(a.incomingHeight, stamps), false, a.coinbase))
    else None
  }

  ghost function Rows(outputs: Outputs, fees: map<Txid, nat>, stamps: map<nat, nat>): Txid -> Option<Entry> {
    (t: Txid) => Row(Final(outputs, t), Lookup(fees, t), stamps)
  }

  function Collect(keys: set<Txid>, row: Txid -> Option<Entry>): Book {
    map t | t in keys && row(t).Some? :: row(t).value
  }

  /** The rows the outputs alone give. */
  ghost function Base(outputs: Outputs, fees: map<Txid, nat>, stamps: map<nat, nat>): Book {
    Collect(Txids(outputs), Rows(outputs, fees, stamps))
  }

  function PendingFee(p: Pending): Option<nat> { if p.fee > 0 then Some(p.fee) else None }

  /** What a pending send makes of the row of its transaction: payment plus fee, outgoing. */
  function Record(row: Option<Entry>, p: Pending, chainTime: nat): Entry {
    match row
    case Some(e) =>
      if e.out then e.(amount := SatAdd(p.amount, p.fee), fee := if e.fee.Some? then e.fee else PendingFee(p))
      else e.(out := true, amount := SatAdd(p.amount, p.fee), fee := PendingFee(p), pending := e.height == None, coinbase := false)
    case None =>
      Entry(true, SatAdd(p.amount, p.fee), PendingFee(p), None,
            if p.createdAt > 0 then Some(p.createdAt) else if chainTime > 0 then Some(chainTime) else None, true, false)
  }

  function Fold(book: Book, pending: seq<Pending>, chainTime: nat): Book {
    if pending == [] then book
    else
      var before, p := Fold(book, pending[..|pending|-1], chainTime), pending[|pending|-1];
      before[p.txid := Record(Lookup(before, p.txid), p, chainTime)]
  }

  ghost function Rebuilt(outputs: Outputs, pending: seq<Pending>, fees: map<Txid, nat>, chainTime: nat, stamps: map<nat, nat>): Book {
    Fold(Base(outputs, fees, stamps), pending, chainTime)
  }

  // ---------------------------------------------------------------------------------------------
  // Order independence
  // ---------------------------------------------------------------------------------------------

  lemma SameMembers(a: Outputs, b: Outputs)
    requires multiset(a) == multiset(b)
    ensures forall o :: o in a <==> o in b
  {
    forall o ensures o in a <==> o in b {
      assert o in a <==> o in multiset(a);
    }
  }

  lemma DirectPermuted(a: Outputs, b: Outputs, t: Txid)
    requires multiset(a) == multiset(b)
    ensures Direct(a, t) == Direct(b, t) && IsSource(a, t) == IsSource(b, t)
  {
    SameMembers(a, b);
    SumPermuted(a, b, Created(t));
    SumPermuted(a, b, SpentBy(t));
    HighestPermuted(a, b, CreatedHeight(t));
    HighestPermuted(a, b, SpentHeight(t));
    assert Mined(a, t) == Mined(b, t);
  }

  lemma CandidatePermuted(a: Outputs, b: Outputs, t: Txid, h: nat)
    requires multiset(a) == multiset(b)
    ensures Candidate(a, t, h) == Candidate(b, t, h)
  {
    DirectPermuted(a, b, t);
    SumPermuted(a, b, AnonymousAt(h));
  }

  lemma FinalPermuted(a: Outputs, b: Outputs, t: Txid)
    requires multiset(a) == multiset(b)
    ensures Final(a, t) == Final(b, t)
  {
    DirectPermuted(a, b, t);
    var height := Direct(a, t).incomingHeight;
    if height.Some? {
      var h := height.value;
      forall u ensures Candidate(a, u, h) == Candidate(b, u, h) {
        CandidatePermuted(a, b, u, h);
      }
      SumPermuted(a, b, AnonymousAt(h));
    }
  }

  lemma CollectSame(keys: set<Txid>, f: Txid -> Option<Entry>, g: Txid -> Option<Entry>)
    requires forall t :: t in keys ==> f(t) == g(t)
    ensures Collect(keys, f) == Collect(keys, g)
  {}

  lemma BasePermuted(a: Outputs, b: Outputs, fees: map<Txid, nat>, stamps: map<nat, nat>)
    requires multiset(a) == multiset(b)
    ensures Base(a, fees, stamps) == Base(b, fees, stamps)
  {
    SameMembers(a, b);
    assert Txids(a) == Txids(b);
    var f, g := Rows(a, fees, stamps), Rows(b, fees, stamps);
    forall t ensures f(t) == g(t) {
      FinalPermuted(a, b, t);
    }
    CollectSame(Txids(a), f, g);
  }

  /** The ledger depends on the tracked outputs as a multiset only. */
  lemma OrderDoesNotMatter(a: Outputs, b: Outputs, pending: seq<Pending>, fees: map<Txid, nat>, chainTime: nat, stamps: map<nat, nat>)
    requires multiset(a) == multiset(b)
    ensures Rebuilt(a, pending, fees, chainTime, stamps) == Rebuilt(b, pending, fees, chainTime, stamps)
  {
    BasePermuted(a, b, fees, stamps);
  }

  // ---------------------------------------------------------------------------------------------
  // Conservation
  // ---------------------------------------------------------------------------------------------

  /** Who pays the anonymous spends of a height. */
  ghost function HeightOwner(outputs: Outputs, h: nat): (owner: Option<Txid>)
    ensures forall t: Txid :: owner == Some(t) <==> OnlyCandidate(outputs, t, h)
  {
    if t :| OnlyCandidate(outputs, t, h) then Some(t) else None
  }

  /** The transaction an output counts as spent by. */
  ghost function Effective(outputs: Outputs): Owner {
    (o: TrackedOutput) =>
      if !o.spent then None
      else if o.spendingTxid.Some? then o.spendingTxid
      else if o.spendingHeight.Some? then HeightOwner(outputs, o.spendingHeight.value)
      else None
  }

  function Creator(): Owner { (o: TrackedOutput) => Some(o.outpoint.txid) }

  function Unspent(): Test { (o: TrackedOutput) => !o.spent }

  /** Spends without a transaction id whose height is unknown or has no unique candidate. */
  ghost function Orphaned(outputs: Outputs): Test {
    (o: TrackedOutput) => Anonymous(o) && (o.spendingHeight == None || HeightOwner(outputs, o.spendingHeight.value) == None)
  }

  function SignedAmount(e: Entry): int { if e.out then 0 - e.amount else e.amount }

  function Signed(book: Book): Txid -> int {
    (t: Txid) => if t in book then SignedAmount(book[t]) else 0
  }

  /** Incoming rows minus outgoing rows. */
  ghost function Balance(book: Book): int { SetSum(book.Keys, Signed(book)) }

  /** How much more a spending transaction returns than it is known to consume. */
  ghost function Shortfall(outputs: Outputs): Txid -> int {
    (t: Txid) => ShortfallOf(Final(outputs, t))
  }

  lemma FinalSpent(outputs: Outputs, t: Txid)
    requires Sum(outputs, Every()) <= MAX_U64
    ensures Final(outputs, t).spent == Sum(outputs, OwnedBy(Effective(outputs), t))
    ensures Final(outputs, t).incoming == Sum(outputs, Created(t))
  {
    SumWithin(outputs, Created(t), Every());
    SumWithin(outputs, SpentBy(t), Every());
    SumWithin(outputs, OwnedBy(Effective(outputs), t), Every());
    var a := Direct(outputs, t);
    if a.incomingHeight.Some? && OnlyCandidate(outputs, t, a.incomingHeight.value) {
      var h := a.incomingHeight.value;
      SumWithin(outputs, AnonymousAt(h), Every());
      SumSplit(outputs, SpentBy(t), AnonymousAt(h), OwnedBy(Effective(outputs), t));
    } else {
      SumSame(outputs, SpentBy(t), OwnedBy(Effective(outputs), t));
    }
  }

  lemma {:induction false} SumNeedsOutput(outputs: Outputs, p: Test)
    ensures Sum(outputs, p) > 0 ==> exists o :: o in outputs && p(o)
  {
    if forall o :: o in outputs ==> !p(o) {
      SumNone(outputs, p);
    }
  }

  lemma EffectiveKnown(outputs: Outputs)
    ensures forall o :: o in outputs && Effective(outputs)(o).Some? ==> Effective(outputs)(o).value in Txids(outputs)
  {
    forall o | o in outputs && Effective(outputs)(o).Some? ensures Effective(outputs)(o).value in Txids(outputs) {
      var t := Effective(outputs)(o).value;
      if o.spendingTxid.Some? {
        assert Mentions(o, t);
      } else {
        assert OnlyCandidate(outputs, t, o.spendingHeight.value);
        SumNeedsOutput(outputs, Created(t));
        var q :| q in outputs && Created(t)(q);
        assert Mentions(q, t);
      }
    }
  }

  function Received(outputs: Outputs): Txid -> int { OwnedSums(outputs, Creator()) }

  ghost function Paid(outputs: Outputs): Txid -> int { OwnedSums(outputs, Effective(outputs)) }

  function ShortfallOf(a: Agg): int { if 0 < a.spent < a.incoming then a.incoming - a.spent else 0 }

  lemma RowSigned(a: Agg, fee: Option<nat>, stamps: map<nat, nat>)
    ensures a.incoming == (match Row(a, fee, stamps) case None => 0 case Some(e) => SignedAmount(e)) + ShortfallOf(a) + a.spent
  {}

  lemma RowBalance(outputs: Outputs, fees: map<Txid, nat>, stamps: map<nat, nat>, t: Txid)
    requires Sum(outputs, Every()) <= MAX_U64 && t in Txids(outputs)
    ensures Received(outputs)(t) == Signed(Base(outputs, fees, stamps))(t) + Shortfall(outputs)(t) + Paid(outputs)(t)
  {
    var a := Final(outputs, t);
    FinalSpent(outputs, t);
    SumSame(outputs, OwnedBy(Creator(), t), Created(t));
    RowSigned(a, Lookup(fees, t), stamps);
    var book := Base(outputs, fees, stamps);
    assert t in book <==> Rows(outputs, fees, stamps)(t).Some?;
  }

  function Plus(f: Txid -> int, g: Txid -> int): Txid -> int { (t: Txid) => f(t) + g(t) }

  /** Conservation: what came in minus what went out is what is unspent plus the spends nobody could be
      charged with, less what spending transactions return beyond what they are known to consume. */
  lemma Conservation(outputs: Outputs, fees: map<Txid, nat>, chainTime: nat, stamps: map<nat, nat>)
    requires Sum(outputs, Every()) <= MAX_U64
    ensures Balance(Rebuilt(outputs, [], fees, chainTime, stamps))
         == Sum(outputs, Unspent()) + Sum(outputs, Orphaned(outputs)) - SetSum(Txids(outputs), Shortfall(outputs))
  {
    var keys, book := Txids(outputs), Base(outputs, fees, stamps);
    var known := Plus(Signed(book), Shortfall(outputs));
    forall t | t in keys ensures Received(outputs)(t) == known(t) + Paid(outputs)(t) {
      RowBalance(outputs, fees, stamps, t);
    }
    SetSumAdds(keys, known, Paid(outputs), Received(outputs));
    SetSumAdds(keys, Signed(book), Shortfall(outputs), known);
    SetSumWithin(book.Keys, keys, Signed(book));
    EffectiveKnown(outputs);
    SumByOwner(outputs, Effective(outputs), keys);
    SumByOwner(outputs, Creator(), keys);
    SumSame(outputs, HasOwner(Creator()), Every());
    Unowned(outputs);
  }

  function Not(p: Test): Test { (o: TrackedOutput) => !p(o) }

  lemma Unowned(outputs: Outputs)
    ensures Sum(outputs, Every())
         == Sum(outputs, HasOwner(Effective(outputs))) + Sum(outputs, Unspent()) + Sum(outputs, Orphaned(outputs))
  {
    var owned := HasOwner(Effective(outputs));
    SumSplit(outputs, owned, Not(owned), Every());
    SumSplit(outputs, Unspent(), Orphaned(outputs), Not(owned));
  }

  predicate Pays(a: Agg) { a.spent == 0 || a.incoming <= a.spent }

  /** No spending transaction returns more than it consumes. */
  ghost predicate SpendersPay(outputs: Outputs) {
    forall t :: t in Txids(outputs) ==> Pays(Final(outputs, t))
  }

  lemma PaysIff(outputs: Outputs, t: Txid)
    ensures Shortfall(outputs)(t) == 0 <==> Pays(Final(outputs, t))
  {}

  lemma ShortfallNone(outputs: Outputs, keys: set<Txid>, f: Txid -> int)
    requires keys == Txids(outputs) && f == Shortfall(outputs)
    ensures SetSum(keys, f) == 0 <==> SpendersPay(outputs)
  {
    forall t: Txid ensures f(t) >= 0 && (f(t) == 0 <==> Pays(Final(outputs, t))) {
      PaysIff(outputs, t);
    }
    SetSumPositive(keys, f);
  }

  /** The books balance exactly when every spending transaction consumes at least what it returns. */
  lemma BalancedIff(outputs: Outputs, fees: map<Txid, nat>, chainTime: nat, stamps: map<nat, nat>)
    requires Sum(outputs, Every()) <= MAX_U64
    ensures Balance(Rebuilt(outputs, [], fees, chainTime, stamps)) == Sum(outputs, Unspent()) + Sum(outputs, Orphaned(outputs))
       <==> SpendersPay(outputs)
  {
    Conservation(outputs, fees, chainTime, stamps);
    ShortfallNone(outputs, Txids(outputs), Shortfall(outputs));
  }
}
