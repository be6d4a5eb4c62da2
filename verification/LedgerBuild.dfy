/** `rebuild_transfer_ledger` as the program runs it: hash maps filled by loops, visited in whatever
    order the map happens to have. The result is the declarative ledger, so no order shows. */
module LedgerBuild {
  import opened Chain
  import opened Money
  import opened Scan
  import opened Sums
  import opened Ledger

  // ---------------------------------------------------------------------------------------------
  // Aggregates per transaction id
  // ---------------------------------------------------------------------------------------------

  /** `entry(..).or_default()`. */
  function Get(m: map<Txid, Agg>, t: Txid): Agg { if t in m then m[t] else NOTHING }

  function AddCreated(a: Agg, o: TrackedOutput): Agg {
    a.(incoming := SatAdd(a.incoming, o.amount), coinbase := a.coinbase || o.coinbase, incomingHeight := Bump(a.incomingHeight, o.height))
  }

  function AddSpent(a: Agg, o: TrackedOutput): Agg {
    a.(spent := SatAdd(a.spent, o.amount), spendHeight := Bump(a.spendHeight, OrZero(o.spendingHeight)))
  }

  function AddOutput(a: Agg, o: TrackedOutput, t: Txid): Agg {
    var b := if o.outpoint.txid == t then AddCreated(a, o) else a;
    if o.spent && o.spendingTxid == Some(t) then AddSpent(b, o) else b
  }

  lemma KnownBump(m: nat, h: nat)
    ensures Known(if h > m then h else m) == Bump(Known(m), h)
  {}

  lemma MinedStep(outputs: Outputs, i: nat, t: Txid)
    requires i < |outputs|
    ensures Mined(outputs[..i + 1], t) <==> Mined(outputs[..i], t) || (outputs[i].outpoint.txid == t && outputs[i].coinbase)
  {
    var now := outputs[..i + 1];
    assert now == outputs[..i] + [outputs[i]];
    assert outputs[i] in now;
    if o :| o in outputs[..i] && o.outpoint.txid == t && o.coinbase {
      assert o in now;
    }
  }

  lemma CreatedStep(outputs: Outputs, i: nat, t: Txid)
    requires i < |outputs|
    ensures var a, b, o := Direct(outputs[..i], t), Direct(outputs[..i + 1], t), outputs[i];
      if o.outpoint.txid == t
      then b.incoming == SatAdd(a.incoming, o.amount) && b.incomingHeight == Bump(a.incomingHeight, o.height) && b.coinbase == (a.coinbase || o.coinbase)
      else b.incoming == a.incoming && b.incomingHeight == a.incomingHeight && b.coinbase == a.coinbase
  {
    SumSnoc(outputs, i, Created(t));
    HighestSnoc(outputs, i, CreatedHeight(t));
    SatAddCap(Sum(outputs[..i], Created(t)), outputs[i].amount);
    KnownBump(Highest(outputs[..i], CreatedHeight(t)), outputs[i].height);
    MinedStep(outputs, i, t);
  }

  lemma SpentStep(outputs: Outputs, i: nat, t: Txid)
    requires i < |outputs|
    ensures var a, b, o := Direct(outputs[..i], t), Direct(outputs[..i + 1], t), outputs[i];
      if o.spent && o.spendingTxid == Some(t)
      then b.spent == SatAdd(a.spent, o.amount) && b.spendHeight == Bump(a.spendHeight, OrZero(o.spendingHeight))
      else b.spent == a.spent && b.spendHeight == a.spendHeight
  {
    SumSnoc(outputs, i, SpentBy(t));
    HighestSnoc(outputs, i, SpentHeight(t));
    SatAddCap(Sum(outputs[..i], SpentBy(t)), outputs[i].amount);
    KnownBump(Highest(outputs[..i], SpentHeight(t)), OrZero(outputs[i].spendingHeight));
  }

  lemma DirectStep(outputs: Outputs, i: nat, t: Txid)
    requires i < |outputs|
    ensures Direct(outputs[..i + 1], t) == AddOutput(Direct(outputs[..i], t), outputs[i], t)
  {
    CreatedStep(outputs, i, t);
    SpentStep(outputs, i, t);
  }

  lemma TxidsStep(outputs: Outputs, i: nat, t: Txid)
    requires i < |outputs|
    ensures t in Txids(outputs[..i + 1]) <==> t in Txids(outputs[..i]) || Mentions(outputs[i], t)
  {
    assert outputs[..i + 1] == outputs[..i] + [outputs[i]];
  }

  ghost predicate Aggregated(m: map<Txid, Agg>, outputs: Outputs) {
    && (forall t :: t in m <==> t in Txids(outputs))
    && (forall t: Txid :: Get(m, t) == Direct(outputs, t))
  }

  /** The anonymous spends, in order. */
  function Loose(outputs: Outputs): Outputs {
    if outputs == [] then []
    else Loose(outputs[..|outputs|-1]) + if Anonymous(outputs[|outputs|-1]) then [outputs[|outputs|-1]] else []
  }

  lemma AggregatedStep(m: map<Txid, Agg>, outputs: Outputs, i: nat)
    requires i < |outputs| && Aggregated(m, outputs[..i])
    ensures Aggregated(Aggregating(m, outputs[i]), outputs[..i + 1])
  {
    var m' := Aggregating(m, outputs[i]);
    forall t: Txid ensures Get(m', t) == Direct(outputs[..i + 1], t) && (t in m' <==> t in Txids(outputs[..i + 1])) {
      assert Get(m, t) == Direct(outputs[..i], t);
      AggregatingAt(m, outputs[i], t);
      DirectStep(outputs, i, t);
      TxidsStep(outputs, i, t);
    }
  }

  /** The one or two entries an output touches. */
  function Aggregating(m: map<Txid, Agg>, o: TrackedOutput): map<Txid, Agg> {
    var received := m[o.outpoint.txid := AddCreated(Get(m, o.outpoint.txid), o)];
    if o.spent && o.spendingTxid.Some?
    then received[o.spendingTxid.value := AddSpent(Get(received, o.spendingTxid.value), o)]
    else received
  }

  lemma AggregatingAt(m: map<Txid, Agg>, o: TrackedOutput, t: Txid)
    ensures t in Aggregating(m, o) <==> t in m || Mentions(o, t)
    ensures Get(Aggregating(m, o), t) == AddOutput(Get(m, t), o, t)
  {}

  method Aggregate(outputs: Outputs) returns (byTxid: map<Txid, Agg>, unattributed: Outputs)
    ensures Aggregated(byTxid, outputs) && unattributed == Loose(outputs)
  {
    byTxid, unattributed := map[], [];
    EmptyAggregated();
    for i := 0 to |outputs|
      invariant Aggregated(byTxid, outputs[..i]) && unattributed == Loose(outputs[..i])
    {
      assert outputs[..i + 1][..i] == outputs[..i];
      AggregatedStep(byTxid, outputs, i);
      byTxid, unattributed := AggregateOne(byTxid, unattributed, outputs[i]);
    }
    assert outputs[..|outputs|] == outputs;
  }

  method AggregateOne(m: map<Txid, Agg>, loose: Outputs, o: TrackedOutput) returns (byTxid: map<Txid, Agg>, unattributed: Outputs)
    ensures byTxid == Aggregating(m, o) && unattributed == loose + if Anonymous(o) then [o] else []
  {
    var recv := o.outpoint.txid;
    byTxid, unattributed := m[recv := AddCreated(Get(m, recv), o)], loose;
    if o.spent {
      if o.spendingTxid.Some? {
        var spender := o.spendingTxid.value;
        byTxid := byTxid[spender := AddSpent(Get(byTxid, spender), o)];
      } else {
        unattributed := unattributed + [o];
      }
    }
  }

  lemma EmptyAggregated()
    ensures Aggregated(map[], [])
  {}

  lemma {:induction false} LooseSum(outputs: Outputs, h: nat)
    ensures Sum(Loose(outputs), AnonymousAt(h)) == Sum(outputs, AnonymousAt(h))
  {
    if outputs != [] {
      var init, last := outputs[..|outputs|-1], outputs[|outputs|-1];
      LooseSum(init, h);
      var all := Loose(outputs);
      if Anonymous(last) {
        assert all[..|all|-1] == Loose(init) && all[|all|-1] == last;
      } else {
        assert all == Loose(init);
      }
    }
  }

  lemma {:induction false} LooseMembers(outputs: Outputs, o: TrackedOutput)
    ensures o in Loose(outputs) <==> o in outputs && Anonymous(o)
  {
    if outputs != [] {
      var init, last := outputs[..|outputs|-1], outputs[|outputs|-1];
      assert outputs == init + [last];
      LooseMembers(init, o);
    }
  }

  // ---------------------------------------------------------------------------------------------
  // Anonymous spends by height, receipts by height
  // ---------------------------------------------------------------------------------------------

  ghost predicate HasSpendAt(unattributed: Outputs, h: nat) {
    h > 0 && exists o :: o in unattributed && o.spendingHeight == Some(h)
  }

  method SpentByHeight(unattributed: Outputs) returns (spent: map<nat, nat>, sources: set<Txid>)
    requires forall o :: o in unattributed ==> Anonymous(o)
    ensures forall h: nat :: h in spent <==> HasSpendAt(unattributed, h)
    ensures forall h :: h in spent ==> spent[h] == Cap(Sum(unattributed, AnonymousAt(h)))
    ensures forall t :: t in sources <==> exists o :: o in unattributed && o.outpoint.txid == t
  {
    spent, sources := map[], {};
    for i := 0 to |unattributed|
      invariant forall h: nat :: h in spent <==> HasSpendAt(unattributed[..i], h)
      invariant forall h: nat :: h > 0 ==> (if h in spent then spent[h] else 0) == Cap(Sum(unattributed[..i], AnonymousAt(h)))
      invariant forall t :: t in sources <==> exists o :: o in unattributed[..i] && o.outpoint.txid == t
    {
      var o := unattributed[i];
      assert unattributed[..i + 1] == unattributed[..i] + [o];
      assert o in unattributed;
      sources := sources + {o.outpoint.txid};
      forall h: nat {
        SpendStep(unattributed, i, h);
      }
      if o.spendingHeight.Some? && o.spendingHeight.value > 0 {
        var h := o.spendingHeight.value;
        spent := spent[h := SatAdd(if h in spent then spent[h] else 0, o.amount)];
      }
    }
    assert unattributed[..|unattributed|] == unattributed;
  }

  lemma SpendStep(unattributed: Outputs, i: nat, h: nat)
    requires i < |unattributed| && Anonymous(unattributed[i])
    ensures var o, now := unattributed[i], unattributed[..i + 1];
      && Cap(Sum(now, AnonymousAt(h))) == (if o.spendingHeight == Some(h) then SatAdd(Cap(Sum(unattributed[..i], AnonymousAt(h))), o.amount)
                                           else Cap(Sum(unattributed[..i], AnonymousAt(h))))
      && (HasSpendAt(now, h) <==> HasSpendAt(unattributed[..i], h) || (h > 0 && o.spendingHeight == Some(h)))
  {
    SumSnoc(unattributed, i, AnonymousAt(h));
    SatAddCap(Sum(unattributed[..i], AnonymousAt(h)), unattributed[i].amount);
    var now := unattributed[..i + 1];
    assert now == unattributed[..i] + [unattributed[i]];
    assert unattributed[i] in now;
    if HasSpendAt(unattributed[..i], h) {
      var o :| o in unattributed[..i] && o.spendingHeight == Some(h);
      assert o in now;
    }
  }

  predicate NoRepeat(s: seq<Txid>) { forall i, j :: 0 <= i < j < |s| ==> s[i] != s[j] }

  lemma NoRepeatSnoc(s: seq<Txid>, t: Txid)
    requires NoRepeat(s) && t !in s
    ensures NoRepeat(s + [t])
  {}

  function Listed(at: map<nat, seq<Txid>>, h: nat): seq<Txid> { if h in at then at[h] else [] }

  predicate ReceivesAt(a: Agg, h: nat) { a.incoming > 0 && h > 0 && a.incomingHeight == Some(h) }

  ghost predicate ListedBut(at: map<nat, seq<Txid>>, byTxid: map<Txid, Agg>, pending: set<Txid>) {
    && (forall h: nat :: NoRepeat(Listed(at, h)))
    && (forall h: nat, t: Txid :: t in Listed(at, h) <==> t in byTxid && t !in pending && ReceivesAt(byTxid[t], h))
  }

  lemma ListedNext(at: map<nat, seq<Txid>>, byTxid: map<Txid, Agg>, pending: set<Txid>, t: Txid, h: nat)
    requires ListedBut(at, byTxid, pending) && t in pending && t in byTxid && ReceivesAt(byTxid[t], h)
    ensures ListedBut(at[h := Listed(at, h) + [t]], byTxid, pending - {t})
  {
    var at' := at[h := Listed(at, h) + [t]];
    assert t !in Listed(at, h);
    NoRepeatSnoc(Listed(at, h), t);
    forall g: nat ensures NoRepeat(Listed(at', g)) {
      assert NoRepeat(Listed(at, g));
    }
    forall g: nat, u: Txid ensures u in Listed(at', g) <==> u in byTxid && u !in pending - {t} && ReceivesAt(byTxid[u], g) {
      assert u in Listed(at, g) <==> u in byTxid && u !in pending && ReceivesAt(byTxid[u], g);
    }
  }

  lemma ListedSkip(at: map<nat, seq<Txid>>, byTxid: map<Txid, Agg>, pending: set<Txid>, t: Txid)
    requires ListedBut(at, byTxid, pending) && t in pending && t in byTxid && forall h :: !ReceivesAt(byTxid[t], h)
    ensures ListedBut(at, byTxid, pending - {t})
  {}

  /** The receiving transactions of each height, from a map visited in any order. */
  method IncomingAtHeight(byTxid: map<Txid, Agg>) returns (at: map<nat, seq<Txid>>)
    ensures ListedBut(at, byTxid, {})
  {
    at := map[];
    var pending := byTxid.Keys;
    while pending != {}
      invariant pending <= byTxid.Keys && ListedBut(at, byTxid, pending)
    {
      var t :| t in pending;
      var a := byTxid[t];
      if a.incoming > 0 && a.incomingHeight.Some? && a.incomingHeight.value > 0 {
        var h := a.incomingHeight.value;
        ListedNext(at, byTxid, pending, t, h);
        at := at[h := Listed(at, h) + [t]];
      } else {
        ListedSkip(at, byTxid, pending, t);
      }
      pending := pending - {t};
    }
  }

  // ---------------------------------------------------------------------------------------------
  // The attribution heuristic
  // ---------------------------------------------------------------------------------------------

  /** The possible change transactions of one height, as the two filters leave them. */
  method Candidates(byTxid: map<Txid, Agg>, listed: seq<Txid>, sources: set<Txid>, spent: nat) returns (c: seq<Txid>)
    requires NoRepeat(listed)
    ensures NoRepeat(c)
    ensures forall t :: t in c <==> t in listed && t !in sources && t in byTxid && 0 < byTxid[t].incoming < spent && byTxid[t].spent == 0
  {
    c := [];
    for i := 0 to |listed|
      invariant NoRepeat(c)
      invariant forall t :: t in c <==> t in listed[..i] && t !in sources && t in byTxid && 0 < byTxid[t].incoming < spent && byTxid[t].spent == 0
    {
      var t := listed[i];
      assert listed[..i + 1] == listed[..i] + [t] && t !in listed[..i];
      if t !in sources && t in byTxid && 0 < byTxid[t].incoming < spent && byTxid[t].spent == 0 {
        NoRepeatSnoc(c, t);
        c := c + [t];
      }
    }
    assert listed[..|listed|] == listed;
  }

  /** What the aggregate of `t` is once the heights in `visited` have been attributed. */
  ghost function Attributed(outputs: Outputs, visited: set<nat>, t: Txid): Agg {
    var a := Direct(outputs, t);
    if a.incomingHeight.Some? && a.incomingHeight.value in visited then Final(outputs, t) else a
  }

  ghost predicate Progress(m: map<Txid, Agg>, outputs: Outputs, visited: set<nat>) {
    && (forall t :: t in m <==> t in Txids(outputs))
    && (forall t :: t in m ==> m[t] == Attributed(outputs, visited, t))
  }

  ghost predicate Tables(outputs: Outputs, spent: map<nat, nat>, sources: set<Txid>, at: map<nat, seq<Txid>>) {
    && (forall h :: h in spent ==> h > 0 && spent[h] == Cap(Sum(outputs, AnonymousAt(h))))
    && (forall h: nat :: h > 0 && h !in spent ==> Sum(outputs, AnonymousAt(h)) == 0)
    && (forall t: Txid :: t in sources <==> IsSource(outputs, t))
    && (forall h: nat :: NoRepeat(Listed(at, h)))
    && (forall h: nat, t: Txid :: t in Listed(at, h) <==> t in Txids(outputs) && ReceivesAt(Direct(outputs, t), h))
  }

  lemma CandidateKnown(outputs: Outputs, t: Txid, h: nat)
    requires Candidate(outputs, t, h)
    ensures t in Txids(outputs) && ReceivesAt(Direct(outputs, t), h)
  {
    SumNeedsOutput(outputs, Created(t));
    var o :| o in outputs && Created(t)(o);
    assert Mentions(o, t);
  }

  lemma CandidateIs(outputs: Outputs, t: Txid, h: nat, a: Agg, sum: nat)
    requires a == Direct(outputs, t) && sum == Cap(Sum(outputs, AnonymousAt(h)))
    ensures Candidate(outputs, t, h) <==> ReceivesAt(a, h) && !IsSource(outputs, t) && a.incoming < sum && a.spent == 0
  {}

  lemma CandidateListed(m: map<Txid, Agg>, outputs: Outputs, visited: set<nat>, spent: map<nat, nat>, sources: set<Txid>,
                        at: map<nat, seq<Txid>>, h: nat, t: Txid)
    requires Progress(m, outputs, visited) && Tables(outputs, spent, sources, at) && h in spent && h !in visited
    ensures Candidate(outputs, t, h)
      <==> t in Listed(at, h) && t !in sources && t in m && 0 < m[t].incoming < spent[h] && m[t].spent == 0
  {
    CandidateIs(outputs, t, h, Direct(outputs, t), spent[h]);
    if t in Listed(at, h) {
      assert m[t] == Attributed(outputs, visited, t) == Direct(outputs, t);
    }
    if Candidate(outputs, t, h) {
      CandidateKnown(outputs, t, h);
    }
  }

  /** At a height not visited yet the filters leave exactly the candidates. */
  lemma CandidatesAre(m: map<Txid, Agg>, outputs: Outputs, visited: set<nat>, spent: map<nat, nat>, sources: set<Txid>,
                      at: map<nat, seq<Txid>>, h: nat, c: seq<Txid>)
    requires Progress(m, outputs, visited) && Tables(outputs, spent, sources, at) && h in spent && h !in visited
    requires forall t :: t in c <==> t in Listed(at, h) && t !in sources && t in m && 0 < m[t].incoming < spent[h] && m[t].spent == 0
    ensures forall t: Txid :: t in c <==> Candidate(outputs, t, h)
  {
    forall t: Txid ensures t in c <==> Candidate(outputs, t, h) {
      CandidateListed(m, outputs, visited, spent, sources, at, h, t);
    }
  }

  lemma OwnerFinal(m: map<Txid, Agg>, outputs: Outputs, visited: set<nat>, h: nat, t: Txid, sum: nat)
    requires Progress(m, outputs, visited) && h !in visited && OnlyCandidate(outputs, t, h)
    requires sum == Cap(Sum(outputs, AnonymousAt(h)))
    ensures t in m && m[t].(spent := SatAdd(m[t].spent, sum), spendHeight := Bump(m[t].spendHeight, h)) == Final(outputs, t)
  {
    CandidateKnown(outputs, t, h);
    assert m[t] == Attributed(outputs, visited, t) == Direct(outputs, t);
  }

  lemma VisitedAt(outputs: Outputs, visited: set<nat>, wider: set<nat>, h: nat, t: Txid)
    requires wider == visited + {h} && h !in visited
    ensures Attributed(outputs, wider, t) == if OnlyCandidate(outputs, t, h) then Final(outputs, t) else Attributed(outputs, visited, t)
  {}

  lemma Visited(m: map<Txid, Agg>, m': map<Txid, Agg>, outputs: Outputs, visited: set<nat>, h: nat)
    requires Progress(m, outputs, visited) && h !in visited
    requires forall t :: t in m' <==> t in m
    requires forall t :: t in m && OnlyCandidate(outputs, t, h) ==> m'[t] == Final(outputs, t)
    requires forall t :: t in m && !OnlyCandidate(outputs, t, h) ==> m'[t] == m[t]
    ensures Progress(m', outputs, visited + {h})
  {
    var wider := visited + {h};
    forall t | t in m' ensures m'[t] == Attributed(outputs, wider, t) {
      assert m[t] == Attributed(outputs, visited, t);
      VisitedAt(outputs, visited, wider, h, t);
    }
  }

  lemma OnlyOne(outputs: Outputs, c: seq<Txid>, h: nat)
    requires NoRepeat(c) && forall t: Txid :: t in c <==> Candidate(outputs, t, h)
    ensures |c| == 1 ==> forall t :: OnlyCandidate(outputs, t, h) <==> t == c[0]
    ensures |c| != 1 ==> forall t :: !OnlyCandidate(outputs, t, h)
  {
    if |c| == 1 {
      assert c[0] in c;
    } else if |c| > 1 {
      assert c[0] in c && c[1] in c;
    }
  }

  method AttributeHeight(outputs: Outputs, m: map<Txid, Agg>, spent: map<nat, nat>, sources: set<Txid>, at: map<nat, seq<Txid>>,
                         ghost visited: set<nat>, h: nat) returns (m': map<Txid, Agg>)
    requires Progress(m, outputs, visited) && Tables(outputs, spent, sources, at) && h in spent && h !in visited
    ensures Progress(m', outputs, visited + {h})
  {
    var c := Candidates(m, Listed(at, h), sources, spent[h]);
    CandidatesAre(m, outputs, visited, spent, sources, at, h, c);
    OnlyOne(outputs, c, h);
    m' := m;
    if |c| == 1 {
      var t := c[0];
      OwnerFinal(m, outputs, visited, h, t, spent[h]);
      m' := m[t := m[t].(spent := SatAdd(m[t].spent, spent[h]), spendHeight := Bump(m[t].spendHeight, h))];
    }
    Visited(m, m', outputs, visited, h);
  }

  /** Heights are visited in any order; each changes at most one transaction, and no transaction twice. */
  method AttributeByHeight(outputs: Outputs, byTxid: map<Txid, Agg>, spent: map<nat, nat>, sources: set<Txid>, at: map<nat, seq<Txid>>)
    returns (m: map<Txid, Agg>)
    requires Aggregated(byTxid, outputs) && Tables(outputs, spent, sources, at)
    ensures Progress(m, outputs, spent.Keys)
  {
    m := byTxid;
    var pending := spent.Keys;
    ghost var visited: set<nat> := {};
    NothingVisited(m, outputs);
    while pending != {}
      invariant pending <= spent.Keys && visited == spent.Keys - pending
      invariant Progress(m, outputs, visited)
      decreases pending
    {
      var h :| h in pending;
      m := AttributeHeight(outputs, m, spent, sources, at, visited, h);
      pending, visited := pending - {h}, visited + {h};
    }
    assert visited == spent.Keys;
  }

  lemma NothingVisited(m: map<Txid, Agg>, outputs: Outputs)
    requires Aggregated(m, outputs)
    ensures Progress(m, outputs, {})
  {
    assert forall t :: t in m ==> m[t] == Get(m, t);
  }

  lemma AllVisited(m: map<Txid, Agg>, outputs: Outputs, spent: map<nat, nat>)
    requires Progress(m, outputs, spent.Keys)
    requires forall h: nat :: h > 0 && h !in spent ==> Sum(outputs, AnonymousAt(h)) == 0
    ensures forall t :: t in m ==> m[t] == Final(outputs, t)
  {
    forall t | t in m ensures m[t] == Final(outputs, t) {
      var a := Direct(outputs, t);
      assert m[t] == Attributed(outputs, spent.Keys, t);
      if a.incomingHeight.Some? && a.incomingHeight.value !in spent {
        assert !Candidate(outputs, t, a.incomingHeight.value);
      }
    }
  }

  // ---------------------------------------------------------------------------------------------
  // Rows
  // ---------------------------------------------------------------------------------------------

  function RowsIn(m: map<Txid, Agg>, fees: map<Txid, nat>, stamps: map<nat, nat>): Txid -> Option<Entry> {
    (t: Txid) => if t in m then Row(m[t], Lookup(fees, t), stamps) else None
  }

  method WriteRows(m: map<Txid, Agg>, fees: map<Txid, nat>, stamps: map<nat, nat>) returns (book: Book)
    ensures book == Collect(m.Keys, RowsIn(m, fees, stamps))
  {
    book := map[];
    var pending := m.Keys;
    ghost var written: set<Txid> := {};
    while pending != {}
      invariant pending <= m.Keys && written == m.Keys - pending
      invariant book == Collect(written, RowsIn(m, fees, stamps))
      decreases pending
    {
      var t :| t in pending;
      CollectNext(written, RowsIn(m, fees, stamps), t);
      pending, written := pending - {t}, written + {t};
      var row := Row(m[t], Lookup(fees, t), stamps);
      if row.Some? {
        book := book[t := row.value];
      }
    }
    assert written == m.Keys;
  }

  lemma CollectNext(keys: set<Txid>, row: Txid -> Option<Entry>, t: Txid)
    requires t !in keys
    ensures Collect(keys + {t}, row) == if row(t).Some? then Collect(keys, row)[t := row(t).value] else Collect(keys, row)
  {}

  lemma RowsAreBase(outputs: Outputs, m: map<Txid, Agg>, fees: map<Txid, nat>, stamps: map<nat, nat>)
    requires forall t :: t in m <==> t in Txids(outputs)
    requires forall t :: t in m ==> m[t] == Final(outputs, t)
    ensures Collect(m.Keys, RowsIn(m, fees, stamps)) == Base(outputs, fees, stamps)
  {
    assert m.Keys == Txids(outputs);
    CollectSame(m.Keys, RowsIn(m, fees, stamps), Rows(outputs, fees, stamps));
  }

  /** The whole rebuild. */
  method RebuildTransferLedger(outputs: Outputs, pending: seq<Pending>, fees: map<Txid, nat>, chainTime: nat, stamps: map<nat, nat>)
    returns (book: Book)
    ensures book == Rebuilt(outputs, pending, fees, chainTime, stamps)
  {
    var m, unattributed := Aggregate(outputs);
    m := AttributeAnonymous(outputs, m, unattributed);
    book := WriteRows(m, fees, stamps);
    RowsAreBase(outputs, m, fees, stamps);
    book := FoldPending(book, pending, chainTime);
  }

  method FoldPending(rows: Book, pending: seq<Pending>, chainTime: nat) returns (book: Book)
    ensures book == Fold(rows, pending, chainTime)
  {
    book := rows;
    for i := 0 to |pending|
      invariant book == Fold(rows, pending[..i], chainTime)
    {
      assert pending[..i + 1][..i] == pending[..i];
      var p := pending[i];
      book := book[p.txid := Record(Lookup(book, p.txid), p, chainTime)];
    }
    assert pending[..|pending|] == pending;
  }

  lemma TablesFromLoose(outputs: Outputs, m: map<Txid, Agg>, spent: map<nat, nat>, sources: set<Txid>, at: map<nat, seq<Txid>>)
    requires Aggregated(m, outputs)
    requires forall h: nat :: h in spent <==> HasSpendAt(Loose(outputs), h)
    requires forall h :: h in spent ==> spent[h] == Cap(Sum(Loose(outputs), AnonymousAt(h)))
    requires forall t :: t in sources <==> exists o :: o in Loose(outputs) && o.outpoint.txid == t
    requires ListedBut(at, m, {})
    ensures Tables(outputs, spent, sources, at)
  {
    forall o ensures o in Loose(outputs) <==> o in outputs && Anonymous(o) {
      LooseMembers(outputs, o);
    }
    forall h: nat ensures Sum(Loose(outputs), AnonymousAt(h)) == Sum(outputs, AnonymousAt(h)) {
      LooseSum(outputs, h);
    }
    forall h: nat | h > 0 && h !in spent ensures Sum(outputs, AnonymousAt(h)) == 0 {
      SumNeedsOutput(outputs, AnonymousAt(h));
    }
    forall t: Txid | t in m ensures m[t] == Direct(outputs, t) {
      assert Get(m, t) == Direct(outputs, t);
    }
  }

  method AttributeAnonymous(outputs: Outputs, byTxid: map<Txid, Agg>, unattributed: Outputs) returns (m: map<Txid, Agg>)
    requires Aggregated(byTxid, outputs) && unattributed == Loose(outputs)
    ensures forall t :: t in m <==> t in Txids(outputs)
    ensures forall t :: t in m ==> m[t] == Final(outputs, t)
  {
    if unattributed == [] {
      m := byTxid;
      NothingLoose(outputs, m);
      return;
    }
    forall o | o in unattributed ensures Anonymous(o) {
      LooseMembers(outputs, o);
    }
    var spent, sources := SpentByHeight(unattributed);
    var at := IncomingAtHeight(byTxid);
    TablesFromLoose(outputs, byTxid, spent, sources, at);
    m := AttributeByHeight(outputs, byTxid, spent, sources, at);
    AllVisited(m, outputs, spent);
  }

  lemma NothingLoose(outputs: Outputs, m: map<Txid, Agg>)
    requires Aggregated(m, outputs) && Loose(outputs) == []
    ensures forall t :: t in m ==> m[t] == Final(outputs, t)
  {
    forall t | t in m ensures m[t] == Final(outputs, t) {
      assert Get(m, t) == Direct(outputs, t);
      var height := Direct(outputs, t).incomingHeight;
      if height.Some? {
        LooseSum(outputs, height.value);
        assert !Candidate(outputs, t, height.value);
      }
    }
  }
}
