/** Sums over the tracked outputs and over sets of transaction ids. */
module Sums {
  import opened Chain
  import opened Scan

  type Test = TrackedOutput -> bool

  function Sum(outputs: Outputs, p: Test): nat {
    if outputs == [] then 0
    else Sum(outputs[..|outputs|-1], p) + if p(outputs[|outputs|-1]) then outputs[|outputs|-1].amount else 0
  }

  function Every(): Test { (o: TrackedOutput) => true }

  lemma SumSnoc(outputs: Outputs, i: nat, p: Test)
    requires i < |outputs|
    ensures Sum(outputs[..i + 1], p) == Sum(outputs[..i], p) + if p(outputs[i]) then outputs[i].amount else 0
  {
    assert outputs[..i + 1][..i] == outputs[..i];
  }

  lemma {:induction false} SumSame(outputs: Outputs, p: Test, q: Test)
    requires forall o :: o in outputs ==> p(o) == q(o)
    ensures Sum(outputs, p) == Sum(outputs, q)
  {
    if outputs != [] {
      assert outputs[|outputs|-1] in outputs;
      SumSame(outputs[..|outputs|-1], p, q);
    }
  }

  lemma {:induction false} SumNone(outputs: Outputs, p: Test)
    requires forall o :: o in outputs ==> !p(o)
    ensures Sum(outputs, p) == 0
  {
    if outputs != [] {
      assert outputs[|outputs|-1] in outputs;
      SumNone(outputs[..|outputs|-1], p);
    }
  }

  lemma {:induction false} SumWithin(outputs: Outputs, p: Test, q: Test)
    requires forall o :: o in outputs && p(o) ==> q(o)
    ensures Sum(outputs, p) <= Sum(outputs, q)
  {
    if outputs != [] {
      assert outputs[|outputs|-1] in outputs;
      SumWithin(outputs[..|outputs|-1], p, q);
    }
  }

  lemma {:induction false} SumAtLeast(outputs: Outputs, p: Test, o: TrackedOutput)
    requires o in outputs && p(o)
    ensures Sum(outputs, p) >= o.amount
  {
    var init, last := outputs[..|outputs|-1], outputs[|outputs|-1];
    assert outputs == init + [last];
    if o != last {
      SumAtLeast(init, p, o);
    }
  }

  lemma {:induction false} SumNeedsAmount(outputs: Outputs, p: Test)
    ensures Sum(outputs, p) > 0 ==> exists o :: o in outputs && p(o) && o.amount > 0
  {
    if outputs != [] {
      var init, last := outputs[..|outputs|-1], outputs[|outputs|-1];
      assert outputs == init + [last];
      SumNeedsAmount(init, p);
      if Sum(init, p) > 0 {
        var o :| o in init && p(o) && o.amount > 0;
        assert o in outputs;
      }
    }
  }

  /** `r` is the disjoint union of `p` and `q`. */
  lemma {:induction false} SumSplit(outputs: Outputs, p: Test, q: Test, r: Test)
    requires forall o :: o in outputs ==> (r(o) <==> p(o) || q(o)) && !(p(o) && q(o))
    ensures Sum(outputs, r) == Sum(outputs, p) + Sum(outputs, q)
  {
    if outputs != [] {
      assert outputs[|outputs|-1] in outputs;
      SumSplit(outputs[..|outputs|-1], p, q, r);
    }
  }

  lemma {:induction false} SumWithout(outputs: Outputs, i: nat, p: Test)
    requires i < |outputs|
    ensures Sum(outputs, p) == Sum(outputs[..i] + outputs[i + 1..], p) + if p(outputs[i]) then outputs[i].amount else 0
  {
    var last := |outputs| - 1;
    var rest := outputs[..i] + outputs[i + 1..];
    if i == last {
      assert rest == outputs[..last];
    } else {
      var init := outputs[..last];
      SumWithout(init, i, p);
      assert rest[..|rest|-1] == init[..i] + init[i + 1..] && rest[|rest|-1] == outputs[last];
    }
  }

  /** A sum does not depend on the order of the outputs. */
  lemma {:induction false} SumPermuted(a: Outputs, b: Outputs, p: Test)
    requires multiset(a) == multiset(b)
    ensures Sum(a, p) == Sum(b, p)
    decreases |a|
  {
    SameLength(a, b);
    if a != [] {
      var k := |a| - 1;
      WithoutOne(a, k);
      assert a[..k] + a[k + 1..] == a[..k];
      assert a[k] in multiset(b);
      var i :| 0 <= i < |b| && b[i] == a[k];
      WithoutOne(b, i);
      SumPermuted(a[..k], b[..i] + b[i + 1..], p);
      SumWithout(b, i, p);
    }
  }

  lemma WithoutOne(b: Outputs, i: nat)
    requires i < |b|
    ensures multiset(b[..i] + b[i + 1..]) == multiset(b) - multiset{b[i]}
  {
    assert b == b[..i] + ([b[i]] + b[i + 1..]);
  }

  lemma SameLength(a: Outputs, b: Outputs)
    requires multiset(a) == multiset(b)
    ensures |a| == |b|
  {
    assert |multiset(a)| == |a| && |multiset(b)| == |b|;
  }

  // ---------------------------------------------------------------------------------------------
  // The highest value
  // ---------------------------------------------------------------------------------------------

  type Measure = TrackedOutput -> nat

  function Highest(outputs: Outputs, f: Measure): (m: nat)
    ensures forall o :: o in outputs ==> f(o) <= m
    ensures m > 0 ==> exists o :: o in outputs && f(o) == m
  {
    if outputs == [] then 0
    else
      var init, last := outputs[..|outputs|-1], outputs[|outputs|-1];
      assert outputs == init + [last];
      var before := Highest(init, f);
      if f(last) > before then assert last in outputs; f(last) else before
  }

  lemma HighestSnoc(outputs: Outputs, i: nat, f: Measure)
    requires i < |outputs|
    ensures Highest(outputs[..i + 1], f)
      == if f(outputs[i]) > Highest(outputs[..i], f) then f(outputs[i]) else Highest(outputs[..i], f)
  {
    assert outputs[..i + 1][..i] == outputs[..i];
  }

  lemma HighestPermuted(a: Outputs, b: Outputs, f: Measure)
    requires forall o :: o in a <==> o in b
    ensures Highest(a, f) == Highest(b, f)
  {}

  // ---------------------------------------------------------------------------------------------
  // Sums over transaction ids
  // ---------------------------------------------------------------------------------------------

  ghost function SetSum(keys: set<Txid>, f: Txid -> int): int {
    if keys == {} then 0
    else
      var t :| t in keys;
      f(t) + SetSum(keys - {t}, f)
  }

  lemma {:induction false} SetSumAt(keys: set<Txid>, f: Txid -> int, x: Txid)
    requires x in keys
    ensures SetSum(keys, f) == f(x) + SetSum(keys - {x}, f)
    decreases |keys|
  {
    var t :| t in keys && SetSum(keys, f) == f(t) + SetSum(keys - {t}, f);
    if t != x {
      SetSumAt(keys - {t}, f, x);
      SetSumAt(keys - {x}, f, t);
      assert keys - {t} - {x} == keys - {x} - {t};
    }
  }

  lemma {:induction false} SetSumSame(keys: set<Txid>, f: Txid -> int, g: Txid -> int)
    requires forall t :: t in keys ==> f(t) == g(t)
    ensures SetSum(keys, f) == SetSum(keys, g)
  {
    if keys != {} {
      var t :| t in keys;
      SetSumAt(keys, f, t);
      SetSumAt(keys, g, t);
      SetSumSame(keys - {t}, f, g);
    }
  }

  lemma {:induction false} SetSumAdds(keys: set<Txid>, f: Txid -> int, g: Txid -> int, h: Txid -> int)
    requires forall t :: t in keys ==> h(t) == f(t) + g(t)
    ensures SetSum(keys, h) == SetSum(keys, f) + SetSum(keys, g)
  {
    if keys != {} {
      var t :| t in keys;
      SetSumAt(keys, f, t);
      SetSumAt(keys, g, t);
      SetSumAt(keys, h, t);
      SetSumAdds(keys - {t}, f, g, h);
    }
  }

  /** Keys on which the function is zero do not matter. */
  lemma {:induction false} SetSumWithin(keys: set<Txid>, all: set<Txid>, f: Txid -> int)
    requires keys <= all && forall t :: t in all && t !in keys ==> f(t) == 0
    ensures SetSum(keys, f) == SetSum(all, f)
    decreases |all|
  {
    if keys != all {
      var t :| t in all && t !in keys;
      SetSumAt(all, f, t);
      SetSumWithin(keys, all - {t}, f);
    }
  }

  lemma {:induction false} SetSumPositive(keys: set<Txid>, f: Txid -> int)
    requires forall t :: t in keys ==> f(t) >= 0
    ensures SetSum(keys, f) >= 0
    ensures SetSum(keys, f) == 0 <==> forall t :: t in keys ==> f(t) == 0
  {
    if keys != {} {
      var t :| t in keys;
      SetSumAt(keys, f, t);
      SetSumPositive(keys - {t}, f);
    }
  }

  type Owner = TrackedOutput -> Option<Txid>

  function OwnedBy(owner: Owner, t: Txid): Test { o => owner(o) == Some(t) }

  function HasOwner(owner: Owner): Test { o => owner(o).Some? }

  function OwnedSums(outputs: Outputs, owner: Owner): Txid -> int { (t: Txid) => Sum(outputs, OwnedBy(owner, t)) }

  function Single(x: Txid, amount: int): Txid -> int { (t: Txid) => if t == x then amount else 0 }

  lemma {:induction false} SetSumSingle(keys: set<Txid>, x: Txid, amount: int)
    ensures SetSum(keys, Single(x, amount)) == if x in keys then amount else 0
  {
    if keys != {} {
      var t :| t in keys;
      SetSumAt(keys, Single(x, amount), t);
      SetSumSingle(keys - {t}, x, amount);
    }
  }

  /** Summing per owner and then over the owners is summing once. */
  lemma {:induction false} SumByOwner(outputs: Outputs, owner: Owner, keys: set<Txid>)
    requires forall o :: o in outputs && owner(o).Some? ==> owner(o).value in keys
    ensures SetSum(keys, OwnedSums(outputs, owner)) == Sum(outputs, HasOwner(owner))
  {
    if outputs == [] {
      SetSumPositive(keys, OwnedSums(outputs, owner));
    } else {
      var init, last := outputs[..|outputs|-1], outputs[|outputs|-1];
      assert outputs == init + [last] && last in outputs;
      SumByOwner(init, owner, keys);
      if owner(last).Some? {
        var x := owner(last).value;
        SetSumSingle(keys, x, last.amount);
        SetSumAdds(keys, OwnedSums(init, owner), Single(x, last.amount), OwnedSums(outputs, owner));
      } else {
        SetSumSame(keys, OwnedSums(init, owner), OwnedSums(outputs, owner));
      }
    }
  }
}
