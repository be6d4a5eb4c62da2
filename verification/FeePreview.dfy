/** The fee preview: grow the selected inputs until the fee of the transaction they give is covered. */
module FeePreview {
  import opened Chain
  import opened Money
  import opened Scan
  import C = Cores

  const MAX_ROUNDS: nat := 24

  /** What constructing the transaction from the first `n` inputs says: its fee, that the inputs do not
      suffice, or any other failure. */
  datatype Built = Fee(fee: nat) | NotEnough | Broken

  datatype Quote = Quoted(fee: nat, inputs: nat) | Insufficient | Failed | DidNotConverge

  function Amounts(spendable: Outputs, k: nat): nat
    requires k <= |spendable|
  {
    if k == 0 then 0 else Amounts(spendable, k - 1) + spendable[k - 1].amount
  }

  /** `selected_sum` for the first `k` inputs. */
  function Have(spendable: Outputs, k: nat): nat
    requires k <= |spendable|
  {
    Cap(Amounts(spendable, k))
  }

  lemma {:induction false} HaveGrows(spendable: Outputs, j: nat, k: nat)
    requires j <= k <= |spendable|
    ensures Have(spendable, j) <= Have(spendable, k)
  {
    if j < k {
      HaveGrows(spendable, j, k - 1);
    }
  }

  /** The first selection is never empty unless nothing is spendable. */
  function First(spendable: Outputs): (k: nat)
    ensures k <= |spendable|
  {
    if spendable == [] then 0 else 1
  }

  /** Push inputs until the need is covered or none is left. */
  function Cover(spendable: Outputs, k: nat, need: nat): (r: nat)
    requires k <= |spendable|
    ensures k <= r <= |spendable|
    ensures r < |spendable| ==> Have(spendable, r) >= need
    ensures forall j :: k <= j < r ==> Have(spendable, j) < need
    decreases |spendable| - k
  {
    if k == |spendable| || Have(spendable, k) >= need then k else Cover(spendable, k + 1, need)
  }

  function Rounds(spendable: Outputs, total: nat, build: nat -> Built, k: nat, left: nat): Quote
    requires k <= |spendable|
    decreases left
  {
    if left == 0 then DidNotConverge
    else
      match build(k)
      case Broken => Failed
      case NotEnough => if k < |spendable| then Rounds(spendable, total, build, k + 1, left - 1) else Insufficient
      case Fee(fee) =>
        if Have(spendable, k) >= SatAdd(total, fee) then Quoted(fee, k)
        else if k < |spendable| then Rounds(spendable, total, build, Cover(spendable, k + 1, SatAdd(total, fee)), left - 1)
        else Insufficient
  }

  function Preview(spendable: Outputs, total: nat, build: nat -> Built): Quote {
    var k := Cover(spendable, First(spendable), total);
    if Have(spendable, k) < total then Insufficient else Rounds(spendable, total, build, k, MAX_ROUNDS)
  }

  // ---------------------------------------------------------------------------------------------
  // What the preview promises
  // ---------------------------------------------------------------------------------------------

  /** The first `k` inputs pay the amount and the fee of a transaction with `k` inputs. */
  predicate Sufficient(spendable: Outputs, total: nat, fee: nat -> nat, k: nat) {
    (k > 0 || spendable == []) && k <= |spendable| && Have(spendable, k) >= SatAdd(total, fee(k))
  }

  predicate NoCheaper(fee: nat -> nat, j: nat, k: nat) { j <= k ==> fee(j) <= fee(k) }

  ghost predicate Grows(fee: nat -> nat) {
    forall j: nat, k: nat :: NoCheaper(fee, j, k)
  }

  /** The fee does not fall with more inputs, and construction reports missing funds only truthfully. */
  ghost predicate Honest(spendable: Outputs, total: nat, build: nat -> Built, fee: nat -> nat) {
    && Grows(fee)
    && (forall k: nat :: build(k).Fee? ==> build(k).fee == fee(k))
    && (forall k: nat :: build(k).NotEnough? ==> !Sufficient(spendable, total, fee, k))
  }

  ghost predicate NoneBefore(spendable: Outputs, total: nat, fee: nat -> nat, k: nat) {
    forall j: nat :: j < k ==> !Sufficient(spendable, total, fee, j)
  }

  ghost predicate NoneSuffices(spendable: Outputs, total: nat, fee: nat -> nat) {
    forall j: nat :: !Sufficient(spendable, total, fee, j)
  }

  ghost predicate Least(spendable: Outputs, total: nat, fee: nat -> nat, k: nat) {
    Sufficient(spendable, total, fee, k) && NoneBefore(spendable, total, fee, k)
  }

  /** Jumping ahead by the fee just quoted passes no sufficient prefix: fees only grow. */
  lemma JumpSkipsNothing(spendable: Outputs, total: nat, fee: nat -> nat, k: nat, next: nat)
    requires Grows(fee)
    requires k < |spendable| && next == Cover(spendable, k + 1, SatAdd(total, fee(k)))
    requires NoneBefore(spendable, total, fee, k) && Have(spendable, k) < SatAdd(total, fee(k))
    ensures NoneBefore(spendable, total, fee, next)
  {
    var need, first := SatAdd(total, fee(k)), k + 1;
    CoverIsShort(spendable, first, need, next);
    ShortExtends(spendable, total, fee, k, next, need);
  }

  ghost predicate ShortOn(spendable: Outputs, from: nat, to: nat, need: nat) {
    to <= |spendable| && forall j: nat {:trigger Have(spendable, j)} :: from <= j < to ==> Have(spendable, j) < need
  }

  lemma CoverIsShort(spendable: Outputs, first: nat, need: nat, next: nat)
    requires first <= |spendable| && next == Cover(spendable, first, need)
    ensures ShortOn(spendable, first, next, need) && first <= next
  {}

  lemma ShortExtends(spendable: Outputs, total: nat, fee: nat -> nat, k: nat, next: nat, need: nat)
    requires Grows(fee) && k < next && need == SatAdd(total, fee(k))
    requires NoneBefore(spendable, total, fee, k) && k < |spendable| && Have(spendable, k) < need && ShortOn(spendable, k + 1, next, need)
    ensures NoneBefore(spendable, total, fee, next)
  {
    forall j: nat | k <= j < next ensures !Sufficient(spendable, total, fee, j) {
      PassedIsShort(spendable, total, fee, k, j, need);
    }
  }

  /** Short of the need quoted for fewer inputs is short of its own. */
  lemma PassedIsShort(spendable: Outputs, total: nat, fee: nat -> nat, k: nat, j: nat, need: nat)
    requires Grows(fee) && k <= j && need == SatAdd(total, fee(k))
    requires j <= |spendable| ==> Have(spendable, j) < need
    ensures !Sufficient(spendable, total, fee, j)
  {
    assert NoCheaper(fee, k, j);
  }

  /** What a quote means after `left` rounds from `k` inputs on. */
  ghost predicate Exact(q: Quote, spendable: Outputs, total: nat, build: nat -> Built, fee: nat -> nat, k: nat, left: nat) {
    match q
    case Quoted(f, n) => Least(spendable, total, fee, n) && f == fee(n)
    case Insufficient => NoneSuffices(spendable, total, fee)
    case Failed => exists j: nat :: k <= j <= |spendable| && build(j).Broken? && NoneBefore(spendable, total, fee, j)
    case DidNotConverge => exists j: nat :: k + left <= j <= |spendable| && NoneBefore(spendable, total, fee, j)
  }

  lemma ExactEarlier(q: Quote, spendable: Outputs, total: nat, build: nat -> Built, fee: nat -> nat, k: nat, next: nat, left: nat)
    requires left > 0 && k < next && Exact(q, spendable, total, build, fee, next, left - 1)
    ensures Exact(q, spendable, total, build, fee, k, left)
  {}

  lemma {:induction false} RoundsAreExact(spendable: Outputs, total: nat, build: nat -> Built, fee: nat -> nat, k: nat, left: nat)
    requires Honest(spendable, total, build, fee) && First(spendable) <= k <= |spendable| && NoneBefore(spendable, total, fee, k)
    ensures Exact(Rounds(spendable, total, build, k, left), spendable, total, build, fee, k, left)
    decreases left
  {
    var q := Rounds(spendable, total, build, k, left);
    if left > 0 {
      match build(k)
      case Broken =>
      case NotEnough =>
        if k < |spendable| {
          RoundsAreExact(spendable, total, build, fee, k + 1, left - 1);
          ExactEarlier(q, spendable, total, build, fee, k, k + 1, left);
        }
      case Fee(f) =>
        if Have(spendable, k) < SatAdd(total, f) && k < |spendable| {
          var next := Cover(spendable, k + 1, SatAdd(total, f));
          JumpSkipsNothing(spendable, total, fee, k, next);
          RoundsAreExact(spendable, total, build, fee, next, left - 1);
          ExactEarlier(q, spendable, total, build, fee, k, next, left);
        }
    }
  }

  lemma FirstSelection(spendable: Outputs, total: nat, fee: nat -> nat, k: nat)
    requires k == Cover(spendable, First(spendable), total) && total <= MAX_U64
    ensures NoneBefore(spendable, total, fee, k)
    ensures Have(spendable, k) < total ==> NoneSuffices(spendable, total, fee)
  {
    forall j: nat | j <= |spendable| ensures Have(spendable, j) <= Have(spendable, |spendable|) {
      HaveGrows(spendable, j, |spendable|);
    }
  }

  /** A quoted fee is that of the smallest prefix that covers amount plus its own fee; "insufficient" means
      no prefix does; giving up happens only past 24 inputs beyond the first. */
  lemma PreviewIsExact(spendable: Outputs, total: nat, build: nat -> Built, fee: nat -> nat)
    requires Honest(spendable, total, build, fee) && total <= MAX_U64
    ensures match Preview(spendable, total, build)
      case Quoted(f, n) => Least(spendable, total, fee, n) && f == fee(n)
      case Insufficient => NoneSuffices(spendable, total, fee)
      case Failed => exists j: nat :: j <= |spendable| && build(j).Broken? && NoneBefore(spendable, total, fee, j)
      case DidNotConverge => exists j: nat :: 25 <= j <= |spendable| && NoneBefore(spendable, total, fee, j)
  {
    var k := Cover(spendable, First(spendable), total);
    FirstSelection(spendable, total, fee, k);
    if Have(spendable, k) >= total {
      RoundsAreExact(spendable, total, build, fee, k, MAX_ROUNDS);
    }
  }

  /** With at most 24 spendable outputs the answer is complete: a fee exactly when some prefix suffices. */
  lemma SmallWalletsConverge(spendable: Outputs, total: nat, build: nat -> Built, fee: nat -> nat)
    requires Honest(spendable, total, build, fee) && total <= MAX_U64 && |spendable| <= 24 && spendable != []
    requires forall k: nat :: !build(k).Broken?
    ensures Preview(spendable, total, build).Quoted? <==> exists j: nat :: Sufficient(spendable, total, fee, j)
  {
    PreviewIsExact(spendable, total, build, fee);
  }

  // ---------------------------------------------------------------------------------------------
  // Where it gives up although funds suffice
  // ---------------------------------------------------------------------------------------------

  /** Construction that calls every insufficient prefix insufficient adds one input a round. */
  ghost predicate OneAtATime(spendable: Outputs, total: nat, build: nat -> Built, fee: nat -> nat) {
    forall k: nat :: build(k) == if Sufficient(spendable, total, fee, k) then Fee(fee(k)) else NotEnough
  }

  lemma {:induction false} OneAtATimeRounds(spendable: Outputs, total: nat, build: nat -> Built, fee: nat -> nat, k: nat, left: nat, m: nat)
    requires OneAtATime(spendable, total, build, fee) && First(spendable) <= k <= m
    requires Least(spendable, total, fee, m)
    ensures Rounds(spendable, total, build, k, left) == if m < k + left then Quoted(fee(m), m) else DidNotConverge
    decreases left
  {
    if left > 0 {
      if k < m {
        assert build(k) == NotEnough;
        OneAtATimeRounds(spendable, total, build, fee, k + 1, left - 1, m);
      } else {
        assert build(k) == Fee(fee(k));
      }
    }
  }

  /** The first inputs, at least one if there are any, that cover the amount without a fee - or all of them. */
  ghost predicate FirstEnough(spendable: Outputs, total: nat, k: nat) {
    && (k > 0 || spendable == []) && k <= |spendable|
    && (Have(spendable, k) >= total || k == |spendable|)
    && forall j :: 0 < j < k ==> Have(spendable, j) < total
  }

  lemma FirstEnoughIs(spendable: Outputs, total: nat, k: nat, r: nat)
    requires FirstEnough(spendable, total, k) && r == Cover(spendable, First(spendable), total)
    ensures k == r
  {}

  /** For such a construction the preview succeeds exactly when the least sufficient prefix lies less than
      24 inputs beyond the first selection; otherwise it gives up although the funds suffice. */
  lemma GivesUpIff(spendable: Outputs, total: nat, build: nat -> Built, fee: nat -> nat, k: nat, m: nat)
    requires OneAtATime(spendable, total, build, fee) && Least(spendable, total, fee, m) && total <= MAX_U64
    requires FirstEnough(spendable, total, k)
    ensures Preview(spendable, total, build) == if m < k + 24 then Quoted(fee(m), m) else DidNotConverge
  {
    FirstEnoughIs(spendable, total, k, Cover(spendable, First(spendable), total));
    FirstSelection(spendable, total, fee, k);
    assert k <= m;
    OneAtATimeRounds(spendable, total, build, fee, k, MAX_ROUNDS, m);
  }

  const COIN := TrackedOutput(Outpoint(0, 0), 0, 0, 1, 1, NoLock, false, 0, 0, false, None, None)

  function Coins(n: nat): (r: Outputs)
    ensures |r| == n
  {
    seq(n, i requires 0 <= i < n => COIN.(outpoint := Outpoint(0, i)))
  }

  function FlatFee(fee: nat): nat -> nat { (k: nat) => fee }

  function Strict(spendable: Outputs, total: nat, fee: nat -> nat): nat -> Built {
    (k: nat) => if Sufficient(spendable, total, fee, k) then Fee(fee(k)) else NotEnough
  }

  lemma {:induction false} CoinAmounts(n: nat, k: nat)
    requires k <= n
    ensures Amounts(Coins(n), k) == k
  {
    if k > 0 {
      CoinAmounts(n, k - 1);
    }
  }

  lemma ThirtySuffice()
    ensures forall k: nat :: k <= 30 ==> Have(Coins(30), k) == k
    ensures Least(Coins(30), 1, FlatFee(29), 30) && FirstEnough(Coins(30), 1, 1)
  {
    forall k: nat | k <= 30 ensures Have(Coins(30), k) == k {
      CoinAmounts(30, k);
    }
  }

  lemma StrictIs(spendable: Outputs, total: nat, fee: nat -> nat)
    requires Grows(fee)
    ensures Honest(spendable, total, Strict(spendable, total, fee), fee) && OneAtATime(spendable, total, Strict(spendable, total, fee), fee)
  {}

  /** Thirty unit outputs, one unit to send, a fee of 29: all thirty suffice, the preview gives up. */
  lemma ThirtyCoins()
    ensures var s, fee := Coins(30), FlatFee(29);
      && Honest(s, 1, Strict(s, 1, fee), fee) && Least(s, 1, fee, 30)
      && Preview(s, 1, Strict(s, 1, fee)) == DidNotConverge
  {
    var s, fee := Coins(30), FlatFee(29);
    ThirtySuffice();
    StrictIs(s, 1, fee);
    GivesUpIff(s, 1, Strict(s, 1, fee), fee, 1, 30);
  }

  // ---------------------------------------------------------------------------------------------
  // The loop
  // ---------------------------------------------------------------------------------------------

  predicate Selected(selected: Outputs, o: TrackedOutput) {
    exists s :: s in selected && s.outpoint == o.outpoint
  }

  /** One sweep over the spendable outputs, pushing those not selected yet. With distinct outpoints the
      selection stays a prefix, so no input is ever used twice. */
  method PushMore(spendable: Outputs, selected: Outputs, sum: nat, need: nat, one: bool) returns (more: Outputs, total: nat, added: bool)
    requires C.Distinct(spendable) && |selected| <= |spendable| && selected == spendable[..|selected|]
    requires sum == Have(spendable, |selected|)
    ensures |more| <= |spendable| && more == spendable[..|more|] && total == Have(spendable, |more|)
    ensures added <==> |selected| < |spendable|
    ensures |more| == if !added then |selected| else if one then |selected| + 1 else Cover(spendable, |selected| + 1, need)
  {
    more, total, added := selected, sum, false;
    for i := 0 to |spendable|
      invariant |more| == if added then i else |selected|
      invariant added ==> |selected| < i && !one && Cover(spendable, |selected| + 1, need) == Cover(spendable, i, need) && total < need
      invariant !added ==> i <= |selected| && total == sum
      invariant |more| <= |spendable| && more == spendable[..|more|] && total == Have(spendable, |more|)
    {
      PrefixSelected(spendable, |more|, i);
      if !Selected(more, spendable[i]) {
        PushNext(spendable, i);
        more, total, added := more + [spendable[i]], SatAdd(total, spendable[i].amount), true;
        if one || total >= need {
          return;
        }
      }
    }
  }

  lemma PushNext(spendable: Outputs, i: nat)
    requires i < |spendable|
    ensures spendable[..i] + [spendable[i]] == spendable[..i + 1]
    ensures SatAdd(Have(spendable, i), spendable[i].amount) == Have(spendable, i + 1)
  {
    SatAddCap(Amounts(spendable, i), spendable[i].amount);
  }

  lemma PrefixSelected(spendable: Outputs, k: nat, i: nat)
    requires C.Distinct(spendable) && k <= |spendable| && i < |spendable|
    ensures Selected(spendable[..k], spendable[i]) <==> i < k
  {
    if i < k {
      assert spendable[..k][i] in spendable[..k];
    }
    if Selected(spendable[..k], spendable[i]) {
      var s :| s in spendable[..k] && s.outpoint == spendable[i].outpoint;
      var j :| 0 <= j < k && spendable[j] == s;
      assert j == i;
    }
  }

  ghost predicate IsPrefix(spendable: Outputs, selected: Outputs, sum: nat) {
    |selected| <= |spendable| && selected == spendable[..|selected|] && sum == Have(spendable, |selected|)
  }

  /** One round: an answer, or a longer selection. */
  method Round(spendable: Outputs, totalNeeded: nat, build: nat -> Built, selected: Outputs, sum: nat, ghost left: nat)
    returns (q: Option<Quote>, more: Outputs, total: nat)
    requires C.Distinct(spendable) && IsPrefix(spendable, selected, sum) && left > 0
    ensures IsPrefix(spendable, more, total)
    ensures q.Some? ==> Rounds(spendable, totalNeeded, build, |selected|, left) == q.value
    ensures q.Some? && q.value.Quoted? ==> q.value.inputs == |more|
    ensures q == None ==> Rounds(spendable, totalNeeded, build, |selected|, left) == Rounds(spendable, totalNeeded, build, |more|, left - 1)
  {
    more, total := selected, sum;
    var added;
    match build(|selected|)
    case Broken => return Some(Failed), more, total;
    case NotEnough =>
      more, total, added := PushMore(spendable, selected, sum, 0, true);
      q := if added then None else Some(Insufficient);
    case Fee(fee) =>
      var needed := SatAdd(totalNeeded, fee);
      if sum >= needed {
        return Some(Quoted(fee, |selected|)), more, total;
      }
      more, total, added := PushMore(spendable, selected, sum, needed, false);
      q := if added then None else Some(Insufficient);
  }

  /** The preview as the program runs it. */
  method PreviewFee(spendable: Outputs, totalNeeded: nat, build: nat -> Built) returns (q: Quote, selected: Outputs)
    requires C.Distinct(spendable)
    ensures q == Preview(spendable, totalNeeded, build)
    ensures |selected| <= |spendable| && selected == spendable[..|selected|] && (q.Quoted? ==> |selected| == q.inputs)
  {
    var sum: nat := 0;
    var added: bool;
    selected := [];
    selected, sum, added := PushMore(spendable, selected, sum, totalNeeded, false);
    if sum < totalNeeded {
      return Insufficient, selected;
    }
    ghost var left, k := MAX_ROUNDS, |selected|;
    for round := 0 to MAX_ROUNDS
      invariant left == MAX_ROUNDS - round && k <= |spendable| && IsPrefix(spendable, selected, sum)
      invariant Rounds(spendable, totalNeeded, build, k, MAX_ROUNDS) == Rounds(spendable, totalNeeded, build, |selected|, left)
    {
      var answer;
      answer, selected, sum := Round(spendable, totalNeeded, build, selected, sum, left);
      left := left - 1;
      if answer.Some? {
        return answer.value, selected;
      }
    }
    q := DidNotConverge;
  }
}
