/** Order-preserving partial maps over sequences: rewinding and reconciling the tracked outputs are
    both of this shape. */
module Seqs {
  import opened Chain

  function FilterMap<A, B>(f: A -> Option<B>, s: seq<A>): seq<B> {
    if s == [] then []
    else FilterMap(f, s[..|s|-1]) + match f(s[|s|-1]) case None => [] case Some(y) => [y]
  }

  lemma FilterMapSnoc<A, B>(f: A -> Option<B>, s: seq<A>, x: A)
    ensures FilterMap(f, s + [x]) == FilterMap(f, s) + match f(x) case None => [] case Some(y) => [y]
  {
    assert (s + [x])[..|s|] == s;
  }

  lemma {:induction false} FilterMapMembers<A, B>(f: A -> Option<B>, s: seq<A>, y: B)
    ensures y in FilterMap(f, s) <==> exists x :: x in s && f(x) == Some(y)
  {
    if s != [] {
      var init, last := s[..|s|-1], s[|s|-1];
      assert s == init + [last];
      FilterMapMembers(f, init, y);
      if f(last) == Some(y) { assert last in s; }
      if x :| x in s && f(x) == Some(y) { assert x in init || x == last; }
      if x :| x in init && f(x) == Some(y) { assert x in s; }
    }
  }

  /** Sequences that look the same through `f`, place by place, have the same image. */
  lemma {:induction false} FilterMapPointwise<A, B>(f: A -> Option<B>, s: seq<A>, t: seq<A>)
    requires |s| == |t|
    requires forall i :: 0 <= i < |s| ==> f(s[i]) == f(t[i])
    ensures FilterMap(f, s) == FilterMap(f, t)
  {
    if s != [] {
      FilterMapPointwise(f, s[..|s|-1], t[..|t|-1]);
    }
  }

  /** Everything `g` forgets about may be done by `f` first without a trace. */
  lemma {:induction false} FilterMapAbsorbs<A, B>(f: A -> Option<A>, g: A -> Option<B>, s: seq<A>)
    requires forall x :: x in s ==> g(x) == match f(x) case None => None case Some(y) => g(y)
    ensures FilterMap(g, FilterMap(f, s)) == FilterMap(g, s)
  {
    if s != [] {
      var init, last := s[..|s|-1], s[|s|-1];
      assert s == init + [last];
      FilterMapAbsorbs(f, g, init);
      match f(last)
      case None => assert FilterMap(f, s) == FilterMap(f, init);
      case Some(y) => FilterMapSnoc(g, FilterMap(f, init), y);
    }
  }

  /** Two partial maps in a row are one, wherever `h` is their composition. */
  lemma {:induction false} FilterMapComposes<A, B, C>(f: A -> Option<B>, g: B -> Option<C>, h: A -> Option<C>, s: seq<A>)
    requires forall x :: x in s ==> h(x) == match f(x) case None => None case Some(y) => g(y)
    ensures FilterMap(g, FilterMap(f, s)) == FilterMap(h, s)
  {
    if s != [] {
      var init, last := s[..|s|-1], s[|s|-1];
      assert s == init + [last];
      FilterMapComposes(f, g, h, init);
      match f(last)
      case None => assert FilterMap(f, s) == FilterMap(f, init);
      case Some(y) => FilterMapSnoc(g, FilterMap(f, init), y);
    }
  }

  lemma {:induction false} FilterMapIdentity<A>(f: A -> Option<A>, s: seq<A>)
    requires forall x :: x in s ==> f(x) == Some(x)
    ensures FilterMap(f, s) == s
  {
    if s != [] {
      FilterMapIdentity(f, s[..|s|-1]);
    }
  }

  lemma {:induction false} FilterMapNone<A, B>(f: A -> Option<B>, s: seq<A>)
    requires forall x :: x in s ==> f(x) == None
    ensures FilterMap(f, s) == []
  {
    if s != [] {
      FilterMapNone(f, s[..|s|-1]);
    }
  }
}
