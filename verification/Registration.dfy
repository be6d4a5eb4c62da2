/** Which subaddresses the ownership scanner is given: what a coverage stands for. */
module Registration {
  import opened Chain

  type Index = (nat, nat)

  const PRIMARY: Index := (0, 0)

  /** Registered before account `major` reaches `minor`; the primary address needs no registration. */
  ghost predicate Before(i: Index, major: nat, minor: nat, gap: nat) {
    i != PRIMARY && i.1 <= gap && (i.0 < major || (i.0 == major && i.1 < minor))
  }

  ghost predicate UpTo(registered: set<Index>, major: nat, minor: nat, gap: nat) {
    && (forall i: Index :: i in registered <==> Before(i, major, minor, gap))
    && |registered| + (if major > 0 || minor > 0 then 1 else 0) == major * (gap + 1) + minor
  }

  function AtLeastOne(n: nat): nat { if n < 1 then 1 else n }

  lemma NextIndex(registered: set<Index>, major: nat, minor: nat, gap: nat, next: set<Index>)
    requires UpTo(registered, major, minor, gap) && minor <= gap
    requires next == if (major, minor) == PRIMARY then registered else registered + {(major, minor)}
    ensures UpTo(next, major, minor + 1, gap)
  {
    assert (major, minor) !in registered;
  }

  lemma NextAccount(registered: set<Index>, major: nat, gap: nat)
    requires UpTo(registered, major, gap + 1, gap)
    ensures UpTo(registered, major + 1, 0, gap)
  {
    assert (major + 1) * (gap + 1) == major * (gap + 1) + (gap + 1);
  }

  method RegisterAccount(registered: set<Index>, major: nat, gap: nat) returns (r: set<Index>)
    requires UpTo(registered, major, 0, gap)
    ensures UpTo(r, major + 1, 0, gap)
  {
    r := registered;
    for minor := 0 to gap + 1
      invariant UpTo(r, major, minor, gap)
    {
      ghost var before := r;
      if (major, minor) != PRIMARY {
        r := r + {(major, minor)};
      }
      NextIndex(before, major, minor, gap, r);
    }
    NextAccount(r, major, gap);
  }

  /** `register_scan_subaddresses`: refused beyond a hundred thousand registrations; otherwise the scanner watches
      exactly what the coverage covers, and the count returned is the number registered. */
  method RegisterScanSubaddresses(gap: nat, accounts: nat) returns (count: Option<nat>, registered: set<Index>)
    ensures var g, a := if gap == 0 then 1 else gap, if accounts == 0 then 1 else accounts;
      && (count == None <==> a * (g + 1) - 1 > 100_000)
      && (count.Some? ==>
            && count.value == |registered| == a * (g + 1) - 1
            && forall o: Owned :: Covers(Coverage(a, g), o) <==> (o.major, o.minor) == PRIMARY || (o.major, o.minor) in registered)
  {
    var g, a := AtLeastOne(gap), AtLeastOne(accounts);
    registered := {};
    var total := a * (g + 1) - 1;
    if total > 100_000 {
      return None, registered;
    }
    for major := 0 to a
      invariant UpTo(registered, major, 0, g)
    {
      registered := RegisterAccount(registered, major, g);
    }
    count := Some(total);
  }
}
