/** Paged history over the ledger: one sort order whatever the map order, pages that tile the matching
    rows, and a cached index that always is the index of the current ledger. */
module History {
  import opened Chain
  import opened Ledger

  // ---------------------------------------------------------------------------------------------
  // The order
  // ---------------------------------------------------------------------------------------------

  /** Pending first, then height and timestamp downwards, then transaction id upwards. */
  predicate Before(book: Book, a: Txid, b: Txid)
    requires a in book && b in book
  {
    var x, y := book[a], book[b];
    if x.pending != y.pending then x.pending
    else if OrZero(x.height) != OrZero(y.height) then OrZero(x.height) > OrZero(y.height)
    else if OrZero(x.timestamp) != OrZero(y.timestamp) then OrZero(x.timestamp) > OrZero(y.timestamp)
    else a < b
  }

  lemma BeforeIsStrictTotal(book: Book, a: Txid, b: Txid, c: Txid)
    requires a in book && b in book && c in book
    ensures !Before(book, a, a)
    ensures a != b ==> Before(book, a, b) || Before(book, b, a)
    ensures Before(book, a, b) && Before(book, b, c) ==> Before(book, a, c)
  {}

  ghost predicate InBook(s: seq<Txid>, book: Book) { forall i :: 0 <= i < |s| ==> s[i] in book }

  ghost predicate Sorted(s: seq<Txid>, book: Book)
    requires InBook(s, book)
  {
    forall i, j :: 0 <= i < j < |s| ==> Before(book, s[i], s[j])
  }

  /** The rows of the book, each once, in order. */
  ghost predicate IsOrder(s: seq<Txid>, book: Book) {
    InBook(s, book) && Sorted(s, book) && forall t :: t in book ==> t in s
  }

  /** A sorted listing of the rows is unique: it does not depend on the order the map gave. */
  lemma {:induction false} OrderIsUnique(s: seq<Txid>, r: seq<Txid>, book: Book)
    requires InBook(s, book) && InBook(r, book) && Sorted(s, book) && Sorted(r, book)
    requires forall t :: t in s <==> t in r
    ensures s == r
    decreases |s|
  {
    if s != [] {
      assert s[0] in r && r != [];
      assert r[0] in s;
      SameHead(s, r, book);
      forall t ensures t in s[1..] <==> t in r[1..] {
        TailMembers(s, book, t);
        TailMembers(r, book, t);
      }
      OrderIsUnique(s[1..], r[1..], book);
      assert s == [s[0]] + s[1..] && r == [r[0]] + r[1..];
    } else {
      HasMember(r);
    }
  }

  lemma HasMember(s: seq<Txid>)
    ensures s != [] ==> exists t :: t in s
  {
    if s != [] {
      assert s[0] in s;
    }
  }

  lemma SameHead(s: seq<Txid>, r: seq<Txid>, book: Book)
    requires InBook(s, book) && InBook(r, book) && Sorted(s, book) && Sorted(r, book)
    requires s != [] && r != [] && s[0] in r && r[0] in s
    ensures s[0] == r[0]
  {
    var i :| 0 <= i < |r| && r[i] == s[0];
    var j :| 0 <= j < |s| && s[j] == r[0];
    if i > 0 && j > 0 {
      assert Before(book, r[0], r[i]) && Before(book, s[0], s[j]);
      BeforeIsStrictTotal(book, s[0], r[0], s[0]);
    }
  }

  lemma TailMembers(s: seq<Txid>, book: Book, t: Txid)
    requires s != [] && InBook(s, book) && Sorted(s, book)
    ensures t in s[1..] <==> t in s && t != s[0]
  {
    forall i | 0 < i < |s| ensures s[i] != s[0] {
      BeforeIsStrictTotal(book, s[0], s[0], s[0]);
      assert Before(book, s[0], s[i]);
    }
    if t in s && t != s[0] {
      var i :| 0 <= i < |s| && s[i] == t;
      assert s[1..][i - 1] == t;
    }
  }

  /** Where a row goes into a sorted listing. */
  function Insert(s: seq<Txid>, t: Txid, book: Book): (r: seq<Txid>)
    requires t in book && InBook(s, book)
    ensures InBook(r, book) && forall u :: u in r <==> u in s || u == t
  {
    if s == [] then [t]
    else if Before(book, t, s[0]) then [t] + s
    else
      assert InBook(s[1..], book);
      var rest := Insert(s[1..], t, book);
      assert s == [s[0]] + s[1..];
      [s[0]] + rest
  }

  lemma {:induction false} InsertSorts(s: seq<Txid>, t: Txid, book: Book)
    requires t in book && InBook(s, book) && Sorted(s, book) && t !in s
    ensures Sorted(Insert(s, t, book), book)
  {
    if s != [] {
      BeforeAll(s, t, book);
      if !Before(book, t, s[0]) {
        var rest := Insert(s[1..], t, book);
        InsertSorts(s[1..], t, book);
        forall j | 0 <= j < |rest| ensures Before(book, s[0], rest[j]) {
          assert rest[j] in rest;
          if rest[j] != t {
            var k :| 0 <= k < |s[1..]| && s[1..][k] == rest[j];
            assert s[k + 1] == rest[j];
          } else {
            BeforeIsStrictTotal(book, t, s[0], t);
          }
        }
      }
    }
  }

  lemma BeforeAll(s: seq<Txid>, t: Txid, book: Book)
    requires t in book && InBook(s, book) && Sorted(s, book) && s != []
    ensures Before(book, t, s[0]) ==> forall j :: 0 <= j < |s| ==> Before(book, t, s[j])
  {
    forall j | 0 <= j < |s| && Before(book, t, s[0]) ensures Before(book, t, s[j]) {
      BeforeIsStrictTotal(book, t, s[0], s[j]);
    }
  }

  /** Listing the rows in any order and sorting gives the one order. */
  ghost function SortRows(listed: seq<Txid>, book: Book): (r: seq<Txid>)
    requires InBook(listed, book)
    ensures InBook(r, book) && forall u :: u in r <==> u in listed
  {
    if listed == [] then []
    else
      assert listed == listed[..|listed|-1] + [listed[|listed|-1]];
      Insert(SortRows(listed[..|listed|-1], book), listed[|listed|-1], book)
  }

  ghost predicate Once(s: seq<Txid>) { forall i, j :: 0 <= i < j < |s| ==> s[i] != s[j] }

  lemma {:induction false} SortRowsIsOrder(listed: seq<Txid>, book: Book)
    requires InBook(listed, book) && Once(listed) && forall t :: t in book ==> t in listed
    ensures IsOrder(SortRows(listed, book), book)
  {
    SortRowsSorted(listed, book);
  }

  lemma {:induction false} SortRowsSorted(listed: seq<Txid>, book: Book)
    requires InBook(listed, book) && Once(listed)
    ensures Sorted(SortRows(listed, book), book)
  {
    if listed != [] {
      SortRowsSorted(listed[..|listed|-1], book);
      InsertSorts(SortRows(listed[..|listed|-1], book), listed[|listed|-1], book);
    }
  }

  /** `HistoryIndex::new` gives the same listing for every iteration order of the hash map. */
  lemma MapOrderDoesNotShow(a: seq<Txid>, b: seq<Txid>, book: Book)
    requires InBook(a, book) && Once(a) && (forall t :: t in book ==> t in a)
    requires InBook(b, book) && Once(b) && (forall t :: t in book ==> t in b)
    ensures SortRows(a, book) == SortRows(b, book)
  {
    SortRowsIsOrder(a, book);
    SortRowsIsOrder(b, book);
    OrderIsUnique(SortRows(a, book), SortRows(b, book), book);
  }

  /** In a listing pending rows come first, then the newest: with equal pending flags heights do not rise, with
      equal heights timestamps do not rise - an unknown one counting as 0 - and with all equal the ids rise. */
  ghost predicate NewestFirst(s: seq<Txid>, book: Book)
    requires InBook(s, book)
  {
    forall i, j :: 0 <= i < j < |s| ==>
      var x, y := book[s[i]], book[s[j]];
      && (y.pending ==> x.pending)
      && (x.pending == y.pending ==>
            && NotBelow(x.height, y.height)
            && (NotBelow(y.height, x.height) ==>
                  && NotBelow(x.timestamp, y.timestamp)
                  && (NotBelow(y.timestamp, x.timestamp) ==> s[i] < s[j])))
  }

  predicate NotBelow(a: Option<nat>, b: Option<nat>) {
    b.Some? && b.value > 0 ==> a.Some? && a.value >= b.value
  }

  lemma SortedIsOnce(s: seq<Txid>, book: Book)
    requires InBook(s, book) && Sorted(s, book)
    ensures Once(s)
  {
    forall i, j | 0 <= i < j < |s| ensures s[i] != s[j] {
      BeforeIsStrictTotal(book, s[i], s[i], s[i]);
      assert Before(book, s[i], s[j]);
    }
  }

  lemma SortedIsNewestFirst(s: seq<Txid>, book: Book)
    requires InBook(s, book) && Sorted(s, book)
    ensures NewestFirst(s, book)
  {
    assert forall i, j :: 0 <= i < j < |s| ==> Before(book, s[i], s[j]);
  }

  // ---------------------------------------------------------------------------------------------
  // Queries
  // ---------------------------------------------------------------------------------------------

  datatype Filter = All | Received | Sent | PendingOnly

  /** `search` stands for the substring test on the transaction id, `oversized` for the length limits. */
  datatype Query = Query(limit: nat, offset: nat, revision: Option<nat>, filter: Filter, search: Txid -> bool, oversized: bool,
                         from: Option<nat>, to: Option<nat>, txid: Option<Txid>, anchor: Option<Txid>)

  datatype Index = Index(identity: nat, revision: nat, book: Book, ordered: seq<Txid>, pending: nat)

  datatype Problem = InvalidQuery | ReversedRange | StaleCursor | MissingRevision | NotOpened

  datatype Page = Page(revision: nat, total: nat, matching: nat, pending: nat, offset: nat, next: Option<nat>,
                       anchorOffset: Option<nat>, rows: seq<Txid>)

  datatype Reply = Answer(page: Page) | Refused(problem: Problem)

  predicate Matches(book: Book, q: Query, t: Txid)
    requires t in book
  {
    var e := book[t];
    && (match q.filter case All => true case Received => !e.out case Sent => e.out case PendingOnly => e.pending)
    && q.search(t)
    && (q.txid.Some? ==> q.txid.value == t)
    && (q.from.Some? ==> e.timestamp.Some? && e.timestamp.value >= q.from.value)
    && (q.to.Some? ==> e.timestamp.Some? && e.timestamp.value <= q.to.value)
  }

  /** The matching rows, in order. */
  function Matching(book: Book, q: Query, ordered: seq<Txid>): (r: seq<Txid>)
    requires InBook(ordered, book)
    ensures forall t :: t in r <==> t in ordered && Matches(book, q, t)
  {
    if ordered == [] then []
    else
      var init, last := ordered[..|ordered|-1], ordered[|ordered|-1];
      assert ordered == init + [last];
      Matching(book, q, init) + if Matches(book, q, last) then [last] else []
  }

  lemma {:induction false} MatchingSorted(book: Book, q: Query, ordered: seq<Txid>)
    requires InBook(ordered, book) && Sorted(ordered, book)
    ensures InBook(Matching(book, q, ordered), book) && Sorted(Matching(book, q, ordered), book)
  {
    var r := Matching(book, q, ordered);
    if ordered != [] {
      var init, last := ordered[..|ordered|-1], ordered[|ordered|-1];
      MatchingSorted(book, q, init);
      forall i | 0 <= i < |Matching(book, q, init)| ensures Before(book, Matching(book, q, init)[i], last) {
        assert Matching(book, q, init)[i] in init;
      }
    }
    forall i | 0 <= i < |r| ensures r[i] in book {
      assert r[i] in r;
    }
  }

  function Problems(q: Query, revision: nat): Option<Problem> {
    if !(1 <= q.limit <= 200) || q.oversized then Some(InvalidQuery)
    else if q.from.Some? && q.to.Some? && q.from.value > q.to.value then Some(ReversedRange)
    else if q.revision.Some? && q.revision.value != revision then Some(StaleCursor)
    else if q.offset > 0 && q.revision == None then Some(MissingRevision)
    else None
  }

  /** The first place of `t`, if any. */
  function Position(rows: seq<Txid>, t: Txid): (p: Option<nat>)
    ensures p.Some? <==> t in rows
    ensures p.Some? ==> p.value < |rows| && rows[p.value] == t && forall j :: 0 <= j < p.value ==> rows[j] != t
  {
    if rows == [] then None
    else if rows[0] == t then Some(0)
    else
      var p := Position(rows[1..], t);
      if p.Some? then Some(p.value + 1) else None
  }

  /** The page boundary at or below a place. */
  function PageStart(at: nat, limit: nat): (start: nat)
    requires limit > 0
    ensures start <= at < start + limit && (at == 0 ==> start == 0)
  {
    RoundDown(at, limit);
    at / limit * limit
  }

  lemma RoundDown(a: nat, limit: nat)
    requires limit > 0
    ensures a / limit * limit <= a < a / limit * limit + limit
  {}

  function Offset(q: Query, anchor: Option<nat>): nat
    requires q.limit > 0
  {
    if q.anchor.Some? then PageStart(if anchor.Some? then anchor.value else 0, q.limit) else q.offset
  }

  /** The slice of the rows a page shows. */
  function Slice(rows: seq<Txid>, offset: nat, limit: nat): seq<Txid> {
    if offset >= |rows| then [] else if offset + limit <= |rows| then rows[offset..offset + limit] else rows[offset..]
  }

  function Anchor(rows: seq<Txid>, anchor: Option<Txid>): Option<nat> {
    if anchor.Some? then Position(rows, anchor.value) else None
  }

  function MakePage(index: Index, count: nat, offset: nat, anchor: Option<nat>, shown: seq<Txid>): Page {
    var end := offset + |shown|;
    Page(index.revision, |index.book|, count, index.pending, offset, if end < count then Some(end) else None, anchor, shown)
  }

  function PageOf(index: Index, q: Query): Page
    requires InBook(index.ordered, index.book) && q.limit > 0
  {
    var rows := Matching(index.book, q, index.ordered);
    var anchor := Anchor(rows, q.anchor);
    var offset := Offset(q, anchor);
    MakePage(index, |rows|, offset, anchor, Slice(rows, offset, q.limit))
  }

  /** One pass: count every match, push those that fall on the page. */
  method ShowRows(index: Index, q: Query, offset: nat) returns (count: nat, shown: seq<Txid>)
    requires InBook(index.ordered, index.book) && q.limit > 0
    ensures count == |Matching(index.book, q, index.ordered)|
    ensures shown == Slice(Matching(index.book, q, index.ordered), offset, q.limit)
  {
    count, shown := 0, [];
    ghost var seen: seq<Txid> := [];
    for i := 0 to |index.ordered|
      invariant seen == Matching(index.book, q, index.ordered[..i])
      invariant count == |seen| && shown == Slice(seen, offset, q.limit)
    {
      var t := index.ordered[i];
      MatchingSnoc(index.book, q, index.ordered, i);
      if Matches(index.book, q, t) {
        SliceGrows(seen, offset, q.limit, t);
        if count >= offset && |shown| < q.limit {
          shown := shown + [t];
        }
        count, seen := count + 1, seen + [t];
      }
    }
    assert index.ordered[..|index.ordered|] == index.ordered;
  }

  lemma MatchingSnoc(book: Book, q: Query, ordered: seq<Txid>, i: nat)
    requires InBook(ordered, book) && i < |ordered|
    ensures Matching(book, q, ordered[..i + 1])
         == Matching(book, q, ordered[..i]) + if Matches(book, q, ordered[i]) then [ordered[i]] else []
  {
    assert ordered[..i + 1][..i] == ordered[..i];
  }

  method RunQuery(index: Index, q: Query) returns (r: Reply)
    requires InBook(index.ordered, index.book)
    ensures match Problems(q, index.revision)
      case Some(p) => r == Refused(p)
      case None => r == Answer(PageOf(index, q))
    ensures r.Answer? ==>
      && r.page.revision == index.revision && r.page.total == |index.book| && r.page.pending == index.pending
      && r.page.matching == |Matching(index.book, q, index.ordered)|
    ensures var sized := 1 <= q.limit <= 200 && !q.oversized;
            var ranged := !(q.from.Some? && q.to.Some? && q.from.value > q.to.value);
            var current := q.revision == None || q.revision == Some(index.revision);
      && (!sized <==> r == Refused(InvalidQuery))
      && (sized && !ranged <==> r == Refused(ReversedRange))
      && (sized && ranged && !current <==> r == Refused(StaleCursor))
      && (sized && ranged && q.offset > 0 && q.revision == None <==> r == Refused(MissingRevision))
  {
    var problem := Problems(q, index.revision);
    if problem.Some? {
      return Refused(problem.value);
    }
    r := ReadPage(index, q);
  }

  method ReadPage(index: Index, q: Query) returns (r: Reply)
    requires InBook(index.ordered, index.book) && q.limit > 0
    ensures r == Answer(PageOf(index, q))
  {
    var anchor := None;
    if q.anchor.Some? {
      anchor := FindAnchor(index, q, q.anchor.value);
    }
    var offset := Offset(q, anchor);
    var count, shown := ShowRows(index, q, offset);
    r := Answer(MakePage(index, count, offset, anchor, shown));
  }

  method FindAnchor(index: Index, q: Query, anchor: Txid) returns (p: Option<nat>)
    requires InBook(index.ordered, index.book)
    ensures p == Position(Matching(index.book, q, index.ordered), anchor)
  {
    ghost var seen: seq<Txid> := [];
    var at := 0;
    for i := 0 to |index.ordered|
      invariant seen == Matching(index.book, q, index.ordered[..i])
      invariant at == |seen| && anchor !in seen
    {
      var t := index.ordered[i];
      MatchingSnoc(index.book, q, index.ordered, i);
      if Matches(index.book, q, t) {
        if t == anchor {
          FoundAt(index.book, q, index.ordered, i, seen);
          return Some(at);
        }
        at, seen := at + 1, seen + [t];
      }
    }
    assert index.ordered[..|index.ordered|] == index.ordered;
    p := None;
  }

  lemma FoundAt(book: Book, q: Query, ordered: seq<Txid>, i: nat, seen: seq<Txid>)
    requires InBook(ordered, book) && i < |ordered| && seen == Matching(book, q, ordered[..i])
    requires Matches(book, q, ordered[i]) && ordered[i] !in seen
    ensures Position(Matching(book, q, ordered), ordered[i]) == Some(|seen|)
  {
    MatchingSnoc(book, q, ordered, i);
    MatchingPrefix(book, q, ordered, i + 1);
    var rows, part := Matching(book, q, ordered), seen + [ordered[i]];
    assert rows[..|part|] == part;
    assert forall j :: 0 <= j < |part| ==> rows[j] == part[j];
    PositionIs(rows, ordered[i], |seen|);
  }

  lemma PositionIs(rows: seq<Txid>, t: Txid, at: nat)
    requires at < |rows| && rows[at] == t && forall j :: 0 <= j < at ==> rows[j] != t
    ensures Position(rows, t) == Some(at)
  {}

  lemma {:induction false} MatchingPrefix(book: Book, q: Query, ordered: seq<Txid>, k: nat)
    requires InBook(ordered, book) && k <= |ordered|
    ensures var part, all := Matching(book, q, ordered[..k]), Matching(book, q, ordered);
      |part| <= |all| && all[..|part|] == part
    decreases |ordered| - k
  {
    if k < |ordered| {
      MatchingSnoc(book, q, ordered, k);
      MatchingPrefix(book, q, ordered, k + 1);
      PrefixSteps(Matching(book, q, ordered[..k]), Matching(book, q, ordered[..k + 1]), Matching(book, q, ordered));
    } else {
      assert ordered[..k] == ordered;
    }
  }

  lemma PrefixSteps(part: seq<Txid>, longer: seq<Txid>, all: seq<Txid>)
    requires part <= longer && |longer| <= |all| && all[..|longer|] == longer
    ensures |part| <= |all| && all[..|part|] == part
  {
    assert all[..|longer|][..|part|] == all[..|part|];
  }

  lemma SliceGrows(seen: seq<Txid>, offset: nat, limit: nat, t: Txid)
    requires limit > 0
    ensures Slice(seen + [t], offset, limit)
      == if |seen| >= offset && |Slice(seen, offset, limit)| < limit then Slice(seen, offset, limit) + [t] else Slice(seen, offset, limit)
  {}

  // ---------------------------------------------------------------------------------------------
  // Paging
  // ---------------------------------------------------------------------------------------------

  /** The rows shown by following `next` from an offset on, all under one revision. */
  ghost function Walk(index: Index, q: Query, offset: nat): seq<Txid>
    requires InBook(index.ordered, index.book) && q.limit > 0 && q.anchor == None
    decreases |Matching(index.book, q, index.ordered)| - offset
  {
    var page := PageOf(index, q.(offset := offset, revision := Some(index.revision)));
    assert Matching(index.book, q.(offset := offset, revision := Some(index.revision)), index.ordered)
        == Matching(index.book, q, index.ordered) by {
      MatchingIgnoresPlace(index.book, q, q.(offset := offset, revision := Some(index.revision)), index.ordered);
    }
    page.rows + if page.next.Some? then Walk(index, q, page.next.value) else []
  }

  lemma {:induction false} MatchingIgnoresPlace(book: Book, q: Query, r: Query, ordered: seq<Txid>)
    requires InBook(ordered, book)
    requires r == q.(offset := r.offset, revision := r.revision)
    ensures Matching(book, r, ordered) == Matching(book, q, ordered)
  {
    if ordered != [] {
      MatchingIgnoresPlace(book, q, r, ordered[..|ordered|-1]);
    }
  }

  /** Following the continuation terminates and shows exactly the remaining matching rows, in order. */
  lemma {:induction false} WalkShowsTheRest(index: Index, q: Query, offset: nat)
    requires InBook(index.ordered, index.book) && q.limit > 0 && q.anchor == None
    ensures var rows := Matching(index.book, q, index.ordered);
      Walk(index, q, offset) == if offset <= |rows| then rows[offset..] else []
    decreases |Matching(index.book, q, index.ordered)| - offset
  {
    var rows := Matching(index.book, q, index.ordered);
    var r := q.(offset := offset, revision := Some(index.revision));
    MatchingIgnoresPlace(index.book, q, r, index.ordered);
    var page := PageOf(index, r);
    PageShows(rows, page, index, offset, q.limit);
    if page.next.Some? {
      WalkShowsTheRest(index, q, page.next.value);
    }
  }

  /** A page and what follows it. */
  lemma PageShows(rows: seq<Txid>, page: Page, index: Index, offset: nat, limit: nat)
    requires limit > 0 && page == MakePage(index, |rows|, offset, None, Slice(rows, offset, limit))
    ensures page.next.Some? ==> offset < page.next.value <= |rows| && page.rows + rows[page.next.value..] == rows[offset..]
    ensures page.next == None ==> page.rows == if offset <= |rows| then rows[offset..] else []
  {}

  /** From the first page on: every matching row of the book, once, in the unique order. */
  lemma PagesTileTheRows(index: Index, q: Query)
    requires IsOrder(index.ordered, index.book) && q.limit > 0 && q.anchor == None
    ensures var shown := Walk(index, q, 0);
      && InBook(shown, index.book) && Sorted(shown, index.book) && NewestFirst(shown, index.book) && Once(shown)
      && forall t :: t in shown <==> t in index.book && Matches(index.book, q, t)
  {
    WalkShowsTheRest(index, q, 0);
    var rows := Matching(index.book, q, index.ordered);
    assert rows[0..] == rows;
    MatchingSorted(index.book, q, index.ordered);
    forall t ensures t in index.ordered <==> t in index.book {
      if t in index.ordered {
        var i :| 0 <= i < |index.ordered| && index.ordered[i] == t;
      }
    }
    SortedIsNewestFirst(rows, index.book);
    SortedIsOnce(rows, index.book);
  }

  /** An anchored query returns the page that holds the anchor, `anchorOffset - offset` rows down,
      exactly when the anchor matches; otherwise it returns the first page. */
  lemma AnchorPageHoldsAnchor(index: Index, q: Query)
    requires InBook(index.ordered, index.book) && q.limit > 0 && q.anchor.Some?
    ensures var page, rows := PageOf(index, q), Matching(index.book, q, index.ordered);
      && (page.anchorOffset.Some? <==> q.anchor.value in rows)
      && (page.anchorOffset.Some? ==>
            && page.offset <= page.anchorOffset.value < page.offset + q.limit && page.offset == PageStart(page.anchorOffset.value, q.limit)
            && page.anchorOffset.value - page.offset < |page.rows|
            && page.rows[page.anchorOffset.value - page.offset] == q.anchor.value)
      && (page.anchorOffset == None ==> page.offset == 0)
  {
    var rows := Matching(index.book, q, index.ordered);
    var anchor := Position(rows, q.anchor.value);
    if anchor.Some? {
      SliceHolds(rows, PageStart(anchor.value, q.limit), q.limit, anchor.value);
    }
  }

  lemma SliceHolds(rows: seq<Txid>, offset: nat, limit: nat, at: nat)
    requires offset <= at < offset + limit && at < |rows|
    ensures at - offset < |Slice(rows, offset, limit)| && Slice(rows, offset, limit)[at - offset] == rows[at]
  {}

  // ---------------------------------------------------------------------------------------------
  // The cached index
  // ---------------------------------------------------------------------------------------------

  /** What history knows of one open wallet. */
  datatype Slot = Slot(identity: nat, book: Book, index: Option<Index>)

  datatype Content = Content(identity: nat, book: Book)

  function PendingCount(rows: seq<Txid>, book: Book): nat
    requires InBook(rows, book)
  {
    if rows == [] then 0 else PendingCount(rows[..|rows|-1], book) + if book[rows[|rows|-1]].pending then 1 else 0
  }

  ghost predicate IsIndex(i: Index) {
    IsOrder(i.ordered, i.book)
  }

  /** All open wallets and the revision counter they share. `issued` remembers what every revision ever
      handed out stood for. */
  class HistoryStore {
    var nextRevision: nat
    var wallets: map<nat, Slot>
    ghost var issued: map<nat, Content>

    ghost predicate Valid()
      reads this
    {
      && (forall r :: r in issued ==> r < nextRevision)
      && (forall id :: id in wallets && wallets[id].index.Some? ==>
            var i := wallets[id].index.value;
            IsIndex(i) && i.revision in issued && issued[i.revision] == Content(i.identity, i.book))
    }

    constructor ()
      ensures Valid() && wallets == map[] && issued == map[]
    {
      nextRevision, wallets, issued := 1, map[], map[];
    }

    /** Any mutator of the wallet: the ledger becomes anything, the cached index stays behind or is dropped. */
    method Update(id: nat, identity: nat, book: Book, drop: bool)
      requires Valid()
      modifies this`wallets
      ensures Valid() && id in wallets && wallets[id] == Slot(identity, book, if id in old(wallets) && !drop then old(wallets)[id].index else None)
      ensures forall other :: other != id ==> (other in wallets <==> other in old(wallets)) && (other in wallets ==> wallets[other] == old(wallets)[other])
    {
      var index := if id in wallets && !drop then wallets[id].index else None;
      wallets := wallets[id := Slot(identity, book, index)];
    }

    /** Rebuild the index only when identity or ledger changed. */
    method EnsureIndex(id: nat)
      requires Valid() && id in wallets
      modifies this
      ensures Valid() && Kept(old(issued), issued)
      ensures wallets.Keys == old(wallets).Keys && forall w :: w in wallets ==> wallets[w] == old(wallets)[w].(index := wallets[w].index)
      ensures wallets[id].index.Some? && IsFor(wallets[id].index.value, wallets[id])
      ensures if UpToDate(old(wallets[id])) then unchanged(this) else wallets[id].index.value.revision !in old(issued)
    {
      var slot := wallets[id];
      if slot.index == None || slot.index.value.identity != slot.identity || slot.index.value.book != slot.book {
        var index := NewIndex(slot.identity, slot.book, nextRevision);
        issued := issued[nextRevision := Content(slot.identity, slot.book)];
        nextRevision := nextRevision + 1;
        wallets := wallets[id := slot.(index := Some(index))];
      }
    }

    /** Whatever was cached, the answer is about the current ledger, its revision stands for that ledger
        and for no other, and a continuation is answered only under the revision it names. */
    method QueryHistory(id: nat, q: Query) returns (r: Reply)
      requires Valid()
      modifies this
      ensures Valid() && Kept(old(issued), issued)
      ensures wallets.Keys == old(wallets).Keys && forall w :: w in wallets ==> wallets[w] == old(wallets)[w].(index := wallets[w].index)
      ensures id !in wallets ==> r == Refused(NotOpened)
      ensures id in wallets ==> wallets[id].index.Some? && AnswersFrom(wallets[id].index.value, wallets[id], q, r)
      ensures r.Answer? ==> r.page.revision in issued && id in wallets && issued[r.page.revision] == Content(wallets[id].identity, wallets[id].book)
      ensures r.Answer? && q.revision.Some? ==> r.page.revision == q.revision.value
      ensures id in wallets ==> if UpToDate(old(wallets)[id]) then unchanged(this) else wallets[id].index.value.revision !in old(issued)
    {
      if id !in wallets {
        return Refused(NotOpened);
      }
      EnsureIndex(id);
      r := RunQuery(wallets[id].index.value, q);
    }
  }

  /** Revisions already issued keep their meaning. */
  ghost predicate Kept(before: map<nat, Content>, after: map<nat, Content>) {
    forall r :: r in before ==> r in after && after[r] == before[r]
  }

  ghost predicate IsFor(i: Index, slot: Slot) {
    IsIndex(i) && i.identity == slot.identity && i.book == slot.book
  }

  /** The cached index is of the current ledger. */
  predicate UpToDate(slot: Slot) {
    slot.index.Some? && slot.index.value.identity == slot.identity && slot.index.value.book == slot.book
  }

  /** The reply is computed from an index of exactly the slot's ledger. */
  ghost predicate AnswersFrom(i: Index, slot: Slot, q: Query, r: Reply) {
    && IsFor(i, slot)
    && (match Problems(q, i.revision) case Some(p) => r == Refused(p) case None => r == Answer(PageOf(i, q)))
  }

  /** List the rows as the map gives them, sort, count. */
  method NewIndex(identity: nat, book: Book, revision: nat) returns (index: Index)
    ensures IsIndex(index) && index.identity == identity && index.book == book && index.revision == revision
    ensures NewestFirst(index.ordered, book) && index.pending == PendingCount(index.ordered, book)
  {
    var ordered: seq<Txid> := [];
    var rest := book.Keys;
    while rest != {}
      invariant rest <= book.Keys && InBook(ordered, book) && Sorted(ordered, book)
      invariant forall t :: t in ordered <==> t in book && t !in rest
    {
      var t :| t in rest;
      rest := rest - {t};
      InsertSorts(ordered, t, book);
      ordered := Insert(ordered, t, book);
    }
    SortedIsNewestFirst(ordered, book);
    var pending := 0;
    for i := 0 to |ordered|
      invariant pending == PendingCount(ordered[..i], book)
    {
      assert ordered[..i + 1][..i] == ordered[..i];
      if book[ordered[i]].pending {
        pending := pending + 1;
      }
    }
    assert ordered[..|ordered|] == ordered;
    index := Index(identity, revision, book, ordered, pending);
  }
}
