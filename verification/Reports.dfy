/** The list reports of api/reports.py: filter, sort, cut out a page.  Read page by
    page, the whole list comes out once; with severity=critical, only what the
    over-fetch reaches does. */
module Reports {
  import opened Wrappers

  const MAX_PAGE_SIZE := 200
  const OVERFETCH := 4

  // ---- filtering, sorting and slicing

  function Filter<T>(xs: seq<T>, keep: T -> bool): seq<T> {
    if xs == [] then []
    else
      var init := Filter(xs[..|xs|-1], keep);
      if keep(xs[|xs|-1]) then init + [xs[|xs|-1]] else init
  }

  /** `x` behind everything whose key is not greater. */
  function Insert<T>(xs: seq<T>, x: T, key: T -> int): seq<T> {
    if xs == [] || key(xs[|xs|-1]) <= key(x) then xs + [x]
    else Insert(xs[..|xs|-1], x, key) + [xs[|xs|-1]]
  }

  /** A stable sort by key, what the library sort of the source is specified to be. */
  function SortBy<T>(xs: seq<T>, key: T -> int): seq<T> {
    if xs == [] then [] else Insert(SortBy(xs[..|xs|-1], key), xs[|xs|-1], key)
  }

  predicate Ordered<T>(xs: seq<T>, key: T -> int) {
    forall i, j :: 0 <= i < j < |xs| ==> key(xs[i]) <= key(xs[j])
  }

  lemma {:induction false} InsertKeeps<T>(xs: seq<T>, x: T, key: T -> int)
    ensures multiset(Insert(xs, x, key)) == multiset(xs) + multiset{x}
  {
    if xs != [] && key(xs[|xs|-1]) > key(x) {
      InsertKeeps(xs[..|xs|-1], x, key);
      assert xs == xs[..|xs|-1] + [xs[|xs|-1]];
    }
  }

  /** Whatever bounds the keys bounds them after an insertion too. */
  lemma {:induction false} InsertBounded<T>(xs: seq<T>, x: T, key: T -> int, most: int)
    requires (forall i :: 0 <= i < |xs| ==> key(xs[i]) <= most) && key(x) <= most
    ensures forall i :: 0 <= i < |Insert(xs, x, key)| ==> key(Insert(xs, x, key)[i]) <= most
  {
    if xs != [] && key(xs[|xs|-1]) > key(x) {
      InsertBounded(xs[..|xs|-1], x, key, most);
    }
  }

  lemma {:induction false} InsertSorts<T>(xs: seq<T>, x: T, key: T -> int)
    requires Ordered(xs, key)
    ensures Ordered(Insert(xs, x, key), key)
  {
    if xs != [] && key(xs[|xs|-1]) > key(x) {
      InsertSorts(xs[..|xs|-1], x, key);
      InsertBounded(xs[..|xs|-1], x, key, key(xs[|xs|-1]));
    }
  }

  /** The elements with key `v`, in order. */
  function WithKey<T>(xs: seq<T>, key: T -> int, v: int): seq<T> {
    if xs == [] then []
    else
      var init := WithKey(xs[..|xs|-1], key, v);
      if key(xs[|xs|-1]) == v then init + [xs[|xs|-1]] else init
  }

  lemma {:induction false} InsertStable<T>(xs: seq<T>, x: T, key: T -> int, v: int)
    requires Ordered(xs, key)
    ensures WithKey(Insert(xs, x, key), key, v) == WithKey(xs + [x], key, v)
  {
    if xs != [] && key(xs[|xs|-1]) > key(x) {
      var init, last := xs[..|xs|-1], xs[|xs|-1];
      InsertStable(init, x, key, v);
      WithKeySnoc(Insert(init, x, key), last, key, v);
      WithKeySnoc(init, x, key, v);
      WithKeySnoc(init, last, key, v);
      WithKeySnoc(xs, x, key, v);
      assert xs == init + [last];
    }
  }

  lemma WithKeySnoc<T>(xs: seq<T>, x: T, key: T -> int, v: int)
    ensures WithKey(xs + [x], key, v) == WithKey(xs, key, v) + if key(x) == v then [x] else []
  {
    assert (xs + [x])[..|xs|] == xs;
  }

  /** The sort orders by key, keeps every element, and keeps the order of equals. */
  lemma {:induction false} SortBySorts<T>(xs: seq<T>, key: T -> int, v: int)
    ensures Ordered(SortBy(xs, key), key) && multiset(SortBy(xs, key)) == multiset(xs)
    ensures WithKey(SortBy(xs, key), key, v) == WithKey(xs, key, v)
  {
    if xs != [] {
      var init, last := xs[..|xs|-1], xs[|xs|-1];
      SortBySorts(init, key, v);
      InsertKeeps(SortBy(init, key), last, key);
      InsertSorts(SortBy(init, key), last, key);
      InsertStable(SortBy(init, key), last, key, v);
      WithKeySnoc(SortBy(init, key), last, key, v);
      WithKeySnoc(init, last, key, v);
      assert xs == init + [last];
    }
  }

  /** Slicing, which clamps at the end. */
  function Slice<T>(xs: seq<T>, from: nat, to: nat): seq<T>
    requires from <= to
  {
    xs[Min(from, |xs|)..Min(to, |xs|)]
  }

  // ---- pages

  datatype Envelope = Envelope(total: nat, page: int, pageSize: int, hasNext: bool)

  function PaginateEnvelope(total: nat, page: int, pageSize: int): Envelope {
    Envelope(total, page, pageSize, page * pageSize < total)
  }

  /** Page `page` of a list, counted from 1. */
  function PageOf<T>(xs: seq<T>, page: nat, pageSize: nat): seq<T>
    requires page > 0
  {
    var offset := (page - 1) * pageSize;
    Slice(xs, offset, offset + pageSize)
  }

  /** The first `n` pages, one after another. */
  function FirstPages<T>(xs: seq<T>, n: nat, pageSize: nat): seq<T> {
    if n == 0 then [] else FirstPages(xs, n - 1, pageSize) + PageOf(xs, n, pageSize)
  }

  /** How many pages it takes: the total divided by the page size, rounded up. */
  function PageCount(total: nat, pageSize: nat): nat
    requires pageSize > 0
  {
    if total == 0 then 0 else if total <= pageSize then 1 else 1 + PageCount(total - pageSize, pageSize)
  }

  /** It is the total over the page size, rounded up. */
  lemma {:induction false} PagesRoundUp(total: nat, pageSize: nat)
    requires pageSize > 0
    ensures total <= PageCount(total, pageSize) * pageSize < total + pageSize
  {
    if total > pageSize {
      PagesRoundUp(total - pageSize, pageSize);
      var n := PageCount(total - pageSize, pageSize);
      assert (1 + n) * pageSize == pageSize + n * pageSize;
    }
  }

  lemma {:induction false} FirstPagesAre<T>(xs: seq<T>, n: nat, pageSize: nat)
    ensures FirstPages(xs, n, pageSize) == xs[..Min(n * pageSize, |xs|)]
  {
    if n > 0 {
      FirstPagesAre(xs, n - 1, pageSize);
      assert n * pageSize == (n - 1) * pageSize + pageSize;
    }
  }

  /** There is a next page exactly before the last one. */
  lemma {:induction false} HasNextIff(total: nat, page: nat, pageSize: nat)
    requires page > 0 && pageSize > 0
    ensures PaginateEnvelope(total, page, pageSize).hasNext <==> page < PageCount(total, pageSize)
    decreases page
  {
    assert page * pageSize == (page - 1) * pageSize + pageSize;
    if total > pageSize && page > 1 {
      HasNextIff(total - pageSize, page - 1, pageSize);
    } else if total > pageSize {
      assert PageCount(total - pageSize, pageSize) > 0;
    } else {
      assert page * pageSize >= pageSize;
    }
  }

  /** Reading page after page gives the whole list once, and nothing after. */
  lemma AllPages<T>(xs: seq<T>, pageSize: nat)
    requires pageSize > 0
    ensures FirstPages(xs, PageCount(|xs|, pageSize), pageSize) == xs
    ensures forall page :: page > PageCount(|xs|, pageSize) ==> PageOf(xs, page, pageSize) == []
  {
    var n := PageCount(|xs|, pageSize);
    FirstPagesAre(xs, n, pageSize);
    PagesReach(|xs|, n, pageSize);
    assert xs[..|xs|] == xs;
    forall page | page > n
      ensures PageOf(xs, page, pageSize) == []
    {
      PagesReach(|xs|, page - 1, pageSize);
    }
  }

  lemma {:induction false} PagesReach(total: nat, n: nat, pageSize: nat)
    requires pageSize > 0 && n >= PageCount(total, pageSize)
    ensures n * pageSize >= total
  {
    if n > 0 {
      HasNextIff(total, n, pageSize);
    }
  }

  datatype Answer<T> = Invalid | Answer(rows: seq<T>, envelope: Envelope)

  predicate ValidPaging(page: int, pageSize: int) {
    page >= 1 && 1 <= pageSize <= 200
  }

  /** The page of a list, with the total, what was asked for, and whether anything comes
      after; or a refusal of the page number or size. */
  ghost predicate Answers<T>(a: Answer<T>, xs: seq<T>, page: int, pageSize: int) {
    if !ValidPaging(page, pageSize) then a == Invalid
    else
      a.Answer? && a.rows == PageOf(xs, page, pageSize) && a.envelope.total == |xs| && a.envelope.page == page &&
      a.envelope.pageSize == pageSize && (a.envelope.hasNext <==> page < PageCount(|xs|, pageSize))
  }

  /** The completeness and income reports: what is kept, sorted, one page of it. */
  method ListReport<T>(rows: seq<T>, keep: T -> bool, key: T -> int, page: int, pageSize: int) returns (a: Answer<T>)
    ensures Answers(a, SortBy(Filter(rows, keep), key), page, pageSize)
  {
    if page < 1 || pageSize < 1 || pageSize > MAX_PAGE_SIZE {
      return Invalid;
    }
    var kept := [];
    for k := 0 to |rows|
      invariant kept == Filter(rows[..k], keep)
    {
      assert rows[..k+1][..k] == rows[..k];
      if !keep(rows[k]) {
        continue;
      }
      kept := kept + [rows[k]];
    }
    assert rows[..|rows|] == rows;
    var sorted := SortBy(kept, key);
    var total, offset := |sorted|, (page - 1) * pageSize;
    HasNextIff(total, page, pageSize);
    a := Answer(Slice(sorted, offset, offset + pageSize), PaginateEnvelope(total, page, pageSize));
  }

  /** The list report read page by page: every kept row, once, in order. */
  lemma ListReportComplete<T>(rows: seq<T>, keep: T -> bool, key: T -> int, pageSize: nat, v: int)
    requires pageSize > 0
    ensures var xs := SortBy(Filter(rows, keep), key);
      Ordered(xs, key) && multiset(xs) == multiset(Filter(rows, keep)) &&
      FirstPages(xs, PageCount(|xs|, pageSize), pageSize) == xs
    ensures WithKey(SortBy(Filter(rows, keep), key), key, v) == WithKey(Filter(rows, keep), key, v)
  {
    SortBySorts(Filter(rows, keep), key, v);
    AllPages(SortBy(Filter(rows, keep), key), pageSize);
  }

  // ---- the conflicts report

  /** What the over-fetch reaches. */
  function Fetched<T>(all: seq<T>, pageSize: nat): seq<T> {
    all[..Min(OVERFETCH * pageSize, |all|)]
  }

  method ConflictsReport<T>(all: seq<T>, critical: T -> bool, criticalOnly: bool, page: int, pageSize: int)
    returns (a: Answer<T>)
    ensures !criticalOnly ==> Answers(a, all, page, pageSize)
    ensures criticalOnly && ValidPaging(page, pageSize) ==>
      Answers(a, Filter(Fetched(all, pageSize), critical), page, pageSize)
    ensures !ValidPaging(page, pageSize) ==> a == Invalid
  {
    if page < 1 || pageSize < 1 || pageSize > MAX_PAGE_SIZE {
      return Invalid;
    }
    var offset := (page - 1) * pageSize;
    if criticalOnly {
      var fetched := Slice(all, 0, pageSize * 4);
      var filtered := Filter(fetched, critical);
      HasNextIff(|filtered|, page, pageSize);
      a := Answer(Slice(filtered, offset, offset + pageSize), PaginateEnvelope(|filtered|, page, pageSize));
    } else {
      HasNextIff(|all|, page, pageSize);
      a := Answer(Slice(all, offset, offset + pageSize), PaginateEnvelope(|all|, page, pageSize));
    }
  }

  lemma {:induction false} FilterAppend<T>(xs: seq<T>, ys: seq<T>, keep: T -> bool)
    ensures Filter(xs + ys, keep) == Filter(xs, keep) + Filter(ys, keep)
  {
    if ys == [] {
      assert xs + ys == xs;
    } else {
      assert (xs + ys)[..|xs + ys|-1] == xs + ys[..|ys|-1];
      FilterAppend(xs, ys[..|ys|-1], keep);
    }
  }

  lemma {:induction false} FilterNone<T>(xs: seq<T>, keep: T -> bool)
    ensures Filter(xs, keep) == [] <==> forall i :: 0 <= i < |xs| ==> !keep(xs[i])
  {
    if xs != [] {
      FilterNone(xs[..|xs|-1], keep);
    }
  }

  /** With severity=critical all pages together give every critical row exactly when
      none lies beyond the first four pages' worth of fetched rows; and there are
      never more than four pages. */
  lemma CriticalPages<T>(all: seq<T>, critical: T -> bool, pageSize: nat)
    requires pageSize > 0
    ensures var xs := Filter(Fetched(all, pageSize), critical);
      FirstPages(xs, PageCount(|xs|, pageSize), pageSize) == xs && PageCount(|xs|, pageSize) <= OVERFETCH &&
      (xs == Filter(all, critical) <==> forall i :: OVERFETCH * pageSize <= i < |all| ==> !critical(all[i]))
  {
    var fetched := Fetched(all, pageSize);
    var beyond := all[|fetched|..];
    var xs := Filter(fetched, critical);
    AllPages(xs, pageSize);
    assert all == fetched + beyond;
    FilterAppend(fetched, beyond, critical);
    FilterNone(beyond, critical);
    assert forall i :: 0 <= i < |beyond| ==> beyond[i] == all[|fetched| + i];
    FilterShorter(fetched, critical);
    HasNextIff(|xs|, OVERFETCH, pageSize);
    if forall i :: OVERFETCH * pageSize <= i < |all| ==> !critical(all[i]) {
      assert forall i :: 0 <= i < |beyond| ==> !critical(beyond[i]);
    } else {
      var i :| OVERFETCH * pageSize <= i < |all| && critical(all[i]);
      assert beyond[i - |fetched|] == all[i];
    }
  }

  lemma {:induction false} FilterShorter<T>(xs: seq<T>, keep: T -> bool)
    ensures |Filter(xs, keep)| <= |xs|
  {
    if xs != [] {
      FilterShorter(xs[..|xs|-1], keep);
    }
  }
}
