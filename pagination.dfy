/** The pagination arithmetic shared by the order and product listings:
    `skip = (page-1)*limit`, `totalPages = Math.ceil(total/limit)`, the two
    `has…Page` flags, and the `skip`/`limit` window the database returns. */
module Pagination {
  import opened Common
  import opened Sorting

  function Skip(page: int, limit: int): int {
    (page - 1) * limit
  }

  /** The value of `Math.ceil(total / limit)` in JavaScript arithmetic. */
  datatype PageCount = Pages(n: int) | Infinite | NotANumber

  function TotalPages(total: nat, limit: int): (r: PageCount)
    ensures limit > 0 ==> r.Pages? && (r.n - 1) * limit < total <= r.n * limit
    ensures limit == 0 ==> (r == Infinite <==> total > 0) && (r == NotANumber <==> total == 0)
    ensures limit < 0 ==> r.Pages? && r.n <= 0
  {
    if limit > 0 then Pages((total + limit - 1) / limit)
    else if limit == 0 then (if total > 0 then Infinite else NotANumber)
    else Pages(-(total / (-limit)))
  }

  /** `page < totalPages` (a comparison with NaN is false). */
  predicate HasNextPage(page: int, totalPages: PageCount) {
    match totalPages
    case Pages(n) => page < n
    case Infinite => true
    case NotANumber => false
  }

  datatype PageInfo = PageInfo(
    currentPage: int,
    totalPages: PageCount,
    totalItems: nat,
    hasNextPage: bool,
    hasPrevPage: bool)

  function Info(page: int, limit: int, total: nat): PageInfo {
    var tp := TotalPages(total, limit);
    PageInfo(page, tp, total, HasNextPage(page, tp), page > 1)
  }

  function Min(a: int, b: int): int {
    if a < b then a else b
  }

  function Abs(x: int): nat {
    if x < 0 then -x else x
  }

  /** `.skip(skip).limit(limit)`: a limit of 0 means no limit and a negative
      limit is taken by its absolute value. */
  function Window<T>(s: seq<T>, skip: nat, limit: int): (r: seq<T>)
    ensures |r| <= |s|
    ensures limit != 0 ==> |r| <= Abs(limit)
    ensures forall i :: 0 <= i < |r| ==> skip + i < |s| && r[i] == s[skip + i]
    ensures skip <= |s| ==> |r| == if limit == 0 then |s| - skip else Min(Abs(limit), |s| - skip)
    ensures skip >= |s| ==> r == []
  {
    var start := Min(skip, |s|);
    var end := if limit == 0 then |s| else Min(skip + Abs(limit), |s|);
    s[start..end]
  }

  /** A window of a sorted listing is sorted. */
  lemma WindowSorted<T>(s: seq<T>, skip: nat, limit: int, le: (T, T) -> bool)
    requires SortedBy(s, le)
    ensures SortedBy(Window(s, skip, limit), le)
  {
    var w := Window(s, skip, limit);
    forall i, j | 0 <= i < j < |w| ensures le(w[i], w[j]) {
      assert w[i] == s[skip + i] && w[j] == s[skip + j];
    }
  }

  /** A page of a listing; `None` when the database refuses a negative skip. */
  function PageOf<T>(s: seq<T>, page: int, limit: int): (r: Option<seq<T>>)
    ensures r.None? <==> Skip(page, limit) < 0
  {
    var skip := Skip(page, limit);
    if skip < 0 then None else Some(Window(s, skip, limit))
  }

  /** Pages `from` to `upto` of `s`, one after the other. */
  function PagesFrom<T>(s: seq<T>, limit: int, from: int, upto: int): seq<T>
    requires limit > 0 && from >= 1
    decreases upto - from
  {
    if from > upto then [] else Window(s, Skip(from, limit), limit) + PagesFrom(s, limit, from + 1, upto)
  }

  lemma {:induction false} PagesFromSuffix<T>(s: seq<T>, limit: int, from: int, upto: int)
    requires limit > 0 && from >= 1
    requires |s| <= upto * limit
    ensures Skip(from, limit) <= |s| ==> PagesFrom(s, limit, from, upto) == s[Skip(from, limit)..]
    ensures Skip(from, limit) > |s| ==> PagesFrom(s, limit, from, upto) == []
    decreases upto - from
  {
    var skip := Skip(from, limit);
    if from > upto {
      MulMono(upto, from - 1, limit);
      if skip <= |s| { assert s[skip..] == []; }
    } else {
      assert PagesFrom(s, limit, from, upto)
        == Window(s, skip, limit) + PagesFrom(s, limit, from + 1, upto);
      PagesFromSuffix(s, limit, from + 1, upto);
      assert Skip(from + 1, limit) == skip + limit by { SkipStep(from, limit); }
      WindowThenRest(s, skip, limit);
    }
  }

  /** One page followed by whatever lies after it is the suffix from the
      page's skip. */
  lemma WindowThenRest<T>(s: seq<T>, skip: nat, limit: int)
    requires limit > 0
    ensures skip + limit <= |s| ==> Window(s, skip, limit) + s[skip + limit..] == s[skip..]
    ensures skip <= |s| < skip + limit ==> Window(s, skip, limit) == s[skip..]
    ensures |s| < skip ==> Window(s, skip, limit) == []
  {
    if skip + limit <= |s| {
      assert Window(s, skip, limit) == s[skip..skip + limit];
      assert s[skip..] == s[skip..skip + limit] + s[skip + limit..];
    }
  }

  lemma SkipStep(page: int, limit: int)
    ensures Skip(page + 1, limit) == Skip(page, limit) + limit
  {
  }

  /** Walking the pages 1 .. totalPages lists every item once, in order. */
  lemma PagesCoverListing<T>(s: seq<T>, limit: int)
    requires limit > 0
    ensures PagesFrom(s, limit, 1, TotalPages(|s|, limit).n) == s
  {
    var n := TotalPages(|s|, limit).n;
    assert Skip(1, limit) == 0;
    PagesFromSuffix(s, limit, 1, n);
  }

  /** `hasNextPage` holds exactly when the following page is not empty. */
  lemma {:induction false} HasNextPageMeansMore<T>(s: seq<T>, page: int, limit: int)
    requires limit > 0 && page >= 1
    ensures Info(page, limit, |s|).hasNextPage <==> Window(s, Skip(page + 1, limit), limit) != []
  {
    var n := TotalPages(|s|, limit).n;
    var next := Skip(page + 1, limit);
    assert next == page * limit;
    if page < n {
      assert page <= n - 1;
      assert page * limit <= (n - 1) * limit by { MulMono(page, n - 1, limit); }
      assert Window(s, next, limit)[0] == s[next];
    } else {
      assert n * limit <= page * limit by { MulMono(n, page, limit); }
    }
  }

  lemma MulMono(a: int, b: int, c: int)
    requires a <= b && c >= 0
    ensures a * c <= b * c
  {
  }
}
