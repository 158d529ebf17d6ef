/** Pagination as every listing handler does it: `.sort(...).limit(limit * 1).skip((page - 1) * limit)`
    on the query, `countDocuments` for `total` and `Math.ceil(total / limit)` for `totalPages`. */
module Paging {
  import opened Common
  import opened Seqs

  /** The `page` and `limit` query parameters; `None` is a parameter that was not supplied. */
  datatype PageQuery = PageQuery(page: Option<int>, limit: Option<nat>)

  /** The JSON body `{ <items>, totalPages, currentPage, total }`. A `totalPages` of `None`
      is the `null` that `JSON.stringify` writes for `Math.ceil(total / 0)`. */
  datatype Listing<T> = Listing(items: seq<T>, totalPages: Option<nat>, currentPage: int, total: nat)

  /** Message of the database error for a negative `skip`. */
  const NegativeSkipError: string := "skip value must be non-negative"

  /** `page` when supplied, else the default page 1. */
  function PageNumber(q: PageQuery): int {
    if q.page.Some? then q.page.value else 1
  }

  /** `limit` when supplied, else the handler's default. */
  function PageLimit(q: PageQuery, defaultLimit: nat): nat {
    if q.limit.Some? then q.limit.value else defaultLimit
  }

  /** `Math.ceil(a / b)` for a positive divisor. */
  function CeilDiv(a: nat, b: nat): (c: nat)
    requires b > 0
    ensures c * b >= a
    ensures c == 0 || (c - 1) * b < a
  {
    (a + b - 1) / b
  }

  /** `totalPages`: the number of pages of `limit` records that hold `total` records, and
      `null` when `limit` is 0. */
  function TotalPages(total: nat, limit: nat): (r: Option<nat>)
    ensures r.None? <==> limit == 0
    ensures r.Some? ==> r.value * limit >= total && (r.value == 0 || (r.value - 1) * limit < total)
  {
    if limit == 0 then None else Some(CeilDiv(total, limit))
  }

  /** How many records `skip((page - 1) * limit)` passes over; without a limit, none. */
  function SkipOf(page: int, limit: nat): int {
    if limit == 0 then 0 else (page - 1) * limit
  }

  /** The records of `sorted` that `.limit(limit).skip((page - 1) * limit)` returns: a `limit`
      of 0 means no limit (and a skip of 0); a negative skip is refused by the database. */
  function PageOf<T>(sorted: seq<T>, page: int, limit: nat): (r: Option<seq<T>>)
    ensures r.None? <==> limit > 0 && page < 1
    ensures limit == 0 ==> r == Some(sorted)
    ensures r.Some? ==>
      && SkipOf(page, limit) >= 0
      && forall k | 0 <= k < |r.value| :: SkipOf(page, limit) + k < |sorted| && r.value[k] == sorted[SkipOf(page, limit) + k]
    ensures r.Some? && limit > 0 ==>
      var skip := SkipOf(page, limit);
      && |r.value| <= limit
      && (skip < |sorted| ==> |r.value| == if skip + limit <= |sorted| then limit else |sorted| - skip)
      && (skip >= |sorted| ==> r.value == [])
    ensures r.Some? ==> forall x | x in r.value :: x in sorted
  {
    if limit == 0 then Some(sorted)
    else
      var skip := SkipOf(page, limit);
      SkipSign(page, limit);
      if skip < 0 then None
      else if skip >= |sorted| then Some([])
      else if skip + limit <= |sorted| then Some(sorted[skip..skip + limit])
      else Some(sorted[skip..])
  }

  /** With a limit, the skip is negative exactly for a page below 1. */
  lemma SkipSign(page: int, limit: nat)
    requires limit > 0
    ensures SkipOf(page, limit) < 0 <==> page < 1
  {
    if page >= 1 {
      MulMonotone(page - 1, 0, limit);
    } else {
      MulMonotone(-1, page - 1, limit);
    }
  }

  /** How many records the page past `skip` holds: all of them without a limit, otherwise
      `limit` or what is left after the skip, whichever is fewer. */
  function PageLength(n: nat, skip: int, limit: nat): nat {
    if limit == 0 then n
    else if skip >= n then 0
    else if skip + limit <= n then limit
    else n - skip
  }

  /** `items` is the queried page of `sorted`: as many records as the page holds, item `k`
      being the record at position `skip + k`. */
  ghost predicate PageAt<T>(items: seq<T>, sorted: seq<T>, q: PageQuery, defaultLimit: nat) {
    && |items| == PageLength(|sorted|, Skip(q, defaultLimit), PageLimit(q, defaultLimit))
    && forall k | 0 <= k < |items| ::
         0 <= Skip(q, defaultLimit) + k < |sorted| && items[k] == sorted[Skip(q, defaultLimit) + k]
  }

  /** `items` is the queried page of `matching`, kept in insertion order, read newest first:
      as many records as the page holds, item `k` being the `skip + k`-th newest. */
  ghost predicate NewestPage<T>(items: seq<T>, matching: seq<T>, q: PageQuery, defaultLimit: nat) {
    && |items| == PageLength(|matching|, Skip(q, defaultLimit), PageLimit(q, defaultLimit))
    && forall k | 0 <= k < |items| ::
         0 <= Skip(q, defaultLimit) + k < |matching|
         && items[k] == matching[|matching| - 1 - (Skip(q, defaultLimit) + k)]
  }

  /** The listing a handler answers for the matching records in their sorted order, or the
      500 reply its `catch` block gives when the database refuses the skip. */
  function Paginate<T>(sorted: seq<T>, q: PageQuery, defaultLimit: nat): (r: Reply<Listing<T>>)
    ensures r.Ok? <==> PageOf(sorted, PageNumber(q), PageLimit(q, defaultLimit)).Some?
    ensures r.Ok? ==>
      && r.code == 200
      && r.body.items == PageOf(sorted, PageNumber(q), PageLimit(q, defaultLimit)).value
      && r.body.total == |sorted|
      && r.body.totalPages == TotalPages(|sorted|, PageLimit(q, defaultLimit))
      && r.body.currentPage == PageNumber(q)
    ensures r.Fail? ==> r == Fail(500, NegativeSkipError)
    ensures r.Ok? ==> forall x | x in r.body.items :: x in sorted
    ensures r.Ok? ==> PageAt(r.body.items, sorted, q, defaultLimit)
  {
    var page, limit := PageNumber(q), PageLimit(q, defaultLimit);
    match PageOf(sorted, page, limit)
    case None => Fail(500, NegativeSkipError)
    case Some(items) => Ok(200, Listing(items, TotalPages(|sorted|, limit), page, |sorted|))
  }

  /** How many records the queried page skips. */
  function Skip(q: PageQuery, defaultLimit: nat): int {
    SkipOf(PageNumber(q), PageLimit(q, defaultLimit))
  }

  /** The listing of the matching records of a collection kept in insertion order, newest
      first (`sort({ createdAt: -1 })`): item `k` of the page is the `skip + k`-th newest match. */
  function NewestFirst<T>(matching: seq<T>, q: PageQuery, defaultLimit: nat): (r: Reply<Listing<T>>)
    ensures r.Ok? <==> PageLimit(q, defaultLimit) == 0 || PageNumber(q) >= 1
    ensures r.Fail? ==> r == Fail(500, NegativeSkipError)
    ensures r.Ok? ==>
      && r.code == 200
      && r.body.total == |matching|
      && r.body.currentPage == PageNumber(q)
      && r.body.totalPages == TotalPages(|matching|, PageLimit(q, defaultLimit))
      && (PageLimit(q, defaultLimit) > 0 ==> |r.body.items| <= PageLimit(q, defaultLimit))
      && (PageLimit(q, defaultLimit) == 0 ==> |r.body.items| == |matching|)
      && (forall x | x in r.body.items :: x in matching)
      && NewestPage(r.body.items, matching, q, defaultLimit)
  {
    ReverseSameElements(matching);
    var newest := Reverse(matching);
    var r := Paginate(newest, q, defaultLimit);
    assert r.Ok? ==> PageAt(r.body.items, newest, q, defaultLimit);
    r
  }

  /** Every record is on exactly the page its position puts it: the one at position `k` is
      item `k % limit` of page `k / limit + 1`, and that page is within `totalPages`. */
  lemma PageCovers<T>(sorted: seq<T>, limit: nat, k: nat)
    requires limit > 0 && k < |sorted|
    ensures PageOf(sorted, k / limit + 1, limit).Some?
    ensures k % limit < |PageOf(sorted, k / limit + 1, limit).value|
    ensures PageOf(sorted, k / limit + 1, limit).value[k % limit] == sorted[k]
    ensures k / limit + 1 <= TotalPages(|sorted|, limit).value
  {
    var q, m := k / limit, k % limit;
    assert k == q * limit + m && 0 <= m < limit;
    assert SkipOf(q + 1, limit) == q * limit;
    var page := PageOf(sorted, q + 1, limit);
    assert page.Some?;
    assert q * limit + m < |sorted|;
    assert m < |page.value|;
    assert page.value[m] == sorted[q * limit + m];
    var tp := TotalPages(|sorted|, limit).value;
    if q >= tp {
      MulMonotone(q, tp, limit);
      assert false;
    }
  }


  /** A page past `totalPages` is empty. */
  lemma PastLastPageEmpty<T>(sorted: seq<T>, page: int, limit: nat)
    requires limit > 0 && page > TotalPages(|sorted|, limit).value
    ensures PageOf(sorted, page, limit) == Some([])
  {
    var tp := TotalPages(|sorted|, limit).value;
    MulMonotone(page - 1, tp, limit);
  }

  lemma MulMonotone(a: int, b: int, c: nat)
    requires a >= b
    ensures a * c >= b * c
  {
  }
}
