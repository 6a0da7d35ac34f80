/** The integer pagination arithmetic every list endpoint repeats:
    `page = parseInt(q.page) || 1`, `limit = parseInt(q.limit) || 10`,
    `skip = (page - 1) * limit`, `pages = Math.ceil(total / limit)`, and the
    two slicing primitives the endpoints use (JavaScript `Array.slice` and
    MongoDB's `$slice: [skip, limit]` projection). A query parameter is an
    `Option<int>`: None stands for a missing or non-numeric value (NaN). */
module Pagination {
  import opened Common

  const DefaultPage: int := 1
  const DefaultLimit: int := 10

  /** `parseInt(q) || d`: NaN and 0 are falsy, so both fall back to `d`;
      every other number, negative ones included, is kept. */
  function OrDefault(q: Option<int>, d: int): (r: int)
    ensures q.Some? && q.value != 0 ==> r == q.value
    ensures q.None? || q.value == 0 ==> r == d
    ensures d != 0 ==> r != 0
  {
    if q.Some? && q.value != 0 then q.value else d
  }

  /** `(page - 1) * limit`: the items on the pages before `page`. With a
      positive limit it is a whole number of pages, and negative exactly
      for a page below 1. */
  function Skip(page: int, limit: int): (r: int)
    ensures limit > 0 ==> (r >= 0 <==> page >= 1)
    ensures limit > 0 ==> r % limit == 0 && r / limit == page - 1
  {
    if limit > 0 then
      MulSign(page - 1, limit);
      DivExact(page - 1, limit);
      (page - 1) * limit
    else (page - 1) * limit
  }

  /** A multiple of a positive number divides back exactly. */
  lemma DivExact(q: int, limit: int)
    requires limit > 0
    ensures (q * limit) % limit == 0 && (q * limit) / limit == q
  {
    var m := q * limit;
    var d, r := m / limit, m % limit;
    assert m == d * limit + r && 0 <= r < limit;
    assert (q - d) * limit == r;
    MulSign(q - d, limit);
    MulSign(q - d - 1, limit);
  }

  /** `Math.ceil(a / b)` computed exactly on integers. */
  function CeilDiv(a: int, b: int): (r: int)
    requires b != 0
    ensures b > 0 ==> (r - 1) * b < a <= r * b
    ensures b < 0 ==> r * b <= a < (r - 1) * b
  {
    if b > 0 then
      var q := (-a) / b;
      assert q * b <= -a < (q + 1) * b;
      -q
    else
      var q := a / (-b);
      assert q * (-b) <= a < (q + 1) * (-b);
      -q
  }

  /** The `pagination` block of a list response. */
  datatype PageInfo = PageInfo(total: nat, page: int, pages: int, limit: int)

  /** The pagination block for `total` matches and the raw query
      parameters. */
  function Paginate(total: nat, page: Option<int>, limit: Option<int>): (p: PageInfo)
    ensures p.total == total
    ensures p.page == OrDefault(page, DefaultPage) && p.limit == OrDefault(limit, DefaultLimit)
    ensures p.limit != 0 && p.page != 0
    ensures p.limit > 0 ==> (p.pages - 1) * p.limit < total <= p.pages * p.limit || (total == 0 && p.pages == 0)
  {
    var pg := OrDefault(page, DefaultPage);
    var l := OrDefault(limit, DefaultLimit);
    PageInfo(total, pg, CeilDiv(total, l), l)
  }

  /** For a positive limit, `pages` is the least number of pages that hold
      `total` items: there are no pages when there are no matches, and
      otherwise the last page is non-empty and no item falls past it. */
  lemma PagesBound(total: nat, limit: int)
    requires limit > 0
    ensures total == 0 ==> CeilDiv(total, limit) == 0
    ensures total > 0 ==> CeilDiv(total, limit) >= 1
    ensures total > 0 ==> (CeilDiv(total, limit) - 1) * limit < total <= CeilDiv(total, limit) * limit
  {
    var r := CeilDiv(total, limit);
    MulSign(r, limit);
    MulSign(r - 1, limit);
  }

  /** The sign of a product with a positive factor. */
  lemma MulSign(x: int, limit: int)
    requires limit > 0
    ensures x > 0 ==> x * limit > 0
    ensures x <= 0 ==> x * limit <= 0
  {
  }

  /** Every item at index `i < total` lies on exactly the page
      `i / limit + 1`, which is a page between 1 and `pages`. */
  lemma ItemOnItsPage(total: nat, limit: int, i: nat)
    requires limit > 0 && i < total
    ensures var p := i / limit + 1;
            1 <= p <= CeilDiv(total, limit) && Skip(p, limit) <= i < Skip(p, limit) + limit
  {
    var q := i / limit;
    assert q * limit <= i < q * limit + limit;
    PageBelowPages(total, limit, i, q);
    assert Skip(q + 1, limit) == q * limit;
  }

  /** A page whose first item exists is at most the page count. */
  lemma PageBelowPages(total: nat, limit: int, i: nat, q: int)
    requires limit > 0 && q * limit <= i < total
    ensures q + 1 <= CeilDiv(total, limit)
  {
    PagesBound(total, limit);
    var r := CeilDiv(total, limit);
    assert (r - q) * limit == r * limit - q * limit;
    MulSign(r - q, limit);
  }

  /** How `Array.prototype.slice` reads an index: a negative index counts
      from the end, and the result is clamped to `[0, n]`. */
  function SliceIndex(i: int, n: nat): (k: nat)
    ensures k <= n
    ensures 0 <= i <= n ==> k == i
    ensures i > n ==> k == n
    ensures i < 0 ==> k == if n + i < 0 then 0 else n + i
  {
    if i < 0 then (if n + i < 0 then 0 else n + i) else if i > n then n else i
  }

  /** JavaScript `s.slice(start, end)`. */
  function JsSlice<T>(s: seq<T>, start: int, end: int): (r: seq<T>)
    ensures |r| <= |s|
    ensures var a, b := SliceIndex(start, |s|), SliceIndex(end, |s|);
            (a < b ==> r == s[a..b]) && (b <= a ==> r == [])
  {
    var a, b := SliceIndex(start, |s|), SliceIndex(end, |s|);
    if a < b then s[a..b] else []
  }

  /** For a page of a positive size, `s.slice(skip, skip + limit)` is the
      window of at most `limit` items starting at `skip`, element by
      element. */
  lemma JsSliceWindow<T>(s: seq<T>, skip: int, limit: int)
    requires skip >= 0 && limit > 0
    ensures |JsSlice(s, skip, skip + limit)| <= limit
    ensures skip >= |s| ==> JsSlice(s, skip, skip + limit) == []
    ensures skip < |s| ==> |JsSlice(s, skip, skip + limit)| == (if skip + limit <= |s| then limit else |s| - skip)
    ensures var r := JsSlice(s, skip, skip + limit);
            forall k :: skip <= k < skip + |r| ==> r[k - skip] == s[k]
  {
  }

  /** Consecutive pages of `s.slice` put back together give the whole
      sequence: paging neither loses nor repeats an item. */
  lemma {:induction false} JsPagesCover<T>(s: seq<T>, skip: nat, limit: int)
    requires limit > 0 && skip <= |s|
    ensures JsSlice(s, skip, skip + limit) + JsSlice(s, skip + limit, |s|) == s[skip..]
  {
    if skip + limit >= |s| {
      assert JsSlice(s, skip + limit, |s|) == [];
      if skip < |s| {
        assert JsSlice(s, skip, skip + limit) == s[skip..|s|];
      } else {
        assert JsSlice(s, skip, skip + limit) == [];
      }
    } else {
      assert JsSlice(s, skip, skip + limit) == s[skip..skip + limit];
      assert JsSlice(s, skip + limit, |s|) == s[skip + limit..];
    }
  }

  /** Where MongoDB's `$slice: [skip, limit]` starts in a sequence of
      length n: a negative skip counts from the end, clamped to the start;
      a skip past the end starts at the end. */
  function MongoSliceStart(n: nat, skip: int): (start: nat)
    ensures start <= n
    ensures 0 <= skip <= n ==> start == skip
    ensures skip > n ==> start == n
    ensures skip < 0 && n + skip >= 0 ==> start == n + skip
    ensures n + skip < 0 ==> start == 0
  {
    if skip >= 0 then (if skip > n then n else skip)
    else (if n + skip < 0 then 0 else n + skip)
  }

  /** MongoDB's `$slice: [skip, limit]` projection: at most `limit` items
      from `MongoSliceStart`. A count that is not positive is refused by
      the database, which is None. */
  function MongoSlice<T>(s: seq<T>, skip: int, limit: int): (r: Option<seq<T>>)
    ensures r.Some? <==> limit > 0
    ensures r.Some? ==> |r.value| <= limit
    ensures r.Some? ==> |r.value| == (if MongoSliceStart(|s|, skip) + limit <= |s| then limit else |s| - MongoSliceStart(|s|, skip))
    ensures r.Some? ==> var start := MongoSliceStart(|s|, skip);
                        r.value == s[start..start + |r.value|]
  {
    if limit <= 0 then None
    else
      var start := MongoSliceStart(|s|, skip);
      var end := if start + limit > |s| then |s| else start + limit;
      Some(s[start..end])
  }

  /** A list response: the items and the pagination block. */
  datatype Listing<T> = Listing(items: T, pagination: PageInfo)

  /** MongoDB refuses a query whose `.skip(n)` is negative, which the
      handlers report as a 500. That happens exactly when the page is below
      1 and the limit positive, or the page above 1 and the limit negative;
      the defaults are never refused. */
  predicate SkipRefused(page: Option<int>, limit: Option<int>): (refused: bool)
    ensures var p, l := OrDefault(page, DefaultPage), OrDefault(limit, DefaultLimit);
            refused <==> (p < 1 && l > 0) || (p > 1 && l < 0)
    ensures refused ==> page.Some? && page.value != 0 && page.value != 1
  {
    var p, l := OrDefault(page, DefaultPage), OrDefault(limit, DefaultLimit);
    if l > 0 then
      Skip(p, l) < 0
    else
      MulSign(p - 1, -l);
      assert (p - 1) * l == -((p - 1) * (-l));
      Skip(p, l) < 0
  }
}
