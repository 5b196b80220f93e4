/** Offset pagination shared by the list and search handlers:
    `skip = (page - 1) * limit`, `take = limit`,
    `totalPages = Math.ceil(total / limit)`. */
module Paging {
  import opened Common

  function Skip(page: int, limit: int): int {
    (page - 1) * limit
  }

  /** Math.ceil(total / limit) for a positive limit: the least number of pages
      of `limit` rows that holds `total` rows. */
  function TotalPages(total: nat, limit: int): (pages: nat)
    requires limit > 0
    ensures pages * limit >= total
    ensures pages == 0 || (pages - 1) * limit < total
  {
    var pages := (total + limit - 1) / limit;
    assert pages * limit + (total + limit - 1) % limit == total + limit - 1;
    pages
  }

  /** The rows a query with `skip` and `take` returns from its ordered result. */
  function Page<T>(items: seq<T>, skip: nat, take: nat): (r: seq<T>)
    ensures skip >= |items| ==> r == []
    ensures skip < |items| ==> |r| == if take < |items| - skip then take else |items| - skip
    ensures forall i :: 0 <= i < |r| ==> skip + i < |items| && r[i] == items[skip + i]
  {
    if skip >= |items| then []
    else items[skip..if skip + take < |items| then skip + take else |items|]
  }

  /** The rows in reverse order. */
  function Reversed<T>(items: seq<T>): (r: seq<T>)
    ensures |r| == |items|
    ensures forall i :: 0 <= i < |items| ==> r[i] == items[|items| - 1 - i]
  {
    if items == [] then [] else Reversed(items[1..]) + [items[0]]
  }

  /** A negative `take` counts from the end: the rows that end `skip` rows
      before the end of the ordered result, at most `take` of them, in the
      query's order. */
  function PageFromEnd<T>(items: seq<T>, skip: nat, take: nat): (r: seq<T>)
    ensures skip >= |items| ==> r == []
    ensures skip < |items| ==> |r| == if take < |items| - skip then take else |items| - skip
    ensures forall i :: 0 <= i < |r| ==> |items| - skip - |r| + i >= 0 && r[i] == items[|items| - skip - |r| + i]
  {
    if skip >= |items| then []
    else
      var hi := |items| - skip;
      items[if take < hi then hi - take else 0..hi]
  }

  /** Paging from the end is paging from the front of the reversed result,
      read backwards. */
  lemma PageFromEndIsReversedPage<T>(items: seq<T>, skip: nat, take: nat)
    ensures PageFromEnd(items, skip, take) == Reversed(Page(Reversed(items), skip, take))
  {
    var r, p := PageFromEnd(items, skip, take), Page(Reversed(items), skip, take);
    assert |r| == |p|;
    forall i | 0 <= i < |r| ensures r[i] == Reversed(p)[i] {
      assert Reversed(p)[i] == p[|p| - 1 - i] == Reversed(items)[skip + |p| - 1 - i];
    }
  }

  /** The rows `findMany` returns for a `skip` and a `take`; None when the
      skip is negative, which the store refuses. */
  function Window<T>(items: seq<T>, skip: int, take: int): (r: Option<seq<T>>)
    ensures r.None? <==> skip < 0
    ensures r.Some? ==> |r.value| <= if take < 0 then -take else take
    ensures r.Some? && take >= 0 ==> forall i :: 0 <= i < |r.value| ==> skip + i < |items| && r.value[i] == items[skip + i]
    ensures r.Some? && take < 0 ==> forall i :: 0 <= i < |r.value| ==>
      0 <= |items| - skip - |r.value| + i < |items| && r.value[i] == items[|items| - skip - |r.value| + i]
  {
    if skip < 0 then None
    else if take >= 0 then Some(Page(items, skip, take))
    else Some(PageFromEnd(items, skip, -take))
  }

  /** `Math.ceil(total / limit)` for a limit of either sign: the least
      integer at or above the quotient. */
  function CeilDiv(total: nat, limit: int): (c: int)
    requires limit != 0
    ensures limit > 0 ==> c * limit >= total && (c - 1) * limit < total
    ensures limit < 0 ==> c * limit <= total && (c - 1) * limit > total
  {
    if limit > 0 then
      var c := TotalPages(total, limit);
      assert c == 0 ==> (c - 1) * limit < total;
      c
    else
      var m := -limit;
      var q := total / m;
      assert total == q * m + total % m && 0 <= total % m < m;
      assert (-q) * limit == q * m;
      assert (-q - 1) * limit == q * m + m;
      -q
  }

  /** The page count a response reports: none when the limit is zero (the
      division yields no number). */
  function PageCount(total: nat, limit: int): (pages: Option<int>)
    ensures pages.None? <==> limit == 0
    ensures limit > 0 ==> pages == Some(TotalPages(total, limit))
    ensures limit != 0 ==> pages == Some(CeilDiv(total, limit))
  {
    if limit == 0 then None else Some(CeilDiv(total, limit))
  }

  /** Every row lies on exactly one page: row i is row i % limit of page
      i / limit + 1, and that page is within the page count. */
  lemma ItemOnItsPage<T>(items: seq<T>, i: nat, limit: int)
    requires i < |items| && limit > 0
    ensures var page := i / limit + 1;
      && 1 <= page <= TotalPages(|items|, limit)
      && Skip(page, limit) >= 0
      && var r := Page(items, Skip(page, limit), limit);
      && i % limit < |r| && r[i % limit] == items[i]
  {
    var q, m := i / limit, i % limit;
    assert i == q * limit + m && 0 <= m < limit;
    assert Skip(q + 1, limit) == q * limit;
    var pages := TotalPages(|items|, limit);
    if pages <= q {
      MulLe(pages, q, limit);
    }
    assert q + 1 <= pages;
  }

  lemma MulLe(a: nat, b: nat, c: nat)
    requires a <= b
    ensures a * c <= b * c
  {
  }
}
