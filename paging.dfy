/** Offset paging as the list services do it: `skip: (page - 1) * limit`, `take: limit`,
    and `totalPages: Math.ceil(total / limit)`. */
module Paging {
  import opened Common
  import opened Ordering

  datatype Paged<T> = Paged(items: seq<T>, total: nat, page: int, totalPages: nat)

  /** `Math.ceil(total / limit)` for a positive limit. */
  function TotalPages(total: nat, limit: int): (n: nat)
    requires limit >= 1
    ensures total == 0 ==> n == 0
    ensures total > 0 ==> (n - 1) * limit < total <= n * limit
  {
    (total + limit - 1) / limit
  }

  /** At most `limit` rows after the first `skip`. */
  function Slice<T>(rows: seq<T>, skip: nat, limit: nat): (w: seq<T>)
    ensures |w| <= limit
    ensures forall k :: 0 <= k < |w| ==> skip + k < |rows| && w[k] == rows[skip + k]
    ensures |w| == limit || skip + |w| >= |rows|
  {
    if skip >= |rows| then []
    else if skip + limit <= |rows| then rows[skip..skip + limit]
    else rows[skip..]
  }

  /** The rows of one page: skip `(page - 1) * limit` rows, then take at most `limit`. */
  function Window<T>(rows: seq<T>, page: int, limit: int): (w: seq<T>)
    requires page >= 1 && limit >= 1
    ensures |w| <= limit
    ensures forall k :: 0 <= k < |w| ==> (page - 1) * limit + k < |rows| && w[k] == rows[(page - 1) * limit + k]
    ensures |w| == limit || (page - 1) * limit + |w| >= |rows|
  {
    var skip: nat := (page - 1) * limit;
    Slice(rows, skip, limit)
  }

  /** A page holds `limit` rows, or what is left after the skipped ones, or none. */
  lemma WindowSize<T>(rows: seq<T>, page: int, limit: int)
    requires page >= 1 && limit >= 1
    ensures |Window(rows, page, limit)| == (if (page - 1) * limit >= |rows| then 0
                                            else if (page - 1) * limit + limit <= |rows| then limit
                                            else |rows| - (page - 1) * limit)
  {
    var skip: nat := (page - 1) * limit;
    assert Window(rows, page, limit) == Slice(rows, skip, limit);
  }

  /** One page of `rows` with the total count and the page count; a page or limit below 1 is
      refused. */
  function Paginate<T>(rows: seq<T>, page: int, limit: int): (r: Result<Paged<T>>)
    ensures r.Ok? <==> page >= 1 && limit >= 1
    ensures r.Ok? ==> r.value.items == Window(rows, page, limit)
    ensures r.Ok? ==> r.value.total == |rows| && r.value.page == page
    ensures r.Ok? ==> r.value.totalPages == TotalPages(|rows|, limit)
  {
    if page < 1 || limit < 1 then Err(InvalidPaging)
    else Ok(Paged(Window(rows, page, limit), |rows|, page, TotalPages(|rows|, limit)))
  }

  /** Every row is on exactly one page: row `j` is item `j % limit` of page `j / limit + 1`,
      and that page is among the `totalPages` pages. */
  lemma EveryRowOnItsPage<T>(rows: seq<T>, limit: int, j: nat)
    requires limit >= 1 && j < |rows|
    ensures var page := j / limit + 1;
            1 <= page <= TotalPages(|rows|, limit)
            && j % limit < |Window(rows, page, limit)|
            && Window(rows, page, limit)[j % limit] == rows[j]
  {
    var q, m := j / limit, j % limit;
    DivModSplit(j, limit);
    PageInRange(|rows|, limit, j);
    WindowAsSlice(rows, q + 1, limit, q * limit);
    RowInSlice(rows, q * limit, limit, m);
  }

  lemma DivModSplit(j: nat, limit: int)
    requires limit >= 1
    ensures 0 <= j / limit && 0 <= j % limit < limit && (j / limit) * limit + j % limit == j
  {
  }

  lemma WindowAsSlice<T>(rows: seq<T>, page: int, limit: int, skip: nat)
    requires page >= 1 && limit >= 1 && skip == (page - 1) * limit
    ensures Window(rows, page, limit) == Slice(rows, skip, limit)
  {
  }

  /** Row `skip + m` is item `m` of the slice that starts at `skip`, when `m` is below the limit. */
  lemma RowInSlice<T>(rows: seq<T>, skip: nat, limit: nat, m: nat)
    requires skip + m < |rows| && m < limit
    ensures m < |Slice(rows, skip, limit)| && Slice(rows, skip, limit)[m] == rows[skip + m]
  {
  }

  /** The page of row `j` is no later than the last page. */
  lemma PageInRange(total: nat, limit: int, j: nat)
    requires limit >= 1 && j < total
    ensures j / limit + 1 <= TotalPages(total, limit)
  {
    var q, n := j / limit, TotalPages(total, limit);
    assert q * limit <= j < total <= n * limit;
    MulCancel(q, n, limit);
  }

  lemma MulCancel(a: int, b: int, c: int)
    requires c >= 1 && a * c < b * c
    ensures a < b
  {
  }

  /** A page of an ordered list is ordered and holds only rows of the list. */
  lemma WindowOfSorted<T>(rows: seq<T>, page: int, limit: int, key: T -> real)
    requires page >= 1 && limit >= 1 && SortedBy(rows, key)
    ensures SortedBy(Window(rows, page, limit), key)
    ensures forall x :: x in Window(rows, page, limit) ==> x in rows
  {
    var w := Window(rows, page, limit);
    var skip := (page - 1) * limit;
    forall i, j | 0 <= i < j < |w| ensures key(w[i]) <= key(w[j]) {
      assert w[i] == rows[skip + i] && w[j] == rows[skip + j];
    }
    forall x | x in w ensures x in rows {
      var k :| 0 <= k < |w| && w[k] == x;
      assert x == rows[skip + k];
    }
  }
}
