/** The paged tables of the log window: the filtered rows of a tab are shown
    100 at a time, and the previous/next buttons and the page field move the
    current page. The system and File Station tabs each keep one such pager. */
module Paging {
  import opened Common

  const RowsPerPage: nat := 100

  function Min(a: int, b: int): int
  {
    if a <= b then a else b
  }

  function Max(a: int, b: int): int
  {
    if a >= b then a else b
  }

  /** `(n + ROWS_PER_PAGE - 1) // ROWS_PER_PAGE`: the number of pages n rows fill. */
  function TotalPages(n: nat): (total: nat)
    ensures (total - 1) * RowsPerPage < n <= total * RowsPerPage || (n == 0 && total == 0)
  {
    (n + RowsPerPage - 1) / RowsPerPage
  }

  /** The rows the table shows on a page: from `(page - 1) * 100` up to
      `min(page * 100, n)`. */
  function PageSlice(rows: seq<Entry>, page: int): (slice: seq<Entry>)
    requires 1 <= page && (page - 1) * RowsPerPage <= |rows|
    ensures |slice| == Min(RowsPerPage, |rows| - (page - 1) * RowsPerPage)
  {
    rows[(page - 1) * RowsPerPage .. Min(page * RowsPerPage, |rows|)]
  }

  /** The first k pages, one after the other. */
  function PagesUpTo(rows: seq<Entry>, k: nat): seq<Entry>
    requires k <= TotalPages(|rows|)
  {
    if k == 0 then [] else PagesUpTo(rows, k - 1) + PageSlice(rows, k)
  }

  lemma {:induction false} PagesUpToPrefix(rows: seq<Entry>, k: nat)
    requires k <= TotalPages(|rows|)
    ensures PagesUpTo(rows, k) == rows[..Min(k * RowsPerPage, |rows|)]
  {
    if k > 0 {
      PagesUpToPrefix(rows, k - 1);
      assert rows[..Min(k * RowsPerPage, |rows|)]
        == rows[..(k - 1) * RowsPerPage] + rows[(k - 1) * RowsPerPage .. Min(k * RowsPerPage, |rows|)];
    }
  }

  /** The pages partition the rows: read in order, they show every row once. */
  lemma PagesPartition(rows: seq<Entry>)
    ensures PagesUpTo(rows, TotalPages(|rows|)) == rows
  {
    PagesUpToPrefix(rows, TotalPages(|rows|));
    assert rows[..|rows|] == rows;
  }

  /** The message shown for a page number outside 1..total. */
  function OutOfRange(total: nat): string
  {
    "頁碼必須在 1 到 " + NatText(total) + " 之間"
  }

  class Pager {
    /** The filtered rows of the tab (`*_filtered_logs`). */
    var rows: seq<Entry>
    /** `*_current_page` */
    var current: int

    /** The page is always one the rows have, or 1 when there are none. */
    predicate Valid()
      reads this
    {
      1 <= current <= Max(1, TotalPages(|rows|))
    }

    /** Filling a tab afresh: the filtered rows, shown from page 1. */
    constructor(rows: seq<Entry>)
      ensures this.rows == rows && current == 1 && Valid()
    {
      this.rows := rows;
      current := 1;
    }

    /** `*_prev_page`: one page back, unless on the first. */
    method Prev()
      requires Valid()
      modifies this
      ensures Valid() && rows == old(rows)
      ensures current == if old(current) > 1 then old(current) - 1 else old(current)
    {
      if current > 1 {
        current := current - 1;
      }
    }

    /** `*_next_page`: one page on, unless on the last. */
    method Next()
      requires Valid()
      modifies this
      ensures Valid() && rows == old(rows)
      ensures current == if old(current) < TotalPages(|rows|) then old(current) + 1 else old(current)
    {
      var total := TotalPages(|rows|);
      if current < total {
        current := current + 1;
      }
    }

    /** `*_jump_to_page`: the page field's text, read by `int()`. A number in
        1..total becomes the page; another number leaves it and warns; text
        `int()` rejects leaves it silently. */
    method JumpTo(text: string) returns (warning: Option<string>)
      requires Valid()
      modifies this
      ensures Valid() && rows == old(rows)
      ensures match PyInt(text)
        case Some(p) =>
          if 1 <= p <= TotalPages(|rows|) then current == p && warning.None?
          else current == old(current) && warning == Some(OutOfRange(TotalPages(|rows|)))
        case None => current == old(current) && warning.None?
    {
      warning := None;
      var parsed := PyInt(text);
      if parsed.Some? {
        var total := TotalPages(|rows|);
        if 1 <= parsed.value <= total {
          current := parsed.value;
        } else {
          warning := Some(OutOfRange(total));
        }
      }
    }

    /** `update_*_table`: copies the rows of the current page into the table. */
    method ShowPage() returns (shown: seq<Entry>)
      requires Valid()
      ensures shown == PageSlice(rows, current)
      ensures |shown| == Min(RowsPerPage, |rows| - (current - 1) * RowsPerPage)
    {
      var all := rows;
      var start := (current - 1) * RowsPerPage;
      var count := Min(start + RowsPerPage, |all|) - start;
      shown := [];
      for i := 0 to count
        invariant shown == all[start..start + i]
      {
        shown := shown + [all[start + i]];
      }
    }
  }
}
