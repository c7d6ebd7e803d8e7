/** Reading a result set page by page, with one row of look-ahead and a row budget, against the one-shot read. */
module Paging {
  import opened Common

  const DEFAULT_MAX_ROWS := 1000

  datatype Cell = Null | Text(text: string)
  type Row = seq<Cell>

  /** A row the driver can position on; scanning it may still fail. */
  type Fetched = Option<Row>

  datatype Page = Page(rows: seq<Row>, hasMore: bool, truncated: bool)

  datatype ReadError = Unreadable

  // ---- Specification ----

  /** What is left to read: rows not yet returned (a pending one first), whether the cursor ends in an error, and the budget. */
  datatype Cursor = Cursor(stream: seq<Fetched>, failsAtEnd: bool, remaining: int)

  function Min(a: int, b: int): int
  {
    if a < b then a else b
  }

  predicate AllReadable(s: seq<Fetched>)
  {
    forall i :: 0 <= i < |s| ==> s[i].Some?
  }

  function Values(s: seq<Fetched>): (r: seq<Row>)
    requires AllReadable(s)
    ensures |r| == |s|
  {
    seq(|s|, i requires 0 <= i < |s| => s[i].value)
  }

  function PageSize(n: int): (r: int)
    ensures r > 0 && (n > 0 ==> r == n) && (n <= 0 ==> r == 1000)
  {
    if n <= 0 then DEFAULT_MAX_ROWS else n
  }

  /** How many rows a page returns if the cursor has them. */
  function Take(c: Cursor, n: int): int
  {
    if c.remaining <= 0 then 0 else Min(PageSize(n), c.remaining)
  }

  /** How many rows a page looks at: one more than it returns while budget is left. */
  function Needed(c: Cursor, n: int): int
  {
    if Take(c, n) < c.remaining then Take(c, n) + 1 else Take(c, n)
  }

  /** The rows looked at can all be scanned, and the end, if seen, is a clean one. */
  predicate Readable(c: Cursor, n: int)
  {
    && AllReadable(c.stream[..Min(Needed(c, n), |c.stream|)])
    && (|c.stream| < Needed(c, n) ==> !c.failsAtEnd)
  }

  /** A page by its meaning: a prefix of what is left, as long as page size, budget and rows allow. */
  function PageOf(c: Cursor, n: int): (r: Result<(Page, Cursor), ReadError>)
  {
    if !Readable(c, n) then Err(Unreadable)
    else
      var k := Min(Take(c, n), |c.stream|);
      assert c.stream[..k] == c.stream[..Min(Needed(c, n), |c.stream|)][..k];
      Ok((Page(Values(c.stream[..k]), k < c.remaining && k < |c.stream|, c.remaining <= k),
          c.(stream := c.stream[k..], remaining := c.remaining - k)))
  }

  /** What reading a page returns, and what it leaves to be read. */
  function Returned(c: Cursor, n: int): Result<Page, ReadError>
  {
    match PageOf(c, n) case Err(e) => Err(e) case Ok((page, _)) => Ok(page)
  }

  predicate Leaves(c: Cursor, n: int, rest: Cursor)
  {
    PageOf(c, n).Ok? && PageOf(c, n).value.1 == rest
  }

  // ---- The driver's objects ----

  /** An open result set: what the server will deliver, and how far it has been read. */
  class ResultSet {
    const items: seq<Fetched>
    const failsAtEnd: bool
    var pos: nat

    constructor (items: seq<Fetched>, failsAtEnd: bool)
      ensures this.items == items && this.failsAtEnd == failsAtEnd && pos == 0
    {
      this.items := items;
      this.failsAtEnd := failsAtEnd;
      this.pos := 0;
    }

    method Next() returns (more: bool)
      modifies this
      ensures more <==> old(pos) < |items|
      ensures pos == if more then old(pos) + 1 else old(pos)
    {
      more := pos < |items|;
      if more {
        pos := pos + 1;
      }
    }
  }

  class QuerySession {
    const rows: ResultSet
    var pending: Option<Row>
    var remaining: int

    ghost predicate Valid()
      reads this, rows
    {
      rows.pos <= |rows.items|
    }

    /** What a stored session always has: a row waiting and budget for it. */
    ghost predicate Ready()
      reads this, rows
    {
      Valid() && pending.Some? && remaining > 0
    }

    ghost function View(): Cursor
      reads this, rows
      requires Valid()
    {
      Cursor((if pending.Some? then [pending] else []) + rows.items[rows.pos..], rows.failsAtEnd, remaining)
    }

    constructor (rows: ResultSet, maxRows: int)
      requires rows.pos == 0
      ensures this.rows == rows && Valid() && pending.None? && remaining == maxRows
      ensures View() == Cursor(rows.items, rows.failsAtEnd, maxRows)
    {
      this.rows := rows;
      this.pending := None;
      this.remaining := maxRows;
    }

    /** Take the next row: the pending one if there is one, otherwise the next of the result set. */
    method Pull() returns (p: Pulled)
      requires Valid()
      modifies this`pending, rows
      ensures Valid() && pending.None?
      ensures var s := old(View()).stream;
              && p == (if s == [] then Finished else if s[0].None? then Bad else Got(s[0].value))
              && View() == old(View()).(stream := if s == [] then [] else s[1..])
    {
      if pending.Some? {
        p := Got(pending.value);
        pending := None;
        assert old(View()).stream[1..] == rows.items[rows.pos..];
      } else {
        var more := rows.Next();
        if more {
          p := if rows.items[rows.pos - 1].Some? then Got(rows.items[rows.pos - 1].value) else Bad;
        } else {
          p := Finished;
        }
      }
    }

    /** A returned row is paid from the budget. */
    method Charge()
      requires Valid()
      modifies this`remaining
      ensures Valid() && View() == old(View()).(remaining := old(remaining) - 1)
    {
      remaining := remaining - 1;
    }

    /** The loop of readQuerySessionPage: rows until the page is full or the budget spent, or an early end. */
    method Fill(size: int, n: int) returns (out: seq<Row>, early: Option<Result<Page, ReadError>>)
      requires Valid() && size == PageSize(n)
      modifies this, rows
      ensures Valid() && |out| <= size && (|out| == size || remaining <= 0 || early.Some?)
      ensures |out| <= old(remaining) || out == []
      ensures early.None? ==> PageSoFar(old(View()), out, View()) && (remaining <= 0 || pending.None?)
      ensures early.Some? ==> early.value == Returned(old(View()), n)
      ensures early.Some? && early.value.Ok? ==> Leaves(old(View()), n, View()) && !early.value.value.hasMore
    {
      hide PageOf, PageSoFar, Returned, Leaves, PageSize;
      ghost var start := View();
      PageStarts(start);
      out, early := [], None;
      while |out| < size && remaining > 0
        invariant Valid() && |out| <= size && (|out| <= start.remaining || out == []) && (|out| > 0 ==> pending.None?)
        invariant PageSoFar(start, out, View())
        decreases size - |out|
      {
        ghost var before := View();
        var p := Pull();
        match p
        case Finished =>
          EndOfRows(start, out, before, n);
          early := Some(if rows.failsAtEnd then Err(Unreadable) else Ok(Page(out, false, false)));
          return;
        case Bad =>
          BadRow(start, out, before, n);
          early := Some(Err(Unreadable));
          return;
        case Got(row) =>
          Extend(start, out, before, row);
          out := out + [row];
          Charge();
      }
    }

    /** readQuerySessionPage: fill the page, then look one row ahead while budget is left. */
    method ReadPage(n: int) returns (r: Result<Page, ReadError>)
      requires Valid()
      modifies this, rows
      ensures Valid()
      ensures r == Returned(old(View()), n)
      ensures r.Ok? ==> Leaves(old(View()), n, View()) && (r.value.hasMore ==> Ready())
    {
      hide PageOf, PageSoFar;
      ghost var start := View();
      var size := PageSize(n);
      var out, early := Fill(size, n);
      if early.Some? {
        return early.value;
      }
      if remaining <= 0 {
        BudgetSpent(start, out, View(), n);
        return Ok(Page(out, false, true));
      }
      ghost var before := View();
      var p := Pull();
      match p
      case Finished =>
        EndOfRows(start, out, before, n);
        r := if rows.failsAtEnd then Err(Unreadable) else Ok(Page(out, false, false));
      case Bad =>
        BadRow(start, out, before, n);
        r := Err(Unreadable);
      case Got(row) =>
        MoreRows(start, out, before, n);
        pending := Some(row);
        assert View().stream == before.stream;
        r := Ok(Page(out, true, false));
    }
  }

  datatype Pulled = Finished | Bad | Got(row: Row)

  // ---- The loop's invariant and its four exits ----

  /** The rows returned so far are a readable prefix, and the cursor stands right behind it. */
  ghost predicate PageSoFar(start: Cursor, out: seq<Row>, now: Cursor)
  {
    && |out| <= |start.stream| && now == start.(stream := start.stream[|out|..], remaining := start.remaining - |out|)
    && AllReadable(start.stream[..|out|]) && out == Values(start.stream[..|out|])
  }

  lemma {:induction false} PageStarts(start: Cursor)
    ensures PageSoFar(start, [], start)
  {
  }

  lemma {:induction false} Extend(start: Cursor, out: seq<Row>, now: Cursor, row: Row)
    requires PageSoFar(start, out, now) && now.stream != [] && now.stream[0] == Some(row)
    ensures PageSoFar(start, out + [row], now.(stream := now.stream[1..], remaining := now.remaining - 1))
  {
    assert start.stream[..|out| + 1] == start.stream[..|out|] + [Some(row)];
  }

  lemma {:induction false} EndOfRows(start: Cursor, out: seq<Row>, now: Cursor, n: int)
    requires PageSoFar(start, out, now) && now.stream == [] && now.remaining > 0 && |out| <= PageSize(n)
    ensures PageOf(start, n) == if start.failsAtEnd then Err(Unreadable) else Ok((Page(out, false, false), now))
    ensures Returned(start, n) == if start.failsAtEnd then Err(Unreadable) else Ok(Page(out, false, false))
    ensures !start.failsAtEnd ==> Leaves(start, n, now)
  {
    assert start.stream[..|out|] == start.stream;
  }

  lemma {:induction false} BadRow(start: Cursor, out: seq<Row>, now: Cursor, n: int)
    requires PageSoFar(start, out, now) && now.stream != [] && now.stream[0].None? && now.remaining > 0 && |out| <= PageSize(n)
    ensures PageOf(start, n) == Err(Unreadable) && Returned(start, n) == Err(Unreadable)
  {
    assert start.stream[|out|] == now.stream[0];
    assert start.stream[..Min(Needed(start, n), |start.stream|)][|out|].None?;
  }

  lemma {:induction false} BudgetSpent(start: Cursor, out: seq<Row>, now: Cursor, n: int)
    requires PageSoFar(start, out, now) && now.remaining <= 0 && (|out| <= start.remaining || out == []) && |out| <= PageSize(n)
    ensures PageOf(start, n) == Ok((Page(out, false, true), now))
  {
    assert start.stream[..Min(Needed(start, n), |start.stream|)] == start.stream[..|out|];
  }

  lemma {:induction false} MoreRows(start: Cursor, out: seq<Row>, now: Cursor, n: int)
    requires PageSoFar(start, out, now) && now.stream != [] && now.stream[0].Some? && now.remaining > 0 && |out| == PageSize(n)
    ensures PageOf(start, n) == Ok((Page(out, true, false), now))
  {
    assert start.stream[..|out| + 1] == start.stream[..|out|] + [now.stream[0]];
  }

  // ---- The one-shot read ----

  /** The first maxRows rows, truncated when there are more; the end is looked at unless a further row shows up first. */
  function OneShot(stream: seq<Fetched>, failsAtEnd: bool, maxRows: int): Result<Page, ReadError>
    requires maxRows > 0
  {
    var k := Min(maxRows, |stream|);
    if AllReadable(stream[..k]) && (|stream| <= maxRows ==> !failsAtEnd)
    then Ok(Page(Values(stream[..k]), false, |stream| > maxRows))
    else Err(Unreadable)
  }

  /** executeSelect: rows up to the limit, and truncated when one more row shows up. */
  method ExecuteSelect(rows: ResultSet, maxRows: int) returns (r: Result<Page, ReadError>)
    requires rows.pos == 0 && maxRows > 0
    modifies rows
    ensures r == OneShot(rows.items, rows.failsAtEnd, maxRows)
  {
    var out: seq<Row> := [];
    ghost var start := Cursor(rows.items, rows.failsAtEnd, maxRows);
    while true
      invariant |out| <= maxRows && rows.pos == |out| && |out| <= |rows.items|
      invariant PageSoFar(start, out, Cursor(rows.items[|out|..], rows.failsAtEnd, maxRows - |out|))
      decreases |rows.items| - |out|
    {
      var more := rows.Next();
      if !more {
        assert rows.items[..|out|] == rows.items;
        return if rows.failsAtEnd then Err(Unreadable) else Ok(Page(out, false, false));
      }
      if |out| >= maxRows {
        return Ok(Page(out, false, true));
      }
      if rows.items[rows.pos - 1].None? {
        assert rows.items[..Min(maxRows, |rows.items|)][|out|].None?;
        return Err(Unreadable);
      }
      Extend(start, out, Cursor(rows.items[|out|..], rows.failsAtEnd, maxRows - |out|), rows.items[rows.pos - 1].value);
      assert rows.items[|out|..][1..] == rows.items[|out| + 1..];
      out := out + [rows.items[rows.pos - 1].value];
    }
  }

  // ---- A whole sequence of fetches ----

  /** Pages fetched with the given sizes until a page has no successor or the caller stops asking. */
  function Fetches(c: Cursor, sizes: seq<int>): Result<seq<Page>, ReadError>
    decreases |sizes|
  {
    if sizes == [] then Ok([])
    else match PageOf(c, sizes[0])
      case Err(e) => Err(e)
      case Ok((page, rest)) =>
        if !page.hasMore then Ok([page])
        else match Fetches(rest, sizes[1..])
          case Err(e) => Err(e)
          case Ok(pages) => Ok([page] + pages)
  }

  function Rows(pages: seq<Page>): seq<Row>
  {
    if pages == [] then [] else pages[0].rows + Rows(pages[1..])
  }

  /** Every page but the last says there is more, is full, and is followed by a page with rows. */
  ghost predicate WellPaged(pages: seq<Page>, sizes: seq<int>)
  {
    |pages| <= |sizes|
    && forall i :: 0 <= i < |pages| - 1 ==> pages[i].hasMore && |pages[i].rows| == PageSize(sizes[i]) && Nonempty(pages, i + 1)
  }

  predicate Nonempty(pages: seq<Page>, i: int)
  {
    0 <= i < |pages| && pages[i].rows != []
  }

  /** How many rows paging will deliver in all. */
  function Due(c: Cursor): int
  {
    Min(c.remaining, |c.stream|)
  }

  /** One page: a prefix of what is due; more is promised exactly when something is still due. */
  lemma {:induction false} OnePage(c: Cursor, n: int)
    requires c.remaining > 0 && PageOf(c, n).Ok?
    ensures var (page, rest) := PageOf(c, n).value;
            && |page.rows| <= Due(c) && AllReadable(c.stream[..|page.rows|]) && page.rows == Values(c.stream[..|page.rows|])
            && Due(rest) == Due(c) - |page.rows| && rest.stream == c.stream[|page.rows|..] && rest.failsAtEnd == c.failsAtEnd
            && rest.remaining == c.remaining - |page.rows|
            && (page.hasMore <==> Due(rest) > 0) && (Due(c) > 0 ==> |page.rows| > 0)
            && (page.hasMore ==> |page.rows| == PageSize(n))
            && (!page.hasMore ==> (page.truncated <==> |c.stream| >= c.remaining))
  {
  }

  lemma {:induction false} PagesAreFull(c: Cursor, sizes: seq<int>)
    requires c.remaining > 0 && Fetches(c, sizes).Ok?
    ensures WellPaged(Fetches(c, sizes).value, sizes)
    ensures sizes != [] ==> Fetches(c, sizes).value != [] && (Due(c) > 0 ==> Fetches(c, sizes).value[0].rows != [])
    decreases |sizes|
  {
    hide PageOf;
    if sizes != [] {
      OnePage(c, sizes[0]);
      var (page, rest) := PageOf(c, sizes[0]).value;
      if page.hasMore {
        PagesAreFull(rest, sizes[1..]);
        var tail := Fetches(rest, sizes[1..]).value;
        ConsPaged(page, tail, sizes);
      }
    }
  }

  lemma {:induction false} ConsPaged(page: Page, tail: seq<Page>, sizes: seq<int>)
    requires sizes != [] && WellPaged(tail, sizes[1..]) && page.hasMore && |page.rows| == PageSize(sizes[0])
    requires tail == [] || tail[0].rows != []
    ensures WellPaged([page] + tail, sizes)
  {
    hide PageSize;
    var pages := [page] + tail;
    forall i | 0 <= i < |pages| - 1 ensures pages[i].hasMore && |pages[i].rows| == PageSize(sizes[i]) && Nonempty(pages, i + 1) {
      if i > 0 {
        assert tail[i - 1].hasMore && Nonempty(tail, i - 1 + 1);
        assert sizes[1..][i - 1] == sizes[i];
      }
    }
  }

  /** Fetching finishes: after as many requests as rows are due, and at least one, the last page has no successor. */
  lemma {:induction false} FetchingFinishes(c: Cursor, sizes: seq<int>)
    requires c.remaining > 0 && Fetches(c, sizes).Ok? && sizes != [] && |sizes| >= Due(c)
    ensures var pages := Fetches(c, sizes).value; pages != [] && !pages[|pages| - 1].hasMore
    decreases |sizes|
  {
    hide PageOf;
    OnePage(c, sizes[0]);
    var (page, rest) := PageOf(c, sizes[0]).value;
    if page.hasMore {
      FetchingFinishes(rest, sizes[1..]);
    }
  }

  lemma {:induction false} ValuesConcat(a: seq<Fetched>, b: seq<Fetched>)
    requires AllReadable(a) && AllReadable(b)
    ensures AllReadable(a + b) && Values(a + b) == Values(a) + Values(b)
  {
  }

  /** Whenever the fetching has finished, the pages are exactly the rows due, and the last one says why it stopped. */
  lemma {:induction false} PagesRebuild(c: Cursor, sizes: seq<int>)
    requires c.remaining > 0 && Fetches(c, sizes).Ok?
    requires var pages := Fetches(c, sizes).value; pages != [] && !pages[|pages| - 1].hasMore
    ensures AllReadable(c.stream[..Due(c)]) && Rows(Fetches(c, sizes).value) == Values(c.stream[..Due(c)])
    ensures var pages := Fetches(c, sizes).value; pages[|pages| - 1].truncated <==> |c.stream| >= c.remaining
    decreases |sizes|
  {
    hide PageOf, Readable, Values, AllReadable;
    OnePage(c, sizes[0]);
    var (page, rest) := PageOf(c, sizes[0]).value;
    if page.hasMore {
      var tail := Fetches(rest, sizes[1..]).value;
      var k := |page.rows|;
      assert Fetches(c, sizes).value == [page] + tail && ([page] + tail)[1..] == tail;
      PagesRebuild(rest, sizes[1..]);
      assert c.stream[..Due(c)] == c.stream[..k] + rest.stream[..Due(rest)];
      ValuesConcat(c.stream[..k], rest.stream[..Due(rest)]);
    } else {
      assert Rows([page]) == page.rows;
    }
  }

  /** Fetching fails exactly when a row due cannot be scanned, or the end is reached within the budget and is an error. */
  lemma {:induction false} FetchingFails(c: Cursor, sizes: seq<int>)
    requires c.remaining > 0 && sizes != [] && |sizes| >= Due(c)
    ensures Fetches(c, sizes).Err? <==> !AllReadable(c.stream[..Due(c)]) || (|c.stream| < c.remaining && c.failsAtEnd)
    decreases |sizes|
  {
    if PageOf(c, sizes[0]).Ok? {
      OnePage(c, sizes[0]);
      var (page, rest) := PageOf(c, sizes[0]).value;
      hide PageOf;
      if page.hasMore {
        FetchingFails(rest, sizes[1..]);
        SplitReadable(c, rest, |page.rows|);
      } else {
        FetchingFinishes(c, sizes);
        PagesRebuild(c, sizes);
        LastClean(c, sizes[0]);
      }
    } else {
      FirstFails(c, sizes[0]);
    }
  }

  lemma {:induction false} SplitReadable(c: Cursor, rest: Cursor, k: int)
    requires 0 <= k <= Due(c) && rest.stream == c.stream[k..] && Due(rest) == Due(c) - k && AllReadable(c.stream[..k])
    ensures AllReadable(c.stream[..Due(c)]) <==> AllReadable(rest.stream[..Due(rest)])
  {
    assert c.stream[..Due(c)] == c.stream[..k] + rest.stream[..Due(rest)];
    forall i | 0 <= i < Due(rest) ensures rest.stream[i] == c.stream[..Due(c)][k + i] {}
    assert AllReadable(c.stream[..Due(c)]) ==> AllReadable(rest.stream[..Due(rest)]);
  }

  lemma {:induction false} LastClean(c: Cursor, n: int)
    requires c.remaining > 0 && PageOf(c, n).Ok? && !PageOf(c, n).value.0.hasMore
    ensures |c.stream| < c.remaining ==> !c.failsAtEnd
  {
  }

  lemma {:induction false} FirstFails(c: Cursor, n: int)
    requires c.remaining > 0 && PageOf(c, n).Err?
    ensures !AllReadable(c.stream[..Due(c)]) || (|c.stream| < c.remaining && c.failsAtEnd)
  {
    var seen := Min(Needed(c, n), |c.stream|);
    if !AllReadable(c.stream[..seen]) {
      var i :| 0 <= i < seen && c.stream[..seen][i].None?;
      assert c.stream[..Due(c)][i].None?;
    }
  }

  /**
   Paging refines the one-shot read: whatever the page sizes, the pages together are the rows executeSelect
   returns; the last page is truncated when the rows reach the limit, executeSelect only when they exceed it.
   */
  lemma {:induction false} PagingRefinesOneShot(stream: seq<Fetched>, failsAtEnd: bool, maxRows: int, sizes: seq<int>)
    requires maxRows > 0 && sizes != [] && |sizes| >= Min(maxRows, |stream|)
    ensures OneShot(stream, failsAtEnd, maxRows).Ok? ==>
              var r := Fetches(Cursor(stream, failsAtEnd, maxRows), sizes);
              && r.Ok? && r.value != [] && WellPaged(r.value, sizes)
              && Rows(r.value) == OneShot(stream, failsAtEnd, maxRows).value.rows
              && !r.value[|r.value| - 1].hasMore && (r.value[|r.value| - 1].truncated <==> |stream| >= maxRows)
              && (OneShot(stream, failsAtEnd, maxRows).value.truncated <==> |stream| > maxRows)
    ensures Fetches(Cursor(stream, failsAtEnd, maxRows), sizes).Ok? && OneShot(stream, failsAtEnd, maxRows).Err?
            <==> AllReadable(stream[..Min(maxRows, |stream|)]) && |stream| == maxRows && failsAtEnd
  {
    var c := Cursor(stream, failsAtEnd, maxRows);
    FetchingFails(c, sizes);
    if Fetches(c, sizes).Ok? {
      PagesAreFull(c, sizes);
      FetchingFinishes(c, sizes);
      PagesRebuild(c, sizes);
    }
  }
}
