/** The Oracle driver's stored cursors: query sessions, table reads and the table of open result sets. */
module CursorTable {
  import opened Common
  import opened Paging

  // ---- Session ids ----

  datatype Kind = QueryPages | TableRead

  const QUERY_PREFIX := "oracle-go-"
  const TABLE_PREFIX := "oracle-go-table-"

  function SessionId(kind: Kind, n: nat): string
  {
    (if kind.QueryPages? then QUERY_PREFIX else TABLE_PREFIX) + Decimal(n)
  }

  /** Two ids are equal only when they were made for the same kind of session from the same counter value. */
  lemma {:induction false} SessionIdInjective(k: Kind, a: nat, j: Kind, b: nat)
    requires SessionId(k, a) == SessionId(j, b)
    ensures k == j && a == b
  {
    KindShows(k, a);
    KindShows(j, b);
    var p := if k.QueryPages? then |QUERY_PREFIX| else |TABLE_PREFIX|;
    assert SessionId(k, a)[p..] == Decimal(a) && SessionId(j, b)[p..] == Decimal(b);
    DecimalInjective(a, b);
  }

  lemma {:induction false} KindShows(k: Kind, n: nat)
    ensures |SessionId(k, n)| > |QUERY_PREFIX|
    ensures SessionId(k, n)[|QUERY_PREFIX|] == 't' <==> k.TableRead?
  {
    assert k.QueryPages? ==> SessionId(k, n)[|QUERY_PREFIX|] == Decimal(n)[0];
  }

  /** Every id handed out while the counters went from zero to these values. */
  ghost function Issued(queries: nat, tables: nat): set<string>
  {
    (set n | 1 <= n <= queries :: SessionId(QueryPages, n)) + (set n | 1 <= n <= tables :: SessionId(TableRead, n))
  }

  lemma {:induction false} NextIdFresh(queries: nat, tables: nat)
    ensures SessionId(QueryPages, queries + 1) !in Issued(queries, tables) && SessionId(TableRead, tables + 1) !in Issued(queries, tables)
    ensures Issued(queries + 1, tables) == Issued(queries, tables) + {SessionId(QueryPages, queries + 1)}
    ensures Issued(queries, tables + 1) == Issued(queries, tables) + {SessionId(TableRead, tables + 1)}
  {
    hide SessionId;
    forall k: Kind, a: nat, j: Kind, b: nat | SessionId(k, a) == SessionId(j, b) ensures k == j && a == b {
      SessionIdInjective(k, a, j, b);
    }
    var q, t := SessionId(QueryPages, queries + 1), SessionId(TableRead, tables + 1);
    assert q in Issued(queries + 1, tables) && t in Issued(queries, tables + 1);
    assert Issued(queries + 1, tables) == Issued(queries, tables) + {q};
    assert Issued(queries, tables + 1) == Issued(queries, tables) + {t};
  }

  // ---- Tables of sessions ----

  type Sessions = map<string, QuerySession>

  ghost function RowsOf(qs: set<QuerySession>): set<ResultSet>
  {
    set q | q in qs :: q.rows
  }

  /** No result set is read by two stored sessions, and no session is stored twice. */
  ghost predicate Apart(a: Sessions, b: Sessions)
  {
    && (forall q, p :: q in a.Values + b.Values && p in a.Values + b.Values && q.rows == p.rows ==> q == p)
    && Injective(a) && Injective(b) && a.Values !! b.Values
  }

  ghost predicate Injective(m: Sessions)
  {
    forall i, j :: i in m && j in m && m[i] == m[j] ==> i == j
  }

  lemma {:induction false} AddedValue(m: Sessions, id: string, q: QuerySession)
    requires id !in m && q !in m.Values && Injective(m)
    ensures m[id := q].Values == m.Values + {q} && Injective(m[id := q])
  {
    forall v | v in m.Values ensures v in m[id := q].Values {
      var i :| i in m && m[i] == v;
      assert m[id := q][i] == v;
    }
    assert m[id := q][id] == q;
  }

  lemma {:induction false} RemovedValue(m: Sessions, id: string)
    requires id in m && Injective(m)
    ensures (m - {id}).Values == m.Values - {m[id]} && Injective(m - {id})
  {
    forall v | v in m.Values && v != m[id] ensures v in (m - {id}).Values {
      var i :| i in m && m[i] == v;
      assert (m - {id})[i] == v;
    }
  }

  lemma {:induction false} ApartOthers(a: Sessions, b: Sessions, q: QuerySession)
    requires Apart(a, b) && q in a.Values + b.Values
    ensures forall p :: p in a.Values + b.Values && p != q ==> p.rows != q.rows
  {
  }

  lemma {:induction false} ApartSwap(a: Sessions, b: Sessions)
    requires Apart(a, b)
    ensures Apart(b, a)
  {
    assert a.Values + b.Values == b.Values + a.Values;
  }

  lemma {:induction false} ApartAdd(a: Sessions, b: Sessions, id: string, q: QuerySession)
    requires Apart(a, b) && id !in a && q.rows !in RowsOf(a.Values + b.Values)
    ensures Apart(a[id := q], b) && a[id := q].Values + b.Values == a.Values + b.Values + {q}
    ensures RowsOf(a[id := q].Values + b.Values) == RowsOf(a.Values + b.Values) + {q.rows}
  {
    assert q !in a.Values + b.Values;
    AddedValue(a, id, q);
    hide Injective;
    assert a[id := q].Values + b.Values == a.Values + b.Values + {q};
  }

  lemma {:induction false} ApartRemove(a: Sessions, b: Sessions, id: string)
    requires Apart(a, b) && id in a
    ensures Apart(a - {id}, b) && (a - {id}).Values + b.Values == a.Values + b.Values - {a[id]}
    ensures RowsOf((a - {id}).Values + b.Values) == RowsOf(a.Values + b.Values) - {a[id].rows}
  {
    RemovedValue(a, id);
    hide Injective;
    assert (a - {id}).Values + b.Values == a.Values + b.Values - {a[id]};
  }

  // ---- The server ----

  /** What the database does with one statement. */
  datatype Query = Failed | Opened(items: seq<Fetched>, failsAtEnd: bool)

  datatype Rewrite = RewriteFails | Unchanged | Rewritten(second: Query)

  /** A select whose metadata may show XMLTYPE columns, and what the rewrite then comes to. */
  datatype Attempt = Attempt(first: Query, hasXml: bool, rewrite: Rewrite)

  /** The statement whose result set the caller gets. */
  function Chosen(a: Attempt): Query
  {
    if a.first.Failed? || !a.hasXml then a.first
    else match a.rewrite
      case RewriteFails => Failed
      case Unchanged => a.first
      case Rewritten(second) => second
  }

  datatype Reply = Reply(page: Page, id: Option<string>)

  function MaxRows(n: int): (r: int)
    ensures (n > 0 ==> r == n) && (n <= 0 ==> r == 1000)
  {
    if n <= 0 then DEFAULT_MAX_ROWS else n
  }

  /** What the first page starts from. */
  function FirstCursor(a: Attempt, maxRows: int): Cursor
  {
    if Chosen(a).Opened? then Cursor(Chosen(a).items, Chosen(a).failsAtEnd, MaxRows(maxRows)) else Cursor([], true, 0)
  }

  /** A stored session stands where reading a page of size n from c leaves it. */
  ghost predicate Holds(q: QuerySession, c: Cursor, n: int)
    reads q, q.rows
  {
    q.Ready() && Leaves(c, n, q.View())
  }

  class Server {
    var connected: bool
    var sessions: map<string, QuerySession>
    var tableReads: map<string, QuerySession>
    var activeRows: set<ResultSet>
    var nextSession: nat
    var nextTableRead: nat

    ghost function Stored(): set<QuerySession>
      reads this
    {
      sessions.Values + tableReads.Values
    }

    ghost function Table(kind: Kind): map<string, QuerySession>
      reads this
    {
      if kind.QueryPages? then sessions else tableReads
    }

    /** Open result sets are the stored sessions' own, and every session but those just read is ready for a fetch. */
    ghost predicate Sound(reading: set<QuerySession>)
      reads this, Stored(), RowsOf(Stored())
    {
      && activeRows == RowsOf(Stored()) && Apart(sessions, tableReads)
      && (forall q :: q in Stored() && q !in reading ==> q.Ready())
      && (forall id :: id in sessions || id in tableReads ==> id in Issued(nextSession, nextTableRead))
    }

    /** Between requests: open result sets are the stored sessions' own, and every stored session has a row waiting and budget left. */
    ghost predicate Valid()
      reads this, Stored(), RowsOf(Stored())
    {
      Sound({})
    }

    constructor ()
      ensures Valid() && sessions == map[] && tableReads == map[] && Issued(nextSession, nextTableRead) == {}
    {
      connected := false;
      sessions, tableReads := map[], map[];
      activeRows := {};
      nextSession, nextTableRead := 0, 0;
    }

    /** queryRows: an opened result set is recorded. */
    method QueryRows(q: Query) returns (rows: Option<ResultSet>)
      modifies this`activeRows
      ensures rows.Some? <==> connected && q.Opened?
      ensures rows.None? ==> activeRows == old(activeRows)
      ensures rows.Some? ==> fresh(rows.value) && rows.value.pos == 0 && rows.value.items == q.items
                             && rows.value.failsAtEnd == q.failsAtEnd && activeRows == old(activeRows) + {rows.value}
    {
      if !connected || q.Failed? {
        return None;
      }
      var r := new ResultSet(q.items, q.failsAtEnd);
      activeRows := activeRows + {r};
      rows := Some(r);
    }

    /** closeRows. */
    method CloseRows(rows: ResultSet)
      modifies this`activeRows
      ensures activeRows == old(activeRows) - {rows}
    {
      activeRows := activeRows - {rows};
    }

    /** queryRowsWithXMLTypeRewriteIfNeeded: at most one result set stays open. */
    method QueryWithRewrite(a: Attempt) returns (rows: Option<ResultSet>)
      requires forall r :: r in activeRows ==> allocated(r)
      modifies this`activeRows
      ensures rows.Some? <==> connected && Chosen(a).Opened?
      ensures a.hasXml && a.rewrite.Rewritten? && a.rewrite.second.Opened? && rows.Some? ==> rows.value.items == a.rewrite.second.items
      ensures (!a.hasXml || a.rewrite.Unchanged?) && a.first.Opened? && rows.Some? ==> rows.value.items == a.first.items
      ensures a.first.Failed? || (a.hasXml && (a.rewrite.RewriteFails? || (a.rewrite.Rewritten? && a.rewrite.second.Failed?))) ==> rows.None?
      ensures rows.None? ==> activeRows == old(activeRows)
      ensures rows.Some? ==> fresh(rows.value) && rows.value.pos == 0 && rows.value.items == Chosen(a).items
                             && rows.value.failsAtEnd == Chosen(a).failsAtEnd && activeRows == old(activeRows) + {rows.value}
    {
      rows := QueryRows(a.first);
      if rows.None? || !a.hasXml {
        return;
      }
      match a.rewrite
      case RewriteFails =>
        CloseRows(rows.value);
        assert activeRows == old(activeRows);
        rows := None;
      case Unchanged =>
      case Rewritten(second) =>
        CloseRows(rows.value);
        assert activeRows == old(activeRows);
        rows := QueryRows(second);
    }

    /** A session outside the tables whose result set is open and its own. */
    ghost predicate Holding(q: QuerySession)
      reads this, Stored(), RowsOf(Stored())
    {
      && q.rows !in RowsOf(Stored()) && activeRows == RowsOf(Stored()) + {q.rows} && Apart(sessions, tableReads)
      && (forall p :: p in Stored() ==> p.Ready())
      && (forall i :: i in sessions || i in tableReads ==> i in Issued(nextSession, nextTableRead))
    }

    ghost predicate StoreReady(q: QuerySession)
      reads this, Stored(), RowsOf(Stored()), q, q.rows
    {
      Holding(q) && q.Ready()
    }

    /** storeQuerySession. */
    method StoreQuery(q: QuerySession) returns (id: string)
      requires StoreReady(q)
      modifies this`sessions, this`nextSession
      ensures Valid() && sessions == old(sessions)[id := q] && id == SessionId(QueryPages, old(nextSession) + 1) && nextSession == old(nextSession) + 1
    {
      NextIdFresh(nextSession, nextTableRead);
      hide Issued, Apart, RowsOf, SessionId;
      nextSession := nextSession + 1;
      id := SessionId(QueryPages, nextSession);
      ApartAdd(sessions, tableReads, id, q);
      sessions := sessions[id := q];
      assert Stored() == old(Stored()) + {q};
    }

    /** storeTableReadSession. */
    method StoreTableRead(q: QuerySession) returns (id: string)
      requires StoreReady(q)
      modifies this`tableReads, this`nextTableRead
      ensures Valid() && tableReads == old(tableReads)[id := q] && id == SessionId(TableRead, old(nextTableRead) + 1) && nextTableRead == old(nextTableRead) + 1
    {
      NextIdFresh(nextSession, nextTableRead);
      hide Issued, Apart, RowsOf, SessionId;
      nextTableRead := nextTableRead + 1;
      id := SessionId(TableRead, nextTableRead);
      ApartSwap(sessions, tableReads);
      assert tableReads.Values + sessions.Values == Stored();
      ApartAdd(tableReads, sessions, id, q);
      tableReads := tableReads[id := q];
      assert tableReads.Values + sessions.Values == Stored();
      ApartSwap(tableReads, sessions);
      assert Stored() == old(Stored()) + {q};
    }

    method Store(kind: Kind, q: QuerySession) returns (id: string)
      requires StoreReady(q)
      modifies this
      ensures Valid() && connected == old(connected)
      ensures id !in old(Issued(nextSession, nextTableRead)) && Issued(nextSession, nextTableRead) == old(Issued(nextSession, nextTableRead)) + {id}
      ensures Table(kind) == old(Table(kind))[id := q] && id in Table(kind) && Table(kind)[id] == q
      ensures forall k :: k != kind ==> Table(k) == old(Table(k))
    {
      NextIdFresh(nextSession, nextTableRead);
      hide Issued, Apart, RowsOf, SessionId, StoreReady;
      if kind.QueryPages? {
        id := StoreQuery(q);
      } else {
        id := StoreTableRead(q);
      }
    }

    /** closeQuerySession and closeTableReadSession. */
    method Close(kind: Kind, id: string) returns (found: bool)
      requires Sound(if id in Table(kind) then {Table(kind)[id]} else {})
      modifies this`sessions, this`tableReads, this`activeRows
      ensures Valid() && found == (id in old(Table(kind)))
      ensures Table(kind) == old(Table(kind)) - {id}
      ensures forall k :: k != kind ==> Table(k) == old(Table(k))
    {
      hide Issued, Apart, RowsOf;
      found := if kind.QueryPages? then id in sessions else id in tableReads;
      if !found {
        assert Table(kind) - {id} == Table(kind);
        return;
      }
      if kind.QueryPages? {
        CloseRows(sessions[id].rows);
        ApartRemove(sessions, tableReads, id);
        sessions := sessions - {id};
      } else {
        CloseRows(tableReads[id].rows);
        ApartSwap(sessions, tableReads);
        assert tableReads.Values + sessions.Values == Stored();
        ApartRemove(tableReads, sessions, id);
        tableReads := tableReads - {id};
        assert tableReads.Values + sessions.Values == Stored();
        ApartSwap(tableReads, sessions);
      }
      assert Stored() == old(Stored()) - {old(Table(kind)[id])};
    }

    /** The part of executeQueryPage and startTableRead before the first read. */
    method OpenSession(a: Attempt, columnsOk: bool, maxRows: int) returns (q: Option<QuerySession>)
      requires forall r :: r in activeRows ==> allocated(r)
      modifies this`activeRows
      ensures q.Some? <==> connected && columnsOk && Chosen(a).Opened?
      ensures q.None? ==> activeRows == old(activeRows)
      ensures q.Some? ==> fresh(q.value) && fresh(q.value.rows) && activeRows == old(activeRows) + {q.value.rows}
                          && q.value.Valid() && q.value.View() == FirstCursor(a, maxRows)
    {
      var answer := QueryWithRewrite(a);
      if answer.None? {
        return None;
      }
      if !columnsOk {
        CloseRows(answer.value);
        assert activeRows == old(activeRows);
        return None;
      }
      var session := new QuerySession(answer.value, MaxRows(maxRows));
      q := Some(session);
    }

    /** What happens to a session after its first read: kept under a new id when there is more, closed otherwise. */
    method Settle(kind: Kind, q: QuerySession, more: bool) returns (id: Option<string>)
      requires Holding(q) && (more ==> q.Ready())
      modifies this
      ensures Valid() && connected == old(connected) && (id.Some? <==> more)
      ensures id.None? ==> sessions == old(sessions) && tableReads == old(tableReads)
                           && nextSession == old(nextSession) && nextTableRead == old(nextTableRead)
      ensures id.Some? ==>
                && id.value !in old(Issued(nextSession, nextTableRead))
                && Issued(nextSession, nextTableRead) == old(Issued(nextSession, nextTableRead)) + {id.value}
                && id.value in Table(kind) && Table(kind)[id.value] == q && Table(kind) == old(Table(kind))[id.value := q]
                && forall k :: k != kind ==> Table(k) == old(Table(k))
    {
      hide Issued, Apart, RowsOf;
      if more {
        var stored := Store(kind, q);
        id := Some(stored);
      } else {
        CloseRows(q.rows);
        assert activeRows == RowsOf(Stored());
        id := None;
      }
    }

    /** executeQueryPage and startTableRead on a select: the first page, and the rest kept under a new id when there is more. */
    method Start(kind: Kind, a: Attempt, columnsOk: bool, maxRows: int, n: int) returns (r: Result<Reply, ReadError>)
      requires Valid()
      modifies this
      ensures Valid() && connected == old(connected)
      ensures r.Ok? <==> connected && columnsOk && Chosen(a).Opened? && Returned(FirstCursor(a, maxRows), n).Ok?
      ensures r.Ok? ==> r.value.page == Returned(FirstCursor(a, maxRows), n).value && (r.value.id.Some? <==> r.value.page.hasMore)
      ensures r.Err? || r.value.id.None? ==> sessions == old(sessions) && tableReads == old(tableReads)
                                             && nextSession == old(nextSession) && nextTableRead == old(nextTableRead)
      ensures r.Ok? && r.value.id.Some? ==>
                var id := r.value.id.value;
                && id !in old(Issued(nextSession, nextTableRead)) && Issued(nextSession, nextTableRead) == old(Issued(nextSession, nextTableRead)) + {id}
                && id in Table(kind) && Table(kind) == old(Table(kind))[id := Table(kind)[id]]
                && (forall k :: k != kind ==> Table(k) == old(Table(k)))
                && Holds(Table(kind)[id], FirstCursor(a, maxRows), n)
    {
      hide Issued, Apart, RowsOf, Returned, Leaves, FirstCursor, Valid, Holding;
      var q, read := FirstRead(a, columnsOk, maxRows, n);
      if q.None? {
        return Err(Unreadable);
      }
      var id := Settle(kind, q.value, read.Ok? && read.value.hasMore);
      r := if read.Err? then Err(Unreadable) else Ok(Reply(read.value, id));
    }

    method FirstRead(a: Attempt, columnsOk: bool, maxRows: int, n: int) returns (q: Option<QuerySession>, read: Result<Page, ReadError>)
      requires Valid()
      modifies this`activeRows
      ensures q.Some? <==> connected && columnsOk && Chosen(a).Opened?
      ensures q.None? ==> Valid()
      ensures q.Some? ==> Holding(q.value) && read == Returned(FirstCursor(a, maxRows), n)
      ensures q.Some? && read.Ok? && read.value.hasMore ==> Holds(q.value, FirstCursor(a, maxRows), n)
    {
      hide Issued, Apart, RowsOf, Returned, Leaves, FirstCursor;
      q := OpenSession(a, columnsOk, maxRows);
      read := Err(Unreadable);
      if q.Some? {
        read := q.value.ReadPage(n);
      }
    }

    /** fetchQueryPage and fetchTableReadPage: the next page, and the session dropped when there is no more. */
    method Fetch(kind: Kind, id: string, n: int) returns (r: Result<Reply, ReadError>)
      requires Valid()
      modifies this`sessions, this`tableReads, this`activeRows, Stored(), RowsOf(Stored())
      ensures Valid()
      ensures id !in old(Table(kind)) ==> r == Ok(Reply(Page([], false, false), None))
      ensures id in old(Table(kind)) ==>
                var before := old(Table(kind)[id].View());
                && r.Ok? == Returned(before, n).Ok?
                && (r.Ok? ==> r.value.page == Returned(before, n).value && r.value.id == if r.value.page.hasMore then Some(id) else None)
                && (r.Ok? && r.value.page.hasMore ==> Holds(old(Table(kind)[id]), before, n))
      ensures Table(kind) == if r.Ok? && r.value.page.hasMore then old(Table(kind)) else old(Table(kind)) - {id}
      ensures forall k :: k != kind ==> Table(k) == old(Table(k))
      ensures forall q :: q in old(Stored()) && (id in old(Table(kind)) ==> q != old(Table(kind)[id]))
                ==> q.pending == old(q.pending) && q.remaining == old(q.remaining) && q.rows.pos == old(q.rows.pos)
    {
      hide Issued, Apart, Returned, Leaves;
      if id !in (if kind.QueryPages? then sessions else tableReads) {
        assert Table(kind) - {id} == Table(kind);
        return Ok(Reply(Page([], false, false), None));
      }
      var q := if kind.QueryPages? then sessions[id] else tableReads[id];
      assert q in Stored() && q.rows in RowsOf(Stored());
      ApartOthers(sessions, tableReads, q);
      hide RowsOf;
      var read := q.ReadPage(n);
      if read.Err? || !read.value.hasMore {
        var _ := Close(kind, id);
        return if read.Err? then Err(Unreadable) else Ok(Reply(read.value, None));
      }
      r := Ok(Reply(read.value, Some(id)));
    }
  
    /** A close request between others. */
    method CloseStored(kind: Kind, id: string) returns (found: bool)
      requires Valid()
      modifies this`sessions, this`tableReads, this`activeRows
      ensures Valid() && found == (id in old(Table(kind)))
      ensures Table(kind) == old(Table(kind)) - {id}
      ensures forall k :: k != kind ==> Table(k) == old(Table(k))
    {
      found := Close(kind, id);
    }

    /** One of the loops of closeAllQuerySessions, in whatever order the map is walked. */
    method CloseQueries()
      requires Valid()
      modifies this`sessions, this`tableReads, this`activeRows
      ensures Valid() && sessions == map[] && tableReads == old(tableReads)
    {
      hide Valid;
      while sessions != map[]
        invariant Valid() && tableReads == old(tableReads)
        decreases |sessions|
      {
        var id :| id in sessions;
        Shrinks(sessions, id);
        var _ := CloseStored(QueryPages, id);
        assert Table(TableRead) == tableReads;
      }
    }

    method CloseTableReads()
      requires Valid()
      modifies this`sessions, this`tableReads, this`activeRows
      ensures Valid() && tableReads == map[] && sessions == old(sessions)
    {
      hide Valid;
      while tableReads != map[]
        invariant Valid() && sessions == old(sessions)
        decreases |tableReads|
      {
        var id :| id in tableReads;
        Shrinks(tableReads, id);
        var _ := CloseStored(TableRead, id);
        assert Table(QueryPages) == sessions;
      }
    }

    /** closeAllQuerySessions. */
    method CloseAll()
      requires Valid()
      modifies this`sessions, this`tableReads, this`activeRows
      ensures Valid() && sessions == map[] && tableReads == map[] && activeRows == {}
    {
      CloseQueries();
      CloseTableReads();
      NothingStored();
      hide RowsOf, Apart, Issued;
    }

    /** disconnect: the tables are emptied whether or not there was a connection and whether or not closing it succeeds. */
    method Disconnect(closes: bool) returns (ok: bool)
      requires Valid()
      modifies this`connected, this`sessions, this`tableReads, this`activeRows
      ensures Valid() && !connected && sessions == map[] && tableReads == map[] && activeRows == {}
      ensures ok == (!old(connected) || closes)
    {
      CloseAll();
      if !connected {
        return true;
      }
      connected := false;
      ok := closes;
    }

    /** connect: whatever was open is dropped first; the id counters are not. */
    method Connect(closes: bool, opens: bool) returns (ok: bool)
      requires Valid()
      modifies this`connected, this`sessions, this`tableReads, this`activeRows
      ensures Valid() && connected == opens && ok == opens && sessions == map[] && tableReads == map[] && activeRows == {}
    {
      var _ := Disconnect(closes);
      connected := opens;
      ok := opens;
    }
  }

  lemma {:induction false} NothingStored()
    ensures var none: Sessions := map[]; RowsOf(none.Values + none.Values) == {}
  {
  }

  lemma {:induction false} Shrinks(m: Sessions, id: string)
    requires id in m
    ensures |m - {id}| < |m|
  {
    assert m.Keys == (m - {id}).Keys + {id};
    assert |m.Keys| == |m| && |(m - {id}).Keys| == |m - {id}|;
  }
}
