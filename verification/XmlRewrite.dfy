/**
 The XMLTYPE select-list rewrite of agents/drivers/oracle-go/main.go: the functions it is made
 of, and the loops that carry it out.
 */
module XmlRewrite {
  import opened Common
  import opened SqlText
  import opened SqlScanners
  import opened SqlIdentifiers

  datatype Column = Column(name: string, dataType: string)

  datatype TableRef = TableRef(schema: string, table: string, alias: Option<Token>)

  datatype ColumnItem = ColumnItem(qualifier: Option<Token>, column: Token, alias: Option<Token>)

  /** The catalog lookup, an answer or an error per (schema, table). */
  type Loader = (string, string) -> Result<seq<Column>, string>

  /** text as rewritten, whether anything changed, whether the statement was one the direct rewrite covers. */
  datatype Outcome = Outcome(text: string, changed: bool, handled: bool)

  // ---- Finding the select list ----

  function FindLineEnd(s: string, i: nat): (e: nat)
    requires i <= |s|
    ensures i <= e <= |s|
    ensures e < |s| ==> s[e] == '\r' || s[e] == '\n'
    ensures forall k :: i <= k < e ==> s[k] != '\r' && s[k] != '\n'
    decreases |s| - i
  {
    if i == |s| || s[i] == '\r' || s[i] == '\n' then i else FindLineEnd(s, i + 1)
  }

  /** Length of the comment that t begins with; all of t if that comment never ends; 0 if there is none. */
  function LeadingCommentLength(t: string): (n: nat)
    ensures n <= |t|
  {
    if "--" <= t then
      var e := FindLineEnd(t, 0);
      if e == |t| then |t| else e + 1
    else if "/*" <= t then
      var e := FindCommentEnd(t, 2);
      if e == |t| then |t| else e + 2
    else 0
  }

  function TrimLeadingComments(sql: string): (r: string)
    ensures |r| <= |sql|
    decreases |sql|
  {
    var t := TrimSpace(sql);
    var n := LeadingCommentLength(t);
    if n == 0 then t else TrimLeadingComments(t[n..])
  }

  /** Where the select list begins, measured back from the end of the text; -1 if this is no SELECT. */
  function SelectListStart(sql: string): (r: int)
    ensures r == -1 || 6 <= r <= |sql|
  {
    var t := TrimLeadingComments(sql);
    if StartsWithKeyword(t, "select") then |sql| - |t| + 6 else -1
  }

  /** Length of the leading part of a select list that holds DISTINCT or ALL and spaces. */
  function ModifierLength(list: string): (n: nat)
    ensures n <= |list|
  {
    var lead := TrimSqlLeft(list, 0);
    var rest := list[lead..];
    if StartsWithKeyword(rest, "distinct") then TrimSqlLeft(list, lead + 8)
    else if StartsWithKeyword(rest, "all") then TrimSqlLeft(list, lead + 3)
    else lead
  }

  // ---- The table reference ----

  predicate IsClauseWord(word: string)
  {
    IdentKey(word) in {"WHERE", "GROUP", "ORDER", "HAVING", "CONNECT", "START", "MODEL", "FETCH", "OFFSET", "UNION",
                       "MINUS", "INTERSECT"}
  }

  predicate NextIsClause(s: string)
  {
    TrimSpace(s) == "" || (ReadToken(TrimSpace(s)).Some? && IsClauseWord(ReadToken(TrimSpace(s)).value.tok.name))
  }

  predicate NextIsComma(s: string)
  {
    var t := SkipSpace(s);
    t != "" && t[0] == ','
  }

  predicate NextIsJoin(s: string)
  {
    || StartsWithKeyword(s, "join") || StartsWithKeyword(s, "inner") || StartsWithKeyword(s, "left")
    || StartsWithKeyword(s, "right") || StartsWithKeyword(s, "full") || StartsWithKeyword(s, "cross")
  }

  /** The optional alias after a table name; None when more than one table is referenced. */
  function ParseAlias(ref: TableRef, s: string): (r: Option<TableRef>)
  {
    if s == "" then Some(ref)
    else if NextIsComma(s) then None
    else if NextIsClause(s) then Some(ref)
    else if NextIsJoin(s) then None
    else
      var read := ReadToken(s);
      var taken := read.Some? && !IsClauseWord(read.value.tok.name);
      var ref' := if taken then ref.(alias := Some(read.value.tok)) else ref;
      var s' := if taken then SkipSpace(read.value.rest) else s;
      if NextIsComma(s') || NextIsJoin(s') then None else Some(ref')
  }

  /** The single table named by the text after FROM. */
  function ParseTableRef(from: string): (r: Option<TableRef>)
  {
    var s := SkipSpace(from);
    if s == "" || s[0] == '(' then None
    else match ReadToken(s)
      case None => None
      case Some(Read(first, rest)) =>
        var s1 := SkipSpace(rest);
        if s1 != "" && s1[0] == '.' then
          match ReadToken(SkipSpace(s1[1..]))
          case None => None
          case Some(Read(second, rest2)) => ParseAlias(TableRef(first.name, second.name, None), SkipSpace(rest2))
        else ParseAlias(TableRef("", first.name, None), s1)
  }

  // ---- Select items ----

  /** `*` or `qualifier.*`; the qualifier is an absent token for a bare star. */
  function ParseStar(item: string): (r: Option<Option<Token>>)
  {
    var t := TrimSpace(item);
    if t == "*" then Some(None)
    else match ReadToken(t)
      case None => None
      case Some(Read(q, rest)) =>
        var s := SkipSpace(rest);
        if s == "" || s[0] != '.' then None
        else
          var s2 := SkipSpace(s[1..]);
          if s2 != "" && s2[0] == '*' && TrimSpace(s2[1..]) == "" then Some(Some(q)) else None
  }

  function ParseItemAlias(q: Option<Token>, column: Token, s: string): (r: Option<ColumnItem>)
  {
    if s == "" then Some(ColumnItem(q, column, None))
    else
      var read := ReadToken(if StartsWithKeyword(s, "as") then SkipSpace(s[2..]) else s);
      if read.None? || TrimSpace(read.value.rest) != "" then None
      else Some(ColumnItem(q, column, Some(read.value.tok)))
  }

  /** `[qualifier.]column [[AS] alias]` and nothing else. */
  function ParseColumnItem(item: string): (r: Option<ColumnItem>)
  {
    match ReadToken(TrimSpace(item))
    case None => None
    case Some(Read(first, rest)) =>
      var s := SkipSpace(rest);
      if s != "" && s[0] == '.' then
        match ReadToken(SkipSpace(s[1..]))
        case None => None
        case Some(Read(second, rest2)) => ParseItemAlias(Some(first), second, SkipSpace(rest2))
      else ParseItemAlias(None, first, s)
  }

  predicate QualifierMatches(q: Option<Token>, ref: TableRef)
  {
    || q.None?
    || TrimSpace(q.value.text) == ""
    || (var key := IdentKey(UnquoteText(q.value.text));
        || (ref.alias.Some? && ref.alias.value.name != "" && key == IdentKey(ref.alias.value.name))
        || key == IdentKey(ref.table))
  }

  predicate IsXmlType(dataType: string)
  {
    IdentKey(dataType) == "XMLTYPE" || IdentKey(dataType) == "SYS.XMLTYPE"
  }

  predicate HasXmlType(columns: seq<Column>)
  {
    exists i :: 0 <= i < |columns| && IsXmlType(columns[i].dataType)
  }

  /** What the map of XMLTYPE columns holds under a key: the last such column. */
  function XmlLookup(columns: seq<Column>, key: string): (r: Option<Column>)
    ensures r.Some? ==> r.value in columns && IsXmlType(r.value.dataType) && IdentKey(r.value.name) == key
    ensures r.None? ==> forall c :: c in columns && IsXmlType(c.dataType) ==> IdentKey(c.name) != key
  {
    if |columns| == 0 then None
    else
      var c := columns[|columns| - 1];
      assert columns == columns[..|columns| - 1] + [c];
      if IsXmlType(c.dataType) && IdentKey(c.name) == key then Some(c) else XmlLookup(columns[..|columns| - 1], key)
  }

  function ColumnRef(q: Option<Token>, name: string): (r: string)
  {
    if q.None? || TrimSpace(q.value.text) == "" then QuoteIdentifier(name)
    else q.value.text + "." + QuoteIdentifier(name)
  }

  function XmlSerialize(columnRef: string, alias: string): (r: string)
  {
    "XMLSERIALIZE(CONTENT " + columnRef + " AS CLOB) AS " + alias
  }

  function StarColumn(column: Column, columns: seq<Column>, ref: TableRef): (r: string)
  {
    if XmlLookup(columns, IdentKey(column.name)).Some?
    then XmlSerialize(ColumnRef(ref.alias, column.name), QuoteIdentifier(column.name))
    else ColumnRef(ref.alias, column.name)
  }

  function ExpandStar(todo: seq<Column>, columns: seq<Column>, ref: TableRef): (r: seq<string>)
    ensures |r| == |todo|
  {
    if |todo| == 0 then [] else ExpandStar(todo[..|todo| - 1], columns, ref) + [StarColumn(todo[|todo| - 1], columns, ref)]
  }

  predicate IsStarOf(item: string, ref: TableRef)
  {
    ParseStar(item).Some? && QualifierMatches(ParseStar(item).value, ref)
  }

  /** A plain reference to an XMLTYPE column of the table, as the rewrite recognizes it. */
  predicate IsXmlItem(item: string, columns: seq<Column>, ref: TableRef)
  {
    var p := ParseColumnItem(item);
    p.Some? && QualifierMatches(p.value.qualifier, ref) && XmlLookup(columns, IdentKey(p.value.column.name)).Some?
  }

  function SerializeItem(item: string, columns: seq<Column>, ref: TableRef): (r: string)
    requires IsXmlItem(item, columns, ref)
  {
    var p := ParseColumnItem(item).value;
    var meta := XmlLookup(columns, IdentKey(p.column.name)).value;
    XmlSerialize(ColumnRef(p.qualifier, meta.name), if p.alias.Some? then p.alias.value.text else QuoteIdentifier(meta.name))
  }

  function RewriteItem(item: string, columns: seq<Column>, ref: TableRef): (r: seq<string>)
  {
    if IsStarOf(item, ref) then ExpandStar(columns, columns, ref)
    else if IsXmlItem(item, columns, ref) then [SerializeItem(item, columns, ref)]
    else [item]
  }

  predicate ItemChanges(item: string, columns: seq<Column>, ref: TableRef)
  {
    IsStarOf(item, ref) || IsXmlItem(item, columns, ref)
  }

  function RewriteItems(items: seq<string>, columns: seq<Column>, ref: TableRef): (r: seq<string>)
  {
    if |items| == 0 then []
    else RewriteItems(items[..|items| - 1], columns, ref) + RewriteItem(items[|items| - 1], columns, ref)
  }

  predicate AnyChanges(items: seq<string>, columns: seq<Column>, ref: TableRef)
  {
    exists i :: 0 <= i < |items| && ItemChanges(items[i], columns, ref)
  }

  predicate MayReference(items: seq<string>)
  {
    exists i :: 0 <= i < |items| && (ParseStar(items[i]).Some? || ParseColumnItem(items[i]).Some?)
  }

  method RewriteSelectItems(items: seq<string>, columns: seq<Column>, ref: TableRef)
    returns (rewritten: seq<string>, changed: bool)
    ensures rewritten == RewriteItems(items, columns, ref)
    ensures changed <==> AnyChanges(items, columns, ref)
  {
    hide RewriteItem, ItemChanges;
    rewritten, changed := [], false;
    var n := 0;
    while n < |items|
      invariant 0 <= n <= |items|
      invariant rewritten == RewriteItems(items[..n], columns, ref)
      invariant changed <==> AnyChanges(items[..n], columns, ref)
    {
      var expressions, changes := RewriteSelectItem(items[n], columns, ref);
      RewriteItemsSnoc(items[..n], items[n], columns, ref);
      assert items[..n + 1] == items[..n] + [items[n]];
      rewritten := rewritten + expressions;
      if changes {
        changed := true;
      }
      n := n + 1;
    }
    assert items[..n] == items;
  }

  lemma {:induction false} RewriteItemsSnoc(items: seq<string>, item: string, columns: seq<Column>, ref: TableRef)
    ensures RewriteItems(items + [item], columns, ref) == RewriteItems(items, columns, ref) + RewriteItem(item, columns, ref)
    ensures AnyChanges(items + [item], columns, ref) <==> AnyChanges(items, columns, ref) || ItemChanges(item, columns, ref)
  {
    var all := items + [item];
    assert all[..|items|] == items && all[|items|] == item;
    assert forall i :: 0 <= i < |items| ==> all[i] == items[i];
    if AnyChanges(items, columns, ref) {
      var i :| 0 <= i < |items| && ItemChanges(items[i], columns, ref);
      assert ItemChanges(all[i], columns, ref);
    }
    if ItemChanges(item, columns, ref) {
      assert ItemChanges(all[|items|], columns, ref);
    }
    if AnyChanges(all, columns, ref) {
      var i :| 0 <= i < |all| && ItemChanges(all[i], columns, ref);
      if i < |items| {
        assert ItemChanges(items[i], columns, ref);
      }
    }
  }

  /** One pass of the item loop: the expressions appended for an item, and whether they replace it. */
  method RewriteSelectItem(item: string, columns: seq<Column>, ref: TableRef) returns (r: seq<string>, changes: bool)
    ensures r == RewriteItem(item, columns, ref)
    ensures changes <==> ItemChanges(item, columns, ref)
  {
    hide StarColumn, ParseStar, ParseColumnItem, QualifierMatches, XmlLookup, SerializeItem;
    if IsStarOf(item, ref) {
      r := [];
      var k := 0;
      while k < |columns|
        invariant 0 <= k <= |columns|
        invariant r == ExpandStar(columns[..k], columns, ref)
      {
        assert columns[..k + 1][..k] == columns[..k];
        r := r + [StarColumn(columns[k], columns, ref)];
        k := k + 1;
      }
      assert columns[..k] == columns;
      return r, true;
    }
    if IsXmlItem(item, columns, ref) {
      return [SerializeItem(item, columns, ref)], true;
    }
    return [item], false;
  }

  // ---- The direct rewrite ----

  /** The parts of a single-table SELECT: sql == head + prefix + list + from. */
  datatype Parts = Parts(head: string, prefix: string, list: string, from: string, ref: TableRef)

  function ParseSelect(sql: string): (r: Option<Parts>)
  {
    var start := SelectListStart(sql);
    if start < 0 then None
    else
      var from := FindKeyword(sql, start, start, "from");
      if from < 0 || from + 4 > |sql| then None
      else
        var section := sql[start..from];
        var n := ModifierLength(section);
        match ParseTableRef(sql[from + 4..])
        case None => None
        case Some(ref) => Some(Parts(sql[..start], section[..n], section[n..], sql[from..], ref))
  }

  function Rebuild(p: Parts, items: seq<string>): (r: string)
  {
    p.head + p.prefix + Join(items, ", ") + " " + p.from
  }

  function RewriteDirect(sql: string, load: Loader): (r: Result<Outcome, string>)
  {
    match ParseSelect(sql)
    case None => Ok(Outcome(sql, false, false))
    case Some(p) =>
      var items := SplitItems(p.list);
      if |items| == 0 || !MayReference(items) then Ok(Outcome(sql, false, true))
      else match load(p.ref.schema, p.ref.table)
        case Err(e) => Err(e)
        case Ok(columns) =>
          if HasXmlType(columns) && AnyChanges(items, columns, p.ref)
          then Ok(Outcome(Rebuild(p, RewriteItems(items, columns, p.ref)), true, true))
          else Ok(Outcome(sql, false, true))
  }

  method RewriteDirectSelect(sql: string, load: Loader) returns (r: Result<Outcome, string>)
    ensures r == RewriteDirect(sql, load)
  {
    hide FindKeyword, ModifierLength, ParseTableRef, SplitItems, RewriteItems, SelectListStart, MayReference, AnyChanges, HasXmlType;
    var start := SelectListStart(sql);
    if start < 0 {
      return Ok(Outcome(sql, false, false));
    }
    var from := FindTopLevelKeyword(sql, start, "from");
    if from < 0 {
      return Ok(Outcome(sql, false, false));
    }
    var section := sql[start..from];
    var n := ModifierLength(section);
    var prefix, list := section[..n], section[n..];
    var ref := ParseTableRef(sql[from + 4..]);
    if ref.None? {
      return Ok(Outcome(sql, false, false));
    }
    var items := SplitTopLevelList(list);
    if |items| == 0 || !MayReference(items) {
      return Ok(Outcome(sql, false, true));
    }
    var loaded := load(ref.value.schema, ref.value.table);
    if loaded.Err? {
      return Err(loaded.error);
    }
    var columns := loaded.value;
    if !HasXmlType(columns) {
      return Ok(Outcome(sql, false, true));
    }
    var rewritten, changed := RewriteSelectItems(items, columns, ref.value);
    if !changed {
      return Ok(Outcome(sql, false, true));
    }
    return Ok(Outcome(sql[..start] + prefix + Join(rewritten, ", ") + " " + sql[from..], true, true));
  }
}
