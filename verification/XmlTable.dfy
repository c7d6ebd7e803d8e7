/** Which table a statement names, read off the tokens behind FROM and independently of the parser that finds it. */
module XmlTable {
  import opened Common
  import opened SqlText
  import opened SqlLexer
  import opened SqlScanners
  import opened SqlIdentifiers
  import opened SqlSegments
  import opened SqlLists
  import opened XmlRewrite
  import opened XmlReparse
  import opened XmlIdempotent
  import opened XmlMeaning

  // ---- The grammar of a single table ----

  const CLAUSES := {"WHERE", "GROUP", "ORDER", "HAVING", "CONNECT", "START", "MODEL", "FETCH", "OFFSET", "UNION", "MINUS", "INTERSECT"}
  const JOINS := ["JOIN", "INNER", "LEFT", "RIGHT", "FULL", "CROSS"]

  /** The tokens behind blanks that are no SQL blanks. */
  function Visible(ts: seq<Tok>): seq<Tok>
  {
    if ts != [] && ts[0].Sym? && IsUniSpace(ts[0].c) then Visible(ts[1..]) else ts
  }

  /** A clause of the statement follows, or nothing. */
  predicate ClauseNext(ts: seq<Tok>)
  {
    var v := Visible(ts);
    v == [] || (v[0].Id? && IdentKey(v[0].tok.name) in CLAUSES)
  }

  predicate StartsJoin(tok: Token, join: string)
  {
    !tok.quoted && (tok.name == join || join + "#" <= tok.name)
  }

  /** A join follows; a word goes on to count as the join word when a number sign is directly behind it. */
  predicate JoinNext(ts: seq<Tok>)
  {
    var v := Visible(ts);
    v != [] && v[0].Id? && exists i :: 0 <= i < |JOINS| && StartsJoin(v[0].tok, JOINS[i])
  }

  predicate CommaNext(ts: seq<Tok>)
  {
    ts != [] && ts[0] == Sym(',')
  }

  /** `table` or `schema.table` stands at the front. */
  predicate NamesTable(ts: seq<Tok>)
  {
    ts != [] && ts[0].Id? && (|ts| >= 2 && ts[1] == Sym('.') ==> |ts| >= 3 && ts[2].Id?)
  }

  predicate Qualified(ts: seq<Tok>)
  {
    |ts| >= 3 && ts[0].Id? && ts[1] == Sym('.') && ts[2].Id?
  }

  function SchemaName(ts: seq<Tok>): string
  {
    if Qualified(ts) then ts[0].tok.name else ""
  }

  function TableName(ts: seq<Tok>): string
    requires NamesTable(ts)
  {
    if Qualified(ts) then ts[2].tok.name else ts[0].tok.name
  }

  function BehindTable(ts: seq<Tok>): seq<Tok>
    requires NamesTable(ts)
  {
    if Qualified(ts) then ts[3..] else ts[1..]
  }

  /** The identifier behind the table that starts no clause. */
  function AliasName(rest: seq<Tok>): Option<Token>
  {
    if !ClauseNext(rest) && rest != [] && rest[0].Id? then Some(rest[0].tok) else None
  }

  /** Neither a comma nor a join follows the table and its alias. */
  predicate Alone(rest: seq<Tok>)
  {
    && !CommaNext(rest)
    && (ClauseNext(rest)
        || (!JoinNext(rest) && var behind := if AliasName(rest).Some? then rest[1..] else rest; !CommaNext(behind) && !JoinNext(behind)))
  }

  /** The one table that the tokens behind FROM name. */
  function NamedTable(ts: seq<Tok>): Option<TableRef>
  {
    if NamesTable(ts) && Alone(BehindTable(ts))
    then Some(TableRef(SchemaName(ts), TableName(ts), AliasName(BehindTable(ts)))) else None
  }

  // ---- Texts and their first token ----

  lemma {:induction false} FirstToken(s: string)
    ensures var u := SkipSpace(s);
            if u == "" then Tokens(s) == []
            else match ReadAt(u)
                 case Some(Read(tok, rest)) => Tokens(s) != [] && Tokens(s)[0] == Id(tok) && Tokens(s)[1..] == Tokens(rest)
                 case None => Tokens(s) != [] && Tokens(s)[0] == Sym(u[0]) && Tokens(s)[1..] == Tokens(u[1..])
  {
    hide ReadAt, Tokens;
    TokensOf(s);
  }

  lemma {:induction false} SymFirst(s: string, c: char)
    requires SkipSpace(s) == s && c != '"' && !IsIdentStart(c)
    ensures s != "" && s[0] == c <==> Tokens(s) != [] && Tokens(s)[0] == Sym(c)
    ensures s != "" && s[0] == c ==> Tokens(s)[1..] == Tokens(s[1..])
  {
    hide Tokens;
    FirstToken(s);
  }

  lemma {:induction false} LeadShift(s: string)
    requires s != "" && IsUniSpace(s[0])
    ensures TrimLo(s) == TrimLo(s[1..]) + 1
  {
    hide IsUniSpace;
    var lo := TrimLo(s[1..]);
    forall k | 0 <= k < lo + 1 ensures IsUniSpace(s[k]) {
      assert k > 0 ==> s[1..][k - 1] == s[k];
    }
    assert lo + 1 < |s| ==> s[1..][lo] == s[lo + 1];
  }

  /** Looking past all blanks in the text is looking past them in the tokens. */
  lemma {:induction false} VisibleText(s: string)
    ensures Visible(Tokens(s)) == Tokens(s[TrimLo(s)..])
    decreases |s|
  {
    hide ReadAt, IsUniSpace, Tokens;
    if s == "" {
      EmptyTokens();
    } else if IsUniSpace(s[0]) {
      LeadShift(s);
      assert s[1..][TrimLo(s[1..])..] == s[TrimLo(s)..];
      VisibleText(s[1..]);
      BlankFirst(s);
    } else {
      assert s[0..] == s;
      InkFirst(s);
    }
  }

  lemma {:induction false} BlankFirst(s: string)
    requires s != "" && IsUniSpace(s[0])
    ensures Visible(Tokens(s)) == Visible(Tokens(s[1..]))
  {
    if IsSqlSpace(s[0]) {
      assert SkipSpace(s) == SkipSpace(s[1..]);
      TokensOf(s);
      TokensOf(s[1..]);
    } else {
      FirstToken(s);
    }
  }

  lemma {:induction false} InkFirst(s: string)
    requires s != "" && !IsUniSpace(s[0])
    ensures SkipSpace(s) == s && Visible(Tokens(s)) == Tokens(s)
  {
    assert SkipSpace(s) == s;
    FirstToken(s);
  }

  lemma {:induction false} TrimmedInk(s: string)
    ensures TrimSpace(s) == TrimSpace(s[TrimLo(s)..])
    ensures var u := s[TrimLo(s)..];
            && (u != "" ==> !IsUniSpace(u[0])) && TrimSpace(s) <= u && (TrimSpace(s) == "" <==> u == "")
            && forall k :: |TrimSpace(s)| <= k < |u| ==> IsUniSpace(u[k])
  {
    hide IsUniSpace;
    var lo, hi := TrimLo(s), TrimHi(s);
    var u := s[lo..];
    if u != "" {
      assert u[0] == s[lo] && TrimLo(u) == 0;
      assert hi > lo;
      forall k | hi - lo <= k < |u| ensures IsUniSpace(u[k]) {
        assert u[k] == s[lo + k];
      }
      assert u[hi - lo - 1] == s[hi - 1];
      assert TrimHi(u) == hi - lo;
      assert u[..hi - lo] == s[lo..hi];
    }
  }

  // ---- Trailing blanks do not change the first token ----

  lemma {:induction false} QuotedBeforeBlanks(s: string, b: string)
    requires '"' !in b
    ensures ReadQuoted(s + b) == ReadQuoted(s)
    decreases |s|
  {
    if s == "" {
      assert s + b == b;
      NoQuote(b);
    } else if s[0] == '"' {
      if |s| > 1 && s[1] == '"' {
        assert (s + b)[2..] == s[2..] + b;
        QuotedBeforeBlanks(s[2..], b);
      } else {
        assert |s| == 1 && b != "" ==> (s + b)[1] == b[0];
      }
    } else {
      assert (s + b)[1..] == s[1..] + b;
      QuotedBeforeBlanks(s[1..], b);
    }
  }

  lemma {:induction false} NoQuote(b: string)
    requires '"' !in b
    ensures ReadQuoted(b) == None
  {
    if b != "" {
      NoQuote(b[1..]);
    }
  }

  lemma {:induction false} WordBeforeBlanks(s: string, b: string)
    requires b == "" || !IsIdentPart(b[0])
    ensures IdentLen(s + b) == IdentLen(s)
    decreases |s|
  {
    if s == "" {
      assert s + b == b;
    } else {
      assert (s + b)[1..] == s[1..] + b;
      WordBeforeBlanks(s[1..], b);
    }
  }

  lemma {:induction false} ReadBeforeBlanks(s: string, b: string)
    requires s != "" && forall k :: 0 <= k < |b| ==> IsUniSpace(b[k])
    ensures ReadAt(s + b).Some? <==> ReadAt(s).Some?
    ensures ReadAt(s).Some? ==> ReadAt(s + b).value.tok == ReadAt(s).value.tok
  {
    assert '"' !in b && (b == "" || !IsIdentPart(b[0]));
    assert (s + b)[1..] == s[1..] + b;
    QuotedBeforeBlanks(s[1..], b);
    WordBeforeBlanks(s, b);
    assert (s + b)[..IdentLen(s)] == s[..IdentLen(s)];
    var q := ReadQuoted(s[1..]);
    if q.Some? {
      assert (s + b)[..q.value.1 + 1] == s[..q.value.1 + 1];
    }
  }

  // ---- The parser's look-aheads are those of the tokens ----

  lemma {:induction false} CommaIs(s: string)
    ensures NextIsComma(s) <==> CommaNext(Tokens(s))
  {
    hide ReadAt, Tokens;
    TokensOf(s);
    SkipTwice(s);
    SymFirst(SkipSpace(s), ',');
  }

  lemma {:induction false} ClauseIs(s: string)
    ensures NextIsClause(s) <==> ClauseNext(Tokens(s))
  {
    hide ReadAt, Tokens, IsUniSpace, IdentKey, TrimSpace;
    VisibleText(s);
    TrimmedInk(s);
    var u, t := s[TrimLo(s)..], TrimSpace(s);
    if u == "" {
      EmptyTokens();
    } else {
      InkFirst(u);
      FirstToken(u);
      assert u == t + u[|t|..];
      assert u[|t|..] == u[|t|..];
      forall k | 0 <= k < |u[|t|..]| ensures IsUniSpace(u[|t|..][k]) {
        assert u[|t|..][k] == u[|t| + k];
      }
      ReadBeforeBlanks(t, u[|t|..]);
      assert t[0] == u[0];
      InkFirst(t);
    }
  }

  /** A text starts with a keyword exactly when its first token is the bare word, or goes on from it with a number sign. */
  lemma {:induction false} KeywordIs(u: string, keyword: string)
    requires u != "" && keyword != "" && AllLetters(keyword)
    ensures WordStarts(u, keyword) <==> ReadAt(u).Some? && StartsJoin(ReadAt(u).value.tok, Upper(keyword))
  {
    var n := |keyword|;
    if WordStarts(u, keyword) {
      KeywordLetters(u[..n], keyword);
      assert u[0] == u[..n][0];
      var k := IdentLen(u);
      assert k >= n;
      var name := Upper(u[..k]);
      assert name[..n] == Upper(u[..n]);
      if k > n {
        assert name[n] == '#';
        assert name[..n + 1] == Upper(keyword) + "#";
      } else {
        assert u[..k] == u[..n];
      }
    }
    if ReadAt(u).Some? && StartsJoin(ReadAt(u).value.tok, Upper(keyword)) {
      KeywordFromToken(u, keyword);
    }
  }

  lemma {:induction false} KeywordFromToken(u: string, keyword: string)
    requires u != "" && ReadAt(u).Some? && StartsJoin(ReadAt(u).value.tok, Upper(keyword))
    ensures WordStarts(u, keyword)
  {
    var k, n := IdentLen(u), |keyword|;
    var name := Upper(u[..k]);
    assert ReadAt(u).value.tok.name == name;
    assert n <= k;
    assert name[..n] == Upper(keyword);
    assert Upper(u[..n]) == Upper(u[..k])[..n];
    if n < k {
      assert name[n] == (Upper(keyword) + "#")[n] == '#';
      assert u[..k][n] == u[n];
    }
  }

  lemma {:induction false} JoinWordIs(s: string, keyword: string)
    requires keyword != "" && AllLetters(keyword)
    ensures StartsWithKeyword(s, keyword)
            <==> Visible(Tokens(s)) != [] && Visible(Tokens(s))[0].Id? && StartsJoin(Visible(Tokens(s))[0].tok, Upper(keyword))
  {
    hide ReadAt, Tokens, IsUniSpace, TrimSpace, StartsJoin, WordStarts;
    VisibleText(s);
    TrimmedInk(s);
    var u := s[TrimLo(s)..];
    assert StartsWithKeyword(s, keyword) <==> StartsWithKeyword(u, keyword);
    hide StartsWithKeyword;
    if u == "" {
      EmptyTokens();
      NoWord(u, keyword);
    } else {
      InkFirst(u);
      FirstToken(u);
      StartsUntrimmed(u, keyword);
      KeywordIs(u, keyword);
    }
  }

  lemma {:induction false} NoWord(u: string, keyword: string)
    requires u == "" && keyword != ""
    ensures !StartsWithKeyword(u, keyword)
  {
  }

  lemma {:induction false} JoinIs(s: string)
    ensures NextIsJoin(s) <==> JoinNext(Tokens(s))
  {
    hide Tokens, StartsWithKeyword, StartsJoin, Visible;
    JoinWordIs(s, "join");
    JoinWordIs(s, "inner");
    JoinWordIs(s, "left");
    JoinWordIs(s, "right");
    JoinWordIs(s, "full");
    JoinWordIs(s, "cross");
    JoinSpelling();
    var v := Visible(Tokens(s));
    if NextIsJoin(s) {
      var i := if StartsWithKeyword(s, "join") then 0 else if StartsWithKeyword(s, "inner") then 1 else if StartsWithKeyword(s, "left") then 2
               else if StartsWithKeyword(s, "right") then 3 else if StartsWithKeyword(s, "full") then 4 else 5;
      assert StartsJoin(v[0].tok, JOINS[i]);
    }
  }

  lemma {:induction false} JoinSpelling()
    ensures Upper("join") == JOINS[0] && Upper("inner") == JOINS[1] && Upper("left") == JOINS[2]
    ensures Upper("right") == JOINS[3] && Upper("full") == JOINS[4] && Upper("cross") == JOINS[5] && |JOINS| == 6
  {
  }

  // ---- The parser finds the table that the tokens name ----

  lemma {:induction false} AliasIs(ref: TableRef, s: string)
    requires ref.alias.None? && SkipSpace(s) == s
    ensures var ts := Tokens(s); ParseAlias(ref, s) == if Alone(ts) then Some(ref.(alias := AliasName(ts))) else None
  {
    hide ReadAt, Tokens, ClauseNext, JoinNext, CommaNext, NextIsClause, NextIsJoin, NextIsComma, IdentKey;
    CommaIs(s);
    ClauseIs(s);
    JoinIs(s);
    FirstToken(s);
    if s == "" {
      NothingNext();
    } else if !NextIsComma(s) && !NextIsClause(s) && !NextIsJoin(s) {
      if ReadAt(s).Some? {
        var Some(Read(tok, rest)) := ReadAt(s);
        NoClauseWord(Tokens(s));
        TokensOf(rest);
        CommaIs(SkipSpace(rest));
        JoinIs(SkipSpace(rest));
      }
    }
  }

  lemma {:induction false} NothingNext()
    ensures ClauseNext([]) && !CommaNext([])
  {
  }

  lemma {:induction false} NoClauseWord(ts: seq<Tok>)
    requires !ClauseNext(ts) && ts != [] && ts[0].Id?
    ensures !IsClauseWord(ts[0].tok.name)
  {
    assert Visible(ts) == ts;
  }

  /** parseSingleOracleTableRef on any text finds the table that its tokens name, and none exactly when they name none. */
  lemma {:induction false} TableIs(from: string)
    ensures ParseTableRef(from) == NamedTable(Tokens(from))
  {
    hide ReadAt, Tokens, ParseAlias, Alone, AliasName;
    TokensOf(from);
    FirstToken(from);
    var s, ts := SkipSpace(from), Tokens(from);
    SkipTwice(from);
    if s != "" && s[0] == '(' {
      ParenNoName(s);
    }
    if s != "" && ReadAt(s).Some? {
      var Some(Read(first, rest)) := ReadAt(s);
      var s1 := SkipSpace(rest);
      SkipTwice(rest);
      TokensOf(rest);
      SymFirst(s1, '.');
      assert |ts| >= 2 ==> ts[1] == ts[1..][0];
      if s1 != "" && s1[0] == '.' {
        BehindDot(first, s1[1..], ts);
      } else {
        AliasIs(TableRef("", first.name, None), s1);
      }
    }
  }

  lemma {:induction false} ParenNoName(s: string)
    requires s != "" && s[0] == '('
    ensures ReadAt(s).None?
  {
  }

  lemma {:induction false} BehindDot(first: Token, v: string, ts: seq<Tok>)
    requires |ts| >= 2 && ts[0] == Id(first) && ts[1] == Sym('.') && ts[2..] == Tokens(v)
    ensures NamedTable(ts)
            == match ReadToken(SkipSpace(v))
               case None => None
               case Some(Read(second, rest)) => ParseAlias(TableRef(first.name, second.name, None), SkipSpace(rest))
  {
    hide ReadAt, Tokens, ParseAlias, Alone, AliasName;
    SkipTwice(v);
    FirstToken(v);
    assert |ts| >= 3 ==> ts[2] == ts[2..][0] && ts[3..] == ts[2..][1..];
    if SkipSpace(v) != "" && ReadAt(SkipSpace(v)).Some? {
      var Some(Read(second, rest)) := ReadAt(SkipSpace(v));
      SkipTwice(rest);
      TokensOf(rest);
      AliasIs(TableRef(first.name, second.name, None), SkipSpace(rest));
    }
  }

  // ---- When the rewrite must act, and what a statement means afterwards ----

  /** The catalog and row are those of the table that the tokens behind FROM name. */
  predicate EnvOf(p: Parts, load: Loader, env: Env)
  {
    |p.from| >= 4 && NamedTable(Tokens(p.from[4..])) == Some(env.ref) && load(env.ref.schema, env.ref.table) == Ok(env.columns)
  }

  /** An item whose cells include an XMLTYPE column of the table. */
  predicate ShowsXml(item: string, env: Env)
  {
    match ShapeOf(Tokens(item))
    case Star(q) => Resolves(q, env.ref) && HasXmlType(env.columns)
    case Col(q, c, _) => Resolves(q, env.ref) && IsXmlColumn(env.columns, c.name)
    case _ => false
  }

  lemma {:induction false} ParsedTable(sql: string)
    requires ParseSelect(sql).Some?
    ensures var p := ParseSelect(sql).value; |p.from| >= 4 && NamedTable(Tokens(p.from[4..])) == Some(p.ref)
  {
    hide ParseSelect, NamedTable, Tokens;
    PartsOf(sql);
    TableIs(ParseSelect(sql).value.from[4..]);
  }

  lemma {:induction false} XmlColumnType(columns: seq<Column>, name: string)
    requires UniqueKeys(columns) && HasColumn(columns, name)
    ensures XmlLookup(columns, IdentKey(name)).Some? <==> IsXmlColumn(columns, name)
    ensures IsXmlColumn(columns, name) ==> HasXmlType(columns)
  {
    hide XmlLookup, IsXmlType, IdentKey, UniqueKeys;
    var i :| 0 <= i < |columns| && columns[i].name == name;
    LookupExact(columns, i);
  }

  /** The rewrite touches an item exactly when it shows an XMLTYPE column, or is a star of the table. */
  lemma {:induction false} TouchesExactly(item: string, env: Env)
    requires Trimmed(item) && ClearAlias(item) && ExactRefs(item, env.columns, env.ref)
    requires UniqueKeys(env.columns) && NamedAlias(env.ref)
    ensures ItemChanges(item, env.columns, env.ref) && HasXmlType(env.columns) <==> ShowsXml(item, env)
    ensures ShowsXml(item, env) ==> ParseStar(item).Some? || ParseColumnItem(item).Some?
  {
    hide Tokens, ShapeOf, ParseStar, ParseColumnItem, QualifierMatches, XmlLookup, ValidToken, UniqueKeys, ClearAlias, Trimmed, IsXmlType, IdentKey,
         HasColumn, IsXmlColumn, HasXmlType, Resolves;
    StarParseAgrees(item);
    ColumnParseAgrees(item);
    match ShapeOf(Tokens(item))
    case Star(q) =>
      StarTokens(item);
      MatchesResolved(q, env.ref);
    case Col(q, c, a) =>
      ColumnItemTokens(item);
      MatchesResolved(q, env.ref);
      ColumnKnown(env.columns, c.name);
    case _ =>
  }

  lemma {:induction false} MatchesResolved(q: Option<Token>, ref: TableRef)
    requires UsableAsPrefix(q) && NamedAlias(ref)
    ensures Resolves(q, ref) ==> QualifierMatches(q, ref)
  {
    hide QualifierMatches, ValidToken;
    if Resolves(q, ref) {
      ResolvesMatches(q, ref);
    }
  }

  lemma {:induction false} ColumnKnown(columns: seq<Column>, name: string)
    requires UniqueKeys(columns)
    ensures HasColumn(columns, name) ==> (XmlLookup(columns, IdentKey(name)).Some? <==> IsXmlColumn(columns, name))
    ensures IsXmlColumn(columns, name) ==> HasColumn(columns, name) && HasXmlType(columns)
  {
    hide XmlLookup, IsXmlType, IdentKey, UniqueKeys;
    if HasColumn(columns, name) {
      XmlColumnType(columns, name);
    }
  }

  /** A statement is rewritten exactly when some item shows an XMLTYPE column of the table it names. */
  lemma {:induction false} ChangesExactly(sql: string, load: Loader, env: Env)
    requires ParseSelect(sql).Some? && EnvOf(ParseSelect(sql).value, load, env)
    requires UniqueKeys(env.columns) && NamedAlias(env.ref) && ItemsReadable(SplitItems(ParseSelect(sql).value.list), env)
    ensures var items, r := SplitItems(ParseSelect(sql).value.list), RewriteDirect(sql, load);
            && r.Ok? && r.value.handled && (!r.value.changed ==> r.value.text == sql)
            && (r.value.changed <==> exists i :: 0 <= i < |items| && ShowsXml(items[i], env))
  {
    hide ParseSelect, SplitItems, Tokens, NamedTable, UniqueKeys, ItemChanges, ShowsXml, HasXmlType, ClearAlias, ExactRefs, Trimmed, ParseStar, ParseColumnItem,
         RewriteItems, Rebuild;
    ParsedTable(sql);
    var items := SplitItems(ParseSelect(sql).value.list);
    forall i | 0 <= i < |items|
      ensures ItemChanges(items[i], env.columns, env.ref) && HasXmlType(env.columns) <==> ShowsXml(items[i], env)
      ensures ShowsXml(items[i], env) ==> ParseStar(items[i]).Some? || ParseColumnItem(items[i]).Some?
    {
      TouchesExactly(items[i], env);
    }
  }

  lemma {:induction false} NoXmlNoChange(todo: seq<Column>, env: Env)
    requires forall i :: 0 <= i < |todo| ==> !IsXmlType(todo[i].dataType)
    ensures WithSerializedXml(todo, env) == AllColumns(todo, env)
  {
    hide IsXmlType;
    if |todo| > 0 {
      NoXmlNoChange(todo[..|todo| - 1], env);
    }
  }

  lemma {:induction false} PlainExpected(item: string, env: Env)
    requires !ShowsXml(item, env)
    ensures Expected(item, env) == Meaning(item, env)
  {
    hide Tokens, ShapeOf, IsXmlType, Resolves;
    if ShapeOf(Tokens(item)).Star? && !HasXmlType(env.columns) {
      NoXmlNoChange(env.columns, env);
    }
  }

  lemma {:induction false} PlainListExpected(items: seq<string>, env: Env)
    requires forall i :: 0 <= i < |items| ==> !ShowsXml(items[i], env)
    ensures ListExpected(items, env) == ListMeaning(items, env)
  {
    hide ShowsXml, Expected, Meaning;
    if |items| > 0 {
      PlainListExpected(items[..|items| - 1], env);
      PlainExpected(items[|items| - 1], env);
    }
  }

  /**
   Whatever the direct rewrite returns has the same head, modifier, FROM part and table, and on every row of the
   table that its tokens name the list yields the same headings and cells in order with XMLTYPE serialized.
   */
  lemma {:induction false} MeaningPreserved(sql: string, load: Loader, env: Env)
    requires ParseSelect(sql).Some? && EnvOf(ParseSelect(sql).value, load, env)
    requires Safe(sql, env.columns) && UniqueKeys(env.columns) && NamedAlias(env.ref)
    requires var items := SplitItems(ParseSelect(sql).value.list);
             items != [] && items[|items| - 1] != "" && ItemsReadable(items, env)
    ensures RewriteDirect(sql, load).Ok?
    ensures var out := RewriteDirect(sql, load).value.text;
            var p := ParseSelect(sql).value;
            && ParseSelect(out).Some?
            && ParseSelect(out).value == p.(list := ParseSelect(out).value.list)
            && SelectMeaning(out, env) == ListExpected(SplitItems(p.list), env)
  {
    hide ParseSelect, SplitItems, Safe, UniqueKeys, RewriteDirect, ListMeaning, ListExpected, ItemsReadable, ShowsXml, Tokens, NamedTable;
    ChangesExactly(sql, load, env);
    ParsedTable(sql);
    if RewriteDirect(sql, load).value.changed {
      RewrittenMeaning(sql, load, env);
    } else {
      PlainListExpected(SplitItems(ParseSelect(sql).value.list), env);
    }
  }

  lemma {:induction false} RewrittenMeaning(sql: string, load: Loader, env: Env)
    requires ParseSelect(sql).Some? && env.ref == ParseSelect(sql).value.ref
    requires load(env.ref.schema, env.ref.table) == Ok(env.columns)
    requires RewriteDirect(sql, load).Ok? && RewriteDirect(sql, load).value.changed
    requires Safe(sql, env.columns) && UniqueKeys(env.columns) && NamedAlias(env.ref)
    requires var items := SplitItems(ParseSelect(sql).value.list);
             items != [] && items[|items| - 1] != "" && ItemsReadable(items, env)
    ensures var out := RewriteDirect(sql, load).value.text;
            var p := ParseSelect(sql).value;
            && ParseSelect(out).Some?
            && ParseSelect(out).value == p.(list := ParseSelect(out).value.list)
            && SelectMeaning(out, env) == ListExpected(SplitItems(p.list), env)
  {
    hide Run, ParseSelect, SplitItems, MayReference, Safe, ListText, RewriteItems, Rebuild, ItemChanges, IsXmlType, ItemsReadable, UniqueKeys,
         ListMeaning, ListExpected, ValidToken, ParseTableRef, FindKeyword, ModifierLength, SelectListStart, KeywordAt;
    var p := ParseSelect(sql).value;
    var items := SplitItems(p.list);
    var news := RewriteItems(items, env.columns, env.ref);
    PartsOf(sql);
    FromLetter(p.from, 0);
    TableAliasToken(p.from[4..]);
    RewrittenReparses(sql, env.columns);
    ItemsPreserved(items, env);
    LastKept(items, env.columns, env.ref);
  }

  lemma {:induction false} LastKept(items: seq<string>, columns: seq<Column>, ref: TableRef)
    requires |items| > 0 && items[|items| - 1] != "" && UsableAsPrefix(ref.alias) && |columns| > 0
    ensures var news := RewriteItems(items, columns, ref); DropEmptyTail(news) == news
  {
    hide ParseStar, ParseColumnItem, XmlLookup, QualifierMatches, IsUniSpace, ValidToken, ColumnRef, IdentKey;
    var last := RewriteItem(items[|items| - 1], columns, ref);
    ColumnRefShape(ref.alias, columns[|columns| - 1].name);
    assert |last| > 0 && last[|last| - 1] != "";
    var news := RewriteItems(items, columns, ref);
    assert news[|news| - 1] == last[|last| - 1];
  }
}
