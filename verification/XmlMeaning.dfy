/**
 What a select list means, defined on its tokens and independently of the rewrite, and the proof
 that the rewrite changes that meaning only by serializing XMLTYPE columns.
 */
module XmlMeaning {
  import opened Common
  import opened SqlText
  import opened SqlScanners
  import opened SqlIdentifiers
  import opened SqlLists
  import opened XmlRewrite
  import opened XmlReparse
  import opened XmlIdempotent

  // ---- Tokens and shapes ----

  datatype Tok = Id(tok: Token) | Sym(c: char)

  /** Maximal words, quoted names and single symbols, with blanks between them dropped. */
  function Tokens(s: string): (r: seq<Tok>)
    decreases |s|
  {
    var t := SkipSpace(s);
    if t == "" then []
    else match ReadAt(t)
      case Some(Read(tok, rest)) => [Id(tok)] + Tokens(rest)
      case None => [Sym(t[0])] + Tokens(t[1..])
  }

  /** The forms of select item whose meaning does not depend on expressions the engine evaluates. */
  datatype Shape =
    | Star(q: Option<Token>)
    | Col(q: Option<Token>, c: Token, a: Option<Token>)
    | Serialized(q: Option<Token>, c: Token, alias: Token)
    | Opaque

  predicate IsWord(t: Tok, word: string)
  {
    t.Id? && Bare(t.tok, word)
  }

  /** `[[AS] alias]` after a column. */
  function AliasShape(q: Option<Token>, c: Token, ts: seq<Tok>): (r: Shape)
  {
    if |ts| == 0 then Col(q, c, None)
    else if |ts| == 1 && ts[0].Id? && !IsWord(ts[0], "AS") then Col(q, c, Some(ts[0].tok))
    else if |ts| == 2 && IsWord(ts[0], "AS") && ts[1].Id? then Col(q, c, Some(ts[1].tok))
    else Opaque
  }

  /** `AS CLOB) AS alias` after the column of an XMLSERIALIZE. */
  function ClobShape(q: Option<Token>, c: Token, ts: seq<Tok>): (r: Shape)
  {
    if && |ts| == 5 && IsWord(ts[0], "AS") && IsWord(ts[1], "CLOB") && ts[2] == Sym(')') && IsWord(ts[3], "AS") && ts[4].Id?
    then Serialized(q, c, ts[4].tok) else Opaque
  }

  function ShapeOf(ts: seq<Tok>): (r: Shape)
  {
    if ts == [Sym('*')] then Star(None)
    else if |ts| == 0 || !ts[0].Id? then Opaque
    else if |ts| >= 2 && ts[1] == Sym('.') then
      if |ts| == 3 && ts[2] == Sym('*') then Star(Some(ts[0].tok))
      else if |ts| >= 3 && ts[2].Id? then AliasShape(Some(ts[0].tok), ts[2].tok, ts[3..])
      else Opaque
    else if |ts| >= 4 && IsWord(ts[0], "XMLSERIALIZE") && ts[1] == Sym('(') && IsWord(ts[2], "CONTENT") && ts[3].Id? then
      if |ts| >= 6 && ts[4] == Sym('.') && ts[5].Id? then ClobShape(Some(ts[3].tok), ts[5].tok, ts[6..])
      else ClobShape(None, ts[3].tok, ts[4..])
    else AliasShape(None, ts[0].tok, ts[1..])
  }

  // ---- Meaning ----

  datatype Cell = Xml(doc: string) | Clob(text: string) | Scalar(text: string)

  datatype OutCol = OutCol(heading: string, cell: Cell)

  /**
   One row of the referenced table, by exact column name, and the engine's own evaluation of
   every item that is not a plain column of that table.
   */
  datatype Env = Env(columns: seq<Column>, ref: TableRef, row: string -> Cell, other: string -> Option<seq<OutCol>>)

  function SerializeCell(c: Cell): Cell
  {
    match c case Xml(doc) => Clob(doc) case _ => c
  }

  /** Oracle's own resolution: the alias hides the table name, and names are compared exactly. */
  predicate Resolves(q: Option<Token>, ref: TableRef)
  {
    q.None? || (if ref.alias.Some? then q.value.name == ref.alias.value.name else q.value.name == ref.table)
  }

  predicate HasColumn(columns: seq<Column>, name: string)
  {
    exists i :: 0 <= i < |columns| && columns[i].name == name
  }

  predicate IsXmlColumn(columns: seq<Column>, name: string)
  {
    exists i :: 0 <= i < |columns| && columns[i].name == name && IsXmlType(columns[i].dataType)
  }

  function Heading(c: Token, a: Option<Token>): string
  {
    if a.Some? then a.value.name else c.name
  }

  function AllColumns(todo: seq<Column>, env: Env): (r: seq<OutCol>)
  {
    if |todo| == 0 then []
    else AllColumns(todo[..|todo| - 1], env) + [OutCol(todo[|todo| - 1].name, env.row(todo[|todo| - 1].name))]
  }

  function Meaning(item: string, env: Env): (r: Option<seq<OutCol>>)
  {
    match ShapeOf(Tokens(item))
    case Star(q) => if Resolves(q, env.ref) then Some(AllColumns(env.columns, env)) else env.other(item)
    case Col(q, c, a) =>
      if Resolves(q, env.ref) && HasColumn(env.columns, c.name) then Some([OutCol(Heading(c, a), env.row(c.name))])
      else env.other(item)
    case Serialized(q, c, a) =>
      if Resolves(q, env.ref) && HasColumn(env.columns, c.name) then Some([OutCol(a.name, SerializeCell(env.row(c.name)))])
      else env.other(item)
    case Opaque => env.other(item)
  }

  /** The same headings and cells, except that plain and starred XMLTYPE columns are serialized. */
  function WithSerializedXml(todo: seq<Column>, env: Env): (r: seq<OutCol>)
  {
    if |todo| == 0 then []
    else
      var c := todo[|todo| - 1];
      WithSerializedXml(todo[..|todo| - 1], env)
      + [OutCol(c.name, if IsXmlType(c.dataType) then SerializeCell(env.row(c.name)) else env.row(c.name))]
  }

  function Expected(item: string, env: Env): (r: Option<seq<OutCol>>)
  {
    match ShapeOf(Tokens(item))
    case Star(q) => if Resolves(q, env.ref) then Some(WithSerializedXml(env.columns, env)) else env.other(item)
    case Col(q, c, a) =>
      if Resolves(q, env.ref) && HasColumn(env.columns, c.name) then
        Some([OutCol(Heading(c, a), if IsXmlColumn(env.columns, c.name) then SerializeCell(env.row(c.name)) else env.row(c.name))])
      else env.other(item)
    case _ => Meaning(item, env)
  }

  function Append(a: Option<seq<OutCol>>, b: Option<seq<OutCol>>): Option<seq<OutCol>>
  {
    if a.Some? && b.Some? then Some(a.value + b.value) else None
  }

  function ListMeaning(items: seq<string>, env: Env): (r: Option<seq<OutCol>>)
  {
    if |items| == 0 then Some([]) else Append(ListMeaning(items[..|items| - 1], env), Meaning(items[|items| - 1], env))
  }

  function ListExpected(items: seq<string>, env: Env): (r: Option<seq<OutCol>>)
  {
    if |items| == 0 then Some([]) else Append(ListExpected(items[..|items| - 1], env), Expected(items[|items| - 1], env))
  }

  // ---- Tokens of printed text ----

  lemma {:induction false} TokensPrinted(tok: Token, after: string)
    requires ValidToken(tok) && EndsToken(tok, after)
    ensures Tokens(tok.text + after) == [Id(tok)] + Tokens(after)
  {
    hide ReadAt, ValidToken, EndsToken;
    ReadPrinted(tok, after);
    FirstNotBlank(tok);
    assert SkipSpace(tok.text + after) == tok.text + after;
  }

  lemma {:induction false} FirstNotBlank(tok: Token)
    requires ValidToken(tok)
    ensures tok.text != "" && !IsSqlSpace(tok.text[0])
  {
  }

  lemma {:induction false} TokensBlank(s: string)
    ensures Tokens(" " + s) == Tokens(s)
  {
    hide ReadAt;
    assert (" " + s)[1..] == s;
    assert SkipSpace(" " + s) == SkipSpace(s);
  }

  lemma {:induction false} TokensSym(c: char, s: string)
    requires !IsSqlSpace(c) && c != '"' && !IsIdentStart(c)
    ensures Tokens([c] + s) == [Sym(c)] + Tokens(s)
  {
    var t := [c] + s;
    assert SkipSpace(t) == t && ReadAt(t) == None && t[1..] == s;
  }

  function Word(w: string): Token
  {
    Token(w, w, false)
  }

  predicate IsUpperWord(w: string)
  {
    w != "" && forall k :: 0 <= k < |w| ==> 'A' <= w[k] <= 'Z'
  }

  lemma {:induction false} TokensWord(w: string, after: string)
    requires IsUpperWord(w) && (after == "" || !IsIdentPart(after[0]))
    ensures Tokens(w + after) == [Id(Word(w))] + Tokens(after)
  {
    hide Tokens;
    assert Upper(w) == w;
    TokensPrinted(Word(w), after);
  }

  /** Tokens of a column reference as the rewrite prints it. */
  function RefTokens(q: Option<Token>, name: string): seq<Tok>
  {
    (if q.Some? then [Id(q.value), Sym('.')] else []) + [Id(Quoted(name))]
  }

  lemma {:induction false} TokensColumnRef(q: Option<Token>, name: string, after: string)
    requires UsableAsPrefix(q) && (after == "" || after[0] != '"')
    ensures Tokens(ColumnRef(q, name) + after) == RefTokens(q, name) + Tokens(after)
  {
    hide Tokens, ValidToken, QuoteIdentifier, IsUniSpace, ColumnRef;
    ColumnRefShape(q, name);
    TokensPrinted(Quoted(name), after);
    var printed := QuoteIdentifier(name) + after;
    if q.Some? {
      TokensSym('.', printed);
      DotEnds(q.value, printed);
      TokensPrinted(q.value, "." + printed);
      assert ColumnRef(q, name) + after == q.value.text + ("." + printed);
    } else {
      assert ColumnRef(q, name) + after == printed;
    }
  }

  lemma {:induction false} DotEnds(tok: Token, s: string)
    ensures EndsToken(tok, "." + s)
  {
  }

  lemma {:induction false} TokensSerialize(q: Option<Token>, name: string, alias: Token)
    requires UsableAsPrefix(q) && ValidToken(alias)
    ensures Tokens(XmlSerialize(ColumnRef(q, name), alias.text))
            == [Id(Word("XMLSERIALIZE")), Sym('('), Id(Word("CONTENT"))] + RefTokens(q, name)
             + [Id(Word("AS")), Id(Word("CLOB")), Sym(')'), Id(Word("AS")), Id(alias)]
  {
    hide Tokens, ValidToken, ColumnRef, XmlSerialize;
    var ref := ColumnRef(q, name);
    var s4 := "AS" + (" " + alias.text);
    var s3 := "CLOB" + (")" + (" " + s4));
    var s2 := " " + ("AS" + (" " + s3));
    var s1 := "CONTENT" + (" " + (ref + s2));
    var s0 := "XMLSERIALIZE" + ("(" + s1);
    assert alias.text + "" == alias.text && Tokens("") == [] by { EmptyTokens(); }
    TokensPrinted(alias, "");
    TokensBlank(alias.text);
    TokensWord("AS", " " + alias.text);
    TokensBlank(s4);
    TokensSym(')', " " + s4);
    TokensWord("CLOB", ")" + (" " + s4));
    TokensBlank(s3);
    TokensWord("AS", " " + s3);
    TokensBlank("AS" + (" " + s3));
    TokensColumnRef(q, name, s2);
    TokensBlank(ref + s2);
    TokensWord("CONTENT", " " + (ref + s2));
    TokensSym('(', s1);
    TokensWord("XMLSERIALIZE", "(" + s1);
    SerializeParts(ref, alias.text);
  }

  lemma {:induction false} EmptyTokens()
    ensures Tokens("") == []
  {
  }

  lemma {:induction false} SerializeParts(ref: string, alias: string)
    ensures XmlSerialize(ref, alias)
            == "XMLSERIALIZE" + ("(" + ("CONTENT" + (" " + (ref + (" " + ("AS" + (" " + ("CLOB" + (")" + (" " + ("AS" + (" " + alias))))))))))))
  {
    var tail := " AS CLOB) AS " + alias;
    assert tail == " " + ("AS" + (" " + ("CLOB" + (")" + (" " + ("AS" + (" " + alias)))))));
    assert XmlSerialize(ref, alias) == "XMLSERIALIZE(CONTENT " + (ref + tail);
    assert "XMLSERIALIZE(CONTENT " + (ref + tail) == "XMLSERIALIZE" + ("(" + ("CONTENT" + (" " + (ref + tail))));
  }

  // ---- The rewrite's parsers agree with the shapes ----

  predicate TailClean(s: string)
  {
    s != "" ==> !IsUniSpace(s[|s| - 1])
  }

  lemma {:induction false} SkipSpaceTail(s: string)
    requires TailClean(s)
    ensures TailClean(SkipSpace(s))
    decreases |s|
  {
    hide IsUniSpace;
    if s != "" && IsSqlSpace(s[0]) && |s| > 1 {
      assert s[1..][|s| - 2] == s[|s| - 1];
      SkipSpaceTail(s[1..]);
    }
  }

  lemma {:induction false} ReadTail(t: string)
    requires TailClean(t) && ReadAt(t).Some?
    ensures TailClean(ReadAt(t).value.rest)
  {
    hide IsUniSpace, ReadAt, ValidToken, EndsToken;
    ReadAtValid(t);
  }

  lemma {:induction false} SkipTwice(s: string)
    ensures SkipSpace(SkipSpace(s)) == SkipSpace(s)
  {
  }

  /** Nothing is left exactly when there are no more tokens. */
  lemma {:induction false} NothingLeft(s: string)
    requires TailClean(s)
    ensures TrimSpace(s) == "" <==> s == ""
    ensures Tokens(s) == [] <==> s == ""
  {
    hide ReadAt;
    if s != "" {
      SkipSpaceNonempty(s);
      assert TrimHi(s) == |s|;
    }
  }

  lemma {:induction false} SkipSpaceNonempty(s: string)
    requires TailClean(s) && s != ""
    ensures SkipSpace(s) != ""
    decreases |s|
  {
    if IsSqlSpace(s[0]) {
      assert |s| > 1;
      assert s[1..][|s| - 2] == s[|s| - 1];
      SkipSpaceNonempty(s[1..]);
    }
  }

  lemma {:induction false} TokensOf(s: string)
    ensures Tokens(s) == Tokens(SkipSpace(s))
    ensures SkipSpace(s) == "" ==> Tokens(s) == []
    ensures SkipSpace(s) != "" ==>
              Tokens(s) == match ReadAt(SkipSpace(s))
                           case Some(Read(tok, rest)) => [Id(tok)] + Tokens(rest)
                           case None => [Sym(SkipSpace(s)[0])] + Tokens(SkipSpace(s)[1..])
  {
    hide ReadAt;
    SkipTwice(s);
  }

  /** The text after the column reference of an item that begins with one. */
  function AliasPart(item: string): (r: Option<string>)
  {
    match ReadToken(TrimSpace(item))
    case None => None
    case Some(Read(_, rest)) =>
      var s := SkipSpace(rest);
      if s != "" && s[0] == '.' then
        match ReadToken(SkipSpace(s[1..]))
        case None => None
        case Some(Read(_, rest2)) => Some(SkipSpace(rest2))
      else Some(s)
  }

  /** What follows the column is separated by SQL blanks only, and AS is not followed directly by '#'. */
  predicate ClearTail(s: string)
  {
    s != "" ==> !IsUniSpace(s[0]) && !(|s| > 2 && KeywordEq(s[..2], "as") && s[2] == '#')
  }

  predicate ClearAlias(item: string)
  {
    AliasPart(item).Some? ==> ClearTail(AliasPart(item).value)
  }

  /** The keyword test for AS is the test for the bare word AS as next token. */
  lemma {:induction false} AsIsWord(s: string)
    requires s != "" && ClearTail(s) && SkipSpace(s) == s
    ensures StartsWithKeyword(s, "as") <==> Tokens(s) != [] && IsWord(Tokens(s)[0], "AS")
    ensures StartsWithKeyword(s, "as") ==> |s| >= 2 && Tokens(s) == [Id(Token("AS", s[..2], false))] + Tokens(s[2..])
  {
    StartsUntrimmed(s, "as");
    if WordStarts(s, "as") {
      AsWord(s);
    } else if ReadAt(s).Some? {
      ReadAtValid(s);
      var Some(Read(tok, rest)) := ReadAt(s);
      if Bare(tok, "AS") {
        assert |tok.text| == |Upper(tok.text)| == 2;
        TwoLetters(s, tok.text, rest);
      }
    }
  }

  lemma {:induction false} TwoLetters(s: string, word: string, rest: string)
    requires s == word + rest && |word| == 2 && Upper(word) == "AS" && (rest == "" || !IsIdentPart(rest[0]))
    ensures WordStarts(s, "as")
  {
    assert s[..2] == word;
    assert Upper("as") == "AS";
  }

  lemma {:induction false} AsWord(s: string)
    requires WordStarts(s, "as") && ClearTail(s)
    ensures Tokens(s) == [Id(Token("AS", s[..2], false))] + Tokens(s[2..])
  {
    var tok := Token("AS", s[..2], false);
    KeywordLetters(s[..2], "as");
    assert Upper("as") == "AS";
    assert ValidToken(tok);
    assert s == s[..2] + s[2..];
    assert EndsToken(tok, s[2..]);
    TokensPrinted(tok, s[2..]);
  }

  function ShapeOfItem(r: Option<ColumnItem>): Shape
  {
    match r case None => Opaque case Some(ColumnItem(q, c, a)) => Col(q, c, a)
  }

  lemma {:induction false} AliasAgrees(q: Option<Token>, c: Token, s: string)
    requires ClearTail(s) && TailClean(s) && SkipSpace(s) == s
    ensures ShapeOfItem(ParseItemAlias(q, c, s)) == AliasShape(q, c, Tokens(s))
  {
    hide ReadAt, IsUniSpace, StartsWithKeyword, Tokens, TrimSpace, KeywordEq;
    TokensOf(s);
    if s != "" {
      AsIsWord(s);
      if StartsWithKeyword(s, "as") {
        var u := SkipSpace(s[2..]);
        if |s| > 2 { assert s[2..][|s| - 3] == s[|s| - 1]; }
        SkipSpaceTail(s[2..]);
        TokensOf(s[2..]);
        SkipTwice(s[2..]);
        OneTokenLeft(u);
      } else {
        OneTokenLeft(s);
      }
    }
  }

  /** Reading one identifier with nothing after it. */
  lemma {:induction false} OneTokenLeft(u: string)
    requires TailClean(u) && SkipSpace(u) == u
    ensures (ReadToken(u).Some? && TrimSpace(ReadToken(u).value.rest) == "") <==> |Tokens(u)| == 1 && Tokens(u)[0].Id?
    ensures |Tokens(u)| == 1 && Tokens(u)[0].Id? ==> ReadToken(u).value.tok == Tokens(u)[0].tok
  {
    hide ReadAt, IsUniSpace, TrimSpace, Tokens;
    TokensOf(u);
    if u != "" && ReadAt(u).Some? {
      ReadTail(u);
      NothingLeft(ReadAt(u).value.rest);
    }
  }

  /** The column-item parser accepts exactly the plain-column shapes. */
  lemma {:induction false} ColumnParseAgrees(item: string)
    requires Trimmed(item) && ClearAlias(item)
    ensures ParseColumnItem(item).Some? <==> ShapeOf(Tokens(item)).Col?
    ensures ParseColumnItem(item).Some? ==> ShapeOf(Tokens(item)) == ShapeOfItem(ParseColumnItem(item))
  {
    hide ReadAt, IsUniSpace, Tokens, StartsWithKeyword, ParseItemAlias, AliasShape, KeywordEq, ClobShape;
    TrimOfTrimmedItem(item);
    TokensOf(item);
    NotBlankFirst(item);
    if item != "" && ReadAt(item).Some? {
      var Some(Read(first, rest)) := ReadAt(item);
      ReadTail(item);
      SkipSpaceTail(rest);
      TokensOf(rest);
      SkipTwice(rest);
      var s := SkipSpace(rest);
      if s != "" && s[0] == '.' {
        DotToken(s);
        if |s| > 1 { assert s[1..][|s| - 2] == s[|s| - 1]; }
        assert Tokens(item) == [Id(first), Sym('.')] + Tokens(s[1..]);
        QualifiedAgrees(first, s[1..]);
      } else {
        AliasAgrees(None, first, s);
        FirstIsNotDot(s);
        assert Tokens(item) == [Id(first)] + Tokens(s);
        PlainShape(first, Tokens(s));
      }
    }
  }

  /** The same after `qualifier.`; v is the text behind the dot. */
  lemma {:induction false} QualifiedAgrees(first: Token, v: string)
    requires TailClean(v)
    requires ReadToken(SkipSpace(v)).Some? ==> ClearTail(SkipSpace(ReadToken(SkipSpace(v)).value.rest))
    ensures var shape := ShapeOf([Id(first), Sym('.')] + Tokens(v));
            match ReadToken(SkipSpace(v))
            case None => !shape.Col?
            case Some(Read(second, rest)) =>
              var r := ParseItemAlias(Some(first), second, SkipSpace(rest));
              (r.Some? <==> shape.Col?) && (r.Some? ==> shape == ShapeOfItem(r))
  {
    hide ReadAt, IsUniSpace, Tokens, ParseItemAlias, ClearTail;
    var u := SkipSpace(v);
    SkipSpaceTail(v);
    TokensOf(v);
    SkipTwice(v);
    var all := [Id(first), Sym('.')] + Tokens(v);
    assert all[0] == Id(first) && all[1] == Sym('.');
    if u != "" {
      assert all[2] == Tokens(v)[0];
      if ReadAt(u).Some? {
        var Some(Read(second, rest)) := ReadAt(u);
        ReadTail(u);
        SkipSpaceTail(rest);
        TokensOf(rest);
        SkipTwice(rest);
        AliasAgrees(Some(first), second, SkipSpace(rest));
        assert all[3..] == Tokens(rest);
      }
    }
  }

  lemma {:induction false} PlainShape(first: Token, ts: seq<Tok>)
    requires ts == [] || ts[0] != Sym('.')
    ensures var shape := ShapeOf([Id(first)] + ts);
            if AliasShape(None, first, ts).Col? then shape == AliasShape(None, first, ts) else shape.Opaque? || shape.Serialized?
  {
    var all := [Id(first)] + ts;
    assert all[1..] == ts;
    assert all[0] == Id(first);
    assert |ts| > 0 ==> all[1] == ts[0];
  }

  lemma {:induction false} ClobNeverColumn()
    ensures forall q, c, ts :: ClobShape(q, c, ts).Serialized? || ClobShape(q, c, ts).Opaque?
  {
  }

  lemma {:induction false} TrimOfTrimmedItem(item: string)
    requires Trimmed(item)
    ensures TrimSpace(item) == item
  {
    TrimOfTrimmed(item);
  }

  lemma {:induction false} NotBlankFirst(item: string)
    requires Trimmed(item)
    ensures SkipSpace(item) == item
  {
  }

  lemma {:induction false} DotToken(s: string)
    requires s != "" && s[0] == '.'
    ensures ReadAt(s).None? && SkipSpace(s) == s
  {
  }

  lemma {:induction false} FirstIsNotDot(s: string)
    requires SkipSpace(s) == s && (s != "" ==> s[0] != '.')
    ensures Tokens(s) != [] ==> Tokens(s)[0] != Sym('.')
  {
  }

  /** The star parser accepts exactly the star shapes. */
  lemma {:induction false} StarParseAgrees(item: string)
    requires Trimmed(item)
    ensures ParseStar(item).Some? <==> ShapeOf(Tokens(item)).Star?
    ensures ParseStar(item).Some? ==> ShapeOf(Tokens(item)) == Star(ParseStar(item).value)
  {
    hide ReadAt, IsUniSpace, Tokens, AliasShape, ClobShape;
    TrimOfTrimmedItem(item);
    TokensOf(item);
    NotBlankFirst(item);
    ClobNeverColumn();
    AliasIsColumn();
    LoneStar(item);
    if item != "" && ReadAt(item).Some? {
      var Some(Read(first, rest)) := ReadAt(item);
      ReadTail(item);
      SkipSpaceTail(rest);
      TokensOf(rest);
      SkipTwice(rest);
      var s := SkipSpace(rest);
      if s != "" && s[0] == '.' {
        DotToken(s);
        if |s| > 1 { assert s[1..][|s| - 2] == s[|s| - 1]; }
        assert Tokens(item) == [Id(first), Sym('.')] + Tokens(s[1..]);
        QualifiedStar(first, s[1..]);
      } else {
        FirstIsNotDot(s);
        assert Tokens(item) == [Id(first)] + Tokens(s);
        PlainNoStar(first, Tokens(s));
      }
    }
  }

  lemma {:induction false} QualifiedStar(first: Token, v: string)
    requires TailClean(v)
    ensures var shape := ShapeOf([Id(first), Sym('.')] + Tokens(v));
            var u := SkipSpace(v);
            && (u != "" && u[0] == '*' && TrimSpace(u[1..]) == "" <==> shape.Star?)
            && (shape.Star? ==> shape == Star(Some(first)))
  {
    hide Tokens, AliasShape, ClobShape, TrimSpace, IsUniSpace;
    AliasIsColumn();
    SkipSpaceTail(v);
    SkipTwice(v);
    TokensOf(v);
    StarLeft(SkipSpace(v));
    var all := [Id(first), Sym('.')] + Tokens(v);
    assert all[0] == Id(first) && all[1] == Sym('.') && all[2..] == Tokens(v);
  }

  lemma {:induction false} PlainNoStar(first: Token, ts: seq<Tok>)
    requires ts == [] || ts[0] != Sym('.')
    ensures !ShapeOf([Id(first)] + ts).Star?
  {
    var all := [Id(first)] + ts;
    assert all[0] == Id(first);
    assert |ts| > 0 ==> all[1] == ts[0];
  }

  lemma {:induction false} AliasIsColumn()
    ensures forall q, c, ts :: AliasShape(q, c, ts).Col? || AliasShape(q, c, ts).Opaque?
  {
  }

  lemma {:induction false} LoneStar(item: string)
    requires Trimmed(item)
    ensures item == "*" <==> Tokens(item) == [Sym('*')]
    ensures item == "*" ==> ReadAt(item).None?
  {
    NotBlankFirst(item);
    StarLeft(item);
    if item == "*" {
      EmptyTrim();
    } else if item != "" && item[0] == '*' {
      assert item[1..] != "" && item[1..][|item| - 2] == item[|item| - 1];
      NothingLeft(item[1..]);
    }
  }

  lemma {:induction false} EmptyTrim()
    ensures TrimSpace("*"[1..]) == ""
  {
  }

  lemma {:induction false} StarLeft(u: string)
    requires TailClean(u) && SkipSpace(u) == u
    ensures (u != "" && u[0] == '*' && TrimSpace(u[1..]) == "") <==> Tokens(u) == [Sym('*')]
  {
    hide IsUniSpace, TrimSpace, Tokens;
    TokensOf(u);
    if u != "" {
      if |u| > 1 { assert u[1..][|u| - 2] == u[|u| - 1]; }
      NothingLeft(u[1..]);
      if ReadAt(u).None? {
        assert |Tokens(u)| == 1 + |Tokens(u[1..])| && Tokens(u)[0] == Sym(u[0]);
        assert |Tokens(u)| == 1 ==> Tokens(u) == [Sym(u[0])];
      } else {
        assert Tokens(u)[0].Id?;
      }
    }
  }

  // ---- Meaning of what is written ----

  predicate UniqueKeys(columns: seq<Column>)
  {
    forall i, j :: 0 <= i < |columns| && 0 <= j < |columns| && IdentKey(columns[i].name) == IdentKey(columns[j].name) ==> i == j
  }

  /** With distinct keys, the map of XMLTYPE columns answers for exactly the XMLTYPE columns. */
  lemma {:induction false} LookupExact(columns: seq<Column>, i: nat)
    requires UniqueKeys(columns) && i < |columns|
    ensures XmlLookup(columns, IdentKey(columns[i].name)) == if IsXmlType(columns[i].dataType) then Some(columns[i]) else None
    ensures IsXmlColumn(columns, columns[i].name) <==> IsXmlType(columns[i].dataType)
    ensures HasColumn(columns, columns[i].name)
  {
    hide IsXmlType, IdentKey;
    var found := XmlLookup(columns, IdentKey(columns[i].name));
    if found.Some? {
      var j :| 0 <= j < |columns| && columns[j] == found.value;
    }
  }

  lemma {:induction false} SerializedMeaning(q: Option<Token>, name: string, alias: Token, env: Env)
    requires UsableAsPrefix(q) && ValidToken(alias) && Resolves(q, env.ref) && HasColumn(env.columns, name)
    ensures Meaning(XmlSerialize(ColumnRef(q, name), alias.text), env)
            == Some([OutCol(alias.name, SerializeCell(env.row(name)))])
  {
    hide Tokens, ValidToken, XmlSerialize, ColumnRef, QuoteIdentifier, HasColumn;
    TokensSerialize(q, name, alias);
    var ts := Tokens(XmlSerialize(ColumnRef(q, name), alias.text));
    var tail := [Id(Word("AS")), Id(Word("CLOB")), Sym(')'), Id(Word("AS")), Id(alias)];
    if q.Some? {
      assert ts[6..] == tail;
    } else {
      assert ts[4..] == tail;
    }
  }

  lemma {:induction false} ColumnRefMeaning(q: Option<Token>, name: string, env: Env)
    requires UsableAsPrefix(q) && Resolves(q, env.ref) && HasColumn(env.columns, name)
    ensures Meaning(ColumnRef(q, name), env) == Some([OutCol(name, env.row(name))])
  {
    hide Tokens, ValidToken, ColumnRef, QuoteIdentifier, HasColumn;
    TokensColumnRef(q, name, "");
    EmptyTokens();
    assert ColumnRef(q, name) + "" == ColumnRef(q, name);
    assert RefTokens(q, name) + [] == RefTokens(q, name);
    var ts := Tokens(ColumnRef(q, name));
    if q.Some? {
      assert ts[3..] == [];
    } else {
      assert ts == [Id(Quoted(name))] + [];
      PlainShape(Quoted(name), []);
    }
  }

  lemma {:induction false} StarMeaning(todo: seq<Column>, env: Env)
    requires UsableAsPrefix(env.ref.alias) && UniqueKeys(env.columns)
    requires |todo| <= |env.columns| && todo == env.columns[..|todo|]
    ensures ListMeaning(ExpandStar(todo, env.columns, env.ref), env) == Some(WithSerializedXml(todo, env))
  {
    hide Meaning, ValidToken, XmlLookup, UniqueKeys, IsXmlType, XmlSerialize, ColumnRef, IdentKey, QuoteIdentifier, IsXmlColumn, HasColumn;
    if |todo| > 0 {
      var n := |todo| - 1;
      StarMeaning(todo[..n], env);
      var c := todo[n];
      assert c == env.columns[n];
      LookupExact(env.columns, n);
      if IsXmlType(c.dataType) {
        SerializedMeaning(env.ref.alias, c.name, Quoted(c.name), env);
      } else {
        ColumnRefMeaning(env.ref.alias, c.name, env);
      }
      var all := ExpandStar(todo, env.columns, env.ref);
      assert all[..|all| - 1] == ExpandStar(todo[..n], env.columns, env.ref);
    }
  }

  // ---- The rewrite preserves meaning ----

  /** A reference the rewrite picks up case-insensitively does name the table and column exactly. */
  predicate ExactRefs(item: string, columns: seq<Column>, ref: TableRef)
  {
    match ShapeOf(Tokens(item))
    case Star(q) => QualifierMatches(q, ref) ==> Resolves(q, ref)
    case Col(q, c, _) =>
      QualifierMatches(q, ref) && XmlLookup(columns, IdentKey(c.name)).Some? ==> Resolves(q, ref) && HasColumn(columns, c.name)
    case _ => true
  }

  predicate NamedAlias(ref: TableRef)
  {
    ref.alias.Some? ==> ref.alias.value.name != ""
  }

  lemma {:induction false} ResolvesMatches(q: Option<Token>, ref: TableRef)
    requires UsableAsPrefix(q) && Resolves(q, ref) && NamedAlias(ref)
    ensures QualifierMatches(q, ref)
  {
    hide ValidToken, UnquoteText, TrimSpace;
    if q.Some? {
      UnquoteIsName(q.value);
    }
  }

  lemma {:induction false} StarTokens(item: string)
    requires ParseStar(item).Some?
    ensures UsableAsPrefix(ParseStar(item).value)
  {
    hide ReadAt, TrimSpace, SkipSpace, ValidToken;
    var t := TrimSpace(item);
    if t != "*" {
      ReadAtValid(SkipSpace(t));
    }
  }

  lemma {:induction false} OneItem(item: string, env: Env)
    ensures ListMeaning([item], env) == Meaning(item, env)
  {
    hide Meaning;
    assert ListMeaning([item][..0], env) == Some([]);
    var m := Meaning(item, env);
    assert m.Some? ==> [] + m.value == m.value;
  }

  lemma {:induction false} ItemPreserved(item: string, env: Env)
    requires Trimmed(item) && ClearAlias(item) && ExactRefs(item, env.columns, env.ref)
    requires UsableAsPrefix(env.ref.alias) && NamedAlias(env.ref) && UniqueKeys(env.columns)
    ensures ListMeaning(RewriteItem(item, env.columns, env.ref), env) == Expected(item, env)
  {
    hide Tokens, ShapeOf, ParseStar, ParseColumnItem, QualifierMatches, XmlLookup, ValidToken, UniqueKeys, ListMeaning, ClearAlias, Trimmed,
         ExpandStar, SerializeItem, HasColumn, IsXmlColumn;
    StarParseAgrees(item);
    ColumnParseAgrees(item);
    OneItem(item, env);
    match ShapeOf(Tokens(item))
    case Star(q) =>
      StarTokens(item);
      if QualifierMatches(q, env.ref) {
        assert env.columns[..|env.columns|] == env.columns;
        StarMeaning(env.columns, env);
      } else if Resolves(q, env.ref) {
        ResolvesMatches(q, env.ref);
      }
    case Col(q, c, a) =>
      ColumnItemTokens(item);
      ColumnPreserved(item, q, c, a, env);
    case _ =>
  }

  lemma {:induction false} ColumnPreserved(item: string, q: Option<Token>, c: Token, a: Option<Token>, env: Env)
    requires ParseStar(item).None? && ParseColumnItem(item) == Some(ColumnItem(q, c, a)) && ShapeOf(Tokens(item)) == Col(q, c, a)
    requires UsableAsPrefix(q) && UsableAsPrefix(a) && ExactRefs(item, env.columns, env.ref)
    requires UsableAsPrefix(env.ref.alias) && NamedAlias(env.ref) && UniqueKeys(env.columns)
    ensures ListMeaning(RewriteItem(item, env.columns, env.ref), env) == Expected(item, env)
  {
    hide Tokens, ShapeOf, ParseStar, ParseColumnItem, QualifierMatches, XmlLookup, ValidToken, UniqueKeys, ListMeaning, ExpandStar,
         XmlSerialize, ColumnRef, IsXmlType, IdentKey, QuoteIdentifier;
    OneItem(item, env);
    if HasColumn(env.columns, c.name) {
      var i :| 0 <= i < |env.columns| && env.columns[i].name == c.name;
      LookupExact(env.columns, i);
    }
    if QualifierMatches(q, env.ref) && XmlLookup(env.columns, IdentKey(c.name)).Some? {
      var alias := if a.Some? then a.value else Quoted(c.name);
      SerializedMeaning(q, c.name, alias, env);
      OneItem(SerializeItem(item, env.columns, env.ref), env);
      assert SerializeItem(item, env.columns, env.ref) == XmlSerialize(ColumnRef(q, c.name), alias.text);
    } else if Resolves(q, env.ref) {
      ResolvesMatches(q, env.ref);
    }
  }

  lemma {:induction false} ListMeaningConcat(a: seq<string>, b: seq<string>, env: Env)
    ensures ListMeaning(a + b, env) == Append(ListMeaning(a, env), ListMeaning(b, env))
    decreases |b|
  {
    hide Meaning;
    if |b| == 0 {
      assert a + b == a;
      var m := ListMeaning(a, env);
      assert m.Some? ==> m.value + [] == m.value;
    } else {
      var n := |b| - 1;
      ListMeaningConcat(a, b[..n], env);
      assert (a + b)[..|a + b| - 1] == a + b[..n];
      var x, y, z := ListMeaning(a, env), ListMeaning(b[..n], env), Meaning(b[n], env);
      if x.Some? && y.Some? && z.Some? {
        assert x.value + (y.value + z.value) == (x.value + y.value) + z.value;
      }
    }
  }

  predicate ItemsReadable(items: seq<string>, env: Env)
  {
    forall i :: 0 <= i < |items| ==> Trimmed(items[i]) && ClearAlias(items[i]) && ExactRefs(items[i], env.columns, env.ref)
  }

  /** Item by item, in order, for every list. */
  lemma {:induction false} ItemsPreserved(items: seq<string>, env: Env)
    requires ItemsReadable(items, env)
    requires UsableAsPrefix(env.ref.alias) && NamedAlias(env.ref) && UniqueKeys(env.columns)
    ensures ListMeaning(RewriteItems(items, env.columns, env.ref), env) == ListExpected(items, env)
  {
    hide ClearAlias, ExactRefs, Trimmed, Meaning, Expected, RewriteItem, UniqueKeys, ValidToken;
    if |items| > 0 {
      var n := |items| - 1;
      ItemsPreserved(items[..n], env);
      ItemPreserved(items[n], env);
      ListMeaningConcat(RewriteItems(items[..n], env.columns, env.ref), RewriteItem(items[n], env.columns, env.ref), env);
    }
  }

  /** What a statement's select list yields on one row. */
  function SelectMeaning(sql: string, env: Env): (r: Option<seq<OutCol>>)
    requires ParseSelect(sql).Some?
  {
    ListMeaning(SplitItems(ParseSelect(sql).value.list), env)
  }
}
