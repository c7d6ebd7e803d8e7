/** Idempotence of the direct XMLTYPE rewrite, for all names, lists and catalogs. */
module XmlIdempotent {
  import opened Common
  import opened SqlText
  import opened SqlLexer
  import opened SqlScanners
  import opened SqlIdentifiers
  import opened SqlSegments
  import opened SqlLists
  import opened XmlRewrite
  import opened XmlReparse
  import opened XmlItems

  // ---- The fragments the rewrite writes ----

  predicate Bare(tok: Token, word: string)
  {
    !tok.quoted && tok.name == word
  }

  predicate UsableAsPrefix(q: Option<Token>)
  {
    q.Some? ==> ValidToken(q.value)
  }

  lemma {:induction false} TokenTextTrimmed(tok: Token)
    requires ValidToken(tok)
    ensures tok.text != "" && Trimmed(tok.text) && TrimSpace(tok.text) == tok.text
  {
    TrimOfTrimmed(tok.text);
  }

  lemma {:induction false} ColumnRefShape(q: Option<Token>, name: string)
    requires UsableAsPrefix(q)
    ensures ColumnRef(q, name) == if q.None? then QuoteIdentifier(name) else q.value.text + ("." + QuoteIdentifier(name))
    ensures Trimmed(ColumnRef(q, name)) && ColumnRef(q, name) != ""
  {
    hide TrimSpace;
    if q.Some? {
      TokenTextTrimmed(q.value);
      assert q.value.text + "." + QuoteIdentifier(name) == q.value.text + ("." + QuoteIdentifier(name));
    }
  }

  lemma {:induction false} FlatColumnRef(q: Option<Token>, name: string)
    requires UsableAsPrefix(q)
    ensures Flat(ColumnRef(q, name))
  {
    hide Flat, TrimSpace;
    ColumnRefShape(q, name);
    FlatQuoted(name);
    if q.Some? {
      FlatToken(q.value);
      FlatPlain(".");
      FlatConcat(".", QuoteIdentifier(name));
      FlatConcat(q.value.text, "." + QuoteIdentifier(name));
    }
  }

  lemma {:induction false} SolidColumnRef(q: Option<Token>, name: string)
    requires UsableAsPrefix(q) && (q.Some? ==> !Bare(q.value, "FROM"))
    ensures Solid(ColumnRef(q, name))
  {
    hide Solid, TrimSpace;
    ColumnRefShape(q, name);
    SolidQuoted(name);
    if q.Some? {
      SolidToken(q.value);
      SolidPlain(".");
      SolidConcat(".", QuoteIdentifier(name));
      SolidConcat(q.value.text, "." + QuoteIdentifier(name));
    }
  }

  function SerializeTail(columnRef: string, alias: string): string
  {
    "(" + ("CONTENT " + (columnRef + " AS CLOB")) + ")" + (" AS " + alias)
  }

  lemma {:induction false} SerializeShape(columnRef: string, alias: string)
    ensures XmlSerialize(columnRef, alias) == "XMLSERIALIZE" + SerializeTail(columnRef, alias)
  {
    assert "XMLSERIALIZE(CONTENT " == "XMLSERIALIZE" + "(" + "CONTENT ";
    assert " AS CLOB) AS " == " AS CLOB" + ")" + " AS ";
  }

  lemma {:induction false} SolidSerialize(columnRef: string, alias: string)
    requires Flat(columnRef) && Solid(alias)
    ensures Solid(XmlSerialize(columnRef, alias))
  {
    hide Flat, Solid;
    var inner := "CONTENT " + (columnRef + " AS CLOB");
    FlatPlain("CONTENT ");
    FlatPlain(" AS CLOB");
    FlatConcat(columnRef, " AS CLOB");
    FlatConcat("CONTENT ", columnRef + " AS CLOB");
    SolidParen(inner);
    SolidPlain(" AS ");
    SolidConcat(" AS ", alias);
    SolidConcat("(" + inner + ")", " AS " + alias);
    SolidPlain("XMLSERIALIZE");
    SolidConcat("XMLSERIALIZE", SerializeTail(columnRef, alias));
    SerializeShape(columnRef, alias);
  }

  lemma {:induction false} SolidIsGood(s: string)
    requires Solid(s)
    ensures GoodItem(s)
  {
  }

  lemma {:induction false} SerializeTrimmed(columnRef: string, alias: string)
    requires alias != "" && Trimmed(alias)
    ensures Trimmed(XmlSerialize(columnRef, alias)) && XmlSerialize(columnRef, alias) != ""
    ensures XmlSerialize(columnRef, alias)[0] == 'X'
  {
  }

  /** The alias a select item names is not the bare word FROM. */
  predicate AliasOk(item: string)
  {
    var p := ParseColumnItem(item);
    p.Some? && p.value.alias.Some? ==> !Bare(p.value.alias.value, "FROM")
  }

  lemma {:induction false} ColumnItemTokens(item: string)
    requires ParseColumnItem(item).Some?
    ensures var p := ParseColumnItem(item).value;
            UsableAsPrefix(p.qualifier) && ValidToken(p.column) && UsableAsPrefix(p.alias)
  {
    hide ReadAt, TrimSpace, SkipSpace, ValidToken;
    var t := TrimSpace(item);
    ReadAtValid(SkipSpace(t));
    var rest := ReadToken(t).value.rest;
    var s := SkipSpace(rest);
    if s != "" && s[0] == '.' {
      var u := SkipSpace(s[1..]);
      ReadAtValid(SkipSpace(u));
      AliasToken(Some(ReadToken(t).value.tok), ReadToken(u).value.tok, SkipSpace(ReadToken(u).value.rest));
    } else {
      AliasToken(None, ReadToken(t).value.tok, s);
    }
  }

  lemma {:induction false} AliasToken(q: Option<Token>, column: Token, s: string)
    requires ParseItemAlias(q, column, s).Some?
    ensures var p := ParseItemAlias(q, column, s).value;
            p.qualifier == q && p.column == column && UsableAsPrefix(p.alias)
  {
    hide ReadAt, TrimLo, TrimHi, SkipSpace, ValidToken, KeywordEq;
    if s != "" {
      var u := if StartsWithKeyword(s, "as") then SkipSpace(s[2..]) else s;
      ReadAtValid(SkipSpace(u));
    }
  }

  lemma {:induction false} TableAliasToken(from: string)
    requires ParseTableRef(from).Some?
    ensures UsableAsPrefix(ParseTableRef(from).value.alias)
  {
    hide ReadAt, TrimSpace, SkipSpace, ValidToken, NextIsClause, NextIsJoin, NextIsComma, IsClauseWord;
    var s := SkipSpace(from);
    var Read(first, rest) := ReadToken(s).value;
    var s1 := SkipSpace(rest);
    if s1 != "" && s1[0] == '.' {
      var u := SkipSpace(s1[1..]);
      AliasOfTable(TableRef(first.name, ReadToken(u).value.tok.name, None), SkipSpace(ReadToken(u).value.rest));
    } else {
      AliasOfTable(TableRef("", first.name, None), s1);
    }
  }

  lemma {:induction false} AliasOfTable(ref: TableRef, s: string)
    requires ref.alias.None? && ParseAlias(ref, s).Some?
    ensures UsableAsPrefix(ParseAlias(ref, s).value.alias)
  {
    hide ReadAt, TrimSpace, SkipSpace, ValidToken, NextIsClause, NextIsJoin, NextIsComma, IsClauseWord;
    if ReadToken(s).Some? {
      ReadAtValid(SkipSpace(s));
    }
  }

  // ---- What the rewrite makes of one item ----

  /** A fragment that can stand in a rebuilt list and that the rewrite would leave alone. */
  predicate Settled(s: string, columns: seq<Column>, ref: TableRef)
  {
    GoodItem(s) && Trimmed(s) && !ItemChanges(s, columns, ref)
  }

  lemma {:induction false} SerializedUnread(columnRef: string, alias: string)
    requires alias != "" && Trimmed(alias)
    ensures var s := XmlSerialize(columnRef, alias); ParseStar(s).None? && ParseColumnItem(s).None?
  {
    hide IsUniSpace, XmlSerialize, KeywordEq, TrimLo, TrimHi, ReadAt;
    var s := XmlSerialize(columnRef, alias);
    var tail := SerializeTail(columnRef, alias);
    var word := Token("XMLSERIALIZE", "XMLSERIALIZE", false);
    SerializeShape(columnRef, alias);
    SerializeTrimmed(columnRef, alias);
    TrimOfTrimmed(s);
    WordToken(word);
    assert tail[0] == '(';
    ReadPrinted(word, tail);
    assert SkipSpace(tail) == tail;
    assert s != "*" by { assert s[0] == 'X'; }
    NoAliasAtParen(tail);
  }

  lemma {:induction false} WordToken(word: Token)
    requires word == Token("XMLSERIALIZE", "XMLSERIALIZE", false)
    ensures ValidToken(word)
  {
    assert Upper(word.text) == word.name;
  }

  lemma {:induction false} NoAliasAtParen(s: string)
    requires s != "" && s[0] == '('
    ensures forall q, c :: ParseItemAlias(q, c, s).None?
  {
    assert !StartsWithKeyword(s, "as") by {
      StartsUntrimmed(s, "as");
      if WordStarts(s, "as") {
        KeywordLetters(s[..2], "as");
      }
    }
  }

  lemma {:induction false} ColumnRefRead(q: Option<Token>, name: string)
    requires UsableAsPrefix(q)
    ensures ParseStar(ColumnRef(q, name)).None?
    ensures ParseColumnItem(ColumnRef(q, name)) == Some(ColumnItem(q, Quoted(name), None))
  {
    hide IsUniSpace, ReadAt, TrimLo, TrimHi, ColumnRef, ValidToken, QuoteIdentifier;
    var s := ColumnRef(q, name);
    ColumnRefShape(q, name);
    TrimOfTrimmed(s);
    var printed := QuoteIdentifier(name);
    ReadPrinted(Quoted(name), "");
    assert printed + "" == printed;
    if q.Some? {
      var tail := "." + printed;
      ReadPrinted(q.value, tail);
      assert SkipSpace(tail) == tail;
      assert tail[1..] == printed;
      assert SkipSpace(printed) == printed;
      assert s != "*";
    }
  }

  lemma {:induction false} ColumnRefSettled(name: string, columns: seq<Column>, ref: TableRef)
    requires UsableAsPrefix(ref.alias) && (ref.alias.Some? ==> !Bare(ref.alias.value, "FROM"))
    requires XmlLookup(columns, IdentKey(name)).None?
    ensures Settled(ColumnRef(ref.alias, name), columns, ref)
  {
    hide Solid, GoodItem, ParseStar, ParseColumnItem, IsUniSpace, IdentKey;
    ColumnRefShape(ref.alias, name);
    SolidColumnRef(ref.alias, name);
    SolidIsGood(ColumnRef(ref.alias, name));
    ColumnRefRead(ref.alias, name);
  }

  lemma {:induction false} SerializeSettled(q: Option<Token>, name: string, alias: Token, columns: seq<Column>, ref: TableRef)
    requires UsableAsPrefix(q) && ValidToken(alias) && !Bare(alias, "FROM")
    ensures Settled(XmlSerialize(ColumnRef(q, name), alias.text), columns, ref)
  {
    hide Solid, GoodItem, Flat, ParseStar, ParseColumnItem, XmlSerialize, IsUniSpace;
    TokenTextTrimmed(alias);
    FlatColumnRef(q, name);
    SolidToken(alias);
    SolidSerialize(ColumnRef(q, name), alias.text);
    SolidIsGood(XmlSerialize(ColumnRef(q, name), alias.text));
    SerializeTrimmed(ColumnRef(q, name), alias.text);
    SerializedUnread(ColumnRef(q, name), alias.text);
  }

  /** The table alias, if any, is not FROM and does not begin with the word DISTINCT or ALL. */
  predicate TableAliasOk(ref: TableRef)
  {
    ref.alias.Some? ==> !Bare(ref.alias.value, "FROM") && !StartsWithModifier(ref.alias.value.text)
  }

  lemma {:induction false} StarColumnSettled(c: Column, columns: seq<Column>, ref: TableRef)
    requires UsableAsPrefix(ref.alias) && TableAliasOk(ref)
    ensures Settled(StarColumn(c, columns, ref), columns, ref)
  {
    hide Settled, XmlSerialize, ColumnRef, XmlLookup, ValidToken;
    if XmlLookup(columns, IdentKey(c.name)).Some? {
      SerializeSettled(ref.alias, c.name, Quoted(c.name), columns, ref);
    } else {
      ColumnRefSettled(c.name, columns, ref);
    }
  }

  lemma {:induction false} ExpandStarSettled(todo: seq<Column>, columns: seq<Column>, ref: TableRef)
    requires UsableAsPrefix(ref.alias) && TableAliasOk(ref)
    ensures forall i :: 0 <= i < |todo| ==> ExpandStar(todo, columns, ref)[i] == StarColumn(todo[i], columns, ref)
    ensures forall i :: 0 <= i < |todo| ==> Settled(ExpandStar(todo, columns, ref)[i], columns, ref)
  {
    hide Settled, StarColumn;
    if |todo| > 0 {
      ExpandStarSettled(todo[..|todo| - 1], columns, ref);
      StarColumnSettled(todo[|todo| - 1], columns, ref);
    }
  }

  lemma {:induction false} RewrittenSettled(item: string, columns: seq<Column>, ref: TableRef)
    requires UsableAsPrefix(ref.alias) && TableAliasOk(ref)
    requires GoodItem(item) && Trimmed(item) && AliasOk(item)
    ensures forall i :: 0 <= i < |RewriteItem(item, columns, ref)| ==> Settled(RewriteItem(item, columns, ref)[i], columns, ref)
  {
    hide GoodItem, ParseStar, ParseColumnItem, XmlSerialize, ColumnRef, ValidToken, XmlLookup, QualifierMatches, StarColumn, IsUniSpace;
    if IsStarOf(item, ref) {
      ExpandStarSettled(columns, columns, ref);
    } else if IsXmlItem(item, columns, ref) {
      ColumnItemTokens(item);
      var p := ParseColumnItem(item).value;
      var meta := XmlLookup(columns, IdentKey(p.column.name)).value;
      SerializeSettled(p.qualifier, meta.name, if p.alias.Some? then p.alias.value else Quoted(meta.name), columns, ref);
    }
  }

  lemma {:induction false} AllRewrittenSettled(items: seq<string>, columns: seq<Column>, ref: TableRef)
    requires UsableAsPrefix(ref.alias) && TableAliasOk(ref)
    requires forall i :: 0 <= i < |items| ==> GoodItem(items[i]) && Trimmed(items[i]) && AliasOk(items[i])
    ensures forall i :: 0 <= i < |RewriteItems(items, columns, ref)| ==> Settled(RewriteItems(items, columns, ref)[i], columns, ref)
  {
    hide GoodItem, Trimmed, AliasOk, Settled, RewriteItem;
    if |items| > 0 {
      AllRewrittenSettled(items[..|items| - 1], columns, ref);
      RewrittenSettled(items[|items| - 1], columns, ref);
    }
  }

  // ---- The first item ----

  /** What follows a fragment decides nothing about the word it starts with, as long as it begins no word. */
  lemma {:induction false} SameStart(a: string, x: string, y: string, keyword: string)
    requires keyword != "" && AllLetters(keyword)
    requires x == "" || !IsIdentPart(x[0])
    requires y == "" || !IsIdentPart(y[0])
    ensures WordStarts(a + x, keyword) ==> WordStarts(a + y, keyword)
  {
    if WordStarts(a + x, keyword) {
      var m := |keyword|;
      KeywordLetters((a + x)[..m], keyword);
      forall k | 0 <= k < m ensures IsLetter((a + x)[k]) {
        assert (a + x)[..m][k] == (a + x)[k];
      }
      assert x != "" ==> (a + x)[|a|] == x[0];
      assert |a| >= m;
      assert (a + x)[..m] == a[..m] == (a + y)[..m];
    }
  }

  lemma {:induction false} SameModifierStart(a: string, x: string, y: string)
    requires x == "" || !IsIdentPart(x[0])
    requires y == "" || !IsIdentPart(y[0])
    ensures StartsWithModifier(a + x) ==> StartsWithModifier(a + y)
  {
    hide WordStarts;
    SameStart(a, x, y, "distinct");
    SameStart(a, x, y, "all");
  }

  lemma {:induction false} NoModifierByFirst(s: string)
    requires s != "" && UpperChar(s[0]) != 'D' && UpperChar(s[0]) != 'A'
    ensures !StartsWithModifier(s)
  {
    if WordStarts(s, "distinct") {
      KeywordLetters(s[..8], "distinct");
    }
    if WordStarts(s, "all") {
      KeywordLetters(s[..3], "all");
    }
  }

  lemma {:induction false} StarColumnStart(c: Column, columns: seq<Column>, ref: TableRef, after: string)
    requires UsableAsPrefix(ref.alias) && TableAliasOk(ref)
    ensures StarColumn(c, columns, ref) != "" && !StartsWithModifier(StarColumn(c, columns, ref) + after)
  {
    hide StartsWithModifier, XmlLookup, ValidToken, QuoteIdentifier, ColumnRef, TableAliasOk, XmlSerialize, IdentKey;
    ColumnRefStart(ref, c.name, after);
    if XmlLookup(columns, IdentKey(c.name)).Some? {
      SerializeFirst(ColumnRef(ref.alias, c.name), QuoteIdentifier(c.name));
      NoModifierByFirst(XmlSerialize(ColumnRef(ref.alias, c.name), QuoteIdentifier(c.name)) + after);
    }
  }

  lemma {:induction false} ColumnRefStart(ref: TableRef, name: string, after: string)
    requires UsableAsPrefix(ref.alias) && TableAliasOk(ref)
    ensures ColumnRef(ref.alias, name) != "" && !StartsWithModifier(ColumnRef(ref.alias, name) + after)
  {
    hide StartsWithModifier, ValidToken, QuoteIdentifier, ColumnRef, TableAliasOk, IsUniSpace;
    ColumnRefShape(ref.alias, name);
    if ref.alias.None? {
      QuoteFirst(name);
      NoModifierByFirst(QuoteIdentifier(name) + after);
    } else {
      AliasStart(ref);
      AliasKeepsStart(ref.alias.value.text, "." + QuoteIdentifier(name), after);
    }
  }

  lemma {:induction false} AliasKeepsStart(a: string, dotted: string, after: string)
    requires !StartsWithModifier(a) && dotted != "" && !IsIdentPart(dotted[0])
    ensures !StartsWithModifier(a + dotted + after)
  {
    hide StartsWithModifier, IsIdentPart;
    assert a + "" == a && a + dotted + after == a + (dotted + after);
    SameModifierStart(a, dotted + after, "");
  }

  lemma {:induction false} SerializeFirst(columnRef: string, alias: string)
    ensures XmlSerialize(columnRef, alias) != "" && XmlSerialize(columnRef, alias)[0] == 'X'
  {
  }

  lemma {:induction false} QuoteFirst(name: string)
    ensures QuoteIdentifier(name) != "" && QuoteIdentifier(name)[0] == '"'
  {
  }

  lemma {:induction false} AliasStart(ref: TableRef)
    requires ref.alias.Some? && TableAliasOk(ref)
    ensures !StartsWithModifier(ref.alias.value.text)
  {
    hide StartsWithModifier;
  }

  /** The list's first item, when it is kept, starts no modifier that the statement did not have. */
  lemma {:induction false} FirstItemStart(list: string, after: string)
    requires list != "" ==> !IsUniSpace(list[0])
    requires !StartsWithModifier(list) && |SplitItems(list)| > 0
    requires after == "" || !IsIdentPart(after[0])
    ensures !StartsWithModifier(SplitItems(list)[0] + after)
  {
    assert Run(false, START, list, 0, 0) == START;
    hide StartsWithModifier, Run, IsUniSpace, IsIdentPart;
    var o, e := PieceLocation(list, 0, 0, 0);
    var a, z := TrimLocation(list, o, e);
    var item := SplitItems(list)[0];
    assert item == list[a..z];
    var tail := if item == "" then "" else list[z..];
    if item == "" {
      SameModifierStart("", after, "");
      EmptyStart();
    } else {
      assert list == item + tail;
      assert z < |list| ==> tail[0] == list[z] && !IsIdentPart(list[z]) by {
        if z < |list| && z == e { CommaNotIdent(list[z]); }
      }
      SameModifierStart(item, after, tail);
    }
  }

  lemma {:induction false} CommaNotIdent(c: char)
    requires c == ','
    ensures !IsIdentPart(c)
  {
  }

  lemma {:induction false} EmptyStart()
    ensures !StartsWithModifier("" + "") && !StartsWithModifier("")
  {
  }

  lemma {:induction false} FirstRewritten(items: seq<string>, columns: seq<Column>, ref: TableRef)
    requires |items| > 0 && |columns| > 0
    ensures |RewriteItem(items[0], columns, ref)| > 0
    ensures |RewriteItems(items, columns, ref)| >= |items|
    ensures RewriteItems(items, columns, ref)[0] == RewriteItem(items[0], columns, ref)[0]
  {
    hide IsStarOf, IsXmlItem, SerializeItem, StarColumn;
    if |items| == 1 {
      assert RewriteItems(items[..0], columns, ref) == [];
    } else {
      FirstRewritten(items[..|items| - 1], columns, ref);
    }
  }

  // ---- Idempotence ----

  /** What is written in place of an item begins with a word character: XMLSERIALIZE, a bare table alias, or the item itself. */
  predicate StartsWord(item: string, columns: seq<Column>, ref: TableRef)
  {
    if IsStarOf(item, ref) then
      columns != [] && (XmlLookup(columns, IdentKey(columns[0].name)).Some?
                        || (ref.alias.Some? && ref.alias.value.text != "" && WordChar(ref.alias.value.text[0])))
    else IsXmlItem(item, columns, ref) || (item != "" && WordChar(item[0]))
  }

  /** A blank or symbol stands before the list, or the first item's replacement begins with a quote or symbol. */
  predicate Spaced(p: Parts, columns: seq<Column>)
    requires p.head != ""
  {
    var h, items := p.head + p.prefix, SplitItems(p.list);
    !IsIdentPart(h[|h| - 1]) || items == [] || !StartsWord(items[0], columns, p.ref)
  }

  /** The new list runs into the word before it exactly when the statement is not spaced. */
  lemma {:induction false} GluedExactly(p: Parts, columns: seq<Column>)
    requires p.head != "" && |columns| > 0 && SplitItems(p.list) != [] && UsableAsPrefix(p.ref.alias)
    ensures Glued(p, ListText(RewriteItems(SplitItems(p.list), columns, p.ref))) <==> !Spaced(p, columns)
  {
    hide SplitItems, ListText, RewriteItems, IsStarOf, IsXmlItem, SerializeItem, StarColumn, XmlLookup, ValidToken;
    var olds := SplitItems(p.list);
    var items := RewriteItems(olds, columns, p.ref);
    FirstRewritten(olds, columns, p.ref);
    FirstText(items);
    assert items[0] == "" || ListText(items)[0] == items[0][0];
    FirstChar(olds[0], columns, p.ref);
  }

  lemma {:induction false} FirstChar(item: string, columns: seq<Column>, ref: TableRef)
    requires |columns| > 0 && UsableAsPrefix(ref.alias)
    ensures var written := RewriteItem(item, columns, ref);
            |written| > 0 && (StartsWord(item, columns, ref) <==> written[0] != "" && WordChar(written[0][0]))
  {
    hide ParseStar, ParseColumnItem, QualifierMatches, XmlLookup, TrimSpace;
    if IsStarOf(item, ref) {
      StarFirst(columns, columns, ref);
      ColumnRefShape(ref.alias, columns[0].name);
    }
  }

  lemma {:induction false} StarFirst(todo: seq<Column>, columns: seq<Column>, ref: TableRef)
    requires |todo| > 0
    ensures ExpandStar(todo, columns, ref)[0] == StarColumn(todo[0], columns, ref)
    decreases |todo|
  {
    if |todo| > 1 {
      StarFirst(todo[..|todo| - 1], columns, ref);
    }
  }

  /**
   What a caller can check on the statement and the catalog before the call so that the output parses as
   intended. Beside Regular: no item ends inside a line comment, no alias is the word FROM, the table alias
   does not read as a modifier, and the statement is spaced.
   */
  predicate Safe(sql: string, columns: seq<Column>)
    requires ParseSelect(sql).Some?
  {
    var p := ParseSelect(sql).value;
    var items := SplitItems(p.list);
    && Regular(sql, p)
    && (forall i :: 0 <= i < |items| ==> !Final(items[i]).mode.Line? && AliasOk(items[i]))
    && TableAliasOk(p.ref)
    && p.head != "" && Spaced(p, columns)
  }

  lemma {:induction false} NewItemsSettled(sql: string, columns: seq<Column>)
    requires ParseSelect(sql).Some? && Safe(sql, columns)
    ensures var p := ParseSelect(sql).value;
            var items := RewriteItems(SplitItems(p.list), columns, p.ref);
            forall i :: 0 <= i < |items| ==> Settled(items[i], columns, p.ref)
  {
    hide Run, ParseSelect, SplitItems, GoodItem, AliasOk, Regular, Settled, Spaced, ParseTableRef, SelectListStart, FindKeyword, ModifierLength, ListText, RewriteItem;
    var p := ParseSelect(sql).value;
    var items := SplitItems(p.list);
    PartsOf(sql);
    TableAliasToken(p.from[4..]);
    forall i | 0 <= i < |items| ensures GoodItem(items[i]) && Trimmed(items[i]) {
      OriginalItemGood(sql, i);
    }
    AllRewrittenSettled(items, columns, p.ref);
  }

  lemma {:induction false} NewListStart(sql: string, columns: seq<Column>)
    requires ParseSelect(sql).Some? && Safe(sql, columns) && |columns| > 0
    requires var p := ParseSelect(sql).value; AnyChanges(SplitItems(p.list), columns, p.ref)
    ensures var p := ParseSelect(sql).value;
            var items := RewriteItems(SplitItems(p.list), columns, p.ref);
            && |items| > 0 && (items[0] != "" || |items| > 1)
            && (HasModifier(p.prefix + p.list) || !StartsWithModifier(ListText(items)))
  {
    hide Run, ParseSelect, SplitItems, GoodItem, AliasOk, Spaced, ParseTableRef, SelectListStart, FindKeyword, ModifierLength, ListText,
         StartsWithModifier, Final, IsStarOf, IsXmlItem, SerializeItem, StarColumn, ExpandStar, PlainBlanks, RewriteItems, TrimSqlLeft;
    var p := ParseSelect(sql).value;
    var olds := SplitItems(p.list);
    var items := RewriteItems(olds, columns, p.ref);
    PartsOf(sql);
    TableAliasToken(p.from[4..]);
    FirstRewritten(olds, columns, p.ref);
    FirstText(items);
    var rest := ListText(items)[|items[0]|..];
    if IsStarOf(olds[0], p.ref) {
      ExpandStarSettled(columns, columns, p.ref);
      StarColumnStart(columns[0], columns, p.ref, rest);
    } else if IsXmlItem(olds[0], columns, p.ref) {
      SerializedStart(olds[0], columns, p.ref, rest);
    } else {
      assert |items| == 1 ==> |olds| == 1;
      if !HasModifier(p.prefix + p.list) {
        ListOfSection(p);
        FirstItemStart(p.list, rest);
      }
    }
  }

  lemma {:induction false} ListOfSection(p: Parts)
    requires PlainBlanks(p.prefix + p.list) && ModifierLength(p.prefix + p.list) == |p.prefix| && !HasModifier(p.prefix + p.list)
    ensures p.list != "" ==> !IsUniSpace(p.list[0])
    ensures !StartsWithModifier(p.list)
  {
    hide StartsWithModifier, IsUniSpace, KeywordEq, StartsWithKeyword;
    var section := p.prefix + p.list;
    ModifierUntrimmed(section);
    var lead := TrimSqlLeft(section, 0);
    assert lead == |p.prefix| by { NotModifier(section[lead..]); }
    assert section[lead..] == p.list;
  }

  lemma {:induction false} NotModifier(rest: string)
    requires !StartsWithModifier(rest)
    ensures !WordStarts(rest, "distinct") && !WordStarts(rest, "all")
  {
  }

  lemma {:induction false} FirstText(items: seq<string>)
    requires |items| > 0
    ensures |items[0]| < |ListText(items)|
    ensures ListText(items) == items[0] + ListText(items)[|items[0]|..]
    ensures !IsIdentPart(ListText(items)[|items[0]|..][0])
  {
    var a := items[0];
    if |items| > 1 {
      ListTextCons(items);
    }
  }

  lemma {:induction false} SerializedStart(item: string, columns: seq<Column>, ref: TableRef, after: string)
    requires IsXmlItem(item, columns, ref)
    ensures SerializeItem(item, columns, ref) != "" && !StartsWithModifier(SerializeItem(item, columns, ref) + after)
  {
    hide StartsWithModifier, ParseColumnItem, XmlLookup, ColumnRef, QuoteIdentifier, QualifierMatches;
    var s := SerializeItem(item, columns, ref);
    assert s[0] == 'X';
    NoModifierByFirst(s + after);
  }

  /** The rewritten statement, parsed again. */
  lemma {:induction false} RewrittenReparses(sql: string, columns: seq<Column>)
    requires ParseSelect(sql).Some? && Safe(sql, columns) && |columns| > 0
    requires var p := ParseSelect(sql).value; AnyChanges(SplitItems(p.list), columns, p.ref)
    ensures var p := ParseSelect(sql).value;
            var items := RewriteItems(SplitItems(p.list), columns, p.ref);
            && ParseSelect(Rebuild(p, items)) == Some(p.(list := ListText(items)))
            && SplitItems(ListText(items)) == DropEmptyTail(items)
  {
    hide Run, ParseSelect, SplitItems, GoodItem, AliasOk, AnyChanges, Glued, Spaced, ListText, StartsWithModifier, HasModifier, Final, RewriteItems,
         Pieces, TrimAll, DropEmptyTail, ItemChanges, IsUniSpace;
    var p := ParseSelect(sql).value;
    var items := RewriteItems(SplitItems(p.list), columns, p.ref);
    NewItemsSettled(sql, columns);
    NewListStart(sql, columns);
    assert !Glued(p, ListText(items)) by { SpacedNotGlued(sql, columns); }
    Reparse(sql, items);
    SplitListText("", items);
    SplitItemsOf(ListText(items), items);
  }

  lemma {:induction false} SpacedNotGlued(sql: string, columns: seq<Column>)
    requires ParseSelect(sql).Some? && Safe(sql, columns) && |columns| > 0
    requires var p := ParseSelect(sql).value; AnyChanges(SplitItems(p.list), columns, p.ref)
    ensures var p := ParseSelect(sql).value; !Glued(p, ListText(RewriteItems(SplitItems(p.list), columns, p.ref)))
  {
    hide ParseSelect, SplitItems, Glued, Spaced, ListText, RewriteItems, ParseTableRef, AliasOk, Final, ItemChanges, SelectListStart, FindKeyword, ModifierLength;
    var p := ParseSelect(sql).value;
    PartsOf(sql);
    TableAliasToken(p.from[4..]);
    GluedExactly(p, columns);
  }

  lemma {:induction false} SplitItemsOf(list: string, items: seq<string>)
    requires TrimAll(Pieces("" + list, 0, 0)) == items
    ensures SplitItems(list) == DropEmptyTail(items)
  {
    hide Pieces, TrimAll;
    assert "" + list == list;
  }

  /** Rewriting a rewritten statement finds nothing to do and returns it unchanged. */
  lemma {:induction false} DirectIdempotent(sql: string, load: Loader, columns: seq<Column>)
    requires ParseSelect(sql).Some?
    requires load(ParseSelect(sql).value.ref.schema, ParseSelect(sql).value.ref.table) == Ok(columns)
    requires Safe(sql, columns)
    requires RewriteDirect(sql, load).Ok? && RewriteDirect(sql, load).value.changed
    ensures var out := RewriteDirect(sql, load).value.text;
            RewriteDirect(out, load) == Ok(Outcome(out, false, true))
  {
    hide Run, ParseSelect, SplitItems, MayReference, Safe, ListText, RewriteItems, Rebuild, ItemChanges, IsXmlType;
    var p := ParseSelect(sql).value;
    var olds := SplitItems(p.list);
    var items := RewriteItems(olds, columns, p.ref);
    RewrittenReparses(sql, columns);
    NewItemsSettled(sql, columns);
    assert !AnyChanges(DropEmptyTail(items), columns, p.ref);
  }
}
