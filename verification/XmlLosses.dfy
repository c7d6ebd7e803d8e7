/** What the XMLTYPE rewrite loses when a statement does not meet its conditions. */
module XmlLosses {
  import opened Common
  import opened SqlText
  import opened SqlLexer
  import opened SqlScanners
  import opened SqlIdentifiers
  import opened SqlSegments
  import opened SqlLists
  import opened XmlRewrite
  import opened XmlReparse
  import opened XmlItems
  import opened XmlIdempotent
  import opened XmlMeaning

  // ---- Words in joined text ----

  lemma {:induction false} HitIsWord(s: string, start: nat, k: nat)
    requires start <= k < |s| && KeywordHit(s, start, k, "from")
    ensures KeywordAt(s, k, "from")
  {
  }

  lemma {:induction false} WordInSuffix(a: string, b: string, k: nat)
    requires k >= |a| && KeywordAt(a + b, k, "from")
    ensures KeywordAt(b, k - |a|, "from")
  {
    assert (a + b)[k..k + 4] == b[k - |a|..k - |a| + 4];
  }

  // ---- A comment at the end of the list ----

  predicate OneLine(s: string)
  {
    forall k :: 0 <= k < |s| ==> s[k] != '\n' && s[k] != '\r'
  }

  lemma {:induction false} RunLine(d: nat, s: string, k: nat)
    requires k <= |s| && OneLine(s)
    ensures Run(false, State(Line, d), s, 0, k) == State(Line, d)
  {
    if k > 0 {
      RunLine(d, s, k - 1);
      RunNext(false, State(Line, d), s, 0, k - 1);
    }
  }

  /** Behind a fragment that ends in a line comment, the rest of the line is comment. */
  lemma {:induction false} CommentHides(item: string, rest: string, k: nat)
    requires Final(item).mode.Line? && NoTopFrom(item) && OneLine(rest) && (rest != "" ==> !IsLetter(rest[0]))
    requires k < |item| + |rest|
    ensures !KeywordHit(item + rest, 0, k, "from")
  {
    hide Run;
    if k < |item| {
      if KeywordHit(item + rest, 0, k, "from") {
        HitInJoined(item, rest, k);
      }
    } else {
      RunLongPrefix(START, item, rest, k - |item|);
      RunLine(Final(item).depth, rest, k - |item|);
      assert !CodeAt(false, item + rest, 0, k);
    }
  }

  /** Good items, then one that ends in a line comment, then text on the same line: no FROM is seen. */
  lemma {:induction false} SwallowedList(items: seq<string>, n: nat, after: string, k: nat)
    requires n < |items| && (forall i :: 0 <= i < n ==> GoodItem(items[i]))
    requires Final(items[n]).mode.Line? && NoTopFrom(items[n]) && (forall i :: n < i < |items| ==> OneLine(items[i])) && OneLine(after)
    requires k < |ListText(items) + after|
    ensures !KeywordHit(ListText(items) + after, 0, k, "from")
    decreases n
  {
    hide Run, GoodItem, KeywordHit, ListText;
    var text := ListText(items) + after;
    FirstText(items);
    var rest := ListText(items)[|items[0]|..];
    if n == 0 {
      assert text == items[0] + (rest + after);
      assert OneLine(rest) by { RestOneLine(items); }
      CommentHides(items[0], rest + after, k);
    } else if KeywordHit(text, 0, k, "from") {
      ListTextCons(items);
      var tail := ListText(items[1..]) + after;
      assert text == items[0] + [','] + (" " + tail);
      HitAfterItem(items[0], ',', " " + tail, k);
      assert " " + tail == "" + [' '] + tail;
      assert GoodItem("") by { EmptyGood(); }
      HitAfterItem("", ' ', tail, k - |items[0]| - 1);
      SwallowedList(items[1..], n - 1, after, k - |items[0]| - 2);
    }
  }

  lemma {:induction false} EmptyGood()
    ensures GoodItem("")
  {
  }

  lemma {:induction false} RestOneLine(items: seq<string>)
    requires |items| > 0 && forall i :: 0 < i < |items| ==> OneLine(items[i])
    ensures |items[0]| <= |ListText(items)| && OneLine(ListText(items)[|items[0]|..])
    decreases |items|
  {
    hide ListText;
    FirstText(items);
    if |items| > 1 {
      ListTextCons(items);
      RestOneLine(items[1..]);
      FirstText(items[1..]);
      assert ListText(items)[|items[0]|..] == ", " + (items[1] + ListText(items[1..])[|items[1]|..]);
    } else {
      LoneText(items[0]);
      assert items == [items[0]];
      assert ListText(items)[|items[0]|..] == " ";
    }
  }

  lemma {:induction false} LoneText(item: string)
    ensures ListText([item]) == item + " "
  {
  }

  lemma {:induction false} HitBehindPrefix(prefix: string, text: string, k: nat)
    requires forall i :: 0 <= i < |prefix| ==> IsPlain(prefix[i]) && prefix[i] != '*' && UpperChar(prefix[i]) != 'F'
    requires k < |prefix + text| && KeywordHit(prefix + text, 0, k, "from")
    ensures k >= |prefix| && KeywordHit(text, 0, k - |prefix|, "from")
  {
    hide Run, IsPlain, KeywordAt;
    PlainNeutral(prefix);
    FromLetter(prefix + text, k);
    LetterBehind(prefix, text, k);
    RunSecond(prefix, text, k - |prefix|);
    RunSecond(prefix, text, k - |prefix| + 1);
    WordInSuffix(prefix, text, k);
  }

  lemma {:induction false} LetterBehind(prefix: string, text: string, k: nat)
    requires (forall i :: 0 <= i < |prefix| ==> UpperChar(prefix[i]) != 'F') && k < |prefix + text| && UpperChar((prefix + text)[k]) == 'F'
    ensures k >= |prefix|
  {
  }

  lemma {:induction false} NothingFound(head: string, tail: string)
    requires forall k :: 0 <= k < |tail| ==> !KeywordHit(tail, 0, k, "from")
    ensures FindKeyword(head + tail, |head|, |head|, "from") == -1
  {
    hide Run, KeywordAt;
    var r := FindKeyword(head + tail, |head|, |head|, "from");
    if r >= 0 {
      HitAtOffset(head, tail, r - |head|);
    }
  }

  /**
   A line comment at the end of the list swallows FROM: whatever is rewritten before it, the output is no
   longer recognized as a SELECT from a table when the text from FROM on is a single line.
   */
  lemma {:induction false} LineCommentLosesFrom(sql: string, items: seq<string>)
    requires ParseSelect(sql).Some? && Regular(sql, ParseSelect(sql).value)
    requires items != [] && (forall i :: 0 <= i < |items| - 1 ==> GoodItem(items[i]))
    requires var last := items[|items| - 1]; Final(last).mode.Line? && NoTopFrom(last)
    requires OneLine(ParseSelect(sql).value.from)
    ensures ParseSelect(Rebuild(ParseSelect(sql).value, items)) == None
  {
    hide Run, KeywordAt, ModifierLength, ParseTableRef, IsUniSpace, SelectListStart, FindKeyword, ListText, GoodItem, NoTopFrom, OneLine, Final, Rebuild;
    PartsOf(sql);
    var p := ParseSelect(sql).value;
    var out := Rebuild(p, items);
    FromGone(p, items);
    RebuildParts(p, items);
    FirstText(items);
    FromLetter(p.from, 0);
    var n := |p.head|;
    assert sql[..n] == p.head == out[..n];
    assert out[|out| - 1] == p.from[|p.from| - 1] == sql[|sql| - 1];
    SelectStable(sql, out, n);
  }

  lemma {:induction false} FromGone(p: Parts, items: seq<string>)
    requires PlainBlanks(p.prefix + p.list) && ModifierLength(p.prefix + p.list) == |p.prefix|
    requires items != [] && (forall i :: 0 <= i < |items| - 1 ==> GoodItem(items[i]))
    requires var last := items[|items| - 1]; Final(last).mode.Line? && NoTopFrom(last)
    requires OneLine(p.from)
    ensures FindKeyword(Rebuild(p, items), |p.head|, |p.head|, "from") == -1
  {
    hide Run, ModifierLength, FindKeyword, ListText, GoodItem, NoTopFrom, OneLine, Final, Rebuild, KeywordHit, PlainBlanks;
    var tail := p.prefix + (ListText(items) + p.from);
    RebuildParts(p, items);
    forall k | 0 <= k < |p.prefix| ensures IsPlain(p.prefix[k]) && p.prefix[k] != '*' && UpperChar(p.prefix[k]) != 'F' {
      PrefixPlain(p.prefix + p.list, k);
    }
    forall k | 0 <= k < |tail| ensures !KeywordHit(tail, 0, k, "from") {
      if KeywordHit(tail, 0, k, "from") {
        HitBehindPrefix(p.prefix, ListText(items) + p.from, k);
        SwallowedList(items, |items| - 1, p.from, k - |p.prefix|);
      }
    }
    NothingFound(p.head, tail);
  }

  lemma {:induction false} RebuildParts(p: Parts, items: seq<string>)
    ensures Rebuild(p, items) == p.head + (p.prefix + (ListText(items) + p.from))
  {
    assert p.head + p.prefix + Join(items, ", ") + " " + p.from == p.head + (p.prefix + ((Join(items, ", ") + " ") + p.from));
  }

  lemma {:induction false} ItemHidesNoFrom(sql: string, i: nat)
    requires ParseSelect(sql).Some? && Regular(sql, ParseSelect(sql).value)
    requires i < |SplitItems(ParseSelect(sql).value.list)|
    ensures NoTopFrom(SplitItems(ParseSelect(sql).value.list)[i])
  {
    hide Run, ParseSelect, Regular, NoTopFrom, NoTopComma, Pieces;
    ListFacts(sql);
    ItemFacts(ParseSelect(sql).value.list, i);
  }

  /** The same for the rewrite itself: the items before the comment meet the conditions, and the last one is kept with its comment. */
  lemma {:induction false} LineCommentRewriteLost(sql: string, load: Loader, columns: seq<Column>)
    requires ParseSelect(sql).Some? && Regular(sql, ParseSelect(sql).value)
    requires var p := ParseSelect(sql).value;
             && load(p.ref.schema, p.ref.table) == Ok(columns) && TableAliasOk(p.ref) && OneLine(p.from)
             && RewriteDirect(sql, load).Ok? && RewriteDirect(sql, load).value.changed
    requires var p := ParseSelect(sql).value;
             var items := SplitItems(p.list);
             && items != [] && Final(items[|items| - 1]).mode.Line? && !ItemChanges(items[|items| - 1], columns, p.ref)
             && forall i :: 0 <= i < |items| - 1 ==> !Final(items[i]).mode.Line? && AliasOk(items[i])
    ensures ParseSelect(RewriteDirect(sql, load).value.text) == None
  {
    hide Run, ParseSelect, SplitItems, MayReference, ListText, Rebuild, ItemChanges, HasXmlType, Regular, GoodItem, NoTopFrom, AliasOk, TableAliasOk, AnyChanges, OneLine, RewriteItems, Final;
    NewItemsCommented(sql, columns);
    var p := ParseSelect(sql).value;
    LineCommentLosesFrom(sql, RewriteItems(SplitItems(p.list), columns, p.ref));
  }

  lemma {:induction false} NewItemsCommented(sql: string, columns: seq<Column>)
    requires ParseSelect(sql).Some? && Regular(sql, ParseSelect(sql).value) && TableAliasOk(ParseSelect(sql).value.ref)
    requires var p := ParseSelect(sql).value;
             var items := SplitItems(p.list);
             && items != [] && Final(items[|items| - 1]).mode.Line? && !ItemChanges(items[|items| - 1], columns, p.ref)
             && forall i :: 0 <= i < |items| - 1 ==> !Final(items[i]).mode.Line? && AliasOk(items[i])
    ensures var p := ParseSelect(sql).value;
            var news := RewriteItems(SplitItems(p.list), columns, p.ref);
            && news != [] && (forall i :: 0 <= i < |news| - 1 ==> GoodItem(news[i]))
            && Final(news[|news| - 1]).mode.Line? && NoTopFrom(news[|news| - 1])
  {
    hide Run, ParseSelect, SplitItems, ItemChanges, Regular, GoodItem, NoTopFrom, AliasOk, TableAliasOk, ParseTableRef, KeywordAt, RewriteItem, Final, Trimmed, Settled, UsableAsPrefix;
    var p := ParseSelect(sql).value;
    var items := SplitItems(p.list);
    var n := |items| - 1;
    AliasUsable(sql);
    forall i | 0 <= i < n ensures GoodItem(items[i]) && Trimmed(items[i]) {
      OriginalItemGood(sql, i);
    }
    AllRewrittenSettled(items[..n], columns, p.ref);
    SettledGood(RewriteItems(items[..n], columns, p.ref), columns, p.ref);
    ItemHidesNoFrom(sql, n);
    KeptItem(items[n], columns, p.ref);
  }

  lemma {:induction false} AliasUsable(sql: string)
    requires ParseSelect(sql).Some?
    ensures UsableAsPrefix(ParseSelect(sql).value.ref.alias)
  {
    hide ParseSelect, ParseTableRef, SelectListStart, FindKeyword, ModifierLength, UsableAsPrefix;
    PartsOf(sql);
    TableAliasToken(ParseSelect(sql).value.from[4..]);
  }

  lemma {:induction false} SettledGood(items: seq<string>, columns: seq<Column>, ref: TableRef)
    requires forall i :: 0 <= i < |items| ==> Settled(items[i], columns, ref)
    ensures forall i :: 0 <= i < |items| ==> GoodItem(items[i])
  {
    hide GoodItem;
  }

  lemma {:induction false} KeptItem(item: string, columns: seq<Column>, ref: TableRef)
    requires !ItemChanges(item, columns, ref)
    ensures RewriteItem(item, columns, ref) == [item]
  {
  }

  // ---- Column names that differ only by case ----

  /**
   A plain column that the rewrite picks up is looked up by its upper-cased name. Every row keeps its value and
   heading exactly when the column found is the one named.
   */
  lemma {:induction false} PickedUpExactly(item: string, q: Option<Token>, c: Token, a: Option<Token>, env: Env, meta: Column)
    requires ParseStar(item).None? && ParseColumnItem(item) == Some(ColumnItem(q, c, a)) && ShapeOf(Tokens(item)) == Col(q, c, a)
    requires UsableAsPrefix(q) && UsableAsPrefix(a) && QualifierMatches(q, env.ref) && Resolves(q, env.ref)
    requires XmlLookup(env.columns, IdentKey(c.name)) == Some(meta) && HasColumn(env.columns, c.name)
    ensures (forall row: string -> Cell :: ListMeaning(RewriteItem(item, env.columns, env.ref), env.(row := row)) == Expected(item, env.(row := row)))
            <==> meta.name == c.name
  {
    hide Tokens, ShapeOf, ParseStar, ParseColumnItem, QualifierMatches, XmlLookup, ValidToken, XmlSerialize, ColumnRef, IsXmlType, IdentKey,
         QuoteIdentifier, ListMeaning, Meaning;
    forall row: string -> Cell
      ensures ListMeaning(RewriteItem(item, env.columns, env.ref), env.(row := row))
              == Some([OutCol(if a.Some? then a.value.name else meta.name, SerializeCell(row(meta.name)))])
    {
      PickedUpMeaning(item, q, c, a, env.(row := row), meta);
    }
    if meta.name == c.name {
      assert IsXmlColumn(env.columns, c.name) by { LookupIsXml(env.columns, c.name, meta); }
    } else {
      var telling: string -> Cell := n => Scalar(n);
      assert Expected(item, env.(row := telling)) == Some([OutCol(Heading(c, a), Scalar(c.name))]);
    }
  }

  lemma {:induction false} LookupIsXml(columns: seq<Column>, name: string, meta: Column)
    requires XmlLookup(columns, IdentKey(name)) == Some(meta) && meta.name == name
    ensures IsXmlColumn(columns, name)
  {
    hide XmlLookup, IsXmlType, IdentKey;
    var i :| 0 <= i < |columns| && columns[i] == meta;
  }

  /** What a picked-up column is rewritten to means the column found, whichever one was named. */
  lemma {:induction false} PickedUpMeaning(item: string, q: Option<Token>, c: Token, a: Option<Token>, env: Env, meta: Column)
    requires ParseStar(item).None? && ParseColumnItem(item) == Some(ColumnItem(q, c, a))
    requires UsableAsPrefix(q) && UsableAsPrefix(a) && QualifierMatches(q, env.ref) && Resolves(q, env.ref)
    requires XmlLookup(env.columns, IdentKey(c.name)) == Some(meta)
    ensures ListMeaning(RewriteItem(item, env.columns, env.ref), env)
            == Some([OutCol(if a.Some? then a.value.name else meta.name, SerializeCell(env.row(meta.name)))])
  {
    hide Tokens, ShapeOf, ParseStar, ParseColumnItem, QualifierMatches, XmlLookup, ValidToken, ListMeaning, ExpandStar,
         XmlSerialize, ColumnRef, IsXmlType, IdentKey, QuoteIdentifier, Meaning;
    var alias := if a.Some? then a.value else Quoted(meta.name);
    assert HasColumn(env.columns, meta.name) by { LookupHas(env.columns, IdentKey(c.name), meta); }
    SerializedMeaning(q, meta.name, alias, env);
    OneItem(SerializeItem(item, env.columns, env.ref), env);
    assert SerializeItem(item, env.columns, env.ref) == XmlSerialize(ColumnRef(q, meta.name), alias.text);
  }

  lemma {:induction false} LookupHas(columns: seq<Column>, key: string, meta: Column)
    requires XmlLookup(columns, key) == Some(meta)
    ensures HasColumn(columns, meta.name)
  {
    hide XmlLookup;
    var i :| 0 <= i < |columns| && columns[i] == meta;
  }

  /** Columns doc (XMLTYPE) and DOC (NUMBER): asking for DOC serializes doc. */
  lemma {:induction false} CaseTwinsConfused(ref: TableRef, row: string -> Cell, other: string -> Option<seq<OutCol>>)
    requires ref.alias.None?
    ensures var columns := [Column("doc", "XMLTYPE"), Column("DOC", "NUMBER")];
            var env := Env(columns, ref, row, other);
            && ListMeaning(RewriteItem("DOC", columns, ref), env) == Some([OutCol("doc", SerializeCell(row("doc")))])
            && Expected("DOC", env) == Some([OutCol("DOC", row("DOC"))])
  {
    var columns := [Column("doc", "XMLTYPE"), Column("DOC", "NUMBER")];
    var env := Env(columns, ref, row, other);
    var tok := Word("DOC");
    hide Tokens, ParseStar, ParseColumnItem, XmlLookup, IdentKey, ListMeaning, RewriteItem, IsXmlColumn, ClearAlias, Trimmed;
    WordTokens("DOC");
    TwinKeys();
    TwinLookup(columns);
    ColumnParseAgrees("DOC");
    StarParseAgrees("DOC");
    PickedUpMeaning("DOC", None, tok, None, env, columns[0]);
    assert HasColumn(columns, "DOC") by { assert columns[1].name == "DOC"; }
  }

  /** A word of capitals is read as one column. */
  lemma {:induction false} WordTokens(w: string)
    requires IsUpperWord(w)
    ensures Tokens(w) == [Id(Word(w))] && Trimmed(w) && ClearAlias(w)
  {
    WordKey(w);
    TokensWord(w, "");
    EmptyTokens();
    assert w + "" == w && [Id(Word(w))] + [] == [Id(Word(w))];
    hide Tokens, ReadToken;
    TrimOfTrimmed(w);
    assert ReadToken(w) == Some(Read(Word(w), "")) by { ReadPrinted(Word(w), ""); }
  }

  /** A word of capitals is its own key. */
  lemma {:induction false} WordKey(w: string)
    requires IsUpperWord(w)
    ensures IdentKey(w) == w && Upper(w) == w && ValidToken(Word(w)) && Trimmed(w)
  {
    TrimOfTrimmed(w);
    assert Upper(w) == w;
  }

  lemma {:induction false} TwinKeys()
    ensures IdentKey("doc") == "DOC" && IdentKey("DOC") == "DOC"
  {
    TrimOfTrimmed("doc");
    assert Upper("doc") == "DOC";
    WordKey("DOC");
  }

  lemma {:induction false} TwinTypes()
    ensures IsXmlType("XMLTYPE") && !IsXmlType("NUMBER")
  {
    hide IdentKey;
    WordKey("XMLTYPE");
    WordKey("NUMBER");
  }

  lemma {:induction false} TwinLookup(columns: seq<Column>)
    requires columns == [Column("doc", "XMLTYPE"), Column("DOC", "NUMBER")]
    ensures XmlLookup(columns, "DOC") == Some(columns[0]) && !IsXmlColumn(columns, "DOC")
  {
    hide IdentKey, IsXmlType;
    TwinTypes();
    TwinKeys();
    assert columns[..1] == [columns[0]] && [columns[0]][..0] == [];
    assert XmlLookup([columns[0]], "DOC") == Some(columns[0]);
  }
}
