/** Trailing blanks: the offset of the select list is taken from the end of the trimmed text, so each blank moves it one character on. */
module XmlShift {
  import opened Common
  import opened SqlText
  import opened SqlLexer
  import opened SqlScanners
  import opened SqlIdentifiers
  import opened SqlSegments
  import opened SqlLists
  import opened XmlRewrite
  import opened XmlReparse
  import opened XmlIdempotent
  import opened XmlMeaning
  import opened XmlLosses

  /** The parts found when the first n characters behind SELECT are taken for part of the head. */
  function ShiftedTo(p: Parts, n: nat, blanks: string, ref: TableRef): Parts
    requires n <= |p.prefix + p.list|
  {
    var body := p.prefix + p.list;
    var section := body[n..];
    var m := ModifierLength(section);
    Parts(p.head + body[..n], section[..m], section[m..], p.from + blanks, ref)
  }

  predicate AllBlank(s: string)
  {
    forall k :: 0 <= k < |s| ==> IsUniSpace(s[k])
  }

  /** Lexing from a cut that falls in code outside parentheses is lexing from the start of the list. */
  lemma {:induction false} SameRun(s: string, blanks: string, h: nat, start: nat, j: nat)
    requires h <= start <= j <= |s| && Run(false, START, s, h, start) == START
    ensures Run(false, START, s + blanks, start, j) == Run(false, START, s, h, j)
  {
    hide Run;
    var t := s + blanks;
    RunCompose(false, START, s, h, start, j);
    assert t[start..start + (j - start)] == s[start..start + (j - start)];
    RunShift(false, START, t, start, s, start, j - start);
  }

  lemma {:induction false} SameHit(s: string, blanks: string, h: nat, start: nat, k: nat)
    requires h <= start <= k && k + 4 <= |s| && Run(false, START, s, h, start) == START && AllBlank(blanks)
    ensures KeywordHit(s + blanks, start, k, "from") <==> KeywordHit(s, h, k, "from")
  {
    hide Run;
    var t := s + blanks;
    SameRun(s, blanks, h, start, k);
    SameRun(s, blanks, h, start, k + 1);
    SameWord(s, blanks, k);
  }

  lemma {:induction false} SameWord(s: string, blanks: string, k: nat)
    requires k + 4 <= |s| && AllBlank(blanks)
    ensures KeywordAt(s + blanks, k, "from") <==> KeywordAt(s, k, "from")
  {
    hide KeywordEq;
    var t := s + blanks;
    assert t[k..k + 4] == s[k..k + 4];
    if k + 4 < |s| {
      assert t[k + 4] == s[k + 4];
    } else if blanks != "" {
      assert t[k + 4] == blanks[0];
      BlankNoWord(blanks[0]);
    }
    assert k > 0 ==> t[k - 1] == s[k - 1];
  }

  lemma {:induction false} BlankNoWord(c: char)
    requires IsUniSpace(c)
    ensures !IsIdentPart(c)
  {
  }

  /** From such a cut the same FROM is found. */
  lemma {:induction false} SameFrom(s: string, blanks: string, h: nat, start: nat, at: nat)
    requires h <= start <= at && at + 4 <= |s| && Run(false, START, s, h, start) == START && AllBlank(blanks)
    requires FindKeyword(s, h, h, "from") == at
    ensures FindKeyword(s + blanks, start, start, "from") == at
  {
    hide Run, KeywordHit;
    SameHit(s, blanks, h, start, at);
    forall k | start <= k < at ensures !KeywordHit(s + blanks, start, k, "from") {
      SameHit(s, blanks, h, start, k);
    }
    FindKeywordUnique(s + blanks, start, "from", at);
  }

  /** Whatever is found behind trailing blanks has as many characters of the list in its head. */
  lemma {:induction false} ShiftedHead(s: string, blanks: string)
    requires NoTrailingSpace(s) && ParseSelect(s).Some? && AllBlank(blanks) && ParseSelect(s + blanks).Some?
    ensures var p := ParseSelect(s).value; ParseSelect(s + blanks).value.head == (s + blanks)[..|p.head| + |blanks|]
  {
    hide Run, ModifierLength, ParseTableRef, SelectListStart, FindKeyword, NoTrailingSpace, KeywordAt, IsUniSpace;
    PartsOf(s);
    FromLetter(ParseSelect(s).value.from, 0);
    TrailingBlanksShift(s, blanks);
  }

  lemma {:induction false} NoFromBeyond(a: string, b: string, start: nat)
    requires |a| < start <= |a + b| && forall k: nat :: k > 0 ==> !KeywordAt(b, k, "from")
    ensures FindKeyword(a + b, start, start, "from") == -1
  {
    hide KeywordAt, KeywordHit;
    var r := FindKeyword(a + b, start, start, "from");
    if r >= 0 {
      HitIsWord(a + b, start, r);
      WordInSuffix(a, b, r);
    }
  }

  /** With more blanks than the list has characters the only FROM is passed over: the statement is not recognized and comes back as it is. */
  lemma {:induction false} TrailingBlanksLoseSelect(s: string, blanks: string, load: Loader)
    requires NoTrailingSpace(s) && ParseSelect(s).Some? && AllBlank(blanks)
    requires var p := ParseSelect(s).value;
             |blanks| > |p.prefix| + |p.list| && forall k: nat :: k > 0 ==> !KeywordAt(p.from + blanks, k, "from")
    ensures ParseSelect(s + blanks) == None && RewriteDirect(s + blanks, load) == Ok(Outcome(s + blanks, false, false))
  {
    hide Run, KeywordAt, ModifierLength, ParseTableRef, AllBlank, SelectListStart, FindKeyword, NoTrailingSpace;
    PartsOf(s);
    var p := ParseSelect(s).value;
    FromLetter(p.from, 0);
    assert SelectListStart(s + blanks) == |p.head| + |blanks| by { BlankShift(s, blanks); }
    var a := p.head + p.prefix + p.list;
    assert s + blanks == a + (p.from + blanks);
    NoFromBeyond(a, p.from + blanks, |p.head| + |blanks|);
  }

  lemma {:induction false} BlankShift(s: string, blanks: string)
    requires s != "" && NoTrailingSpace(s) && SelectListStart(s) >= 0 && AllBlank(blanks)
    ensures SelectListStart(s + blanks) == SelectListStart(s) + |blanks|
  {
    hide SelectListStart, NoTrailingSpace, IsUniSpace;
    TrailingBlanksShift(s, blanks);
  }

  /** With at most as many blanks as the list is long, and a cut in code outside parentheses, the list begins in the middle of the original one. */
  lemma {:induction false} ShiftedParts(s: string, blanks: string)
    requires NoTrailingSpace(s) && ParseSelect(s).Some? && AllBlank(blanks)
    requires var p := ParseSelect(s).value;
             |blanks| <= |p.prefix + p.list| && Run(false, START, p.prefix + p.list, 0, |blanks|) == START
    ensures var p := ParseSelect(s).value;
            var ref := ParseTableRef(p.from[4..] + blanks);
            ParseSelect(s + blanks) == if ref.None? then None else Some(ShiftedTo(p, |blanks|, blanks, ref.value))
  {
    hide Run, ModifierLength, ParseTableRef, SelectListStart, FindKeyword, NoTrailingSpace, KeywordAt, IsUniSpace, ParseSelect;
    PartsOf(s);
    var p := ParseSelect(s).value;
    FromLetter(p.from, 0);
    TrailingBlanksShift(s, blanks);
    var t, n, h, body := s + blanks, |blanks|, |p.head|, p.prefix + p.list;
    var at := h + |body|;
    assert s == p.head + (body + p.from);
    assert Run(false, START, s, h, h + n) == START by {
      RunAtOffset(p.head, body + p.from, n);
      RunShortPrefix(START, body, p.from, n);
    }
    SameFrom(s, blanks, h, h + n, at);
    ShiftedSlices(p.head, body, p.from, blanks, n);
    ParseAt(t, h + n, at);
  }

  lemma {:induction false} ShiftedSlices(head: string, body: string, from: string, blanks: string, n: nat)
    requires n <= |body| && |from| >= 4
    ensures var t, h, at := head + (body + from) + blanks, |head|, |head| + |body|;
            t[..h + n] == head + body[..n] && t[h + n..at] == body[n..] && t[at..] == from + blanks && t[at + 4..] == from[4..] + blanks
  {
    var t := head + (body + from) + blanks;
    assert t == (head + body[..n]) + (body[n..] + (from[..4] + (from[4..] + blanks)));
  }

  lemma {:induction false} ParseAt(t: string, start: nat, at: nat)
    requires SelectListStart(t) == start && start <= at && at + 4 <= |t| && FindKeyword(t, start, start, "from") == at
    ensures var section, ref := t[start..at], ParseTableRef(t[at + 4..]);
            ParseSelect(t) == if ref.None? then None
                              else Some(Parts(t[..start], section[..ModifierLength(section)], section[ModifierLength(section)..], t[at..], ref.value))
  {
    hide SelectListStart, FindKeyword, ParseTableRef, ModifierLength;
  }

  /** A rewrite then keeps those characters in front of whatever it writes. */
  lemma {:induction false} ShiftedRewrite(s: string, blanks: string, load: Loader, columns: seq<Column>)
    requires NoTrailingSpace(s) && ParseSelect(s).Some? && AllBlank(blanks)
    requires var p := ParseSelect(s).value;
             |blanks| <= |p.prefix + p.list| && Run(false, START, p.prefix + p.list, 0, |blanks|) == START
    requires ParseSelect(s + blanks).Some? && load(ParseSelect(s + blanks).value.ref.schema, ParseSelect(s + blanks).value.ref.table) == Ok(columns)
    requires RewriteDirect(s + blanks, load).Ok? && RewriteDirect(s + blanks, load).value.changed
    ensures var p, q := ParseSelect(s).value, ParseSelect(s + blanks).value;
            RewriteDirect(s + blanks, load).value.text
            == p.head + (p.prefix + p.list)[..|blanks|] + (q.prefix + ListText(RewriteItems(SplitItems(q.list), columns, q.ref)) + p.from + blanks)
  {
    hide Run, ParseSelect, ModifierLength, ParseTableRef, SplitItems, MayReference, HasXmlType, AnyChanges, RewriteItems, NoTrailingSpace, IsUniSpace, Rebuild, ListText;
    ShiftedParts(s, blanks);
    var p, q := ParseSelect(s).value, ParseSelect(s + blanks).value;
    var items := RewriteItems(SplitItems(q.list), columns, q.ref);
    RebuildParts(q, items);
    var h, x, l := p.head + (p.prefix + p.list)[..|blanks|], q.prefix, ListText(items);
    assert h + (x + (l + (p.from + blanks))) == h + (x + l + p.from + blanks);
  }

  // ---- A statement that two blanks destroy ----

  const STATEMENT := "SELECT XDOC FROM T"
  const SERIALIZED := "XMLSERIALIZE(CONTENT " + "\"DOC\"" + " AS CLOB) AS " + "\"DOC\""
  const DESTROYED := "SELECT X" + SERIALIZED + " FROM T  "

  /** XDOC is a number and DOC an XMLTYPE. */
  const CATALOG := [Column("XDOC", "NUMBER"), Column("DOC", "XMLTYPE")]

  const PLAIN_PARTS := Parts("SELECT", " ", "XDOC ", "FROM T", TableRef("", "T", None))
  const CUT_PARTS := Parts("SELECT X", "", "DOC ", "FROM T  ", TableRef("", "T", None))

  lemma {:induction false} TableAlone(tail: string)
    requires AllSqlBlank(tail)
    ensures ParseTableRef(" T" + tail) == Some(TableRef("", "T", None))
  {
    var s := "T" + tail;
    assert (" T" + tail)[1..] == s && SkipSpace(" T" + tail) == s;
    WordKey("T");
    assert tail == "" || !IsIdentPart(tail[0]);
    ReadPrinted(Word("T"), tail);
    BlanksSkipped(tail);
  }

  predicate AllSqlBlank(s: string)
  {
    forall k :: 0 <= k < |s| ==> IsSqlSpace(s[k])
  }

  lemma {:induction false} BlanksSkipped(s: string)
    requires AllSqlBlank(s)
    ensures SkipSpace(s) == ""
  {
    if s != "" {
      BlanksSkipped(s[1..]);
    }
  }

  lemma {:induction false} NoModifier(section: string, lead: nat)
    requires lead < |section| && (forall k :: 0 <= k < lead ==> IsSqlSpace(section[k])) && lead == TrimSqlLeft(section, 0)
    requires !IsUniSpace(section[lead]) && (section[lead..] != "" ==> !StartsWithModifier(section[lead..]))
    ensures ModifierLength(section) == lead
  {
    hide StartsWithKeyword, KeywordEq, IsUniSpace;
    ModifierUntrimmed(section);
    NotModifier(section[lead..]);
  }

  lemma {:induction false} PlainStatement()
    ensures ParseSelect(STATEMENT) == Some(PLAIN_PARTS) && NoTrailingSpace(STATEMENT)
  {
    hide SelectListStart, FindKeyword, ModifierLength, ParseTableRef, NoTrailingSpace, ParseSelect;
    assert STATEMENT == "SELECT" + (" " + "XDOC " + "FROM T") && " " + "XDOC " == " XDOC ";
    StatementStart();
    StatementFrom();
    NoModifierPlain();
    assert "FROM T"[4..] == " T" + "";
    TableAlone("");
    PartsFound(PLAIN_PARTS);
  }

  lemma {:induction false} NoModifierPlain()
    ensures ModifierLength(" XDOC ") == 1
  {
    assert " XDOC "[1..] == "XDOC ";
    NoModifierByFirst("XDOC ");
    hide StartsWithModifier, ModifierLength;
    NoModifier(" XDOC ", 1);
  }

  lemma {:induction false} NoModifierCut()
    ensures ModifierLength("DOC ") == 0
  {
    assert "DOC "[0..] == "DOC ";
    NotDistinctDoc();
    hide StartsWithModifier, ModifierLength;
    NoModifier("DOC ", 0);
  }

  lemma {:induction false} StatementStart()
    ensures SelectListStart(STATEMENT) == 6 && NoTrailingSpace(STATEMENT)
  {
    hide SelectListStart, HeadPos;
    var s := STATEMENT;
    StatementHead();
    assert s[0..] == s && s[..6] == "SELECT";
    assert Upper("SELECT") == Upper("select");
    SelectByPosition(s);
  }

  lemma {:induction false} StatementHead()
    ensures HeadPos(STATEMENT, 0) == 0
  {
  }

  lemma {:induction false} StatementFrom()
    ensures FindKeyword(STATEMENT, 6, 6, "from") == 12
  {
    hide Run, FindKeyword, KeywordAt;
    var s := STATEMENT;
    RunPlain(START, s, 6, 12);
    RunPlain(START, s, 6, 13);
    StatementWord();
    forall k | 6 <= k < 12 ensures !KeywordHit(s, 6, k, "from") {
      if KeywordAt(s, k, "from") {
        FromLetter(s, k);
      }
    }
    hide KeywordHit;
    FindKeywordUnique(s, 6, "from", 12);
  }

  lemma {:induction false} StatementWord()
    ensures KeywordAt(STATEMENT, 12, "from")
  {
    assert STATEMENT[12..16] == "FROM" && Upper("FROM") == Upper("from");
  }

  lemma {:induction false} CutInCode()
    ensures Run(false, START, " XDOC ", 0, 2) == START
  {
    RunPlain(START, " XDOC ", 0, 2);
  }

  lemma {:induction false} CutStatement()
    ensures ParseSelect(STATEMENT + "  ") == Some(CUT_PARTS)
  {
    hide ParseSelect, ModifierLength, ParseTableRef, Run, NoTrailingSpace;
    PlainStatement();
    CutInCode();
    NoModifierCut();
    assert " " + "XDOC " == " XDOC " && " XDOC "[2..] == "DOC " && "SELECT" + " XDOC "[..2] == "SELECT X";
    assert "FROM T"[4..] + "  " == " T" + "  " && "FROM T" + "  " == "FROM T  ";
    TableAlone("  ");
    ShiftedParts(STATEMENT, "  ");
  }

  lemma {:induction false} NotDistinctDoc()
    ensures !StartsWithModifier("DOC ")
  {
    assert |"distinct"| == 8 && |"DOC "| == 4;
    OtherFirstLetter("DOC ", "all");
  }

  lemma {:induction false} OtherFirstLetter(s: string, keyword: string)
    requires keyword != "" && AllLetters(keyword) && s != "" && UpperChar(s[0]) != UpperChar(keyword[0])
    ensures !WordStarts(s, keyword)
  {
    if WordStarts(s, keyword) {
      KeywordLetters(s[..|keyword|], keyword);
    }
  }

  /** A list that is one word of capitals without an F. */
  lemma {:induction false} WordItems(w: string)
    requires IsUpperWord(w) && forall k :: 0 <= k < |w| ==> w[k] != 'F'
    ensures SplitItems(w + " ") == [w] && ParseStar(w).None? && ParseColumnItem(w) == Some(ColumnItem(None, Word(w), None))
  {
    hide Pieces, TrimAll, Tokens, ParseStar, ParseColumnItem, GoodItem, ClearAlias;
    WordIsGood(w);
    WordTokens(w);
    SplitOne("", w);
    assert "" + (w + " ") == w + " ";
    assert DropEmptyTail([w]) == [w];
    PlainShape(Word(w), []);
    assert [Id(Word(w))] + [] == [Id(Word(w))];
    ColumnParseAgrees(w);
    StarParseAgrees(w);
  }

  lemma {:induction false} WordIsGood(w: string)
    requires IsUpperWord(w) && forall k :: 0 <= k < |w| ==> w[k] != 'F'
    ensures GoodItem(w)
  {
    hide KeywordHit, Run;
    SolidPlain(w);
  }

  lemma {:induction false} CatalogLookup()
    ensures XmlLookup(CATALOG, "DOC") == Some(CATALOG[1]) && HasXmlType(CATALOG)
    ensures XmlLookup(CATALOG, "XDOC") == None
  {
    hide IdentKey, IsXmlType;
    TwinTypes();
    WordKey("DOC");
    WordKey("XDOC");
    assert IsXmlType(CATALOG[1].dataType);
    assert CATALOG[..1] == [CATALOG[0]] && [CATALOG[0]][..0] == [];
    assert XmlLookup([CATALOG[0]], "XDOC") == None;
  }

  lemma {:induction false} DocQuoted()
    ensures QuoteIdentifier("DOC") == "\"DOC\""
  {
    assert "DOC"[1..] == "OC" && "OC"[1..] == "C" && "C"[1..] == "";
    assert EscapeQuotes("C") == "C" && EscapeQuotes("OC") == "OC" && EscapeQuotes("DOC") == "DOC";
  }

  lemma {:induction false} CutSerialized(ref: TableRef)
    requires ref == TableRef("", "T", None)
    ensures IsXmlItem("DOC", CATALOG, ref) && !IsStarOf("DOC", ref) && SerializeItem("DOC", CATALOG, ref) == SERIALIZED
  {
    hide XmlLookup, ParseStar, ParseColumnItem, IdentKey, QuoteIdentifier, HasXmlType, SplitItems;
    WordItems("DOC");
    WordKey("DOC");
    CatalogLookup();
    DocQuoted();
  }

  lemma {:induction false} CutRewritten(ref: TableRef)
    requires ref == TableRef("", "T", None)
    ensures ItemChanges("DOC", CATALOG, ref) && RewriteItems(["DOC"], CATALOG, ref) == [SERIALIZED]
  {
    hide IsXmlItem, IsStarOf, SerializeItem;
    CutSerialized(ref);
    assert ["DOC"][..0] == [] && RewriteItems([], CATALOG, ref) == [];
    assert RewriteItem("DOC", CATALOG, ref) == [SERIALIZED];
    assert [] + [SERIALIZED] == [SERIALIZED];
  }

  /** Two trailing blanks turn a statement the rewrite would leave alone into one that names no column. */
  lemma {:induction false} TrailingBlanksDestroy(load: Loader)
    requires load("", "T") == Ok(CATALOG)
    ensures RewriteDirect(STATEMENT, load) == Ok(Outcome(STATEMENT, false, true))
    ensures RewriteDirect(STATEMENT + "  ", load) == Ok(Outcome(DESTROYED, true, true))
  {
    hide RewriteDirect, ParseSelect;
    LeftAlone(load);
    CutStatement();
    CutChanges();
    Rewrites(STATEMENT + "  ", load, CUT_PARTS, ["DOC"], CATALOG, [SERIALIZED]);
    DestroyedText();
  }

  /** The direct rewrite on a statement whose parts, items and new items are known. */
  lemma {:induction false} Rewrites(sql: string, load: Loader, p: Parts, items: seq<string>, columns: seq<Column>, news: seq<string>)
    requires ParseSelect(sql) == Some(p) && SplitItems(p.list) == items && items != [] && MayReference(items)
    requires load(p.ref.schema, p.ref.table) == Ok(columns) && HasXmlType(columns) && AnyChanges(items, columns, p.ref)
    requires RewriteItems(items, columns, p.ref) == news
    ensures RewriteDirect(sql, load) == Ok(Outcome(Rebuild(p, news), true, true))
  {
    hide ParseSelect, SplitItems, MayReference, HasXmlType, AnyChanges, RewriteItems, Rebuild;
  }

  lemma {:induction false} CutChanges()
    ensures SplitItems(CUT_PARTS.list) == ["DOC"] && MayReference(["DOC"]) && HasXmlType(CATALOG)
    ensures AnyChanges(["DOC"], CATALOG, CUT_PARTS.ref) && RewriteItems(["DOC"], CATALOG, CUT_PARTS.ref) == [SERIALIZED]
  {
    hide SplitItems, MayReference, HasXmlType, AnyChanges, RewriteItems, ItemChanges, ParseStar, ParseColumnItem, XmlLookup;
    WordItems("DOC");
    assert "DOC" + " " == "DOC ";
    CatalogLookup();
    CutRewritten(CUT_PARTS.ref);
    OneReference("DOC");
    OneChange("DOC", CATALOG, CUT_PARTS.ref);
  }

  lemma {:induction false} DestroyedText()
    ensures Rebuild(CUT_PARTS, [SERIALIZED]) == DESTROYED
  {
    assert Join([SERIALIZED], ", ") == SERIALIZED;
    var item := SERIALIZED;
    assert "SELECT X" + "" + item + " " + "FROM T  " == "SELECT X" + item + " FROM T  ";
  }

  lemma {:induction false} LeftAlone(load: Loader)
    requires load("", "T") == Ok(CATALOG)
    ensures RewriteDirect(STATEMENT, load) == Ok(Outcome(STATEMENT, false, true))
  {
    hide ParseSelect, SplitItems, MayReference, HasXmlType, RewriteItems, ParseStar, ParseColumnItem, XmlLookup, IdentKey;
    PlainStatement();
    WordItems("XDOC");
    assert "XDOC" + " " == "XDOC ";
    WordKey("XDOC");
    CatalogLookup();
    OneReference("XDOC");
    assert !ItemChanges("XDOC", CATALOG, PLAIN_PARTS.ref);
  }

  lemma {:induction false} OneReference(item: string)
    requires ParseColumnItem(item).Some?
    ensures MayReference([item])
  {
    hide ParseColumnItem, ParseStar;
    assert ParseColumnItem([item][0]).Some?;
  }

  lemma {:induction false} OneChange(item: string, columns: seq<Column>, ref: TableRef)
    requires ItemChanges(item, columns, ref)
    ensures AnyChanges([item], columns, ref)
  {
    hide ItemChanges;
    assert ItemChanges([item][0], columns, ref);
  }
}
