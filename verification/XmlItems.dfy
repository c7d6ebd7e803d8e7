/** The items the rewrite keeps and the ones it writes, as fragments of a select list. */
module XmlItems {
  import opened SqlText
  import opened SqlLexer
  import opened SqlScanners
  import opened SqlSegments
  import opened SqlLists
  import opened XmlRewrite
  import opened XmlReparse

  // ---- Items of the original list ----

  /** Where the list begins, no word runs on from the head. */
  lemma {:induction false} ListStartsFresh(sql: string)
    requires ParseSelect(sql).Some? && Regular(sql, ParseSelect(sql).value)
    ensures var p := ParseSelect(sql).value;
            p.head != "" && (p.list != "" && IsIdentPart((p.head + p.prefix)[|p.head + p.prefix| - 1]) ==> !WordChar(p.list[0]))
  {
    hide Run, KeywordAt, ParseTableRef, SelectListStart, ParseSelect, TrimSqlLeft, KeywordEq, StartsWithKeyword, ModifierLength;
    var p := ParseSelect(sql).value;
    PartsOf(sql);
    HeadEndsInLetter(sql);
    var h := p.head + p.prefix;
    var section := p.prefix + p.list;
    ModifierUntrimmed(section);
    if p.list != "" && IsIdentPart(h[|h| - 1]) {
      if p.prefix == "" {
        assert sql[|p.head|] == p.list[0];
      } else {
        var n := |p.prefix|;
        assert section[n - 1] == h[|h| - 1] && section[n] == p.list[0];
        AfterModifier(section, n);
      }
    }
  }

  lemma {:induction false} AfterModifier(section: string, n: nat)
    requires PlainBlanks(section) && n == ModifierLength(section) && 0 < n < |section| && !IsSqlSpace(section[n - 1])
    ensures !WordChar(section[n])
  {
    hide KeywordEq, StartsWithKeyword;
    ModifierUntrimmed(section);
    var lead := TrimSqlLeft(section, 0);
    var rest := section[lead..];
    if WordStarts(rest, "distinct") {
      assert rest[8] == section[lead + 8];
    } else {
      assert WordStarts(rest, "all");
      assert rest[3] == section[lead + 3];
    }
  }

  /** The list ends in code at depth zero and holds no FROM of its own. */
  lemma {:induction false} ListFacts(sql: string)
    requires ParseSelect(sql).Some? && Regular(sql, ParseSelect(sql).value)
    ensures var p := ParseSelect(sql).value; InCode(Final(p.list).mode) && Final(p.list).depth == 0 && NoTopFrom(p.list)
  {
    hide Run, KeywordAt, ParseTableRef, SelectListStart, ParseSelect, ModifierLength, Regular, FindKeyword;
    var p := ParseSelect(sql).value;
    PartsOf(sql);
    ListStartsFresh(sql);
    var h, n, l := |p.head|, |p.prefix|, |p.list|;
    var tail := p.prefix + p.list + p.from;
    PrefixNeutral(sql);
    RunAtOffset(p.head, tail, n + l);
    assert tail == p.prefix + (p.list + p.from);
    RunSecond(p.prefix, p.list + p.from, l);
    RunShortPrefix(START, p.list, p.from, l);
    FromEndsList(sql, h + n + l);
    forall k | 0 <= k < l ensures !KeywordHit(p.list, 0, k, "from") {
      if KeywordHit(p.list, 0, k, "from") {
        HitOfList(sql, k);
      }
    }
  }

  lemma {:induction false} HitOfList(sql: string, k: nat)
    requires ParseSelect(sql).Some? && Regular(sql, ParseSelect(sql).value)
    requires k < |ParseSelect(sql).value.list| && KeywordHit(ParseSelect(sql).value.list, 0, k, "from")
    ensures var p := ParseSelect(sql).value;
            var at := |p.head| + |p.prefix| + k;
            at < |sql| && KeywordHit(sql, |p.head|, at, "from")
  {
    hide Run, KeywordAt, ParseTableRef, SelectListStart, ParseSelect, ModifierLength, Regular, FindKeyword;
    var p := ParseSelect(sql).value;
    PartsOf(sql);
    PrefixNeutral(sql);
    WordOfList(sql, k);
    var n := |p.prefix|;
    var rest := p.list + p.from;
    var tail := p.prefix + p.list + p.from;
    assert tail == p.prefix + rest;
    RunAtOffset(p.head, tail, n + k);
    RunAtOffset(p.head, tail, n + k + 1);
    RunSecond(p.prefix, rest, k);
    RunSecond(p.prefix, rest, k + 1);
    RunShortPrefix(START, p.list, p.from, k);
    RunShortPrefix(START, p.list, p.from, k + 1);
  }

  lemma {:induction false} FromEndsList(sql: string, from: nat)
    requires ParseSelect(sql).Some?
    requires var p := ParseSelect(sql).value; from == |p.head| + |p.prefix| + |p.list|
    ensures var h := |ParseSelect(sql).value.head|;
            && h <= from < |sql| && KeywordHit(sql, h, from, "from")
            && forall k :: h <= k < from ==> !KeywordHit(sql, h, k, "from")
  {
    hide Run, KeywordAt, ParseTableRef, SelectListStart, ParseSelect, ModifierLength;
    PartsOf(sql);
  }

  lemma {:induction false} PrefixNeutral(sql: string)
    requires ParseSelect(sql).Some? && Regular(sql, ParseSelect(sql).value)
    ensures Final(ParseSelect(sql).value.prefix) == START
  {
    hide KeywordAt, ParseTableRef, SelectListStart, ParseSelect, ModifierLength;
    var p := ParseSelect(sql).value;
    PartsOf(sql);
    var section := p.prefix + p.list;
    forall k | 0 <= k < |p.prefix| ensures IsPlain(p.prefix[k]) {
      PrefixPlain(section, k);
      assert section[k] == p.prefix[k];
    }
    RunPlain(START, p.prefix, 0, |p.prefix|);
  }

  /** A word FROM inside the list would also be one in the statement. */
  lemma {:induction false} WordOfList(sql: string, k: nat)
    requires ParseSelect(sql).Some? && Regular(sql, ParseSelect(sql).value)
    requires KeywordAt(ParseSelect(sql).value.list, k, "from")
    ensures var p := ParseSelect(sql).value; KeywordAt(sql, |p.head| + |p.prefix| + k, "from")
  {
    hide Run, ParseTableRef, SelectListStart, ParseSelect, ModifierLength, FindKeyword, KeywordAt, IsUniSpace, Regular, WordChar;
    var p := ParseSelect(sql).value;
    var o, l := |p.head| + |p.prefix|, |p.list|;
    ListApart(sql);
    FromEndsList(sql, o + l);
    assert KeywordHit(sql, |p.head|, o + l, "from");
    WordInside(sql, o, l, k);
  }

  /** No word runs from what stands before the list into it. */
  lemma {:induction false} ListApart(sql: string)
    requires ParseSelect(sql).Some? && Regular(sql, ParseSelect(sql).value)
    ensures var p := ParseSelect(sql).value;
            var o, l := |p.head| + |p.prefix|, |p.list|;
            && o + l < |sql| && sql[o..o + l] == p.list
            && (o > 0 && IsIdentPart(sql[o - 1]) ==> l == 0 || !WordChar(p.list[0]))
  {
    hide Run, ParseTableRef, SelectListStart, ParseSelect, ModifierLength, FindKeyword, KeywordAt, IsUniSpace, Regular, WordChar;
    var p := ParseSelect(sql).value;
    PartsOf(sql);
    ListStartsFresh(sql);
    var o, l := |p.head| + |p.prefix|, |p.list|;
    FromEndsList(sql, o + l);
    assert sql[o..o + l] == p.list;
    assert o > 0 ==> sql[o - 1] == (p.head + p.prefix)[o - 1];
  }

  lemma {:induction false} WordInside(s: string, o: nat, l: nat, k: nat)
    requires o + l < |s| && KeywordAt(s[o..o + l], k, "from") && KeywordAt(s, o + l, "from")
    requires o > 0 && IsIdentPart(s[o - 1]) ==> l == 0 || !WordChar(s[o..o + l][0])
    ensures KeywordAt(s, o + k, "from")
  {
    var t := s[o..o + l];
    FromLetter(t, k);
    assert t[k..k + 4] == s[o + k..o + k + 4];
    assert s[o + l - 1] == t[l - 1];
    assert k + 4 < l;
    assert t[k + 4] == s[o + k + 4];
    if k > 0 {
      assert t[k - 1] == s[o + k - 1];
    }
  }

  /** Every item the rewrite reads is a good fragment, unless a line comment ends it. */
  lemma {:induction false} OriginalItemGood(sql: string, i: nat)
    requires ParseSelect(sql).Some? && Regular(sql, ParseSelect(sql).value)
    requires i < |SplitItems(ParseSelect(sql).value.list)|
    ensures var item := SplitItems(ParseSelect(sql).value.list)[i]; Trimmed(item) && (GoodItem(item) || Final(item).mode.Line?)
  {
    hide Run, KeywordAt, ParseSelect, Regular, Pieces, NoTopComma, NoTopFrom, TrimSpace;
    var list := ParseSelect(sql).value.list;
    ListFacts(sql);
    ItemFacts(list, i);
  }
}
