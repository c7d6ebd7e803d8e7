/** What the rewrite must do: the modifier it steps over, when it fails, and the nested SELECTs it must reach. */
module XmlComplete {
  import opened Common
  import opened SqlText
  import opened SqlLexer
  import opened SqlScanners
  import opened SqlIdentifiers
  import opened SqlLists
  import opened XmlRewrite
  import opened XmlReparse
  import opened XmlIdempotent
  import opened XmlMeaning
  import opened XmlTable
  import opened XmlNested

  // ---- DISTINCT and ALL ----

  predicate StartsWithWord(ts: seq<Tok>, word: string)
  {
    ts != [] && ts[0].Id? && StartsJoin(ts[0].tok, word)
  }

  /** Nothing but the one word. */
  predicate OnlyWord(ts: seq<Tok>, word: string)
  {
    |ts| == 1 && IsWord(ts[0], word)
  }

  lemma {:induction false} SkipLead(s: string, lead: nat)
    requires lead <= |s| && (forall k :: 0 <= k < lead ==> IsSqlSpace(s[k])) && (lead < |s| ==> !IsSqlSpace(s[lead]))
    ensures SkipSpace(s) == s[lead..]
    decreases lead
  {
    if lead > 0 {
      SkipLead(s[1..], lead - 1);
      assert s[1..][lead - 1..] == s[lead..];
    } else {
      assert s[0..] == s;
    }
  }

  /** Blanks, a word, and blanks make one token. */
  lemma {:induction false} PaddedWord(s: string, lead: nat, end: nat, word: string)
    requires lead < end <= |s| && KeywordEq(s[lead..end], word) && AllLetters(word)
    requires forall k :: 0 <= k < lead || end <= k < |s| ==> IsSqlSpace(s[k])
    ensures OnlyWord(Tokens(s), Upper(word))
  {
    hide Tokens, ReadAt;
    var w, b := s[lead..end], s[end..];
    KeywordLetters(w, word);
    assert s[lead] == w[0];
    SkipLead(s, lead);
    assert s[lead..] == w + b;
    var tok := Token(Upper(w), w, false);
    assert ValidToken(tok);
    assert forall k :: 0 <= k < |b| ==> b[k] == s[end + k];
    TokensPrinted(tok, b);
    SkipLead(b, |b|);
    TokensOf(b);
    TokensOf(s);
    TokensOf(w + b);
  }

  lemma {:induction false} WordAhead(rest: string, keyword: string)
    requires rest != "" && !IsUniSpace(rest[0]) && keyword != "" && AllLetters(keyword)
    ensures StartsWithKeyword(rest, keyword) <==> StartsWithWord(Tokens(rest), Upper(keyword))
    ensures StartsWithKeyword(rest, keyword) ==> |keyword| <= |rest| && KeywordEq(rest[..|keyword|], keyword)
  {
    hide Tokens, ReadAt, StartsWithKeyword, IsUniSpace, KeywordEq, StartsJoin;
    InkFirst(rest);
    FirstToken(rest);
    StartsUntrimmed(rest, keyword);
    KeywordIs(rest, keyword);
  }

  /**
   The part split off the select list is the word DISTINCT, the word ALL, or nothing, with the blanks around it;
   it is one of the words exactly when the list's first token is that word or goes on from it with a number sign.
   */
  lemma {:induction false} ModifierExactly(section: string)
    requires PlainBlanks(section)
    ensures var n, ts := ModifierLength(section), Tokens(section);
            && SkipSpace(section[n..]) == section[n..]
            && if StartsWithWord(ts, "DISTINCT") then OnlyWord(Tokens(section[..n]), "DISTINCT")
               else if StartsWithWord(ts, "ALL") then OnlyWord(Tokens(section[..n]), "ALL")
               else Tokens(section[..n]) == []
  {
    hide Tokens, StartsWithKeyword, IsUniSpace, StartsWithWord, OnlyWord, ReadAt;
    var lead, n := TrimSqlLeft(section, 0), ModifierLength(section);
    SkipLead(section, lead);
    TokensOf(section);
    assert n < |section| ==> !IsSqlSpace(section[n]);
    SkipLead(section[n..], 0);
    assert Upper("distinct") == "DISTINCT" && Upper("all") == "ALL";
    var rest := section[lead..];
    if rest == "" {
      NothingStarts();
      NoKeywordInNothing();
      BlankTokens(section[..n]);
    } else {
      WordAhead(rest, "distinct");
      WordAhead(rest, "all");
      TokensOf(rest);
      SkipTwice(section);
      ModifierPrefix(section, lead, n);
    }
  }

  lemma {:induction false} ModifierPrefix(section: string, lead: nat, n: nat)
    requires lead == TrimSqlLeft(section, 0) < |section| && n == ModifierLength(section)
    requires var rest := section[lead..];
             && (StartsWithKeyword(rest, "distinct") ==> 8 <= |rest| && KeywordEq(rest[..8], "distinct"))
             && (StartsWithKeyword(rest, "all") ==> 3 <= |rest| && KeywordEq(rest[..3], "all"))
    ensures var rest := section[lead..];
            if StartsWithKeyword(rest, "distinct") then OnlyWord(Tokens(section[..n]), Upper("distinct"))
            else if StartsWithKeyword(rest, "all") then OnlyWord(Tokens(section[..n]), Upper("all"))
            else Tokens(section[..n]) == []
  {
    hide Tokens, StartsWithKeyword, KeywordEq, OnlyWord;
    var rest, prefix := section[lead..], section[..n];
    assert forall k :: 0 <= k < |prefix| ==> prefix[k] == section[k];
    assert forall k :: 0 <= k < lead ==> IsSqlSpace(section[k]);
    if StartsWithKeyword(rest, "distinct") {
      assert prefix[lead..lead + 8] == rest[..8];
      PaddedWord(prefix, lead, lead + 8, "distinct");
    } else if StartsWithKeyword(rest, "all") {
      assert prefix[lead..lead + 3] == rest[..3];
      PaddedWord(prefix, lead, lead + 3, "all");
    } else {
      BlankTokens(prefix);
    }
  }

  lemma {:induction false} BlankTokens(s: string)
    requires forall k :: 0 <= k < |s| ==> IsSqlSpace(s[k])
    ensures Tokens(s) == []
  {
    SkipLead(s, |s|);
    TokensOf(s);
  }

  lemma {:induction false} NothingStarts()
    ensures !StartsWithWord(Tokens(""), "DISTINCT") && !StartsWithWord(Tokens(""), "ALL")
  {
    EmptyTokens();
  }

  lemma {:induction false} NoKeywordInNothing()
    ensures !StartsWithKeyword("", "distinct") && !StartsWithKeyword("", "all")
  {
  }

  // ---- Qualifiers and types ----

  /** A qualifier picks the table exactly when its name is the alias's or the table's up to case and blanks around it. */
  lemma {:induction false} QualifierExactly(q: Option<Token>, ref: TableRef)
    requires UsableAsPrefix(q)
    ensures QualifierMatches(q, ref) <==>
              || q.None?
              || (ref.alias.Some? && ref.alias.value.name != "" && IdentKey(q.value.name) == IdentKey(ref.alias.value.name))
              || IdentKey(q.value.name) == IdentKey(ref.table)
  {
    hide ValidToken, IdentKey, UnquoteText, TrimSpace;
    if q.Some? {
      TokenTextTrimmed(q.value);
      UnquoteIsName(q.value);
    }
  }

  /** The type names are XMLTYPE and SYS.XMLTYPE, in any case and with blanks around them. */
  lemma {:induction false} XmlTypeExactly(before: string, name: string, after: string)
    requires AllSqlBlanks(before) && AllSqlBlanks(after) && name != "" && Trimmed(name)
    ensures IsXmlType(before + name + after) <==> Upper(name) == "XMLTYPE" || Upper(name) == "SYS.XMLTYPE"
  {
    var s := before + name + after;
    TrimmedBetween(before, name, after);
  }

  predicate AllSqlBlanks(s: string)
  {
    forall k :: 0 <= k < |s| ==> IsSqlSpace(s[k])
  }

  lemma {:induction false} TrimmedBetween(before: string, name: string, after: string)
    requires AllSqlBlanks(before) && AllSqlBlanks(after) && name != "" && Trimmed(name)
    ensures TrimSpace(before + name + after) == name
  {
    var s, lo, hi := before + name + after, |before|, |before| + |name|;
    assert forall k :: 0 <= k < lo ==> s[k] == before[k];
    assert forall k :: hi <= k < |s| ==> s[k] == after[k - hi];
    assert s[lo] == name[0] && s[hi - 1] == name[|name| - 1];
    assert TrimLo(s) == lo && TrimHi(s) == hi;
    assert s[lo..hi] == name;
  }

  // ---- Which statements are taken up, and when the rewrite fails ----

  /** A SELECT with a FROM at depth 0 is taken up exactly when the tokens behind FROM name one table. */
  lemma {:induction false} RecognizedExactly(sql: string, start: nat, at: nat)
    requires SelectListStart(sql) == start && FindKeyword(sql, start, start, "from") == at
    ensures at + 4 <= |sql| && (ParseSelect(sql).Some? <==> NamedTable(Tokens(sql[at + 4..])).Some?)
    ensures ParseSelect(sql).Some? ==> ParseSelect(sql).value.ref == NamedTable(Tokens(sql[at + 4..])).value
  {
    hide SelectListStart, ModifierLength, NamedTable, Tokens, ParseTableRef, CodeAt, Run, DepthAt;
    assert KeywordAt(sql, at, "from");
    TableIs(sql[at + 4..]);
  }

  lemma {:induction false} NotRecognized(sql: string)
    requires SelectListStart(sql) < 0 || FindKeyword(sql, SelectListStart(sql), SelectListStart(sql), "from") < 0
    ensures ParseSelect(sql).None?
  {
    hide SelectListStart, FindKeyword;
  }

  /** An item that names a column or a star, of whatever table. */
  predicate Names(item: string)
  {
    ShapeOf(Tokens(item)).Star? || ShapeOf(Tokens(item)).Col?
  }

  /** The rewrite fails exactly with the error of the catalog, and asks it only when some item names a column or a star. */
  lemma {:induction false} FailsExactly(sql: string, load: Loader)
    requires ParseSelect(sql).Some?
    requires forall item :: item in SplitItems(ParseSelect(sql).value.list) ==> Trimmed(item) && ClearAlias(item)
    ensures var p := ParseSelect(sql).value;
            var ref, items := NamedTable(Tokens(p.from[4..])), SplitItems(p.list);
            && ref.Some?
            && RewriteDirect(sql, load).Err? == (load(ref.value.schema, ref.value.table).Err? && exists i :: 0 <= i < |items| && Names(items[i]))
            && (RewriteDirect(sql, load).Err? ==> RewriteDirect(sql, load).error == load(ref.value.schema, ref.value.table).error)
  {
    hide ParseSelect, SplitItems, NamedTable, Tokens, ShapeOf, ParseStar, ParseColumnItem, ClearAlias, Trimmed, HasXmlType, AnyChanges, RewriteItems, Rebuild;
    ParsedTable(sql);
    var items := SplitItems(ParseSelect(sql).value.list);
    forall i | 0 <= i < |items| ensures Names(items[i]) <==> ParseStar(items[i]).Some? || ParseColumnItem(items[i]).Some? {
      assert items[i] in items;
      StarParseAgrees(items[i]);
      ColumnParseAgrees(items[i]);
    }
  }

  // ---- Nested SELECTs ----

  /** A text without trailing blanks is a SELECT exactly when that word stands behind its leading blanks and comments. */
  lemma {:induction false} IsSelectExactly(sql: string)
    requires NoTrailingSpace(sql)
    ensures IsSelect(sql) <==> WordStarts(sql[HeadPos(sql, 0)..], "select")
  {
    hide HeadPos, WordStarts, NoTrailingSpace, TrimLeadingComments, StartsWithKeyword;
    SelectByPosition(sql);
  }

  /** Down to depth 8 the direct rewrite of a statement it covers is the rewrite; below that nothing is touched. */
  lemma {:induction false} DepthExactly(sql: string, load: Loader, depth: nat)
    requires RewriteDirect(sql, load).Err? || RewriteDirect(sql, load).value.handled
    ensures depth > 8 ==> RewriteText(sql, load, depth) == Ok(Rewritten(sql, false))
    ensures depth <= 8 ==> RewriteText(sql, load, depth) == match RewriteDirect(sql, load)
                                                            case Err(e) => Err(e)
                                                            case Ok(o) => Ok(Rewritten(o.text, o.changed))
  {
    hide RewriteDirect, ScanEdits;
  }

  /** No code parenthesis that opens from `from` on and before p is still open there. */
  predicate Outermost(sql: string, from: nat, p: nat)
    requires p <= |sql|
  {
    forall q :: from <= q < p && sql[q] == '(' && CodeAt(false, sql, 0, q) ==> MatchParen(sql, q, q + 1) < p
  }

  /** Every outermost parenthesis around a SELECT that its own rewrite changes is among the edits. */
  lemma {:induction false} EditsCover(sql: string, load: Loader, depth: nat, pos: nat, p: nat)
    requires pos <= p < |sql| && sql[p] == '(' && CodeAt(false, sql, 0, p) && Outermost(sql, pos, p)
    requires ScanEdits(sql, load, depth, pos).Ok? && ScanEdits(sql, load, depth, pos).value.Edits?
    ensures var close := MatchParen(sql, p, p + 1);
            && close > p
            && var inner := sql[p + 1..close];
            IsSelect(inner) && RewriteText(inner, load, depth + 1).Ok? && RewriteText(inner, load, depth + 1).value.changed
            ==> Edit(p, close, RewriteText(inner, load, depth + 1).value.text) in ScanEdits(sql, load, depth, pos).value.edits
    decreases p - pos
  {
    hide CodeAt, MatchParen, IsSelect, RewriteText;
    if pos < p {
      if sql[pos] != '(' || !CodeAt(false, sql, 0, pos) {
        EditsCover(sql, load, depth, pos + 1, p);
      } else {
        var close := MatchParen(sql, pos, pos + 1);
        EditsCover(sql, load, depth, close + 1, p);
      }
    }
  }

  /** A nested SELECT that shows an XMLTYPE column of the table it names is rewritten, at every depth down to 8. */
  lemma {:induction false} NestedXmlEdited(sql: string, load: Loader, depth: nat, p: nat, env: Env)
    requires depth < 8 && p < |sql| && sql[p] == '(' && CodeAt(false, sql, 0, p) && Outermost(sql, 0, p) && MatchParen(sql, p, p + 1) > p
    requires ParseSelect(sql).None? && ScanEdits(sql, load, depth, 0).Ok? && ScanEdits(sql, load, depth, 0).value.Edits?
    requires var inner := sql[p + 1..MatchParen(sql, p, p + 1)];
             && ParseSelect(inner).Some? && EnvOf(ParseSelect(inner).value, load, env)
             && UniqueKeys(env.columns) && NamedAlias(env.ref) && ItemsReadable(SplitItems(ParseSelect(inner).value.list), env)
             && exists i :: 0 <= i < |SplitItems(ParseSelect(inner).value.list)| && ShowsXml(SplitItems(ParseSelect(inner).value.list)[i], env)
    ensures var close, es := MatchParen(sql, p, p + 1), ScanEdits(sql, load, depth, 0).value.edits;
            && RewriteDirect(sql[p + 1..close], load).Ok? && RewriteDirect(sql[p + 1..close], load).value.changed
            && Edit(p, close, RewriteDirect(sql[p + 1..close], load).value.text) in es
            && RewriteText(sql, load, depth) == Ok(Rewritten(ApplyEdits(sql, es, 0), true))
  {
    hide CodeAt, MatchParen, ParseSelect, SplitItems, EnvOf, UniqueKeys, ItemsReadable, ShowsXml, ScanEdits, ApplyEdits, IsSelect;
    var inner := sql[p + 1..MatchParen(sql, p, p + 1)];
    assert !RewriteDirect(sql, load).value.handled;
    ChangesExactly(inner, load, env);
    hide RewriteDirect;
    DepthExactly(inner, load, depth + 1);
    assert IsSelect(inner) by { SelectOf(inner); }
    hide Outermost;
    EditsCover(sql, load, depth, 0, p);
  }

  lemma {:induction false} SelectOf(sql: string)
    requires ParseSelect(sql).Some?
    ensures IsSelect(sql)
  {
    hide FindKeyword, ModifierLength, ParseTableRef, TrimLeadingComments, StartsWithKeyword;
  }
}
