/**
 Re-lexing the rewrite's own output: the rebuilt statement parses into the same head, modifier,
 FROM part and table, with exactly the rebuilt items as its select list.
 */
module XmlReparse {
  import opened Common
  import opened SqlText
  import opened SqlLexer
  import opened SqlScanners
  import opened SqlSegments
  import opened SqlLists
  import opened XmlRewrite

  // ---- The statement's head ----

  predicate NoTrailingSpace(s: string)
  {
    s != "" ==> !IsUniSpace(s[|s| - 1])
  }

  lemma {:induction false} TrimSuffix(s: string, i: nat)
    requires i <= |s| && NoTrailingSpace(s)
    ensures TrimSpace(s[i..]) == s[LeadEdge(s, i)..]
  {
    hide IsUniSpace;
    var u := s[i..];
    var lo := LeadEdge(s, i);
    assert forall k :: 0 <= k < |u| ==> u[k] == s[i + k];
    assert TrimLo(u) == lo - i;
    assert TrimHi(u) == |u|;
    assert u[lo - i..|u|] == s[lo..];
  }

  /** End of the comment that begins at i, i itself if there is none there, |s| if it never ends. */
  function CommentEnd(s: string, i: nat): (r: nat)
    requires i <= |s|
    ensures i <= r <= |s|
  {
    if i + 1 < |s| && s[i] == '-' && s[i + 1] == '-' then
      var e := FindLineEnd(s, i);
      if e == |s| then |s| else e + 1
    else if i + 1 < |s| && s[i] == '/' && s[i + 1] == '*' then
      var e := FindCommentEnd(s, i + 2);
      if e == |s| then |s| else e + 2
    else i
  }

  /** Position of the first text after the blanks and comments at i. */
  function HeadPos(s: string, i: nat): (r: nat)
    requires i <= |s|
    ensures i <= r <= |s|
    decreases |s| - i
  {
    var lo := LeadEdge(s, i);
    var e := CommentEnd(s, lo);
    if e == lo then lo else HeadPos(s, e)
  }

  lemma {:induction false} CommentLengthAt(s: string, i: nat)
    requires i <= |s|
    ensures LeadingCommentLength(s[i..]) == CommentEnd(s, i) - i
  {
    var u := s[i..];
    assert forall k :: 0 <= k < |u| ==> u[k] == s[i + k];
    if "--" <= u {
      assert u[0] == "--"[0] && u[1] == "--"[1];
      LineEndShift(s, i);
    } else if "/*" <= u {
      assert u[0] == "/*"[0] && u[1] == "/*"[1];
      CommentEndShift(s, i);
    }
  }

  lemma {:induction false} LineEndShift(s: string, i: nat)
    requires i <= |s|
    ensures FindLineEnd(s[i..], 0) == FindLineEnd(s, i) - i
  {
    var u := s[i..];
    assert forall k :: 0 <= k < |u| ==> u[k] == s[i + k];
    var e, f := FindLineEnd(u, 0), FindLineEnd(s, i);
    assert e < |u| ==> u[e] == s[i + e];
    assert f < |s| ==> s[f] == u[f - i];
  }

  lemma {:induction false} CommentEndShift(s: string, i: nat)
    requires i + 2 <= |s|
    ensures FindCommentEnd(s[i..], 2) == FindCommentEnd(s, i + 2) - i
  {
    var u := s[i..];
    assert forall k :: 0 <= k < |u| ==> u[k] == s[i + k];
    var e, f := FindCommentEnd(u, 2), FindCommentEnd(s, i + 2);
    assert e < |u| ==> u[e] == s[i + e] && u[e + 1] == s[i + e + 1];
    assert f < |s| ==> s[f] == u[f - i] && s[f + 1] == u[f - i + 1];
  }

  /** In a text without trailing blanks, cutting leading comments is moving the start. */
  lemma {:induction false} HeadByPosition(s: string, i: nat)
    requires i <= |s| && NoTrailingSpace(s)
    ensures TrimLeadingComments(s[i..]) == s[HeadPos(s, i)..]
    decreases |s| - i
  {
    var lo := LeadEdge(s, i);
    var e := CommentEnd(s, lo);
    HeadStep(s, i);
    if e > lo {
      HeadByPosition(s, e);
      assert HeadPos(s, i) == HeadPos(s, e);
    }
  }

  lemma {:induction false} HeadStep(s: string, i: nat)
    requires i <= |s| && NoTrailingSpace(s)
    ensures var lo := LeadEdge(s, i);
            var e := CommentEnd(s, lo);
            TrimLeadingComments(s[i..]) == if e == lo then s[lo..] else TrimLeadingComments(s[e..])
  {
    hide TrimSpace, LeadingCommentLength, LeadEdge, CommentEnd, TrimLeadingComments;
    var lo := LeadEdge(s, i);
    var e := CommentEnd(s, lo);
    TrimSuffix(s, i);
    CommentLengthAt(s, lo);
    HeadUnfold(s[i..], s[lo..], e - lo);
    assert s[lo..][e - lo..] == s[e..];
  }

  lemma {:induction false} HeadUnfold(sql: string, t: string, n: nat)
    requires t == TrimSpace(sql) && n == LeadingCommentLength(t)
    ensures TrimLeadingComments(sql) == if n == 0 then t else TrimLeadingComments(t[n..])
  {
  }

  lemma {:induction false} HeadStable(s: string, t: string, i: nat, n: nat)
    requires i <= |s| && HeadPos(s, i) + 2 <= n <= |s| && n <= |t|
    requires forall k :: 0 <= k < n ==> s[k] == t[k]
    ensures HeadPos(t, i) == HeadPos(s, i)
    decreases |s| - i
  {
    var lo := LeadEdge(s, i);
    assert LeadEdge(t, i) == lo;
    CommentStable(s, t, lo, n);
    var e := CommentEnd(s, lo);
    if e > lo {
      HeadStable(s, t, e, n);
    }
  }

  lemma {:induction false} CommentStable(s: string, t: string, i: nat, n: nat)
    requires i + 2 <= n <= |s| && n <= |t| && CommentEnd(s, i) < n
    requires forall k :: 0 <= k < n ==> s[k] == t[k]
    ensures CommentEnd(t, i) == CommentEnd(s, i)
  {
  }

  // ---- Keywords at the start of a text ----

  /** A character that, following a word, makes it a longer word for startsWithSQLKeyword. */
  predicate WordChar(c: char)
  {
    IsIdentPart(c) && c != '#'
  }

  predicate WordStarts(text: string, keyword: string)
  {
    && |keyword| <= |text| && KeywordEq(text[..|keyword|], keyword)
    && (|keyword| < |text| ==> !WordChar(text[|keyword|]))
  }

  predicate AllLetters(w: string)
  {
    forall k :: 0 <= k < |w| ==> IsLetter(w[k])
  }

  lemma {:induction false} KeywordLetters(text: string, keyword: string)
    requires AllLetters(keyword) && KeywordEq(text, keyword)
    ensures AllLetters(text)
    ensures forall k :: 0 <= k < |text| ==> UpperChar(text[k]) == UpperChar(keyword[k])
  {
    forall k | 0 <= k < |text| ensures IsLetter(text[k]) && UpperChar(text[k]) == UpperChar(keyword[k]) {
      assert Upper(text)[k] == Upper(keyword)[k];
    }
  }

  /** With no blank in front, trimming does not change whether a keyword starts the text. */
  lemma {:induction false} StartsUntrimmed(text: string, keyword: string)
    requires text != "" ==> !IsUniSpace(text[0])
    requires keyword != "" && AllLetters(keyword)
    ensures StartsWithKeyword(text, keyword) <==> WordStarts(text, keyword)
  {
    var hi := TrimHi(text);
    assert TrimLo(text) == 0;
    var t := TrimSpace(text);
    assert t == text[..hi];
    var m := |keyword|;
    if StartsWithKeyword(text, keyword) {
      assert t[..m] == text[..m];
    }
    if WordStarts(text, keyword) {
      KeywordLetters(text[..m], keyword);
      assert text[..m][m - 1] == text[m - 1];
      assert hi >= m;
      assert t[..m] == text[..m];
    }
  }

  /** In a text without trailing blanks the select list begins right after the word SELECT. */
  lemma {:induction false} SelectByPosition(s: string)
    requires NoTrailingSpace(s)
    ensures var p := HeadPos(s, 0); SelectListStart(s) == if WordStarts(s[p..], "select") then p + 6 else -1
  {
    hide HeadPos, TrimLeadingComments, StartsWithKeyword, WordStarts, IsUniSpace;
    var p := HeadPos(s, 0);
    HeadByPosition(s, 0);
    assert s[0..] == s;
    HeadNotBlank(s, 0);
    StartsUntrimmed(s[p..], "select");
  }

  lemma {:induction false} HeadNotBlank(s: string, i: nat)
    requires i <= |s|
    ensures HeadPos(s, i) < |s| ==> !IsUniSpace(s[HeadPos(s, i)])
    decreases |s| - i
  {
    var lo := LeadEdge(s, i);
    var e := CommentEnd(s, lo);
    if e > lo {
      HeadNotBlank(s, e);
    }
  }

  /** The same head, followed by other text, is found again exactly when that text does not prolong the word SELECT. */
  lemma {:induction false} SelectStable(s: string, t: string, start: nat)
    requires NoTrailingSpace(s) && NoTrailingSpace(t)
    requires start == SelectListStart(s) && start < |t| && s[..start] == t[..start]
    ensures SelectListStart(t) == if WordChar(t[start]) then -1 else start
  {
    hide HeadPos, SelectListStart, NoTrailingSpace, WordStarts, IsUniSpace;
    SelectByPosition(s);
    SelectByPosition(t);
    var p := HeadPos(s, 0);
    assert start == p + 6;
    assert forall k :: 0 <= k < start ==> s[k] == s[..start][k] == t[..start][k] == t[k];
    HeadStable(s, t, 0, start);
    assert s[p..start] == s[..start][p..] == t[p..start];
    SelectWord(s, t, p);
  }

  /** The same six letters are the word SELECT in both texts unless the second goes on with a word character. */
  lemma {:induction false} SelectWord(s: string, t: string, p: nat)
    requires p + 6 <= |s| && p + 6 < |t| && s[p..p + 6] == t[p..p + 6] && WordStarts(s[p..], "select")
    ensures WordStarts(t[p..], "select") <==> !WordChar(t[p + 6])
  {
    assert s[p..][..6] == s[p..p + 6];
    assert t[p..][..6] == t[p..p + 6];
    assert t[p..][6] == t[p + 6];
  }

  /** Trailing blanks shift the computed start of the select list by their number. */
  lemma {:induction false} TrailingBlanksShift(s: string, blanks: string)
    requires s != "" && NoTrailingSpace(s) && SelectListStart(s) >= 0
    requires forall k :: 0 <= k < |blanks| ==> IsUniSpace(blanks[k])
    ensures SelectListStart(s + blanks) == SelectListStart(s) + |blanks|
  {
    var t := s + blanks;
    assert TrimSpace(t) == TrimSpace(s) by {
      var lo := TrimLo(s);
      assert lo < |s|;
      assert forall k :: 0 <= k < |s| ==> t[k] == s[k];
      assert TrimLo(t) == lo;
      assert t[|s| - 1] == s[|s| - 1];
      assert TrimHi(t) == |s| && TrimHi(s) == |s|;
      assert t[lo..|s|] == s[lo..|s|];
    }
    HeadUnfold(t, TrimSpace(t), LeadingCommentLength(TrimSpace(t)));
    HeadUnfold(s, TrimSpace(s), LeadingCommentLength(TrimSpace(s)));
  }

  // ---- The modifier ----

  /** No Unicode blank other than the four SQL ones stands between SELECT and the first word. */
  predicate PlainBlanks(section: string)
  {
    var lead := TrimSqlLeft(section, 0);
    lead < |section| ==> !IsUniSpace(section[lead])
  }

  lemma {:induction false} PrefixPlain(section: string, k: nat)
    requires PlainBlanks(section) && k < ModifierLength(section)
    ensures IsPlain(section[k]) && section[k] != ',' && section[k] != '*' && UpperChar(section[k]) != 'F'
  {
    hide StartsWithKeyword, ModifierLength;
    ModifierUntrimmed(section);
    var lead := TrimSqlLeft(section, 0);
    var rest := section[lead..];
    if lead <= k {
      if WordStarts(rest, "distinct") {
        WordPlain(rest, "distinct", section, lead, k);
      } else {
        WordPlain(rest, "all", section, lead, k);
      }
    }
  }

  lemma {:induction false} WordPlain(rest: string, keyword: string, section: string, lead: nat, k: nat)
    requires AllLetters(keyword) && forall j :: 0 <= j < |keyword| ==> UpperChar(keyword[j]) != 'F'
    requires lead <= |section| && rest == section[lead..] && WordStarts(rest, keyword)
    requires lead <= k < TrimSqlLeft(section, lead + |keyword|)
    ensures IsPlain(section[k]) && section[k] != ',' && section[k] != '*' && UpperChar(section[k]) != 'F'
  {
    if k < lead + |keyword| {
      KeywordLetters(rest[..|keyword|], keyword);
      assert rest[..|keyword|][k - lead] == section[k];
    }
  }

  /** The words that would be taken for a modifier at the start of a list. */
  predicate StartsWithModifier(list: string)
  {
    WordStarts(list, "distinct") || WordStarts(list, "all")
  }

  predicate HasModifier(section: string)
  {
    StartsWithModifier(section[TrimSqlLeft(section, 0)..])
  }

  lemma {:induction false} ModifierUntrimmed(section: string)
    requires PlainBlanks(section)
    ensures var lead := TrimSqlLeft(section, 0);
            var rest := section[lead..];
            ModifierLength(section) == if WordStarts(rest, "distinct") then TrimSqlLeft(section, lead + 8)
                                       else if WordStarts(rest, "all") then TrimSqlLeft(section, lead + 3)
                                       else lead
  {
    var rest := section[TrimSqlLeft(section, 0)..];
    StartsUntrimmed(rest, "distinct");
    StartsUntrimmed(rest, "all");
  }

  lemma {:induction false} LeadStable(section: string, n: nat, list: string, i: nat)
    requires i <= n <= |section| && n == TrimSqlLeft(section, i)
    requires list != "" ==> !IsSqlSpace(list[0])
    ensures TrimSqlLeft(section[..n] + list, i) == n
  {
    var t := section[..n] + list;
    assert forall k :: 0 <= k < n ==> t[k] == section[k];
    var m := TrimSqlLeft(t, i);
    if list != "" {
      assert t[n] == list[0];
    }
  }

  /** The modifier part of a section is found again in front of another list. */
  lemma {:induction false} ModifierStable(section: string, list: string)
    requires PlainBlanks(section)
    requires list != "" && !IsUniSpace(list[0])
    requires !HasModifier(section) ==> !StartsWithModifier(list)
    requires HasModifier(section) ==> var n := ModifierLength(section); n > 0 && (IsSqlSpace(section[n - 1]) || !WordChar(list[0]))
    ensures ModifierLength(section[..ModifierLength(section)] + list) == ModifierLength(section)
  {
    if HasModifier(section) {
      WithModifier(section, list);
    } else {
      WithoutModifier(section, list);
    }
  }

  lemma {:induction false} WithoutModifier(section: string, list: string)
    requires PlainBlanks(section) && !HasModifier(section)
    requires list != "" && !IsUniSpace(list[0]) && !StartsWithModifier(list)
    ensures ModifierLength(section[..ModifierLength(section)] + list) == ModifierLength(section)
  {
    var n := ModifierLength(section);
    var t := section[..n] + list;
    ModifierUntrimmed(section);
    LeadStable(section, n, list, 0);
    assert t[n..] == list;
    assert t[n] == list[0];
    ModifierUntrimmed(t);
  }

  lemma {:induction false} WithModifier(section: string, list: string)
    requires PlainBlanks(section) && HasModifier(section)
    requires list != "" && !IsUniSpace(list[0])
    requires var n := ModifierLength(section); n > 0 && (IsSqlSpace(section[n - 1]) || !WordChar(list[0]))
    ensures ModifierLength(section[..ModifierLength(section)] + list) == ModifierLength(section)
  {
    hide KeywordEq, ModifierLength, TrimSqlLeft;
    ModifierUntrimmed(section);
    if WordStarts(section[TrimSqlLeft(section, 0)..], "distinct") {
      WithKeyword(section, list, "distinct");
    } else {
      WithKeyword(section, list, "all");
    }
  }

  lemma {:induction false} WithKeyword(section: string, list: string, keyword: string)
    requires keyword == "distinct" || (keyword == "all" && !WordStarts(section[TrimSqlLeft(section, 0)..], "distinct"))
    requires keyword != "" && AllLetters(keyword)
    requires PlainBlanks(section) && WordStarts(section[TrimSqlLeft(section, 0)..], keyword)
    requires list != "" && !IsUniSpace(list[0])
    requires ModifierLength(section) == TrimSqlLeft(section, TrimSqlLeft(section, 0) + |keyword|)
    requires var n := ModifierLength(section); n > 0 && (IsSqlSpace(section[n - 1]) || !WordChar(list[0]))
    ensures ModifierLength(section[..ModifierLength(section)] + list) == ModifierLength(section)
  {
    hide WordStarts, ModifierLength, TrimSqlLeft;
    var n, lead, m := ModifierLength(section), TrimSqlLeft(section, 0), |keyword|;
    var t := section[..n] + list;
    assert forall k :: 0 <= k < n ==> t[k] == section[k];
    LeadAgain(section, t, lead);
    LeadStable(section, n, list, lead + m);
    if n > lead + m {
      assert IsSqlSpace(section[lead + m]);
    } else {
      assert t[n] == list[0];
      LastLetter(section, lead, keyword);
    }
    assert !WordChar(t[lead + m]);
    WordAgain(section, t, lead, keyword);
    ModifierUntrimmed(t);
  }

  lemma {:induction false} LastLetter(section: string, lead: nat, keyword: string)
    requires lead <= |section| && keyword != "" && AllLetters(keyword) && WordStarts(section[lead..], keyword)
    ensures IsLetter(section[lead + |keyword| - 1])
  {
    var w := section[lead..][..|keyword|];
    KeywordLetters(w, keyword);
    assert w[|keyword| - 1] == section[lead + |keyword| - 1];
  }

  lemma {:induction false} WordAgain(section: string, t: string, lead: nat, keyword: string)
    requires keyword == "distinct" || (keyword == "all" && lead <= |section| && !WordStarts(section[lead..], "distinct"))
    requires lead <= |section| && WordStarts(section[lead..], keyword)
    requires lead + |keyword| < |t| && !WordChar(t[lead + |keyword|])
    requires forall k :: 0 <= k < lead + |keyword| ==> t[k] == section[k]
    ensures WordStarts(t[lead..], keyword)
    ensures keyword == "all" ==> !WordStarts(t[lead..], "distinct")
  {
    var m := |keyword|;
    var u, v := section[lead..], t[lead..];
    assert u[..m] == section[lead..lead + m] == t[lead..lead + m] == v[..m];
    assert v[m] == t[lead + m];
    if keyword == "all" {
      NotDistinct(u, v);
    }
  }

  lemma {:induction false} LeadAgain(section: string, t: string, lead: nat)
    requires lead == TrimSqlLeft(section, 0) && lead < |section| && lead < |t|
    requires forall k :: 0 <= k <= lead ==> t[k] == section[k]
    ensures TrimSqlLeft(t, 0) == lead
  {
  }

  lemma {:induction false} NotDistinct(rest: string, rest': string)
    requires WordStarts(rest, "all") && |rest'| >= 3 && rest'[..3] == rest[..3]
    ensures !WordStarts(rest', "distinct")
  {
    KeywordLetters(rest[..3], "all");
    assert rest'[0] == rest'[..3][0] == rest[..3][0];
    if WordStarts(rest', "distinct") {
      KeywordLetters(rest'[..8], "distinct");
    }
  }

  // ---- FROM ----

  /** After a plain prefix and a neutral list, FROM is the first keyword the finder meets. */
  lemma {:induction false} FromStable(head: string, prefix: string, list: string, from: string)
    requires forall k :: 0 <= k < |prefix| ==> IsPlain(prefix[k]) && prefix[k] != '*' && UpperChar(prefix[k]) != 'F'
    requires Final(list) == START && NoTopFrom(list)
    requires list != "" && !IsIdentPart(list[|list| - 1])
    requires KeywordAt(from, 0, "from")
    ensures FindKeyword(head + (prefix + list + from), |head|, |head|, "from") == |head| + |prefix| + |list|
  {
    hide Run, KeywordAt;
    FromFirst(prefix, list, from);
    FindAtOffset(head, prefix + list + from, |prefix| + |list|);
  }

  lemma {:induction false} FromFirst(prefix: string, list: string, from: string)
    requires forall k :: 0 <= k < |prefix| ==> IsPlain(prefix[k]) && prefix[k] != '*' && UpperChar(prefix[k]) != 'F'
    requires Final(list) == START && NoTopFrom(list)
    requires list != "" && !IsIdentPart(list[|list| - 1])
    requires KeywordAt(from, 0, "from")
    ensures |prefix| + |list| < |prefix + list + from|
    ensures KeywordHit(prefix + list + from, 0, |prefix| + |list|, "from")
    ensures forall k :: 0 <= k < |prefix| + |list| ==> !KeywordHit(prefix + list + from, 0, k, "from")
  {
    FromPresent(prefix, list, from);
    forall k | 0 <= k < |prefix| + |list| ensures !KeywordHit(prefix + list + from, 0, k, "from") {
      FromAbsent(prefix, list, from, k);
    }
  }

  lemma {:induction false} FindAtOffset(head: string, tail: string, q: nat)
    requires 0 < q < |tail| && KeywordHit(tail, 0, q, "from")
    requires forall k :: 0 <= k < q ==> !KeywordHit(tail, 0, k, "from")
    ensures FindKeyword(head + tail, |head|, |head|, "from") == |head| + q
  {
    hide Run, KeywordAt;
    FromHitAtOffset(head, tail, q);
    var h := |head|;
    forall j | h <= j < h + q ensures !KeywordHit(head + tail, h, j, "from") {
      HitAtOffset(head, tail, j - h);
      assert h + (j - h) == j;
    }
    FindKeywordUnique(head + tail, h, "from", h + q);
  }

  lemma {:induction false} RunAtOffset(head: string, tail: string, k: nat)
    requires k <= |tail|
    ensures Run(false, START, head + tail, |head|, |head| + k) == Run(false, START, tail, 0, k)
  {
    var s := head + tail;
    assert s[|head|..|head| + k] == tail[0..0 + k];
    RunShift(false, START, s, |head|, tail, 0, k);
  }

  lemma {:induction false} HitAtOffset(head: string, tail: string, k: nat)
    requires k < |tail|
    ensures KeywordHit(head + tail, |head|, |head| + k, "from") ==> KeywordHit(tail, 0, k, "from")
  {
    var s := head + tail;
    RunAtOffset(head, tail, k);
    RunAtOffset(head, tail, k + 1);
    if KeywordHit(s, |head|, |head| + k, "from") {
      assert s[|head| + k..|head| + k + 4] == tail[k..k + 4];
    }
  }

  lemma {:induction false} FromHitAtOffset(head: string, tail: string, k: nat)
    requires 0 < k < |tail| && KeywordHit(tail, 0, k, "from")
    ensures KeywordHit(head + tail, |head|, |head| + k, "from")
  {
    var s := head + tail;
    RunAtOffset(head, tail, k);
    RunAtOffset(head, tail, k + 1);
    assert s[|head| + k..|head| + k + 4] == tail[k..k + 4];
    assert s[|head| + k - 1] == tail[k - 1];
  }

  lemma {:induction false} PlainNeutral(prefix: string)
    requires forall i :: 0 <= i < |prefix| ==> IsPlain(prefix[i]) && prefix[i] != '*' && UpperChar(prefix[i]) != 'F'
    ensures Final(prefix) == START
  {
    RunPlain(START, prefix, 0, |prefix|);
  }

  lemma {:induction false} FromAbsent(prefix: string, list: string, from: string, k: nat)
    requires forall k :: 0 <= k < |prefix| ==> IsPlain(prefix[k]) && prefix[k] != '*' && UpperChar(prefix[k]) != 'F'
    requires Final(list) == START && NoTopFrom(list) && list != "" && !IsIdentPart(list[|list| - 1])
    requires k < |prefix| + |list|
    ensures !KeywordHit(prefix + list + from, 0, k, "from")
  {
    hide Run, IsPlain, KeywordAt, NextMode, Final;
    var tail := prefix + list + from;
    PlainNeutral(prefix);
    if KeywordHit(tail, 0, k, "from") {
      FromLetter(tail, k);
      assert tail == prefix + (list + from);
      if k >= |prefix| {
        hide KeywordHit;
        WordAfterPrefix(prefix, list + from, k - |prefix|);
        HitInJoined(list, from, k - |prefix|);
      }
    }
  }

  lemma {:induction false} WordAfterPrefix(prefix: string, rest: string, k: nat)
    requires Final(prefix) == START && k < |rest| && KeywordHit(prefix + rest, 0, |prefix| + k, "from")
    ensures KeywordHit(rest, 0, k, "from")
  {
    hide Run, NextMode;
    var tail := prefix + rest;
    RunSecond(prefix, rest, k);
    RunSecond(prefix, rest, k + 1);
    assert tail[|prefix| + k..|prefix| + k + 4] == rest[k..k + 4];
  }

  lemma {:induction false} LetterStep(c: char)
    requires IsLetter(c)
    ensures Step(false, START, c) == START
  {
  }

  lemma {:induction false} RunNone(s: string)
    ensures Run(false, START, s, 0, 0) == START
  {
  }

  lemma {:induction false} FromPresent(prefix: string, list: string, from: string)
    requires forall k :: 0 <= k < |prefix| ==> IsPlain(prefix[k]) && prefix[k] != '*' && UpperChar(prefix[k]) != 'F'
    requires Final(list) == START && list != "" && !IsIdentPart(list[|list| - 1])
    requires KeywordAt(from, 0, "from")
    ensures KeywordHit(prefix + list + from, 0, |prefix| + |list|, "from")
  {
    hide Run, IsPlain, NextMode, IsIdentPart;
    var q := |prefix| + |list|;
    var tail := prefix + list + from;
    PlainNeutral(prefix);
    RunSecond(prefix, list, |list|);
    assert Final(prefix + list) == START;
    RunSecond(prefix + list, from, 0);
    RunSecond(prefix + list, from, 1);
    FromLetter(from, 0);
    LetterStep(from[0]);
    assert Run(false, START, from, 0, 1) == Step(false, Run(false, START, from, 0, 0), from[0]) by { RunNext(false, START, from, 0, 0); }
    assert Run(false, START, from, 0, 0) == START by { RunNone(from); }
    assert tail[q..q + 4] == from[0..4];
    assert tail[q - 1] == list[|list| - 1] && tail[q] == from[0];
  }

  // ---- The whole statement ----

  /** What ParseSelect's parts are, position by position. */
  lemma {:induction false} PartsOf(sql: string)
    requires ParseSelect(sql).Some?
    ensures var p := ParseSelect(sql).value;
            && sql == p.head + (p.prefix + p.list + p.from)
            && SelectListStart(sql) == |p.head|
            && FindKeyword(sql, |p.head|, |p.head|, "from") == |p.head| + |p.prefix| + |p.list|
            && ModifierLength(p.prefix + p.list) == |p.prefix|
            && KeywordAt(p.from, 0, "from")
            && ParseTableRef(p.from[4..]) == Some(p.ref)
  {
    hide Run, SelectListStart, TrimLeadingComments, StartsWithKeyword, ModifierLength, ParseTableRef, KeywordEq;
    var p := ParseSelect(sql).value;
    var start := |p.head|;
    var from := FindKeyword(sql, start, start, "from");
    var section := sql[start..from];
    assert section == p.prefix + p.list;
    assert sql == sql[..start] + (section + sql[from..]);
    assert KeywordAt(sql, from, "from");
    assert p.from[0..4] == sql[from..from + 4];
    assert p.from[4..] == sql[from + 4..];
  }

  /** The converse: parts with these properties are what ParseSelect finds. */
  lemma {:induction false} PartsFound(p: Parts)
    requires var sql := p.head + (p.prefix + p.list + p.from);
             && SelectListStart(sql) == |p.head|
             && FindKeyword(sql, |p.head|, |p.head|, "from") == |p.head| + |p.prefix| + |p.list|
    requires ModifierLength(p.prefix + p.list) == |p.prefix|
    requires |p.from| >= 4 && ParseTableRef(p.from[4..]) == Some(p.ref)
    ensures ParseSelect(p.head + (p.prefix + p.list + p.from)) == Some(p)
  {
    hide Run, TrimLeadingComments, StartsWithKeyword, ModifierLength, ParseTableRef, KeywordHit;
    var sql := p.head + (p.prefix + p.list + p.from);
    var start := |p.head|;
    var from := start + |p.prefix| + |p.list|;
    var section := sql[start..from];
    assert section == p.prefix + p.list;
    assert section[..|p.prefix|] == p.prefix && section[|p.prefix|..] == p.list;
    assert sql[..start] == p.head && sql[from..] == p.from;
    assert sql[from + 4..] == p.from[4..];
  }

  /** Checkable on the statement: it ends in no blank, and only the four SQL blanks follow SELECT. */
  predicate Regular(sql: string, p: Parts)
  {
    NoTrailingSpace(sql) && PlainBlanks(p.prefix + p.list)
  }

  /** Writing this list right after the head would run two words together. */
  predicate Glued(p: Parts, list: string)
    requires p.head != ""
  {
    var h := p.head + p.prefix;
    IsIdentPart(h[|h| - 1]) && list != "" && WordChar(list[0])
  }

  lemma {:induction false} HeadEndsInLetter(sql: string)
    requires NoTrailingSpace(sql) && SelectListStart(sql) >= 0
    ensures var n := SelectListStart(sql); n >= 6 && IsLetter(sql[n - 1]) && (n < |sql| ==> !WordChar(sql[n]))
  {
    hide SelectListStart, KeywordEq;
    SelectByPosition(sql);
    var n := HeadPos(sql, 0);
    LastLetter(sql, n, "select");
    assert n + 6 < |sql| ==> sql[n..][6] == sql[n + 6];
  }

  lemma {:induction false} PrefixEnd(section: string)
    requires PlainBlanks(section) && HasModifier(section)
    ensures var n := ModifierLength(section); n > 0 && (IsSqlSpace(section[n - 1]) || IsLetter(section[n - 1]))
  {
    hide KeywordEq, StartsWithKeyword;
    ModifierUntrimmed(section);
    var lead := TrimSqlLeft(section, 0);
    if WordStarts(section[lead..], "distinct") {
      LastLetter(section, lead, "distinct");
    } else {
      LastLetter(section, lead, "all");
    }
  }

  /**
   Re-lexing a rebuilt statement. The head, modifier, FROM part and table come out as they were,
   and the select list is the rebuilt one, for any good items.
   */
  lemma {:induction false} Reparse(sql: string, items: seq<string>)
    requires ParseSelect(sql).Some? && Regular(sql, ParseSelect(sql).value)
    requires |items| > 0 && (items[0] != "" || |items| > 1)
    requires forall i :: 0 <= i < |items| ==> GoodItem(items[i]) && Trimmed(items[i])
    requires ParseSelect(sql).value.head != "" && !Glued(ParseSelect(sql).value, ListText(items))
    requires var p := ParseSelect(sql).value; HasModifier(p.prefix + p.list) || !StartsWithModifier(ListText(items))
    ensures var p := ParseSelect(sql).value; ParseSelect(Rebuild(p, items)) == Some(p.(list := ListText(items)))
  {
    hide Run, GoodItem, KeywordAt, ModifierLength, ParseTableRef, SelectListStart, HasModifier, StartsWithModifier, Join, ParseSelect, PlainBlanks;
    var p := ParseSelect(sql).value;
    var list := ListText(items);
    PartsOf(sql);
    FirstCharOfList(items);
    ListTextNeutral(items);
    var section := p.prefix + p.list;
    forall k | 0 <= k < |p.prefix|
      ensures IsPlain(p.prefix[k]) && p.prefix[k] != '*' && UpperChar(p.prefix[k]) != 'F'
    {
      PrefixPlain(section, k);
      assert section[k] == p.prefix[k];
    }
    FromStable(p.head, p.prefix, list, p.from);
    SelectAgain(sql, p, list);
    ModifierAgain(p, list);
    var p' := p.(list := list);
    assert |p.from| >= 4 by { FromLetter(p.from, 0); }
    PartsFound(p');
    assert Rebuild(p, items) == p.head + (p.prefix + list + p.from);
  }

  lemma {:induction false} FirstCharOfList(items: seq<string>)
    requires |items| > 0 && (items[0] != "" || |items| > 1) && Trimmed(items[0])
    ensures var list := ListText(items); list != "" && !IsUniSpace(list[0]) && list[|list| - 1] == ' '
    ensures items[0] != "" ==> ListText(items)[0] == items[0][0]
    ensures items[0] == "" ==> ListText(items)[0] == ','
  {
    if |items| > 1 {
      ListTextCons(items);
    }
  }

  lemma {:induction false} SelectAgain(sql: string, p: Parts, list: string)
    requires NoTrailingSpace(sql) && sql == p.head + (p.prefix + p.list + p.from)
    requires SelectListStart(sql) == |p.head| && p.head != "" && p.from != ""
    requires list != "" && !Glued(p, list)
    ensures SelectListStart(p.head + (p.prefix + list + p.from)) == |p.head|
  {
    hide SelectListStart, IsUniSpace;
    var out := p.head + (p.prefix + list + p.from);
    HeadEndsInLetter(sql);
    var n := |p.head|;
    assert sql[..n] == p.head == out[..n];
    assert sql[n - 1] == p.head[n - 1];
    if p.prefix == "" {
      assert p.head + p.prefix == p.head;
      assert out[n] == list[0];
    } else {
      assert out[n] == p.prefix[0] == sql[n];
    }
    assert out[|out| - 1] == p.from[|p.from| - 1] == sql[|sql| - 1];
    SelectStable(sql, out, n);
  }

  lemma {:induction false} ModifierAgain(p: Parts, list: string)
    requires PlainBlanks(p.prefix + p.list) && ModifierLength(p.prefix + p.list) == |p.prefix|
    requires list != "" && !IsUniSpace(list[0]) && p.head != "" && !Glued(p, list)
    requires HasModifier(p.prefix + p.list) || !StartsWithModifier(list)
    ensures ModifierLength(p.prefix + list) == |p.prefix|
  {
    hide ModifierLength, HasModifier, StartsWithModifier, PlainBlanks;
    var section := p.prefix + p.list;
    var n := |p.prefix|;
    assert section[..n] == p.prefix;
    if HasModifier(section) {
      PrefixEnd(section);
      assert section[n - 1] == (p.head + p.prefix)[|p.head + p.prefix| - 1];
    }
    ModifierStable(section, list);
  }

  /** When the words do run together, the rebuilt statement no longer starts with SELECT or its modifier. */
  lemma {:induction false} GluedSelectLost(sql: string, p: Parts, list: string)
    requires NoTrailingSpace(sql) && ParseSelect(sql) == Some(p) && p.prefix == ""
    requires list != "" && WordChar(list[0])
    ensures ParseSelect(p.head + (list + p.from)) == None
  {
    hide Run, KeywordAt, ModifierLength, ParseTableRef, IsUniSpace, SelectListStart, FindKeyword;
    PartsOf(sql);
    var out := p.head + (list + p.from);
    HeadEndsInLetter(sql);
    var n := |p.head|;
    FromLetter(p.from, 0);
    assert sql[..n] == p.head == out[..n];
    assert out[|out| - 1] == p.from[|p.from| - 1] == sql[|sql| - 1];
    assert out[n] == list[0];
    SelectStable(sql, out, n);
  }
}
