/**
 Character classes, trimming and case folding of the Oracle driver's SQL text functions.
 A text is a sequence of Unicode characters, and positions count characters. The scanner loops
 compare one ASCII character at a time, so stepping by characters or by UTF-8 bytes takes the same
 branches there. An offset that the program advances by a fixed number of bytes across blanks which
 a trim has looked past, such as a no-break space before AS, is counted in characters here.
 */
module SqlText {

  /** unicode.IsSpace, the class strings.TrimSpace removes. */
  predicate IsUniSpace(c: char)
  {
    var n := c as int;
    n == 0x20 || 0x09 <= n <= 0x0D || n == 0x85 || n == 0xA0 || n == 0x1680 || 0x2000 <= n <= 0x200A
    || n == 0x2028 || n == 0x2029 || n == 0x202F || n == 0x205F || n == 0x3000
  }

  /** The narrower class the scanners skip between tokens. */
  predicate IsSqlSpace(c: char)
  {
    c == ' ' || c == '\t' || c == '\r' || c == '\n'
  }

  predicate IsDigit(c: char)
  {
    '0' <= c <= '9'
  }

  predicate IsLetter(c: char)
  {
    'a' <= c <= 'z' || 'A' <= c <= 'Z'
  }

  predicate IsIdentStart(c: char)
  {
    IsLetter(c) || c == '_' || c == '$' || c == '#'
  }

  predicate IsIdentPart(c: char)
  {
    IsIdentStart(c) || IsDigit(c)
  }

  function UpperChar(c: char): (u: char)
    ensures IsIdentPart(u) == IsIdentPart(c)
    ensures u == c || (IsLetter(c) && IsLetter(u))
  {
    if 'a' <= c <= 'z' then ((c as int) - 32) as char else c
  }

  function Upper(s: string): (u: string)
    ensures |u| == |s|
    ensures forall i :: 0 <= i < |s| ==> u[i] == UpperChar(s[i])
  {
    seq(|s|, i requires 0 <= i < |s| => UpperChar(s[i]))
  }

  /** Index of the first character at or after i that is not a space, or |s|. */
  function LeadEdge(s: string, i: nat): (r: nat)
    requires i <= |s|
    ensures i <= r <= |s|
    ensures forall k :: i <= k < r ==> IsUniSpace(s[k])
    ensures r < |s| ==> !IsUniSpace(s[r])
    decreases |s| - i
  {
    if i < |s| && IsUniSpace(s[i]) then LeadEdge(s, i + 1) else i
  }

  /** End of the text before the trailing spaces of s[lo..hi]. */
  function TrailEdge(s: string, lo: nat, hi: nat): (r: nat)
    requires lo <= hi <= |s|
    ensures lo <= r <= hi
    ensures forall k :: r <= k < hi ==> IsUniSpace(s[k])
    ensures r > lo ==> !IsUniSpace(s[r - 1])
    decreases hi
  {
    if lo < hi && IsUniSpace(s[hi - 1]) then TrailEdge(s, lo, hi - 1) else hi
  }

  function TrimLo(s: string): (r: nat)
    ensures r <= |s|
  {
    LeadEdge(s, 0)
  }

  function TrimHi(s: string): (r: nat)
    ensures TrimLo(s) <= r <= |s|
  {
    TrailEdge(s, TrimLo(s), |s|)
  }

  /** strings.TrimSpace. */
  function TrimSpace(s: string): (r: string)
    ensures r != "" ==> !IsUniSpace(r[0]) && !IsUniSpace(r[|r| - 1])
  {
    s[TrimLo(s)..TrimHi(s)]
  }

  lemma {:induction false} TrimOfTrimmed(s: string)
    requires s != "" ==> !IsUniSpace(s[0]) && !IsUniSpace(s[|s| - 1])
    ensures TrimSpace(s) == s
  {
    assert s[0..|s|] == s;
  }

  function TrimSqlLeft(s: string, i: nat): (r: nat)
    requires i <= |s|
    ensures i <= r <= |s|
    ensures forall k :: i <= k < r ==> IsSqlSpace(s[k])
    ensures r < |s| ==> !IsSqlSpace(s[r])
    decreases |s| - i
  {
    if i < |s| && IsSqlSpace(s[i]) then TrimSqlLeft(s, i + 1) else i
  }

  predicate KeywordEq(text: string, keyword: string)
  {
    |text| == |keyword| && Upper(text) == Upper(keyword)
  }

  /** sqlKeywordAt: the word stands at pos and no identifier character touches it. */
  predicate KeywordAt(s: string, pos: nat, keyword: string)
  {
    && pos + |keyword| <= |s|
    && KeywordEq(s[pos..pos + |keyword|], keyword)
    && (pos > 0 ==> !IsIdentPart(s[pos - 1]))
    && (pos + |keyword| < |s| ==> !IsIdentPart(s[pos + |keyword|]))
  }

  /** startsWithSQLKeyword: note that a following '#' does not disqualify the word. */
  predicate StartsWithKeyword(text: string, keyword: string)
  {
    var s := TrimSpace(text);
    && |keyword| <= |s|
    && KeywordEq(s[..|keyword|], keyword)
    && (|keyword| < |s| ==> !(IsIdentPart(s[|keyword|]) && s[|keyword|] != '#'))
  }
}
