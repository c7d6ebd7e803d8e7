/**
 The hand-written scanners of agents/drivers/oracle-go/main.go, as loops over a position,
 each proved against the reference lexer.
 */
module SqlScanners {
  import opened Common
  import opened SqlText
  import opened SqlLexer

  /** Jumping from pos to end passes over no code character and comes back to code at the same depth. */
  ghost predicate Skips(binds: bool, s: string, start: nat, pos: nat, end: nat)
  {
    && start <= pos <= end < |s|
    && (forall k :: pos < k <= end ==> !CodeAt(binds, s, start, k))
    && (end + 1 < |s| ==> Run(binds, START, s, start, end + 1) == State(Code, DepthAt(binds, s, start, pos)))
  }

  method SkipSingleQuoted(s: string, pos: nat, ghost binds: bool, ghost start: nat) returns (end: nat)
    requires start <= pos < |s|
    requires pos + 1 == |s| || Run(binds, START, s, start, pos + 1) == State(Single, DepthAt(binds, s, start, pos))
    ensures Skips(binds, s, start, pos, end)
  {
    hide Run;
    ghost var inside := State(Single, DepthAt(binds, s, start, pos));
    var p := pos + 1;
    while p < |s|
      invariant pos < p <= |s|
      invariant p < |s| ==> Run(binds, START, s, start, p) == inside
      invariant forall k :: pos < k < p ==> !CodeAt(binds, s, start, k)
    {
      RunNext(binds, START, s, start, p);
      if s[p] == '\'' {
        if p + 1 < |s| && s[p + 1] == '\'' {
          RunNext(binds, START, s, start, p + 1);
          p := p + 2;
          continue;
        }
        return p;
      }
      p := p + 1;
    }
    return |s| - 1;
  }

  method SkipDoubleQuoted(s: string, pos: nat, ghost binds: bool, ghost start: nat) returns (end: nat)
    requires start <= pos < |s|
    requires Run(binds, START, s, start, pos + 1) == State(Double, DepthAt(binds, s, start, pos))
    ensures Skips(binds, s, start, pos, end)
  {
    hide Run;
    ghost var inside := State(Double, DepthAt(binds, s, start, pos));
    var p := pos + 1;
    while p < |s|
      invariant pos < p <= |s|
      invariant Run(binds, START, s, start, p) == inside
      invariant forall k :: pos < k < p ==> !CodeAt(binds, s, start, k)
    {
      RunNext(binds, START, s, start, p);
      if s[p] == '"' {
        if p + 1 < |s| && s[p + 1] == '"' {
          RunNext(binds, START, s, start, p + 1);
          p := p + 2;
          continue;
        }
        return p;
      }
      p := p + 1;
    }
    return |s| - 1;
  }

  /** The two dashes at pos have just opened a line comment, which runs to the line's end. */
  method SkipLineComment(s: string, pos: nat, ghost binds: bool, ghost start: nat) returns (end: nat)
    requires start <= pos && pos + 1 < |s| && s[pos] == '-' && s[pos + 1] == '-'
    requires Run(binds, START, s, start, pos + 2) == State(Line, DepthAt(binds, s, start, pos))
    ensures Skips(binds, s, start, pos, end)
  {
    hide Run, CodeAt, DepthAt;
    ghost var inside := State(Line, DepthAt(binds, s, start, pos));
    OpenerNotCode(s, binds, start, pos + 1);
    var p := pos;
    while p < |s|
      invariant pos <= p <= |s|
      invariant p >= pos + 2 ==> Run(binds, START, s, start, p) == inside
      invariant forall k :: pos < k < p ==> !CodeAt(binds, s, start, k)
    {
      if p >= pos + 2 {
        LineNext(s, binds, start, p, inside.depth);
      }
      if s[p] == '\n' || s[p] == '\r' {
        return p;
      }
      p := p + 1;
    }
    return |s| - 1;
  }

  lemma {:induction false} OpenerNotCode(s: string, binds: bool, start: nat, p: nat)
    requires start <= p < |s| && !InCode(Run(binds, START, s, start, p + 1).mode)
    ensures !CodeAt(binds, s, start, p)
  {
    hide Run;
  }

  lemma {:induction false} LineNext(s: string, binds: bool, start: nat, p: nat, d: nat)
    requires start <= p < |s| && Run(binds, START, s, start, p) == State(Line, d)
    ensures Run(binds, START, s, start, p + 1) == State(if s[p] == '\n' || s[p] == '\r' then Code else Line, d) && !CodeAt(binds, s, start, p)
  {
    hide Run;
    RunNext(binds, START, s, start, p);
  }

  // strings.Index of the comment terminator in s[i:], as an absolute index; |s| when absent.
  function FindCommentEnd(s: string, i: nat): (e: nat)
    requires i <= |s|
    ensures i <= e <= |s|
    ensures e < |s| ==> e + 1 < |s| && s[e] == '*' && s[e + 1] == '/'
    ensures forall k :: i <= k < e && k + 1 < |s| ==> !(s[k] == '*' && s[k + 1] == '/')
    decreases |s| - i
  {
    if i + 1 >= |s| then |s|
    else if s[i] == '*' && s[i + 1] == '/' then i
    else FindCommentEnd(s, i + 1)
  }

  /** Up to the first star-slash the lexer stays inside the comment. */
  lemma {:induction false} InsideBlockComment(binds: bool, s: string, start: nat, from: nat, j: nat, d: nat)
    requires start <= from <= j <= |s| && j <= FindCommentEnd(s, from) + 1
    requires Run(binds, START, s, start, from) == State(Block, d)
    ensures Run(binds, START, s, start, j) == State(if j > from && s[j - 1] == '*' then BlockStar else Block, d)
    ensures forall k :: from <= k < j ==> !CodeAt(binds, s, start, k)
    decreases j
  {
    if j > from {
      InsideBlockComment(binds, s, start, from, j - 1, d);
    }
  }

  function SkipBlockComment(s: string, pos: nat): (end: nat)
    requires pos + 1 < |s|
    ensures pos < end < |s|
  {
    var e := FindCommentEnd(s, pos + 2);
    if e == |s| then |s| - 1 else e + 1
  }

  lemma {:induction false} SkipBlockCommentSkips(binds: bool, s: string, start: nat, pos: nat)
    requires start <= pos && pos + 1 < |s|
    requires Run(binds, START, s, start, pos + 2) == State(Block, DepthAt(binds, s, start, pos))
    ensures Skips(binds, s, start, pos, SkipBlockComment(s, pos))
  {
    var e := FindCommentEnd(s, pos + 2);
    hide Run, FindCommentEnd;
    if e == |s| {
      OpenComment(binds, s, start, pos);
    } else {
      ClosedComment(binds, s, start, pos, e);
    }
  }

  lemma {:induction false} OpenComment(binds: bool, s: string, start: nat, pos: nat)
    requires start <= pos && pos + 1 < |s| && FindCommentEnd(s, pos + 2) == |s|
    requires Run(binds, START, s, start, pos + 2) == State(Block, DepthAt(binds, s, start, pos))
    ensures Skips(binds, s, start, pos, |s| - 1)
  {
    InsideBlockComment(binds, s, start, pos + 2, |s|, DepthAt(binds, s, start, pos));
    hide Run, FindCommentEnd, NextMode;
    forall k | pos < k <= |s| - 1 ensures !CodeAt(binds, s, start, k) {
      if k == pos + 1 {
        assert !InCode(Run(binds, START, s, start, k + 1).mode);
      }
    }
  }

  lemma {:induction false} ClosedComment(binds: bool, s: string, start: nat, pos: nat, e: nat)
    requires start <= pos && pos + 1 < |s| && e == FindCommentEnd(s, pos + 2) < |s|
    requires Run(binds, START, s, start, pos + 2) == State(Block, DepthAt(binds, s, start, pos))
    ensures Skips(binds, s, start, pos, e + 1)
  {
    hide Run, FindCommentEnd, NextMode;
    var d := DepthAt(binds, s, start, pos);
    InsideBlockComment(binds, s, start, pos + 2, e + 1, d);
    AfterComment(binds, s, start, e, d);
    forall k | pos < k <= e + 1 ensures !CodeAt(binds, s, start, k) {
      if k == pos + 1 {
        assert !InCode(Run(binds, START, s, start, k + 1).mode);
      }
    }
  }

  lemma {:induction false} AfterComment(binds: bool, s: string, start: nat, e: nat, d: nat)
    requires start <= e && e + 1 < |s| && s[e + 1] == '/' && Run(binds, START, s, start, e + 1) == State(BlockStar, d)
    ensures Run(binds, START, s, start, e + 2) == State(Code, d)
  {
    RunNext(binds, START, s, start, e + 1);
  }

  /** q'<open>...<close>' ; ok is false when too little text follows for a literal to open. */
  method SkipAlternativeQuoted(s: string, pos: nat, ghost start: nat) returns (end: nat, ok: bool)
    requires start <= pos < |s| && (s[pos] == 'q' || s[pos] == 'Q')
    requires Run(true, START, s, start, pos + 1) == State(QSeen, DepthAt(true, s, start, pos))
    ensures ok <==> pos + 2 < |s| && s[pos + 1] == '\''
    ensures ok ==> Skips(true, s, start, pos, end)
    ensures !ok ==> end == pos
  {
    hide Run, CodeAt, DepthAt;
    if pos + 2 >= |s| || s[pos + 1] != '\'' {
      return pos, false;
    }
    var close := AltCloser(s[pos + 2]);
    ghost var d := DepthAt(true, s, start, pos);
    AltOpens(s, start, pos, d);
    end := pos + 3;
    while end + 1 < |s|
      invariant pos + 3 <= end <= |s|
      invariant AltInside(s, start, end, close, d)
      invariant forall k :: pos < k < end ==> !CodeAt(true, s, start, k)
    {
      AltNext(s, start, end, close, d);
      if s[end] == close && s[end + 1] == '\'' {
        AltCloses(s, start, end + 1, close, d);
        return end + 1, true;
      }
      end := end + 1;
    }
    if end < |s| {
      AltNext(s, start, end, close, d);
    }
    return |s| - 1, true;
  }

  /** Inside an alternative quote that the character at p does not end. */
  ghost predicate AltInside(s: string, start: nat, p: nat, close: char, d: nat)
  {
    && start <= p <= |s|
    && var st := Run(true, START, s, start, p);
    && st.depth == d && (st.mode == Alt(close) || (st.mode == AltEnd(close) && (p < |s| ==> s[p] != '\'')))
  }

  lemma {:induction false} AltOpens(s: string, start: nat, pos: nat, d: nat)
    requires start <= pos && pos + 2 < |s| && s[pos + 1] == '\'' && Run(true, START, s, start, pos + 1) == State(QSeen, d)
    ensures AltInside(s, start, pos + 3, AltCloser(s[pos + 2]), d)
    ensures !CodeAt(true, s, start, pos + 1) && !CodeAt(true, s, start, pos + 2)
  {
    hide Run;
    RunNext(true, START, s, start, pos + 1);
    RunNext(true, START, s, start, pos + 2);
    assert Run(true, START, s, start, pos + 2) == State(AltOpen, d);
  }

  lemma {:induction false} AltNext(s: string, start: nat, p: nat, close: char, d: nat)
    requires AltInside(s, start, p, close, d) && p < |s|
    ensures Run(true, START, s, start, p + 1) == State(if s[p] == close then AltEnd(close) else Alt(close), d)
    ensures !CodeAt(true, s, start, p)
  {
    hide Run;
    RunNext(true, START, s, start, p);
  }

  lemma {:induction false} AltCloses(s: string, start: nat, p: nat, close: char, d: nat)
    requires start <= p < |s| && Run(true, START, s, start, p) == State(AltEnd(close), d) && s[p] == '\''
    ensures Run(true, START, s, start, p + 1) == State(Code, d) && !CodeAt(true, s, start, p)
  {
    hide Run;
    RunNext(true, START, s, start, p);
  }

  /** Where the scanners look at the next character: in code, with no comment opener split across pos. */
  ghost predicate Resumes(s: string, start: nat, pos: nat, depth: nat)
  {
    && start <= pos <= |s|
    && (pos < |s| ==>
          var st := Run(false, START, s, start, pos);
          && st.depth == depth
          && (st.mode.Code? || (st.mode.Dash? && s[pos] != '-') || (st.mode.Slash? && s[pos] != '*')))
  }

  /**
   The first four cases that the scanners' switches share: a quoted text or comment that opens
   at pos is passed over, and any other character is left to the caller.
   */
  method SkipOpaque(s: string, pos: nat, ghost start: nat, ghost depth: nat) returns (end: nat)
    requires pos < |s| && Resumes(s, start, pos, depth)
    ensures pos <= end < |s|
    ensures forall k :: pos < k <= end ==> !CodeAt(false, s, start, k)
    ensures end > pos ==> s[pos] in {'\'', '"', '-', '/'}
    ensures s[pos] != '(' && s[pos] != ')' ==> Resumes(s, start, end + 1, depth)
    ensures s[pos] == '(' ==> Resumes(s, start, end + 1, depth + 1)
    ensures s[pos] == ')' ==> Resumes(s, start, end + 1, if depth > 0 then depth - 1 else 0)
    ensures CodeAt(false, s, start, pos) <==> s[pos] !in {'\'', '"'}
  {
    end := pos;
    if s[pos] == '\'' {
      end := SkipSingleQuoted(s, pos, false, start);
    } else if s[pos] == '"' {
      end := SkipDoubleQuoted(s, pos, false, start);
    } else if s[pos] == '-' {
      if pos + 1 < |s| && s[pos + 1] == '-' {
        assert Run(false, START, s, start, pos + 1) == State(Dash, depth);
        end := SkipLineComment(s, pos, false, start);
      }
    } else if s[pos] == '/' {
      if pos + 1 < |s| && s[pos + 1] == '*' {
        assert Run(false, START, s, start, pos + 1) == State(Slash, depth);
        SkipBlockCommentSkips(false, s, start, pos);
        end := SkipBlockComment(s, pos);
      }
    }
  }

  // ---- findTopLevelSQLKeyword ----

  /** The keyword stands at i in code, outside all parentheses opened since start. */
  predicate KeywordHit(s: string, start: nat, i: nat, keyword: string)
    requires start <= i < |s|
  {
    CodeAt(false, s, start, i) && DepthAt(false, s, start, i) == 0 && KeywordAt(s, i, keyword)
  }

  /** The first hit at or after i, or -1. */
  function FindKeyword(s: string, start: nat, i: nat, keyword: string): (r: int)
    requires start <= i <= |s|
    ensures r == -1 || i <= r < |s|
    ensures r >= 0 ==> KeywordHit(s, start, r, keyword)
    ensures forall k :: i <= k < (if r >= 0 then r else |s|) ==> !KeywordHit(s, start, k, keyword)
    decreases |s| - i
  {
    if i == |s| then -1
    else if KeywordHit(s, start, i, keyword) then i
    else FindKeyword(s, start, i + 1, keyword)
  }

  lemma {:induction false} FindKeywordUnique(s: string, start: nat, keyword: string, r: nat)
    requires start <= r < |s| && KeywordHit(s, start, r, keyword)
    requires forall k :: start <= k < r ==> !KeywordHit(s, start, k, keyword)
    ensures FindKeyword(s, start, start, keyword) == r
  {
  }

  method FindTopLevelKeyword(s: string, start: nat, keyword: string) returns (r: int)
    requires start <= |s| && keyword != "" && IsLetter(keyword[0])
    ensures r == FindKeyword(s, start, start, keyword)
  {
    var depth := 0;
    var pos := start;
    while pos < |s|
      invariant Resumes(s, start, pos, depth)
      invariant forall k :: start <= k < pos ==> !KeywordHit(s, start, k, keyword)
    {
      var end := SkipOpaque(s, pos, start, depth);
      if KeywordAt(s, pos, keyword) {
        assert s[pos..pos + |keyword|][0] == s[pos] && Upper(s[pos..pos + |keyword|])[0] == Upper(keyword)[0];
        assert IsLetter(s[pos]);
      }
      if s[pos] == '(' {
        depth := depth + 1;
      } else if s[pos] == ')' {
        if depth > 0 {
          depth := depth - 1;
        }
      } else if end == pos && depth == 0 && KeywordAt(s, pos, keyword) {
        FindKeywordUnique(s, start, keyword, pos);
        return pos;
      }
      pos := end + 1;
    }
    return -1;
  }

  // ---- splitTopLevelSQLList ----

  predicate CommaAt(s: string, i: nat)
    requires i < |s|
  {
    s[i] == ',' && CodeAt(false, s, 0, i) && DepthAt(false, s, 0, i) == 0
  }

  /** The untrimmed pieces of s[from..] between top-level commas, with s[from..i] known to hold none. */
  function Pieces(s: string, from: nat, i: nat): (ps: seq<string>)
    requires from <= i <= |s|
    ensures |ps| > 0
    decreases |s| - i
  {
    if i == |s| then [s[from..]]
    else if CommaAt(s, i) then [s[from..i]] + Pieces(s, i + 1, i + 1)
    else Pieces(s, from, i + 1)
  }

  function TrimAll(ps: seq<string>): (r: seq<string>)
    ensures |r| == |ps|
    ensures forall i :: 0 <= i < |ps| ==> r[i] == TrimSpace(ps[i])
  {
    seq(|ps|, i requires 0 <= i < |ps| => TrimSpace(ps[i]))
  }

  function DropEmptyTail(items: seq<string>): (r: seq<string>)
  {
    if |items| > 0 && items[|items| - 1] == "" then items[..|items| - 1] else items
  }

  function SplitItems(s: string): (r: seq<string>)
  {
    DropEmptyTail(TrimAll(Pieces(s, 0, 0)))
  }

  method SplitTopLevelList(s: string) returns (items: seq<string>)
    ensures items == SplitItems(s)
  {
    ghost var done: seq<string> := [];
    items := [];
    var begin := 0;
    var depth: nat := 0;
    var pos := 0;
    while pos < |s|
      invariant Resumes(s, 0, pos, depth)
      invariant begin <= pos
      invariant items == TrimAll(done)
      invariant Pieces(s, 0, 0) == done + Pieces(s, begin, pos)
    {
      hide Pieces, TrimSpace, TrimAll, Resumes, Run, CommaAt, CodeAt, DepthAt;
      var end := SkipOpaque(s, pos, 0, depth);
      CommaHere(s, pos, depth);
      if s[pos] == ',' && depth == 0 {
        CutHere(s, done, begin, pos);
        items := items + [TrimSpace(s[begin..pos])];
        done := done + [s[begin..pos]];
        begin := pos + 1;
      } else {
        NoCommaSkipped(s, begin, pos, end);
        depth := if s[pos] == '(' then depth + 1 else if s[pos] == ')' && depth > 0 then depth - 1 else depth;
      }
      pos := end + 1;
    }
    var tail := TrimSpace(s[begin..]);
    LastPiece(s, done, begin);
    hide Pieces, TrimAll, TrimSpace, Run;
    if tail != "" {
      items := items + [tail];
    }
  }

  lemma {:induction false} NoCommaSkipped(s: string, from: nat, at: nat, end: nat)
    requires from <= at <= end < |s| && !CommaAt(s, at)
    requires forall k :: at < k <= end ==> !CodeAt(false, s, 0, k)
    ensures Pieces(s, from, at) == Pieces(s, from, end + 1)
  {
    hide Run, Pieces;
    NoCommaInside(s, from, at, end + 1);
  }

  /** At a character the scanner looks at, its own depth decides whether a comma cuts. */
  lemma {:induction false} CommaHere(s: string, pos: nat, depth: nat)
    requires pos < |s| && Resumes(s, 0, pos, depth)
    ensures CommaAt(s, pos) <==> s[pos] == ',' && depth == 0
  {
    RunNext(false, START, s, 0, pos);
  }

  lemma {:induction false} LastPiece(s: string, done: seq<string>, begin: nat)
    requires begin <= |s| && Pieces(s, 0, 0) == done + Pieces(s, begin, |s|)
    ensures TrimAll(Pieces(s, 0, 0)) == TrimAll(done) + [TrimSpace(s[begin..])]
  {
  }

  lemma {:induction false} CutHere(s: string, done: seq<string>, begin: nat, pos: nat)
    requires begin <= pos < |s| && CommaAt(s, pos)
    requires Pieces(s, 0, 0) == done + Pieces(s, begin, pos)
    ensures Pieces(s, 0, 0) == (done + [s[begin..pos]]) + Pieces(s, pos + 1, pos + 1)
    ensures TrimAll(done + [s[begin..pos]]) == TrimAll(done) + [TrimSpace(s[begin..pos])]
  {
  }

  lemma {:induction false} NoCommaInside(s: string, from: nat, i: nat, j: nat)
    requires from <= i <= j <= |s|
    requires forall k :: i <= k < j ==> !CommaAt(s, k)
    ensures Pieces(s, from, i) == Pieces(s, from, j)
    decreases j - i
  {
    if i < j {
      NoCommaInside(s, from, i + 1, j);
    }
  }

  /** Putting the commas back between the untrimmed pieces gives the text back. */
  lemma {:induction false} PiecesRebuild(s: string, from: nat, i: nat)
    requires from <= i <= |s|
    ensures Join(Pieces(s, from, i), ",") == s[from..]
    decreases |s| - i
  {
    if i < |s| {
      if CommaAt(s, i) {
        PiecesRebuild(s, i + 1, i + 1);
        assert s[from..] == s[from..i] + "," + s[i + 1..];
      } else {
        PiecesRebuild(s, from, i + 1);
      }
    }
  }

  /** The number of commas the splitter cuts at. */
  function CommaCount(s: string, i: nat): nat
    requires i <= |s|
    decreases |s| - i
  {
    if i == |s| then 0 else (if CommaAt(s, i) then 1 else 0) + CommaCount(s, i + 1)
  }

  lemma {:induction false} PiecesCount(s: string, from: nat, i: nat)
    requires from <= i <= |s|
    ensures |Pieces(s, from, i)| == CommaCount(s, i) + 1
    decreases |s| - i
  {
    if i < |s| {
      PiecesCount(s, if CommaAt(s, i) then i + 1 else from, i + 1);
    }
  }

  // ---- findMatchingSQLParen ----

  /** Reading s[k] brings the code depth opened at `open` back to zero. */
  predicate ClosesAt(s: string, open: nat, k: nat)
    requires open < k < |s|
  {
    DepthAt(false, s, open, k) == 1 && DepthAt(false, s, open, k + 1) == 0
  }

  function MatchParen(s: string, open: nat, i: nat): (r: int)
    requires open < i <= |s|
    ensures r == -1 || i <= r < |s|
    ensures r >= 0 ==> ClosesAt(s, open, r) && s[r] == ')' && CodeAt(false, s, open, r)
    ensures forall k :: i <= k < (if r >= 0 then r else |s|) ==> !ClosesAt(s, open, k)
    decreases |s| - i
  {
    if i == |s| then -1
    else if ClosesAt(s, open, i) then i
    else MatchParen(s, open, i + 1)
  }

  lemma {:induction false} MatchParenUnique(s: string, open: nat, r: nat)
    requires open < r < |s| && ClosesAt(s, open, r)
    requires forall k :: open < k < r ==> !ClosesAt(s, open, k)
    ensures MatchParen(s, open, open + 1) == r
  {
  }

  method FindMatchingParen(s: string, open: nat) returns (r: int)
    requires open < |s| && s[open] == '('
    ensures r == MatchParen(s, open, open + 1)
  {
    var depth := 0;
    var pos := open;
    while pos < |s|
      invariant depth >= 0
      invariant Resumes(s, open, pos, depth)
      invariant pos > open ==> depth >= 1
      invariant forall k :: open < k < pos ==> !ClosesAt(s, open, k)
    {
      var end := SkipOpaque(s, pos, open, depth);
      if s[pos] == '(' {
        depth := depth + 1;
      } else if s[pos] == ')' {
        depth := depth - 1;
        if depth == 0 {
          MatchParenUnique(s, open, pos);
          return pos;
        }
      }
      forall k | pos < k <= end ensures !ClosesAt(s, open, k) {
        assert !CodeAt(false, s, open, k);
        if ClosesAt(s, open, k) {
          assert InCode(Run(false, START, s, open, k).mode) && s[k] == ')';
          NonBindModes(s, open, k);
        }
      }
      pos := end + 1;
    }
    return -1;
  }

  /** Without bind recognition only three modes are code. */
  lemma {:induction false} NonBindModes(s: string, start: nat, i: nat)
    requires start <= i <= |s|
    ensures var m := Run(false, START, s, start, i).mode;
            !(m.QSeen? || m.Colon? || m.ColonColon? || m.BindName? || m.BindNum? || m.AltOpen? || m.Alt? || m.AltEnd?)
    decreases i
  {
    if start < i {
      NonBindModes(s, start, i - 1);
    }
  }
}
