/**
 How select-list fragments lex: which ones can be cut out of a list or joined into one without
 moving any comma, parenthesis or FROM between code and non-code.
 */
module SqlSegments {
  import opened SqlText
  import opened SqlLexer
  import opened SqlScanners
  import opened SqlIdentifiers

  predicate IsPlain(c: char)
  {
    c != '\'' && c != '"' && c != '-' && c != '/' && c != '(' && c != ')'
  }

  lemma {:induction false} RunPlain(st: State, s: string, i: nat, j: nat)
    requires i <= j <= |s| && (st.mode.Code? || st.mode.Dash? || st.mode.Slash?)
    requires forall k :: i <= k < j ==> IsPlain(s[k]) && (s[k] != '*' || st.mode.Code?)
    ensures Run(false, st, s, i, j) == if i == j then st else State(Code, st.depth)
    decreases j
  {
    if i < j {
      RunPlain(st, s, i, j - 1);
    }
  }

  /** The final state of a fragment lexed on its own. */
  function Final(s: string): State
  {
    Run(false, START, s, 0, |s|)
  }

  predicate NoTopComma(s: string)
  {
    forall k :: 0 <= k < |s| ==> !CommaAt(s, k)
  }

  predicate NoTopFrom(s: string)
  {
    forall k :: 0 <= k < |s| ==> !KeywordHit(s, 0, k, "from")
  }

  /** A fragment that ends in code outside parentheses and offers neither a comma nor FROM at top level. */
  predicate GoodItem(s: string)
  {
    && InCode(Final(s).mode) && Final(s).depth == 0
    && NoTopComma(s) && NoTopFrom(s)
  }

  /** As good, and leaving the lexer exactly where it began. */
  predicate Solid(s: string)
  {
    Final(s) == START && NoTopComma(s) && NoTopFrom(s)
  }

  lemma {:induction false} FromLetter(s: string, k: nat)
    requires KeywordAt(s, k, "from")
    ensures k + 4 <= |s| && IsLetter(s[k]) && IsLetter(s[k + 1]) && IsLetter(s[k + 2]) && IsLetter(s[k + 3])
    ensures UpperChar(s[k]) == 'F'
  {
    var w := s[k..k + 4];
    assert |"from"| == 4;
    assert Upper(w) == Upper("from");
    assert w[0] == s[k] && w[1] == s[k + 1] && w[2] == s[k + 2] && w[3] == s[k + 3];
    assert Upper(w)[0] == Upper("from")[0] && Upper(w)[1] == Upper("from")[1];
    assert Upper(w)[2] == Upper("from")[2] && Upper(w)[3] == Upper("from")[3];
  }

  lemma {:induction false} RunShortPrefix(st: State, a: string, b: string, k: nat)
    requires k <= |a|
    ensures Run(false, st, a + b, 0, k) == Run(false, st, a, 0, k)
  {
    hide Run;
    var c := a + b;
    assert c[0..0 + k] == a[0..0 + k];
    RunShift(false, st, c, 0, a, 0, k);
  }

  lemma {:induction false} RunLongPrefix(st: State, a: string, b: string, k: nat)
    requires k <= |b|
    ensures Run(false, st, a + b, 0, |a| + k) == Run(false, Run(false, st, a, 0, |a|), b, 0, k)
  {
    hide Run;
    var c := a + b;
    RunShortPrefix(st, a, b, |a|);
    RunCompose(false, st, c, 0, |a|, |a| + k);
    assert c[|a|..|a| + k] == b[0..0 + k];
    RunShift(false, Run(false, st, a, 0, |a|), c, |a|, b, 0, k);
  }

  /** Lexing the second of two joined texts, when the first leaves the lexer at the start state. */
  lemma {:induction false} RunSecond(a: string, b: string, k: nat)
    requires Final(a) == START && k <= |b|
    ensures Run(false, START, a + b, 0, |a| + k) == Run(false, START, b, 0, k)
  {
    RunLongPrefix(START, a, b, k);
  }

  /** A hit in joined text is a hit in one of the two parts. */
  lemma {:induction false} HitInJoined(a: string, b: string, k: nat)
    requires k < |a| + |b| && KeywordHit(a + b, 0, k, "from")
    requires a == "" || b == "" || !IsLetter(a[|a| - 1]) || !IsLetter(b[0])
    requires k >= |a| ==> Final(a) == START
    ensures k < |a| ==> KeywordHit(a, 0, k, "from")
    ensures k >= |a| ==> KeywordHit(b, 0, k - |a|, "from")
  {
    hide Run, NextMode;
    var c := a + b;
    FromLetter(c, k);
    if k < |a| {
      RunShortPrefix(START, a, b, k);
      RunShortPrefix(START, a, b, k + 1);
      assert k + 4 <= |a|;
      assert c[k..k + 4] == a[k..k + 4];
    } else {
      RunSecond(a, b, k - |a|);
      RunSecond(a, b, k - |a| + 1);
      assert c[k..k + 4] == b[k - |a|..k - |a| + 4];
    }
  }

  lemma {:induction false} CommaInJoined(a: string, b: string, k: nat)
    requires k < |a| + |b|
    requires k >= |a| ==> Final(a) == START
    ensures k < |a| ==> (CommaAt(a + b, k) <==> CommaAt(a, k))
    ensures k >= |a| ==> (CommaAt(a + b, k) <==> CommaAt(b, k - |a|))
  {
    hide Run, NextMode;
    if k < |a| {
      RunShortPrefix(START, a, b, k);
      RunShortPrefix(START, a, b, k + 1);
    } else {
      RunSecond(a, b, k - |a|);
      RunSecond(a, b, k - |a| + 1);
    }
  }

  lemma {:induction false} SolidConcat(a: string, b: string)
    requires Solid(a) && Solid(b)
    requires a == "" || b == "" || !IsLetter(a[|a| - 1]) || !IsLetter(b[0])
    ensures Solid(a + b)
  {
    RunSecond(a, b, |b|);
    forall k | 0 <= k < |a + b| ensures !CommaAt(a + b, k) && !KeywordHit(a + b, 0, k, "from") {
      CommaInJoined(a, b, k);
      if KeywordHit(a + b, 0, k, "from") {
        HitInJoined(a, b, k);
      }
    }
  }

  /** A word or punctuation without quotes, parentheses, comment openers, commas or the letter F. */
  lemma {:induction false} SolidPlain(s: string)
    requires forall k :: 0 <= k < |s| ==> IsPlain(s[k]) && s[k] != ',' && UpperChar(s[k]) != 'F'
    ensures Solid(s)
  {
    RunPlain(START, s, 0, |s|);
    forall k | 0 <= k < |s| ensures !KeywordHit(s, 0, k, "from") {
      if KeywordAt(s, k, "from") {
        FromLetter(s, k);
      }
    }
  }

  /** Reading s inside quotes ends there, keeps the depth, and never passes two code positions in a row. */
  ghost predicate StaysQuoted(s: string, d: nat)
  {
    Run(false, State(Double, d), s, 0, |s|) == State(Double, d) && forall k :: 0 <= k <= |s| ==> QuotedAt(s, d, k)
  }

  predicate QuotedAt(s: string, d: nat, k: nat)
    requires k <= |s|
  {
    && Run(false, State(Double, d), s, 0, k).depth == d
    && (k < |s| ==> !(InCode(Run(false, State(Double, d), s, 0, k).mode) && InCode(Run(false, State(Double, d), s, 0, k + 1).mode)))
  }

  lemma {:induction false} StaysQuotedCons(head: string, tail: string, d: nat, c: char)
    requires StaysQuoted(tail, d) && head == if c == '"' then "\"\"" else [c]
    ensures StaysQuoted(head + tail, d)
  {
    hide Run, NextMode;
    var st, e := State(Double, d), head + tail;
    QuoteHead(head, tail, st, c);
    RunLongPrefix(st, head, tail, |tail|);
    forall k | 0 <= k <= |e| ensures QuotedAt(e, d, k) {
      if k >= |head| {
        assert QuotedAt(tail, d, k - |head|);
        RunLongPrefix(st, head, tail, k - |head|);
        if k < |e| {
          RunLongPrefix(st, head, tail, k - |head| + 1);
        }
      }
    }
  }

  lemma {:induction false} NothingQuoted(d: nat)
    ensures StaysQuoted("", d)
  {
  }

  lemma {:induction false} EscapedStaysQuoted(name: string, d: nat)
    ensures StaysQuoted(EscapeQuotes(name), d)
  {
    hide StaysQuoted;
    if name == "" {
      NothingQuoted(d);
    } else {
      EscapedStaysQuoted(name[1..], d);
      StaysQuotedCons(if name[0] == '"' then "\"\"" else [name[0]], EscapeQuotes(name[1..]), d, name[0]);
    }
  }

  lemma {:induction false} RunInsideQuotes(name: string, d: nat)
    ensures Run(false, State(Double, d), EscapeQuotes(name), 0, |EscapeQuotes(name)|) == State(Double, d)
    ensures forall k :: 0 <= k < |EscapeQuotes(name)| ==>
              var e := EscapeQuotes(name);
              !(InCode(Run(false, State(Double, d), e, 0, k).mode) && InCode(Run(false, State(Double, d), e, 0, k + 1).mode))
    ensures forall k :: 0 <= k <= |EscapeQuotes(name)| ==> Run(false, State(Double, d), EscapeQuotes(name), 0, k).depth == d
  {
    hide Run, EscapeQuotes, InCode;
    EscapedStaysQuoted(name, d);
    var e := EscapeQuotes(name);
    forall k | 0 <= k <= |e|
      ensures Run(false, State(Double, d), e, 0, k).depth == d
      ensures k < |e| ==> !(InCode(Run(false, State(Double, d), e, 0, k).mode) && InCode(Run(false, State(Double, d), e, 0, k + 1).mode))
    {
      assert QuotedAt(e, d, k);
    }
  }

  /** A doubled quote, or any other character, leaves the lexer inside the quotes. */
  lemma {:induction false} QuoteHead(head: string, tail: string, st: State, c: char)
    requires st.mode.Double? && head == if c == '"' then "\"\"" else [c]
    ensures Run(false, st, head + tail, 0, 0) == st && Run(false, st, head + tail, 0, |head|) == st && Run(false, st, head, 0, |head|) == st
    ensures Run(false, st, head + tail, 0, 1) == State(if c == '"' then Code else Double, st.depth)
  {
    RunShortPrefix(st, head, tail, |head|);
    RunShortPrefix(st, head, tail, 1);
    assert Run(false, st, head, 0, 1) == State(if c == '"' then Code else Double, st.depth);
  }

  /** At every point of the fragment, begun in code at any depth, the depth is what it was; and it ends in code. */
  ghost predicate Flat(s: string)
  {
    forall d: nat :: FlatAt(s, d)
  }

  ghost predicate FlatAt(s: string, d: nat)
  {
    && Run(false, State(Code, d), s, 0, |s|) == State(Code, d)
    && forall k :: 0 <= k <= |s| ==> Run(false, State(Code, d), s, 0, k).depth == d
  }

  lemma {:induction false} FlatPlain(s: string)
    requires forall k :: 0 <= k < |s| ==> IsPlain(s[k])
    ensures Flat(s)
  {
    forall d: nat ensures FlatAt(s, d) {
      forall k | 0 <= k <= |s| ensures Run(false, State(Code, d), s, 0, k) == State(Code, d) {
        RunPlain(State(Code, d), s, 0, k);
      }
    }
  }

  /** The states inside a printed identifier. */
  lemma {:induction false} RunQuoteIdentifier(name: string, d: nat, k: nat)
    requires 0 < k <= |EscapeQuotes(name)| + 1
    ensures Run(false, State(Code, d), QuoteIdentifier(name), 0, k)
            == Run(false, State(Double, d), EscapeQuotes(name), 0, k - 1)
  {
    var q, e := QuoteIdentifier(name), EscapeQuotes(name);
    assert Run(false, State(Code, d), q, 0, 1) == State(Double, d);
    RunCompose(false, State(Code, d), q, 0, 1, k);
    assert q[1..1 + (k - 1)] == e[0..0 + (k - 1)];
    RunShift(false, State(Double, d), q, 1, e, 0, k - 1);
  }

  lemma {:induction false} FlatQuoted(name: string)
    ensures Flat(QuoteIdentifier(name))
  {
    var q, e := QuoteIdentifier(name), EscapeQuotes(name);
    forall d: nat ensures FlatAt(q, d) {
      RunInsideQuotes(name, d);
      forall k | 0 < k <= |e| + 1 ensures Run(false, State(Code, d), q, 0, k).depth == d {
        RunQuoteIdentifier(name, d, k);
      }
      RunQuoteIdentifier(name, d, |e| + 1);
      assert Run(false, State(Code, d), q, 0, |q|) == State(Code, d);
    }
  }

  lemma {:induction false} FlatConcat(a: string, b: string)
    requires Flat(a) && Flat(b)
    ensures Flat(a + b)
  {
    hide Run;
    forall d: nat ensures FlatAt(a + b, d) {
      assert FlatAt(a, d) && FlatAt(b, d);
      RunConcat(false, State(Code, d), a, b);
      forall k | 0 <= k <= |a + b| ensures Run(false, State(Code, d), a + b, 0, k).depth == d {
        if k <= |a| {
          RunShortPrefix(State(Code, d), a, b, k);
        } else {
          RunLongPrefix(State(Code, d), a, b, k - |a|);
        }
      }
    }
  }

  lemma {:induction false} SolidQuoted(name: string)
    ensures Solid(QuoteIdentifier(name))
  {
    var q, e := QuoteIdentifier(name), EscapeQuotes(name);
    FlatQuoted(name);
    assert FlatAt(q, 0);
    RunInsideQuotes(name, 0);
    forall k | 0 <= k < |q| ensures !CodeAt(false, q, 0, k) {
      if k > 0 {
        RunQuoteIdentifier(name, 0, k);
        if k <= |e| {
          RunQuoteIdentifier(name, 0, k + 1);
        }
      }
    }
  }

  /** A parenthesized flat text hides everything inside it. */
  lemma {:induction false} SolidParen(inner: string)
    requires Flat(inner)
    ensures Solid("(" + inner + ")")
  {
    var s := "(" + inner + ")";
    var st := State(Code, 1);
    assert Run(false, START, s, 0, 1) == st;
    assert FlatAt(inner, 1);
    forall k | 0 < k <= |inner| + 1 ensures Run(false, START, s, 0, k) == Run(false, st, inner, 0, k - 1) {
      RunCompose(false, START, s, 0, 1, k);
      assert s[1..1 + (k - 1)] == inner[0..0 + (k - 1)];
      RunShift(false, st, s, 1, inner, 0, k - 1);
    }
    assert Run(false, START, s, 0, |inner| + 1) == st;
    assert Final(s) == START;
    forall k | 0 <= k < |s| ensures !CommaAt(s, k) && !KeywordHit(s, 0, k, "from") {
      if 0 < k <= |inner| {
        assert DepthAt(false, s, 0, k) == 1;
      } else if KeywordHit(s, 0, k, "from") {
        FromLetter(s, k);
      }
    }
  }

  /** An identifier token spelled as read, unless it is the bare word FROM. */
  lemma {:induction false} SolidToken(tok: Token)
    requires ValidToken(tok) && (tok.quoted || tok.name != "FROM")
    ensures Solid(tok.text)
  {
    if tok.quoted {
      SolidQuoted(tok.name);
    } else {
      var s := tok.text;
      RunPlain(START, s, 0, |s|);
      forall k | 0 <= k < |s| ensures !KeywordHit(s, 0, k, "from") {
        if KeywordAt(s, k, "from") {
          FromLetter(s, k);
        }
      }
    }
  }

  lemma {:induction false} FlatToken(tok: Token)
    requires ValidToken(tok)
    ensures Flat(tok.text)
  {
    if tok.quoted {
      FlatQuoted(tok.name);
    } else {
      FlatPlain(tok.text);
    }
  }
}
