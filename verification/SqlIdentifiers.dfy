/** Oracle identifiers: the printer, the token reader, and why one inverts the other. */
module SqlIdentifiers {
  import opened Common
  import opened SqlText

  /** Name is what the identifier denotes, text how it was spelled. */
  datatype Token = Token(name: string, text: string, quoted: bool)

  /** A token and the text that follows it. */
  datatype Read = Read(tok: Token, rest: string)

  function EscapeQuotes(s: string): (r: string)
  {
    if s == "" then "" else (if s[0] == '"' then "\"\"" else [s[0]]) + EscapeQuotes(s[1..])
  }

  function QuoteIdentifier(name: string): (r: string)
    ensures |r| >= 2 && r[0] == '"' && r[|r| - 1] == '"'
  {
    "\"" + EscapeQuotes(name) + "\""
  }

  function SkipSpace(s: string): (r: string)
    ensures |r| <= |s|
    ensures r != "" ==> !IsSqlSpace(r[0])
  {
    if s != "" && IsSqlSpace(s[0]) then SkipSpace(s[1..]) else s
  }

  /** Reads past an opening quote: the name and how many characters it took, closing quote included. */
  function ReadQuoted(s: string): (r: Option<(string, nat)>)
    ensures r.Some? ==> 0 < r.value.1 <= |s|
  {
    if s == "" then None
    else if s[0] == '"' then
      if |s| > 1 && s[1] == '"' then
        match ReadQuoted(s[2..]) case None => None case Some((n, k)) => Some(("\"" + n, k + 2))
      else Some(("", 1))
    else
      match ReadQuoted(s[1..]) case None => None case Some((n, k)) => Some(([s[0]] + n, k + 1))
  }

  function IdentLen(s: string): (k: nat)
    ensures k <= |s|
    ensures forall i :: 0 <= i < k ==> IsIdentPart(s[i])
    ensures k < |s| ==> !IsIdentPart(s[k])
  {
    if s != "" && IsIdentPart(s[0]) then 1 + IdentLen(s[1..]) else 0
  }

  function ReadQuotedToken(t: string): (r: Option<Read>)
    requires t != "" && t[0] == '"'
    ensures r.Some? ==> |r.value.rest| < |t|
  {
    match ReadQuoted(t[1..])
    case None => None
    case Some((name, k)) => Some(Read(Token(name, t[..k + 1], true), t[k + 1..]))
  }

  function ReadWord(t: string): (r: Read)
    requires t != "" && IsIdentStart(t[0])
    ensures |r.rest| < |t|
  {
    var k := IdentLen(t);
    Read(Token(Upper(t[..k]), t[..k], false), t[k..])
  }

  /** The token at the very beginning of t, if one begins there. */
  function ReadAt(t: string): (r: Option<Read>)
    ensures r.Some? ==> |r.value.rest| < |t|
  {
    if t == "" then None
    else if t[0] == '"' then ReadQuotedToken(t)
    else if IsIdentStart(t[0]) then Some(ReadWord(t))
    else None
  }

  /** readOracleIdentifierToken on the text from a position on. */
  function ReadToken(s: string): (r: Option<Read>)
    ensures r.Some? ==> |r.value.rest| < |s|
  {
    ReadAt(SkipSpace(s))
  }

  /** readOracleIdentifierToken as it walks the text by position. */
  method ReadIdentifierToken(value: string, pos: nat) returns (tok: Token, next: nat, ok: bool)
    requires pos <= |value|
    ensures ok <==> ReadToken(value[pos..]).Some?
    ensures ok ==> next <= |value| && ReadToken(value[pos..]) == Some(Read(tok, value[next..]))
  {
    var p := pos;
    while p < |value| && IsSqlSpace(value[p])
      invariant pos <= p <= |value|
      invariant SkipSpace(value[pos..]) == SkipSpace(value[p..])
    {
      assert value[p..][1..] == value[p + 1..];
      p := p + 1;
    }
    assert SkipSpace(value[pos..]) == value[p..];
    tok, next, ok := Token("", "", false), p, false;
    if p >= |value| {
      return;
    }
    if value[p] == '"' {
      tok, next, ok := ReadQuotedByPosition(value, p);
    } else if IsIdentStart(value[p]) {
      tok, next := ReadWordByPosition(value, p);
      ok := true;
    }
  }

  method ReadQuotedByPosition(value: string, pos: nat) returns (tok: Token, next: nat, ok: bool)
    requires pos < |value| && value[pos] == '"'
    ensures ok <==> ReadQuotedToken(value[pos..]).Some?
    ensures ok ==> next <= |value| && ReadQuotedToken(value[pos..]) == Some(Read(tok, value[next..]))
  {
    var name, end := ScanQuoted(value, pos + 1);
    ghost var t := value[pos..];
    assert t[1..] == value[pos + 1..];
    if end == |value| {
      return Token("", "", false), pos, false;
    }
    assert t[..end - pos + 1] == value[pos..end + 1] && t[end - pos + 1..] == value[end + 1..];
    return Token(name, value[pos..end + 1], true), end + 1, true;
  }

  /** The loop that undoes doubled quotes; end is the closing quote, or |value| when there is none. */
  method ScanQuoted(value: string, begin: nat) returns (name: string, end: nat)
    requires begin <= |value|
    ensures begin <= end <= |value|
    ensures ReadQuoted(value[begin..]) == if end == |value| then None else Some((name, end - begin + 1))
  {
    end := begin;
    name := "";
    PrependNothing(ReadQuoted(value[begin..]));
    while end < |value|
      invariant begin <= end <= |value|
      invariant ReadQuoted(value[begin..]) == Prepend(name, end - begin, ReadQuoted(value[end..]))
    {
      ReadQuotedStep(value, end);
      if value[end] == '"' {
        if end + 1 < |value| && value[end + 1] == '"' {
          PrependTwice(name, end - begin, "\"", 2, ReadQuoted(value[end + 2..]));
          name := name + "\"";
          end := end + 2;
          continue;
        }
        assert name + "" == name;
        return;
      }
      PrependTwice(name, end - begin, [value[end]], 1, ReadQuoted(value[end + 1..]));
      name := name + [value[end]];
      end := end + 1;
    }
  }

  lemma {:induction false} ReadQuotedStep(value: string, end: nat)
    requires end < |value|
    ensures ReadQuoted(value[end..]) ==
            if value[end] != '"' then Prepend([value[end]], 1, ReadQuoted(value[end + 1..]))
            else if end + 1 < |value| && value[end + 1] == '"' then Prepend("\"", 2, ReadQuoted(value[end + 2..]))
            else Some(("", 1))
  {
    var s := value[end..];
    assert s[1..] == value[end + 1..];
    if |s| > 1 {
      assert s[2..] == value[end + 2..];
    }
  }

  lemma {:induction false} PrependNothing(r: Option<(string, nat)>)
    ensures Prepend("", 0, r) == r
  {
    if r.Some? {
      assert "" + r.value.0 == r.value.0;
    }
  }

  ghost function Prepend(name: string, taken: nat, r: Option<(string, nat)>): Option<(string, nat)>
  {
    match r case None => None case Some((n, k)) => Some((name + n, taken + k))
  }

  lemma {:induction false} PrependTwice(a: string, i: nat, b: string, j: nat, r: Option<(string, nat)>)
    ensures Prepend(a, i, Prepend(b, j, r)) == Prepend(a + b, i + j, r)
  {
    if r.Some? {
      assert a + (b + r.value.0) == (a + b) + r.value.0;
    }
  }

  method ReadWordByPosition(value: string, pos: nat) returns (tok: Token, next: nat)
    requires pos < |value| && IsIdentStart(value[pos])
    ensures next <= |value| && ReadWord(value[pos..]) == Read(tok, value[next..])
  {
    hide Upper;
    var end := pos + 1;
    ghost var t := value[pos..];
    assert t[1..] == value[end..];
    while end < |value| && IsIdentPart(value[end])
      invariant pos < end <= |value|
      invariant IdentLen(t) == (end - pos) + IdentLen(value[end..])
    {
      assert value[end..][1..] == value[end + 1..];
      end := end + 1;
    }
    assert t[..end - pos] == value[pos..end] && t[end - pos..] == value[end..];
    return Token(Upper(value[pos..end]), value[pos..end], false), end;
  }

  /** Tokens are spelled the one way the printer would spell them, or are plain words. */
  predicate ValidToken(tok: Token)
  {
    if tok.quoted then tok.text == QuoteIdentifier(tok.name)
    else && tok.text != "" && IsIdentStart(tok.text[0])
         && (forall i :: 0 <= i < |tok.text| ==> IsIdentPart(tok.text[i]))
         && tok.name == Upper(tok.text)
  }

  /** `after` does not continue the token. */
  predicate EndsToken(tok: Token, after: string)
  {
    after == "" || (if tok.quoted then after[0] != '"' else !IsIdentPart(after[0]))
  }

  lemma {:induction false} ReadQuotedText(s: string)
    requires ReadQuoted(s).Some?
    ensures var Some((n, k)) := ReadQuoted(s); s[..k] == EscapeQuotes(n) + "\"" && (k < |s| ==> s[k] != '"')
  {
    var Some((n, k)) := ReadQuoted(s);
    if s[0] == '"' {
      if |s| > 1 && s[1] == '"' {
        ReadQuotedText(s[2..]);
        var Some((n', k')) := ReadQuoted(s[2..]);
        assert n[1..] == n';
        assert s[..k] == "\"\"" + s[2..][..k'];
      }
    } else {
      ReadQuotedText(s[1..]);
      var Some((n', k')) := ReadQuoted(s[1..]);
      assert n[1..] == n';
      assert s[..k] == [s[0]] + s[1..][..k'];
    }
  }

  lemma {:induction false} ReadAtValid(t: string)
    requires ReadAt(t).Some?
    ensures var Some(Read(tok, rest)) := ReadAt(t); ValidToken(tok) && EndsToken(tok, rest) && t == tok.text + rest
  {
    if t[0] == '"' {
      ReadQuotedText(t[1..]);
      var Some((n, k)) := ReadQuoted(t[1..]);
      assert t[..k + 1] == "\"" + t[1..][..k] == QuoteIdentifier(n);
      assert t == t[..k + 1] + t[k + 1..];
    } else {
      var k := IdentLen(t);
      assert t == t[..k] + t[k..];
    }
  }

  lemma {:induction false} ReadQuotedEscaped(name: string, after: string)
    requires after == "" || after[0] != '"'
    ensures ReadQuoted(EscapeQuotes(name) + "\"" + after) == Some((name, |EscapeQuotes(name)| + 1))
  {
    var s := EscapeQuotes(name) + "\"" + after;
    if name == "" {
      assert s == "\"" + after;
    } else {
      ReadQuotedEscaped(name[1..], after);
      if name[0] == '"' {
        assert s[0] == '"' && s[1] == '"';
        assert s[2..] == EscapeQuotes(name[1..]) + "\"" + after;
      } else {
        assert s[0] == name[0];
        assert s[1..] == EscapeQuotes(name[1..]) + "\"" + after;
      }
      assert name == [name[0]] + name[1..];
    }
  }

  lemma {:induction false} IdentLenWord(word: string, after: string)
    requires forall i :: 0 <= i < |word| ==> IsIdentPart(word[i])
    requires after == "" || !IsIdentPart(after[0])
    ensures IdentLen(word + after) == |word|
  {
    if word == "" {
      assert word + after == after;
    } else {
      assert (word + after)[1..] == word[1..] + after;
      IdentLenWord(word[1..], after);
    }
  }

  /** Reading a printed token gives it back with the text that follows, whatever characters its name holds. */
  lemma {:induction false} ReadPrinted(tok: Token, after: string)
    requires ValidToken(tok) && EndsToken(tok, after)
    ensures ReadAt(tok.text + after) == Some(Read(tok, after))
    ensures ReadToken(tok.text + after) == Some(Read(tok, after))
  {
    var s := tok.text + after;
    assert SkipSpace(s) == s;
    assert s[..|tok.text|] == tok.text && s[|tok.text|..] == after;
    if tok.quoted {
      ReadQuotedEscaped(tok.name, after);
      assert s[1..] == EscapeQuotes(tok.name) + "\"" + after;
    } else {
      IdentLenWord(tok.text, after);
    }
  }

  function Quoted(name: string): (tok: Token)
    ensures ValidToken(tok)
  {
    Token(name, QuoteIdentifier(name), true)
  }

  lemma {:induction false} SkipSpaces(spaces: string, s: string)
    requires forall i :: 0 <= i < |spaces| ==> IsSqlSpace(spaces[i])
    ensures SkipSpace(spaces + s) == SkipSpace(s)
  {
    if spaces != "" {
      assert (spaces + s)[1..] == spaces[1..] + s;
      SkipSpaces(spaces[1..], s);
    } else {
      assert spaces + s == s;
    }
  }

  /** For every name: printing it and reading it back, in any surroundings that do not touch it. */
  lemma {:induction false} QuoteRoundTrip(spaces: string, name: string, after: string)
    requires forall i :: 0 <= i < |spaces| ==> IsSqlSpace(spaces[i])
    requires after == "" || after[0] != '"'
    ensures ReadToken(spaces + QuoteIdentifier(name) + after) == Some(Read(Quoted(name), after))
  {
    var printed := QuoteIdentifier(name) + after;
    ReadPrinted(Quoted(name), after);
    SkipSpaces(spaces, printed);
    assert spaces + QuoteIdentifier(name) + after == spaces + printed;
  }

  function UnescapeQuotes(s: string): (r: string)
  {
    if s == "" then ""
    else if |s| >= 2 && s[0] == '"' && s[1] == '"' then "\"" + UnescapeQuotes(s[2..])
    else [s[0]] + UnescapeQuotes(s[1..])
  }

  /** unquoteOracleIdentifierText. */
  function UnquoteText(value: string): (r: string)
  {
    var v := TrimSpace(value);
    if |v| >= 2 && v[0] == '"' && v[|v| - 1] == '"' then UnescapeQuotes(v[1..|v| - 1]) else Upper(v)
  }

  lemma {:induction false} UnescapeEscaped(s: string)
    ensures UnescapeQuotes(EscapeQuotes(s)) == s
  {
    if s != "" {
      UnescapeEscaped(s[1..]);
      var e := EscapeQuotes(s);
      if s[0] == '"' {
        assert e[2..] == EscapeQuotes(s[1..]);
      } else {
        assert e[1..] == EscapeQuotes(s[1..]);
      }
      assert s == [s[0]] + s[1..];
    }
  }

  /** The text-level unquoting used for qualifiers agrees with the token reader. */
  lemma {:induction false} UnquoteIsName(tok: Token)
    requires ValidToken(tok)
    ensures UnquoteText(tok.text) == tok.name
  {
    TrimOfTrimmed(tok.text);
    if tok.quoted {
      assert tok.text[1..|tok.text| - 1] == EscapeQuotes(tok.name);
      UnescapeEscaped(tok.name);
    }
  }

  /** oracleIdentifierKey. */
  function IdentKey(value: string): string
  {
    Upper(TrimSpace(value))
  }
}
