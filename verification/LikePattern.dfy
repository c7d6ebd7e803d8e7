/**
 The LIKE-pattern builders of the Oracle and Xugu drivers, proved against the meaning of the
 like predicate with an escape character (section 8.5 of ISO/IEC 9075-2).
 */
module LikePattern {
  import opened SqlText

  predicate IsLikeSpecial(c: char)
  {
    c == '\\' || c == '%' || c == '_'
  }

  /** `s LIKE p ESCAPE '\'`; an escape not followed by a special character matches nothing. */
  ghost predicate Like(s: string, p: string)
    decreases |p|
  {
    if p == "" then s == ""
    else if p[0] == '\\' then
      |p| >= 2 && IsLikeSpecial(p[1]) && s != "" && s[0] == p[1] && Like(s[1..], p[2..])
    else if p[0] == '%' then exists k :: 0 <= k <= |s| && Like(s[k..], p[1..])
    else if p[0] == '_' then s != "" && Like(s[1..], p[1..])
    else s != "" && s[0] == p[0] && Like(s[1..], p[1..])
  }

  function EscapeChar(c: char): (r: string)
  {
    if IsLikeSpecial(c) then ['\\', c] else [c]
  }

  function EscapeAll(s: string): (r: string)
  {
    if s == "" then "" else EscapeChar(s[0]) + EscapeAll(s[1..])
  }

  function FuzzyBody(s: string): (r: string)
  {
    if s == "" then "" else EscapeChar(s[0]) + "%" + FuzzyBody(s[1..])
  }

  lemma {:induction false} FuzzyBodySnoc(s: string, c: char)
    ensures FuzzyBody(s + [c]) == FuzzyBody(s) + (EscapeChar(c) + "%")
  {
    hide EscapeChar;
    if s == "" {
      assert (s + [c])[1..] == "" && FuzzyBody("") == "";
    } else {
      var first, rest, last := EscapeChar(s[0]) + "%", s[1..], EscapeChar(c) + "%";
      assert (s + [c])[1..] == rest + [c];
      FuzzyBodySnoc(rest, c);
      assert FuzzyBody(s + [c]) == first + FuzzyBody(rest + [c]);
      assert first + (FuzzyBody(rest) + last) == (first + FuzzyBody(rest)) + last;
    }
  }

  lemma {:induction false} MatchesAnything(name: string)
    ensures Like(name, "%%")
  {
    LikePercent(name, "");
    LikePercent(name, "%");
    assert name[|name|..] == "" && Like(name[|name|..], "");
    assert "%" + "" == "%" && "%" + "%" == "%%" && name[0..] == name;
  }

  method FuzzyLikePattern(value: string) returns (pattern: string)
    ensures forall name :: Like(name, pattern) <==> Subsequence(TrimSpace(value), name)
  {
    hide Like, TrimSpace;
    var trimmed := TrimSpace(value);
    if trimmed == "" {
      forall name: string ensures Like(name, "%%") {
        MatchesAnything(name);
      }
      return "%%";
    }
    pattern := "%";
    var i := 0;
    while i < |trimmed|
      invariant 0 <= i <= |trimmed|
      invariant pattern == "%" + FuzzyBody(trimmed[..i])
    {
      FuzzyBodySnoc(trimmed[..i], trimmed[i]);
      assert trimmed[..i + 1] == trimmed[..i] + [trimmed[i]];
      if IsLikeSpecial(trimmed[i]) {
        pattern := pattern + "\\";
      }
      pattern := pattern + [trimmed[i]];
      pattern := pattern + "%";
      i := i + 1;
    }
    assert trimmed[..i] == trimmed;
    forall name ensures Like(name, pattern) <==> Subsequence(trimmed, name) {
      FuzzyMatchesSubsequence(name, trimmed);
    }
  }

  /** The characters of t occur in s in order. */
  ghost predicate Subsequence(t: string, s: string)
    decreases |t|
  {
    t == "" || exists k :: 0 <= k < |s| && s[k] == t[0] && Subsequence(t[1..], s[k + 1..])
  }

  lemma {:induction false} LikeEscaped(s: string, c: char, rest: string)
    ensures Like(s, EscapeChar(c) + rest) <==> s != "" && s[0] == c && Like(s[1..], rest)
  {
    var p := EscapeChar(c) + rest;
    if IsLikeSpecial(c) {
      assert p[0] == '\\' && p[1] == c && p[2..] == rest;
    } else {
      assert p[0] == c && p[1..] == rest;
    }
  }

  lemma {:induction false} LikePercent(s: string, rest: string)
    ensures Like(s, "%" + rest) <==> exists k :: 0 <= k <= |s| && Like(s[k..], rest)
  {
    var p := "%" + rest;
    assert p[0] == '%' && p[1..] == rest;
  }

  lemma {:induction false} FuzzyMatchesSubsequence(s: string, t: string)
    ensures Like(s, "%" + FuzzyBody(t)) <==> Subsequence(t, s)
    decreases |t|
  {
    LikePercent(s, FuzzyBody(t));
    if t == "" {
      assert s[|s|..] == "" && Like(s[|s|..], "");
    } else {
      var tail := "%" + FuzzyBody(t[1..]);
      assert FuzzyBody(t) == EscapeChar(t[0]) + tail;
      forall k | 0 <= k <= |s|
        ensures Like(s[k..], FuzzyBody(t)) <==> k < |s| && s[k] == t[0] && Subsequence(t[1..], s[k + 1..])
      {
        LikeEscaped(s[k..], t[0], tail);
        if k < |s| {
          assert s[k..][1..] == s[k + 1..];
          FuzzyMatchesSubsequence(s[k + 1..], t[1..]);
        }
      }
    }
  }

  /** The match mode, compared as strings.EqualFold does; U+017F also folds to s. */
  predicate IsContainsMode(mode: string)
  {
    var m := TrimSpace(mode);
    && |m| == 8
    && forall i :: 0 <= i < 8 ==> UpperChar(m[i]) == "CONTAINS"[i] || (i == 7 && m[i] == '\U{017F}')
  }

  /** For a mode without U+017F this is the word contains in any case, with blanks around it or not. */
  lemma {:induction false} ContainsModeIs(mode: string)
    requires '\U{017F}' !in mode
    ensures IsContainsMode(mode) <==> Upper(TrimSpace(mode)) == "CONTAINS"
  {
    var m := TrimSpace(mode);
    assert forall i :: 0 <= i < |m| ==> m[i] == mode[TrimLo(mode) + i];
    if IsContainsMode(mode) {
      assert forall i :: 0 <= i < 8 ==> Upper(m)[i] == "CONTAINS"[i];
    }
  }

  function CompletionLikePattern(mask: string, mode: string): (pattern: string)
  {
    var escaped := EscapeAll(TrimSpace(mask));
    if IsContainsMode(mode) then "%" + escaped + "%" else escaped + "%"
  }

  lemma {:induction false} EscapedPrefix(s: string, m: string)
    ensures Like(s, EscapeAll(m) + "%") <==> m <= s
    decreases |m|
  {
    if m == "" {
      LikePercent(s, "");
      assert s[|s|..] == "" && Like(s[|s|..], "");
      assert EscapeAll(m) + "%" == "%" == "%" + "";
    } else {
      assert EscapeAll(m) + "%" == EscapeChar(m[0]) + (EscapeAll(m[1..]) + "%");
      LikeEscaped(s, m[0], EscapeAll(m[1..]) + "%");
      if s != "" {
        EscapedPrefix(s[1..], m[1..]);
        assert s == [s[0]] + s[1..] && m == [m[0]] + m[1..];
      }
    }
  }

  lemma {:induction false} CompletionMatches(mask: string, mode: string, s: string)
    ensures Like(s, CompletionLikePattern(mask, mode)) <==>
            if IsContainsMode(mode) then exists k :: 0 <= k <= |s| && TrimSpace(mask) <= s[k..]
            else TrimSpace(mask) <= s
  {
    var m := TrimSpace(mask);
    if IsContainsMode(mode) {
      assert "%" + EscapeAll(m) + "%" == "%" + (EscapeAll(m) + "%");
      LikePercent(s, EscapeAll(m) + "%");
      forall k | 0 <= k <= |s| ensures Like(s[k..], EscapeAll(m) + "%") <==> m <= s[k..] {
        EscapedPrefix(s[k..], m);
      }
    } else {
      EscapedPrefix(s, m);
    }
  }
}
