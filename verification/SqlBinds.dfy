/**
 The bind-parameter scanner used for EXPLAIN PLAN, proved against the reference lexer with
 alternative quotes and bind names switched on.
 */
module SqlBinds {
  import opened Common
  import opened SqlText
  import opened SqlLexer
  import opened SqlScanners

  datatype Bind = Bind(name: string, positional: bool)

  function DigitEnd(s: string, i: nat): (r: nat)
    requires i <= |s|
    ensures i <= r <= |s|
    ensures forall k :: i <= k < r ==> IsDigit(s[k])
    ensures r < |s| ==> !IsDigit(s[r])
    decreases |s| - i
  {
    if i < |s| && IsDigit(s[i]) then DigitEnd(s, i + 1) else i
  }

  function IdentEnd(s: string, i: nat): (r: nat)
    requires i <= |s|
    ensures i <= r <= |s|
    ensures forall k :: i <= k < r ==> IsIdentPart(s[k])
    ensures r < |s| ==> !IsIdentPart(s[r])
    decreases |s| - i
  {
    if i < |s| && IsIdentPart(s[i]) then IdentEnd(s, i + 1) else i
  }

  /** The bind that begins at pos and the position after it, if one does. */
  function ReadBind(s: string, pos: nat): (r: Option<(Bind, nat)>)
    ensures r.Some? ==> pos + 2 <= r.value.1 <= |s| && s[pos] == ':' && r.value.0.name == s[pos + 1..r.value.1]
    ensures r.Some? ==> forall k :: pos < k < r.value.1 ==> IsIdentPart(s[k])
  {
    if pos + 1 >= |s| || s[pos] != ':' || (pos > 0 && s[pos - 1] == ':') then None
    else if IsDigit(s[pos + 1]) then
      var end := DigitEnd(s, pos + 2);
      Some((Bind(s[pos + 1..end], true), end))
    else if IsIdentStart(s[pos + 1]) then
      var end := IdentEnd(s, pos + 2);
      Some((Bind(s[pos + 1..end], false), end))
    else None
  }

  /** A bind is a single colon before a number, read as far as its digits go, or before a name, read to its end. */
  lemma {:induction false} BindExactly(s: string, pos: nat)
    ensures ReadBind(s, pos).Some? <==>
              pos + 1 < |s| && s[pos] == ':' && (pos > 0 ==> s[pos - 1] != ':') && (IsDigit(s[pos + 1]) || IsIdentStart(s[pos + 1]))
    ensures ReadBind(s, pos).Some? ==>
              var (b, after) := ReadBind(s, pos).value;
              && (b.positional <==> IsDigit(s[pos + 1])) && b.name == s[pos + 1..after]
              && (forall k :: pos < k < after ==> if b.positional then IsDigit(s[k]) else IsIdentPart(s[k]))
              && (after < |s| ==> if b.positional then !IsDigit(s[after]) else !IsIdentPart(s[after]))
  {
  }

  predicate BindAt(s: string, i: nat)
    requires i < |s|
  {
    CodeAt(true, s, 0, i) && ReadBind(s, i).Some?
  }

  /** All binds that begin in code before position i, in text order. */
  function CodeBinds(s: string, i: nat): (r: seq<Bind>)
    requires i <= |s|
  {
    if i == 0 then []
    else CodeBinds(s, i - 1) + (if BindAt(s, i - 1) then [ReadBind(s, i - 1).value.0] else [])
  }

  /** A positional bind, or the first spelling of a name whatever its case. */
  predicate IsFirst(bs: seq<Bind>, i: nat)
    requires i < |bs|
  {
    bs[i].positional || forall j :: 0 <= j < i && !bs[j].positional ==> Upper(bs[j].name) != Upper(bs[i].name)
  }

  function FirstOnly(bs: seq<Bind>, n: nat): (r: seq<Bind>)
    requires n <= |bs|
  {
    if n == 0 then [] else FirstOnly(bs, n - 1) + (if IsFirst(bs, n - 1) then [bs[n - 1]] else [])
  }

  ghost function NamedKeys(bs: seq<Bind>): set<string>
  {
    set i | 0 <= i < |bs| && !bs[i].positional :: Upper(bs[i].name)
  }

  lemma {:induction false} FirstOnlyPrefix(bs: seq<Bind>, b: Bind, n: nat)
    requires n <= |bs|
    ensures FirstOnly(bs + [b], n) == FirstOnly(bs, n)
  {
    if n > 0 {
      FirstOnlyPrefix(bs, b, n - 1);
      assert forall j :: 0 <= j < |bs| ==> (bs + [b])[j] == bs[j];
      assert IsFirst(bs + [b], n - 1) == IsFirst(bs, n - 1);
    }
  }

  /** The binds the scanner reports out of all that occur. */
  function ReportedBinds(bs: seq<Bind>): (r: seq<Bind>)
  {
    FirstOnly(bs, |bs|)
  }

  /** What the scanner's seen-set decides about one more bind. */
  lemma {:induction false} ReportedSnoc(bs: seq<Bind>, b: Bind)
    ensures ReportedBinds(bs + [b])
            == ReportedBinds(bs) + (if b.positional || Upper(b.name) !in NamedKeys(bs) then [b] else [])
    ensures NamedKeys(bs + [b]) == NamedKeys(bs) + (if b.positional then {} else {Upper(b.name)})
  {
    hide Upper;
    FirstOnlyPrefix(bs, b, |bs|);
    NamedKeysSnoc(bs, b);
    var cs := bs + [b];
    assert forall j :: 0 <= j < |bs| ==> cs[j] == bs[j];
    assert IsFirst(cs, |bs|) <==> b.positional || Upper(b.name) !in NamedKeys(bs) by {
      assert cs[|bs|] == b;
    }
  }

  lemma {:induction false} NamedKeysSnoc(bs: seq<Bind>, b: Bind)
    ensures NamedKeys(bs + [b]) == NamedKeys(bs) + (if b.positional then {} else {Upper(b.name)})
  {
    hide Upper;
    var cs := bs + [b];
    forall k | k in NamedKeys(cs) ensures k in NamedKeys(bs) + (if b.positional then {} else {Upper(b.name)}) {
      var j :| 0 <= j < |cs| && !cs[j].positional && Upper(cs[j].name) == k;
      if j < |bs| { assert cs[j] == bs[j]; }
    }
    forall k | k in NamedKeys(bs) ensures k in NamedKeys(cs) {
      var j :| 0 <= j < |bs| && !bs[j].positional && Upper(bs[j].name) == k;
      assert cs[j] == bs[j];
    }
    if !b.positional {
      assert cs[|bs|] == b;
    }
  }

  /** No name is reported twice, and every name that occurs is reported. */
  lemma {:induction false} FirstOnlyDistinct(bs: seq<Bind>, n: nat)
    requires n <= |bs|
    ensures forall i, j :: 0 <= i < j < |FirstOnly(bs, n)| && !FirstOnly(bs, n)[i].positional && !FirstOnly(bs, n)[j].positional
                ==> Upper(FirstOnly(bs, n)[i].name) != Upper(FirstOnly(bs, n)[j].name)
    ensures NamedKeys(FirstOnly(bs, n)) == NamedKeys(bs[..n])
  {
    if n > 0 {
      FirstOnlyDistinct(bs, n - 1);
      var kept, b := FirstOnly(bs, n - 1), bs[n - 1];
      assert bs[..n] == bs[..n - 1] + [b];
      NamedKeysSnoc(bs[..n - 1], b);
      NamedKeysSnoc(kept, b);
      if !b.positional {
        if IsFirst(bs, n - 1) {
          forall i | 0 <= i < |kept| && !kept[i].positional ensures Upper(kept[i].name) != Upper(b.name) {
            assert Upper(kept[i].name) in NamedKeys(kept);
          }
        } else {
          var j :| 0 <= j < n - 1 && !bs[j].positional && Upper(bs[j].name) == Upper(b.name);
          assert bs[..n - 1][j] == bs[j];
          assert Upper(b.name) in NamedKeys(bs[..n - 1]);
          assert FirstOnly(bs, n) == kept;
        }
      }
    }
  }

  /** In code at pos, and no token of two or more characters is split across pos. */
  ghost predicate Between(s: string, pos: nat)
  {
    && pos <= |s|
    && (pos < |s| ==>
          match Run(true, START, s, 0, pos).mode
          case Code => true
          case Dash => s[pos] != '-'
          case Slash => s[pos] != '*'
          case QSeen => s[pos] != '\'' || pos + 1 == |s|
          case Colon => !IsDigit(s[pos]) && !IsIdentStart(s[pos]) && s[pos - 1] == ':'
          case ColonColon => s[pos - 1] == ':'
          case BindName => !IsIdentPart(s[pos])
          case BindNum => !IsDigit(s[pos])
          case _ => false)
  }

  lemma {:induction false} NoBindInside(s: string, i: nat, j: nat)
    requires i <= j <= |s|
    requires forall k :: i <= k < j ==> !BindAt(s, k)
    ensures CodeBinds(s, j) == CodeBinds(s, i)
    decreases j
  {
    if i < j {
      NoBindInside(s, i, j - 1);
    }
  }

  /** The lexer reads a bind as one token. */
  lemma {:induction false} BindToken(s: string, pos: nat, j: nat)
    requires pos < |s| && ReadBind(s, pos).Some? && pos + 2 <= j <= ReadBind(s, pos).value.1
    requires Run(true, START, s, 0, pos + 1).mode == Colon
    ensures Run(true, START, s, 0, j).mode == if IsDigit(s[pos + 1]) then BindNum else BindName
    decreases j
  {
    if j > pos + 2 {
      BindToken(s, pos, j - 1);
      if IsDigit(s[pos + 1]) {
        assert ReadBind(s, pos).value.1 == DigitEnd(s, pos + 2);
      }
    }
  }

  /** Which single characters the scanner steps over, and where that leaves the lexer. */
  lemma {:induction false} StepOver(s: string, pos: nat)
    requires pos < |s| && Between(s, pos) && s[pos] !in {'\'', '"'}
    requires s[pos] == '-' ==> pos + 1 == |s| || s[pos + 1] != '-'
    requires s[pos] == '/' ==> pos + 1 == |s| || s[pos + 1] != '*'
    requires s[pos] in {'q', 'Q'} ==> pos + 2 >= |s| || s[pos + 1] != '\''
    requires s[pos] == ':' ==> ReadBind(s, pos).None?
    ensures Between(s, pos + 1)
  {
    var m := Run(true, START, s, 0, pos).mode;
    var n := Run(true, START, s, 0, pos + 1).mode;
    assert n == NextMode(true, m, s[pos]);
    if s[pos] == ':' {
      assert n == (if m == Colon || m == ColonColon then ColonColon else Colon);
      if n == Colon && pos > 0 {
        PrevNotColon(s, pos);
      }
    }
  }

  lemma {:induction false} PrevNotColon(s: string, pos: nat)
    requires 0 < pos < |s| && Between(s, pos)
    requires var m := Run(true, START, s, 0, pos).mode; m != Colon && m != ColonColon
    ensures s[pos - 1] != ':'
  {
    var m := Run(true, START, s, 0, pos - 1).mode;
    assert Run(true, START, s, 0, pos).mode == NextMode(true, m, s[pos - 1]);
  }

  /** Entering a quote or comment from between tokens puts the lexer in the matching mode. */
  lemma {:induction false} Opens(s: string, pos: nat)
    requires pos < |s| && Between(s, pos)
    ensures s[pos] == '\'' && pos + 1 < |s| ==> Run(true, START, s, 0, pos + 1) == State(Single, DepthAt(true, s, 0, pos))
    ensures s[pos] == '"' ==> Run(true, START, s, 0, pos + 1) == State(Double, DepthAt(true, s, 0, pos))
    ensures s[pos] in {'q', 'Q'} ==> Run(true, START, s, 0, pos + 1) == State(QSeen, DepthAt(true, s, 0, pos))
    ensures s[pos] == '-' ==> Run(true, START, s, 0, pos + 1) == State(Dash, DepthAt(true, s, 0, pos))
    ensures s[pos] == '/' ==> Run(true, START, s, 0, pos + 1) == State(Slash, DepthAt(true, s, 0, pos))
  {
  }

  /** Every case of the scanner's switch except a successful bind. */
  method SkipNonBind(s: string, pos: nat) returns (end: nat)
    requires pos < |s| && Between(s, pos) && ReadBind(s, pos).None?
    ensures pos <= end < |s| && Between(s, end + 1)
    ensures forall k :: pos <= k <= end ==> !BindAt(s, k)
  {
    Opens(s, pos);
    end := pos;
    if s[pos] == '\'' {
      end := SkipSingleQuoted(s, pos, true, 0);
    } else if s[pos] == '"' {
      end := SkipDoubleQuoted(s, pos, true, 0);
    } else if s[pos] == 'q' || s[pos] == 'Q' {
      var e, ok := SkipAlternativeQuoted(s, pos, 0);
      if ok {
        end := e;
      } else {
        StepOver(s, pos);
      }
    } else if s[pos] == '-' && pos + 1 < |s| && s[pos + 1] == '-' {
      end := SkipLineComment(s, pos, true, 0);
    } else if s[pos] == '/' && pos + 1 < |s| && s[pos + 1] == '*' {
      SkipBlockCommentSkips(true, s, 0, pos);
      end := SkipBlockComment(s, pos);
    } else {
      StepOver(s, pos);
    }
  }

  method ExplainPlanBindParams(s: string) returns (params: seq<Bind>)
    ensures params == ReportedBinds(CodeBinds(s, |s|))
  {
    params := [];
    var seen: set<string> := {};
    var pos := 0;
    ghost var found: seq<Bind> := [];
    assert Between(s, 0) && CodeBinds(s, 0) == [] && ReportedBinds([]) == [] && NamedKeys([]) == {};
    while pos < |s|
      invariant Between(s, pos)
      invariant found == CodeBinds(s, pos)
      invariant params == ReportedBinds(found)
      invariant seen == NamedKeys(found)
    {
      hide Between, CodeBinds, ReportedBinds, NamedKeys, ReadBind, Upper, CodeAt;
      var read := ReadBind(s, pos);
      if read.Some? {
        var Some((param, after)) := read;
        TakeBind(s, pos);
        ReportedSnoc(found, param);
        found := found + [param];
        if param.positional {
          params := params + [param];
        } else if Upper(param.name) !in seen {
          seen := seen + {Upper(param.name)};
          params := params + [param];
        }
        pos := after;
      } else {
        var end := SkipNonBind(s, pos);
        NoBindInside(s, pos, end + 1);
        pos := end + 1;
      }
    }
  }

  lemma {:induction false} TakeBind(s: string, pos: nat)
    requires pos < |s| && Between(s, pos) && s[pos] == ':' && ReadBind(s, pos).Some?
    ensures var Some((param, after)) := ReadBind(s, pos);
            && Between(s, after)
            && CodeBinds(s, after) == CodeBinds(s, pos) + [param]
  {
    var Some((param, after)) := ReadBind(s, pos);
    var m := Run(true, START, s, 0, pos).mode;
    assert m != Colon && m != ColonColon;
    assert Run(true, START, s, 0, pos + 1).mode == Colon;
    BindToken(s, pos, after);
    assert BindAt(s, pos);
    assert CodeBinds(s, pos + 1) == CodeBinds(s, pos) + [param];
    forall k | pos + 1 <= k < after ensures !BindAt(s, k) {
      assert IsIdentPart(s[k]);
    }
    NoBindInside(s, pos + 1, after);
  }
}
