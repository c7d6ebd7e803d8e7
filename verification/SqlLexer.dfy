/**
 The reference lexer: which characters of a SQL text are code, and at which parenthesis depth.
 It is a plain finite automaton that never looks ahead, written independently of the
 hand-written scanners in agents/drivers/oracle-go/main.go, which are proved against it.

 With `binds` set it also knows Oracle's alternative quoting q'[...]' and bind names, as the
 bind-parameter scanner needs.
 */
module SqlLexer {
  import opened SqlText

  datatype Mode =
    | Code | Dash | Slash | QSeen | Colon | ColonColon | BindName | BindNum
    | Single | Double | Line | Block | BlockStar
    | AltOpen | Alt(close: char) | AltEnd(close: char)

  datatype State = State(mode: Mode, depth: nat)

  const START := State(Code, 0)

  predicate InCode(m: Mode)
  {
    m.Code? || m.Dash? || m.Slash? || m.QSeen? || m.Colon? || m.ColonColon? || m.BindName? || m.BindNum?
  }

  /** The mode after an ordinary code character. */
  function Enter(binds: bool, c: char): Mode
  {
    if c == '\'' then Single
    else if c == '"' then Double
    else if c == '-' then Dash
    else if c == '/' then Slash
    else if binds && (c == 'q' || c == 'Q') then QSeen
    else if binds && c == ':' then Colon
    else Code
  }

  function AltCloser(open: char): char
  {
    if open == '[' then ']' else if open == '{' then '}' else if open == '(' then ')' else if open == '<' then '>' else open
  }

  function NextMode(binds: bool, m: Mode, c: char): Mode
  {
    match m
    case Code => Enter(binds, c)
    case Dash => if c == '-' then Line else Enter(binds, c)
    case Slash => if c == '*' then Block else Enter(binds, c)
    case QSeen => if c == '\'' then AltOpen else Enter(binds, c)
    case Colon => if IsDigit(c) then BindNum else if IsIdentStart(c) then BindName
                  else if c == ':' then ColonColon else Enter(binds, c)
    case ColonColon => if c == ':' then ColonColon else Enter(binds, c)
    case BindName => if IsIdentPart(c) then BindName else Enter(binds, c)
    case BindNum => if IsDigit(c) then BindNum else Enter(binds, c)
    case Single => if c == '\'' then Code else Single
    case Double => if c == '"' then Code else Double
    case Line => if c == '\n' || c == '\r' then Code else Line
    case Block => if c == '*' then BlockStar else Block
    case BlockStar => if c == '/' then Code else if c == '*' then BlockStar else Block
    case AltOpen => Alt(AltCloser(c))
    case Alt(k) => if c == k then AltEnd(k) else m
    case AltEnd(k) => if c == '\'' then Code else if c == k then m else Alt(k)
  }

  function Step(binds: bool, st: State, c: char): State
  {
    var d := if InCode(st.mode) && c == '(' then st.depth + 1
             else if InCode(st.mode) && c == ')' && st.depth > 0 then st.depth - 1
             else st.depth;
    State(NextMode(binds, st.mode, c), d)
  }

  /** The state after reading s[i..j] from st. */
  function Run(binds: bool, st: State, s: string, i: nat, j: nat): State
    requires i <= j <= |s|
    decreases j
  {
    if i == j then st else Step(binds, Run(binds, st, s, i, j - 1), s[j - 1])
  }

  /** Character i is code when lexing begins at start: read in code, and not opening a quote or comment. */
  predicate CodeAt(binds: bool, s: string, start: nat, i: nat)
    requires start <= i < |s|
  {
    InCode(Run(binds, START, s, start, i).mode) && InCode(Run(binds, START, s, start, i + 1).mode)
  }

  function DepthAt(binds: bool, s: string, start: nat, i: nat): nat
    requires start <= i <= |s|
  {
    Run(binds, START, s, start, i).depth
  }

  lemma {:induction false} RunCompose(binds: bool, st: State, s: string, i: nat, j: nat, k: nat)
    requires i <= j <= k <= |s|
    ensures Run(binds, st, s, i, k) == Run(binds, Run(binds, st, s, i, j), s, j, k)
    decreases k
  {
    if j < k {
      RunCompose(binds, st, s, i, j, k - 1);
    }
  }

  lemma {:induction false} RunNext(binds: bool, st: State, s: string, i: nat, j: nat)
    requires i <= j < |s|
    ensures Run(binds, st, s, i, j + 1) == Step(binds, Run(binds, st, s, i, j), s[j])
  {
  }

  /** Lexing depends only on the characters read, not on where they stand. */
  lemma {:induction false} RunShift(binds: bool, st: State, s: string, i: nat, t: string, p: nat, len: nat)
    requires i + len <= |s| && p + len <= |t|
    requires s[i..i + len] == t[p..p + len]
    ensures Run(binds, st, s, i, i + len) == Run(binds, st, t, p, p + len)
    decreases len
  {
    if len > 0 {
      assert s[i..i + (len - 1)] == s[i..i + len][..len - 1] == t[p..p + (len - 1)];
      assert s[i + len - 1] == s[i..i + len][len - 1] == t[p + len - 1];
      RunShift(binds, st, s, i, t, p, len - 1);
    }
  }

  /** Lexing a concatenation is lexing its parts in turn. */
  lemma {:induction false} RunConcat(binds: bool, st: State, a: string, b: string)
    ensures Run(binds, st, a + b, 0, |a + b|) == Run(binds, Run(binds, st, a, 0, |a|), b, 0, |b|)
  {
    hide Run;
    var c := a + b;
    assert c[0..0 + |a|] == a[0..0 + |a|];
    assert c[|a|..|a| + |b|] == b[0..0 + |b|];
    RunCompose(binds, st, c, 0, |a|, |c|);
    RunShift(binds, st, c, 0, a, 0, |a|);
    RunShift(binds, Run(binds, st, a, 0, |a|), c, |a|, b, 0, |b|);
  }
}
