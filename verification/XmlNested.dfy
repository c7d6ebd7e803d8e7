/** The rewrite of SELECTs nested in parentheses, bounded in depth and confined to their interiors. */
module XmlNested {
  import opened Common
  import opened SqlText
  import opened SqlLexer
  import opened SqlScanners
  import opened XmlRewrite

  const MAX_DEPTH := 8

  /** The interior of the parentheses at open and close, replaced by text. */
  datatype Edit = Edit(open: nat, close: nat, text: string)

  datatype Rewritten = Rewritten(text: string, changed: bool)

  /** The edits found from a position on, or a parenthesis that never closes. */
  datatype Scan = Unbalanced | Edits(edits: seq<Edit>)

  predicate IsSelect(sql: string)
  {
    StartsWithKeyword(TrimLeadingComments(sql), "select")
  }

  function Prepend(e: Edit, r: Result<Scan, string>): Result<Scan, string>
  {
    match r case Ok(Edits(es)) => Ok(Edits([e] + es)) case _ => r
  }

  /** rewriteOracleXMLTypeSelectSQLDepth; every recursive call is on a strictly shorter text. */
  function RewriteText(sql: string, load: Loader, depth: nat): (r: Result<Rewritten, string>)
    decreases |sql|, 1, 0
  {
    if depth > MAX_DEPTH then Ok(Rewritten(sql, false))
    else match RewriteDirect(sql, load)
      case Err(e) => Err(e)
      case Ok(o) =>
        if o.handled then Ok(Rewritten(o.text, o.changed))
        else match ScanEdits(sql, load, depth, 0)
          case Err(e) => Err(e)
          case Ok(Unbalanced) => Ok(Rewritten(sql, false))
          case Ok(Edits(es)) => Ok(if es == [] then Rewritten(sql, false) else Rewritten(ApplyEdits(sql, es, 0), true))
  }

  function ScanEdits(sql: string, load: Loader, depth: nat, pos: nat): (r: Result<Scan, string>)
    requires pos <= |sql|
    decreases |sql|, 0, |sql| - pos
  {
    if pos == |sql| then Ok(Edits([]))
    else if sql[pos] != '(' || !CodeAt(false, sql, 0, pos) then ScanEdits(sql, load, depth, pos + 1)
    else
      var close := MatchParen(sql, pos, pos + 1);
      if close < 0 then Ok(Unbalanced)
      else
        var inner := sql[pos + 1..close];
        if !IsSelect(inner) then ScanEdits(sql, load, depth, close + 1)
        else match RewriteText(inner, load, depth + 1)
          case Err(e) => Err(e)
          case Ok(Rewritten(text, changed)) =>
            var rest := ScanEdits(sql, load, depth, close + 1);
            if changed then Prepend(Edit(pos, close, text), rest) else rest
  }

  /** sql from `last` on, with the interiors named by the edits replaced. */
  function ApplyEdits(sql: string, es: seq<Edit>, last: nat): (r: string)
  {
    if last > |sql| then ""
    else if es == [] then sql[last..]
    else if !(last <= es[0].open < es[0].close <= |sql|) then ""
    else sql[last..es[0].open + 1] + es[0].text + ApplyEdits(sql, es[1..], es[0].close)
  }

  // ---- The loop ----

  lemma {:induction false} ModeIgnoresDepth(s: string, m: Mode, d1: nat, d2: nat, i: nat, j: nat)
    requires i <= j <= |s|
    ensures Run(false, State(m, d1), s, i, j).mode == Run(false, State(m, d2), s, i, j).mode
    decreases j
  {
    hide NextMode;
    if i < j {
      ModeIgnoresDepth(s, m, d1, d2, i, j - 1);
    }
  }

  /** At pos the scanner reads a fresh character in code; the depth does not matter to it. */
  ghost predicate AtCode(s: string, pos: nat)
  {
    pos <= |s| && Resumes(s, 0, pos, DepthAt(false, s, 0, pos))
  }

  /** Jumping over balanced parentheses lands in code again. */
  lemma {:induction false} AfterParen(s: string, open: nat, close: nat)
    requires open < |s| && s[open] == '(' && AtCode(s, open) && MatchParen(s, open, open + 1) == close
    ensures close < |s| && AtCode(s, close + 1)
  {
    hide Run, MatchParen, AtCode;
    FirstParen(s, open);
    LastParen(s, open, close);
    SameMode(s, open, close + 1);
    CodeIsAtCode(s, close + 1);
  }

  lemma {:induction false} SameMode(s: string, open: nat, j: nat)
    requires open < j <= |s| && Run(false, START, s, 0, open + 1).mode == Code && Run(false, START, s, open, open + 1).mode == Code
    ensures Run(false, START, s, 0, j).mode == Run(false, START, s, open, j).mode
  {
    hide Run;
    var a, b := Run(false, START, s, 0, open + 1), Run(false, START, s, open, open + 1);
    RunCompose(false, START, s, 0, open + 1, j);
    RunCompose(false, START, s, open, open + 1, j);
    ModeIgnoresDepth(s, Code, a.depth, b.depth, open + 1, j);
  }

  lemma {:induction false} CodeIsAtCode(s: string, pos: nat)
    requires pos <= |s| && Run(false, START, s, 0, pos).mode == Code
    ensures AtCode(s, pos)
  {
    hide Run;
  }

  lemma {:induction false} FirstParen(s: string, open: nat)
    requires open < |s| && s[open] == '(' && AtCode(s, open)
    ensures Run(false, START, s, 0, open + 1).mode == Code
    ensures Run(false, START, s, open, open + 1) == State(Code, 1)
  {
    RunNext(false, START, s, 0, open);
    RunNext(false, START, s, open, open);
  }

  lemma {:induction false} LastParen(s: string, open: nat, close: nat)
    requires open < close < |s| && s[close] == ')' && CodeAt(false, s, open, close)
    ensures Run(false, START, s, open, close + 1).mode == Code
  {
    NonBindModes(s, open, close);
    RunNext(false, START, s, open, close);
  }

  lemma {:induction false} StepOverOpaque(s: string, load: Loader, depth: nat, pos: nat, end: nat)
    requires pos <= end < |s|
    requires s[pos] != '(' && forall k :: pos < k <= end ==> !CodeAt(false, s, 0, k)
    ensures ScanEdits(s, load, depth, pos) == ScanEdits(s, load, depth, end + 1)
    decreases end - pos
  {
    hide Run, CodeAt, MatchParen, IsSelect;
    if pos < end {
      NonCodeStep(s, load, depth, pos + 1, end);
    }
  }

  lemma {:induction false} NonCodeStep(s: string, load: Loader, depth: nat, pos: nat, end: nat)
    requires pos <= end < |s|
    requires forall k :: pos <= k <= end ==> !CodeAt(false, s, 0, k)
    ensures ScanEdits(s, load, depth, pos) == ScanEdits(s, load, depth, end + 1)
    decreases end - pos
  {
    hide Run, CodeAt, MatchParen, IsSelect;
    if pos < end {
      NonCodeStep(s, load, depth, pos + 1, end);
    }
  }

  /** Between iterations: the whole result is the text built so far plus what the remaining scan contributes. */
  ghost predicate Tracks(sql: string, whole: Result<Scan, string>, rest: Result<Scan, string>, built: string, last: nat, changed: bool)
  {
    && (rest.Err? || rest.value.Unbalanced? ==> whole == rest)
    && (rest.Ok? && rest.value.Edits? ==>
          && whole.Ok? && whole.value.Edits?
          && ApplyEdits(sql, whole.value.edits, 0) == built + ApplyEdits(sql, rest.value.edits, last)
          && (if changed then whole.value.edits != [] else whole == rest))
  }

  lemma {:induction false} TracksEdit(sql: string, whole: Result<Scan, string>, rest: Result<Scan, string>, built: string, last: nat, changed: bool, e: Edit)
    requires Tracks(sql, whole, Prepend(e, rest), built, last, changed)
    requires last <= e.open < e.close < |sql|
    ensures Tracks(sql, whole, rest, built + sql[last..e.open + 1] + e.text, e.close, true)
  {
    if rest.Ok? && rest.value.Edits? {
      var es := rest.value.edits;
      ApplyFirst(sql, e, es, last);
      hide ApplyEdits;
      Reassociate(built, sql[last..e.open + 1], e.text, ApplyEdits(sql, es, e.close));
    }
  }

  lemma {:induction false} Reassociate(a: string, b: string, c: string, d: string)
    ensures a + ((b + c) + d) == (a + b + c) + d
  {
  }

  lemma {:induction false} ApplyFirst(sql: string, e: Edit, es: seq<Edit>, last: nat)
    requires last <= e.open < e.close < |sql|
    ensures ApplyEdits(sql, [e] + es, last) == (sql[last..e.open + 1] + e.text) + ApplyEdits(sql, es, e.close)
  {
    assert ([e] + es)[1..] == es && ([e] + es)[0] == e;
  }

  method RewriteSelect(sql: string, load: Loader, depth: nat) returns (r: Result<Rewritten, string>)
    ensures r == RewriteText(sql, load, depth)
    decreases |sql|, 1
  {
    hide ScanEdits, RewriteDirect, ApplyEdits;
    if depth > MAX_DEPTH {
      return Ok(Rewritten(sql, false));
    }
    var direct := RewriteDirectSelect(sql, load);
    if direct.Err? {
      return Err(direct.error);
    }
    if direct.value.handled {
      return Ok(Rewritten(direct.value.text, direct.value.changed));
    }
    r := RewriteNested(sql, load, depth);
  }

  function NestedResult(sql: string, scan: Result<Scan, string>): Result<Rewritten, string>
  {
    match scan
    case Err(e) => Err(e)
    case Ok(Unbalanced) => Ok(Rewritten(sql, false))
    case Ok(Edits(es)) => Ok(if es == [] then Rewritten(sql, false) else Rewritten(ApplyEdits(sql, es, 0), true))
  }

  /** How one opening parenthesis is dealt with. */
  datatype Paren = Open | Closed(close: nat, edit: Option<Edit>)

  /** What that says about the scan from there on. */
  ghost predicate ParenScan(sql: string, load: Loader, depth: nat, pos: nat, r: Result<Paren, string>)
    requires pos < |sql|
  {
    var scan := ScanEdits(sql, load, depth, pos);
    match r
    case Err(e) => scan == Err(e)
    case Ok(Open) => scan == Ok(Unbalanced)
    case Ok(Closed(c, edit)) =>
      && pos < c < |sql| && AtCode(sql, c + 1)
      && (edit.None? ==> scan == ScanEdits(sql, load, depth, c + 1))
      && (edit.Some? ==> edit.value.open == pos && edit.value.close == c
                         && scan == Prepend(edit.value, ScanEdits(sql, load, depth, c + 1)))
  }

  /** One parenthesis advances the loop's account of the scan, or ends it. */
  lemma {:induction false} ParenTracks(sql: string, load: Loader, depth: nat, pos: nat, r: Result<Paren, string>,
                    whole: Result<Scan, string>, built: string, last: nat, changed: bool)
    requires last <= pos < |sql| && ParenScan(sql, load, depth, pos, r)
    requires Tracks(sql, whole, ScanEdits(sql, load, depth, pos), built, last, changed)
    ensures r.Err? ==> whole == Err(r.error)
    ensures r.Ok? && r.value.Open? ==> whole == Ok(Unbalanced)
    ensures r.Ok? && r.value.Closed? ==>
              var c, edit := r.value.close, r.value.edit;
              && pos < c < |sql| && AtCode(sql, c + 1)
              && (edit.Some? ==> Tracks(sql, whole, ScanEdits(sql, load, depth, c + 1), built + sql[last..pos + 1] + edit.value.text, c, true))
              && (edit.None? ==> Tracks(sql, whole, ScanEdits(sql, load, depth, c + 1), built, last, changed))
  {
    hide ScanEdits, Prepend, ApplyEdits, AtCode;
    if r.Ok? && r.value.Closed? && r.value.edit.Some? {
      TracksEdit(sql, whole, ScanEdits(sql, load, depth, r.value.close + 1), built, last, changed, r.value.edit.value);
    }
  }

  method RewriteParen(sql: string, load: Loader, depth: nat, pos: nat) returns (r: Result<Paren, string>)
    requires depth <= MAX_DEPTH && pos < |sql| && sql[pos] == '(' && AtCode(sql, pos)
    ensures ParenScan(sql, load, depth, pos, r)
    decreases |sql|, 0, 0
  {
    hide Run, MatchParen, IsSelect, AtCode, Prepend;
    CodeHere(sql, pos);
    var end := FindMatchingParen(sql, pos);
    if end < 0 {
      return Ok(Open);
    }
    AfterParen(sql, pos, end);
    var inner := sql[pos + 1..end];
    if !IsSelect(inner) {
      return Ok(Closed(end, None));
    }
    var sub := RewriteSelect(inner, load, depth + 1);
    if sub.Err? {
      return Err(sub.error);
    }
    return Ok(Closed(end, if sub.value.changed then Some(Edit(pos, end, sub.value.text)) else None));
  }

  method RewriteNested(sql: string, load: Loader, depth: nat) returns (r: Result<Rewritten, string>)
    requires depth <= MAX_DEPTH
    ensures r == NestedResult(sql, ScanEdits(sql, load, depth, 0))
    decreases |sql|, 0, 2
  {
    hide Run, AtCode, ScanEdits, Prepend, ApplyEdits;
    var at := Progress("", 0, false, 0);
    ghost var whole := ScanEdits(sql, load, depth, 0);
    StartsInCode(sql);
    TracksStart(sql, whole);
    while at.pos < |sql|
      invariant InStep(sql, load, depth, whole, at)
      decreases |sql| - at.pos
    {
      hide Tracks;
      var stop, next := NestedStep(sql, load, depth, at, whole);
      if stop.Some? {
        return stop.value;
      }
      at := next;
    }
    ScanEnd(sql, load, depth, at.last);
    if !at.changed {
      return Ok(Rewritten(sql, false));
    }
    return Ok(Rewritten(at.built + sql[at.last..], true));
  }

  /** The loop's variables. */
  datatype Progress = Progress(built: string, last: nat, changed: bool, pos: nat)

  ghost predicate InStep(sql: string, load: Loader, depth: nat, whole: Result<Scan, string>, at: Progress)
  {
    && at.last <= at.pos <= |sql| && AtCode(sql, at.pos)
    && Tracks(sql, whole, ScanEdits(sql, load, depth, at.pos), at.built, at.last, at.changed)
  }

  /** One iteration: the next state, or the result it returns at once. */
  method NestedStep(sql: string, load: Loader, depth: nat, at: Progress, ghost whole: Result<Scan, string>)
    returns (stop: Option<Result<Rewritten, string>>, next: Progress)
    requires depth <= MAX_DEPTH && at.pos < |sql| && InStep(sql, load, depth, whole, at)
    ensures stop.Some? ==> stop.value == NestedResult(sql, whole)
    ensures stop.None? ==> at.pos < next.pos && InStep(sql, load, depth, whole, next)
    decreases |sql|, 0, 1
  {
    hide Run, AtCode, ScanEdits, Prepend, ApplyEdits, Tracks, ParenScan;
    var pos := at.pos;
    next := at;
    if sql[pos] == '(' {
      var paren := RewriteParen(sql, load, depth, pos);
      ParenTracks(sql, load, depth, pos, paren, whole, at.built, at.last, at.changed);
      if paren.Err? {
        return Some(Err(paren.error)), at;
      }
      if paren.value.Open? {
        return Some(Ok(Rewritten(sql, false))), at;
      }
      var end := paren.value.close;
      if paren.value.edit.Some? {
        next := Progress(at.built + sql[at.last..pos + 1] + paren.value.edit.value.text, end, true, end + 1);
      } else {
        next := at.(pos := end + 1);
      }
    } else {
      var end := StepOpaque(sql, load, depth, pos);
      next := at.(pos := end + 1);
    }
    return None, next;
  }

  lemma {:induction false} StartsInCode(sql: string)
    ensures AtCode(sql, 0)
  {
  }

  lemma {:induction false} ScanEnd(sql: string, load: Loader, depth: nat, last: nat)
    requires last <= |sql|
    ensures ScanEdits(sql, load, depth, |sql|) == Ok(Edits([])) && ApplyEdits(sql, [], last) == sql[last..]
  {
  }

  lemma {:induction false} TracksStart(sql: string, whole: Result<Scan, string>)
    ensures Tracks(sql, whole, whole, "", 0, false)
  {
    if whole.Ok? && whole.value.Edits? {
      assert "" + ApplyEdits(sql, whole.value.edits, 0) == ApplyEdits(sql, whole.value.edits, 0);
    }
  }

  method StepOpaque(sql: string, load: Loader, ghost depth: nat, pos: nat) returns (end: nat)
    requires pos < |sql| && AtCode(sql, pos) && sql[pos] != '('
    ensures pos <= end < |sql| && AtCode(sql, end + 1)
    ensures ScanEdits(sql, load, depth, pos) == ScanEdits(sql, load, depth, end + 1)
  {
    end := SkipOpaque(sql, pos, 0, DepthAt(false, sql, 0, pos));
    hide Run, ScanEdits;
    StepOverOpaque(sql, load, depth, pos, end);
    AnyDepth(sql, pos, end);
  }

  lemma {:induction false} CodeHere(s: string, pos: nat)
    requires pos < |s| && AtCode(s, pos) && s[pos] == '('
    ensures CodeAt(false, s, 0, pos)
  {
    RunNext(false, START, s, 0, pos);
  }

  lemma {:induction false} AnyDepth(s: string, pos: nat, end: nat)
    requires pos <= end < |s| && AtCode(s, pos) && s[pos] != '('
    requires s[pos] != ')' ==> Resumes(s, 0, end + 1, DepthAt(false, s, 0, pos))
    requires s[pos] == ')' ==> Resumes(s, 0, end + 1, if DepthAt(false, s, 0, pos) > 0 then DepthAt(false, s, 0, pos) - 1 else 0)
    ensures AtCode(s, end + 1)
  {
  }

  // ---- What nesting may change ----

  /** An edit replaces the interior of balanced code parentheses that hold a SELECT, by that SELECT's own rewrite. */
  predicate EditOk(sql: string, load: Loader, depth: nat, e: Edit)
  {
    && e.open < e.close < |sql| && sql[e.open] == '(' && CodeAt(false, sql, 0, e.open)
    && MatchParen(sql, e.open, e.open + 1) == e.close
    && IsSelect(sql[e.open + 1..e.close])
    && RewriteText(sql[e.open + 1..e.close], load, depth + 1) == Ok(Rewritten(e.text, true))
  }

  /** Edits in text order from a position on, each beginning after the one before it has closed. */
  predicate EditsOk(sql: string, load: Loader, depth: nat, es: seq<Edit>, from: nat)
    decreases |es|
  {
    es == [] || (from <= es[0].open && EditOk(sql, load, depth, es[0]) && EditsOk(sql, load, depth, es[1..], es[0].close + 1))
  }

  lemma {:induction false} EditsWeaken(sql: string, load: Loader, depth: nat, es: seq<Edit>, from: nat, lower: nat)
    requires EditsOk(sql, load, depth, es, from) && lower <= from
    ensures EditsOk(sql, load, depth, es, lower)
  {
    hide EditOk;
  }

  /** Whatever the scan finds to change lies inside disjoint balanced code parentheses that start with SELECT. */
  lemma {:induction false} EditsDisjoint(sql: string, load: Loader, depth: nat, pos: nat)
    requires pos <= |sql| && ScanEdits(sql, load, depth, pos).Ok? && ScanEdits(sql, load, depth, pos).value.Edits?
    ensures EditsOk(sql, load, depth, ScanEdits(sql, load, depth, pos).value.edits, pos)
    decreases |sql| - pos
  {
    hide Run, CodeAt, IsSelect, RewriteText;
    if pos < |sql| {
      var es := ScanEdits(sql, load, depth, pos).value.edits;
      if sql[pos] != '(' || !CodeAt(false, sql, 0, pos) {
        EditsDisjoint(sql, load, depth, pos + 1);
        EditsWeaken(sql, load, depth, es, pos + 1, pos);
      } else {
        var close := MatchParen(sql, pos, pos + 1);
        EditsDisjoint(sql, load, depth, close + 1);
        var rest := ScanEdits(sql, load, depth, close + 1).value.edits;
        ParenEdits(sql, load, depth, pos, close);
        if es == rest {
          EditsWeaken(sql, load, depth, es, close + 1, pos);
        }
      }
    }
  }

  lemma {:induction false} ParenEdits(sql: string, load: Loader, depth: nat, pos: nat, close: nat)
    requires pos < close < |sql| && sql[pos] == '(' && CodeAt(false, sql, 0, pos) && MatchParen(sql, pos, pos + 1) == close
    requires ScanEdits(sql, load, depth, pos).Ok? && ScanEdits(sql, load, depth, pos).value.Edits?
    ensures ScanEdits(sql, load, depth, close + 1).Ok? && ScanEdits(sql, load, depth, close + 1).value.Edits?
    ensures var es, rest := ScanEdits(sql, load, depth, pos).value.edits, ScanEdits(sql, load, depth, close + 1).value.edits;
            es == rest || (es != [] && es[1..] == rest && EditOk(sql, load, depth, es[0]) && es[0].open == pos && es[0].close == close)
  {
    hide Run, CodeAt, IsSelect, RewriteText;
  }

  ghost predicate NoXmlAnywhere(load: Loader)
  {
    forall schema, table :: load(schema, table).Ok? && !HasXmlType(load(schema, table).value)
  }

  /** A catalog without XMLTYPE columns makes the whole rewrite the identity, at every depth. */
  lemma {:induction false} NestedIdentity(sql: string, load: Loader, depth: nat)
    requires NoXmlAnywhere(load)
    ensures RewriteText(sql, load, depth) == Ok(Rewritten(sql, false))
    decreases |sql|, 1, 0
  {
    hide ParseSelect, MayReference, SplitItems, HasXmlType, Run, ScanEdits;
    NothingToEdit(sql, load, depth, 0);
  }

  lemma {:induction false} NothingToEdit(sql: string, load: Loader, depth: nat, pos: nat)
    requires NoXmlAnywhere(load) && pos <= |sql|
    ensures ScanEdits(sql, load, depth, pos) in {Ok(Unbalanced), Ok(Edits([]))}
    decreases |sql|, 0, |sql| - pos
  {
    hide Run, CodeAt, IsSelect, HasXmlType, RewriteText;
    if pos < |sql| {
      if sql[pos] != '(' || !CodeAt(false, sql, 0, pos) {
        NothingToEdit(sql, load, depth, pos + 1);
      } else {
        var close := MatchParen(sql, pos, pos + 1);
        if close >= 0 {
          NestedIdentity(sql[pos + 1..close], load, depth + 1);
          NothingToEdit(sql, load, depth, close + 1);
        }
      }
    }
  }
}
