/** The two providers whose conversion regroups messages: Claude's content blocks and Gemini's parts. */
module ProviderForms {
  import opened Common
  import opened Conversation
  import opened ProviderMessages

  function UnwrapOr(a: Option<string>, d: string): string
  {
    if a.Some? then a.value else d
  }

  // ---- Claude ----

  datatype Block =
    | PlainText(text: string)
    | TextBlock(text: string)
    | ToolUse(id: string, name: string, input: string)
    | ToolAnswer(id: string, content: string)

  function UseBlocks(calls: seq<ToolCall>): seq<Block>
  {
    if calls == [] then [] else [ToolUse(calls[0].id, calls[0].name, calls[0].arguments)] + UseBlocks(calls[1..])
  }

  function ClaudeBlocks(m: Message): seq<Block>
  {
    if m.role == Tool then [ToolAnswer(UnwrapOr(m.callId, ""), m.content)]
    else if IsCaller(m) then (if m.content != "" then [TextBlock(m.content)] else []) + UseBlocks(m.calls)
    else [PlainText(m.content)]
  }

  const CLAUDE: Form<Block> := Form(m => ClaudeBlocks(m), (m: Message) => m.role)

  const CLAUDE_KEYS: Keys<Block> :=
    Keys((b: Block) => if b.ToolUse? then Some(b.id) else None, (b: Block) => if b.ToolAnswer? then Some(b.id) else None)

  /** Claude tells calls apart by their ids, whatever these are. */
  const BY_ID: Naming := Naming((c: ToolCall) => c.id, (c: ToolCall) => true)

  // ---- Reading Claude messages back ----

  function TextIn(blocks: seq<Block>): string
  {
    if blocks == [] then "" else (if blocks[0].PlainText? || blocks[0].TextBlock? then blocks[0].text else "") + TextIn(blocks[1..])
  }

  function CallsIn(blocks: seq<Block>): seq<ToolCall>
  {
    if blocks == [] then []
    else (if blocks[0].ToolUse? then [ToolCall(blocks[0].id, blocks[0].name, blocks[0].input)] else []) + CallsIn(blocks[1..])
  }

  function AnswersIn(blocks: seq<Block>): seq<Message>
  {
    if blocks == [] then []
    else AnswersIn(blocks[..|blocks| - 1])
         + var b := blocks[|blocks| - 1]; if b.ToolAnswer? then [Message(Tool, b.content, Some(b.id), [])] else []
  }

  predicate OnlyAnswers(blocks: seq<Block>)
  {
    blocks != [] && forall i :: 0 <= i < |blocks| ==> blocks[i].ToolAnswer?
  }

  /** A user message of tool results stands for these; any other message for its text and calls. */
  function ReadGroup(g: Group<Block>): seq<Message>
  {
    if OnlyAnswers(g.blocks) then if g.role == User then AnswersIn(g.blocks) else []
    else [Message(g.role, TextIn(g.blocks), None, CallsIn(g.blocks))]
  }

  function ReadClaude(gs: seq<Group<Block>>): seq<Message>
  {
    if gs == [] then [] else ReadGroup(gs[0]) + ReadClaude(gs[1..])
  }

  /** What can be read back of a message: an absent call id as an empty one, no id of another message, and the calls of an assistant only. */
  function Recovered(m: Message): Message
  {
    if m.role == Tool then Message(Tool, m.content, Some(UnwrapOr(m.callId, "")), [])
    else Message(m.role, m.content, None, if m.role == Assistant then m.calls else [])
  }

  function RecoveredAll(ms: seq<Message>): seq<Message>
  {
    seq(|ms|, i requires 0 <= i < |ms| => Recovered(ms[i]))
  }

  lemma {:induction false} ReadConcat(a: seq<Group<Block>>, b: seq<Group<Block>>)
    ensures ReadClaude(a + b) == ReadClaude(a) + ReadClaude(b)
  {
    if a == [] {
      assert a + b == b;
    } else {
      assert (a + b)[1..] == a[1..] + b;
      ReadConcat(a[1..], b);
    }
  }

  lemma {:induction false} UsesRead(calls: seq<ToolCall>)
    ensures TextIn(UseBlocks(calls)) == "" && CallsIn(UseBlocks(calls)) == calls
  {
    if calls != [] {
      UsesRead(calls[1..]);
      assert UseBlocks(calls)[1..] == UseBlocks(calls[1..]);
      assert calls == [calls[0]] + calls[1..];
    }
  }

  lemma {:induction false} MessageRead(m: Message)
    requires m.role != Tool
    ensures ReadGroup(Group(m.role, ClaudeBlocks(m))) == [Recovered(m)]
  {
    var blocks := ClaudeBlocks(m);
    if IsCaller(m) {
      UsesRead(m.calls);
      if m.content != "" {
        assert blocks[0] == TextBlock(m.content) && blocks[1..] == UseBlocks(m.calls);
        assert m.content + "" == m.content;
        assert [] + m.calls == m.calls;
      } else {
        assert blocks == UseBlocks(m.calls) && blocks[0].ToolUse?;
      }
      assert !blocks[0].ToolAnswer?;
      assert TextIn(blocks) == m.content && CallsIn(blocks) == m.calls;
    } else {
      assert blocks[1..] == [] && blocks[0] == PlainText(m.content);
      assert TextIn([]) == "" && m.content + "" == m.content;
      assert TextIn(blocks) == m.content && CallsIn(blocks) == [];
      assert !blocks[0].ToolAnswer?;
    }
  }

  lemma {:induction false} PendingRead(pending: seq<Block>)
    requires forall i :: 0 <= i < |pending| ==> pending[i].ToolAnswer?
    ensures ReadClaude(Flush(pending)) == AnswersIn(pending)
  {
    if pending != [] {
      assert Flush(pending)[1..] == [];
    }
  }

  /** Reading undoes the conversion, however the messages are grouped. */
  lemma {:induction false} ClaudeReadBack(ms: seq<Message>, pending: seq<Block>)
    requires forall i :: 0 <= i < |pending| ==> pending[i].ToolAnswer?
    ensures ReadClaude(Grouping(CLAUDE, ms, pending)) == AnswersIn(pending) + RecoveredAll(ms)
    decreases |ms|
  {
    hide ReadGroup, AnswersIn, Flush, ClaudeBlocks, Recovered;
    PendingRead(pending);
    if ms == [] {
      assert AnswersIn(pending) + RecoveredAll(ms) == AnswersIn(pending);
    } else {
      var m := ms[0];
      assert RecoveredAll(ms) == [Recovered(m)] + RecoveredAll(ms[1..]);
      if m.role == Tool {
        ToolRead(pending, m);
        ClaudeReadBack(ms[1..], pending + ClaudeBlocks(m));
      } else {
        var g := Group(m.role, ClaudeBlocks(m));
        MessageRead(m);
        ClaudeReadBack(ms[1..], []);
        ReadConcat(Flush(pending) + [g], Grouping(CLAUDE, ms[1..], []));
        ReadConcat(Flush(pending), [g]);
        OneRead(g);
        NoAnswers();
      }
    }
  }

  lemma {:induction false} OneRead(g: Group<Block>)
    ensures ReadClaude([g]) == ReadGroup(g)
  {
    assert [g][1..] == [];
    assert ReadGroup(g) + [] == ReadGroup(g);
  }

  lemma {:induction false} NoAnswers()
    ensures AnswersIn([]) == []
  {
  }

  lemma {:induction false} ToolRead(pending: seq<Block>, m: Message)
    requires m.role == Tool && forall i :: 0 <= i < |pending| ==> pending[i].ToolAnswer?
    ensures var more := pending + ClaudeBlocks(m);
            (forall i :: 0 <= i < |more| ==> more[i].ToolAnswer?) && AnswersIn(more) == AnswersIn(pending) + [Recovered(m)]
  {
    var more := pending + ClaudeBlocks(m);
    assert more[..|more| - 1] == pending;
  }

  /** Only tool results carry call ids. */
  predicate IdsInPlace(ms: seq<Message>)
  {
    forall i :: 0 <= i < |ms| && ms[i].role != Tool ==> ms[i].callId == None
  }

  lemma {:induction false} PairedRecovered(ms: seq<Message>)
    requires Paired(ms) && IdsInPlace(ms)
    ensures RecoveredAll(ms) == ms
    decreases |ms|
  {
    hide Exchange, Paired, Span;
    if ms != [] {
      PairedHead(ms);
      var n := Span(ms[0]);
      assert n > 0 by { SpanPositive(ms[0]); }
      ExchangeRecovered(ms[..n]);
      PairedRecovered(ms[n..]);
      assert ms == ms[..n] + ms[n..];
      assert RecoveredAll(ms) == RecoveredAll(ms[..n]) + RecoveredAll(ms[n..]);
    }
  }

  lemma {:induction false} ExchangeRecovered(ex: seq<Message>)
    requires Exchange(ex) && IdsInPlace(ex)
    ensures RecoveredAll(ex) == ex
  {
    forall i | 0 <= i < |ex| ensures Recovered(ex[i]) == ex[i] {
      InExchange(ex, i);
    }
  }

  /** The message loop of stream_claude_with_tools: everything a message says is read back, and a paired conversation whole. */
  method ToClaude(ms: seq<Message>) returns (out: seq<Group<Block>>)
    ensures ReadClaude(out) == RecoveredAll(ms)
    ensures Paired(ms) && IdsInPlace(ms) ==> ReadClaude(out) == ms
    ensures Flatten(out) == Flat(CLAUDE, ms)
    ensures Paired(ms) ==> Grouped(CLAUDE_KEYS, out)
  {
    hide Paired, Grouped, Flatten, Flat, UseBlocks, IsCaller, Grouping, ReadClaude, RecoveredAll, IdsInPlace;
    out := [];
    var pending: seq<Block> := [];
    var i := 0;
    while i < |ms|
      invariant 0 <= i <= |ms| && out + Grouping(CLAUDE, ms[i..], pending) == Grouping(CLAUDE, ms, [])
    {
      var m := ms[i];
      GroupingStep(CLAUDE, out, ms, i, pending);
      if m.role == Tool {
        pending := pending + [ToolAnswer(UnwrapOr(m.callId, ""), m.content)];
      } else {
        if pending != [] {
          out := out + [Group(User, pending)];
          pending := [];
        }
        out := out + [Group(m.role, ClaudeBlocks(m))];
      }
      i := i + 1;
    }
    GroupingEnd(CLAUDE, pending);
    assert ms[i..] == [];
    if pending != [] {
      out := out + [Group(User, pending)];
    }
    ClaudeConverted(ms, out);
  }

  lemma {:induction false} ClaudeConverted(ms: seq<Message>, out: seq<Group<Block>>)
    requires out == Grouping(CLAUDE, ms, [])
    ensures ReadClaude(out) == RecoveredAll(ms) && (Paired(ms) && IdsInPlace(ms) ==> ReadClaude(out) == ms)
    ensures Flatten(out) == Flat(CLAUDE, ms)
    ensures Paired(ms) ==> Grouped(CLAUDE_KEYS, out)
  {
    hide Paired, Grouped, Flatten, Flat, ClaudeBlocks, RecoveredAll, ReadClaude, IdsInPlace;
    ClaudeReadBack(ms, []);
    NoAnswers();
    assert AnswersIn([]) + RecoveredAll(ms) == RecoveredAll(ms);
    if Paired(ms) && IdsInPlace(ms) {
      PairedRecovered(ms);
    }
    GroupingLossless(CLAUDE, ms, []);
    assert Tagged<Block>(User, []) + Flat(CLAUDE, ms) == Flat(CLAUDE, ms);
    if Paired(ms) {
      ClaudeFaithful();
      PairedGrouped(CLAUDE, CLAUDE_KEYS, BY_ID, ms);
    }
  }

  lemma {:induction false} UsesAsked(calls: seq<ToolCall>)
    ensures Asked(CLAUDE_KEYS, UseBlocks(calls)) == KeysOf(BY_ID, calls)
    ensures forall i :: 0 <= i < |UseBlocks(calls)| ==> UseBlocks(calls)[i].ToolUse?
  {
    if calls != [] {
      UsesAsked(calls[1..]);
      assert UseBlocks(calls)[1..] == UseBlocks(calls[1..]);
    }
  }

  lemma {:induction false} ClaudeMessageFaithful(m: Message)
    requires m.role != Tool
    ensures Asked(CLAUDE_KEYS, ClaudeBlocks(m)) == (if IsCaller(m) then KeysOf(BY_ID, m.calls) else [])
    ensures !HasAnswer(CLAUDE_KEYS, Group(m.role, ClaudeBlocks(m)))
  {
    if IsCaller(m) {
      UsesAsked(m.calls);
      if m.content != "" {
        assert ClaudeBlocks(m)[1..] == UseBlocks(m.calls);
      } else {
        assert ClaudeBlocks(m) == UseBlocks(m.calls);
      }
    } else {
      assert ClaudeBlocks(m)[1..] == [];
    }
  }

  lemma {:induction false} ClaudeFaithful()
    ensures Faithful(CLAUDE, CLAUDE_KEYS, BY_ID)
  {
    forall m: Message | m.role != Tool
      ensures Asked(CLAUDE_KEYS, CLAUDE.blocks(m)) == (if IsCaller(m) then KeysOf(BY_ID, m.calls) else [])
      ensures !HasAnswer(CLAUDE_KEYS, Group(m.role, CLAUDE.blocks(m)))
    {
      ClaudeMessageFaithful(m);
    }
  }

  // ---- Gemini ----

  datatype Part = TextPart(text: string) | FunctionCall(name: string, args: string) | FunctionResponse(name: string, content: string)

  const GEMINI_PREFIX := "gemini-tc-"

  /** The id given to the call of a function: its name and a running number. */
  function GeminiId(name: string, index: nat): string
  {
    GEMINI_PREFIX + name + "-" + Decimal(index)
  }

  function LastDash(s: string): (r: Option<nat>)
    ensures r.Some? ==> r.value < |s| && s[r.value] == '-' && '-' !in s[r.value + 1..]
    ensures r.None? ==> '-' !in s
  {
    if s == "" then None
    else if s[|s| - 1] == '-' then Some(|s| - 1)
    else
      var r := LastDash(s[..|s| - 1]);
      assert r.Some? ==> s[r.value + 1..] == s[..|s| - 1][r.value + 1..] + [s[|s| - 1]];
      assert s == s[..|s| - 1] + [s[|s| - 1]];
      r
  }

  /** The function name read back from a call id. */
  function GeminiName(id: string): string
  {
    if |GEMINI_PREFIX| <= |id| && id[..|GEMINI_PREFIX|] == GEMINI_PREFIX then
      var rest := id[|GEMINI_PREFIX|..];
      var dash := LastDash(rest);
      if dash.Some? then rest[..dash.value] else "unknown"
    else "unknown"
  }

  lemma {:induction false} LastDashIs(a: string, b: string)
    requires '-' !in b
    ensures LastDash(a + "-" + b) == Some(|a|)
    decreases |b|
  {
    var s := a + "-" + b;
    if b == "" {
      assert s[|s| - 1] == '-';
    } else {
      var shorter := b[..|b| - 1];
      assert s[..|s| - 1] == a + "-" + shorter && s[|s| - 1] == b[|b| - 1];
      LastDashIs(a, shorter);
    }
  }

  /** The id scheme leads back to the name for every name, hyphens included. */
  lemma {:induction false} GeminiNameRoundTrip(name: string, index: nat)
    ensures GeminiName(GeminiId(name, index)) == name
  {
    var id := GeminiId(name, index);
    var digits := Decimal(index);
    assert id[..|GEMINI_PREFIX|] == GEMINI_PREFIX;
    assert id[|GEMINI_PREFIX|..] == name + "-" + digits;
    LastDashIs(name, digits);
    assert (name + "-" + digits)[..|name|] == name;
  }

  /** The name is what stands between the prefix and the last hyphen; without these two the function is unknown. */
  lemma {:induction false} GeminiNameExactly(id: string)
    ensures forall name, tail :: '-' !in tail && id == GEMINI_PREFIX + name + "-" + tail ==> GeminiName(id) == name
    ensures (forall name, tail :: '-' !in tail ==> id != GEMINI_PREFIX + name + "-" + tail) ==> GeminiName(id) == "unknown"
  {
    forall name, tail | '-' !in tail && id == GEMINI_PREFIX + name + "-" + tail ensures GeminiName(id) == name {
      assert id[..|GEMINI_PREFIX|] == GEMINI_PREFIX && id[|GEMINI_PREFIX|..] == name + "-" + tail;
      LastDashIs(name, tail);
      assert (name + "-" + tail)[..|name|] == name;
    }
    if |GEMINI_PREFIX| <= |id| && id[..|GEMINI_PREFIX|] == GEMINI_PREFIX && LastDash(id[|GEMINI_PREFIX|..]).Some? {
      var rest, k := id[|GEMINI_PREFIX|..], LastDash(id[|GEMINI_PREFIX|..]).value;
      assert id == GEMINI_PREFIX + rest[..k] + "-" + rest[k + 1..];
    }
  }

  function CallParts(calls: seq<ToolCall>): seq<Part>
  {
    if calls == [] then [] else [FunctionCall(calls[0].name, calls[0].arguments)] + CallParts(calls[1..])
  }

  function GeminiParts(m: Message): seq<Part>
  {
    if m.role == Tool then [FunctionResponse(if m.callId.Some? then GeminiName(m.callId.value) else "unknown", m.content)]
    else if IsCaller(m) then (if m.content != "" then [TextPart(m.content)] else []) + CallParts(m.calls)
    else [TextPart(m.content)]
  }

  /** The assistant is Gemini's model; everything else is sent as the user. */
  const GEMINI: Form<Part> := Form(m => GeminiParts(m), (m: Message) => if m.role == Assistant then Assistant else User)

  const GEMINI_KEYS: Keys<Part> :=
    Keys((p: Part) => if p.FunctionCall? then Some(p.name) else None, (p: Part) => if p.FunctionResponse? then Some(p.name) else None)

  /** Gemini tells calls apart by name; a call's id must lead back to it. */
  const BY_NAME: Naming := Naming((c: ToolCall) => c.name, (c: ToolCall) => GeminiName(c.id) == c.name)

  /** Every call carries an id of the scheme. */
  ghost predicate GeminiIds(ms: seq<Message>)
  {
    forall i, j :: 0 <= i < |ms| && 0 <= j < |ms[i].calls| ==> HasGeminiId(ms[i].calls[j])
  }

  ghost predicate HasGeminiId(c: ToolCall)
  {
    exists index: nat :: c.id == GeminiId(c.name, index)
  }

  lemma {:induction false} GeminiIdsNamed(ms: seq<Message>)
    requires GeminiIds(ms)
    ensures Named(BY_NAME, ms)
  {
    hide GeminiName, GeminiId;
    forall i, j | 0 <= i < |ms| && 0 <= j < |ms[i].calls| ensures BY_NAME.ok(ms[i].calls[j]) {
      var c := ms[i].calls[j];
      var index: nat :| c.id == GeminiId(c.name, index);
      GeminiNameRoundTrip(c.name, index);
    }
  }

  // ---- Reading Gemini messages back ----

  /** One message as Gemini sees it: no ids, and everyone but the assistant is the user. */
  datatype Seen = Said(model: bool, text: string, calls: seq<(string, string)>) | Answered(name: string, content: string)

  function PartsText(parts: seq<Part>): string
  {
    if parts == [] then "" else (if parts[0].TextPart? then parts[0].text else "") + PartsText(parts[1..])
  }

  function PartsCalls(parts: seq<Part>): seq<(string, string)>
  {
    if parts == [] then [] else (if parts[0].FunctionCall? then [(parts[0].name, parts[0].args)] else []) + PartsCalls(parts[1..])
  }

  function PartsAnswers(parts: seq<Part>): seq<Seen>
  {
    if parts == [] then []
    else PartsAnswers(parts[..|parts| - 1])
         + var p := parts[|parts| - 1]; if p.FunctionResponse? then [Answered(p.name, p.content)] else []
  }

  predicate OnlyResponses(parts: seq<Part>)
  {
    parts != [] && forall i :: 0 <= i < |parts| ==> parts[i].FunctionResponse?
  }

  function ReadContent(g: Group<Part>): seq<Seen>
  {
    if OnlyResponses(g.blocks) then if g.role == User then PartsAnswers(g.blocks) else []
    else if g.role == User || g.role == Assistant then [Said(g.role == Assistant, PartsText(g.blocks), PartsCalls(g.blocks))]
    else []
  }

  function ReadGemini(gs: seq<Group<Part>>): seq<Seen>
  {
    if gs == [] then [] else ReadContent(gs[0]) + ReadGemini(gs[1..])
  }

  function NamesAndArgs(calls: seq<ToolCall>): seq<(string, string)>
  {
    seq(|calls|, i requires 0 <= i < |calls| => (calls[i].name, calls[i].arguments))
  }

  /** What Gemini is told of a message: an answer under the name in its call's id, anything else with text, names and arguments. */
  function SeenOf(m: Message): Seen
  {
    if m.role == Tool then Answered(if m.callId.Some? then GeminiName(m.callId.value) else "unknown", m.content)
    else Said(m.role == Assistant, m.content, if m.role == Assistant then NamesAndArgs(m.calls) else [])
  }

  function SeenAll(ms: seq<Message>): seq<Seen>
  {
    seq(|ms|, i requires 0 <= i < |ms| => SeenOf(ms[i]))
  }

  lemma {:induction false} ReadGeminiConcat(a: seq<Group<Part>>, b: seq<Group<Part>>)
    ensures ReadGemini(a + b) == ReadGemini(a) + ReadGemini(b)
  {
    if a == [] {
      assert a + b == b;
    } else {
      assert (a + b)[1..] == a[1..] + b;
      ReadGeminiConcat(a[1..], b);
    }
  }

  lemma {:induction false} CallPartsRead(calls: seq<ToolCall>)
    ensures PartsText(CallParts(calls)) == "" && PartsCalls(CallParts(calls)) == NamesAndArgs(calls)
  {
    if calls != [] {
      CallPartsRead(calls[1..]);
      assert CallParts(calls)[1..] == CallParts(calls[1..]);
      assert NamesAndArgs(calls) == [(calls[0].name, calls[0].arguments)] + NamesAndArgs(calls[1..]);
    }
  }

  lemma {:induction false} ContentRead(m: Message)
    requires m.role != Tool
    ensures ReadContent(Group(if m.role == Assistant then Assistant else User, GeminiParts(m))) == [SeenOf(m)]
  {
    var parts := GeminiParts(m);
    if IsCaller(m) {
      CallPartsRead(m.calls);
      if m.content != "" {
        assert parts[0] == TextPart(m.content) && parts[1..] == CallParts(m.calls);
        assert m.content + "" == m.content;
        assert [] + NamesAndArgs(m.calls) == NamesAndArgs(m.calls);
      } else {
        assert parts == CallParts(m.calls) && parts[0].FunctionCall?;
      }
      assert !parts[0].FunctionResponse?;
      assert PartsText(parts) == m.content && PartsCalls(parts) == NamesAndArgs(m.calls);
    } else {
      assert parts[1..] == [] && parts[0] == TextPart(m.content);
      assert PartsText([]) == "" && m.content + "" == m.content;
      assert PartsText(parts) == m.content && PartsCalls(parts) == [];
      assert !parts[0].FunctionResponse?;
      assert m.role == Assistant ==> NamesAndArgs(m.calls) == [];
    }
  }

  lemma {:induction false} ResponsesRead(pending: seq<Part>)
    requires forall i :: 0 <= i < |pending| ==> pending[i].FunctionResponse?
    ensures ReadGemini(Flush(pending)) == PartsAnswers(pending)
  {
    if pending != [] {
      assert Flush(pending)[1..] == [];
    }
  }

  /** Reading undoes the conversion but for ids and the roles that Gemini does not have. */
  lemma {:induction false} GeminiReadBack(ms: seq<Message>, pending: seq<Part>)
    requires forall i :: 0 <= i < |pending| ==> pending[i].FunctionResponse?
    ensures ReadGemini(Grouping(GEMINI, ms, pending)) == PartsAnswers(pending) + SeenAll(ms)
    decreases |ms|
  {
    hide ReadContent, PartsAnswers, Flush, GeminiParts, SeenOf;
    ResponsesRead(pending);
    if ms == [] {
      assert PartsAnswers(pending) + SeenAll(ms) == PartsAnswers(pending);
    } else {
      var m := ms[0];
      assert SeenAll(ms) == [SeenOf(m)] + SeenAll(ms[1..]);
      if m.role == Tool {
        ResponseRead(pending, m);
        GeminiReadBack(ms[1..], pending + GeminiParts(m));
      } else {
        var g := Group(if m.role == Assistant then Assistant else User, GeminiParts(m));
        ContentRead(m);
        GeminiReadBack(ms[1..], []);
        ReadGeminiConcat(Flush(pending) + [g], Grouping(GEMINI, ms[1..], []));
        ReadGeminiConcat(Flush(pending), [g]);
        OneContent(g);
        NoResponses();
      }
    }
  }

  lemma {:induction false} OneContent(g: Group<Part>)
    ensures ReadGemini([g]) == ReadContent(g)
  {
    assert [g][1..] == [];
    assert ReadContent(g) + [] == ReadContent(g);
  }

  lemma {:induction false} NoResponses()
    ensures PartsAnswers([]) == []
  {
  }

  lemma {:induction false} ResponseRead(pending: seq<Part>, m: Message)
    requires m.role == Tool && forall i :: 0 <= i < |pending| ==> pending[i].FunctionResponse?
    ensures var more := pending + GeminiParts(m);
            (forall i :: 0 <= i < |more| ==> more[i].FunctionResponse?) && PartsAnswers(more) == PartsAnswers(pending) + [SeenOf(m)]
  {
    hide GeminiName;
    var more := pending + GeminiParts(m);
    assert more[..|more| - 1] == pending;
  }

  /** The message loop of stream_gemini_with_tools: every text, call and answer is read back in order. */
  method ToGemini(ms: seq<Message>) returns (out: seq<Group<Part>>)
    ensures ReadGemini(out) == SeenAll(ms)
    ensures Flatten(out) == Flat(GEMINI, ms)
    ensures Paired(ms) && GeminiIds(ms) ==> Grouped(GEMINI_KEYS, out)
  {
    hide Paired, Grouped, Flatten, Flat, GeminiName, GeminiIds, CallParts, IsCaller, Grouping, ReadGemini, SeenAll;
    out := [];
    var pending: seq<Part> := [];
    var i := 0;
    while i < |ms|
      invariant 0 <= i <= |ms| && out + Grouping(GEMINI, ms[i..], pending) == Grouping(GEMINI, ms, [])
    {
      var m := ms[i];
      GroupingStep(GEMINI, out, ms, i, pending);
      if m.role == Tool {
        pending := pending + [FunctionResponse(if m.callId.Some? then GeminiName(m.callId.value) else "unknown", m.content)];
      } else {
        if pending != [] {
          out := out + [Group(User, pending)];
          pending := [];
        }
        out := out + [Group(if m.role == Assistant then Assistant else User, GeminiParts(m))];
      }
      i := i + 1;
    }
    GroupingEnd(GEMINI, pending);
    assert ms[i..] == [];
    if pending != [] {
      out := out + [Group(User, pending)];
    }
    GeminiConverted(ms, out);
  }

  lemma {:induction false} GeminiConverted(ms: seq<Message>, out: seq<Group<Part>>)
    requires out == Grouping(GEMINI, ms, [])
    ensures ReadGemini(out) == SeenAll(ms)
    ensures Flatten(out) == Flat(GEMINI, ms)
    ensures Paired(ms) && GeminiIds(ms) ==> Grouped(GEMINI_KEYS, out)
  {
    hide Paired, Grouped, Flatten, Flat, GeminiName, GeminiIds, GeminiParts, ReadGemini, SeenAll;
    GeminiReadBack(ms, []);
    NoResponses();
    assert PartsAnswers([]) + SeenAll(ms) == SeenAll(ms);
    GroupingLossless(GEMINI, ms, []);
    assert Tagged<Part>(User, []) + Flat(GEMINI, ms) == Flat(GEMINI, ms);
    if Paired(ms) && GeminiIds(ms) {
      GeminiFaithful();
      GeminiIdsNamed(ms);
      PairedGrouped(GEMINI, GEMINI_KEYS, BY_NAME, ms);
    }
  }

  lemma {:induction false} CallsAsked(calls: seq<ToolCall>)
    ensures Asked(GEMINI_KEYS, CallParts(calls)) == KeysOf(BY_NAME, calls)
    ensures forall i :: 0 <= i < |CallParts(calls)| ==> CallParts(calls)[i].FunctionCall?
  {
    if calls != [] {
      CallsAsked(calls[1..]);
      assert CallParts(calls)[1..] == CallParts(calls[1..]);
    }
  }

  lemma {:induction false} GeminiMessageFaithful(m: Message)
    requires m.role != Tool
    ensures Asked(GEMINI_KEYS, GeminiParts(m)) == (if IsCaller(m) then KeysOf(BY_NAME, m.calls) else [])
    ensures !HasAnswer(GEMINI_KEYS, Group(m.role, GeminiParts(m)))
  {
    if IsCaller(m) {
      CallsAsked(m.calls);
      if m.content != "" {
        assert GeminiParts(m)[1..] == CallParts(m.calls);
      } else {
        assert GeminiParts(m) == CallParts(m.calls);
      }
    } else {
      assert GeminiParts(m)[1..] == [];
    }
  }

  lemma {:induction false} GeminiFaithful()
    ensures Faithful(GEMINI, GEMINI_KEYS, BY_NAME)
  {
    hide GeminiName;
    forall m: Message | m.role != Tool
      ensures Asked(GEMINI_KEYS, GEMINI.blocks(m)) == (if IsCaller(m) then KeysOf(BY_NAME, m.calls) else [])
      ensures !HasAnswer(GEMINI_KEYS, Group(m.role, GEMINI.blocks(m)))
    {
      GeminiMessageFaithful(m);
    }
  }
}
