/** The agent's conversation: tool-call pairing, token budgets and context compaction. */
module Conversation {
  import opened Common

  datatype Role = User | Assistant | Tool | System

  datatype ToolCall = ToolCall(id: string, name: string, arguments: string)

  datatype Message = Message(role: Role, content: string, callId: Option<string>, calls: seq<ToolCall>)

  // ---- Pairing ----

  predicate AnswersOf(ms: seq<Message>, calls: seq<ToolCall>)
  {
    |ms| == |calls| && forall k :: 0 <= k < |calls| ==> ms[k].role == Tool && ms[k].callId == Some(calls[k].id) && ms[k].calls == []
  }

  predicate IsCaller(m: Message)
  {
    m.role == Assistant && m.calls != []
  }

  /** How many messages the exchange that starts with m takes up. */
  function Span(m: Message): (n: nat)
    ensures n > 0
  {
    if IsCaller(m) then 1 + |m.calls| else 1
  }

  /** One plain message, or a tool-calling assistant with exactly its results, one per call and in call order. */
  predicate Exchange(ms: seq<Message>)
  {
    |ms| > 0 && |ms| == Span(ms[0])
    && if IsCaller(ms[0]) then AnswersOf(ms[1..], ms[0].calls) else ms[0].role != Tool && ms[0].calls == []
  }

  /** A conversation providers accept: a sequence of exchanges. */
  predicate Paired(ms: seq<Message>)
    decreases |ms|
  {
    ms == [] || (Span(ms[0]) <= |ms| && Exchange(ms[..Span(ms[0])]) && Paired(ms[Span(ms[0])..]))
  }

  lemma {:induction false} PairedConcat(a: seq<Message>, b: seq<Message>)
    requires Paired(a)
    ensures Paired(a + b) <==> Paired(b)
    decreases |a|
  {
    if a == [] {
      assert a + b == b;
    } else {
      var n := Span(a[0]);
      assert (a + b)[..n] == a[..n] && (a + b)[n..] == a[n..] + b;
      PairedConcat(a[n..], b);
    }
  }

  lemma {:induction false} ExchangePaired(ms: seq<Message>)
    requires Exchange(ms)
    ensures Paired(ms)
  {
    assert ms[..|ms|] == ms && ms[|ms|..] == [];
  }

  /** A turn keeps a conversation paired: the assistant's message and then one result per call. */
  lemma {:induction false} TurnPaired(ms: seq<Message>, assistant: Message, results: seq<Message>)
    requires Paired(ms) && assistant.role == Assistant && AnswersOf(results, assistant.calls)
    ensures Paired(ms + [assistant] + results)
  {
    var exchange := [assistant] + results;
    assert exchange[1..] == results;
    assert Exchange(exchange);
    hide Exchange, Paired, AnswersOf;
    ExchangePaired(exchange);
    PairedConcat(ms, exchange);
    assert ms + [assistant] + results == ms + exchange;
  }

  lemma {:induction false} PlainPaired(ms: seq<Message>, m: Message)
    requires Paired(ms) && m.role != Tool && m.calls == []
    ensures Paired(ms + [m])
  {
    ExchangePaired([m]);
    PairedConcat(ms, [m]);
  }

  lemma {:induction false} InExchange(ex: seq<Message>, k: nat)
    requires Exchange(ex) && k < |ex|
    ensures ex[k].role == Tool <==> k > 0
    ensures k > 0 ==> IsCaller(ex[0]) && k - 1 < |ex[0].calls| && ex[k].callId == Some(ex[0].calls[k - 1].id)
  {
    assert k > 0 ==> ex[1..][k - 1] == ex[k];
  }

  lemma {:induction false} PairedHead(ms: seq<Message>)
    requires Paired(ms) && ms != []
    ensures Span(ms[0]) <= |ms| && Exchange(ms[..Span(ms[0])]) && Paired(ms[..Span(ms[0])]) && Paired(ms[Span(ms[0])..])
  {
    ExchangePaired(ms[..Span(ms[0])]);
  }

  /** Position start begins the exchange that position i belongs to. */
  predicate ExchangeAt(ms: seq<Message>, start: nat, i: nat)
  {
    start <= i < |ms| && i < start + Span(ms[start]) <= |ms| && Exchange(ms[start..start + Span(ms[start])])
  }

  lemma {:induction false} ExchangeOf(ms: seq<Message>, i: nat) returns (start: nat)
    requires Paired(ms) && i < |ms|
    ensures ExchangeAt(ms, start, i) && Paired(ms[..start]) && Paired(ms[start..])
    decreases |ms|
  {
    hide Paired, Exchange, Span;
    PairedHead(ms);
    var n := Span(ms[0]);
    if i < n {
      start := 0;
      assert ms[0..] == ms && ms[..0] == [] && ms[0..n] == ms[..n];
      assert Paired(ms[..0]) by { NothingPaired(); }
    } else {
      var rest := ms[n..];
      var s := ExchangeOf(rest, i - n);
      start := n + s;
      assert rest[s..] == ms[start..] && rest[s] == ms[start];
      assert rest[s..s + Span(rest[s])] == ms[start..start + Span(ms[start])];
      assert ms[..start] == ms[..n] + rest[..s];
      PairedConcat(ms[..n], rest[..s]);
    }
  }

  lemma {:induction false} NothingPaired()
    ensures Paired([])
  {
  }

  lemma {:induction false} ToolInside(ms: seq<Message>, start: nat, i: nat)
    requires ExchangeAt(ms, start, i)
    ensures ms[i].role == Tool <==> start < i
    ensures start < i ==> IsCaller(ms[start]) && i - start - 1 < |ms[start].calls| && ms[i].callId == Some(ms[start].calls[i - start - 1].id)
  {
    hide Exchange;
    var ex := ms[start..start + Span(ms[start])];
    assert ex[i - start] == ms[i] && ex[0] == ms[start];
    InExchange(ex, i - start);
  }

  /** Cutting anywhere but before a tool result leaves two paired halves. */
  lemma {:induction false} CutPaired(ms: seq<Message>, cut: nat)
    requires Paired(ms) && cut <= |ms| && (cut < |ms| ==> ms[cut].role != Tool)
    ensures Paired(ms[..cut]) && Paired(ms[cut..])
  {
    if cut < |ms| {
      hide Paired, Exchange, Span;
      var start := ExchangeOf(ms, cut);
      ToolInside(ms, start, cut);
    } else {
      assert ms[..cut] == ms;
    }
  }

  // ---- Budgets ----

  const U32 := 0x1_0000_0000

  function Clamp(x: int, lo: int, hi: int): int
    requires lo <= hi
  {
    if x < lo then lo else if x > hi then hi else x
  }

  function MinNat(a: nat, b: nat): nat
  {
    if a < b then a else b
  }

  function SatSub(a: nat, b: nat): nat
  {
    if a < b then 0 else a - b
  }

  /** What the window leaves for the prompt; the two reserves together never exceed it, so the subtractions never saturate. */
  function PromptBudget(window: nat, maxTokens: Option<nat>): (r: nat)
    requires window < U32
    ensures r <= window
    ensures var output := MinNat(if maxTokens.Some? then maxTokens.value else 4096, window / 2);
            var safety := MinNat(Clamp(window / 10, 2048, 16_384), window / 2);
            output + safety + r == window
  {
    var output := MinNat(if maxTokens.Some? then maxTokens.value else 4096, window / 2);
    var safety := MinNat(Clamp(window / 10, 2048, 16_384), window / 2);
    SatSub(SatSub(window, output), safety)
  }

  /** The share of the budget kept verbatim; the product is taken modulo 2^32 as u32 arithmetic does without overflow checks. */
  function KeepRecentBudget(budget: nat): (r: nat)
    requires budget < U32
    ensures r <= budget && r <= 50_000 && (budget >= 2 ==> r > 0)
    ensures 4096 < budget && budget * 6 < U32 ==> r == Clamp(budget * 6 / 10, 4096, 50_000)
  {
    if budget <= 4096 then budget / 2 else Clamp(budget * 6 % U32 / 10, 4096, 50_000)
  }

  // ---- Compaction ----

  function Total(ms: seq<Message>, size: Message -> nat): nat
  {
    if ms == [] then 0 else size(ms[0]) + Total(ms[1..], size)
  }

  lemma {:induction false} TotalFrom(ms: seq<Message>, i: nat, size: Message -> nat)
    requires i < |ms|
    ensures Total(ms[i..], size) == size(ms[i]) + Total(ms[i + 1..], size)
  {
    assert ms[i..][1..] == ms[i + 1..];
  }

  lemma {:induction false} TotalGrows(ms: seq<Message>, i: nat, j: nat, size: Message -> nat)
    requires i <= j <= |ms|
    ensures Total(ms[j..], size) <= Total(ms[i..], size)
    decreases j - i
  {
    if i < j {
      TotalGrows(ms, i + 1, j, size);
      TotalFrom(ms, i, size);
    }
  }

  /** The first position from which everything fits the keep budget, though never past the last message. */
  predicate IsCut(ms: seq<Message>, keep: nat, size: Message -> nat, cut: nat)
  {
    && cut < |ms|
    && (cut < |ms| - 1 && cut > 0 ==> Total(ms[cut..], size) <= keep)
    && (cut > 0 ==> Total(ms[cut - 1..], size) > keep)
    && (cut == 0 ==> Total(ms[1..], size) <= keep)
  }

  /** The backward scan of maybe_compact. */
  method FindCut(ms: seq<Message>, keep: nat, size: Message -> nat) returns (cut: nat)
    requires |ms| > 0
    ensures IsCut(ms, keep, size, cut)
  {
    var recent: nat := 0;
    cut := |ms|;
    var i: nat := |ms|;
    while i > 0
      invariant i <= |ms| && cut == i && recent == Total(ms[i..], size)
      invariant 0 < i < |ms| ==> recent <= keep
      invariant i == 0 ==> Total(ms[1..], size) <= keep
    {
      TotalFrom(ms, i - 1, size);
      var t := size(ms[i - 1]);
      if recent + t > keep && i - 1 > 0 {
        break;
      }
      recent := recent + t;
      i := i - 1;
      cut := i;
    }
    if cut >= |ms| {
      cut := |ms| - 1;
      if cut > 0 {
        TotalGrows(ms, cut - 1, cut, size);
      }
    }
  }

  /** find_originating_assistant. */
  method FindOrigin(ms: seq<Message>, toolIndex: nat) returns (origin: Option<nat>)
    ensures origin.Some? ==> origin.value < toolIndex < |ms| && Originates(ms, toolIndex, origin.value)
    ensures origin.Some? ==> forall k :: origin.value < k < toolIndex ==> !Originates(ms, toolIndex, k)
    ensures origin.None? && toolIndex < |ms| ==> forall k :: 0 <= k < toolIndex ==> !Originates(ms, toolIndex, k)
  {
    if toolIndex >= |ms| {
      return None;
    }
    var i: nat := toolIndex;
    while i > 0
      invariant i <= toolIndex
      invariant forall k :: i <= k < toolIndex ==> !Originates(ms, toolIndex, k)
    {
      i := i - 1;
      if ms[i].role != Assistant {
        continue;
      }
      if ms[toolIndex].callId.Some? {
        if exists c :: c in ms[i].calls && c.id == ms[toolIndex].callId.value {
          return Some(i);
        }
      } else if ms[i].calls != [] {
        return Some(i);
      }
    }
    return None;
  }

  /** Message k is an assistant that could have asked for the result at toolIndex. */
  predicate Originates(ms: seq<Message>, toolIndex: nat, k: nat)
  {
    && toolIndex < |ms| && k < |ms| && ms[k].role == Assistant
    && if ms[toolIndex].callId.Some? then exists c :: c in ms[k].calls && c.id == ms[toolIndex].callId.value else ms[k].calls != []
  }

  /** adjust_cut_for_tool_pair_integrity: in a paired conversation the cut moves to the start of its exchange. */
  method AdjustCut(ms: seq<Message>, start: nat) returns (cut: nat)
    ensures cut <= start && (start >= |ms| ==> cut == start)
    ensures Paired(ms) && cut < |ms| ==> ms[cut].role != Tool
    ensures Paired(ms) && start < |ms| && cut < start ==> cut + Span(ms[cut]) > start
  {
    cut := start;
    if cut >= |ms| {
      return;
    }
    while cut < |ms| && ms[cut].role == Tool
      invariant cut <= start && cut < |ms|
      invariant Paired(ms) && cut < start ==> ms[cut].role != Tool && cut + Span(ms[cut]) > start
      decreases cut
    {
      var origin := FindOrigin(ms, cut);
      if Paired(ms) {
        OriginIsExchange(ms, cut, origin);
      }
      if origin.None? || origin.value >= cut {
        break;
      }
      cut := origin.value;
    }
  }

  /** In a paired conversation the nearest assistant that could have asked is the one that did. */
  lemma {:induction false} OriginIsExchange(ms: seq<Message>, i: nat, origin: Option<nat>)
    requires Paired(ms) && i < |ms| && ms[i].role == Tool
    requires origin.Some? ==> origin.value < i && Originates(ms, i, origin.value)
    requires forall k :: (if origin.Some? then origin.value else -1) < k < i ==> !Originates(ms, i, k)
    ensures origin.Some? && ms[origin.value].role == Assistant && origin.value + Span(ms[origin.value]) > i
  {
    hide Paired, Exchange;
    var start := ExchangeOf(ms, i);
    ToolInside(ms, start, i);
    assert ms[start].calls[i - start - 1] in ms[start].calls;
    assert Originates(ms, i, start);
    forall k | start < k < i ensures !Originates(ms, i, k) {
      ToolInside(ms, start, k);
    }
  }

  datatype CompactResult = Skipped | Compacted | Cancelled

  /** The model's summary (or the fallback in its place), unless the run was cancelled while waiting for it. */
  datatype Summary = SummaryCancelled | SummaryText(text: string)

  const SUMMARY_NOTE := "[SYSTEM-GENERATED CONTEXT SUMMARY - earlier conversation compressed; background only, not a new user request]\n\n"

  function SummaryMessage(text: string): Message
  {
    Message(User, SUMMARY_NOTE + text, None, [])
  }

  /** The first message, a summary, and everything from the cut on. */
  function CompactedAt(ms: seq<Message>, cut: nat, text: string): seq<Message>
    requires 0 < cut <= |ms|
  {
    [ms[0], SummaryMessage(text)] + ms[cut..]
  }

  /** A user message that ends with the summary. */
  predicate Summarizes(m: Message, text: string)
  {
    && m.role == User && m.callId == None && m.calls == []
    && |m.content| >= |text| && m.content[|m.content| - |text|..] == text
  }

  lemma {:induction false} CompactedShape(ms: seq<Message>, cut: nat, text: string)
    requires 1 < cut <= |ms|
    ensures var after := CompactedAt(ms, cut, text);
            1 < |after| <= |ms| && after[0] == ms[0] && Summarizes(after[1], text)
  {
  }

  /** What compaction depends on besides the messages. */
  datatype Sizing = Sizing(window: nat, maxTokens: Option<nat>, size: Message -> nat, estimate: seq<Message> -> nat)

  function Budget(z: Sizing): nat
  {
    if z.window < U32 then PromptBudget(z.window, z.maxTokens) else 0
  }

  function KeepTokens(z: Sizing, force: bool): (r: nat)
    ensures r <= Budget(z)
  {
    if force then KeepRecentBudget(Budget(z)) / 2 else KeepRecentBudget(Budget(z))
  }

  /** The cut is the start of the exchange in which the keep budget runs out. */
  ghost predicate CutWithin(ms: seq<Message>, z: Sizing, force: bool, cut: nat)
  {
    exists c: nat :: cut <= c < |ms| && IsCut(ms, KeepTokens(z, force), z.size, c) && (cut < c ==> cut + Span(ms[cut]) > c)
  }

  /**
   maybe_compact. A paired conversation stays paired exactly when its first message makes no tool calls;
   the first message and the messages from the cut on are kept as they are.
   */
  method MaybeCompact(ms: seq<Message>, z: Sizing, force: bool, summary: Summary) returns (r: CompactResult, after: seq<Message>, compacted: nat)
    requires z.window < U32
    ensures !force && z.estimate(ms) <= Budget(z) ==> r == Skipped
    ensures |ms| <= 2 ==> r == Skipped
    ensures r != Compacted ==> after == ms
    ensures r == Cancelled ==> summary.SummaryCancelled?
    ensures r == Compacted ==> summary.SummaryText? && 1 < compacted + 1 < |ms| && after == CompactedAt(ms, compacted + 1, summary.text)
    ensures r == Compacted ==> |after| > 1 && Summarizes(after[1], summary.text)
    ensures r == Compacted && Paired(ms) ==> CutWithin(ms, z, force, compacted + 1)
    ensures r == Compacted && Paired(ms) ==> (Paired(after) <==> ms[0].calls == [])
    ensures r == Skipped && Paired(ms) && |ms| > 2 && (force || z.estimate(ms) > Budget(z)) ==> CutWithin(ms, z, force, 0) || CutWithin(ms, z, force, 1)
    ensures |after| <= |ms| && (ms != [] ==> after != [] && after[0] == ms[0])
  {
    hide Paired, IsCut, Span, Exchange, CutWithin, KeepTokens, Budget, CompactedAt;
    compacted := 0;
    if !force && z.estimate(ms) <= Budget(z) {
      return Skipped, ms, 0;
    }
    if |ms| <= 2 {
      return Skipped, ms, 0;
    }
    var found := FindCut(ms, KeepTokens(z, force), z.size);
    CutInside(ms, KeepTokens(z, force), z.size, found);
    var cut := AdjustCut(ms, found);
    if Paired(ms) {
      CutFound(ms, z, force, found, cut);
    }
    if cut <= 1 {
      return Skipped, ms, 0;
    }
    if summary.SummaryCancelled? {
      return Cancelled, ms, 0;
    }
    compacted := cut - 1;
    after := CompactedAt(ms, cut, summary.text);
    CompactedShape(ms, cut, summary.text);
    if Paired(ms) {
      CompactionPairs(ms, cut, summary.text);
    }
    r := Compacted;
  }

  lemma {:induction false} CutFound(ms: seq<Message>, z: Sizing, force: bool, found: nat, cut: nat)
    requires IsCut(ms, KeepTokens(z, force), z.size, found) && cut <= found && (cut < found ==> cut < |ms| && cut + Span(ms[cut]) > found)
    ensures CutWithin(ms, z, force, cut)
  {
    hide IsCut, Span, KeepTokens;
    CutInside(ms, KeepTokens(z, force), z.size, found);
  }

  lemma {:induction false} CutInside(ms: seq<Message>, keep: nat, size: Message -> nat, cut: nat)
    requires IsCut(ms, keep, size, cut)
    ensures cut < |ms|
  {
  }

  lemma {:induction false} CompactionPairs(ms: seq<Message>, cut: nat, text: string)
    requires Paired(ms) && 0 < cut < |ms| && ms[cut].role != Tool
    ensures Paired(CompactedAt(ms, cut, text)) <==> ms[0].calls == []
  {
    hide Paired, Exchange, Span, CompactedAt;
    CutPaired(ms, cut);
    HeadShape(ms);
    CompactedParts(ms, cut, text);
    var after := CompactedAt(ms, cut, text);
    if ms[0].calls == [] {
      TwoPaired(ms[0], SummaryMessage(text));
      PairedConcat([ms[0], SummaryMessage(text)], ms[cut..]);
    } else if Paired(after) {
      CallerFollowed(after);
    }
  }

  lemma {:induction false} TwoPaired(a: Message, b: Message)
    requires a.role != Tool && a.calls == [] && b.role != Tool && b.calls == []
    ensures Paired([a, b])
  {
    NothingPaired();
    hide Paired;
    PlainPaired([], a);
    assert [] + [a] == [a];
    PlainPaired([a], b);
    assert [a] + [b] == [a, b];
  }

  lemma {:induction false} CompactedParts(ms: seq<Message>, cut: nat, text: string)
    requires 0 < cut <= |ms|
    ensures CompactedAt(ms, cut, text) == [ms[0], SummaryMessage(text)] + ms[cut..]
  {
  }

  lemma {:induction false} HeadShape(ms: seq<Message>)
    requires Paired(ms) && ms != []
    ensures ms[0].role != Tool && (ms[0].calls != [] ==> IsCaller(ms[0]))
  {
    PairedHead(ms);
    assert ms[..Span(ms[0])][0] == ms[0];
  }

  lemma {:induction false} CallerFollowed(ms: seq<Message>)
    requires Paired(ms) && ms != [] && IsCaller(ms[0])
    ensures |ms| > 1 && ms[1].role == Tool
  {
    PairedHead(ms);
    InExchange(ms[..Span(ms[0])], 1);
  }
}
