/** The agent loop: turns, retry after compaction, contract repair, tool execution and the event protocol. */
module AgentLoop {
  import opened Common
  import opened Conversation

  const MAX_AGENT_TURNS := 30
  const MAX_CONTRACT_REPAIR_ATTEMPTS := 2

  // ---- What a run shows, and the protocol it must follow ----

  /** Events for the frontend, and each request sent to the model. */
  datatype Entry =
    | TextDelta(text: string)
    | ReasoningDelta(text: string)
    | TurnStart(turn: nat)
    | TurnEnd(turn: nat)
    | ToolCallStart(id: string)
    | ToolCallEnd(id: string, isError: bool)
    | ContextCompacted(messages: nat)
    | AgentEnd
    | Request(conversation: seq<Message>)

  /** Where a run stands: between turns (with the tool calls started and finished), streaming, ended, or off the rails. */
  datatype Phase = Between(turn: nat, started: seq<string>, finished: nat) | Streaming(turn: nat, requests: nat) | Ended | Broken

  function Watch(p: Phase, e: Entry): Phase
  {
    match p
    case Between(n, started, k) =>
      if e.ToolCallStart? then if n > 0 && k == 0 then Between(n, started + [e.id], 0) else Broken
      else if e.ToolCallEnd? then if k < |started| && started[k] == e.id then Between(n, started, k + 1) else Broken
      else if k != |started| then Broken
      else if e.TurnStart? then if e.turn == n && n < MAX_AGENT_TURNS then Streaming(n, 0) else Broken
      else if e.AgentEnd? then Ended
      else if e.TextDelta? || e.ContextCompacted? then p
      else Broken
    case Streaming(n, c) =>
      if e.Request? then if c < 2 then Streaming(n, c + 1) else Broken
      else if e.TurnEnd? then if e.turn == n && c > 0 then Between(n + 1, [], 0) else Broken
      else if e.AgentEnd? then Ended
      else if e.TextDelta? || e.ReasoningDelta? || (e.ContextCompacted? && c == 1) then p
      else Broken
    case Ended => Broken
    case Broken => Broken
  }

  function Run(p: Phase, log: seq<Entry>): Phase
  {
    if log == [] then p else Watch(Run(p, log[..|log| - 1]), log[|log| - 1])
  }

  lemma {:induction false} RunConcat(p: Phase, a: seq<Entry>, b: seq<Entry>)
    ensures Run(p, a + b) == Run(Run(p, a), b)
    decreases |b|
  {
    if b == [] {
      assert a + b == a;
    } else {
      var i := |b| - 1;
      assert (a + b)[..|a + b| - 1] == a + b[..i] && (a + b)[|a + b| - 1] == b[i];
      RunConcat(p, a, b[..i]);
    }
  }

  lemma {:induction false} RunOne(p: Phase, a: seq<Entry>, e: Entry)
    ensures Run(p, a + [e]) == Watch(Run(p, a), e)
  {
    assert (a + [e])[..|a + [e]| - 1] == a;
  }

  /** Every request of the log is a conversation providers accept. */
  ghost predicate RequestsPaired(log: seq<Entry>)
  {
    forall i :: 0 <= i < |log| && log[i].Request? ==> Paired(log[i].conversation)
  }

  /** A conversation that compaction cannot orphan. */
  ghost predicate Good(ms: seq<Message>)
  {
    ms != [] && Paired(ms) && ms[0].calls == []
  }

  // ---- The environment ----

  datatype Chunk = Chunk(delta: string, reasoning: Option<string>)

  datatype StreamEnd = Done(calls: seq<ToolCall>) | StreamCancelled | Failed(error: string, contextLength: bool)

  datatype Attempt = Attempt(chunks: seq<Chunk>, end: StreamEnd)

  datatype ToolResult = ToolResult(content: string, isError: bool)

  /** All that one turn meets: cancellation, summaries, the model's streams and the tools. */
  datatype Turn = Turn(
    cancelBefore: bool, summary: Summary, first: Attempt, retrySummary: Summary, second: Attempt,
    cancelAfter: bool, execute: (ToolCall, nat) -> ToolResult)

  datatype Setup = Setup(
    sizing: Sizing, validate: string -> Option<string>, repairPrompt: string -> string,
    parallelOk: string -> bool, followUp: (string, string) -> string, isBlank: string -> bool)

  datatype Exit = Completed | CancelledRun | Interrupted(error: string) | Exhausted

  // ---- Streaming ----

  /** chunk_to_events. */
  function ChunkEvents(c: Chunk): seq<Entry>
  {
    (if c.delta != "" then [TextDelta(c.delta)] else []) + (if c.reasoning.Some? then [ReasoningDelta(c.reasoning.value)] else [])
  }

  function StreamEvents(chunks: seq<Chunk>): seq<Entry>
  {
    if chunks == [] then [] else StreamEvents(chunks[..|chunks| - 1]) + ChunkEvents(chunks[|chunks| - 1])
  }

  function StreamText(chunks: seq<Chunk>): string
  {
    if chunks == [] then "" else StreamText(chunks[..|chunks| - 1]) + chunks[|chunks| - 1].delta
  }

  predicate EmittedAny(chunks: seq<Chunk>)
  {
    exists c :: c in chunks && (c.delta != "" || c.reasoning.Some?)
  }

  /** A stream has emitted something exactly when it shows something. */
  lemma {:induction false} EmittedExactly(chunks: seq<Chunk>)
    ensures EmittedAny(chunks) <==> StreamEvents(chunks) != []
  {
    if chunks != [] {
      var head, last := chunks[..|chunks| - 1], chunks[|chunks| - 1];
      EmittedExactly(head);
      assert chunks == head + [last];
    }
  }

  lemma {:induction false} ChunkStays(chunk: Chunk, n: nat, c: nat)
    ensures Run(Streaming(n, c), ChunkEvents(chunk)) == Streaming(n, c)
    ensures NoRequests(ChunkEvents(chunk))
  {
    var p := Streaming(n, c);
    var d := if chunk.delta != "" then [TextDelta(chunk.delta)] else [];
    var r := if chunk.reasoning.Some? then [ReasoningDelta(chunk.reasoning.value)] else [];
    assert ChunkEvents(chunk) == d + r;
    RunConcat(p, d, r);
    assert d == [] || d == [] + d;
  }

  predicate NoRequests(log: seq<Entry>)
  {
    forall i :: 0 <= i < |log| ==> !log[i].Request?
  }

  lemma {:induction false} StreamStays(chunks: seq<Chunk>, n: nat, c: nat)
    ensures Run(Streaming(n, c), StreamEvents(chunks)) == Streaming(n, c)
    ensures NoRequests(StreamEvents(chunks))
  {
    hide Run, ChunkEvents;
    if chunks == [] {
      RunNothing(Streaming(n, c));
    } else {
      var head, last := chunks[..|chunks| - 1], chunks[|chunks| - 1];
      StreamStays(head, n, c);
      ChunkStays(last, n, c);
      RunConcat(Streaming(n, c), StreamEvents(head), ChunkEvents(last));
    }
  }

  /** The text and the reasoning that a log shows. */
  function TextShown(log: seq<Entry>): string
  {
    if log == [] then "" else TextShown(log[..|log| - 1]) + if log[|log| - 1].TextDelta? then log[|log| - 1].text else ""
  }

  lemma {:induction false} TextShownConcat(a: seq<Entry>, b: seq<Entry>)
    ensures TextShown(a + b) == TextShown(a) + TextShown(b)
    decreases |b|
  {
    if b == [] {
      assert a + b == a && TextShown(a) + "" == TextShown(a);
    } else {
      var i := |b| - 1;
      assert (a + b)[..|a + b| - 1] == a + b[..i] && (a + b)[|a + b| - 1] == b[i];
      TextShownConcat(a, b[..i]);
      var last := if b[i].TextDelta? then b[i].text else "";
      assert TextShown(a) + (TextShown(b[..i]) + last) == TextShown(a) + TextShown(b[..i]) + last;
    }
  }

  /** The text kept of a stream is the text it has shown. */
  lemma {:induction false} TextIsShown(chunks: seq<Chunk>)
    ensures TextShown(StreamEvents(chunks)) == StreamText(chunks)
  {
    hide TextShown;
    if chunks == [] {
      NothingShown();
    } else {
      var head, last := chunks[..|chunks| - 1], chunks[|chunks| - 1];
      TextIsShown(head);
      TextShownConcat(StreamEvents(head), ChunkEvents(last));
      ChunkShown(last);
    }
  }

  lemma {:induction false} NothingShown()
    ensures TextShown([]) == ""
  {
  }

  lemma {:induction false} ChunkShown(c: Chunk)
    ensures TextShown(ChunkEvents(c)) == c.delta
    ensures forall i :: 0 <= i < |ChunkEvents(c)| && ChunkEvents(c)[i].ReasoningDelta? ==> c.reasoning == Some(ChunkEvents(c)[i].text)
    ensures c.reasoning.Some? ==> ReasoningDelta(c.reasoning.value) in ChunkEvents(c)
  {
    var d := if c.delta != "" then [TextDelta(c.delta)] else [];
    var r := if c.reasoning.Some? then [ReasoningDelta(c.reasoning.value)] else [];
    assert ChunkEvents(c) == d + r;
    TextShownConcat(d, r);
    assert d[..0] == [] && TextShown(d) == c.delta;
    assert r[..0] == [] && TextShown(r) == "";
    assert c.reasoning.Some? ==> ChunkEvents(c)[|d|] == ReasoningDelta(c.reasoning.value);
  }

  /** A request and everything its stream shows. */
  function AttemptLog(ms: seq<Message>, a: Attempt): seq<Entry>
  {
    [Request(ms)] + StreamEvents(a.chunks)
  }

  /** What became of a turn's model calls. */
  datatype Streamed = Got(calls: seq<ToolCall>, text: string) | Stopped(exit: Exit, partial: string) | NoResult

  /** What a first request that was too long led to. */
  datatype Again = Untried | Unhelpful | GivenUp | Shortened(compacted: nat, ms: seq<Message>)

  /** A second request is tried exactly when the first was too long and showed nothing; it carries the compacted conversation. */
  ghost predicate AgainOk(ms: seq<Message>, input: Turn, z: Sizing, again: Again)
  {
    && (again.Untried? <==> !(input.first.end.Failed? && input.first.end.contextLength && !EmittedAny(input.first.chunks)))
    && (again.GivenUp? ==> input.retrySummary.SummaryCancelled?)
    && (again.Shortened? ==> input.retrySummary.SummaryText? && 1 < again.compacted + 1 < |ms|
                             && again.ms == CompactedAt(ms, again.compacted + 1, input.retrySummary.text))
    && (again.Unhelpful? && Paired(ms) && |ms| > 2 ==> CutWithin(ms, z, true, 0) || CutWithin(ms, z, true, 1))
  }

  function LastAttempt(input: Turn, again: Again): Attempt
  {
    if again.Shortened? then input.second else input.first
  }

  /** What the requests of a turn show. */
  function StreamLog(ms: seq<Message>, input: Turn, again: Again): seq<Entry>
  {
    AttemptLog(ms, input.first)
    + if again.Shortened? then [ContextCompacted(again.compacted)] + AttemptLog(again.ms, input.second) else []
  }

  /** What the last attempt came to: its calls and its text, or why it stopped. */
  function StreamedOf(input: Turn, again: Again): Streamed
  {
    var last := LastAttempt(input, again);
    if again.GivenUp? then Stopped(CancelledRun, "")
    else match last.end
      case Done(calls) => Got(calls, StreamText(last.chunks))
      case StreamCancelled => Stopped(CancelledRun, StreamText(last.chunks))
      case Failed(error, _) => Stopped(Interrupted(error), StreamText(last.chunks))
  }

  /** The attempt loop of one turn: one request, and one more after a forced compaction that helped. */
  method StreamTurn(turn: nat, ms: seq<Message>, input: Turn, z: Sizing)
    returns (s: Streamed, after: seq<Message>, log: seq<Entry>, requests: nat, again: Again)
    requires z.window < U32
    ensures s != NoResult && (s.Stopped? ==> s.exit.CancelledRun? || s.exit.Interrupted?)
    ensures 1 <= requests <= 2 && Run(Streaming(turn, 0), log) == Streaming(turn, requests)
    ensures Good(ms) ==> Good(after) && RequestsPaired(log)
    ensures AgainOk(ms, input, z, again) && requests == (if again.Shortened? then 2 else 1)
    ensures s == StreamedOf(input, again) && log == StreamLog(ms, input, again)
    ensures after == if again.Shortened? then again.ms else ms
  {
    hide Paired, Run, StreamText, StreamEvents, EmittedAny, CutWithin;
    s, after, log, requests, again := NoResult, ms, [], 0, Untried;
    var attempt := 0;
    assert Run(Streaming(turn, 0), log) == Streaming(turn, 0) by { RunNothing(Streaming(turn, 0)); }
    while attempt < 2
      invariant 0 <= attempt < 2 && requests == attempt && s == NoResult && Run(Streaming(turn, 0), log) == Streaming(turn, attempt)
      invariant attempt == 0 ==> after == ms && log == [] && again == Untried
      invariant attempt == 1 ==> again.Shortened? && again.ms == after && AgainOk(ms, input, z, again)
      invariant attempt == 1 ==> log == AttemptLog(ms, input.first) + [ContextCompacted(again.compacted)]
      invariant Good(ms) ==> Good(after) && RequestsPaired(log)
    {
      var a := if attempt == 0 then input.first else input.second;
      LogAttempt(turn, attempt, log, after, a.chunks);
      assert log + [Request(after)] + StreamEvents(a.chunks) == log + AttemptLog(after, a);
      log, requests := log + [Request(after)] + StreamEvents(a.chunks), requests + 1;
      match a.end
      case Done(calls) =>
        s := Got(calls, StreamText(a.chunks));
        return;
      case StreamCancelled =>
        s := Stopped(CancelledRun, StreamText(a.chunks));
        return;
      case Failed(error, contextLength) =>
        if attempt == 0 && contextLength && !EmittedAny(a.chunks) {
          var r, shorter, n := MaybeCompact(after, z, true, input.retrySummary);
          match r
          case Cancelled =>
            s, again := Stopped(CancelledRun, ""), GivenUp;
            return;
          case Skipped =>
            s, again := Stopped(Interrupted(error), StreamText(a.chunks)), Unhelpful;
            return;
          case Compacted =>
            RunOne(Streaming(turn, 0), log, ContextCompacted(n));
            after, log, again := shorter, log + [ContextCompacted(n)], Shortened(n, shorter);
        } else {
          s := Stopped(Interrupted(error), StreamText(a.chunks));
          return;
        }
      attempt := attempt + 1;
    }
  }

  lemma {:induction false} RunNothing(p: Phase)
    ensures Run(p, []) == p
  {
  }

  lemma {:induction false} LogAttempt(turn: nat, c: nat, log: seq<Entry>, ms: seq<Message>, chunks: seq<Chunk>)
    requires c < 2 && Run(Streaming(turn, 0), log) == Streaming(turn, c)
    ensures Run(Streaming(turn, 0), log + [Request(ms)] + StreamEvents(chunks)) == Streaming(turn, c + 1)
    ensures RequestsPaired(log) && Paired(ms) ==> RequestsPaired(log + [Request(ms)] + StreamEvents(chunks))
  {
    hide Paired, Run, StreamEvents;
    RunOne(Streaming(turn, 0), log, Request(ms));
    RunConcat(Streaming(turn, 0), log + [Request(ms)], StreamEvents(chunks));
    StreamStays(chunks, turn, c + 1);
  }

  // ---- Tools ----

  predicate Ascending(s: seq<nat>)
  {
    forall p, q :: 0 <= p < q < |s| ==> s[p] < s[q]
  }

  /** Every position is in exactly one of the two lists, by whether its tool may run in parallel. */
  ghost predicate SplitOk(calls: seq<ToolCall>, parallelOk: string -> bool, par: seq<nat>, others: seq<nat>)
  {
    && Ascending(par) && Ascending(others)
    && (forall p :: 0 <= p < |par| ==> par[p] < |calls| && parallelOk(calls[par[p]].name))
    && (forall p :: 0 <= p < |others| ==> others[p] < |calls| && !parallelOk(calls[others[p]].name))
    && |par| + |others| == |calls| && (forall i: nat :: i < |calls| ==> i in par || i in others)
  }

  /** Positions of the calls that may run in parallel, and of the others, each in call order. */
  method SplitCalls(calls: seq<ToolCall>, parallelOk: string -> bool) returns (par: seq<nat>, others: seq<nat>)
    ensures SplitOk(calls, parallelOk, par, others)
  {
    par, others := [], [];
    var i: nat := 0;
    while i < |calls|
      invariant i <= |calls| && Ascending(par) && Ascending(others)
      invariant forall p :: 0 <= p < |par| ==> par[p] < i && parallelOk(calls[par[p]].name)
      invariant forall p :: 0 <= p < |others| ==> others[p] < i && !parallelOk(calls[others[p]].name)
      invariant |par| + |others| == i && forall j: nat :: j < i ==> j in par || j in others
    {
      if parallelOk(calls[i].name) {
        par := par + [i];
      } else {
        others := others + [i];
      }
      i := i + 1;
    }
  }

  /** Results put back at the positions of the calls they belong to. */
  method Place(into: seq<Option<ToolResult>>, where: seq<nat>, what: seq<ToolResult>) returns (r: seq<Option<ToolResult>>)
    requires |where| == |what| && Ascending(where) && forall p :: 0 <= p < |where| ==> where[p] < |into|
    ensures |r| == |into| && forall p :: 0 <= p < |where| ==> r[where[p]] == Some(what[p])
    ensures forall i: nat :: i < |into| && i !in where ==> r[i] == into[i]
  {
    r := into;
    var p := 0;
    while p < |where|
      invariant 0 <= p <= |where| && |r| == |into|
      invariant forall q :: 0 <= q < p ==> r[where[q]] == Some(what[q])
      invariant forall i: nat :: i < |into| && i !in where[..p] ==> r[i] == into[i]
    {
      r := r[where[p] := Some(what[p])];
      assert where[..p + 1] == where[..p] + [where[p]];
      p := p + 1;
    }
    assert where[..p] == where;
  }

  /** Each call runs exactly once, parallel ones first and each group in call order. */
  ghost predicate RunOrder(calls: seq<ToolCall>, parallelOk: string -> bool, ran: seq<nat>)
  {
    && |ran| == |calls| && (forall p :: 0 <= p < |ran| ==> ran[p] < |calls|)
    && (forall i: nat :: i < |calls| ==> i in ran)
    && (forall p, q :: 0 <= p < q < |ran| ==> ran[p] != ran[q] && InOrder(calls, parallelOk, ran[p], ran[q]))
  }

  /** Every call gets the result of its own one execution. */
  ghost predicate RanOnce(calls: seq<ToolCall>, parallelOk: string -> bool, execute: (ToolCall, nat) -> ToolResult, ran: seq<nat>, results: seq<ToolResult>)
  {
    && RunOrder(calls, parallelOk, ran) && |results| == |calls|
    && forall p :: 0 <= p < |ran| ==> results[ran[p]] == execute(calls[ran[p]], p)
  }

  lemma {:induction false} SplitOrder(calls: seq<ToolCall>, parallelOk: string -> bool, par: seq<nat>, others: seq<nat>)
    requires SplitOk(calls, parallelOk, par, others)
    ensures RunOrder(calls, parallelOk, par + others)
  {
    var ran := par + others;
    forall i: nat | i < |calls| ensures i in ran {
      assert i in par || i in others;
    }
    forall p, q | 0 <= p < q < |ran| ensures ran[p] != ran[q] && InOrder(calls, parallelOk, ran[p], ran[q]) {
    }
  }

  lemma {:induction false} SplitDisjoint(calls: seq<ToolCall>, parallelOk: string -> bool, par: seq<nat>, others: seq<nat>, p: nat)
    requires SplitOk(calls, parallelOk, par, others) && p < |par|
    ensures par[p] !in others
  {
  }

  /** Call i runs before call j: same group and earlier, or only i may run in parallel. */
  predicate InOrder(calls: seq<ToolCall>, parallelOk: string -> bool, i: nat, j: nat)
    requires i < |calls| && j < |calls|
  {
    if parallelOk(calls[i].name) == parallelOk(calls[j].name) then i < j else parallelOk(calls[i].name)
  }

  /** The calls that may run in parallel run before the others, and within each of the two groups an earlier call runs first. */
  lemma {:induction false} ParallelFirst(calls: seq<ToolCall>, parallelOk: string -> bool, execute: (ToolCall, nat) -> ToolResult, ran: seq<nat>, results: seq<ToolResult>, p: nat, q: nat)
    requires RanOnce(calls, parallelOk, execute, ran, results) && p < q < |ran|
    ensures ran[p] < |calls| && ran[q] < |calls| && ran[p] != ran[q]
    ensures parallelOk(calls[ran[q]].name) ==> parallelOk(calls[ran[p]].name)
    ensures parallelOk(calls[ran[p]].name) == parallelOk(calls[ran[q]].name) ==> ran[p] < ran[q]
    ensures results[ran[p]] == execute(calls[ran[p]], p)
  {
    assert InOrder(calls, parallelOk, ran[p], ran[q]);
  }

  method ExecuteTools(calls: seq<ToolCall>, parallelOk: string -> bool, execute: (ToolCall, nat) -> ToolResult)
    returns (results: seq<ToolResult>, ran: seq<nat>)
    ensures RanOnce(calls, parallelOk, execute, ran, results)
  {
    var par, others := SplitCalls(calls, parallelOk);
    SplitOrder(calls, parallelOk, par, others);
    hide RunOrder, InOrder;
    var parResults := seq(|par|, p requires 0 <= p < |par| => execute(calls[par[p]], p));
    var otherResults: seq<ToolResult> := [];
    var k := 0;
    while k < |others|
      invariant 0 <= k <= |others| && |otherResults| == k
      invariant forall p :: 0 <= p < k ==> otherResults[p] == execute(calls[others[p]], |par| + p)
    {
      otherResults := otherResults + [execute(calls[others[k]], |par| + k)];
      k := k + 1;
    }
    var slots := seq(|calls|, _ => None);
    slots := Place(slots, par, parResults);
    forall p: nat | p < |par| ensures par[p] !in others {
      SplitDisjoint(calls, parallelOk, par, others, p);
    }
    slots := Place(slots, others, otherResults);
    ran := par + others;
    forall i: nat | i < |calls| ensures slots[i].Some? {
      assert i in par || i in others;
    }
    results := Unwrapped(slots);
  }

  /** The merged results: every slot has been filled. */
  function Unwrapped(slots: seq<Option<ToolResult>>): (r: seq<ToolResult>)
    requires forall i: nat :: i < |slots| ==> slots[i].Some?
    ensures |r| == |slots| && forall i: nat :: i < |slots| ==> slots[i] == Some(r[i])
  {
    seq(|slots|, i requires 0 <= i < |slots| => slots[i].value)
  }

  function CallIds(calls: seq<ToolCall>): seq<string>
  {
    seq(|calls|, i requires 0 <= i < |calls| => calls[i].id)
  }

  function Starts(calls: seq<ToolCall>): seq<Entry>
  {
    seq(|calls|, i requires 0 <= i < |calls| => ToolCallStart(calls[i].id))
  }

  function Ends(calls: seq<ToolCall>, results: seq<ToolResult>): seq<Entry>
    requires |results| == |calls|
  {
    seq(|calls|, i requires 0 <= i < |calls| => ToolCallEnd(calls[i].id, results[i].isError))
  }

  /** The messages that carry the results back to the model. */
  function ResultMessages(calls: seq<ToolCall>, results: seq<ToolResult>, followUp: (string, string) -> string): (r: seq<Message>)
    requires |results| == |calls|
    ensures AnswersOf(r, calls) && forall i :: 0 <= i < |calls| ==> r[i].content == followUp(calls[i].name, results[i].content)
  {
    seq(|calls|, i requires 0 <= i < |calls| => Message(Tool, followUp(calls[i].name, results[i].content), Some(calls[i].id), []))
  }

  lemma {:induction false} StartsRun(n: nat, calls: seq<ToolCall>, k: nat)
    requires n > 0 && k <= |calls|
    ensures Run(Between(n, [], 0), Starts(calls)[..k]) == Between(n, CallIds(calls)[..k], 0)
  {
    if k > 0 {
      StartsRun(n, calls, k - 1);
      assert Starts(calls)[..k] == Starts(calls)[..k - 1] + [ToolCallStart(calls[k - 1].id)];
      RunOne(Between(n, [], 0), Starts(calls)[..k - 1], ToolCallStart(calls[k - 1].id));
      assert CallIds(calls)[..k] == CallIds(calls)[..k - 1] + [calls[k - 1].id];
    }
  }

  lemma {:induction false} EndsRun(n: nat, calls: seq<ToolCall>, results: seq<ToolResult>, k: nat)
    requires k <= |calls| && |results| == |calls|
    ensures Run(Between(n, CallIds(calls), 0), Ends(calls, results)[..k]) == Between(n, CallIds(calls), k)
  {
    if k > 0 {
      EndsRun(n, calls, results, k - 1);
      var e := ToolCallEnd(calls[k - 1].id, results[k - 1].isError);
      assert Ends(calls, results)[..k] == Ends(calls, results)[..k - 1] + [e];
      RunOne(Between(n, CallIds(calls), 0), Ends(calls, results)[..k - 1], e);
    }
  }

  /** Every call is announced and then answered, in the same order. */
  lemma {:induction false} ToolsRun(n: nat, calls: seq<ToolCall>, results: seq<ToolResult>)
    requires n > 0 && |results| == |calls|
    ensures Run(Between(n, [], 0), Starts(calls) + Ends(calls, results)) == Between(n, CallIds(calls), |calls|)
  {
    hide Run;
    StartsRun(n, calls, |calls|);
    EndsRun(n, calls, results, |calls|);
    assert Starts(calls)[..|calls|] == Starts(calls) && CallIds(calls)[..|calls|] == CallIds(calls);
    assert Ends(calls, results)[..|calls|] == Ends(calls, results);
    RunConcat(Between(n, [], 0), Starts(calls), Ends(calls, results));
  }

  // ---- One turn ----

  /** Between turns with every announced tool call answered. */
  predicate Settled(p: Phase, turn: nat)
  {
    p.Between? && p.turn == turn && p.finished == |p.started|
  }

  /** Where the closing note and AgentEnd may follow. */
  predicate Leavable(p: Phase)
  {
    p.Streaming? || (p.Between? && p.finished == |p.started|)
  }

  datatype Step = Onward | Leave(exit: Exit, text: string) | Failure(error: string)

  function AssistantMessage(text: string, calls: seq<ToolCall>): Message
  {
    Message(Assistant, text, None, calls)
  }

  const UNABLE := "Unable to produce a contract-compliant final answer: "
  const WARNING := "\n\nTask contract warning: "

  /** append_contract_failure_note, given whether the text is blank. */
  function FailureNote(text: string, reason: string, blank: bool): string
  {
    if blank then UNABLE + reason else text + WARNING + reason
  }

  /** The note keeps the text it is about, if there is any, and ends with the reason. */
  lemma {:induction false} FailureNoteKeeps(text: string, reason: string, blank: bool)
    ensures var note := FailureNote(text, reason, blank);
            (!blank ==> text <= note) && |reason| <= |note| && note[|note| - |reason|..] == reason
  {
  }

  /** A completed run ends with an answer that meets the contract, or with a note that it does not after every repair was tried. */
  ghost predicate Answered(setup: Setup, text: string, repairs: nat)
  {
    || setup.validate(text) == None
    || (repairs == MAX_CONTRACT_REPAIR_ATTEMPTS
        && exists answer :: setup.validate(answer).Some? && text == FailureNote(answer, setup.validate(answer).value, setup.isBlank(answer)))
  }

  /** An answer without tool calls: accepted, sent back for repair, or given up on. */
  method Judge(text: string, conv: seq<Message>, repairs: nat, setup: Setup)
    returns (step: Step, after: seq<Message>, repairs': nat, log: seq<Entry>)
    requires repairs <= MAX_CONTRACT_REPAIR_ATTEMPTS
    ensures repairs <= repairs' <= MAX_CONTRACT_REPAIR_ATTEMPTS
    ensures step.Onward? || (step.Leave? && step.exit == Completed && Answered(setup, step.text, repairs'))
    ensures step.Onward? <==> setup.validate(text).Some? && repairs < MAX_CONTRACT_REPAIR_ATTEMPTS
    ensures step.Leave? ==> repairs' == repairs
    ensures step.Onward? ==> repairs' == repairs + 1 && log == [] && after == conv + [Message(User, setup.repairPrompt(setup.validate(text).value), None, [])]
    ensures setup.validate(text).None? ==> step.text == text && log == []
    ensures step.Leave? && setup.validate(text).Some? ==> step.text == FailureNote(text, setup.validate(text).value, setup.isBlank(text)) && log == [TextDelta(step.text)]
    ensures Good(conv) && step.Onward? ==> Good(after)
  {
    hide Paired;
    match setup.validate(text)
    case None =>
      step, after, repairs', log := Leave(Completed, text), conv, repairs, [];
    case Some(reason) =>
      if repairs < MAX_CONTRACT_REPAIR_ATTEMPTS {
        var prompt := Message(User, setup.repairPrompt(reason), None, []);
        step, after, repairs', log := Onward, conv + [prompt], repairs + 1, [];
        if Good(conv) {
          PlainPaired(conv, prompt);
        }
      } else {
        var note := FailureNote(text, reason, setup.isBlank(text));
        step, after, repairs', log := Leave(Completed, note), conv, repairs, [TextDelta(note)];
      }
  }

  /** The end of a turn that asked for tools: they run, and their results go into the conversation. */
  method UseTools(conv: seq<Message>, calls: seq<ToolCall>, text: string, setup: Setup, input: Turn)
    returns (after: seq<Message>, log: seq<Entry>, ran: seq<nat>, results: seq<ToolResult>)
    ensures RanOnce(calls, setup.parallelOk, input.execute, ran, results)
    ensures log == Starts(calls) + Ends(calls, results)
    ensures after == conv + [AssistantMessage(text, calls)] + ResultMessages(calls, results, setup.followUp)
    ensures Good(conv) ==> Good(after)
  {
    hide Paired, RanOnce;
    results, ran := ExecuteTools(calls, setup.parallelOk, input.execute);
    assert |results| == |calls| by { OnePerCall(calls, setup.parallelOk, input.execute, ran, results); }
    log := Starts(calls) + Ends(calls, results);
    after := conv + [AssistantMessage(text, calls)] + ResultMessages(calls, results, setup.followUp);
    if Good(conv) {
      TurnPaired(conv, AssistantMessage(text, calls), ResultMessages(calls, results, setup.followUp));
    }
  }

  lemma {:induction false} OnePerCall(calls: seq<ToolCall>, parallelOk: string -> bool, execute: (ToolCall, nat) -> ToolResult, ran: seq<nat>, results: seq<ToolResult>)
    requires RanOnce(calls, parallelOk, execute, ran, results)
    ensures |results| == |calls|
  {
  }

  lemma {:induction false} TurnOpens(p: Phase, turn: nat, compacted: Option<nat>)
    requires Settled(p, turn) && turn < MAX_AGENT_TURNS
    ensures Run(p, Opening(turn, compacted)) == Streaming(turn, 0) && NoRequests(Opening(turn, compacted))
  {
    var note := if compacted.Some? then [ContextCompacted(compacted.value)] else [];
    assert Run(p, note) == p by {
      if compacted.Some? {
        RunOne(p, [], note[0]);
        assert [] + [note[0]] == note;
      }
    }
    RunOne(p, note, TurnStart(turn));
  }

  /** The entries before the first request of a turn. */
  function Opening(turn: nat, compacted: Option<nat>): seq<Entry>
  {
    (if compacted.Some? then [ContextCompacted(compacted.value)] else []) + [TurnStart(turn)]
  }

  /** The turn's log up to the end of its stream. */
  lemma {:induction false} TurnStreams(p: Phase, turn: nat, compacted: Option<nat>, stream: seq<Entry>, requests: nat)
    requires Settled(p, turn) && turn < MAX_AGENT_TURNS && Run(Streaming(turn, 0), stream) == Streaming(turn, requests) && requests > 0
    ensures Run(p, Opening(turn, compacted) + stream) == Streaming(turn, requests)
    ensures Run(p, Opening(turn, compacted) + stream + [TurnEnd(turn)]) == Between(turn + 1, [], 0)
    ensures RequestsPaired(stream) ==> RequestsPaired(Opening(turn, compacted) + stream + [TurnEnd(turn)])
  {
    hide Run, Paired;
    TurnOpens(p, turn, compacted);
    RunConcat(p, Opening(turn, compacted), stream);
    RunOne(p, Opening(turn, compacted) + stream, TurnEnd(turn));
  }

  /** What one turn came to: nothing sent, or the requests it made and the tools it ran. */
  datatype Turned = Silent | Spoke(noted: Option<nat>, first: seq<Message>, again: Again, ran: seq<nat>, results: seq<ToolResult>)

  /** Where the loop stands before a turn. */
  datatype LoopState = LoopState(conv: seq<Message>, repairs: nat)

  predicate RunsTools(input: Turn, again: Again)
  {
    StreamedOf(input, again).Got? && StreamedOf(input, again).calls != [] && !input.cancelAfter
  }

  /** The first request carries the conversation at hand, compacted only when it was over budget, and every call runs once. */
  ghost predicate TurnOk(setup: Setup, input: Turn, conv: seq<Message>, t: Turned)
  {
    var z := setup.sizing;
    match t
    case Silent => input.cancelBefore || (input.summary.SummaryCancelled? && z.estimate(conv) > Budget(z))
    case Spoke(noted, first, again, ran, results) =>
      && !input.cancelBefore && AgainOk(first, input, z, again)
      && (noted.None? ==> first == conv)
      && (noted.None? && Paired(conv) && |conv| > 2 && z.estimate(conv) > Budget(z) ==> CutWithin(conv, z, false, 0) || CutWithin(conv, z, false, 1))
      && (noted.Some? ==> z.estimate(conv) > Budget(z) && input.summary.SummaryText? && 1 < noted.value + 1 < |conv|
                          && first == CompactedAt(conv, noted.value + 1, input.summary.text))
      && (RunsTools(input, again) ==> RanOnce(StreamedOf(input, again).calls, setup.parallelOk, input.execute, ran, results))
      && (!RunsTools(input, again) ==> results == [])
  }

  /** The conversation of the turn's last request. */
  function SentLast(t: Turned): seq<Message>
    requires t.Spoke?
  {
    if t.again.Shortened? then t.again.ms else t.first
  }

  function AnswerStep(setup: Setup, text: string, repairs: nat): Step
  {
    match setup.validate(text)
    case None => Leave(Completed, text)
    case Some(reason) => if repairs < MAX_CONTRACT_REPAIR_ATTEMPTS then Onward else Leave(Completed, FailureNote(text, reason, setup.isBlank(text)))
  }

  /** Whether the loop goes on, and if not, with what and the text of the last attempt. */
  function StepOf(setup: Setup, input: Turn, repairs: nat, t: Turned): Step
  {
    match t
    case Silent => Leave(CancelledRun, "")
    case Spoke(_, _, again, _, _) =>
      match StreamedOf(input, again)
      case Got(calls, text) =>
        if calls == [] then AnswerStep(setup, text, repairs) else if input.cancelAfter then Leave(CancelledRun, text) else Onward
      case Stopped(exit, partial) => Leave(exit, partial)
      case NoResult => Failure("")
  }

  /** What the model has answered, and what it is told in return: a repair prompt, or its calls' results in call order. */
  function Told(setup: Setup, input: Turn, t: Turned): seq<Message>
  {
    if t.Silent? || !StreamedOf(input, t.again).Got? then []
    else
      var Got(calls, text) := StreamedOf(input, t.again);
      if calls == [] then
        [AssistantMessage(text, []), Message(User, setup.repairPrompt(UnwrapReason(setup.validate(text))), None, [])]
      else if |t.results| == |calls| then [AssistantMessage(text, calls)] + ResultMessages(calls, t.results, setup.followUp)
      else []
  }

  function UnwrapReason(reason: Option<string>): string
  {
    if reason.Some? then reason.value else ""
  }

  /** The state before the next turn: what was last sent, the answer, and what the model is told. */
  function NextState(setup: Setup, input: Turn, st: LoopState, t: Turned): LoopState
    requires t.Spoke?
  {
    LoopState(SentLast(t) + Told(setup, input, t), st.repairs + if RunsTools(input, t.again) then 0 else 1)
  }

  function FinishLog(setup: Setup, input: Turn, repairs: nat, t: Turned): seq<Entry>
    requires t.Spoke?
  {
    match StreamedOf(input, t.again)
    case Got(calls, text) =>
      if calls == [] then
        if setup.validate(text).Some? && AnswerStep(setup, text, repairs).Leave? then [TextDelta(AnswerStep(setup, text, repairs).text)] else []
      else if input.cancelAfter || |t.results| != |calls| then []
      else Starts(calls) + Ends(calls, t.results)
    case _ => []
  }

  /** Everything a turn shows, in order. */
  function TurnLog(turn: nat, setup: Setup, input: Turn, repairs: nat, t: Turned): seq<Entry>
  {
    if t.Silent? then []
    else Opening(turn, t.noted) + StreamLog(t.first, input, t.again)
         + if StreamedOf(input, t.again).Got? then [TurnEnd(turn)] + FinishLog(setup, input, repairs, t) else []
  }

  /** One iteration of the turn loop: what it sends, shows, returns and carries on. */
  method OneTurn(turn: nat, conv: seq<Message>, repairs: nat, setup: Setup, input: Turn, ghost p: Phase)
    returns (step: Step, after: seq<Message>, repairs': nat, log: seq<Entry>, t: Turned)
    requires setup.sizing.window < U32 && turn < MAX_AGENT_TURNS && repairs <= MAX_CONTRACT_REPAIR_ATTEMPTS && Settled(p, turn)
    ensures !step.Failure? && repairs <= repairs' <= MAX_CONTRACT_REPAIR_ATTEMPTS
    ensures step.Onward? ==> Settled(Run(p, log), turn + 1)
    ensures step.Leave? ==> Leavable(Run(p, log)) && !step.exit.Exhausted?
    ensures step.Leave? && step.exit.Completed? ==> Answered(setup, step.text, repairs')
    ensures Good(conv) ==> RequestsPaired(log) && (step.Onward? ==> Good(after))
    ensures TurnOk(setup, input, conv, t) && step == StepOf(setup, input, repairs, t) && log == TurnLog(turn, setup, input, repairs, t)
    ensures step.Onward? ==> t.Spoke? && LoopState(after, repairs') == NextState(setup, input, LoopState(conv, repairs), t)
    ensures step.Leave? ==> repairs' == repairs
  {
    hide Run, Paired, Answered, RanOnce, CutWithin, Budget, StreamText, StreamEvents, EmittedAny;
    hide TurnOk, StepOf, NextState, TurnLog, AgainOk, StreamLog, StreamedOf, Settled, Leavable, Starts, Ends, FirstOk, Opening, AnswerStep, RequestsPaired, Good, ResultMessages, NoRequests;
    RunNothing(p);
    PhaseFacts(p, turn);
    SilentTurn(turn, setup, input, conv, repairs);
    NothingSent();
    after, repairs', log, t := conv, repairs, [], Silent;
    var stop, compacted, conv1 := BeginTurn(conv, setup, input);
    if stop {
      return Leave(CancelledRun, ""), conv, repairs, [], Silent;
    }
    var s, conv2, stream, requests, again := StreamTurn(turn, conv1, input, setup.sizing);
    TurnStreams(p, turn, compacted, stream, requests);
    PhaseFacts(Streaming(turn, requests), turn);
    log, t := Opening(turn, compacted) + stream, Spoke(compacted, conv1, again, [], []);
    DropLast(log, TurnEnd(turn));
    if s.Stopped? {
      StoppedTurn(turn, setup, input, conv, repairs, t);
      return Leave(s.exit, s.partial), conv2, repairs, log, t;
    }
    if s.NoResult? {
      step := Failure("LLM request failed after context compaction retry");
    } else {
      log := log + [TurnEnd(turn)];
      var tail, ran, results;
      step, after, repairs', tail, ran, results := FinishTurn(turn, conv2, s.calls, s.text, repairs, setup, input);
      RunConcat(p, log, tail);
      PhaseFacts(Run(p, log + tail), turn + 1);
      t := Spoke(compacted, conv1, again, ran, results);
      FinishedTurn(turn, setup, input, conv, repairs, t, step, tail);
      AddTail(log, tail);
      TurnShows(turn, setup, input, repairs, t, stream, tail);
      log := log + tail;
    }
  }

  lemma {:induction false} PhaseFacts(p: Phase, turn: nat)
    ensures Settled(p, turn) || p.Streaming? ==> Leavable(p)
    ensures Settled(Between(turn, [], 0), turn)
  {
  }

  /** The part of TurnOk that the first request settles. */
  ghost predicate FirstOk(setup: Setup, input: Turn, conv: seq<Message>, noted: Option<nat>, first: seq<Message>)
  {
    var z := setup.sizing;
    && !input.cancelBefore
    && (noted.None? ==> first == conv)
    && (noted.None? && Paired(conv) && |conv| > 2 && z.estimate(conv) > Budget(z) ==> CutWithin(conv, z, false, 0) || CutWithin(conv, z, false, 1))
    && (noted.Some? ==> z.estimate(conv) > Budget(z) && input.summary.SummaryText? && 1 < noted.value + 1 < |conv|
                        && first == CompactedAt(conv, noted.value + 1, input.summary.text))
  }

  lemma {:induction false} SilentTurn(turn: nat, setup: Setup, input: Turn, conv: seq<Message>, repairs: nat)
    ensures input.cancelBefore || (input.summary.SummaryCancelled? && setup.sizing.estimate(conv) > Budget(setup.sizing)) ==> TurnOk(setup, input, conv, Silent)
    ensures StepOf(setup, input, repairs, Silent) == Leave(CancelledRun, "") && TurnLog(turn, setup, input, repairs, Silent) == []
  {
    hide Budget;
  }

  lemma {:induction false} StoppedTurn(turn: nat, setup: Setup, input: Turn, conv: seq<Message>, repairs: nat, t: Turned)
    requires t.Spoke? && FirstOk(setup, input, conv, t.noted, t.first) && AgainOk(t.first, input, setup.sizing, t.again) && t.results == []
    requires StreamedOf(input, t.again).Stopped?
    ensures TurnOk(setup, input, conv, t)
    ensures StepOf(setup, input, repairs, t) == Leave(StreamedOf(input, t.again).exit, StreamedOf(input, t.again).partial)
    ensures TurnLog(turn, setup, input, repairs, t) == Opening(turn, t.noted) + StreamLog(t.first, input, t.again)
  {
    hide AgainOk, StreamedOf, StreamLog, Opening, CutWithin, Budget;
    var log := Opening(turn, t.noted) + StreamLog(t.first, input, t.again);
    assert log + [] == log;
  }

  /** A turn whose stream ended well: what follows is settled by its calls and text. */
  lemma {:induction false} FinishedTurn(turn: nat, setup: Setup, input: Turn, conv: seq<Message>, repairs: nat, t: Turned, step: Step, tail: seq<Entry>)
    requires t.Spoke? && FirstOk(setup, input, conv, t.noted, t.first) && AgainOk(t.first, input, setup.sizing, t.again)
    requires StreamedOf(input, t.again).Got?
    requires var Got(calls, text) := StreamedOf(input, t.again);
             && (calls == [] ==> step == AnswerStep(setup, text, repairs) && t.results == []
                                 && tail == if step.Leave? && setup.validate(text).Some? then [TextDelta(step.text)] else [])
             && (calls != [] && input.cancelAfter ==> step == Leave(CancelledRun, text) && tail == [] && t.results == [])
             && (calls != [] && !input.cancelAfter ==>
                   step == Onward && RanOnce(calls, setup.parallelOk, input.execute, t.ran, t.results) && |t.results| == |calls|
                   && tail == Starts(calls) + Ends(calls, t.results))
    ensures TurnOk(setup, input, conv, t) && step == StepOf(setup, input, repairs, t) && tail == FinishLog(setup, input, repairs, t)
    ensures step.Onward? ==>
              var Got(calls, text) := StreamedOf(input, t.again);
              var told := if calls == [] then [AssistantMessage(text, []), Message(User, setup.repairPrompt(UnwrapReason(setup.validate(text))), None, [])]
                          else [AssistantMessage(text, calls)] + ResultMessages(calls, t.results, setup.followUp);
              NextState(setup, input, LoopState(conv, repairs), t) == LoopState(SentLast(t) + told, repairs + if calls == [] then 1 else 0)
    ensures step.Onward? && StreamedOf(input, t.again).calls == [] ==> setup.validate(StreamedOf(input, t.again).text).Some?
  {
    hide AgainOk, StreamedOf, RanOnce, CutWithin, Budget, Starts, Ends;
  }

  lemma {:induction false} TurnShows(turn: nat, setup: Setup, input: Turn, repairs: nat, t: Turned, stream: seq<Entry>, tail: seq<Entry>)
    requires t.Spoke? && StreamedOf(input, t.again).Got? && stream == StreamLog(t.first, input, t.again) && tail == FinishLog(setup, input, repairs, t)
    ensures TurnLog(turn, setup, input, repairs, t) == Opening(turn, t.noted) + stream + [TurnEnd(turn)] + tail
  {
    hide StreamLog, FinishLog, StreamedOf, Opening;
  }

  lemma {:induction false} NothingSent()
    ensures RequestsPaired([])
  {
  }

  lemma {:induction false} AddTail(log: seq<Entry>, tail: seq<Entry>)
    ensures RequestsPaired(log) && NoRequests(tail) ==> RequestsPaired(log + tail)
  {
    hide Paired;
  }

  /** The check for cancellation and the compaction before a turn. */
  method BeginTurn(conv: seq<Message>, setup: Setup, input: Turn) returns (stop: bool, noted: Option<nat>, first: seq<Message>)
    requires setup.sizing.window < U32
    ensures stop ==> TurnOk(setup, input, conv, Silent)
    ensures !stop ==> FirstOk(setup, input, conv, noted, first) && (Good(conv) ==> Good(first))
  {
    hide Paired, CutWithin, Budget;
    if input.cancelBefore {
      return true, None, conv;
    }
    var r, after, n := MaybeCompact(conv, setup.sizing, false, input.summary);
    return r.Cancelled?, if r.Compacted? then Some(n) else None, after;
  }

  lemma {:induction false} DropLast(log: seq<Entry>, e: Entry)
    ensures RequestsPaired(log + [e]) ==> RequestsPaired(log)
  {
    hide Paired;
    if RequestsPaired(log + [e]) {
      forall i | 0 <= i < |log| && log[i].Request? ensures Paired(log[i].conversation) {
        assert (log + [e])[i] == log[i];
      }
    }
  }

  /** What follows a successful stream: an answer to judge, a late cancellation, or tools to run. */
  method FinishTurn(turn: nat, conv: seq<Message>, calls: seq<ToolCall>, text: string, repairs: nat, setup: Setup, input: Turn)
    returns (step: Step, after: seq<Message>, repairs': nat, log: seq<Entry>, ran: seq<nat>, results: seq<ToolResult>)
    requires repairs <= MAX_CONTRACT_REPAIR_ATTEMPTS
    ensures !step.Failure? && repairs <= repairs' <= MAX_CONTRACT_REPAIR_ATTEMPTS && NoRequests(log)
    ensures calls == [] ==> step == AnswerStep(setup, text, repairs) && results == []
    ensures calls == [] ==> log == if step.Leave? && setup.validate(text).Some? then [TextDelta(step.text)] else []
    ensures calls == [] && step.Onward? ==>
              after == conv + [AssistantMessage(text, []), Message(User, setup.repairPrompt(setup.validate(text).value), None, [])] && repairs' == repairs + 1
    ensures calls != [] && input.cancelAfter ==> step == Leave(CancelledRun, text) && log == [] && results == []
    ensures calls != [] && !input.cancelAfter ==>
              && step == Onward && repairs' == repairs && RanOnce(calls, setup.parallelOk, input.execute, ran, results) && |results| == |calls|
              && log == Starts(calls) + Ends(calls, results)
              && after == conv + ([AssistantMessage(text, calls)] + ResultMessages(calls, results, setup.followUp))
    ensures step.Leave? ==> repairs' == repairs
    ensures Settled(Run(Between(turn + 1, [], 0), log), turn + 1)
    ensures step.Leave? ==> !step.exit.Exhausted? && !step.exit.Interrupted?
    ensures step.Leave? && step.exit.Completed? ==> calls == [] && Answered(setup, step.text, repairs')
    ensures Good(conv) && step.Onward? ==> Good(after)
  {
    hide Run, Paired, Answered, RanOnce;
    var p := Between(turn + 1, [], 0);
    RunNothing(p);
    ran, results := [], [];
    if calls == [] {
      var told := conv + [AssistantMessage(text, [])];
      if Good(conv) {
        PlainPaired(conv, AssistantMessage(text, []));
      }
      step, after, repairs', log := Judge(text, told, repairs, setup);
      if log != [] {
        RunOne(p, [], log[0]);
        assert [] + [log[0]] == log;
      }
    } else if input.cancelAfter {
      step, after, repairs', log := Leave(CancelledRun, text), conv, repairs, [];
    } else {
      after, log, ran, results := UseTools(conv, calls, text, setup, input);
      OnePerCall(calls, setup.parallelOk, input.execute, ran, results);
      ToolsRun(turn + 1, calls, results);
      step, repairs' := Onward, repairs;
    }
  }

  // ---- The whole run ----

  const CANCELLED_EMPTY := "Agent run was cancelled before producing output."
  const CANCELLED_PARTIAL := "\n\nAgent run was cancelled. Partial output above was preserved."
  const STOPPED_EMPTY := "Agent stream stopped before completion: "
  const PRESERVED := ". Partial output above was preserved."
  const LIMIT_EMPTY := "Agent reached the 30-turn safety limit before producing output. Send Continue to let the agent keep working."
  const LIMIT_PARTIAL := "\n\nAgent reached the 30-turn safety limit before a final answer. The partial output above was preserved; send Continue to let the agent keep working."

  function ClosingNote(exit: Exit, blank: bool): string
    requires !exit.Completed?
  {
    match exit
    case CancelledRun => if blank then CANCELLED_EMPTY else CANCELLED_PARTIAL
    case Interrupted(error) => if blank then STOPPED_EMPTY + error + "." else "\n\n" + STOPPED_EMPTY + error + PRESERVED
    case Exhausted => if blank then LIMIT_EMPTY else LIMIT_PARTIAL
  }

  /** What a run shows before its last entries. */
  function RunLog(setup: Setup, turns: nat -> Turn, states: seq<LoopState>, turned: seq<Turned>): seq<Entry>
    requires |turned| <= |states|
  {
    if turned == [] then []
    else
      var k := |turned| - 1;
      RunLog(setup, turns, states, turned[..k]) + TurnLog(k, setup, turns(k), states[k].repairs, turned[k])
  }

  /** Turn k goes on to the next one with exactly what it carries over. */
  ghost predicate GoesOn(setup: Setup, turns: nat -> Turn, states: seq<LoopState>, turned: seq<Turned>, k: nat)
    requires k + 1 < |states| && k < |turned|
  {
    && TurnOk(setup, turns(k), states[k].conv, turned[k]) && StepOf(setup, turns(k), states[k].repairs, turned[k]) == Onward
    && turned[k].Spoke? && states[k + 1] == NextState(setup, turns(k), states[k], turned[k])
  }

  /** A run turn by turn: from the given conversation, each turn taking up what the one before left, to the turn that ends it. */
  ghost predicate Unfolds(setup: Setup, turns: nat -> Turn, messages: seq<Message>, states: seq<LoopState>, turned: seq<Turned>, exit: Exit, partial: string)
  {
    && states != [] && states[0] == LoopState(messages, 0) && |states| <= MAX_AGENT_TURNS + 1
    && |turned| == (if exit.Exhausted? then |states| - 1 else |states|)
    && (forall k: nat :: k + 1 < |states| ==> GoesOn(setup, turns, states, turned, k))
    && (if exit.Exhausted? then |turned| == MAX_AGENT_TURNS && partial == ""
        else var k := |turned| - 1;
             k < MAX_AGENT_TURNS && TurnOk(setup, turns(k), states[k].conv, turned[k])
             && StepOf(setup, turns(k), states[k].repairs, turned[k]) == Leave(exit, partial))
  }

  /**
   run_agent_loop on the tool-calling path. Every run ends Ok; its log follows the protocol from the first
   turn to one final AgentEnd; repairs are bounded; and from a conversation whose first message makes no
   tool calls every request is paired.
   */
  method RunAgentLoop(messages: seq<Message>, setup: Setup, turns: nat -> Turn)
    returns (r: Result<string, string>, exit: Exit, repairs: nat, log: seq<Entry>, states: seq<LoopState>, turned: seq<Turned>, partial: string)
    requires setup.sizing.window < U32
    ensures r == Ok(FinalText(setup, exit, partial))
    ensures Unfolds(setup, turns, messages, states, turned, exit, partial)
    ensures exit.Exhausted? ==> |turned| == 30
    ensures log == RunLog(setup, turns, states, turned) + Ending(setup, exit, partial)
    ensures Run(Between(0, [], 0), log) == Ended
    ensures repairs <= MAX_CONTRACT_REPAIR_ATTEMPTS
    ensures exit.Completed? ==> Answered(setup, r.value, repairs)
    ensures !exit.Completed? ==> Closes(setup, exit, partial, r.value, log)
    ensures Good(messages) ==> RequestsPaired(log)
  {
    hide Run, Paired, Answered, Closes, Ending, FinalText, Settled, Leavable, Underway, TurnOk, StepOf, TurnLog, NextState, Unfolds, RunLog;
    var conv, failed, error := messages, false, "";
    exit, repairs, log, states, turned, partial := Exhausted, 0, [], [LoopState(messages, 0)], [], "";
    var turn: nat := 0;
    RunNothing(Between(0, [], 0));
    PhaseFacts(Between(0, [], 0), 0);
    UnderwayStart(setup, turns, messages);
    while turn < MAX_AGENT_TURNS
      invariant turn <= MAX_AGENT_TURNS && repairs <= MAX_CONTRACT_REPAIR_ATTEMPTS && !failed && exit == Exhausted && partial == ""
      invariant Settled(Run(Between(0, [], 0), log), turn)
      invariant Good(messages) ==> Good(conv) && RequestsPaired(log)
      invariant |states| == turn + 1 && |turned| == turn && states[turn] == LoopState(conv, repairs)
      invariant Underway(setup, turns, messages, states, turned, log)
    {
      ghost var p := Run(Between(0, [], 0), log);
      var step, conv', repairs', more, t := OneTurn(turn, conv, repairs, setup, turns(turn), p);
      RunConcat(Between(0, [], 0), log, more);
      UnderwayOn(setup, turns, messages, states, turned, log, t, LoopState(conv', repairs'), step, more);
      conv, repairs, log, turned := conv', repairs', log + more, turned + [t];
      match step
      case Onward => turn, states := turn + 1, states + [LoopState(conv', repairs')];
      case Leave(e, text) =>
        exit, partial := e, text;
        break;
      case Failure(why) =>
        failed, error := true, why;
        break;
    }
    if exit.Exhausted? {
      UnderwayEnds(setup, turns, messages, states, turned, log);
    }
    PhaseFacts(Run(Between(0, [], 0), log), turn);
    EndingRun(setup, exit, partial, Run(Between(0, [], 0), log));
    RunConcat(Between(0, [], 0), log, Ending(setup, exit, partial));
    EndingCloses(setup, exit, partial, log);
    CompletedText(setup, exit, partial);
    r := if failed then Err(error) else Ok(FinalText(setup, exit, partial));
    log := log + (if failed then [] else Ending(setup, exit, partial));
  }

  /** The run up to the turn about to begin. */
  ghost predicate Underway(setup: Setup, turns: nat -> Turn, messages: seq<Message>, states: seq<LoopState>, turned: seq<Turned>, log: seq<Entry>)
  {
    && |states| == |turned| + 1 && states[0] == LoopState(messages, 0) && log == RunLog(setup, turns, states, turned)
    && forall k: nat :: k + 1 < |states| ==> GoesOn(setup, turns, states, turned, k)
  }

  lemma {:induction false} UnderwayStart(setup: Setup, turns: nat -> Turn, messages: seq<Message>)
    ensures Underway(setup, turns, messages, [LoopState(messages, 0)], [], [])
  {
  }

  lemma {:induction false} UnderwayEnds(setup: Setup, turns: nat -> Turn, messages: seq<Message>, states: seq<LoopState>, turned: seq<Turned>, log: seq<Entry>)
    requires Underway(setup, turns, messages, states, turned, log) && |turned| == MAX_AGENT_TURNS
    ensures Unfolds(setup, turns, messages, states, turned, Exhausted, "") && log == RunLog(setup, turns, states, turned)
  {
    hide GoesOn, RunLog;
  }

  lemma {:induction false} UnderwayOn(setup: Setup, turns: nat -> Turn, messages: seq<Message>, states: seq<LoopState>, turned: seq<Turned>, log: seq<Entry>,
                                      t: Turned, next: LoopState, step: Step, more: seq<Entry>)
    requires Underway(setup, turns, messages, states, turned, log) && |turned| < MAX_AGENT_TURNS
    requires var k := |turned|;
             && TurnOk(setup, turns(k), states[k].conv, t) && StepOf(setup, turns(k), states[k].repairs, t) == step
             && more == TurnLog(k, setup, turns(k), states[k].repairs, t)
             && (step.Onward? ==> t.Spoke? && next == NextState(setup, turns(k), states[k], t))
    ensures step.Onward? ==> Underway(setup, turns, messages, states + [next], turned + [t], log + more)
    ensures step.Leave? && !step.exit.Exhausted? ==>
              Unfolds(setup, turns, messages, states, turned + [t], step.exit, step.text) && log + more == RunLog(setup, turns, states, turned + [t])
  {
    hide TurnOk, StepOf, TurnLog, NextState, RunLog, GoesOn;
    TurnAdded(setup, turns, states, turned, t, next, step);
  }

  lemma {:induction false} CompletedText(setup: Setup, exit: Exit, partial: string)
    ensures exit.Completed? ==> FinalText(setup, exit, partial) == partial
  {
  }

  lemma {:induction false} RunLogStates(setup: Setup, turns: nat -> Turn, states: seq<LoopState>, turned: seq<Turned>, more: LoopState)
    requires |turned| <= |states|
    ensures RunLog(setup, turns, states + [more], turned) == RunLog(setup, turns, states, turned)
  {
    hide TurnLog;
    if turned != [] {
      RunLogStates(setup, turns, states, turned[..|turned| - 1], more);
    }
  }

  lemma {:induction false} TurnAdded(setup: Setup, turns: nat -> Turn, states: seq<LoopState>, turned: seq<Turned>, t: Turned, next: LoopState, step: Step)
    requires |states| == |turned| + 1 && forall k: nat :: k + 1 < |states| ==> GoesOn(setup, turns, states, turned, k)
    requires var k := |turned|;
             && TurnOk(setup, turns(k), states[k].conv, t) && StepOf(setup, turns(k), states[k].repairs, t) == step
             && (step.Onward? ==> t.Spoke? && next == NextState(setup, turns(k), states[k], t))
    ensures var k := |turned|;
            RunLog(setup, turns, states, turned + [t]) == RunLog(setup, turns, states, turned) + TurnLog(k, setup, turns(k), states[k].repairs, t)
    ensures RunLog(setup, turns, states + [next], turned + [t]) == RunLog(setup, turns, states, turned + [t])
    ensures step.Onward? ==> forall k: nat :: k + 1 < |states| + 1 ==> GoesOn(setup, turns, states + [next], turned + [t], k)
    ensures forall k: nat :: k + 1 < |states| ==> GoesOn(setup, turns, states, turned + [t], k)
  {
    hide TurnOk, StepOf, TurnLog, NextState;
    assert (turned + [t])[..|turned|] == turned;
    RunLogStates(setup, turns, states, turned + [t], next);
    forall k: nat | k + 1 < |states| ensures GoesOn(setup, turns, states, turned + [t], k) && GoesOn(setup, turns, states + [next], turned + [t], k) {
      assert GoesOn(setup, turns, states, turned, k);
    }
  }

  /** A completed run returns the last attempt's text, which made no calls, or a note on it once both repairs are spent. */
  lemma {:induction false} FinalAnswer(setup: Setup, turns: nat -> Turn, messages: seq<Message>, states: seq<LoopState>, turned: seq<Turned>, exit: Exit, partial: string)
    requires Unfolds(setup, turns, messages, states, turned, exit, partial) && exit.Completed?
    ensures var k := |turned| - 1;
            && k >= 0 && turned[k].Spoke?
            && var last := LastAttempt(turns(k), turned[k].again);
            && last.end == Done([])
            && var text := StreamText(last.chunks);
            match setup.validate(text)
            case None => partial == text
            case Some(reason) => states[k].repairs >= 2 && partial == FailureNote(text, reason, setup.isBlank(text))
  {
    hide TurnOk, GoesOn, StreamText;
  }

  /** No turn of the run compacted the conversation. */
  predicate Uncompacted(turned: seq<Turned>)
  {
    forall k :: 0 <= k < |turned| && turned[k].Spoke? ==> turned[k].noted.None? && !turned[k].again.Shortened?
  }

  /** All that the turns from the first to the one before n have added to the conversation. */
  function Spoken(setup: Setup, turns: nat -> Turn, turned: seq<Turned>, n: nat): seq<Message>
    requires n <= |turned|
  {
    if n == 0 then [] else Spoken(setup, turns, turned, n - 1) + Told(setup, turns(n - 1), turned[n - 1])
  }

  /** Without compaction every request is the given conversation and everything said and answered since, in order. */
  lemma {:induction false} NothingForgotten(setup: Setup, turns: nat -> Turn, messages: seq<Message>, states: seq<LoopState>, turned: seq<Turned>, exit: Exit,
                                            partial: string, n: nat)
    requires Unfolds(setup, turns, messages, states, turned, exit, partial) && n < |states| && Uncompacted(turned)
    ensures states[n].conv == messages + Spoken(setup, turns, turned, n)
    ensures n < |turned| && turned[n].Spoke? ==> turned[n].first == states[n].conv && SentLast(turned[n]) == states[n].conv
    decreases n
  {
    hide StepOf, Told, AgainOk, RanOnce, CutWithin;
    if n > 0 {
      NothingForgotten(setup, turns, messages, states, turned, exit, partial, n - 1);
      assert GoesOn(setup, turns, states, turned, n - 1);
    }
    if n + 1 < |states| {
      assert GoesOn(setup, turns, states, turned, n);
    }
  }

  /** The last entries of a run. */
  function Ending(setup: Setup, exit: Exit, text: string): seq<Entry>
  {
    (if exit.Completed? then [] else [TextDelta(ClosingNote(exit, setup.isBlank(text)))]) + [AgentEnd]
  }

  function FinalText(setup: Setup, exit: Exit, text: string): string
  {
    if exit.Completed? then text else text + ClosingNote(exit, setup.isBlank(text))
  }

  /** A run cut short returns what it had plus a note that says why, and shows the note last. */
  ghost predicate Closes(setup: Setup, exit: Exit, partial: string, text: string, log: seq<Entry>)
    requires !exit.Completed?
  {
    var note := ClosingNote(exit, setup.isBlank(partial));
    text == partial + note && |log| >= 2 && log[|log| - 2..] == [TextDelta(note), AgentEnd]
  }

  lemma {:induction false} EndingRun(setup: Setup, exit: Exit, text: string, p: Phase)
    requires Leavable(p)
    ensures Run(p, Ending(setup, exit, text)) == Ended && NoRequests(Ending(setup, exit, text))
  {
    if exit.Completed? {
      RunOne(p, [], AgentEnd);
      assert Ending(setup, exit, text) == [] + [AgentEnd];
    } else {
      var note := [TextDelta(ClosingNote(exit, setup.isBlank(text)))];
      RunOne(p, [], note[0]);
      assert [] + [note[0]] == note;
      RunOne(p, note, AgentEnd);
    }
  }

  lemma {:induction false} EndingCloses(setup: Setup, exit: Exit, text: string, log: seq<Entry>)
    ensures !exit.Completed? ==> Closes(setup, exit, text, FinalText(setup, exit, text), log + Ending(setup, exit, text))
  {
  }

  // ---- What following the protocol means ----

  function TurnsOf(log: seq<Entry>): seq<nat>
  {
    if log == [] then [] else TurnsOf(log[..|log| - 1]) + (if log[|log| - 1].TurnStart? then [log[|log| - 1].turn] else [])
  }

  function StartedIds(log: seq<Entry>): seq<string>
  {
    if log == [] then [] else StartedIds(log[..|log| - 1]) + (if log[|log| - 1].ToolCallStart? then [log[|log| - 1].id] else [])
  }

  function FinishedIds(log: seq<Entry>): seq<string>
  {
    if log == [] then [] else FinishedIds(log[..|log| - 1]) + (if log[|log| - 1].ToolCallEnd? then [log[|log| - 1].id] else [])
  }

  /** Tool calls announced and not yet answered. */
  function Unanswered(p: Phase): seq<string>
  {
    if p.Between? && p.finished <= |p.started| then p.started[p.finished..] else []
  }

  function FirstTurns(n: nat): seq<nat>
  {
    seq(n, i => i)
  }

  /** Turns are numbered from zero without gaps, at most thirty of them. */
  lemma {:induction false} TurnsNumbered(log: seq<Entry>)
    requires Run(Between(0, [], 0), log) != Broken
    ensures var p := Run(Between(0, [], 0), log);
            && |TurnsOf(log)| <= MAX_AGENT_TURNS && TurnsOf(log) == FirstTurns(|TurnsOf(log)|)
            && (p.Between? ==> |TurnsOf(log)| == p.turn) && (p.Streaming? ==> |TurnsOf(log)| == p.turn + 1)
    decreases |log|
  {
    if log != [] {
      TurnsNumbered(log[..|log| - 1]);
      var n := |TurnsOf(log[..|log| - 1])|;
      assert FirstTurns(n + 1) == FirstTurns(n) + [n];
    }
  }

  /** The answers to tool calls come in the order of the calls, and no call stays unanswered in an ended run. */
  lemma {:induction false} CallsAnswered(log: seq<Entry>)
    requires Run(Between(0, [], 0), log) != Broken
    ensures var p := Run(Between(0, [], 0), log);
            && StartedIds(log) == FinishedIds(log) + Unanswered(p) && (p.Between? ==> p.finished <= |p.started|)
    ensures Run(Between(0, [], 0), log) == Ended ==> StartedIds(log) == FinishedIds(log)
    decreases |log|
  {
    if log != [] {
      var head, e := log[..|log| - 1], log[|log| - 1];
      CallsAnswered(head);
      assert head + [e] == log;
      hide Run, StartedIds, FinishedIds;
      RunOne(Between(0, [], 0), head, e);
      CallStep(Run(Between(0, [], 0), head), e, StartedIds(head), FinishedIds(head));
      IdsOne(head, e);
    }
  }

  lemma {:induction false} IdsOne(log: seq<Entry>, e: Entry)
    ensures StartedIds(log + [e]) == StartedIds(log) + (if e.ToolCallStart? then [e.id] else [])
    ensures FinishedIds(log + [e]) == FinishedIds(log) + (if e.ToolCallEnd? then [e.id] else [])
  {
    assert (log + [e])[..|log + [e]| - 1] == log;
  }

  lemma {:induction false} CallStep(p: Phase, e: Entry, started: seq<string>, finished: seq<string>)
    requires Watch(p, e) != Broken && started == finished + Unanswered(p) && (p.Between? ==> p.finished <= |p.started|)
    ensures var started' := started + (if e.ToolCallStart? then [e.id] else []);
            var finished' := finished + (if e.ToolCallEnd? then [e.id] else []);
            var q := Watch(p, e);
            && started' == finished' + Unanswered(q) && (q.Between? ==> q.finished <= |q.started|)
            && (q == Ended ==> Unanswered(q) == [])
  {
    if e.ToolCallEnd? && p.Between? {
      assert p.started[p.finished..] == [e.id] + p.started[p.finished + 1..];
    }
  }

  /** An ended run has one AgentEnd, its last entry. */
  lemma {:induction false} EndsOnce(log: seq<Entry>)
    requires Run(Between(0, [], 0), log) != Broken
    ensures forall i :: 0 <= i < |log| && log[i].AgentEnd? ==> i == |log| - 1 && Run(Between(0, [], 0), log) == Ended
    ensures Run(Between(0, [], 0), log) == Ended ==> log != [] && log[|log| - 1].AgentEnd?
    decreases |log|
  {
    if log != [] {
      EndsOnce(log[..|log| - 1]);
    }
  }

  // ---- The text-only path ----

  datatype Completion = Answer(text: string) | CompletionError(error: string) | CancelledWhileWaiting

  const TEXT_ONLY_FAILED := "Text-only agent fallback failed to produce a final answer"

  /** An answer that breaks the contract goes back with the reason. */
  predicate SentBack(setup: Setup, c: Completion, sent: seq<Message>, next: seq<Message>)
  {
    && c.Answer? && setup.validate(c.text).Some?
    && next == sent + [AssistantMessage(c.text, [])] + [Message(User, setup.repairPrompt(setup.validate(c.text).value), None, [])]
  }

  /** What the last completion makes of the run. */
  predicate TextOnlyEnds(setup: Setup, c: Completion, requests: nat, r: Result<string, string>)
  {
    match c
    case CompletionError(error) => r == Err(error)
    case CancelledWhileWaiting => r == Ok(CANCELLED_EMPTY)
    case Answer(text) =>
      match setup.validate(text)
      case None => r == Ok(text)
      case Some(reason) => requests == MAX_CONTRACT_REPAIR_ATTEMPTS + 1 && r == Ok(FailureNote(text, reason, setup.isBlank(text)))
  }

  /**
   run_agent_loop_text_only: an error is always one that the provider returned, and then nothing was shown;
   otherwise the run ends with one AgentEnd. The error behind the loop is never returned on its own account.
   */
  method RunTextOnly(messages: seq<Message>, setup: Setup, cancelledEarly: bool, complete: nat -> Completion)
    returns (r: Result<string, string>, log: seq<Entry>, requests: seq<seq<Message>>)
    ensures |requests| <= MAX_CONTRACT_REPAIR_ATTEMPTS + 1
    ensures r.Err? ==> log == [] && 0 < |requests| && complete(|requests| - 1) == CompletionError(r.error)
    ensures r.Ok? ==> log == [AgentEnd] || log == [TextDelta(r.value), AgentEnd]
    ensures r.Ok? && log != [AgentEnd] ==> requests != [] && Answered(setup, r.value, |requests| - 1)
    ensures cancelledEarly ==> requests == [] && r == Ok(CANCELLED_EMPTY)
    ensures requests != [] ==> requests[0] == messages
    ensures forall i: nat :: i + 1 < |requests| ==> SentBack(setup, complete(i), requests[i], requests[i + 1])
    ensures !cancelledEarly ==> requests != [] && TextOnlyEnds(setup, complete(|requests| - 1), |requests|, r)
    ensures Paired(messages) ==> forall i :: 0 <= i < |requests| ==> Paired(requests[i])
  {
    hide Paired;
    requests := [];
    if cancelledEarly {
      return Ok(CANCELLED_EMPTY), [AgentEnd], requests;
    }
    var conv := messages;
    var attempt: nat := 0;
    while attempt <= MAX_CONTRACT_REPAIR_ATTEMPTS
      invariant attempt <= MAX_CONTRACT_REPAIR_ATTEMPTS && |requests| == attempt
      invariant requests == [] ==> conv == messages
      invariant requests != [] ==> requests[0] == messages && SentBack(setup, complete(attempt - 1), requests[attempt - 1], conv)
      invariant forall i: nat :: i + 1 < |requests| ==> SentBack(setup, complete(i), requests[i], requests[i + 1])
      invariant Paired(messages) ==> Paired(conv) && forall i :: 0 <= i < |requests| ==> Paired(requests[i])
    {
      requests := requests + [conv];
      match complete(attempt)
      case CompletionError(error) => return Err(error), [], requests;
      case CancelledWhileWaiting => return Ok(CANCELLED_EMPTY), [AgentEnd], requests;
      case Answer(text) =>
        match setup.validate(text)
        case None => return Ok(text), [TextDelta(text), AgentEnd], requests;
        case Some(reason) =>
          if attempt >= MAX_CONTRACT_REPAIR_ATTEMPTS {
            var note := FailureNote(text, reason, setup.isBlank(text));
            return Ok(note), [TextDelta(note), AgentEnd], requests;
          }
          var told, prompt := AssistantMessage(text, []), Message(User, setup.repairPrompt(reason), None, []);
          if Paired(conv) {
            PlainPaired(conv, told);
            PlainPaired(conv + [told], prompt);
          }
          conv := conv + [told] + [prompt];
      attempt := attempt + 1;
    }
    r, log := Err(TEXT_ONLY_FAILED), [];
  }
}
