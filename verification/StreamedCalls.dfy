/** From the bytes of a provider's stream to the tool calls of a turn. */
module StreamedCalls {
  import opened Common
  import opened Conversation
  import opened StreamFraming
  import opened ToolCallStream

  /** A provider: how its bytes decode, and the events one payload makes of the state kept between payloads. */
  datatype Provider<!P> = Provider(decode: seq<Byte> -> Option<string>, emit: (P, string) -> (P, seq<ToolEvent>), honoursDone: bool)

  /** What a stream has come to: the provider's state and every event so far. */
  datatype Progress<P> = Progress(state: P, events: seq<ToolEvent>)

  function Advance<P>(p: Provider<P>, at: Progress<P>, data: string): Progress<P>
  {
    var (state, events) := p.emit(at.state, data);
    Progress(state, at.events + events)
  }

  function HandlerOf<P>(p: Provider<P>): Handler<Progress<P>>
  {
    Handler(p.decode, (at: Progress<P>, data: string) => Advance(p, at, data), p.honoursDone)
  }

  /** The tool calls of a stream, by its bytes: lines, then payloads, then events, then calls. */
  function CallsOf<P>(p: Provider<P>, bytes: seq<Byte>, init: P, parse: string -> string): Result<seq<ToolCall>, Outcome>
  {
    var (at, outcome) := Fold(HandlerOf(p), StreamFraming.Lines(bytes), Progress(init, []));
    if outcome == InvalidText then Err(InvalidText) else Ok(Final(at.events, parse))
  }

  /** stream_with_tools: the chunks are read as they come, every event goes to the accumulator, and the calls are its result. */
  method ReadToolCalls<P>(p: Provider<P>, chunks: seq<seq<Byte>>, init: P, parse: string -> string)
    returns (r: Result<seq<ToolCall>, Outcome>, shown: seq<string>)
    ensures r == CallsOf(p, Concat(chunks), init, parse)
    ensures shown == Texts(Fold(HandlerOf(p), StreamFraming.Lines(Concat(chunks)), Progress(init, [])).0.events)
  {
    hide Final, Fold;
    var at, outcome := ReadStream(HandlerOf(p), chunks, Progress(init, []));
    var calls;
    calls, shown := Accumulate(at.events, parse);
    r := if outcome == InvalidText then Err(InvalidText) else Ok(calls);
  }

  /**
   The calls depend only on the bytes: however two streams of the same bytes are cut, they end alike, and the
   calls are the started indices in first-start order with the last non-empty id and name and the arguments
   received after the start.
   */
  lemma {:induction false} BytesDetermineCalls<P>(p: Provider<P>, a: seq<seq<Byte>>, b: seq<seq<Byte>>, init: P, parse: string -> string)
    requires Concat(a) == Concat(b)
    ensures var r := ChunkFold(HandlerOf(p), a, [], Progress(init, []));
            && ChunkFold(HandlerOf(p), b, [], Progress(init, [])) == r
            && CallsOf(p, Concat(a), init, parse) == (if r.1 == InvalidText then Err(InvalidText) else Ok(Final(r.0.events, parse)))
            && CallsOf(p, Concat(b), init, parse) == CallsOf(p, Concat(a), init, parse)
  {
    hide Fold, ChunkFold, Final;
    ChunkingIrrelevant(HandlerOf(p), a, b, Progress(init, []));
    ChunksFolded(HandlerOf(p), a, Progress(init, []));
  }
}
