/** Line framing of the providers' event streams: what a stream yields depends on its bytes, not on how they arrive. */
module StreamFraming {
  import opened Common
  import opened SqlText

  type Byte = b: int | 0 <= b < 256

  const LF: Byte := 10

  // ---- The reference: the complete lines of a byte string ----

  function FirstLf(s: seq<Byte>): (r: nat)
    ensures r <= |s| && LF !in s[..r] && (r < |s| ==> s[r] == LF)
  {
    if s == [] || s[0] == LF then 0
    else
      var r := 1 + FirstLf(s[1..]);
      assert s[..r] == [s[0]] + s[1..][..r - 1];
      r
  }

  /** The lines of s, without their line feeds; what follows the last line feed is not a line. */
  function Lines(s: seq<Byte>): seq<seq<Byte>>
    decreases |s|
  {
    var p := FirstLf(s);
    if p == |s| then [] else [s[..p]] + Lines(s[p + 1..])
  }

  /** The unfinished line at the end of s. */
  function Tail(s: seq<Byte>): seq<Byte>
    decreases |s|
  {
    var p := FirstLf(s);
    if p == |s| then s else Tail(s[p + 1..])
  }

  lemma {:induction false} FirstLfIs(s: seq<Byte>, p: nat)
    requires p < |s| && s[p] == LF && LF !in s[..p]
    ensures FirstLf(s) == p
  {
    if p > 0 {
      assert s[..p] == [s[0]] + s[1..][..p - 1];
      FirstLfIs(s[1..], p - 1);
    }
  }

  /** More bytes only add lines behind the finished ones. */
  lemma {:induction false} LinesConcat(a: seq<Byte>, b: seq<Byte>)
    ensures Lines(a + b) == Lines(a) + Lines(Tail(a) + b) && Tail(a + b) == Tail(Tail(a) + b)
    decreases |a|
  {
    var p := FirstLf(a);
    if p < |a| {
      assert (a + b)[..p] == a[..p];
      FirstLfIs(a + b, p);
      assert (a + b)[p + 1..] == a[p + 1..] + b;
      LinesConcat(a[p + 1..], b);
    }
  }

  /** The lines, each with a line feed behind it. */
  function Rejoined(lines: seq<seq<Byte>>): seq<Byte>
  {
    if lines == [] then [] else lines[0] + [LF] + Rejoined(lines[1..])
  }

  /** No byte is lost or added, and no line feed stays inside a line. */
  lemma {:induction false} LinesRebuild(s: seq<Byte>)
    ensures Rejoined(Lines(s)) + Tail(s) == s
    ensures LF !in Tail(s) && forall i :: 0 <= i < |Lines(s)| ==> LF !in Lines(s)[i]
    decreases |s|
  {
    var p := FirstLf(s);
    LinesUnfold(s);
    hide Lines, Tail, FirstLf;
    if p < |s| {
      var rest, tail := Lines(s[p + 1..]), Tail(s[p + 1..]);
      LinesRebuild(s[p + 1..]);
      RejoinFirst(s[..p], rest);
      assert s == s[..p] + [LF] + s[p + 1..];
      assert s[..p] + [LF] + Rejoined(rest) + tail == s[..p] + [LF] + (Rejoined(rest) + tail);
    } else {
      assert Rejoined([]) + s == s;
    }
  }

  lemma {:induction false} LinesUnfold(s: seq<Byte>)
    ensures var p := FirstLf(s);
            && LF !in s[..p]
            && if p < |s| then s[p] == LF && Lines(s) == [s[..p]] + Lines(s[p + 1..]) && Tail(s) == Tail(s[p + 1..])
               else Lines(s) == [] && Tail(s) == s && LF !in s
  {
    assert s[..|s|] == s;
  }

  lemma {:induction false} RejoinFirst(line: seq<Byte>, rest: seq<seq<Byte>>)
    ensures Rejoined([line] + rest) == line + [LF] + Rejoined(rest)
  {
    assert ([line] + rest)[1..] == rest;
  }

  // ---- Payloads ----

  function StartsWith(s: string, prefix: string): bool
  {
    |prefix| <= |s| && s[..|prefix|] == prefix
  }

  /** stream_data_payload. */
  function Payload(text: string): Option<string>
  {
    var line := TrimSpace(text);
    if line == "" || StartsWith(line, ":") || StartsWith(line, "event:") || StartsWith(line, "id:") then None
    else if StartsWith(line, "data:") then Some(line[5..][LeadEdge(line[5..], 0)..])
    else if StartsWith(line, "{") then Some(line)
    else None
  }

  predicate NoBlankEnds(s: string)
  {
    s != "" ==> !IsUniSpace(s[0]) && !IsUniSpace(s[|s| - 1])
  }

  lemma {:induction false} TrimIsSame(s: string)
    requires NoBlankEnds(s)
    ensures TrimSpace(s) == s && LeadEdge(s, 0) == 0
  {
    TrimOfTrimmed(s);
  }

  lemma {:induction false} OneBlank(x: string)
    requires NoBlankEnds(x)
    ensures LeadEdge(" " + x, 0) == 1
  {
    LeadEdgeIs(" " + x, 0, 1);
  }

  /** A data line carries its value with or without a space behind the colon; a bare object line carries itself; no other line carries anything. */
  lemma {:induction false} PayloadExactly(line: string, x: string)
    requires NoBlankEnds(line) && NoBlankEnds(x)
    ensures line == "data:" + x ==> Payload(line) == Some(x)
    ensures line == "data: " + x ==> Payload(line) == Some(x)
    ensures line != "" && line[0] == '{' ==> Payload(line) == Some(line)
    ensures !("data:" <= line) && (line == "" || line[0] != '{') ==> Payload(line) == None
  {
    hide TrimSpace, LeadEdge, IsUniSpace;
    TrimIsSame(line);
    TrimIsSame(x);
    assert x[0..] == x;
    if line == "data:" + x {
      assert line[5..] == x && line[..5] == "data:";
    }
    if line == "data: " + x {
      assert line[5..] == " " + x && line[..5] == "data:";
      OneBlank(x);
      assert (" " + x)[1..] == x;
    }
    assert StartsWith(line, "data:") <==> "data:" <= line;
    assert StartsWith(line, "{") <==> line != "" && line[0] == '{' by {
      assert line != "" ==> line[..1] == [line[0]];
    }
  }

  lemma {:induction false} LeadEdgeIs(s: string, i: nat, r: nat)
    requires i <= r <= |s| && (forall k :: i <= k < r ==> IsUniSpace(s[k])) && (r < |s| ==> !IsUniSpace(s[r]))
    ensures LeadEdge(s, i) == r
    decreases r - i
  {
    if i < r {
      LeadEdgeIs(s, i + 1, r);
    }
  }

  lemma {:induction false} TrailEdgeIs(s: string, lo: nat, hi: nat, r: nat)
    requires lo <= r <= hi <= |s| && (forall k :: r <= k < hi ==> IsUniSpace(s[k])) && (r > lo ==> !IsUniSpace(s[r - 1]))
    ensures TrailEdge(s, lo, hi) == r
    decreases hi - r
  {
    if r < hi {
      TrailEdgeIs(s, lo, hi - 1, r);
    }
  }

  lemma {:induction false} TrimSuffix(s: string, c: char)
    requires IsUniSpace(c)
    ensures TrimSpace(s + [c]) == TrimSpace(s)
  {
    var t, lo, hi := s + [c], TrimLo(s), TrimHi(s);
    if lo < |s| {
      LeadEdgeIs(t, 0, lo);
      TrailEdgeIs(t, lo, |t|, hi);
    } else {
      LeadEdgeIs(t, 0, |t|);
    }
  }

  /** A carriage return before the line feed changes nothing: LF and CRLF streams read alike. */
  lemma {:induction false} CarriageReturnIgnored(line: string)
    ensures Payload(line + "\r") == Payload(line)
  {
    TrimSuffix(line, '\r');
  }

  // ---- Reading ----

  datatype Outcome = Ended | Finished | InvalidText

  /** What a provider's loop does with the payloads: decoding, its state after each payload, and whether [DONE] stops it. */
  datatype Handler<!S> = Handler(decode: seq<Byte> -> Option<string>, step: (S, string) -> S, honoursDone: bool)

  /** The lines taken one after the other, until the stop mark or text that cannot be decoded. */
  function Fold<S>(h: Handler<S>, lines: seq<seq<Byte>>, s: S): (S, Outcome)
    decreases |lines|
  {
    if lines == [] then (s, Ended)
    else match h.decode(lines[0])
      case None => (s, InvalidText)
      case Some(text) =>
        var data := Payload(text);
        if data.None? then Fold(h, lines[1..], s)
        else if h.honoursDone && data.value == "[DONE]" then (s, Finished)
        else Fold(h, lines[1..], h.step(s, data.value))
  }

  lemma {:induction false} FoldConcat<S>(h: Handler<S>, a: seq<seq<Byte>>, b: seq<seq<Byte>>, s: S)
    ensures Fold(h, a + b, s) == if Fold(h, a, s).1 == Ended then Fold(h, b, Fold(h, a, s).0) else Fold(h, a, s)
    decreases |a|
  {
    if a == [] {
      assert a + b == b;
    } else {
      assert (a + b)[1..] == a[1..] + b;
      match h.decode(a[0]) {
        case None =>
        case Some(text) =>
          var data := Payload(text);
          FoldConcat(h, a[1..], b, if data.None? then s else h.step(s, data.value));
      }
    }
  }

  /** How a line ends the reading, if it does. */
  function Stops<S>(h: Handler<S>, line: seq<Byte>): Option<Outcome>
  {
    if h.decode(line).None? then Some(InvalidText)
    else if h.honoursDone && Payload(h.decode(line).value) == Some("[DONE]") then Some(Finished)
    else None
  }

  /** What the lines carry, in order. */
  function Payloads<S>(h: Handler<S>, lines: seq<seq<Byte>>): seq<string>
  {
    if lines == [] then []
    else (if h.decode(lines[0]).Some? && Payload(h.decode(lines[0]).value).Some? then [Payload(h.decode(lines[0]).value).value] else []) + Payloads(h, lines[1..])
  }

  function Steps<S>(step: (S, string) -> S, data: seq<string>, s: S): S
  {
    if data == [] then s else Steps(step, data[1..], step(s, data[0]))
  }

  /** Up to a line that stops it, reading applies the step to every payload once and in order; what follows such a line is not read. */
  lemma {:induction false} FoldExactly<S>(h: Handler<S>, lines: seq<seq<Byte>>, n: nat, s: S)
    requires n <= |lines| && forall k :: 0 <= k < n ==> Stops(h, lines[k]).None?
    requires n < |lines| ==> Stops(h, lines[n]).Some?
    ensures Fold(h, lines, s) == (Steps(h.step, Payloads(h, lines[..n]), s), if n < |lines| then Stops(h, lines[n]).value else Ended)
    decreases n
  {
    hide Payload;
    if n > 0 {
      var data := Payload(h.decode(lines[0]).value);
      FoldExactly(h, lines[1..], n - 1, if data.None? then s else h.step(s, data.value));
      assert lines[..n][1..] == lines[1..][..n - 1] && lines[..n][0] == lines[0];
      var rest := Payloads(h, lines[1..][..n - 1]);
      assert data.Some? ==> ([data.value] + rest)[1..] == rest;
      assert [] + rest == rest;
    }
  }

  /** drain_next_stream_line on the bytes: the first finished line leaves the buffer. */
  method DrainLine(buffer: seq<Byte>) returns (line: Option<seq<Byte>>, rest: seq<Byte>)
    ensures line.None? ==> rest == buffer && Lines(buffer) == [] && Tail(buffer) == buffer
    ensures line.Some? ==> |rest| < |buffer| && Lines(buffer) == [line.value] + Lines(rest) && Tail(buffer) == Tail(rest)
  {
    var p := 0;
    while p < |buffer| && buffer[p] != LF
      invariant 0 <= p <= |buffer| && LF !in buffer[..p]
    {
      assert buffer[..p + 1] == buffer[..p] + [buffer[p]];
      p := p + 1;
    }
    if p == |buffer| {
      assert buffer[..p] == buffer;
      return None, buffer;
    }
    FirstLfIs(buffer, p);
    line, rest := Some(buffer[..p]), buffer[p + 1..];
  }

  /** The inner loop of a stream reader: all lines finished so far. */
  method DrainLines<S>(h: Handler<S>, buffer: seq<Byte>, s: S) returns (after: S, rest: seq<Byte>, outcome: Outcome)
    ensures (after, outcome) == Fold(h, Lines(buffer), s)
    ensures outcome == Ended ==> rest == Tail(buffer)
  {
    hide Lines, Tail, Payload;
    after, rest, outcome := s, buffer, Ended;
    while true
      invariant outcome == Ended && Fold(h, Lines(rest), after) == Fold(h, Lines(buffer), s) && Tail(rest) == Tail(buffer)
      decreases |rest|
    {
      var line, left := DrainLine(rest);
      if line.None? {
        return;
      }
      assert ([line.value] + Lines(left))[1..] == Lines(left);
      rest := left;
      match h.decode(line.value)
      case None => return after, rest, InvalidText;
      case Some(text) =>
        var data := Payload(text);
        if data.Some? {
          if h.honoursDone && data.value == "[DONE]" {
            return after, rest, Finished;
          }
          after := h.step(after, data.value);
        }
    }
  }

  /** A stream reader over the chunks as they arrive computes a function of their concatenation alone. */
  method ReadStream<S>(h: Handler<S>, chunks: seq<seq<Byte>>, init: S) returns (s: S, outcome: Outcome)
    ensures (s, outcome) == Fold(h, Lines(Concat(chunks)), init)
    ensures (s, outcome) == ChunkFold(h, chunks, [], init)
  {
    hide Lines, Tail, Fold, ChunkFold;
    ChunksFolded(h, chunks, init);
    var buffer: seq<Byte> := [];
    s, outcome := init, Ended;
    var i := 0;
    EmptyStream(h, init);
    assert chunks[..0] == [];
    while i < |chunks|
      invariant 0 <= i <= |chunks| && outcome == Ended
      invariant (s, Ended) == Fold(h, Lines(Concat(chunks[..i])), init) && buffer == Tail(Concat(chunks[..i]))
    {
      buffer := buffer + chunks[i];
      NextChunk(h, chunks, i, init);
      s, buffer, outcome := DrainLines(h, buffer, s);
      if outcome != Ended {
        LaterChunks(h, chunks, i + 1, init);
        return;
      }
      i := i + 1;
    }
    assert chunks[..i] == chunks;
  }

  lemma {:induction false} EmptyStream<S>(h: Handler<S>, init: S)
    ensures Concat<Byte>([]) == [] && Lines([]) == [] && Tail([]) == [] && Fold(h, [], init) == (init, Ended)
  {
  }

  lemma {:induction false} NextChunk<S>(h: Handler<S>, chunks: seq<seq<Byte>>, i: nat, init: S)
    requires i < |chunks| && Fold(h, Lines(Concat(chunks[..i])), init).1 == Ended
    ensures var buffer := Tail(Concat(chunks[..i])) + chunks[i];
            && Fold(h, Lines(Concat(chunks[..i + 1])), init) == Fold(h, Lines(buffer), Fold(h, Lines(Concat(chunks[..i])), init).0)
            && Tail(Concat(chunks[..i + 1])) == Tail(buffer)
  {
    hide Lines, Tail, Fold;
    var done := Concat(chunks[..i]);
    assert chunks[..i + 1] == chunks[..i] + [chunks[i]];
    ConcatAppend(chunks[..i], [chunks[i]]);
    assert Concat([chunks[i]]) == chunks[i] + Concat([chunks[i]][1..]);
    assert Concat(chunks[..i + 1]) == done + chunks[i];
    LinesConcat(done, chunks[i]);
    FoldConcat(h, Lines(done), Lines(Tail(done) + chunks[i]), init);
  }

  /** Once a reader has stopped, later chunks do not matter. */
  lemma {:induction false} LaterChunks<S>(h: Handler<S>, chunks: seq<seq<Byte>>, i: nat, init: S)
    requires i <= |chunks| && Fold(h, Lines(Concat(chunks[..i])), init).1 != Ended
    ensures Fold(h, Lines(Concat(chunks)), init) == Fold(h, Lines(Concat(chunks[..i])), init)
  {
    hide Lines, Tail, Fold;
    var done, later := Concat(chunks[..i]), Concat(chunks[i..]);
    assert chunks == chunks[..i] + chunks[i..];
    ConcatAppend(chunks[..i], chunks[i..]);
    LinesConcat(done, later);
    FoldConcat(h, Lines(done), Lines(Tail(done) + later), init);
  }

  /** Two ways of cutting up the same bytes give the same state and the same stopping point. */
  lemma {:induction false} ChunkingIrrelevant<S>(h: Handler<S>, a: seq<seq<Byte>>, b: seq<seq<Byte>>, init: S)
    requires Concat(a) == Concat(b)
    ensures ChunkFold(h, a, [], init) == ChunkFold(h, b, [], init)
  {
    ChunksFolded(h, a, init);
    ChunksFolded(h, b, init);
  }

  /** Taking the chunks as they come is taking the lines of all of them. */
  lemma {:induction false} ChunksFolded<S>(h: Handler<S>, chunks: seq<seq<Byte>>, init: S)
    ensures ChunkFold(h, chunks, [], init) == Fold(h, Lines(Concat(chunks)), init)
  {
    ChunkFoldIs(h, chunks, [], init);
    assert [] + Concat(chunks) == Concat(chunks);
  }

  /** The chunks one after the other, each appended to what the last one left unfinished. */
  function ChunkFold<S>(h: Handler<S>, chunks: seq<seq<Byte>>, buffer: seq<Byte>, s: S): (S, Outcome)
    decreases |chunks|
  {
    if chunks == [] then (s, Ended)
    else
      var r := Fold(h, Lines(buffer + chunks[0]), s);
      if r.1 == Ended then ChunkFold(h, chunks[1..], Tail(buffer + chunks[0]), r.0) else r
  }

  lemma {:induction false} ChunkFoldIs<S>(h: Handler<S>, chunks: seq<seq<Byte>>, buffer: seq<Byte>, s: S)
    requires Lines(buffer) == []
    ensures ChunkFold(h, chunks, buffer, s) == Fold(h, Lines(buffer + Concat(chunks)), s)
    decreases |chunks|
  {
    hide Lines, Tail, Fold;
    if chunks == [] {
      EmptyStream(h, s);
      assert buffer + Concat(chunks) == buffer;
    } else {
      var now, later := buffer + chunks[0], Concat(chunks[1..]);
      assert buffer + Concat(chunks) == now + later;
      LinesConcat(now, later);
      FoldConcat(h, Lines(now), Lines(Tail(now) + later), s);
      TailUnfinished(now);
      var r := Fold(h, Lines(now), s);
      ChunkFoldIs(h, chunks[1..], Tail(now), r.0);
    }
  }

  lemma {:induction false} TailUnfinished(s: seq<Byte>)
    ensures Lines(Tail(s)) == []
    decreases |s|
  {
    if FirstLf(s) < |s| {
      TailUnfinished(s[FirstLf(s) + 1..]);
    }
  }
}
