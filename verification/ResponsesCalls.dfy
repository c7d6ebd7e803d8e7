/** What the arguments of a Responses item come to, through the reader and the accumulator. */
module ResponsesCalls {
  import opened Common
  import opened Conversation
  import opened ToolCallStream

  /** Every fragment for the index, one after the other. */
  function AllFragments(h: seq<ToolEvent>, i: nat): string
  {
    if h == [] then ""
    else AllFragments(h[..|h| - 1], i) + (if h[|h| - 1].Delta? && h[|h| - 1].index == i then h[|h| - 1].fragment else "")
  }

  /** The fragments that came before the index was announced, which the accumulator drops. */
  function EarlyFragments(h: seq<ToolEvent>, i: nat): string
  {
    if h == [] then ""
    else
      var before, e := h[..|h| - 1], h[|h| - 1];
      EarlyFragments(before, i) + (if e.Delta? && e.index == i && !StartedIn(before, i) then e.fragment else "")
  }

  /** The accumulator keeps everything behind the announcement and nothing before it. */
  lemma {:induction false} FragmentsSplit(h: seq<ToolEvent>, i: nat)
    ensures AllFragments(h, i) == EarlyFragments(h, i) + Arguments(h, i)
  {
    hide StartedIn;
    if h != [] {
      var before, e := h[..|h| - 1], h[|h| - 1];
      FragmentsSplit(before, i);
      var f := if e.Delta? && e.index == i then e.fragment else "";
      if StartedIn(before, i) {
        assert EarlyFragments(before, i) + Arguments(before, i) + f == EarlyFragments(before, i) + (Arguments(before, i) + f);
      } else {
        UnstartedEmpty(before, i);
      }
    }
  }

  /** An announcement adds no arguments, and whole arguments only for an index without any. */
  lemma {:induction false} ItemArguments(h: seq<ToolEvent>, i: nat, item: Item)
    ensures Arguments(WithItem(h, i, item), i)
            == if ArguedIn(h, i) then Arguments(h, i) else UnwrapOr(item.arguments, "")
  {
    hide StartedIn, ArguedIn;
    if !ArguedIn(h, i) {
      Unargued(h, i);
    }
    var start := Start(i, UnwrapOr(OrElse(item.callId, item.id), ""), UnwrapOr(item.name, ""));
    var announced := h + (if StartedIn(h, i) then [] else [start]);
    assert StartedIn(announced, i) && Arguments(announced, i) == Arguments(h, i) by {
      if StartedIn(h, i) {
        assert announced == h;
      } else {
        StartedSnoc(h, start, i);
        ArgumentsSnoc(h, start, i);
      }
    }
    if !ArguedIn(h, i) && item.arguments.Some? && item.arguments.value != "" {
      ArgumentsSnoc(announced, Delta(i, item.arguments.value, true), i);
    } else {
      assert WithItem(h, i, item) == announced;
    }
  }

  lemma {:induction false} ArgumentsSnoc(h: seq<ToolEvent>, e: ToolEvent, i: nat)
    ensures Arguments(h + [e], i) == Arguments(h, i) + (if e.Delta? && e.index == i && StartedIn(h, i) then e.fragment else "")
  {
    hide StartedIn;
    assert (h + [e])[..|h + [e]| - 1] == h;
  }

  lemma {:induction false} Unargued(h: seq<ToolEvent>, i: nat)
    requires !ArguedIn(h, i)
    ensures Arguments(h, i) == "" && AllFragments(h, i) == ""
  {
    if h != [] {
      var before, e := h[..|h| - 1], h[|h| - 1];
      assert h == before + [e];
      ArguedSnoc(before, e, i);
      Unargued(before, i);
    }
  }

  /**
   For a stream whose fragments for an index add up to the item's arguments, or that has none, the call gets
   exactly these arguments when the item is finished if and only if nothing was sent for the index before its announcement.
   */
  lemma {:induction false} ItemKeepsArguments(h: seq<ToolEvent>, i: nat, item: Item)
    requires ArguedIn(h, i) ==> item.arguments == Some(AllFragments(h, i))
    ensures Arguments(WithItem(h, i, item) + [Complete(i)], i) == UnwrapOr(item.arguments, "") <==> EarlyFragments(h, i) == ""
  {
    hide StartedIn, ArguedIn, WithItem;
    ItemArguments(h, i, item);
    ArgumentsSnoc(WithItem(h, i, item), Complete(i), i);
    FragmentsSplit(h, i);
    if !ArguedIn(h, i) {
      Unargued(h, i);
    }
  }

  /** A stream of items through the reader and the accumulator. */
  method ReadItems(events: seq<ResponsesEvent>, parse: string -> string) returns (out: seq<ToolEvent>, calls: seq<ToolCall>)
    ensures StartsOnce(out) && WholeOnce(out) && WholeAnnounced(out)
    ensures calls == Final(out, parse)
    ensures forall i :: Arguments(out, i) == AllFragments(out, i) <==> EarlyFragments(out, i) == ""
  {
    hide Final;
    var reader := new ResponsesReader();
    for k := 0 to |events|
      invariant fresh(reader) && reader.Valid()
    {
      reader.Handle(events[k]);
    }
    out := reader.out;
    var shown;
    calls, shown := Accumulate(out, parse);
    forall i ensures Arguments(out, i) == AllFragments(out, i) <==> EarlyFragments(out, i) == "" {
      FragmentsSplit(out, i);
    }
  }

  /** A delta that comes before its item: it is dropped, and it keeps the item's own arguments from being used. */
  method EarlyDeltaLosesArguments(parse: string -> string) returns (calls: seq<ToolCall>)
    ensures calls == [ToolCall("call", "f", parse(""))]
  {
    var reader := new ResponsesReader();
    reader.Handle(ArgumentsDelta(Some("x"), Some(0), Some("{}")));
    assert reader.out == [Delta(0, "{}", false)];
    assert reader.out[0].Delta? && !StartedIn(reader.out, 0) && ArguedIn(reader.out, 0);
    var item := Item(true, Some("x"), Some("call"), Some("f"), Some("{}"));
    reader.Handle(ItemDone(item, None, Some(0)));
    assert reader.out == [Delta(0, "{}", false), Start(0, "call", "f"), Complete(0)];
    var shown;
    calls, shown := Accumulate(reader.out, parse);
    EarlyDelta();
  }

  lemma {:induction false} EarlyDelta()
    ensures var h := [Delta(0, "{}", false), Start(0, "call", "f"), Complete(0)];
            StartOrder(h) == [0] && LastId(h, 0) == "call" && LastName(h, 0) == "f" && Arguments(h, 0) == ""
  {
    var a, b, c := Delta(0, "{}", false), Start(0, "call", "f"), Complete(0);
    assert [] + [a] == [a] && [a] + [b] == [a, b] && [a, b] + [c] == [a, b, c];
    assert !StartedIn([], 0) && CallFor([], 0) == None;
    CallSnoc([], a, 0);
    CallSnoc([a], b, 0);
    CallSnoc([a, b], c, 0);
    OrderSnoc([], a);
    OrderSnoc([a], b);
    OrderSnoc([a, b], c);
  }
}
