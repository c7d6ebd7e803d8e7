/** Tool calls from streamed events: the accumulator, and the Responses items that feed it. */
module ToolCallStream {
  import opened Common
  import opened Conversation

  /** `whole` marks arguments taken from a finished item rather than from a delta. */
  datatype ToolEvent =
    | Chunk(text: string)
    | Start(index: nat, id: string, name: string)
    | Delta(index: nat, fragment: string, whole: bool)
    | Complete(index: nat)

  // ---- What a sequence of events stands for ----

  predicate StartedIn(h: seq<ToolEvent>, i: nat)
  {
    exists k :: 0 <= k < |h| && h[k].Start? && h[k].index == i
  }

  /** Indices in the order of their first start. */
  function StartOrder(h: seq<ToolEvent>): seq<nat>
  {
    if h == [] then []
    else
      var before, e := h[..|h| - 1], h[|h| - 1];
      StartOrder(before) + (if e.Start? && !StartedIn(before, e.index) then [e.index] else [])
  }

  /** The last id given for the index that is not empty. */
  function LastId(h: seq<ToolEvent>, i: nat): string
  {
    if h == [] then ""
    else
      var e := h[|h| - 1];
      if e.Start? && e.index == i && e.id != "" then e.id else LastId(h[..|h| - 1], i)
  }

  function LastName(h: seq<ToolEvent>, i: nat): string
  {
    if h == [] then ""
    else
      var e := h[|h| - 1];
      if e.Start? && e.index == i && e.name != "" then e.name else LastName(h[..|h| - 1], i)
  }

  /** The fragments for the index that came after its start, one after the other. */
  function Arguments(h: seq<ToolEvent>, i: nat): string
  {
    if h == [] then ""
    else
      var before, e := h[..|h| - 1], h[|h| - 1];
      Arguments(before, i) + (if e.Delta? && e.index == i && StartedIn(before, i) then e.fragment else "")
  }

  lemma {:induction false} StartedSnoc(h: seq<ToolEvent>, e: ToolEvent, i: nat)
    ensures StartedIn(h + [e], i) <==> StartedIn(h, i) || (e.Start? && e.index == i)
  {
    if StartedIn(h, i) {
      var k :| 0 <= k < |h| && h[k].Start? && h[k].index == i;
      assert (h + [e])[k] == h[k];
    }
    if e.Start? && e.index == i {
      assert (h + [e])[|h|] == e;
    }
  }

  /** The order holds each started index once, and nothing else; an index started earlier stands earlier. */
  lemma {:induction false} StartOrderFacts(h: seq<ToolEvent>)
    ensures forall i :: i in StartOrder(h) <==> StartedIn(h, i)
    ensures forall p, q :: 0 <= p < q < |StartOrder(h)| ==> StartOrder(h)[p] != StartOrder(h)[q]
  {
    if h != [] {
      var before, e := h[..|h| - 1], h[|h| - 1];
      StartOrderFacts(before);
      assert h == before + [e];
      forall i ensures i in StartOrder(h) <==> StartedIn(h, i) {
        StartedSnoc(before, e, i);
      }
    }
  }

  lemma {:induction false} UnstartedEmpty(h: seq<ToolEvent>, i: nat)
    requires !StartedIn(h, i)
    ensures LastId(h, i) == "" && LastName(h, i) == "" && Arguments(h, i) == ""
  {
    if h != [] {
      var before, e := h[..|h| - 1], h[|h| - 1];
      assert h == before + [e];
      StartedSnoc(before, e, i);
      UnstartedEmpty(before, i);
    }
  }

  // ---- The accumulator ----

  datatype PartialCall = PartialCall(id: string, name: string, arguments: string)

  function Lookup(calls: map<nat, PartialCall>, i: nat): Option<PartialCall>
  {
    if i in calls then Some(calls[i]) else None
  }

  /** What the events so far say about one index. */
  function CallFor(h: seq<ToolEvent>, i: nat): Option<PartialCall>
  {
    if StartedIn(h, i) then Some(PartialCall(LastId(h, i), LastName(h, i), Arguments(h, i))) else None
  }

  /** The effect of one event on one index. */
  function Merge(known: Option<PartialCall>, e: ToolEvent, i: nat): Option<PartialCall>
  {
    if e.Start? && e.index == i then
      if known.None? then Some(PartialCall(e.id, e.name, ""))
      else Some(known.value.(id := if e.id != "" then e.id else known.value.id, name := if e.name != "" then e.name else known.value.name))
    else if e.Delta? && e.index == i && known.Some? then Some(known.value.(arguments := known.value.arguments + e.fragment))
    else known
  }

  lemma {:induction false} CallSnoc(h: seq<ToolEvent>, e: ToolEvent, i: nat)
    ensures CallFor(h + [e], i) == Merge(CallFor(h, i), e, i)
  {
    assert (h + [e])[..|h + [e]| - 1] == h;
    StartedSnoc(h, e, i);
    if !StartedIn(h, i) {
      UnstartedEmpty(h, i);
    }
    hide StartedIn;
    assert (h + [e])[|h + [e]| - 1] == e;
    assert LastId(h + [e], i) == if e.Start? && e.index == i && e.id != "" then e.id else LastId(h, i);
    assert LastName(h + [e], i) == if e.Start? && e.index == i && e.name != "" then e.name else LastName(h, i);
    assert Arguments(h + [e], i) == Arguments(h, i) + (if e.Delta? && e.index == i && StartedIn(h, i) then e.fragment else "");
    assert Arguments(h, i) + "" == Arguments(h, i);
  }

  lemma {:induction false} OrderSnoc(h: seq<ToolEvent>, e: ToolEvent)
    ensures StartOrder(h + [e]) == StartOrder(h) + (if e.Start? && e.index !in StartOrder(h) then [e.index] else [])
  {
    assert (h + [e])[..|h + [e]| - 1] == h;
    StartOrderFacts(h);
  }

  class Accumulator {
    var calls: map<nat, PartialCall>
    var ordered: seq<nat>
    ghost var history: seq<ToolEvent>

    ghost predicate Valid()
      reads this
    {
      ordered == StartOrder(history) && forall i :: Lookup(calls, i) == CallFor(history, i)
    }

    constructor ()
      ensures Valid() && history == []
    {
      calls, ordered, history := map[], [], [];
    }

    /** process; text chunks go straight to the caller. */
    method Process(e: ToolEvent) returns (shown: Option<string>)
      requires Valid()
      modifies this
      ensures Valid() && history == old(history) + [e]
      ensures shown == if e.Chunk? then Some(e.text) else None
    {
      hide StartedIn, CallFor, StartOrder;
      OrderSnoc(history, e);
      forall i: nat ensures CallFor(history + [e], i) == Merge(Lookup(calls, i), e, i) {
        CallSnoc(history, e, i);
      }
      shown := None;
      history := history + [e];
      match e
      case Chunk(text) => shown := Some(text);
      case Start(index, id, name) =>
        if index in calls {
          var known := calls[index];
          calls := calls[index := known.(id := if id != "" then id else known.id, name := if name != "" then name else known.name)];
        } else {
          calls := calls[index := PartialCall(id, name, "")];
        }
        if index !in ordered {
          ordered := ordered + [index];
        }
      case Delta(index, fragment, _) =>
        if index in calls {
          calls := calls[index := calls[index].(arguments := calls[index].arguments + fragment)];
        }
      case Complete(_) =>
    }

    /** finalize: one call per started index, in first-start order; `parse` reads the arguments, or yields the empty object. */
    method Finalize(parse: string -> string) returns (r: seq<ToolCall>)
      requires Valid()
      ensures r == Final(history, parse)
    {
      StartOrderFacts(history);
      hide StartOrder, LastId, LastName, Arguments, StartedIn;
      r := [];
      var k := 0;
      while k < |ordered|
        invariant 0 <= k <= |ordered| && |r| == k
        invariant forall j :: 0 <= j < k ==> r[j] == FinalCall(history, ordered[j], parse)
      {
        assert Lookup(calls, ordered[k]) == CallFor(history, ordered[k]);
        if ordered[k] in calls {
          var c := calls[ordered[k]];
          r := r + [ToolCall(c.id, c.name, parse(c.arguments))];
        }
        k := k + 1;
      }
    }
  }

  /** All events through the accumulator, and its result. */
  method Accumulate(events: seq<ToolEvent>, parse: string -> string) returns (calls: seq<ToolCall>, shown: seq<string>)
    ensures calls == Final(events, parse) && shown == Texts(events)
  {
    hide Final;
    shown := [];
    var acc := new Accumulator();
    var i := 0;
    assert events[..0] == [];
    while i < |events|
      invariant 0 <= i <= |events| && acc.Valid() && fresh(acc) && acc.history == events[..i] && shown == Texts(events[..i])
    {
      var text := acc.Process(events[i]);
      assert events[..i + 1] == events[..i] + [events[i]];
      TextsSnoc(events[..i], events[i]);
      if text.Some? {
        shown := shown + [text.value];
      }
      i := i + 1;
    }
    assert events[..i] == events;
    calls := acc.Finalize(parse);
  }

  /** The text chunks among the events, in order. */
  function Texts(events: seq<ToolEvent>): seq<string>
  {
    if events == [] then []
    else Texts(events[..|events| - 1]) + (if events[|events| - 1].Chunk? then [events[|events| - 1].text] else [])
  }

  lemma {:induction false} TextsSnoc(events: seq<ToolEvent>, e: ToolEvent)
    ensures Texts(events + [e]) == Texts(events) + (if e.Chunk? then [e.text] else [])
  {
    assert (events + [e])[..|events + [e]| - 1] == events;
  }

  function FinalCall(h: seq<ToolEvent>, i: nat, parse: string -> string): ToolCall
  {
    ToolCall(LastId(h, i), LastName(h, i), parse(Arguments(h, i)))
  }

  function Final(h: seq<ToolEvent>, parse: string -> string): seq<ToolCall>
  {
    seq(|StartOrder(h)|, k requires 0 <= k < |StartOrder(h)| => FinalCall(h, StartOrder(h)[k], parse))
  }

  // ---- Responses items ----

  datatype Item = Item(isCall: bool, id: Option<string>, callId: Option<string>, name: Option<string>, arguments: Option<string>)

  datatype ResponsesEvent =
    | ItemAdded(item: Item, itemId: Option<string>, outputIndex: Option<nat>)
    | ItemDone(item: Item, itemId: Option<string>, outputIndex: Option<nat>)
    | ArgumentsDelta(itemId: Option<string>, outputIndex: Option<nat>, fragment: Option<string>)
    | ArgumentsDone(itemId: Option<string>, outputIndex: Option<nat>)

  function OrElse<T>(a: Option<T>, b: Option<T>): Option<T>
  {
    if a.Some? then a else b
  }

  function UnwrapOr<T>(a: Option<T>, d: T): T
  {
    if a.Some? then a.value else d
  }

  /** An index is announced at most once. */
  ghost predicate StartsOnce(out: seq<ToolEvent>)
  {
    forall p, q :: 0 <= p < q < |out| && out[p].Start? && out[q].Start? ==> out[p].index != out[q].index
  }

  /** Whole arguments are emitted at most once per index, and never behind a delta for it. */
  ghost predicate WholeOnce(out: seq<ToolEvent>)
  {
    forall p, q :: 0 <= p < q < |out| && out[p].Delta? && out[q].Delta? && out[q].whole ==> out[p].index != out[q].index
  }

  /** Whole arguments follow the announcement of their index. */
  ghost predicate WholeAnnounced(out: seq<ToolEvent>)
  {
    forall q :: 0 <= q < |out| && out[q].Delta? && out[q].whole ==> StartedIn(out, out[q].index)
  }

  predicate ArguedIn(out: seq<ToolEvent>, i: nat)
  {
    exists k :: 0 <= k < |out| && out[k].Delta? && out[k].index == i
  }

  lemma {:induction false} ArguedSnoc(h: seq<ToolEvent>, e: ToolEvent, i: nat)
    ensures ArguedIn(h + [e], i) <==> ArguedIn(h, i) || (e.Delta? && e.index == i)
  {
    if ArguedIn(h, i) {
      var k :| 0 <= k < |h| && h[k].Delta? && h[k].index == i;
      assert (h + [e])[k] == h[k];
    }
    if e.Delta? && e.index == i {
      assert (h + [e])[|h|] == e;
    }
  }

  /** The events so far and those an item adds: its announcement if it is the first, and its whole arguments if there were none. */
  function WithItem(h: seq<ToolEvent>, i: nat, item: Item): seq<ToolEvent>
  {
    h + (if StartedIn(h, i) then [] else [Start(i, UnwrapOr(OrElse(item.callId, item.id), ""), UnwrapOr(item.name, ""))])
    + (if !ArguedIn(h, i) && item.arguments.Some? && item.arguments.value != "" then [Delta(i, item.arguments.value, true)] else [])
  }

  class ResponsesReader {
    var itemIndices: map<string, nat>
    var started: set<nat>
    var argued: set<nat>
    var next: nat
    var out: seq<ToolEvent>

    ghost predicate Valid()
      reads this
    {
      && (forall i :: i in started <==> StartedIn(out, i)) && (forall i :: i in argued <==> ArguedIn(out, i))
      && StartsOnce(out) && WholeOnce(out) && WholeAnnounced(out)
    }

    constructor ()
      ensures Valid() && out == [] && itemIndices == map[] && next == 0
    {
      itemIndices, started, argued, next, out := map[], {}, {}, 0, [];
    }

    /** The index of an item: remembered by its id, or the one the event states, or the next free one. */
    function IndexOf(item: Item, itemId: Option<string>, outputIndex: Option<nat>): nat
      reads this
    {
      var id := UnwrapOr(OrElse(item.id, itemId), "responses-tool-" + Decimal(next));
      if id in itemIndices then itemIndices[id] else if outputIndex.Some? then outputIndex.value % U32 else next
    }

    /** responses_tool_index: the index of an item, remembered by its id; indices are 32 bits wide. */
    method ToolIndex(item: Item, itemId: Option<string>, outputIndex: Option<nat>) returns (index: nat)
      requires Valid()
      modifies this`itemIndices, this`next
      ensures Valid() && out == old(out)
      ensures index == old(IndexOf(item, itemId, outputIndex))
      ensures forall id :: id in old(itemIndices) ==> id in itemIndices && itemIndices[id] == old(itemIndices[id])
      ensures var id := OrElse(item.id, itemId); id.Some? ==> id.value in itemIndices && itemIndices[id.value] == index
    {
      var id := UnwrapOr(OrElse(item.id, itemId), "responses-tool-" + Decimal(next));
      if id in itemIndices {
        return itemIndices[id];
      }
      index := if outputIndex.Some? then outputIndex.value % U32 else next;
      next := if (index + 1) % U32 > next then (index + 1) % U32 else next;
      itemIndices := itemIndices[id := index];
    }

    /** An event handed on, with the bookkeeping that goes with it. */
    method Emit(e: ToolEvent)
      requires Valid()
      requires e.Start? ==> e.index !in started
      requires e.Delta? && e.whole ==> e.index !in argued && e.index in started
      modifies this`out, this`started, this`argued
      ensures Valid() && out == old(out) + [e]
      ensures started == old(started) + (if e.Start? then {e.index} else {}) && argued == old(argued) + (if e.Delta? then {e.index} else {})
    {
      if e.Start? {
        started := started + {e.index};
      }
      if e.Delta? {
        argued := argued + {e.index};
      }
      EmitKeeps(out, e);
      out := out + [e];
    }

    /** emit_responses_function_call_item. */
    method EmitItem(item: Item, itemId: Option<string>, outputIndex: Option<nat>) returns (index: Option<nat>)
      requires Valid()
      modifies this
      ensures Valid() && (index.Some? <==> item.isCall)
      ensures old(out) <= out && (!item.isCall ==> out == old(out))
      ensures index.Some? ==> StartedIn(out, index.value) && index.value == old(IndexOf(item, itemId, outputIndex))
      ensures index.Some? ==> out == WithItem(old(out), index.value, item)
    {
      if !item.isCall {
        return None;
      }
      var i := ToolIndex(item, itemId, outputIndex);
      if i !in started {
        Emit(Start(i, UnwrapOr(OrElse(item.callId, item.id), ""), UnwrapOr(item.name, "")));
      }
      if i !in argued && item.arguments.Some? && item.arguments.value != "" {
        Emit(Delta(i, item.arguments.value, true));
      }
      index := Some(i);
    }

    function Resolve(itemId: Option<string>, outputIndex: Option<nat>): nat
      reads this
    {
      if itemId.Some? && itemId.value in itemIndices then itemIndices[itemId.value]
      else if outputIndex.Some? then outputIndex.value % U32 else 0
    }

    /** One event of the stream: whatever comes, each index starts once and gets whole arguments at most once, never behind a delta. */
    method Handle(e: ResponsesEvent)
      requires Valid()
      modifies this
      ensures Valid() && old(out) <= out
      ensures e.ItemAdded? && e.item.isCall ==> out == WithItem(old(out), old(IndexOf(e.item, e.itemId, e.outputIndex)), e.item)
      ensures e.ItemDone? && e.item.isCall ==>
                var i := old(IndexOf(e.item, e.itemId, e.outputIndex)); out == WithItem(old(out), i, e.item) + [Complete(i)]
      ensures e.ArgumentsDelta? && e.fragment.Some? ==> out == old(out) + [Delta(old(Resolve(e.itemId, e.outputIndex)), e.fragment.value, false)]
      ensures e.ArgumentsDone? ==> out == old(out) + [Complete(old(Resolve(e.itemId, e.outputIndex)))]
      ensures e.ArgumentsDelta? || e.ArgumentsDone? ==> itemIndices == old(itemIndices) && next == old(next)
    {
      match e
      case ItemAdded(item, itemId, outputIndex) => var _ := EmitItem(item, itemId, outputIndex);
      case ItemDone(item, itemId, outputIndex) =>
        var index := EmitItem(item, itemId, outputIndex);
        if index.Some? {
          Emit(Complete(index.value));
        }
      case ArgumentsDelta(itemId, outputIndex, fragment) =>
        if fragment.Some? {
          Emit(Delta(Resolve(itemId, outputIndex), fragment.value, false));
        }
      case ArgumentsDone(itemId, outputIndex) => Emit(Complete(Resolve(itemId, outputIndex)));
    }
  }

  lemma {:induction false} EmitKeeps(out: seq<ToolEvent>, e: ToolEvent)
    requires StartsOnce(out) && WholeOnce(out) && WholeAnnounced(out)
    requires e.Start? ==> !StartedIn(out, e.index)
    requires e.Delta? && e.whole ==> !ArguedIn(out, e.index) && StartedIn(out, e.index)
    ensures StartsOnce(out + [e]) && WholeOnce(out + [e]) && WholeAnnounced(out + [e])
    ensures forall i :: StartedIn(out + [e], i) <==> StartedIn(out, i) || (e.Start? && e.index == i)
    ensures forall i :: ArguedIn(out + [e], i) <==> ArguedIn(out, i) || (e.Delta? && e.index == i)
  {
    forall i ensures StartedIn(out + [e], i) <==> StartedIn(out, i) || (e.Start? && e.index == i) {
      StartedSnoc(out, e, i);
    }
    forall i ensures ArguedIn(out + [e], i) <==> ArguedIn(out, i) || (e.Delta? && e.index == i) {
      ArguedSnoc(out, e, i);
    }
  }
}
