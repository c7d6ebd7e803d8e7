/** Conversations in the providers' own form: Claude content blocks and Gemini parts. */
module ProviderMessages {
  import opened Common
  import opened Conversation

  // ---- Grouping tool results, whatever a message is made of ----

  datatype Group<B> = Group(role: Role, blocks: seq<B>)

  /** How a provider writes one message, and the role it gives a message that is not a tool result. */
  datatype Form<!B> = Form(blocks: Message -> seq<B>, role: Message -> Role)

  /** Collected tool results become one user message. */
  function Flush<B>(pending: seq<B>): seq<Group<B>>
  {
    if pending == [] then [] else [Group(User, pending)]
  }

  /** The rest of the conversation when some tool results are waiting to be flushed. */
  function Grouping<B>(f: Form<B>, ms: seq<Message>, pending: seq<B>): seq<Group<B>>
    decreases |ms|
  {
    if ms == [] then Flush(pending)
    else if ms[0].role == Tool then Grouping(f, ms[1..], pending + f.blocks(ms[0]))
    else Flush(pending) + [Group(f.role(ms[0]), f.blocks(ms[0]))] + Grouping(f, ms[1..], [])
  }

  lemma {:induction false} GroupingEnd<B>(f: Form<B>, pending: seq<B>)
    ensures Grouping(f, [], pending) == Flush(pending)
  {
  }

  /** One message further: what has been written so far plus the grouping of the rest stays the same. */
  lemma {:induction false} GroupingStep<B>(f: Form<B>, out: seq<Group<B>>, ms: seq<Message>, i: nat, pending: seq<B>)
    requires i < |ms|
    ensures var m := ms[i];
            out + Grouping(f, ms[i..], pending)
            == if m.role == Tool then out + Grouping(f, ms[i + 1..], pending + f.blocks(m))
               else out + Flush(pending) + [Group(f.role(m), f.blocks(m))] + Grouping(f, ms[i + 1..], [])
  {
    assert ms[i..][1..] == ms[i + 1..] && ms[i..][0] == ms[i];
  }

  function Tagged<B>(role: Role, blocks: seq<B>): seq<(Role, B)>
  {
    seq(|blocks|, i requires 0 <= i < |blocks| => (role, blocks[i]))
  }

  /** The conversation as one sequence of blocks with the roles they are sent under. */
  function Flat<B>(f: Form<B>, ms: seq<Message>): seq<(Role, B)>
  {
    if ms == [] then [] else Tagged(if ms[0].role == Tool then User else f.role(ms[0]), f.blocks(ms[0])) + Flat(f, ms[1..])
  }

  function Flatten<B>(gs: seq<Group<B>>): seq<(Role, B)>
  {
    if gs == [] then [] else Tagged(gs[0].role, gs[0].blocks) + Flatten(gs[1..])
  }

  lemma {:induction false} FlattenConcat<B>(a: seq<Group<B>>, b: seq<Group<B>>)
    ensures Flatten(a + b) == Flatten(a) + Flatten(b)
  {
    if a == [] {
      assert a + b == b;
    } else {
      assert (a + b)[1..] == a[1..] + b;
      FlattenConcat(a[1..], b);
    }
  }

  lemma {:induction false} FlattenOne<B>(g: Group<B>)
    ensures Flatten([g]) == Tagged(g.role, g.blocks)
  {
    assert [g][1..] == [];
  }

  lemma {:induction false} FlattenFlush<B>(pending: seq<B>)
    ensures Flatten(Flush(pending)) == Tagged(User, pending)
  {
    if pending != [] {
      FlattenOne(Group(User, pending));
    }
  }

  /** Nothing is lost and nothing changes place: the blocks of the grouped messages are the conversation's own. */
  lemma {:induction false} GroupingLossless<B>(f: Form<B>, ms: seq<Message>, pending: seq<B>)
    ensures Flatten(Grouping(f, ms, pending)) == Tagged(User, pending) + Flat(f, ms)
    decreases |ms|
  {
    hide Flatten, Flush, Tagged;
    FlattenFlush(pending);
    if ms != [] {
      var own := f.blocks(ms[0]);
      if ms[0].role == Tool {
        GroupingLossless(f, ms[1..], pending + own);
        TaggedConcat(User, pending, own);
      } else {
        GroupingLossless(f, ms[1..], []);
        TaggedNothing<B>(User);
        var g := Group(f.role(ms[0]), own);
        FlattenConcat(Flush(pending) + [g], Grouping(f, ms[1..], []));
        FlattenConcat(Flush(pending), [g]);
        FlattenOne(g);
      }
    }
  }

  lemma {:induction false} TaggedConcat<B>(role: Role, a: seq<B>, b: seq<B>)
    ensures Tagged(role, a + b) == Tagged(role, a) + Tagged(role, b)
  {
  }

  lemma {:induction false} TaggedNothing<B>(role: Role)
    ensures Tagged<B>(role, []) == []
  {
  }

  function Results<B>(f: Form<B>, ms: seq<Message>): seq<B>
  {
    if ms == [] then [] else f.blocks(ms[0]) + Results(f, ms[1..])
  }

  /** An exchange by itself: its message, and the results of its calls in one message. */
  function ExchangeGroups<B>(f: Form<B>, ex: seq<Message>): seq<Group<B>>
    requires ex != []
  {
    [Group(f.role(ex[0]), f.blocks(ex[0]))] + Flush(Results(f, ex[1..]))
  }

  lemma {:induction false} GroupTools<B>(f: Form<B>, tools: seq<Message>, rest: seq<Message>, pending: seq<B>)
    requires (forall k :: 0 <= k < |tools| ==> tools[k].role == Tool) && (rest != [] ==> rest[0].role != Tool)
    ensures Grouping(f, tools + rest, pending) == Flush(pending + Results(f, tools)) + Grouping(f, rest, [])
    decreases |tools|
  {
    if tools == [] {
      assert tools + rest == rest && pending + Results(f, tools) == pending;
      if rest != [] {
        GroupPlain(f, rest);
        assert Flush(pending) + ([Group(f.role(rest[0]), f.blocks(rest[0]))] + Grouping(f, rest[1..], []))
            == Flush(pending) + [Group(f.role(rest[0]), f.blocks(rest[0]))] + Grouping(f, rest[1..], []);
      }
    } else {
      assert (tools + rest)[1..] == tools[1..] + rest;
      GroupTools(f, tools[1..], rest, pending + f.blocks(tools[0]));
      assert pending + f.blocks(tools[0]) + Results(f, tools[1..]) == pending + Results(f, tools);
    }
  }

  lemma {:induction false} GroupPlain<B>(f: Form<B>, ms: seq<Message>)
    requires ms != [] && ms[0].role != Tool
    ensures Grouping(f, ms, []) == [Group(f.role(ms[0]), f.blocks(ms[0]))] + Grouping(f, ms[1..], [])
  {
    var own := [Group(f.role(ms[0]), f.blocks(ms[0]))];
    assert Flush<B>([]) + own == own;
  }

  lemma {:induction false} ExchangeTools(ex: seq<Message>)
    requires Exchange(ex)
    ensures ex != [] && ex[0].role != Tool && forall k :: 0 <= k < |ex[1..]| ==> ex[1..][k].role == Tool
  {
    InExchange(ex, 0);
    hide Exchange;
    forall k | 0 <= k < |ex[1..]| ensures ex[1..][k].role == Tool {
      InExchange(ex, k + 1);
    }
  }

  lemma {:induction false} JoinParts(ms: seq<Message>, n: nat)
    requires 0 < n <= |ms|
    ensures ms[1..] == ms[..n][1..] + ms[n..] && ms[..n][0] == ms[0]
  {
  }

  /** A paired conversation is converted exchange by exchange. */
  lemma {:induction false} GroupExchange<B>(f: Form<B>, ms: seq<Message>)
    requires Paired(ms) && ms != []
    ensures var n := Span(ms[0]); n <= |ms| && Grouping(f, ms, []) == ExchangeGroups(f, ms[..n]) + Grouping(f, ms[n..], [])
  {
    hide Paired, Exchange, Grouping, Results, Flush;
    PairedHead(ms);
    var n := Span(ms[0]);
    var ex, rest := ms[..n], ms[n..];
    ExchangeTools(ex);
    if rest != [] {
      HeadShape(rest);
    }
    JoinParts(ms, n);
    GroupTools(f, ex[1..], rest, []);
    assert [] + Results(f, ex[1..]) == Results(f, ex[1..]);
    GroupPlain(f, ms);
  }

  // ---- Calls and answers by a key: the id for Claude, the function name for Gemini ----

  /** What a block asks for or answers, if anything. */
  datatype Keys<!B> = Keys(asks: B -> Option<string>, answers: B -> Option<string>)

  function Asked<B>(k: Keys<B>, blocks: seq<B>): seq<string>
  {
    if blocks == [] then [] else (if k.asks(blocks[0]).Some? then [k.asks(blocks[0]).value] else []) + Asked(k, blocks[1..])
  }

  predicate HasAnswer<B>(k: Keys<B>, g: Group<B>)
  {
    exists i :: 0 <= i < |g.blocks| && k.answers(g.blocks[i]).Some?
  }

  /** A user message that answers exactly these calls, in order. */
  predicate Answers<B>(k: Keys<B>, g: Group<B>, asked: seq<string>)
  {
    g.role == User && |g.blocks| == |asked| && forall i :: 0 <= i < |asked| ==> k.answers(g.blocks[i]) == Some(asked[i])
  }

  predicate AnsweredAt<B>(k: Keys<B>, gs: seq<Group<B>>, j: int, asked: seq<string>)
  {
    0 <= j < |gs| && Answers(k, gs[j], asked)
  }

  predicate AskedAt<B>(k: Keys<B>, gs: seq<Group<B>>, j: int)
  {
    0 <= j < |gs| && Asked(k, gs[j].blocks) != []
  }

  /** Every message with calls is followed by one message with their answers, and answers stand nowhere else. */
  ghost predicate Grouped<B>(k: Keys<B>, gs: seq<Group<B>>)
  {
    && (forall j :: 0 <= j < |gs| && Asked(k, gs[j].blocks) != [] ==> AnsweredAt(k, gs, j + 1, Asked(k, gs[j].blocks)))
    && (forall j :: 0 <= j < |gs| && HasAnswer(k, gs[j]) ==> AskedAt(k, gs, j - 1))
  }

  lemma {:induction false} GroupedConcat<B>(k: Keys<B>, a: seq<Group<B>>, b: seq<Group<B>>)
    requires Grouped(k, a) && Grouped(k, b)
    ensures Grouped(k, a + b)
  {
    hide Asked, Answers, HasAnswer;
    var gs := a + b;
    forall j | 0 <= j < |gs| && Asked(k, gs[j].blocks) != [] ensures AnsweredAt(k, gs, j + 1, Asked(k, gs[j].blocks)) {
      if j < |a| {
        assert AnsweredAt(k, a, j + 1, Asked(k, a[j].blocks));
      } else {
        assert AnsweredAt(k, b, j - |a| + 1, Asked(k, b[j - |a|].blocks));
      }
    }
    forall j | 0 <= j < |gs| && HasAnswer(k, gs[j]) ensures AskedAt(k, gs, j - 1) {
      if j < |a| {
        assert AskedAt(k, a, j - 1);
      } else {
        assert AskedAt(k, b, j - |a| - 1);
      }
    }
  }

  /** How calls are told apart: the key a call is asked under, and the calls whose ids lead back to it. */
  datatype Naming = Naming(key: ToolCall -> string, ok: ToolCall -> bool)

  function KeysOf(n: Naming, calls: seq<ToolCall>): seq<string>
  {
    if calls == [] then [] else [n.key(calls[0])] + KeysOf(n, calls[1..])
  }

  /** A form that writes every call once, in order, and answers a call under the key it was asked under. */
  ghost predicate Faithful<B>(f: Form<B>, k: Keys<B>, n: Naming)
  {
    && (forall m: Message :: m.role != Tool ==> Asked(k, f.blocks(m)) == (if IsCaller(m) then KeysOf(n, m.calls) else []) && !HasAnswer(k, Group(m.role, f.blocks(m))))
    && (forall m: Message :: m.role == Tool ==> |f.blocks(m)| == 1 && k.asks(f.blocks(m)[0]).None?)
    && (forall m: Message, c: ToolCall :: m.role == Tool && m.callId == Some(c.id) && n.ok(c) ==> |f.blocks(m)| == 1 && k.answers(f.blocks(m)[0]) == Some(n.key(c)))
  }

  ghost predicate Named(n: Naming, ms: seq<Message>)
  {
    forall i, j :: 0 <= i < |ms| && 0 <= j < |ms[i].calls| ==> n.ok(ms[i].calls[j])
  }

  lemma {:induction false} KeysAt(n: Naming, calls: seq<ToolCall>, i: nat)
    requires i < |calls|
    ensures |KeysOf(n, calls)| == |calls| && KeysOf(n, calls)[i] == n.key(calls[i])
    decreases |calls|
  {
    if |calls| > 1 {
      KeysAt(n, calls[1..], if i > 0 then i - 1 else 0);
    }
  }

  lemma {:induction false} ResultsAt<B>(f: Form<B>, k: Keys<B>, n: Naming, tools: seq<Message>)
    requires Faithful(f, k, n) && forall i :: 0 <= i < |tools| ==> tools[i].role == Tool
    ensures |Results(f, tools)| == |tools| && Asked(k, Results(f, tools)) == []
    ensures forall i :: 0 <= i < |tools| ==> [Results(f, tools)[i]] == f.blocks(tools[i])
    decreases |tools|
  {
    hide HasAnswer;
    if tools != [] {
      ResultsAt(f, k, n, tools[1..]);
      var b := f.blocks(tools[0]);
      assert Results(f, tools) == b + Results(f, tools[1..]);
      assert Results(f, tools)[1..] == Results(f, tools[1..]) && [b[0]] == b;
    }
  }

  /** The results of an exchange answer its calls, key by key. */
  lemma {:induction false} ResultsAnswer<B>(f: Form<B>, k: Keys<B>, n: Naming, ex: seq<Message>)
    requires Faithful(f, k, n) && Exchange(ex) && IsCaller(ex[0]) && Named(n, ex)
    ensures Answers(k, Group(User, Results(f, ex[1..])), KeysOf(n, ex[0].calls)) && Asked(k, Results(f, ex[1..])) == []
  {
    var tools, calls := ex[1..], ex[0].calls;
    ExchangeTools(ex);
    ResultsAt(f, k, n, tools);
    assert |tools| == |calls|;
    KeysAt(n, calls, 0);
    hide Asked, Results, HasAnswer, KeysOf, Exchange;
    forall i | 0 <= i < |calls| ensures k.answers(Results(f, tools)[i]) == Some(KeysOf(n, calls)[i]) {
      KeysAt(n, calls, i);
      InExchange(ex, i + 1);
      assert tools[i] == ex[i + 1] && n.ok(calls[i]);
      assert [Results(f, tools)[i]] == f.blocks(tools[i]);
    }
  }

  lemma {:induction false} ExchangeGrouped<B>(f: Form<B>, k: Keys<B>, n: Naming, ex: seq<Message>)
    requires Faithful(f, k, n) && Exchange(ex) && Named(n, ex)
    ensures Grouped(k, ExchangeGroups(f, ex))
  {
    ExchangeTools(ex);
    var g := Group(f.role(ex[0]), f.blocks(ex[0]));
    if IsCaller(ex[0]) {
      ResultsAnswer(f, k, n, ex);
      KeysAt(n, ex[0].calls, 0);
      hide Asked, Results, KeysOf, Exchange;
      assert ExchangeGroups(f, ex) == [g, Group(User, Results(f, ex[1..]))];
      PairGrouped(k, g, Group(User, Results(f, ex[1..])), KeysOf(n, ex[0].calls));
    } else {
      assert ex[1..] == [] && ExchangeGroups(f, ex) == [g];
      LoneGrouped(k, g);
    }
  }

  lemma {:induction false} PairGrouped<B>(k: Keys<B>, a: Group<B>, b: Group<B>, asked: seq<string>)
    requires Asked(k, a.blocks) == asked != [] && Answers(k, b, asked) && Asked(k, b.blocks) == []
    requires forall i :: 0 <= i < |a.blocks| ==> k.answers(a.blocks[i]).None?
    ensures Grouped(k, [a, b])
  {
    hide Asked, Answers;
    assert AnsweredAt(k, [a, b], 1, asked);
    assert AskedAt(k, [a, b], 0);
  }

  lemma {:induction false} LoneGrouped<B>(k: Keys<B>, a: Group<B>)
    requires Asked(k, a.blocks) == [] && forall i :: 0 <= i < |a.blocks| ==> k.answers(a.blocks[i]).None?
    ensures Grouped(k, [a])
  {
    hide Asked;
  }

  /** In a converted paired conversation every message with calls is followed by one with their answers, in call order. */
  lemma {:induction false} PairedGrouped<B>(f: Form<B>, k: Keys<B>, n: Naming, ms: seq<Message>)
    requires Faithful(f, k, n) && Paired(ms) && Named(n, ms)
    ensures Grouped(k, Grouping(f, ms, []))
    decreases |ms|
  {
    hide Exchange, Paired, Faithful, Grouped, ExchangeGroups, Span;
    if ms == [] {
      NothingGrouped(f, k);
    } else {
      PairedHead(ms);
      var w := Span(ms[0]);
      assert w > 0 by { SpanPositive(ms[0]); }
      GroupExchange(f, ms);
      NamedParts(n, ms, w);
      ExchangeGrouped(f, k, n, ms[..w]);
      PairedGrouped(f, k, n, ms[w..]);
      assert ms[..w] != [];
      GroupedConcat(k, ExchangeGroups(f, ms[..w]), Grouping(f, ms[w..], []));
    }
  }

  lemma {:induction false} SpanPositive(m: Message)
    ensures Span(m) > 0
  {
  }

  lemma {:induction false} NothingGrouped<B>(f: Form<B>, k: Keys<B>)
    ensures Grouped(k, Grouping(f, [], []))
  {
  }

  lemma {:induction false} NamedParts(n: Naming, ms: seq<Message>, w: nat)
    requires Named(n, ms) && w <= |ms|
    ensures Named(n, ms[..w]) && Named(n, ms[w..])
  {
  }
}
