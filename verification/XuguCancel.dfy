/** What a cancel sends: exactly one kill of the running statement's own session, and nothing when none runs. */
module XuguCancel {
  import opened Common
  import opened XuguRuntime
  import opened XuguLocks
  import opened XuguInvariants
  import opened XuguSteps
  import opened XuguLinks
  import opened XuguRequests
  import opened XuguRuns
  import opened XuguCrash

  /** A statement runs on the session's server connection. */
  predicate Running(sh: Shared, s: Sref)
  {
    s in sh.heap && sh.heap[s].active && sh.heap[s].link.Some?
  }

  /** The session whose running statement the thread is about to interrupt: by a cancel, or before it disconnects. */
  function Interrupts(pc: PC): Option<Sref>
  {
    match pc
    case XKill(s) => Some(s)
    case VInAct(s, _) => Some(s)
    case CInAct(_, s) => Some(s)
    case RInAct(_, s) => Some(s)
    case _ => None
  }

  /** The kill an event owes: of the session's recorded target, reaching nobody else. */
  function Due(st: St, ev: Event): seq<Kill>
  {
    if ev.Step? && ev.t in st.threads then
      var s := Interrupts(st.threads[ev.t].pc);
      if s.Some? && Running(st.sh, s.value) then [Kill(s.value, st.sh.heap[s.value].link.value.target, {})] else []
    else []
  }

  /** What the events of a run owe, in order. */
  function AllDue(st: St, evs: seq<Event>): seq<Kill>
  {
    if evs == [] then []
    else
      var before := evs[..|evs| - 1];
      AllDue(st, before) + (if RunEvents(st, before).Some? then Due(RunEvents(st, before).value, evs[|before|]) else [])
  }

  // ---- Which regions interrupt ----

  lemma {:induction false} OpenNeverInterrupts(sh: Shared, pc: PC, c: Choice)
    requires OpenBody(sh, pc, c).Some?
    ensures Interrupts(pc).None? && var e := OpenBody(sh, pc, c).value.effect; !e.SendKill? && !e.Disconnect? && !e.SetActive?
  {
  }

  lemma {:induction false} CloseInterrupts(sh: Shared, pc: PC, c: Choice)
    requires CloseBody(sh, pc, c).Some?
    ensures var e := CloseBody(sh, pc, c).value.effect;
            !e.SendKill? && !e.SetActive? && Interrupts(pc) == if e.Disconnect? then Some(e.s) else None
  {
  }

  lemma {:induction false} VisitInterrupts(sh: Shared, pc: PC, c: Choice)
    requires VisitBody(sh, pc, c).Some?
    ensures var e := VisitBody(sh, pc, c).value.effect;
            && Interrupts(pc) == (if e.Disconnect? || e.SendKill? then Some(e.s) else None)
            && (e.SendKill? <==> pc.XKill?) && (e.SetActive? <==> pc.UInAct?) && (pc.UInAct? ==> e == SetActive(pc.s, c.ok))
  {
    hide HandleOf, Lists, CloseEach;
  }

  /** A region interrupts a session exactly when it sends a cancel for it or disconnects it. */
  lemma {:induction false} BodyInterrupts(sh: Shared, pc: PC, c: Choice)
    requires Body(sh, pc, c).Some?
    ensures var e := Body(sh, pc, c).value.effect;
            && Interrupts(pc) == (if e.Disconnect? || e.SendKill? then Some(e.s) else None)
            && (e.SendKill? <==> pc.XKill?) && (e.SetActive? <==> pc.UInAct?) && (pc.UInAct? ==> e == SetActive(pc.s, c.ok))
  {
    hide OpenBody, VisitBody, CloseBody, Interrupts;
    OnlyVisitors(pc);
    if IsConnector(pc) {
      OpenNeverInterrupts(sh, pc, c);
    } else if IsVisitor(pc) {
      VisitInterrupts(sh, pc, c);
    } else {
      CloseInterrupts(sh, pc, c);
    }
  }

  lemma {:induction false} OnlyVisitors(pc: PC)
    ensures pc.XKill? || pc.UInAct? ==> IsVisitor(pc) && !IsConnector(pc)
  {
  }

  lemma {:induction false} WaitersInterruptNothing(pc: PC)
    requires pc.Idle? || Wants(pc).Some?
    ensures Interrupts(pc).None? && !pc.UInAct?
  {
  }

  // ---- One event ----

  lemma {:induction false} EffectKills(sh: Shared, e: Effect)
    requires TargetInv(sh)
    ensures Apply(sh, e).kills
            == sh.kills + if (e.SendKill? || e.Disconnect?) && Running(sh, e.s) then [Kill(e.s, sh.heap[e.s].link.value.target, {})] else []
  {
    hide TargetInv, KillOf;
    if e.SendKill? || e.Disconnect? {
      KillsSafe(sh, e.s);
    }
  }

  /**
   Every event of every thread adds exactly the kill it owes: one of the session's own target when a thread cancels or
   disconnects a session on which a statement runs, and none otherwise.
   */
  lemma {:induction false} KillsExactly(st: St, ev: Event)
    requires TargetInv(st.sh) && Next(st, ev).Some?
    ensures Next(st, ev).value.sh.kills == st.sh.kills + Due(st, ev)
  {
    hide TargetInv, Body, Wants, Granted, Apply, Interrupts, Running, Protected;
    if ev.Step? {
      var pc := st.threads[ev.t].pc;
      if pc.Idle? || Wants(pc).Some? {
        WaitersInterruptNothing(pc);
      } else {
        BodyInterrupts(st.sh, pc, ev.c);
        EffectKills(st.sh, Body(st.sh, pc, ev.c).value.effect);
      }
    }
  }

  /** The cancels of a run are those its events owe: none too many, none missing, in order. */
  lemma {:induction false} KillsOfRun(live: set<Target>, evs: seq<Event>)
    requires RunEvents(Init(live), evs).Some?
    ensures RunEvents(Init(live), evs).value.sh.kills == AllDue(Init(live), evs)
    decreases |evs|
  {
    hide Next, Due, OwnInv, ConnInv, HoldInv, RefInv, HandleInv, TargetInv, SnapInv, RegInv, LockInv, KillInv;
    if evs != [] {
      var before := evs[..|evs| - 1];
      KillsOfRun(live, before);
      InvAlways(live, before);
      KillsExactly(RunEvents(Init(live), before).value, evs[|before|]);
    }
  }

  /** In every reachable state the step of a cancel sends the kill of a running statement, and nothing for an idle session. */
  lemma {:induction false} CancelStep(live: set<Target>, evs: seq<Event>, t: Tid, s: Sref, c: Choice)
    requires RunEvents(Init(live), evs).Some?
    requires var st := RunEvents(Init(live), evs).value; !st.sh.crashed && t in st.threads && st.threads[t].pc == XKill(s)
    ensures var st := RunEvents(Init(live), evs).value;
            var sent := if Running(st.sh, s) then [Kill(s, st.sh.heap[s].link.value.target, {})] else [];
            Next(st, Step(t, c)) == Some(St(st.threads[t := Thread(Idle, st.threads[t].todo)], st.locks, st.sh.(kills := st.sh.kills + sent)))
  {
    InvAlways(live, evs);
    var st := RunEvents(Init(live), evs).value;
    hide RunEvents, Init, LockInv, OwnInv, ConnInv, HoldInv, RefInv, HandleInv, TargetInv, SnapInv, KillInv, RegInv, Running;
    CancelBody(st.sh, s, c);
    EffectKills(st.sh, SendKill(s));
    SendOnly(st.sh, s);
    hide Wants, Body, Apply;
    assert st.locks - {} == st.locks;
    assert [] + st.threads[t].todo == st.threads[t].todo;
  }

  lemma {:induction false} CancelBody(sh: Shared, s: Sref, c: Choice)
    ensures Wants(XKill(s)).None? && Body(sh, XKill(s), c) == Some(Move(SendKill(s), Idle, {}, []))
  {
  }

  lemma {:induction false} SendOnly(sh: Shared, s: Sref)
    ensures Apply(sh, SendKill(s)) == sh.(kills := Apply(sh, SendKill(s)).kills)
  {
    hide KillOf;
  }

  // ---- When a statement runs ----

  /** A session is busy from the region that records its operation to the one that clears it, or to its disconnect. */
  lemma {:induction false} ActiveExactly(st: St, ev: Event, s: Sref)
    requires Inv(st) && Next(st, ev).Some?
    ensures var sh' := Next(st, ev).value.sh;
            (s in sh'.heap && sh'.heap[s].active)
            <==> if ev.Step? && st.threads[ev.t].pc == UInAct(s) then ev.c.ok
                 else if ev.Step? && !st.threads[ev.t].pc.XKill? && Interrupts(st.threads[ev.t].pc) == Some(s) && IsLinked(st.sh, s) then false
                 else s in st.sh.heap && st.sh.heap[s].active
  {
    hide LockInv, OwnInv, ConnInv, HoldInv, RefInv, HandleInv, TargetInv, SnapInv, KillInv, RegInv, Body, Wants, Granted, Apply, Interrupts, Protected;
    if ev.Step? {
      var pc := st.threads[ev.t].pc;
      if pc.Idle? || Wants(pc).Some? {
        WaitersInterruptNothing(pc);
      } else {
        BodyInterrupts(st.sh, pc, ev.c);
        if pc.UInAct? {
          UserKnown(st, ev.t);
        }
        EffectActive(st.sh, Body(st.sh, pc, ev.c).value.effect, s);
      }
    }
  }

  lemma {:induction false} UserKnown(st: St, t: Tid)
    requires Inv(st) && t in st.threads && st.threads[t].pc.UInAct?
    ensures st.threads[t].pc.s in st.sh.heap
  {
    assert VisitOk(st.sh, st.threads[t].pc);
  }

  lemma {:induction false} EffectActive(sh: Shared, e: Effect, s: Sref)
    requires RegInv(sh) && (e.SetActive? ==> e.s in sh.heap)
    ensures (s in Apply(sh, e).heap && Apply(sh, e).heap[s].active)
            <==> if e.SetActive? && e.s == s then e.active
                 else if e == Disconnect(s) && IsLinked(sh, s) then false
                 else s in sh.heap && sh.heap[s].active
  {
    hide KillOf;
    assert sh.nextSref !in sh.heap;
    hide RegInv;
  }

  // ---- Requests that no other thread interrupts ----

  lemma {:induction false} LookupFor(sh: Shared, id: Id, op: Op, c: Choice)
    requires id in sh.registry
    ensures StartOf(Lookup(id, op)) == LWant(id, op) && Wants(LWant(id, op)) == Some(RMu) && Granted(sh, LWant(id, op)) == LIn(id, op)
    ensures Wants(LIn(id, op)).None?
    ensures op == Cancel ==> Body(sh, LIn(id, op), c) == Some(Move(Nothing, XWantAct(sh.registry[id]), {RMu}, []))
    ensures op == Use ==> Body(sh, LIn(id, op), c) == Some(Move(Nothing, UWantSess(sh.registry[id]), {RMu}, []))
  {
    hide HandleOf, Lists, CloseEach;
  }

  lemma {:induction false} CancelGrants(sh: Shared, s: Sref, c: Choice)
    ensures Wants(XWantAct(s)) == Some(ActiveMu(s)) && Granted(sh, XWantAct(s)) == XInAct(s) && Wants(XInAct(s)).None?
    ensures Body(sh, XInAct(s), c) == Some(Move(Nothing, XKill(s), {ActiveMu(s)}, []))
  {
    hide HandleOf, Lists, CloseEach;
  }

  lemma {:induction false} Relock(locks: map<Lock, Tid>, l: Lock, t: Tid)
    requires l !in locks
    ensures locks[l := t] - {l} == locks
  {
  }

  lemma {:induction false} ReachesCancel(st: St, t: Tid, id: Id, todo: seq<Cmd>, locks: map<Lock, Tid>, sh: Shared, c: Choice)
    requires !sh.crashed && id in sh.registry && RMu !in locks && ActiveMu(sh.registry[id]) !in locks
    ensures Goes(Put(st, t, Thread(Idle, [Lookup(id, Cancel)] + todo), locks, sh), t, c, 5,
                 Put(st, t, Thread(XKill(sh.registry[id]), todo), locks, sh))
  {
    hide Next, Wants, Granted, Body, Put, Goes, Apply, StartOf;
    var s0, s := Put(st, t, Thread(Idle, [Lookup(id, Cancel)] + todo), locks, sh), sh.registry[id];
    LookupFor(sh, id, Cancel, c);
    CancelGrants(sh, s, c);
    NothingChanges(sh);
    GoesNowhere(s0, t, c);
    IdleStep(st, t, c, Lookup(id, Cancel), todo, locks, sh);
    GoesOn(s0, t, c, 0, s0, Put(st, t, Thread(LWant(id, Cancel), todo), locks, sh));
    Relock(locks, RMu, t);
    ThenGrant(s0, 1, st, t, c, LWant(id, Cancel), todo, locks, sh, LIn(id, Cancel), RMu, locks[RMu := t]);
    ThenBody(s0, 2, st, t, c, LIn(id, Cancel), todo, locks[RMu := t], sh, Move(Nothing, XWantAct(s), {RMu}, []), locks, sh);
    Relock(locks, ActiveMu(s), t);
    ThenGrant(s0, 3, st, t, c, XWantAct(s), todo, locks, sh, XInAct(s), ActiveMu(s), locks[ActiveMu(s) := t]);
    ThenBody(s0, 4, st, t, c, XInAct(s), todo, locks[ActiveMu(s) := t], sh, Move(Nothing, XKill(s), {ActiveMu(s)}, []), locks, sh);
  }

  /** A cancel_session on its own: with a statement running it sends that one kill, without one it changes nothing. */
  lemma {:induction false} CancelGoes(st: St, t: Tid, id: Id, todo: seq<Cmd>, locks: map<Lock, Tid>, sh: Shared, c: Choice)
    requires !sh.crashed && id in sh.registry && RMu !in locks && ActiveMu(sh.registry[id]) !in locks && TargetInv(sh)
    ensures var s := sh.registry[id];
            var sent := if Running(sh, s) then [Kill(s, sh.heap[s].link.value.target, {})] else [];
            Goes(Put(st, t, Thread(Idle, [Lookup(id, Cancel)] + todo), locks, sh), t, c, 6,
                 Put(st, t, Thread(Idle, todo), locks, sh.(kills := sh.kills + sent)))
  {
    hide Next, Wants, Granted, Body, Put, Goes, Apply, StartOf, TargetInv, Running;
    var s := sh.registry[id];
    ReachesCancel(st, t, id, todo, locks, sh, c);
    CancelBody(sh, s, c);
    EffectKills(sh, SendKill(s));
    SendOnly(sh, s);
    assert locks - {} == locks;
    ThenBody(Put(st, t, Thread(Idle, [Lookup(id, Cancel)] + todo), locks, sh), 5, st, t, c, XKill(s), todo, locks, sh, Move(SendKill(s), Idle, {}, []), locks,
             Apply(sh, SendKill(s)));
  }

  /** The shared state while a statement runs on the session. */
  function UsedOn(sh: Shared, s: Sref): Shared
    requires s in sh.heap
  {
    sh.(heap := sh.heap[s := sh.heap[s].(active := true)])
  }

  lemma {:induction false} UseGrants(sh: Shared, s: Sref, c: Choice)
    ensures Wants(UWantSess(s)) == Some(SessMu(s)) && Granted(sh, UWantSess(s)) == UBusy(s) && Wants(UBusy(s)).None?
    ensures Wants(UWantAct(s)) == Some(ActiveMu(s)) && Granted(sh, UWantAct(s)) == UInAct(s) && Wants(UInAct(s)).None?
    ensures c.ok ==> Body(sh, UBusy(s), c) == Some(Move(Nothing, UWantAct(s), {}, []))
    ensures Body(sh, UInAct(s), c) == Some(Move(SetActive(s, c.ok), UBusy(s), {ActiveMu(s)}, []))
  {
    hide HandleOf, Lists, CloseEach;
  }

  lemma {:induction false} UseStarts(st: St, t: Tid, id: Id, todo: seq<Cmd>, sh: Shared, c: Choice)
    requires !sh.crashed && id in sh.registry
    ensures Goes(Put(st, t, Thread(Idle, [Lookup(id, Use)] + todo), map[], sh), t, c, 3, Put(st, t, Thread(UWantSess(sh.registry[id]), todo), map[], sh))
  {
    hide Next, Wants, Granted, Body, Put, Goes, Apply, StartOf;
    var s0, s := Put(st, t, Thread(Idle, [Lookup(id, Use)] + todo), map[], sh), sh.registry[id];
    LookupFor(sh, id, Use, c);
    NothingChanges(sh);
    assert map[RMu := t] - {RMu} == map[];
    StartsWith(st, t, c, Lookup(id, Use), todo, sh);
    ThenGrant(s0, 1, st, t, c, LWant(id, Use), todo, map[], sh, LIn(id, Use), RMu, map[RMu := t]);
    ThenBody(s0, 2, st, t, c, LIn(id, Use), todo, map[RMu := t], sh, Move(Nothing, UWantSess(s), {RMu}, []), map[], sh);
  }

  /** A query on its own, up to the statement that then runs with session.mu held. */
  lemma {:induction false} UseGoes(st: St, t: Tid, id: Id, todo: seq<Cmd>, sh: Shared, c: Choice)
    requires !sh.crashed && id in sh.registry && sh.registry[id] in sh.heap && c.ok
    ensures var s := sh.registry[id];
            Goes(Put(st, t, Thread(Idle, [Lookup(id, Use)] + todo), map[], sh), t, c, 7,
                 Put(st, t, Thread(UBusy(s), todo), map[SessMu(s) := t], UsedOn(sh, s)))
  {
    hide Next, Wants, Granted, Body, Put, Goes;
    var s0, s := Put(st, t, Thread(Idle, [Lookup(id, Use)] + todo), map[], sh), sh.registry[id];
    assert Apply(sh, SetActive(s, true)) == UsedOn(sh, s);
    hide Apply, UsedOn;
    UseStarts(st, t, id, todo, sh, c);
    UseGrants(sh, s, c);
    NothingChanges(sh);
    var one, act := map[SessMu(s) := t], map[SessMu(s) := t, ActiveMu(s) := t];
    assert one - {} == one && act - {ActiveMu(s)} == one;
    ThenGrant(s0, 3, st, t, c, UWantSess(s), todo, map[], sh, UBusy(s), SessMu(s), one);
    ThenBody(s0, 4, st, t, c, UBusy(s), todo, one, sh, Move(Nothing, UWantAct(s), {}, []), one, sh);
    ThenGrant(s0, 5, st, t, c, UWantAct(s), todo, one, sh, UInAct(s), ActiveMu(s), act);
    ThenBody(s0, 6, st, t, c, UInAct(s), todo, act, sh, Move(SetActive(s, true), UBusy(s), {ActiveMu(s)}, []), one, UsedOn(sh, s));
  }

  // ---- A run from the empty runtime ----

  /** One client opens a session, a second runs a statement on it, a third cancels it. */
  function CancelRun(id: Id, k: Key, good: Choice, c: Choice): seq<Event>
  {
    [Spawn(0, [Open(id, k)])] + Again(0, good, 14) + [Spawn(1, [Lookup(id, Use)])] + Again(1, good, 7)
    + [Spawn(2, [Lookup(id, Cancel)])] + Again(2, c, 6)
  }

  lemma {:induction false} SpawnIn(st: St, t: Tid, cmds: seq<Cmd>)
    requires !st.sh.crashed && t !in st.threads
    ensures RunEvents(st, [Spawn(t, cmds)]) == Some(Put(st, t, Thread(Idle, cmds), st.locks, st.sh))
  {
    assert [Spawn(t, cmds)][..0] == [];
    assert RunEvents(st, []) == Some(st);
  }

  lemma {:induction false} OpenedRun(live: set<Target>, id: Id, k: Key, good: Choice) returns (st: St)
    requires good.ok && good.target !in live
    ensures RunEvents(Init(live), [Spawn(0, [Open(id, k)])] + Again(0, good, 14)) == Some(st)
    ensures st.sh == OpenedOn(Init(live).sh, id, k, good.target) && st.locks == map[] && st.threads == map[0 := Thread(Idle, [])]
  {
    hide Put, Goes, RunEvents, Init, CanOpen, OpenedOn, Again;
    var init, sh, opens := Init(live), Init(live).sh, [Open(id, k)];
    assert opens == [Open(id, k)] + [];
    StartShared(live, id, k, good);
    SpawnRun(init, 0, opens);
    OpenGoes(init, 0, id, k, [], sh, good);
    st := Put(init, 0, Thread(Idle, []), map[], OpenedOn(sh, id, k, good.target));
    Then(init, [Spawn(0, opens)], 0, good, 14, Put(init, 0, Thread(Idle, opens), map[], sh), st);
    PutParts(init, 0, Thread(Idle, []), map[], OpenedOn(sh, id, k, good.target));
  }

  lemma {:induction false} BusyRun(live: set<Target>, id: Id, k: Key, good: Choice) returns (st: St)
    requires good.ok && good.target !in live
    ensures RunEvents(Init(live), [Spawn(0, [Open(id, k)])] + Again(0, good, 14) + [Spawn(1, [Lookup(id, Use)])] + Again(1, good, 7)) == Some(st)
    ensures var o, s := OpenedOn(Init(live).sh, id, k, good.target), Init(live).sh.nextSref;
            s in o.heap && st.sh == UsedOn(o, s) && st.locks == map[SessMu(s) := 1] && st.threads.Keys == {0, 1}
  {
    hide Put, Goes, RunEvents, Init, CanOpen, OpenedOn, Again, HandleOf, UsedOn;
    var init, s, uses := Init(live), Init(live).sh.nextSref, [Lookup(id, Use)];
    assert uses == [Lookup(id, Use)] + [];
    var o := OpenedOn(init.sh, id, k, good.target);
    StartShared(live, id, k, good);
    OpenedFacts(init.sh, id, k, good.target);
    var one := OpenedRun(live, id, k, good);
    var a := [Spawn(0, [Open(id, k)])] + Again(0, good, 14);
    SpawnIn(one, 1, uses);
    RunAppend(init, a, [Spawn(1, uses)]);
    UseGoes(one, 1, id, [], o, good);
    st := Put(one, 1, Thread(UBusy(s), []), map[SessMu(s) := 1], UsedOn(o, s));
    Then(init, a + [Spawn(1, uses)], 1, good, 7, Put(one, 1, Thread(Idle, uses), map[], o), st);
    PutParts(one, 1, Thread(UBusy(s), []), map[SessMu(s) := 1], UsedOn(o, s));
  }

  lemma {:induction false} BusyFacts(sh: Shared, id: Id, k: Key, target: Target)
    requires !sh.crashed && sh.kills == []
    ensures var o, s := OpenedOn(sh, id, k, target), sh.nextSref;
            s in o.heap && var u := UsedOn(o, s);
            !u.crashed && id in u.registry && u.registry[id] == s && Running(u, s) && u.heap[s].link.value.target == target && u.kills == []
  {
  }

  /** From the empty runtime: a cancel while a statement runs sends one kill, of the session's own connection, reaching nobody else. */
  lemma {:induction false} CancelInterrupts(live: set<Target>, id: Id, k: Key, good: Choice, c: Choice)
    requires good.ok && good.target !in live
    ensures var r := RunEvents(Init(live), CancelRun(id, k, good, c));
            r.Some? && r.value.sh.kills == [Kill(Init(live).sh.nextSref, good.target, {})]
  {
    var init := Init(live);
    assert init.sh.kills == [];
    hide Put, Goes, RunEvents, Init, OpenedOn, Again, UsedOn, Inv, Running;
    var s, cancels := init.sh.nextSref, [Lookup(id, Cancel)];
    assert cancels == [Lookup(id, Cancel)] + [];
    StartShared(live, id, k, good);
    BusyFacts(init.sh, id, k, good.target);
    var busy := BusyRun(live, id, k, good);
    var a := [Spawn(0, [Open(id, k)])] + Again(0, good, 14) + [Spawn(1, [Lookup(id, Use)])] + Again(1, good, 7);
    assert TargetInv(busy.sh) by { InvAlways(live, a); TargetsOf(busy); }
    SpawnIn(busy, 2, cancels);
    RunAppend(init, a, [Spawn(2, cancels)]);
    CancelGoes(busy, 2, id, [], busy.locks, busy.sh, c);
    var after := Put(busy, 2, Thread(Idle, []), busy.locks, busy.sh.(kills := [Kill(s, good.target, {})]));
    assert busy.sh.kills + [Kill(s, good.target, {})] == [Kill(s, good.target, {})];
    Then(init, a + [Spawn(2, cancels)], 2, c, 6, Put(busy, 2, Thread(Idle, cancels), busy.locks, busy.sh), after);
    PutShared(busy, 2, Thread(Idle, []), busy.locks, after.sh);
    PutParts(busy, 2, Thread(Idle, []), busy.locks, busy.sh.(kills := [Kill(s, good.target, {})]));
  }

  lemma {:induction false} TargetsOf(st: St)
    requires Inv(st)
    ensures TargetInv(st.sh)
  {
  }
}
