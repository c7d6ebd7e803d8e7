/** The nil control handle: when a validation crashes on it, and two runs from the empty runtime that do. */
module XuguCrash {
  import opened Common
  import opened XuguRuntime
  import opened XuguSteps
  import opened XuguRequests

  lemma {:induction false} CrashingBody(sh: Shared, pc: PC, c: Choice)
    requires Body(sh, pc, c).Some?
    ensures Body(sh, pc, c).value.effect.Crash? <==> pc.VSnap? && pc.had.None?
  {
    hide OpenBody, VisitBody, CloseBody;
    if IsConnector(pc) {
      OpenNeverCrashes(sh, pc, c);
    } else if IsVisitor(pc) {
      CrashingVisit(sh, pc, c);
    } else {
      CloseNeverCrashes(sh, pc, c);
    }
  }

  lemma {:induction false} OpenNeverCrashes(sh: Shared, pc: PC, c: Choice)
    requires OpenBody(sh, pc, c).Some?
    ensures !OpenBody(sh, pc, c).value.effect.Crash? && !pc.VSnap?
  {
  }

  lemma {:induction false} CloseNeverCrashes(sh: Shared, pc: PC, c: Choice)
    requires CloseBody(sh, pc, c).Some?
    ensures !CloseBody(sh, pc, c).value.effect.Crash? && !pc.VSnap?
  {
  }

  lemma {:induction false} CrashingVisit(sh: Shared, pc: PC, c: Choice)
    requires VisitBody(sh, pc, c).Some?
    ensures VisitBody(sh, pc, c).value.effect.Crash? <==> pc.VSnap? && pc.had.None?
  {
    hide HandleOf, Lists, CloseEach;
  }

  /** The only step that crashes is a reconnect that found no control handle to reconnect with. */
  lemma {:induction false} CrashesExactlyWithoutHandle(st: St, t: Tid, c: Choice)
    requires !st.sh.crashed && t in st.threads && ThreadStep(st, t, c).Some?
    ensures ThreadStep(st, t, c).value.sh.crashed <==> st.threads[t].pc.VSnap? && st.threads[t].pc.had.None?
  {
    var pc := st.threads[t].pc;
    if !pc.Idle? && Wants(pc).None? {
      CrashingBody(st.sh, pc, c);
    }
    hide KillOf, Body, Granted;
  }

  // ---- When an uninterrupted validation crashes ----

  /** Thread t steps alone, with these answers, until its request is finished, it cannot step, or the answers run out. */
  function Solo(st: St, t: Tid, cs: seq<Choice>): St
    decreases |cs|
  {
    if cs == [] || t !in st.threads || st.threads[t].pc.Idle? then st
    else match Next(st, Step(t, cs[0]))
      case None => st
      case Some(st') => Solo(st', t, cs[1..])
  }

  /** A validation of s that has found a control handle, or will find one. */
  predicate OnTrack(sh: Shared, pc: PC, s: Sref)
  {
    || ((pc == VWantSess(s) || pc == VCheck(s) || pc == VWantConnect(s)) && HandleOf(sh, s).Some?)
    || ((pc.VWantAct? || pc.VInAct? || pc.VSnap?) && pc.s == s && pc.had.Some?)
    || ((pc.VDial? || pc.VAfter? || pc.VDone?) && pc.s == s)
  }

  lemma {:induction false} TrackGrant(sh: Shared, pc: PC, s: Sref)
    requires OnTrack(sh, pc, s) && Wants(pc).Some?
    ensures OnTrack(sh, Granted(sh, pc), s)
  {
    hide HandleOf;
  }

  /** Past the point where the handle was read. */
  predicate Later(pc: PC, s: Sref)
  {
    || ((pc.VWantAct? || pc.VInAct? || pc.VSnap?) && pc.s == s && pc.had.Some?)
    || ((pc.VDial? || pc.VAfter? || pc.VDone?) && pc.s == s)
  }

  lemma {:induction false} TrackVisit(sh: Shared, pc: PC, s: Sref, c: Choice)
    requires (pc == VCheck(s) || Later(pc, s)) && VisitBody(sh, pc, c).Some?
    ensures var m := VisitBody(sh, pc, c).value;
            m.pc.Idle? || Later(m.pc, s) || (pc == VCheck(s) && m.effect == Nothing && m.pc == VWantConnect(s))
  {
    hide HandleOf, Lists, CloseEach;
  }

  lemma {:induction false} TrackKind(sh: Shared, pc: PC, s: Sref, c: Choice)
    requires OnTrack(sh, pc, s) && Wants(pc).None?
    ensures (pc == VCheck(s) || Later(pc, s)) && Body(sh, pc, c) == VisitBody(sh, pc, c)
  {
    hide HandleOf, VisitBody, OpenBody, CloseBody;
  }

  lemma {:induction false} TrackBody(sh: Shared, pc: PC, s: Sref, c: Choice)
    requires OnTrack(sh, pc, s) && Wants(pc).None? && Body(sh, pc, c).Some?
    ensures var m := Body(sh, pc, c).value; m.pc.Idle? || OnTrack(Apply(sh, m.effect), m.pc, s)
  {
    hide Body, VisitBody, Wants, HandleOf;
    TrackKind(sh, pc, s, c);
    TrackVisit(sh, pc, s, c);
    NothingChanges(sh);
    hide Apply;
  }

  lemma {:induction false} TrackStep(st: St, t: Tid, s: Sref, c: Choice)
    requires !st.sh.crashed && t in st.threads && OnTrack(st.sh, st.threads[t].pc, s) && ThreadStep(st, t, c).Some?
    ensures var st' := ThreadStep(st, t, c).value;
            !st'.sh.crashed && t in st'.threads && (st'.threads[t].pc.Idle? || OnTrack(st'.sh, st'.threads[t].pc, s))
  {
    var pc := st.threads[t].pc;
    CrashesExactlyWithoutHandle(st, t, c);
    hide Body, Granted, Wants, HandleOf, Apply;
    if Wants(pc).Some? {
      TrackGrant(st.sh, pc, s);
    } else {
      TrackBody(st.sh, pc, s, c);
    }
  }

  lemma {:induction false} HandledNeverCrashes(st: St, t: Tid, s: Sref, cs: seq<Choice>)
    requires !st.sh.crashed && t in st.threads && (st.threads[t].pc.Idle? || OnTrack(st.sh, st.threads[t].pc, s))
    ensures !Solo(st, t, cs).sh.crashed
    decreases |cs|
  {
    hide ThreadStep, OnTrack;
    if cs != [] && !st.threads[t].pc.Idle? && Next(st, Step(t, cs[0])).Some? {
      TrackStep(st, t, s, cs[0]);
      HandledNeverCrashes(Next(st, Step(t, cs[0])).value, t, s, cs[1..]);
    }
  }

  lemma {:induction false} SoloOn(st: St, t: Tid, cs: seq<Choice>, after: St)
    requires cs != [] && t in st.threads && !st.threads[t].pc.Idle? && Next(st, Step(t, cs[0])) == Some(after)
    ensures Solo(st, t, cs) == Solo(after, t, cs[1..])
  {
    hide Next;
  }

  lemma {:induction false} SoloGrant(st: St, t: Tid, pc: PC, todo: seq<Cmd>, locks: map<Lock, Tid>, sh: Shared, next: PC, l: Lock, locks': map<Lock, Tid>, cs: seq<Choice>)
    requires cs != [] && !sh.crashed && !pc.Idle? && Wants(pc) == Some(l) && l !in locks && next == Granted(sh, pc) && locks' == locks[l := t]
    ensures Solo(Put(st, t, Thread(pc, todo), locks, sh), t, cs) == Solo(Put(st, t, Thread(next, todo), locks', sh), t, cs[1..])
  {
    hide Next, Wants, Granted;
    GrantStep(st, t, cs[0], pc, todo, locks, sh, next, l);
    SoloOn(Put(st, t, Thread(pc, todo), locks, sh), t, cs, Put(st, t, Thread(next, todo), locks', sh));
  }

  lemma {:induction false} SoloBody(st: St, t: Tid, pc: PC, todo: seq<Cmd>, locks: map<Lock, Tid>, sh: Shared, m: Move, locks': map<Lock, Tid>, sh': Shared, cs: seq<Choice>)
    requires cs != [] && !sh.crashed && !pc.Idle? && Wants(pc).None? && Body(sh, pc, cs[0]) == Some(m) && m.more == []
    requires locks' == locks - m.released && sh' == Apply(sh, m.effect)
    ensures Solo(Put(st, t, Thread(pc, todo), locks, sh), t, cs) == Solo(Put(st, t, Thread(m.pc, todo), locks', sh'), t, cs[1..])
  {
    hide Next, Wants, Body, Apply;
    BodyStep(st, t, cs[0], pc, todo, locks, sh, m);
    SoloOn(Put(st, t, Thread(pc, todo), locks, sh), t, cs, Put(st, t, Thread(m.pc, todo), locks', sh'));
  }

  lemma {:induction false} SoloReachesCut(st: St, t: Tid, s: Sref, todo: seq<Cmd>, sh: Shared, cs: seq<Choice>)
    requires !sh.crashed && HandleOf(sh, s).None? && |cs| >= 4
    ensures Solo(Put(st, t, Thread(VWantSess(s), todo), map[], sh), t, cs) == Solo(Put(st, t, Thread(VInAct(s, None), todo), Three(t, s), sh), t, cs[4..])
  {
    hide Next, Wants, Granted, Body, HandleOf, Apply, Put, Solo;
    var one := map[SessMu(s) := t];
    ReconnectMoves(sh, s, None, cs[1]);
    NothingChanges(sh);
    assert one - {} == one;
    var c1, c2, c3 := cs[1..], cs[2..], cs[3..];
    assert c1[1..] == c2 && c2[1..] == c3 && c3[1..] == cs[4..];
    SoloGrant(st, t, VWantSess(s), todo, map[], sh, VCheck(s), SessMu(s), one, cs);
    SoloBody(st, t, VCheck(s), todo, one, sh, Move(Nothing, VWantConnect(s), {}, []), one, sh, c1);
    SoloGrant(st, t, VWantConnect(s), todo, one, sh, VWantAct(s, None), ConnectMu, Two(t, s), c2);
    SoloGrant(st, t, VWantAct(s, None), todo, Two(t, s), sh, VInAct(s, None), ActiveMu(s), Three(t, s), c3);
  }

  lemma {:induction false} SoloCrashes(st: St, t: Tid, s: Sref, todo: seq<Cmd>, sh: Shared, cs: seq<Choice>)
    requires !sh.crashed && HandleOf(sh, s).None? && |cs| >= 6
    ensures Solo(Put(st, t, Thread(VWantSess(s), todo), map[], sh), t, cs).sh.crashed
  {
    hide Wants, Granted, Body, HandleOf, Apply, Put;
    SoloReachesCut(st, t, s, todo, sh, cs);
    CutState(sh, s);
    ReconnectMoves(sh, s, None, cs[4]);
    ReconnectMoves(sh, s, None, cs[5]);
    var c4, c5, c6 := cs[4..], cs[5..], cs[6..];
    assert c4[1..] == c5 && c5[1..] == c6;
    assert Three(t, s) - {ActiveMu(s)} == Two(t, s) && Two(t, s) - {} == Two(t, s);
    SoloBody(st, t, VInAct(s, None), todo, Three(t, s), sh, Move(Disconnect(s), VSnap(s, None), {ActiveMu(s)}, []), Two(t, s), sh, c4);
    CrashState(sh);
    SoloBody(st, t, VSnap(s, None), todo, Two(t, s), sh, Move(Crash, VSnap(s, None), {}, []), Two(t, s), sh.(crashed := true), c5);
    PutShared(st, t, Thread(VSnap(s, None), todo), Two(t, s), sh.(crashed := true));
    SoloStuck(Put(st, t, Thread(VSnap(s, None), todo), Two(t, s), sh.(crashed := true)), t, c6);
  }

  lemma {:induction false} CrashState(sh: Shared)
    ensures Apply(sh, Crash) == sh.(crashed := true)
  {
  }

  lemma {:induction false} PutShared(st: St, t: Tid, th: Thread, locks: map<Lock, Tid>, sh: Shared)
    ensures Put(st, t, th, locks, sh).sh == sh
  {
  }

  lemma {:induction false} SoloStuck(st: St, t: Tid, cs: seq<Choice>)
    requires st.sh.crashed
    ensures Solo(st, t, cs) == st
  {
  }

  /** A validation that is not interrupted crashes exactly when its session has no control handle as it takes session.mu. */
  lemma {:induction false} ValidationCrashesExactly(st: St, t: Tid, s: Sref, cs: seq<Choice>)
    requires !st.sh.crashed && st.locks == map[] && t in st.threads && st.threads[t].pc == VWantSess(s) && |cs| >= 6
    ensures Solo(st, t, cs).sh.crashed <==> HandleOf(st.sh, s).None?
  {
    if HandleOf(st.sh, s).None? {
      SoloCrashes(st, t, s, st.threads[t].todo, st.sh, cs);
      PutSame(st, t);
    } else {
      HandledNeverCrashes(st, t, s, cs);
    }
  }

  lemma {:induction false} PutSame(st: St, t: Tid)
    requires t in st.threads
    ensures Put(st, t, Thread(st.threads[t].pc, st.threads[t].todo), st.locks, st.sh) == st
  {
    assert st.threads[t := st.threads[t]] == st.threads;
  }

  // ---- Two runs from the empty runtime ----

  /** One client opens a session and validates it twice while the database refuses everything. */
  function FailedReconnectRun(id: Id, k: Key, good: Choice, bad: Choice): seq<Event>
  {
    [Spawn(0, [Open(id, k)] + [Lookup(id, Validate)] + [Lookup(id, Validate)])] + Again(0, good, 14) + Again(0, bad, 19)
  }

  /** One client opens a session, a second looks it up to validate it, a third closes it, and the second goes on. */
  function RacingCloseRun(id: Id, k: Key, good: Choice, c: Choice): seq<Event>
  {
    [Spawn(0, [Open(id, k)])] + Again(0, good, 14) + [Spawn(1, [Lookup(id, Validate)])] + Again(1, c, 3)
    + [Spawn(2, [Close(id)])] + Again(2, c, 8) + Again(1, c, 6)
  }

  lemma {:induction false} SpawnRun(st: St, t: Tid, cmds: seq<Cmd>)
    requires !st.sh.crashed && t !in st.threads && st.locks == map[]
    ensures RunEvents(st, [Spawn(t, cmds)]) == Some(Put(st, t, Thread(Idle, cmds), map[], st.sh))
  {
    assert [Spawn(t, cmds)][..0] == [];
    assert RunEvents(st, []) == Some(st);
  }

  lemma {:induction false} Then(st: St, a: seq<Event>, t: Tid, c: Choice, n: nat, mid: St, after: St)
    requires RunEvents(st, a) == Some(mid) && Goes(mid, t, c, n, after)
    ensures RunEvents(st, a + Again(t, c, n)) == Some(after)
  {
    hide RunEvents;
    RunAppend(st, a, Again(t, c, n));
    assert Goes(mid, t, c, n, after);
  }

  lemma {:induction false} OpenedFacts(sh: Shared, id: Id, k: Key, target: Target)
    requires !sh.crashed
    ensures var o := OpenedOn(sh, id, k, target);
            !o.crashed && id in o.registry && o.registry[id] == sh.nextSref && sh.nextSref in o.heap && HandleOf(o, sh.nextSref).Some?
  {
  }

  lemma {:induction false} StartShared(live: set<Target>, id: Id, k: Key, good: Choice)
    requires good.ok && good.target !in live
    ensures CanOpen(Init(live).sh, id, k, good) && !Init(live).sh.crashed && Init(live).locks == map[] && Init(live).threads == map[]
  {
  }

  /** The two validations of an open session, refused: the first loses its handle, the second crashes. */
  lemma {:induction false} ValidateTwice(st: St, id: Id, sh: Shared, bad: Choice)
    requires !sh.crashed && id in sh.registry && HandleOf(sh, sh.registry[id]).Some? && !bad.ok
    ensures exists after: St :: after.sh.crashed && Goes(Put(st, 0, Thread(Idle, [Lookup(id, Validate)] + [Lookup(id, Validate)]), map[], sh), 0, bad, 19, after)
  {
    hide Put, Goes, Apply, HandleOf;
    var s := sh.registry[id];
    var sh' := Apply(sh, Disconnect(s));
    var s0 := Put(st, 0, Thread(Idle, [Lookup(id, Validate)] + [Lookup(id, Validate)]), map[], sh);
    var again := [Lookup(id, Validate)];
    LookupGoes(st, 0, id, again, sh, bad);
    RefusedReconnect(st, 0, s, again, sh, bad);
    GoesFurther(s0, 0, bad, 3, 7, Put(st, 0, Thread(VWantSess(s), again), map[], sh), Put(st, 0, Thread(Idle, again), map[], sh'));
    assert again == [Lookup(id, Validate)] + [];
    LookupGoes(st, 0, id, [], sh', bad);
    GoesFurther(s0, 0, bad, 10, 3, Put(st, 0, Thread(Idle, again), map[], sh'), Put(st, 0, Thread(VWantSess(s), []), map[], sh'));
    HandlelessCrashes(st, 0, s, [], sh', bad);
    var after := Put(st, 0, Thread(VSnap(s, None), []), Two(0, s), sh'.(crashed := true));
    GoesFurther(s0, 0, bad, 13, 6, Put(st, 0, Thread(VWantSess(s), []), map[], sh'), after);
    PutShared(st, 0, Thread(VSnap(s, None), []), Two(0, s), sh'.(crashed := true));
  }

  /** From the empty runtime: a session whose reconnect failed once crashes the next validation. */
  lemma {:induction false} FailedReconnectCrashes(live: set<Target>, id: Id, k: Key, good: Choice, bad: Choice)
    requires good.ok && good.target !in live && !bad.ok
    ensures var r := RunEvents(Init(live), FailedReconnectRun(id, k, good, bad)); r.Some? && r.value.sh.crashed
  {
    hide Put, Goes, RunEvents, Init, CanOpen, OpenedOn, HandleOf, Again;
    var st, sh := Init(live), Init(live).sh;
    StartShared(live, id, k, good);
    var rest := [Lookup(id, Validate)] + [Lookup(id, Validate)];
    var cmds := [Open(id, k)] + [Lookup(id, Validate)] + [Lookup(id, Validate)];
    assert cmds == [Open(id, k)] + rest;
    SpawnRun(st, 0, cmds);
    var o := OpenedOn(sh, id, k, good.target);
    OpenGoes(st, 0, id, k, rest, sh, good);
    Then(st, [Spawn(0, cmds)], 0, good, 14, Put(st, 0, Thread(Idle, cmds), map[], sh), Put(st, 0, Thread(Idle, rest), map[], o));
    OpenedFacts(sh, id, k, good.target);
    ValidateTwice(st, id, o, bad);
    var after: St :| after.sh.crashed && Goes(Put(st, 0, Thread(Idle, rest), map[], o), 0, bad, 19, after);
    Then(st, [Spawn(0, cmds)] + Again(0, good, 14), 0, bad, 19, Put(st, 0, Thread(Idle, rest), map[], o), after);
  }

  /** Put keeps the other threads, and what was put is there. */
  lemma {:induction false} PutParts(st: St, t: Tid, th: Thread, locks: map<Lock, Tid>, sh: Shared)
    ensures var p := Put(st, t, th, locks, sh);
            && p.sh == sh && p.locks == locks && p.threads.Keys == st.threads.Keys + {t} && p.threads[t] == th
            && forall u :: u in st.threads && u != t ==> p.threads[u] == st.threads[u]
  {
  }

  /** The first two clients: a session is open, and a validation of it waits for session.mu. */
  lemma {:induction false} LookedUp(live: set<Target>, id: Id, k: Key, good: Choice, c: Choice) returns (st: St)
    requires good.ok && good.target !in live
    ensures RunEvents(Init(live), [Spawn(0, [Open(id, k)])] + Again(0, good, 14) + [Spawn(1, [Lookup(id, Validate)])] + Again(1, c, 3)) == Some(st)
    ensures st.sh == OpenedOn(Init(live).sh, id, k, good.target) && st.locks == map[]
    ensures st.threads == map[0 := Thread(Idle, []), 1 := Thread(VWantSess(Init(live).sh.nextSref), [])]
  {
    hide Put, Goes, RunEvents, Init, CanOpen, OpenedOn, HandleOf, Again;
    var init, sh := Init(live), Init(live).sh;
    var opens, looks := [Open(id, k)], [Lookup(id, Validate)];
    assert opens == [Open(id, k)] + [] && looks == [Lookup(id, Validate)] + [];
    StartShared(live, id, k, good);
    var o := OpenedOn(sh, id, k, good.target);
    OpenedFacts(sh, id, k, good.target);
    SpawnRun(init, 0, opens);
    OpenGoes(init, 0, id, k, [], sh, good);
    var a := [Spawn(0, opens)] + Again(0, good, 14);
    var one := Put(init, 0, Thread(Idle, []), map[], o);
    Then(init, [Spawn(0, opens)], 0, good, 14, Put(init, 0, Thread(Idle, opens), map[], sh), one);
    PutParts(init, 0, Thread(Idle, []), map[], o);
    SpawnRun(one, 1, looks);
    RunAppend(init, a, [Spawn(1, looks)]);
    LookupGoes(one, 1, id, [], o, c);
    st := Put(one, 1, Thread(VWantSess(sh.nextSref), []), map[], o);
    Then(init, a + [Spawn(1, looks)], 1, c, 3, Put(one, 1, Thread(Idle, looks), map[], o), st);
    PutParts(one, 1, Thread(VWantSess(sh.nextSref), []), map[], o);
  }

  /** From the empty runtime: a close between a validation's lookup and its session.mu crashes it, whatever the database answers. */
  lemma {:induction false} RacingCloseCrashes(live: set<Target>, id: Id, k: Key, good: Choice, c: Choice)
    requires good.ok && good.target !in live
    ensures var r := RunEvents(Init(live), RacingCloseRun(id, k, good, c)); r.Some? && r.value.sh.crashed
  {
    hide Put, Goes, RunEvents, Init, CanOpen, OpenedOn, HandleOf, Again, ClosedOn;
    var init, sh := Init(live), Init(live).sh;
    var s, closes := sh.nextSref, [Close(id)];
    assert closes == [Close(id)] + [];
    StartShared(live, id, k, good);
    OpenedFacts(sh, id, k, good.target);
    var two := LookedUp(live, id, k, good, c);
    var a := [Spawn(0, [Open(id, k)])] + Again(0, good, 14) + [Spawn(1, [Lookup(id, Validate)])] + Again(1, c, 3);
    SpawnRun(two, 2, closes);
    RunAppend(init, a, [Spawn(2, closes)]);
    CloseGoes(two, 2, id, [], two.sh, c);
    var key := two.sh.heap[s].key;
    var shut := ClosedOn(two.sh, id, key, s);
    var three := Put(two, 2, Thread(Idle, []), map[], shut);
    Then(init, a + [Spawn(2, closes)], 2, c, 8, Put(two, 2, Thread(Idle, closes), map[], two.sh), three);
    PutParts(two, 2, Thread(Idle, []), map[], shut);
    ClosedFacts(two.sh, id, key, s);
    PutSame(three, 1);
    HandlelessCrashes(three, 1, s, [], shut, c);
    var after := Put(three, 1, Thread(VSnap(s, None), []), Two(1, s), shut.(crashed := true));
    PutParts(three, 1, Thread(VSnap(s, None), []), Two(1, s), shut.(crashed := true));
    Then(init, a + [Spawn(2, closes)] + Again(2, c, 8), 1, c, 6, three, after);
  }
}
