/** Requests of the Xugu runtime that no other thread interrupts, step by step: open, validate and close. */
module XuguRequests {
  import opened Common
  import opened XuguRuntime
  import opened XuguSteps

  // ---- Single steps from a state put together by hand ----

  lemma {:induction false} PutTwice(st: St, t: Tid, a: Thread, b: Thread)
    ensures st.threads[t := a][t := b] == st.threads[t := b]
  {
  }

  lemma {:induction false} IdleStep(st: St, t: Tid, c: Choice, cmd: Cmd, todo: seq<Cmd>, locks: map<Lock, Tid>, sh: Shared)
    requires !sh.crashed
    ensures Next(Put(st, t, Thread(Idle, [cmd] + todo), locks, sh), Step(t, c)) == Some(Put(st, t, Thread(StartOf(cmd), todo), locks, sh))
  {
    hide StartOf, Wants, Body;
    PutTwice(st, t, Thread(Idle, [cmd] + todo), Thread(StartOf(cmd), todo));
    assert ([cmd] + todo)[1..] == todo;
  }

  lemma {:induction false} GrantStep(st: St, t: Tid, c: Choice, pc: PC, todo: seq<Cmd>, locks: map<Lock, Tid>, sh: Shared, next: PC, l: Lock)
    requires !sh.crashed && !pc.Idle? && Wants(pc) == Some(l) && l !in locks && next == Granted(sh, pc)
    ensures Next(Put(st, t, Thread(pc, todo), locks, sh), Step(t, c)) == Some(Put(st, t, Thread(next, todo), locks[l := t], sh))
  {
    hide Wants, Granted, Body;
    PutTwice(st, t, Thread(pc, todo), Thread(next, todo));
  }

  lemma {:induction false} BodyStep(st: St, t: Tid, c: Choice, pc: PC, todo: seq<Cmd>, locks: map<Lock, Tid>, sh: Shared, m: Move)
    requires !sh.crashed && !pc.Idle? && Wants(pc).None? && Body(sh, pc, c) == Some(m) && m.more == []
    ensures Next(Put(st, t, Thread(pc, todo), locks, sh), Step(t, c))
            == Some(Put(st, t, Thread(m.pc, todo), locks - m.released, Apply(sh, m.effect)))
  {
    hide Wants, Body, Apply;
    assert m.more + todo == todo;
    PutTwice(st, t, Thread(pc, todo), Thread(m.pc, todo));
  }

  // ---- Runs ----

  lemma {:induction false} RunAppend(st: St, a: seq<Event>, b: seq<Event>)
    requires RunEvents(st, a).Some?
    ensures RunEvents(st, a + b) == RunEvents(RunEvents(st, a).value, b)
    decreases |b|
  {
    hide Next;
    if b == [] {
      assert a + b == a;
    } else {
      var n := |b| - 1;
      assert (a + b)[..|a + b| - 1] == a + b[..n] && (a + b)[|a + b| - 1] == b[n];
      RunAppend(st, a, b[..n]);
    }
  }

  /** The same thread steps n times with the same answer from the database. */
  function Again(t: Tid, c: Choice, n: nat): seq<Event>
  {
    if n == 0 then [] else Again(t, c, n - 1) + [Step(t, c)]
  }

  ghost predicate Goes(st: St, t: Tid, c: Choice, n: nat, after: St)
  {
    RunEvents(st, Again(t, c, n)) == Some(after)
  }

  lemma {:induction false} GoesNowhere(st: St, t: Tid, c: Choice)
    ensures Goes(st, t, c, 0, st)
  {
  }

  lemma {:induction false} GoesOn(st: St, t: Tid, c: Choice, n: nat, mid: St, after: St)
    requires Goes(st, t, c, n, mid) && Next(mid, Step(t, c)) == Some(after)
    ensures Goes(st, t, c, n + 1, after)
  {
    hide Next;
    assert Again(t, c, n + 1)[..|Again(t, c, n + 1)| - 1] == Again(t, c, n);
  }

  lemma {:induction false} ThenGrant(s0: St, n: nat, st: St, t: Tid, c: Choice, pc: PC, todo: seq<Cmd>, locks: map<Lock, Tid>, sh: Shared, next: PC, l: Lock, locks': map<Lock, Tid>)
    requires Goes(s0, t, c, n, Put(st, t, Thread(pc, todo), locks, sh))
    requires !sh.crashed && !pc.Idle? && Wants(pc) == Some(l) && l !in locks && next == Granted(sh, pc) && locks' == locks[l := t]
    ensures Goes(s0, t, c, n + 1, Put(st, t, Thread(next, todo), locks', sh))
  {
    hide Next, Wants, Granted, Body, Goes, Put;
    GrantStep(st, t, c, pc, todo, locks, sh, next, l);
    GoesOn(s0, t, c, n, Put(st, t, Thread(pc, todo), locks, sh), Put(st, t, Thread(next, todo), locks', sh));
  }

  lemma {:induction false} ThenBody(s0: St, n: nat, st: St, t: Tid, c: Choice, pc: PC, todo: seq<Cmd>, locks: map<Lock, Tid>, sh: Shared, m: Move, locks': map<Lock, Tid>, sh': Shared)
    requires Goes(s0, t, c, n, Put(st, t, Thread(pc, todo), locks, sh))
    requires !sh.crashed && !pc.Idle? && Wants(pc).None? && Body(sh, pc, c) == Some(m) && m.more == []
    requires locks' == locks - m.released && sh' == Apply(sh, m.effect)
    ensures Goes(s0, t, c, n + 1, Put(st, t, Thread(m.pc, todo), locks', sh'))
  {
    hide Next, Wants, Granted, Body, Goes, Put, Apply;
    BodyStep(st, t, c, pc, todo, locks, sh, m);
    GoesOn(s0, t, c, n, Put(st, t, Thread(pc, todo), locks, sh), Put(st, t, Thread(m.pc, todo), locks', sh'));
  }

  lemma {:induction false} StartsWith(st: St, t: Tid, c: Choice, cmd: Cmd, todo: seq<Cmd>, sh: Shared)
    requires !sh.crashed
    ensures Goes(Put(st, t, Thread(Idle, [cmd] + todo), map[], sh), t, c, 1, Put(st, t, Thread(StartOf(cmd), todo), map[], sh))
  {
    hide Next, Goes, Put, StartOf;
    var s0 := Put(st, t, Thread(Idle, [cmd] + todo), map[], sh);
    GoesNowhere(s0, t, c);
    IdleStep(st, t, c, cmd, todo, map[], sh);
    GoesOn(s0, t, c, 0, s0, Put(st, t, Thread(StartOf(cmd), todo), map[], sh));
  }

  lemma {:induction false} GoesFurther(st: St, t: Tid, c: Choice, n: nat, m: nat, mid: St, after: St)
    requires Goes(st, t, c, n, mid) && Goes(mid, t, c, m, after)
    ensures Goes(st, t, c, n + m, after)
    decreases m
  {
    AgainSum(t, c, n, m);
    RunAppend(st, Again(t, c, n), Again(t, c, m));
  }

  lemma {:induction false} AgainSum(t: Tid, c: Choice, n: nat, m: nat)
    ensures Again(t, c, n + m) == Again(t, c, n) + Again(t, c, m)
    decreases m
  {
    if m > 0 {
      AgainSum(t, c, n, m - 1);
    }
  }

  // ---- A validation on its own ----

  lemma {:induction false} ReconnectGrants(sh: Shared, s: Sref, had: Option<Handle>)
    ensures Wants(VWantSess(s)) == Some(SessMu(s)) && Granted(sh, VWantSess(s)) == VCheck(s)
    ensures Wants(VWantConnect(s)) == Some(ConnectMu) && Granted(sh, VWantConnect(s)) == VWantAct(s, HandleOf(sh, s))
    ensures Wants(VWantAct(s, had)) == Some(ActiveMu(s)) && Granted(sh, VWantAct(s, had)) == VInAct(s, had)
    ensures Wants(VCheck(s)).None? && Wants(VInAct(s, had)).None? && Wants(VSnap(s, had)).None? && Wants(VDone(s)).None?
  {
    hide HandleOf, Wants;
    ReconnectWants(s, had);
  }

  lemma {:induction false} ReconnectWants(s: Sref, had: Option<Handle>)
    ensures Wants(VWantSess(s)) == Some(SessMu(s)) && Wants(VWantConnect(s)) == Some(ConnectMu) && Wants(VWantAct(s, had)) == Some(ActiveMu(s))
    ensures Wants(VCheck(s)).None? && Wants(VInAct(s, had)).None? && Wants(VSnap(s, had)).None? && Wants(VDone(s)).None?
  {
  }

  lemma {:induction false} ReconnectBodies(sh: Shared, s: Sref, had: Option<Handle>, c: Choice)
    ensures Body(sh, VCheck(s), c) == Some(if c.ok && HandleOf(sh, s).Some? then Move(Nothing, Idle, {SessMu(s)}, []) else Move(Nothing, VWantConnect(s), {}, []))
    ensures Body(sh, VInAct(s, had), c) == Some(Move(Disconnect(s), VSnap(s, had), {ActiveMu(s)}, []))
    ensures had.None? ==> Body(sh, VSnap(s, had), c) == Some(Move(Crash, VSnap(s, had), {}, []))
    ensures had.Some? && !c.ok ==> Body(sh, VSnap(s, had), c) == Some(Move(Nothing, VDone(s), {}, []))
    ensures Body(sh, VDone(s), c) == Some(Move(Nothing, Idle, {SessMu(s), ConnectMu}, []))
  {
    hide HandleOf, Lists, CloseEach;
  }

  /** The regions of validate_session from session.mu to the snapshot of server sessions. */
  lemma {:induction false} ReconnectMoves(sh: Shared, s: Sref, had: Option<Handle>, c: Choice)
    ensures Wants(VWantSess(s)) == Some(SessMu(s)) && Granted(sh, VWantSess(s)) == VCheck(s) && Wants(VCheck(s)).None?
    ensures !(c.ok && HandleOf(sh, s).Some?) ==> Body(sh, VCheck(s), c) == Some(Move(Nothing, VWantConnect(s), {}, []))
    ensures Wants(VWantConnect(s)) == Some(ConnectMu) && Granted(sh, VWantConnect(s)) == VWantAct(s, HandleOf(sh, s))
    ensures Wants(VWantAct(s, had)) == Some(ActiveMu(s)) && Granted(sh, VWantAct(s, had)) == VInAct(s, had)
    ensures Wants(VInAct(s, had)).None? && Body(sh, VInAct(s, had), c) == Some(Move(Disconnect(s), VSnap(s, had), {ActiveMu(s)}, []))
    ensures Wants(VSnap(s, had)).None? && (had.None? ==> Body(sh, VSnap(s, had), c) == Some(Move(Crash, VSnap(s, had), {}, [])))
    ensures had.Some? && !c.ok ==> Body(sh, VSnap(s, had), c) == Some(Move(Nothing, VDone(s), {}, []))
    ensures Wants(VDone(s)).None? && Body(sh, VDone(s), c) == Some(Move(Nothing, Idle, {SessMu(s), ConnectMu}, []))
  {
    hide Body, Wants, Granted, HandleOf;
    ReconnectGrants(sh, s, had);
    ReconnectBodies(sh, s, had, c);
  }

  function Two(t: Tid, s: Sref): map<Lock, Tid>
  {
    map[SessMu(s) := t, ConnectMu := t]
  }

  function Three(t: Tid, s: Sref): map<Lock, Tid>
  {
    map[SessMu(s) := t, ConnectMu := t, ActiveMu(s) := t]
  }

  /** Up to the disconnect that precedes a reconnect, unless the connection is found to be good. */
  lemma {:induction false} ReconnectStarts(st: St, t: Tid, s: Sref, todo: seq<Cmd>, sh: Shared, c: Choice)
    requires !sh.crashed && !(c.ok && HandleOf(sh, s).Some?)
    ensures Goes(Put(st, t, Thread(VWantSess(s), todo), map[], sh), t, c, 4, Put(st, t, Thread(VInAct(s, HandleOf(sh, s)), todo), Three(t, s), sh))
  {
    hide Next, Wants, Granted, Body, HandleOf, Apply, Put, Goes;
    var had, one := HandleOf(sh, s), map[SessMu(s) := t];
    var s0 := Put(st, t, Thread(VWantSess(s), todo), map[], sh);
    ReconnectMoves(sh, s, had, c);
    NothingChanges(sh);
    assert one - {} == one;
    GoesNowhere(s0, t, c);
    ThenGrant(s0, 0, st, t, c, VWantSess(s), todo, map[], sh, VCheck(s), SessMu(s), one);
    ThenBody(s0, 1, st, t, c, VCheck(s), todo, one, sh, Move(Nothing, VWantConnect(s), {}, []), one, sh);
    ThenGrant(s0, 2, st, t, c, VWantConnect(s), todo, one, sh, VWantAct(s, had), ConnectMu, Two(t, s));
    ThenGrant(s0, 3, st, t, c, VWantAct(s, had), todo, Two(t, s), sh, VInAct(s, had), ActiveMu(s), Three(t, s));
  }

  lemma {:induction false} NothingChanges(sh: Shared)
    ensures Apply(sh, Nothing) == sh
  {
  }

  lemma {:induction false} CutState(sh: Shared, s: Sref)
    requires !sh.crashed
    ensures var sh' := Apply(sh, Disconnect(s));
            !sh'.crashed && HandleOf(sh', s).None? && sh'.registry == sh.registry && sh'.controls == sh.controls
    ensures HandleOf(sh, s).None? ==> Apply(sh, Disconnect(s)) == sh
  {
    hide KillOf;
  }

  lemma {:induction false} AfterCut(st: St, t: Tid, s: Sref, todo: seq<Cmd>, sh: Shared, c: Choice)
    requires !sh.crashed && !(c.ok && HandleOf(sh, s).Some?)
    ensures Goes(Put(st, t, Thread(VWantSess(s), todo), map[], sh), t, c, 5,
                 Put(st, t, Thread(VSnap(s, HandleOf(sh, s)), todo), Two(t, s), Apply(sh, Disconnect(s))))
  {
    hide Next, Wants, Granted, Body, HandleOf, Apply, Put, Goes;
    var had := HandleOf(sh, s);
    ReconnectStarts(st, t, s, todo, sh, c);
    ReconnectMoves(sh, s, had, c);
    assert Three(t, s) - {ActiveMu(s)} == Two(t, s);
    ThenBody(Put(st, t, Thread(VWantSess(s), todo), map[], sh), 4, st, t, c, VInAct(s, had), todo, Three(t, s), sh,
             Move(Disconnect(s), VSnap(s, had), {ActiveMu(s)}, []), Two(t, s), Apply(sh, Disconnect(s)));
  }

  /** Without a control handle a validation that is not interrupted crashes after six steps, whatever the database answers. */
  lemma {:induction false} HandlelessCrashes(st: St, t: Tid, s: Sref, todo: seq<Cmd>, sh: Shared, c: Choice)
    requires !sh.crashed && HandleOf(sh, s).None?
    ensures Goes(Put(st, t, Thread(VWantSess(s), todo), map[], sh), t, c, 6,
                 Put(st, t, Thread(VSnap(s, None), todo), Two(t, s), sh.(crashed := true)))
  {
    hide Next, Wants, Granted, Body, HandleOf, Put, Goes;
    assert Apply(sh, Crash) == sh.(crashed := true);
    hide Apply;
    CutState(sh, s);
    AfterCut(st, t, s, todo, sh, c);
    ReconnectMoves(sh, s, None, c);
    assert Two(t, s) - {} == Two(t, s);
    ThenBody(Put(st, t, Thread(VWantSess(s), todo), map[], sh), 5, st, t, c, VSnap(s, None), todo, Two(t, s), sh,
             Move(Crash, VSnap(s, None), {}, []), Two(t, s), sh.(crashed := true));
  }

  /** With one and a refusing database it ends after seven steps, and leaves the session registered without a handle. */
  lemma {:induction false} RefusedReconnect(st: St, t: Tid, s: Sref, todo: seq<Cmd>, sh: Shared, c: Choice)
    requires !sh.crashed && HandleOf(sh, s).Some? && !c.ok
    ensures var sh' := Apply(sh, Disconnect(s));
            && !sh'.crashed && HandleOf(sh', s).None? && sh'.registry == sh.registry
            && Goes(Put(st, t, Thread(VWantSess(s), todo), map[], sh), t, c, 7, Put(st, t, Thread(Idle, todo), map[], sh'))
  {
    hide Next, Wants, Granted, Body, HandleOf, Put, Goes, Apply;
    var had, sh', s0 := HandleOf(sh, s), Apply(sh, Disconnect(s)), Put(st, t, Thread(VWantSess(s), todo), map[], sh);
    CutState(sh, s);
    AfterCut(st, t, s, todo, sh, c);
    ReconnectMoves(sh', s, had, c);
    NothingChanges(sh');
    assert Two(t, s) - {} == Two(t, s) && Two(t, s) - {SessMu(s), ConnectMu} == map[];
    ThenBody(s0, 5, st, t, c, VSnap(s, had), todo, Two(t, s), sh', Move(Nothing, VDone(s), {}, []), Two(t, s), sh');
    ThenBody(s0, 6, st, t, c, VDone(s), todo, Two(t, s), sh', Move(Nothing, Idle, {SessMu(s), ConnectMu}, []), map[], sh');
  }

  /** A lookup leads to the session's validation. */
  lemma {:induction false} LookupGoes(st: St, t: Tid, id: Id, todo: seq<Cmd>, sh: Shared, c: Choice)
    requires !sh.crashed && id in sh.registry
    ensures Goes(Put(st, t, Thread(Idle, [Lookup(id, Validate)] + todo), map[], sh), t, c, 3,
                 Put(st, t, Thread(VWantSess(sh.registry[id]), todo), map[], sh))
  {
    hide Next, Wants, Granted, Body, Put, Goes, Apply, StartOf;
    LookupMoves(sh, id, c);
    NothingChanges(sh);
    assert map[RMu := t] - {RMu} == map[];
    var s0 := Put(st, t, Thread(Idle, [Lookup(id, Validate)] + todo), map[], sh);
    StartsWith(st, t, c, Lookup(id, Validate), todo, sh);
    ThenGrant(s0, 1, st, t, c, LWant(id, Validate), todo, map[], sh, LIn(id, Validate), RMu, map[RMu := t]);
    ThenBody(s0, 2, st, t, c, LIn(id, Validate), todo, map[RMu := t], sh, Move(Nothing, VWantSess(sh.registry[id]), {RMu}, []), map[], sh);
  }

  lemma {:induction false} LookupMoves(sh: Shared, id: Id, c: Choice)
    requires id in sh.registry
    ensures StartOf(Lookup(id, Validate)) == LWant(id, Validate) && Wants(LWant(id, Validate)) == Some(RMu)
    ensures Granted(sh, LWant(id, Validate)) == LIn(id, Validate) && Wants(LIn(id, Validate)).None?
    ensures Body(sh, LIn(id, Validate), c) == Some(Move(Nothing, VWantSess(sh.registry[id]), {RMu}, []))
  {
    hide HandleOf, Lists, CloseEach;
  }

  // ---- Opening and closing on their own ----

  /** The shared state after a session has been opened under a new control key. */
  function OpenedOn(sh: Shared, id: Id, k: Key, target: Target): Shared
  {
    sh.(registry := sh.registry[id := sh.nextSref],
        heap := sh.heap[sh.nextSref := Session(k, Some(Link(target, target, sh.nextHandle)), false)],
        published := sh.published + {sh.nextSref},
        controls := sh.controls[k := Control(sh.nextHandle, 1)],
        openHandles := sh.openHandles + {sh.nextHandle},
        live := sh.live + {target}, nextSref := sh.nextSref + 1, nextHandle := sh.nextHandle + 1)
  }

  /** The id is not taken and the registry not full. */
  ghost predicate MayOpen(sh: Shared, id: Id)
  {
    !sh.crashed && id !in sh.registry && |sh.registry| < 256
  }

  ghost predicate CanOpen(sh: Shared, id: Id, k: Key, c: Choice)
  {
    MayOpen(sh, id) && k !in sh.controls && c.ok && c.target !in sh.live
  }

  lemma {:induction false} CheckGrants(sh: Shared, sh1: Shared, id: Id, k: Key, s: Sref)
    ensures StartOf(Open(id, k)) == OWantCheck(id, k) && Wants(OWantCheck(id, k)) == Some(RMu) && Granted(sh, OWantCheck(id, k)) == OInCheck(id, k)
    ensures Wants(OInCheck(id, k)).None?
    ensures Wants(OWantConnect(id, k, s)) == Some(ConnectMu) && Granted(sh1, OWantConnect(id, k, s)) == OWantControl(id, k, s)
    ensures Wants(OWantControl(id, k, s)) == Some(ControlMu) && Granted(sh1, OWantControl(id, k, s)) == OInControl(id, k, s)
  {
  }

  lemma {:induction false} AcquireGrants(sh: Shared, id: Id, k: Key, s: Sref, h: Handle)
    ensures Wants(OInControl(id, k, s)).None? && Wants(OWantAct(id, k, s, h)) == Some(ActiveMu(s)) && Granted(sh, OWantAct(id, k, s, h)) == OInAct(id, k, s, h)
  {
  }

  lemma {:induction false} RegisterGrants(sh: Shared, id: Id, k: Key, s: Sref)
    ensures Wants(OWantReg(id, k, s)) == Some(RMu) && Granted(sh, OWantReg(id, k, s)) == OInReg(id, k, s) && Wants(OInReg(id, k, s)).None?
  {
  }

  lemma {:induction false} DialUnblocked(id: Id, k: Key, s: Sref, h: Handle, before: set<Target>, conn: Target)
    ensures Wants(OInAct(id, k, s, h)).None? && Wants(OSnap(id, k, s, h)).None? && Wants(ODial(id, k, s, h, before)).None?
    ensures Wants(OAfter(id, k, s, h, before, conn)).None? && Wants(OConnected(id, k, s)).None?
  {
  }

  lemma {:induction false} OpenChecks(st: St, t: Tid, id: Id, k: Key, todo: seq<Cmd>, sh: Shared, c: Choice)
    requires MayOpen(sh, id)
    ensures var sh1 := Apply(sh, Alloc(k));
            && Goes(Put(st, t, Thread(Idle, [Open(id, k)] + todo), map[], sh), t, c, 5,
                    Put(st, t, Thread(OInControl(id, k, sh.nextSref), todo), map[ConnectMu := t, ControlMu := t], sh1))
  {
    hide Next, Wants, Granted, Body, Put, Goes, Apply, StartOf, MayOpen;
    var sh1, s, one := Apply(sh, Alloc(k)), sh.nextSref, map[ConnectMu := t];
    CheckBody(sh, id, k, c);
    CheckGrants(sh, sh1, id, k, s);
    var s0 := Put(st, t, Thread(Idle, [Open(id, k)] + todo), map[], sh);
    OpenAllocates(st, t, id, k, todo, sh, c);
    ThenGrant(s0, 3, st, t, c, OWantConnect(id, k, s), todo, map[], sh1, OWantControl(id, k, s), ConnectMu, one);
    ThenGrant(s0, 4, st, t, c, OWantControl(id, k, s), todo, one, sh1, OInControl(id, k, s), ControlMu, map[ConnectMu := t, ControlMu := t]);
  }

  lemma {:induction false} OpenAllocates(st: St, t: Tid, id: Id, k: Key, todo: seq<Cmd>, sh: Shared, c: Choice)
    requires MayOpen(sh, id)
    ensures Goes(Put(st, t, Thread(Idle, [Open(id, k)] + todo), map[], sh), t, c, 3,
                 Put(st, t, Thread(OWantConnect(id, k, sh.nextSref), todo), map[], Apply(sh, Alloc(k))))
  {
    hide Next, Wants, Granted, Body, Put, Goes, Apply, StartOf, MayOpen;
    var sh1, s := Apply(sh, Alloc(k)), sh.nextSref;
    CheckBody(sh, id, k, c);
    CheckGrants(sh, sh1, id, k, s);
    assert map[RMu := t] - {RMu} == map[];
    var s0 := Put(st, t, Thread(Idle, [Open(id, k)] + todo), map[], sh);
    StartsWith(st, t, c, Open(id, k), todo, sh);
    ThenGrant(s0, 1, st, t, c, OWantCheck(id, k), todo, map[], sh, OInCheck(id, k), RMu, map[RMu := t]);
    ThenBody(s0, 2, st, t, c, OInCheck(id, k), todo, map[RMu := t], sh, Move(Alloc(k), OWantConnect(id, k, s), {RMu}, []), map[], sh1);
  }

  lemma {:induction false} CheckBody(sh: Shared, id: Id, k: Key, c: Choice)
    requires MayOpen(sh, id)
    ensures Body(sh, OInCheck(id, k), c) == Some(Move(Alloc(k), OWantConnect(id, k, sh.nextSref), {RMu}, []))
    ensures !Apply(sh, Alloc(k)).crashed && !sh.crashed
  {
  }

  /** From the control table to the snapshot: the shared states passed through on the way to a connection. */
  function Acquired(sh: Shared, k: Key): Shared
  {
    Apply(Apply(sh, Alloc(k)), AcquireControl(k))
  }

  lemma {:induction false} AcquiredFacts(sh: Shared, id: Id, k: Key, c: Choice)
    requires CanOpen(sh, id, k, c)
    ensures Body(Apply(sh, Alloc(k)), OInControl(id, k, sh.nextSref), c)
            == Some(Move(AcquireControl(k), OWantAct(id, k, sh.nextSref, sh.nextHandle), {ControlMu}, []))
    ensures var a := Acquired(sh, k);
            !a.crashed && a.live == sh.live && a == Apply(Apply(sh, Alloc(k)), AcquireControl(k)) && !Apply(sh, Alloc(k)).crashed && c.ok && c.target !in a.live
  {
  }

  lemma {:induction false} SnapBodies(a: Shared, id: Id, k: Key, s: Sref, h: Handle, c: Choice)
    requires c.ok && c.target !in a.live
    ensures Body(a, OInAct(id, k, s, h), c) == Some(Move(Nothing, OSnap(id, k, s, h), {ActiveMu(s)}, []))
    ensures Body(a, OSnap(id, k, s, h), c) == Some(Move(Nothing, ODial(id, k, s, h, a.live), {}, []))
    ensures Body(a, ODial(id, k, s, h, a.live), c) == Some(Move(Dial(c.target), OAfter(id, k, s, h, a.live, c.target), {}, []))
  {
  }

  lemma {:induction false} OpenAcquires(st: St, t: Tid, id: Id, k: Key, todo: seq<Cmd>, sh: Shared, c: Choice)
    requires CanOpen(sh, id, k, c)
    ensures Goes(Put(st, t, Thread(OInControl(id, k, sh.nextSref), todo), map[ConnectMu := t, ControlMu := t], Apply(sh, Alloc(k))), t, c, 2,
                 Put(st, t, Thread(OInAct(id, k, sh.nextSref, sh.nextHandle), todo), map[ConnectMu := t, ActiveMu(sh.nextSref) := t], Acquired(sh, k)))
  {
    hide Next, Wants, Granted, Body, Put, Goes, Apply, CanOpen, Acquired;
    var s, h, a, one, sh1 := sh.nextSref, sh.nextHandle, Acquired(sh, k), map[ConnectMu := t], Apply(sh, Alloc(k));
    var both := map[ConnectMu := t, ControlMu := t];
    AcquiredFacts(sh, id, k, c);
    AcquireGrants(a, id, k, s, h);
    assert both - {ControlMu} == one;
    var s0 := Put(st, t, Thread(OInControl(id, k, s), todo), both, sh1);
    GoesNowhere(s0, t, c);
    ThenBody(s0, 0, st, t, c, OInControl(id, k, s), todo, both, sh1, Move(AcquireControl(k), OWantAct(id, k, s, h), {ControlMu}, []), one, a);
    ThenGrant(s0, 1, st, t, c, OWantAct(id, k, s, h), todo, one, a, OInAct(id, k, s, h), ActiveMu(s), map[ConnectMu := t, ActiveMu(s) := t]);
  }

  lemma {:induction false} OpenDials(st: St, t: Tid, id: Id, k: Key, s: Sref, h: Handle, todo: seq<Cmd>, a: Shared, c: Choice)
    requires !a.crashed && c.ok && c.target !in a.live
    ensures Goes(Put(st, t, Thread(OInAct(id, k, s, h), todo), map[ConnectMu := t, ActiveMu(s) := t], a), t, c, 3,
                 Put(st, t, Thread(OAfter(id, k, s, h, a.live, c.target), todo), map[ConnectMu := t], Apply(a, Dial(c.target))))
  {
    hide Next, Wants, Granted, Body, Put, Goes, Apply;
    var one, act := map[ConnectMu := t], map[ConnectMu := t, ActiveMu(s) := t];
    DialUnblocked(id, k, s, h, a.live, c.target);
    SnapBodies(a, id, k, s, h, c);
    NothingChanges(a);
    assert one - {} == one && act - {ActiveMu(s)} == one;
    var s0 := Put(st, t, Thread(OInAct(id, k, s, h), todo), act, a);
    GoesNowhere(s0, t, c);
    ThenBody(s0, 0, st, t, c, OInAct(id, k, s, h), todo, act, a, Move(Nothing, OSnap(id, k, s, h), {ActiveMu(s)}, []), one, a);
    ThenBody(s0, 1, st, t, c, OSnap(id, k, s, h), todo, one, a, Move(Nothing, ODial(id, k, s, h, a.live), {}, []), one, a);
    ThenBody(s0, 2, st, t, c, ODial(id, k, s, h, a.live), todo, one, a, Move(Dial(c.target), OAfter(id, k, s, h, a.live, c.target), {}, []), one, Apply(a, Dial(c.target)));
  }

  /** The shared state with the link recorded. */
  function LinkedOn(sh: Shared, k: Key, target: Target): Shared
  {
    Apply(Apply(Acquired(sh, k), Dial(target)), SetLink(sh.nextSref, Link(target, target, sh.nextHandle)))
  }

  lemma {:induction false} LinkBodies(sh: Shared, id: Id, k: Key, c: Choice)
    requires CanOpen(sh, id, k, c)
    ensures var s, h, a := sh.nextSref, sh.nextHandle, Acquired(sh, k);
            && Body(Apply(a, Dial(c.target)), OAfter(id, k, s, h, a.live, c.target), c)
               == Some(Move(SetLink(s, Link(c.target, c.target, h)), OConnected(id, k, s), {}, []))
            && !Apply(a, Dial(c.target)).crashed
            && LinkedOn(sh, k, c.target) == Apply(Apply(a, Dial(c.target)), SetLink(s, Link(c.target, c.target, h)))
  {
    var a := Acquired(sh, k);
    assert (a.live + {c.target}) - a.live == {c.target};
  }

  lemma {:induction false} ConnectedBody(sh: Shared, id: Id, k: Key, c: Choice)
    requires CanOpen(sh, id, k, c)
    ensures var s, l := sh.nextSref, LinkedOn(sh, k, c.target);
            !l.crashed && Body(l, OConnected(id, k, s), c) == Some(Move(Nothing, OWantReg(id, k, s), {ConnectMu}, []))
  {
  }

  lemma {:induction false} RegisterBodies(sh: Shared, id: Id, k: Key, c: Choice)
    requires CanOpen(sh, id, k, c)
    ensures var s, l := sh.nextSref, LinkedOn(sh, k, c.target);
            && !l.crashed && Body(l, OInReg(id, k, s), c) == Some(Move(Register(id, s), Idle, {RMu}, []))
            && Apply(l, Register(id, s)) == OpenedOn(sh, id, k, c.target)
  {
    hide Body;
    var l := LinkedOn(sh, k, c.target);
    assert !l.crashed && l.registry == sh.registry;
    RegisterBody(l, id, k, sh.nextSref, c);
  }

  lemma {:induction false} RegisterBody(sh: Shared, id: Id, k: Key, s: Sref, c: Choice)
    requires id !in sh.registry && |sh.registry| < MAX_SESSIONS
    ensures Body(sh, OInReg(id, k, s), c) == Some(Move(Register(id, s), Idle, {RMu}, []))
  {
  }

  lemma {:induction false} OpenLinks(st: St, t: Tid, id: Id, k: Key, todo: seq<Cmd>, sh: Shared, c: Choice)
    requires CanOpen(sh, id, k, c)
    ensures var s, h, a := sh.nextSref, sh.nextHandle, Acquired(sh, k);
            && Goes(Put(st, t, Thread(OAfter(id, k, s, h, a.live, c.target), todo), map[ConnectMu := t], Apply(a, Dial(c.target))), t, c, 2,
                    Put(st, t, Thread(OWantReg(id, k, s), todo), map[], LinkedOn(sh, k, c.target)))
  {
    hide Next, Wants, Granted, Body, Put, Goes, Apply, OpenedOn, LinkedOn, CanOpen, Acquired;
    var s, h, a, one, l := sh.nextSref, sh.nextHandle, Acquired(sh, k), map[ConnectMu := t], LinkedOn(sh, k, c.target);
    var dialled := Apply(a, Dial(c.target));
    LinkBodies(sh, id, k, c);
    ConnectedBody(sh, id, k, c);
    DialUnblocked(id, k, s, h, a.live, c.target);
    NothingChanges(l);
    assert one - {} == one && one - {ConnectMu} == map[];
    var s0 := Put(st, t, Thread(OAfter(id, k, s, h, a.live, c.target), todo), one, dialled);
    GoesNowhere(s0, t, c);
    ThenBody(s0, 0, st, t, c, OAfter(id, k, s, h, a.live, c.target), todo, one, dialled, Move(SetLink(s, Link(c.target, c.target, h)), OConnected(id, k, s), {}, []), one, l);
    ThenBody(s0, 1, st, t, c, OConnected(id, k, s), todo, one, l, Move(Nothing, OWantReg(id, k, s), {ConnectMu}, []), map[], l);
  }

  lemma {:induction false} OpenRegisters(st: St, t: Tid, id: Id, k: Key, todo: seq<Cmd>, sh: Shared, c: Choice)
    requires CanOpen(sh, id, k, c)
    ensures Goes(Put(st, t, Thread(OWantReg(id, k, sh.nextSref), todo), map[], LinkedOn(sh, k, c.target)), t, c, 2,
                 Put(st, t, Thread(Idle, todo), map[], OpenedOn(sh, id, k, c.target)))
  {
    hide Next, Wants, Granted, Body, Put, Goes, Apply, OpenedOn, LinkedOn, CanOpen;
    var s, l := sh.nextSref, LinkedOn(sh, k, c.target);
    RegisterBodies(sh, id, k, c);
    RegisterGrants(l, id, k, s);
    assert map[RMu := t] - {RMu} == map[];
    var s0 := Put(st, t, Thread(OWantReg(id, k, s), todo), map[], l);
    GoesNowhere(s0, t, c);
    ThenGrant(s0, 0, st, t, c, OWantReg(id, k, s), todo, map[], l, OInReg(id, k, s), RMu, map[RMu := t]);
    ThenBody(s0, 1, st, t, c, OInReg(id, k, s), todo, map[RMu := t], l, Move(Register(id, s), Idle, {RMu}, []), map[], OpenedOn(sh, id, k, c.target));
  }

  lemma {:induction false} FreeToOpen(sh: Shared, id: Id, k: Key, c: Choice)
    requires CanOpen(sh, id, k, c)
    ensures MayOpen(sh, id)
  {
  }

  /** An open that nobody interrupts and the database grants registers its session after fourteen steps. */
  lemma {:induction false} OpenGoes(st: St, t: Tid, id: Id, k: Key, todo: seq<Cmd>, sh: Shared, c: Choice)
    requires CanOpen(sh, id, k, c)
    ensures Goes(Put(st, t, Thread(Idle, [Open(id, k)] + todo), map[], sh), t, c, 14, Put(st, t, Thread(Idle, todo), map[], OpenedOn(sh, id, k, c.target)))
  {
    hide Put, Goes, Apply, Acquired, OpenedOn, LinkedOn, CanOpen, Body;
    var s, h, a := sh.nextSref, sh.nextHandle, Acquired(sh, k);
    var s0 := Put(st, t, Thread(Idle, [Open(id, k)] + todo), map[], sh);
    var s5 := Put(st, t, Thread(OInControl(id, k, s), todo), map[ConnectMu := t, ControlMu := t], Apply(sh, Alloc(k)));
    var s7 := Put(st, t, Thread(OInAct(id, k, s, h), todo), map[ConnectMu := t, ActiveMu(s) := t], a);
    var s10 := Put(st, t, Thread(OAfter(id, k, s, h, a.live, c.target), todo), map[ConnectMu := t], Apply(a, Dial(c.target)));
    var s12 := Put(st, t, Thread(OWantReg(id, k, s), todo), map[], LinkedOn(sh, k, c.target));
    FreeToOpen(sh, id, k, c);
    OpenChecks(st, t, id, k, todo, sh, c);
    OpenAcquires(st, t, id, k, todo, sh, c);
    GoesFurther(s0, t, c, 5, 2, s5, s7);
    AcquiredFacts(sh, id, k, c);
    OpenDials(st, t, id, k, s, h, todo, a, c);
    GoesFurther(s0, t, c, 7, 3, s7, s10);
    OpenLinks(st, t, id, k, todo, sh, c);
    GoesFurther(s0, t, c, 10, 2, s10, s12);
    OpenRegisters(st, t, id, k, todo, sh, c);
    GoesFurther(s0, t, c, 12, 2, s12, Put(st, t, Thread(Idle, todo), map[], OpenedOn(sh, id, k, c.target)));
  }

  // ---- Closing ----

  lemma {:induction false} CloseGrants(sh: Shared, id: Id, k: Key, s: Sref)
    ensures StartOf(Close(id)) == CWantTake(id) && Wants(CWantTake(id)) == Some(RMu) && Granted(sh, CWantTake(id)) == CInTake(id)
    ensures Wants(CWantSess(k, s)) == Some(SessMu(s)) && Granted(sh, CWantSess(k, s)) == CWantAct(k, s)
    ensures Wants(CWantAct(k, s)) == Some(ActiveMu(s)) && Granted(sh, CWantAct(k, s)) == CInAct(k, s)
    ensures Wants(CWantRel(k, s)) == Some(ControlMu) && Granted(sh, CWantRel(k, s)) == CInRel(k, s)
    ensures Wants(CInTake(id)).None? && Wants(CInAct(k, s)).None? && Wants(CInRel(k, s)).None?
  {
    hide HandleOf, Wants;
    CloseWants(id, k, s);
  }

  lemma {:induction false} CloseWants(id: Id, k: Key, s: Sref)
    ensures Wants(CWantTake(id)) == Some(RMu) && Wants(CWantSess(k, s)) == Some(SessMu(s))
    ensures Wants(CWantAct(k, s)) == Some(ActiveMu(s)) && Wants(CWantRel(k, s)) == Some(ControlMu)
    ensures Wants(CInTake(id)).None? && Wants(CInAct(k, s)).None? && Wants(CInRel(k, s)).None?
  {
  }

  lemma {:induction false} CloseBodies(sh: Shared, id: Id, k: Key, s: Sref, c: Choice)
    ensures Body(sh, CInAct(k, s), c) == Some(Move(Disconnect(s), CWantRel(k, s), {ActiveMu(s)}, []))
    ensures Body(sh, CInRel(k, s), c) == Some(Move(ReleaseControl(k), Idle, {SessMu(s), ControlMu}, []))
    ensures id in sh.registry && sh.registry[id] == s && s in sh.heap && sh.heap[s].key == k ==>
              Body(sh, CInTake(id), c) == Some(Move(Take(id), CWantSess(k, s), {RMu}, []))
  {
    hide HandleOf, Lists, CloseEach;
  }

  lemma {:induction false} TakeGoes(st: St, t: Tid, id: Id, todo: seq<Cmd>, sh: Shared, c: Choice)
    requires !sh.crashed && id in sh.registry && sh.registry[id] in sh.heap
    ensures var s := sh.registry[id];
            Goes(Put(st, t, Thread(Idle, [Close(id)] + todo), map[], sh), t, c, 3, Put(st, t, Thread(CWantSess(sh.heap[s].key, s), todo), map[], Apply(sh, Take(id))))
  {
    hide Next, Wants, Granted, Body, Put, Goes, Apply, StartOf;
    var s := sh.registry[id];
    var k := sh.heap[s].key;
    CloseGrants(sh, id, k, s);
    CloseBodies(sh, id, k, s, c);
    assert map[RMu := t] - {RMu} == map[];
    var s0 := Put(st, t, Thread(Idle, [Close(id)] + todo), map[], sh);
    StartsWith(st, t, c, Close(id), todo, sh);
    ThenGrant(s0, 1, st, t, c, CWantTake(id), todo, map[], sh, CInTake(id), RMu, map[RMu := t]);
    ThenBody(s0, 2, st, t, c, CInTake(id), todo, map[RMu := t], sh, Move(Take(id), CWantSess(k, s), {RMu}, []), map[], Apply(sh, Take(id)));
  }

  lemma {:induction false} CutGoes(st: St, t: Tid, id: Id, k: Key, s: Sref, todo: seq<Cmd>, sh: Shared, c: Choice)
    requires !sh.crashed
    ensures Goes(Put(st, t, Thread(CWantSess(k, s), todo), map[], sh), t, c, 3, Put(st, t, Thread(CWantRel(k, s), todo), map[SessMu(s) := t], Apply(sh, Disconnect(s))))
  {
    hide Next, Wants, Granted, Body, Put, Goes, Apply;
    var one, act := map[SessMu(s) := t], map[SessMu(s) := t, ActiveMu(s) := t];
    CloseGrants(sh, id, k, s);
    CloseBodies(sh, id, k, s, c);
    assert act - {ActiveMu(s)} == one;
    var s0 := Put(st, t, Thread(CWantSess(k, s), todo), map[], sh);
    GoesNowhere(s0, t, c);
    ThenGrant(s0, 0, st, t, c, CWantSess(k, s), todo, map[], sh, CWantAct(k, s), SessMu(s), one);
    ThenGrant(s0, 1, st, t, c, CWantAct(k, s), todo, one, sh, CInAct(k, s), ActiveMu(s), act);
    ThenBody(s0, 2, st, t, c, CInAct(k, s), todo, act, sh, Move(Disconnect(s), CWantRel(k, s), {ActiveMu(s)}, []), one, Apply(sh, Disconnect(s)));
  }

  lemma {:induction false} ReleaseGoes(st: St, t: Tid, id: Id, k: Key, s: Sref, todo: seq<Cmd>, sh: Shared, c: Choice)
    requires !sh.crashed
    ensures Goes(Put(st, t, Thread(CWantRel(k, s), todo), map[SessMu(s) := t], sh), t, c, 2, Put(st, t, Thread(Idle, todo), map[], Apply(sh, ReleaseControl(k))))
  {
    hide Next, Wants, Granted, Body, Put, Goes, Apply;
    var one, both := map[SessMu(s) := t], map[SessMu(s) := t, ControlMu := t];
    CloseGrants(sh, id, k, s);
    CloseBodies(sh, id, k, s, c);
    assert both - {SessMu(s), ControlMu} == map[];
    var s0 := Put(st, t, Thread(CWantRel(k, s), todo), one, sh);
    GoesNowhere(s0, t, c);
    ThenGrant(s0, 0, st, t, c, CWantRel(k, s), todo, one, sh, CInRel(k, s), ControlMu, both);
    ThenBody(s0, 1, st, t, c, CInRel(k, s), todo, both, sh, Move(ReleaseControl(k), Idle, {SessMu(s), ControlMu}, []), map[], Apply(sh, ReleaseControl(k)));
  }

  /** The shared state after session s, registered under id with key k, has been closed. */
  function ClosedOn(sh: Shared, id: Id, k: Key, s: Sref): Shared
  {
    Apply(Apply(Apply(sh, Take(id)), Disconnect(s)), ReleaseControl(k))
  }

  lemma {:induction false} ClosedFacts(sh: Shared, id: Id, k: Key, s: Sref)
    requires !sh.crashed
    ensures !Apply(sh, Take(id)).crashed && !Apply(Apply(sh, Take(id)), Disconnect(s)).crashed
    ensures !ClosedOn(sh, id, k, s).crashed && HandleOf(ClosedOn(sh, id, k, s), s).None?
  {
    CutState(Apply(sh, Take(id)), s);
    hide KillOf;
    var cut := Apply(Apply(sh, Take(id)), Disconnect(s));
    assert Apply(cut, ReleaseControl(k)).heap == cut.heap;
  }

  /** A close that nobody interrupts leaves the session without a handle after eight steps. */
  lemma {:induction false} CloseGoes(st: St, t: Tid, id: Id, todo: seq<Cmd>, sh: Shared, c: Choice)
    requires !sh.crashed && id in sh.registry && sh.registry[id] in sh.heap
    ensures var s := sh.registry[id];
            Goes(Put(st, t, Thread(Idle, [Close(id)] + todo), map[], sh), t, c, 8, Put(st, t, Thread(Idle, todo), map[], ClosedOn(sh, id, sh.heap[s].key, s)))
  {
    hide Put, Goes, Apply, Body;
    var s := sh.registry[id];
    var k := sh.heap[s].key;
    var taken := Apply(sh, Take(id));
    var cut := Apply(taken, Disconnect(s));
    var s0 := Put(st, t, Thread(Idle, [Close(id)] + todo), map[], sh);
    ClosedFacts(sh, id, k, s);
    TakeGoes(st, t, id, todo, sh, c);
    CutGoes(st, t, id, k, s, todo, taken, c);
    GoesFurther(s0, t, c, 3, 3, Put(st, t, Thread(CWantSess(k, s), todo), map[], taken), Put(st, t, Thread(CWantRel(k, s), todo), map[SessMu(s) := t], cut));
    ReleaseGoes(st, t, id, k, s, todo, cut, c);
    GoesFurther(s0, t, c, 6, 2, Put(st, t, Thread(CWantRel(k, s), todo), map[SessMu(s) := t], cut), Put(st, t, Thread(Idle, todo), map[], ClosedOn(sh, id, k, s)));
  }
}
