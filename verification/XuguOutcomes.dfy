/** The other outcomes of requests that no thread interrupts: refused and failed opens, unknown ids, validations that succeed, and shutdown. */
module XuguOutcomes {
  import opened Common
  import opened XuguRuntime
  import opened XuguSteps
  import opened XuguRequests

  // ---- Requests that change nothing ----

  lemma {:induction false} OnlyLooks(st: St, t: Tid, cmd: Cmd, todo: seq<Cmd>, sh: Shared, c: Choice, a: PC, b: PC)
    requires !sh.crashed && StartOf(cmd) == a && !a.Idle? && !b.Idle? && Wants(a) == Some(RMu) && Granted(sh, a) == b && Wants(b).None?
    requires Body(sh, b, c) == Some(Move(Nothing, Idle, {RMu}, []))
    ensures Goes(Put(st, t, Thread(Idle, [cmd] + todo), map[], sh), t, c, 3, Put(st, t, Thread(Idle, todo), map[], sh))
  {
    hide Next, Wants, Granted, Body, Put, Goes, Apply, StartOf;
    var s0 := Put(st, t, Thread(Idle, [cmd] + todo), map[], sh);
    NothingChanges(sh);
    assert map[RMu := t] - {RMu} == map[];
    StartsWith(st, t, c, cmd, todo, sh);
    ThenGrant(s0, 1, st, t, c, a, todo, map[], sh, b, RMu, map[RMu := t]);
    ThenBody(s0, 2, st, t, c, b, todo, map[RMu := t], sh, Move(Nothing, Idle, {RMu}, []), map[], sh);
  }

  /** An open under a taken id, or with the registry full, ends at once and changes nothing. */
  lemma {:induction false} RefusedOpen(st: St, t: Tid, id: Id, k: Key, todo: seq<Cmd>, sh: Shared, c: Choice)
    requires !sh.crashed && (id in sh.registry || |sh.registry| >= 256)
    ensures Goes(Put(st, t, Thread(Idle, [Open(id, k)] + todo), map[], sh), t, c, 3, Put(st, t, Thread(Idle, todo), map[], sh))
  {
    hide Goes, Put;
    assert Body(sh, OInCheck(id, k), c) == Some(Move(Nothing, Idle, {RMu}, []));
    hide Body;
    OnlyLooks(st, t, Open(id, k), todo, sh, c, OWantCheck(id, k), OInCheck(id, k));
  }

  /** A close of an unknown id changes nothing. */
  lemma {:induction false} UnknownClose(st: St, t: Tid, id: Id, todo: seq<Cmd>, sh: Shared, c: Choice)
    requires !sh.crashed && id !in sh.registry
    ensures Goes(Put(st, t, Thread(Idle, [Close(id)] + todo), map[], sh), t, c, 3, Put(st, t, Thread(Idle, todo), map[], sh))
  {
    hide Goes, Put;
    assert Body(sh, CInTake(id), c) == Some(Move(Nothing, Idle, {RMu}, []));
    hide Body;
    OnlyLooks(st, t, Close(id), todo, sh, c, CWantTake(id), CInTake(id));
  }

  /** Nor does a validation, a query or a cancel for one. */
  lemma {:induction false} UnknownLookup(st: St, t: Tid, id: Id, op: Op, todo: seq<Cmd>, sh: Shared, c: Choice)
    requires !sh.crashed && id !in sh.registry
    ensures Goes(Put(st, t, Thread(Idle, [Lookup(id, op)] + todo), map[], sh), t, c, 3, Put(st, t, Thread(Idle, todo), map[], sh))
  {
    hide Goes, Put;
    assert Body(sh, LIn(id, op), c) == Some(Move(Nothing, Idle, {RMu}, []));
    hide Body;
    OnlyLooks(st, t, Lookup(id, op), todo, sh, c, LWant(id, op), LIn(id, op));
  }

  /** A validation that finds its connection in order changes nothing. */
  lemma {:induction false} HealthyValidation(st: St, t: Tid, s: Sref, todo: seq<Cmd>, sh: Shared, c: Choice)
    requires !sh.crashed && c.ok && HandleOf(sh, s).Some?
    ensures Goes(Put(st, t, Thread(VWantSess(s), todo), map[], sh), t, c, 2, Put(st, t, Thread(Idle, todo), map[], sh))
  {
    hide Next, Wants, Granted, Body, Put, Goes, Apply, HandleOf;
    var s0, one := Put(st, t, Thread(VWantSess(s), todo), map[], sh), map[SessMu(s) := t];
    ReconnectGrants(sh, s, None);
    ReconnectBodies(sh, s, None, c);
    NothingChanges(sh);
    assert one - {SessMu(s)} == map[];
    GoesNowhere(s0, t, c);
    ThenGrant(s0, 0, st, t, c, VWantSess(s), todo, map[], sh, VCheck(s), SessMu(s), one);
    ThenBody(s0, 1, st, t, c, VCheck(s), todo, one, sh, Move(Nothing, Idle, {SessMu(s)}, []), map[], sh);
  }

  // ---- A reconnect that is granted ----

  /** The shared state after session s has been given a new connection. */
  function ReconnectedOn(sh: Shared, s: Sref, target: Target): Shared
    requires HandleOf(sh, s).Some?
  {
    var cut := Apply(sh, Disconnect(s));
    cut.(live := cut.live + {target}, heap := cut.heap[s := Session(sh.heap[s].key, Some(Link(target, target, HandleOf(sh, s).value)), false)])
  }

  lemma {:induction false} ReconnectedFacts(sh: Shared, s: Sref, target: Target)
    requires HandleOf(sh, s).Some? && target !in Apply(sh, Disconnect(s)).live
    ensures var cut := Apply(sh, Disconnect(s));
            var dialled := Apply(cut, Dial(target));
            && dialled.crashed == cut.crashed == sh.crashed && dialled.live - cut.live == {target}
            && Apply(dialled, SetLink(s, Link(target, target, HandleOf(sh, s).value))) == ReconnectedOn(sh, s, target)
            && ReconnectedOn(sh, s, target).crashed == sh.crashed
  {
    hide KillOf;
  }

  lemma {:induction false} ReconnectTail(sh: Shared, s: Sref, h: Handle, before: set<Target>, conn: Target, c: Choice)
    ensures Wants(VDial(s, h, before)).None? && Wants(VAfter(s, h, before, conn)).None?
    ensures c.ok ==> Body(sh, VSnap(s, Some(h)), c) == Some(Move(Nothing, VDial(s, h, sh.live), {}, []))
    ensures c.ok && c.target !in sh.live ==> Body(sh, VDial(s, h, before), c) == Some(Move(Dial(c.target), VAfter(s, h, before, c.target), {}, []))
    ensures c.ok && sh.live - before == {c.target} ==>
              Body(sh, VAfter(s, h, before, conn), c) == Some(Move(SetLink(s, Link(conn, c.target, h)), VDone(s), {}, []))
  {
    hide HandleOf, Lists, CloseEach;
  }

  lemma {:induction false} ReconnectCuts(st: St, t: Tid, s: Sref, todo: seq<Cmd>, sh: Shared, c: Choice)
    requires !sh.crashed
    ensures Goes(Put(st, t, Thread(VWantConnect(s), todo), map[SessMu(s) := t], sh), t, c, 3,
                 Put(st, t, Thread(VSnap(s, HandleOf(sh, s)), todo), Two(t, s), Apply(sh, Disconnect(s))))
  {
    hide Next, Wants, Granted, Body, Put, Goes, Apply, HandleOf;
    var had, cut, one := HandleOf(sh, s), Apply(sh, Disconnect(s)), map[SessMu(s) := t];
    var s0 := Put(st, t, Thread(VWantConnect(s), todo), one, sh);
    ReconnectMoves(sh, s, had, c);
    assert Three(t, s) - {ActiveMu(s)} == Two(t, s);
    GoesNowhere(s0, t, c);
    ThenGrant(s0, 0, st, t, c, VWantConnect(s), todo, one, sh, VWantAct(s, had), ConnectMu, Two(t, s));
    ThenGrant(s0, 1, st, t, c, VWantAct(s, had), todo, Two(t, s), sh, VInAct(s, had), ActiveMu(s), Three(t, s));
    ThenBody(s0, 2, st, t, c, VInAct(s, had), todo, Three(t, s), sh, Move(Disconnect(s), VSnap(s, had), {ActiveMu(s)}, []), Two(t, s), cut);
  }

  lemma {:induction false} ReconnectDials(st: St, t: Tid, s: Sref, h: Handle, todo: seq<Cmd>, cut: Shared, c: Choice)
    requires !cut.crashed && c.ok && c.target !in cut.live
    ensures Goes(Put(st, t, Thread(VSnap(s, Some(h)), todo), Two(t, s), cut), t, c, 2,
                 Put(st, t, Thread(VAfter(s, h, cut.live, c.target), todo), Two(t, s), Apply(cut, Dial(c.target))))
  {
    hide Next, Wants, Granted, Body, Put, Goes, Apply;
    var s0 := Put(st, t, Thread(VSnap(s, Some(h)), todo), Two(t, s), cut);
    ReconnectTail(cut, s, h, cut.live, c.target, c);
    ReconnectWants(s, Some(h));
    NothingChanges(cut);
    assert Two(t, s) - {} == Two(t, s);
    GoesNowhere(s0, t, c);
    ThenBody(s0, 0, st, t, c, VSnap(s, Some(h)), todo, Two(t, s), cut, Move(Nothing, VDial(s, h, cut.live), {}, []), Two(t, s), cut);
    ThenBody(s0, 1, st, t, c, VDial(s, h, cut.live), todo, Two(t, s), cut, Move(Dial(c.target), VAfter(s, h, cut.live, c.target), {}, []), Two(t, s), Apply(cut, Dial(c.target)));
  }

  lemma {:induction false} ReconnectLinks(st: St, t: Tid, s: Sref, h: Handle, before: set<Target>, todo: seq<Cmd>, dialled: Shared, after: Shared, c: Choice)
    requires !dialled.crashed && !after.crashed && c.ok && dialled.live - before == {c.target} && after == Apply(dialled, SetLink(s, Link(c.target, c.target, h)))
    ensures Goes(Put(st, t, Thread(VAfter(s, h, before, c.target), todo), Two(t, s), dialled), t, c, 2, Put(st, t, Thread(Idle, todo), map[], after))
  {
    hide Next, Wants, Granted, Body, Put, Goes, Apply;
    var s0 := Put(st, t, Thread(VAfter(s, h, before, c.target), todo), Two(t, s), dialled);
    ReconnectTail(dialled, s, h, before, c.target, c);
    ReconnectWants(s, None);
    ReconnectBodies(after, s, None, c);
    NothingChanges(after);
    assert Two(t, s) - {} == Two(t, s) && Two(t, s) - {SessMu(s), ConnectMu} == map[];
    GoesNowhere(s0, t, c);
    ThenBody(s0, 0, st, t, c, VAfter(s, h, before, c.target), todo, Two(t, s), dialled, Move(SetLink(s, Link(c.target, c.target, h)), VDone(s), {}, []), Two(t, s), after);
    ThenBody(s0, 1, st, t, c, VDone(s), todo, Two(t, s), after, Move(Nothing, Idle, {SessMu(s), ConnectMu}, []), map[], after);
  }

  /** A validation whose connection is gone, once the database grants a new one, ends with the session on it, under the control connection it had. */
  lemma {:induction false} ReconnectGoes(st: St, t: Tid, s: Sref, todo: seq<Cmd>, sh: Shared, c: Choice)
    requires !sh.crashed && HandleOf(sh, s).Some? && c.ok && c.target !in Apply(sh, Disconnect(s)).live
    ensures Goes(Put(st, t, Thread(VWantConnect(s), todo), map[SessMu(s) := t], sh), t, c, 7,
                 Put(st, t, Thread(Idle, todo), map[], ReconnectedOn(sh, s, c.target)))
  {
    hide Put, Goes, Apply, HandleOf, ReconnectedOn;
    var h, cut := HandleOf(sh, s).value, Apply(sh, Disconnect(s));
    var dialled, after := Apply(cut, Dial(c.target)), ReconnectedOn(sh, s, c.target);
    var s0 := Put(st, t, Thread(VWantConnect(s), todo), map[SessMu(s) := t], sh);
    var s3 := Put(st, t, Thread(VSnap(s, Some(h)), todo), Two(t, s), cut);
    var s5 := Put(st, t, Thread(VAfter(s, h, cut.live, c.target), todo), Two(t, s), dialled);
    assert HandleOf(sh, s) == Some(h);
    ReconnectedFacts(sh, s, c.target);
    ReconnectCuts(st, t, s, todo, sh, c);
    ReconnectDials(st, t, s, h, todo, cut, c);
    GoesFurther(s0, t, c, 3, 2, s3, s5);
    ReconnectLinks(st, t, s, h, cut.live, todo, dialled, after, c);
    GoesFurther(s0, t, c, 5, 2, s5, Put(st, t, Thread(Idle, todo), map[], after));
  }

  // ---- Opens that fail ----

  lemma {:induction false} NoControlBodies(sh: Shared, id: Id, k: Key, s: Sref, c: Choice)
    requires !c.ok && k !in sh.controls
    ensures Wants(OInControl(id, k, s)).None? && Body(sh, OInControl(id, k, s), c) == Some(Move(Nothing, ONoControl(s), {ControlMu}, []))
    ensures Wants(ONoControl(s)).None? && Body(sh, ONoControl(s), c) == Some(Move(Nothing, Idle, {ConnectMu}, []))
  {
  }

  lemma {:induction false} AllocFacts(sh: Shared, k: Key)
    ensures var a := Apply(sh, Alloc(k));
            && a.crashed == sh.crashed && a.registry == sh.registry && a.controls == sh.controls && a.openHandles == sh.openHandles && a.live == sh.live
            && a.heap == sh.heap[sh.nextSref := Session(k, None, false)]
  {
  }

  /** Without a control connection and with the database refusing, an open leaves registry, controls and server as they were. */
  lemma {:induction false} FailedOpenFresh(st: St, t: Tid, id: Id, k: Key, todo: seq<Cmd>, sh: Shared, c: Choice)
    requires MayOpen(sh, id) && k !in sh.controls && !c.ok
    ensures var after := Apply(sh, Alloc(k));
            && Goes(Put(st, t, Thread(Idle, [Open(id, k)] + todo), map[], sh), t, c, 7, Put(st, t, Thread(Idle, todo), map[], after))
            && after.registry == sh.registry && after.controls == sh.controls && after.live == sh.live
  {
    hide Next, Wants, Granted, Body, Put, Goes, Apply;
    var after, s, both, one := Apply(sh, Alloc(k)), sh.nextSref, map[ConnectMu := t, ControlMu := t], map[ConnectMu := t];
    AllocFacts(sh, k);
    OpenChecks(st, t, id, k, todo, sh, c);
    NoControlBodies(after, id, k, s, c);
    NothingChanges(after);
    assert both - {ControlMu} == one && one - {ConnectMu} == map[];
    var s0 := Put(st, t, Thread(Idle, [Open(id, k)] + todo), map[], sh);
    ThenBody(s0, 5, st, t, c, OInControl(id, k, s), todo, both, after, Move(Nothing, ONoControl(s), {ControlMu}, []), one, after);
    ThenBody(s0, 6, st, t, c, ONoControl(s), todo, one, after, Move(Nothing, Idle, {ConnectMu}, []), map[], after);
  }

  lemma {:induction false} HeldControlBodies(sh: Shared, id: Id, k: Key, s: Sref, h: Handle, c: Choice)
    requires k in sh.controls && h == sh.controls[k].handle && !c.ok
    ensures Wants(OInControl(id, k, s)).None? && Body(sh, OInControl(id, k, s), c) == Some(Move(AcquireControl(k), OWantAct(id, k, s, h), {ControlMu}, []))
    ensures forall a: Shared :: Body(a, OInAct(id, k, s, h), c) == Some(Move(Nothing, OSnap(id, k, s, h), {ActiveMu(s)}, []))
    ensures forall a: Shared :: Body(a, OSnap(id, k, s, h), c) == Some(Move(Nothing, OFail(k, s), {}, []))
  {
  }

  lemma {:induction false} FailBodies(a: Shared, k: Key, s: Sref, c: Choice)
    ensures Wants(OFail(k, s)).None? && Body(a, OFail(k, s), c) == Some(Move(Nothing, OWantRel(k, s), {ConnectMu}, []))
    ensures Wants(OWantRel(k, s)) == Some(ControlMu) && Granted(a, OWantRel(k, s)) == OInRel(k, s)
    ensures Wants(OInRel(k, s)).None? && Body(a, OInRel(k, s), c) == Some(Move(ReleaseControl(k), Idle, {ControlMu}, []))
  {
  }

  lemma {:induction false} GivenBack(sh: Shared, k: Key)
    requires k in sh.controls && sh.controls[k].refs > 0
    ensures Apply(sh, AcquireControl(k)).crashed == sh.crashed
    ensures Apply(Apply(sh, AcquireControl(k)), ReleaseControl(k)) == sh
  {
    var more := Apply(sh, AcquireControl(k));
    assert Apply(more, ReleaseControl(k)).controls == sh.controls;
  }

  lemma {:induction false} FailedConnect(st: St, t: Tid, id: Id, k: Key, todo: seq<Cmd>, a: Shared, s: Sref, c: Choice)
    requires !a.crashed && k in a.controls && a.controls[k].refs > 0 && !c.ok
    ensures Goes(Put(st, t, Thread(OInControl(id, k, s), todo), map[ConnectMu := t, ControlMu := t], a), t, c, 4,
                 Put(st, t, Thread(OFail(k, s), todo), map[ConnectMu := t], Apply(a, AcquireControl(k))))
  {
    hide Next, Wants, Granted, Body, Put, Goes, Apply;
    var h, both, one, act := a.controls[k].handle, map[ConnectMu := t, ControlMu := t], map[ConnectMu := t], map[ConnectMu := t, ActiveMu(s) := t];
    var more := Apply(a, AcquireControl(k));
    var s0 := Put(st, t, Thread(OInControl(id, k, s), todo), both, a);
    GivenBack(a, k);
    HeldControlBodies(a, id, k, s, h, c);
    AcquireGrants(more, id, k, s, h);
    DialUnblocked(id, k, s, h, {}, c.target);
    NothingChanges(more);
    assert both - {ControlMu} == one && act - {ActiveMu(s)} == one && one - {} == one;
    GoesNowhere(s0, t, c);
    ThenBody(s0, 0, st, t, c, OInControl(id, k, s), todo, both, a, Move(AcquireControl(k), OWantAct(id, k, s, h), {ControlMu}, []), one, more);
    ThenGrant(s0, 1, st, t, c, OWantAct(id, k, s, h), todo, one, more, OInAct(id, k, s, h), ActiveMu(s), act);
    ThenBody(s0, 2, st, t, c, OInAct(id, k, s, h), todo, act, more, Move(Nothing, OSnap(id, k, s, h), {ActiveMu(s)}, []), one, more);
    ThenBody(s0, 3, st, t, c, OSnap(id, k, s, h), todo, one, more, Move(Nothing, OFail(k, s), {}, []), one, more);
  }

  lemma {:induction false} FailedRelease(st: St, t: Tid, k: Key, todo: seq<Cmd>, a: Shared, s: Sref, c: Choice)
    requires !a.crashed && k in a.controls && a.controls[k].refs > 0
    ensures Goes(Put(st, t, Thread(OFail(k, s), todo), map[ConnectMu := t], Apply(a, AcquireControl(k))), t, c, 3, Put(st, t, Thread(Idle, todo), map[], a))
  {
    hide Next, Wants, Granted, Body, Put, Goes, Apply;
    var more, one, rel := Apply(a, AcquireControl(k)), map[ConnectMu := t], map[ControlMu := t];
    var s0 := Put(st, t, Thread(OFail(k, s), todo), one, more);
    GivenBack(a, k);
    FailBodies(more, k, s, c);
    NothingChanges(more);
    assert one - {ConnectMu} == map[] && rel - {ControlMu} == map[];
    GoesNowhere(s0, t, c);
    ThenBody(s0, 0, st, t, c, OFail(k, s), todo, one, more, Move(Nothing, OWantRel(k, s), {ConnectMu}, []), map[], more);
    ThenGrant(s0, 1, st, t, c, OWantRel(k, s), todo, map[], more, OInRel(k, s), ControlMu, rel);
    ThenBody(s0, 2, st, t, c, OInRel(k, s), todo, rel, more, Move(ReleaseControl(k), Idle, {ControlMu}, []), map[], a);
  }

  /** With a control connection in use and the database refusing, an open gives the reference back. */
  lemma {:induction false} FailedOpenShared(st: St, t: Tid, id: Id, k: Key, todo: seq<Cmd>, sh: Shared, c: Choice)
    requires MayOpen(sh, id) && k in sh.controls && sh.controls[k].refs > 0 && !c.ok
    ensures var after := Apply(sh, Alloc(k));
            && Goes(Put(st, t, Thread(Idle, [Open(id, k)] + todo), map[], sh), t, c, 12, Put(st, t, Thread(Idle, todo), map[], after))
            && after.registry == sh.registry && after.controls == sh.controls && after.live == sh.live
  {
    hide Put, Goes, Apply;
    var a, s := Apply(sh, Alloc(k)), sh.nextSref;
    var s0 := Put(st, t, Thread(Idle, [Open(id, k)] + todo), map[], sh);
    var failed := Put(st, t, Thread(OFail(k, s), todo), map[ConnectMu := t], Apply(a, AcquireControl(k)));
    AllocFacts(sh, k);
    OpenChecks(st, t, id, k, todo, sh, c);
    FailedConnect(st, t, id, k, todo, a, s, c);
    GoesFurther(s0, t, c, 5, 4, Put(st, t, Thread(OInControl(id, k, s), todo), map[ConnectMu := t, ControlMu := t], a), failed);
    FailedRelease(st, t, k, todo, a, s, c);
    GoesFurther(s0, t, c, 9, 3, failed, Put(st, t, Thread(Idle, todo), map[], a));
  }

  // ---- Shutdown ----

  lemma {:induction false} ShutdownMoves(sh: Shared, c: Choice)
    requires Lists(c.ids, sh.registry.Keys)
    ensures StartOf(Shutdown) == SWant && Wants(SWant) == Some(RMu) && Granted(sh, SWant) == SIn && Wants(SIn).None?
    ensures Body(sh, SIn, c) == Some(Move(Nothing, Idle, {RMu}, CloseEach(c.ids)))
  {
    hide HandleOf, Lists, CloseEach;
  }

  lemma {:induction false} SnapshotStep(st: St, t: Tid, todo: seq<Cmd>, sh: Shared, c: Choice)
    requires !sh.crashed && Lists(c.ids, sh.registry.Keys)
    ensures Next(Put(st, t, Thread(SIn, todo), map[RMu := t], sh), Step(t, c)) == Some(Put(st, t, Thread(Idle, CloseEach(c.ids) + todo), map[], sh))
  {
    ShutdownMoves(sh, c);
    hide Wants, Body, Lists, CloseEach;
    assert map[RMu := t] - {RMu} == map[];
    PutTwice(st, t, Thread(SIn, todo), Thread(Idle, CloseEach(c.ids) + todo));
  }

  /** A shutdown turns into the closing of every registered id. */
  lemma {:induction false} ShutdownGoes(st: St, t: Tid, todo: seq<Cmd>, sh: Shared, c: Choice)
    requires !sh.crashed && Lists(c.ids, sh.registry.Keys)
    ensures Goes(Put(st, t, Thread(Idle, [Shutdown] + todo), map[], sh), t, c, 3, Put(st, t, Thread(Idle, CloseEach(c.ids) + todo), map[], sh))
  {
    hide Next, Wants, Granted, Body, Put, Goes, StartOf, Lists, CloseEach;
    var s0 := Put(st, t, Thread(Idle, [Shutdown] + todo), map[], sh);
    ShutdownMoves(sh, c);
    StartsWith(st, t, c, Shutdown, todo, sh);
    ThenGrant(s0, 1, st, t, c, SWant, todo, map[], sh, SIn, RMu, map[RMu := t]);
    SnapshotStep(st, t, todo, sh, c);
    GoesOn(s0, t, c, 2, Put(st, t, Thread(SIn, todo), map[RMu := t], sh), Put(st, t, Thread(Idle, CloseEach(c.ids) + todo), map[], sh));
  }

  /** What closing leaves: the id gone, its session without a connection, and no other session connected that was not. */
  lemma {:induction false} ClosedShape(sh: Shared, id: Id)
    requires !sh.crashed && id in sh.registry && sh.registry[id] in sh.heap
    ensures var s := sh.registry[id];
            var after := ClosedOn(sh, id, sh.heap[s].key, s);
            && !after.crashed && after.registry == sh.registry - {id} && after.heap.Keys == sh.heap.Keys && HandleOf(after, s).None?
            && forall o :: HandleOf(sh, o).None? ==> HandleOf(after, o).None?
  {
    var s := sh.registry[id];
    var k := sh.heap[s].key;
    ClosedFacts(sh, id, k, s);
    var taken := Apply(sh, Take(id));
    DisconnectShape(taken, s);
    var cut := Apply(taken, Disconnect(s));
    ReleaseShape(cut, k);
    assert taken.heap == sh.heap && taken.registry == sh.registry - {id};
  }

  lemma {:induction false} DisconnectShape(sh: Shared, s: Sref)
    ensures var cut := Apply(sh, Disconnect(s));
            cut.registry == sh.registry && cut.heap.Keys == sh.heap.Keys && forall o :: HandleOf(sh, o).None? ==> HandleOf(cut, o).None?
  {
    hide KillOf;
  }

  lemma {:induction false} ReleaseShape(sh: Shared, k: Key)
    ensures var after := Apply(sh, ReleaseControl(k)); after.registry == sh.registry && after.heap == sh.heap
  {
  }

  ghost predicate Known(sh: Shared)
  {
    forall id :: id in sh.registry ==> sh.registry[id] in sh.heap
  }

  lemma {:induction false} CloseFirst(ids: seq<Id>, todo: seq<Cmd>)
    requires ids != []
    ensures CloseEach(ids) + todo == [Close(ids[0])] + (CloseEach(ids[1..]) + todo)
  {
  }

  /** Closing a list of ids one after the other. */
  lemma {:induction false} ClosesEach(st: St, t: Tid, ids: seq<Id>, todo: seq<Cmd>, sh: Shared, c: Choice) returns (n: nat, after: Shared)
    requires !sh.crashed && Known(sh)
    ensures Goes(Put(st, t, Thread(Idle, CloseEach(ids) + todo), map[], sh), t, c, n, Put(st, t, Thread(Idle, todo), map[], after))
    ensures forall id :: id in after.registry <==> id in sh.registry && id !in ids
    ensures forall id :: id in sh.registry && id in ids ==> HandleOf(after, sh.registry[id]).None?
    ensures forall o :: HandleOf(sh, o).None? ==> HandleOf(after, o).None?
    ensures forall id :: id in after.registry ==> after.registry[id] == sh.registry[id]
    decreases |ids|
  {
    hide Put, Goes, HandleOf, CloseEach, ClosedOn;
    if ids == [] {
      NoneToClose(todo);
      GoesNowhere(Put(st, t, Thread(Idle, todo), map[], sh), t, c);
      return 0, sh;
    }
    var id := ids[0];
    CloseFirst(ids, todo);
    var rest := CloseEach(ids[1..]) + todo;
    var s0 := Put(st, t, Thread(Idle, [Close(id)] + rest), map[], sh);
    var next, k := sh, 3;
    if id in sh.registry {
      next, k := ClosedOn(sh, id, sh.heap[sh.registry[id]].key, sh.registry[id]), 8;
      ClosedShape(sh, id);
      CloseGoes(st, t, id, rest, sh, c);
    } else {
      UnknownClose(st, t, id, rest, sh, c);
    }
    var m;
    m, after := ClosesEach(st, t, ids[1..], todo, next, c);
    GoesFurther(s0, t, c, k, m, Put(st, t, Thread(Idle, rest), map[], next), Put(st, t, Thread(Idle, todo), map[], after));
    n := k + m;
    assert forall i :: i in ids <==> i == id || i in ids[1..];
  }

  lemma {:induction false} NoneToClose(todo: seq<Cmd>)
    ensures CloseEach([]) + todo == todo
  {
  }

  /** A shutdown that nobody interrupts empties the registry and disconnects every session that was in it. */
  lemma {:induction false} ShutdownCloses(st: St, t: Tid, todo: seq<Cmd>, sh: Shared, c: Choice) returns (n: nat, after: Shared)
    requires !sh.crashed && Known(sh) && Lists(c.ids, sh.registry.Keys)
    ensures Goes(Put(st, t, Thread(Idle, [Shutdown] + todo), map[], sh), t, c, n, Put(st, t, Thread(Idle, todo), map[], after))
    ensures after.registry == map[] && forall id :: id in sh.registry ==> HandleOf(after, sh.registry[id]).None?
  {
    hide Put, Goes, HandleOf, CloseEach, Lists, Known;
    ShutdownGoes(st, t, todo, sh, c);
    var m;
    m, after := ClosesEach(st, t, c.ids, todo, sh, c);
    n := 3 + m;
    GoesFurther(Put(st, t, Thread(Idle, [Shutdown] + todo), map[], sh), t, c, 3, m, Put(st, t, Thread(Idle, CloseEach(c.ids) + todo), map[], sh),
                Put(st, t, Thread(Idle, todo), map[], after));
    AllListed(sh.registry, after.registry, c.ids);
  }

  lemma {:induction false} AllListed(before: map<Id, Sref>, after: map<Id, Sref>, ids: seq<Id>)
    requires Lists(ids, before.Keys) && forall id :: id in after <==> id in before && id !in ids
    ensures after == map[] && forall id :: id in before ==> id in ids
  {
    forall id ensures id !in after {
      assert id in before.Keys ==> id in ids;
    }
    assert after.Keys == {};
  }
}
