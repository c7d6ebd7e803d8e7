/** What holds in every run of the Xugu runtime, whatever the interleaving and the database answers. */
module XuguRuns {
  import opened Common
  import opened XuguRuntime
  import opened XuguLocks
  import opened XuguInvariants
  import opened XuguSteps
  import opened XuguLinks
  import opened XuguSafety

  // ---- Every event keeps the invariant ----

  lemma {:induction false} StepKeeps(st: St, t: Tid, c: Choice)
    requires Inv(st) && t in st.threads && ThreadStep(st, t, c).Some?
    ensures Core(ThreadStep(st, t, c).value)
  {
    hide Inv, Core, Body, Wants, Granted, Apply, Quiet, Fits;
    var th := st.threads[t];
    var st' := ThreadStep(st, t, c).value;
    if th.pc.Idle? {
      StartQuiet(st.sh, th.todo[0]);
      QuietKeeps(st, t, st'.threads[t], st'.locks);
    } else if Wants(th.pc).Some? {
      GrantQuiet(st.sh, th.pc);
      QuietKeeps(st, t, st'.threads[t], st'.locks);
    } else {
      BodyFits(st.sh, th.pc, c);
      EffectKeeps(st, t, st'.threads[t], st'.locks, Body(st.sh, th.pc, c).value);
    }
  }

  /** A thread that has just started holds and owns nothing. */
  lemma {:induction false} SpawnKeeps(st: St, t: Tid, cmds: seq<Cmd>)
    requires Core(st) && t !in st.threads
    ensures Core(st.(threads := st.threads[t := Thread(Idle, cmds)]))
  {
    var st' := st.(threads := st.threads[t := Thread(Idle, cmds)]);
    IdleFacts();
    hide RegInv, HandleInv, TargetInv, KillInv, Owner, HeldKey, Visits, Connecting, Snapshot, Dialled, ControlIs;
    SpawnThreads(st, t, cmds);
    SpawnConn(st, t, cmds);
    forall k ensures RefOk(st', k) {
      assert RefOk(st, k);
      SpawnHolders(st, t, cmds, k);
    }
  }

  lemma {:induction false} SpawnHolders(st: St, t: Tid, cmds: seq<Cmd>, k: Key)
    requires t !in st.threads
    ensures Holders(st.(threads := st.threads[t := Thread(Idle, cmds)]), k) == Holders(st, k)
  {
    IdleFacts();
    hide Holders, HeldKey;
    var st' := st.(threads := st.threads[t := Thread(Idle, cmds)]);
    forall h ensures h in Holders(st', k) <==> h in Holders(st, k) {
      InHolders(st, k, h);
      InHolders(st', k, h);
    }
  }

  lemma {:induction false} SpawnThreads(st: St, t: Tid, cmds: seq<Cmd>)
    requires OwnInv(st) && SnapInv(st) && t !in st.threads
    ensures var st' := st.(threads := st.threads[t := Thread(Idle, cmds)]); OwnInv(st') && SnapInv(st')
  {
    IdleFacts();
    assert OwnerOk(st.sh, Idle) && VisitOk(st.sh, Idle) && SnapOk(st.sh, Idle);
    hide Owner, Visits, Snapshot, Dialled, OwnerOk, VisitOk, SnapOk;
  }

  lemma {:induction false} SpawnConn(st: St, t: Tid, cmds: seq<Cmd>)
    requires ConnInv(st) && HoldInv(st) && t !in st.threads
    ensures var st' := st.(threads := st.threads[t := Thread(Idle, cmds)]); ConnInv(st') && HoldInv(st')
  {
    IdleFacts();
    hide Owner, HeldKey, Connecting, ControlIs, Registered;
    var st' := st.(threads := st.threads[t := Thread(Idle, cmds)]);
    forall s: Sref | Kept(st, s) ensures Kept(st', s) {
      if !Registered(st.sh, s) {
        var u :| u in st.threads && Owner(st.threads[u].pc) == Some(s) && HeldKey(st.threads[u].pc).Some?;
        assert u in st'.threads && Owner(st'.threads[u].pc) == Some(s) && HeldKey(st'.threads[u].pc).Some?;
      }
    }
    hide Kept;
    forall u | u in st'.threads ensures ConnOk(st', st'.threads[u].pc) {
      assert u != t ==> ConnOk(st, st.threads[u].pc);
    }
  }

  /** Sessions that come and go on the server outside this runtime. */
  lemma {:induction false} OutsideKeeps(st: St, live: set<Target>)
    requires Core(st) && forall target :: target in st.sh.live && target !in live ==> !Protected(st, target)
    ensures Core(st.(sh := st.sh.(live := live)))
  {
    var sh' := st.sh.(live := live);
    OutsideThreads(st, live);
    hide RegInv, OwnInv, HandleInv, KillInv, SnapInv, Owner, HeldKey, OwnedKey, Linked, IsCloser, Visits, Connecting, Snapshot, Dialled;
    HandlesOnly(st.sh, sh');
    RelabelRefs(st, sh');
    RelabelConn(st, sh');
    assert RegInv(sh') && KillInv(sh') by { OutsideReg(st.sh, live); }
    forall s | IsLinked(sh', s) ensures Ids(sh'.heap[s].link.value) <= live {
      assert IsLinked(st.sh, s);
      forall target | target in Ids(sh'.heap[s].link.value) ensures target in live {
        assert Protected(st, target);
      }
    }
  }

  lemma {:induction false} OutsideReg(sh: Shared, live: set<Target>)
    requires RegInv(sh) && KillInv(sh)
    ensures RegInv(sh.(live := live)) && KillInv(sh.(live := live))
  {
  }

  lemma {:induction false} OutsideThreads(st: St, live: set<Target>)
    requires OwnInv(st) && SnapInv(st) && forall target :: target in st.sh.live && target !in live ==> !Protected(st, target)
    ensures var st' := st.(sh := st.sh.(live := live)); OwnInv(st') && SnapInv(st')
  {
    hide Owner, Visits, OwnedKey, Linked, IsCloser, HeldKey, Connecting, Snapshot, Dialled;
    var sh' := st.sh.(live := live);
    var st' := st.(sh := sh');
    forall u | u in st'.threads ensures OwnerOk(sh', st'.threads[u].pc) && VisitOk(sh', st'.threads[u].pc) && SnapOk(sh', st'.threads[u].pc) {
      var pc := st.threads[u].pc;
      assert OwnerOk(st.sh, pc) && VisitOk(st.sh, pc) && SnapOk(st.sh, pc);
      hide OwnerOk, VisitOk;
      SameOwnership(st.sh, sh', pc);
      assert forall s :: IsLinked(sh', s) == IsLinked(st.sh, s);
      assert Dialled(pc).Some? ==> Protected(st, Dialled(pc).value);
    }
  }

  lemma {:induction false} NextKeeps(st: St, ev: Event)
    requires Inv(st) && Next(st, ev).Some?
    ensures Inv(Next(st, ev).value)
  {
    LockInvNext(st, ev);
    hide LockInv, Core, ThreadStep, Protected;
    match ev
    case Spawn(t, cmds) => SpawnKeeps(st, t, cmds);
    case Step(t, c) => assert Inv(st); StepKeeps(st, t, c);
    case ServerConnect(target) => OutsideKeeps(st, st.sh.live + {target});
    case ServerDrop(target) => OutsideKeeps(st, st.sh.live - {target});
  }

  lemma {:induction false} InitHolds(live: set<Target>)
    ensures Inv(Init(live))
  {
    var st := Init(live);
    forall k ensures RefOk(st, k) {
      assert Holders(st, k) == {};
    }
  }

  /** The invariant holds in every state of every run. */
  lemma {:induction false} InvAlways(live: set<Target>, evs: seq<Event>)
    requires RunEvents(Init(live), evs).Some?
    ensures Inv(RunEvents(Init(live), evs).value)
    decreases |evs|
  {
    hide Next, Inv, Init;
    if evs == [] {
      InitHolds(live);
    } else {
      InvAlways(live, evs[..|evs| - 1]);
      NextKeeps(RunEvents(Init(live), evs[..|evs| - 1]).value, evs[|evs| - 1]);
    }
  }

  // ---- Conservation of control references ----

  /** Registered ids whose session uses key k. */
  ghost function RegisteredWith(st: St, k: Key): set<Id>
  {
    set id | id in st.sh.registry && st.sh.registry[id] in st.sh.heap && st.sh.heap[st.sh.registry[id]].key == k
  }

  /** Openers between acquire and register or rollback, and closers between take and release. */
  ghost function HoldingThreads(st: St, k: Key): set<Tid>
  {
    set t | t in st.threads && HeldKey(st.threads[t].pc) == Some(k)
  }

  lemma {:induction false} RegCount(ids: set<Id>)
    ensures |set id | id in ids :: Reg(id)| == |ids|
  {
    if ids != {} {
      var x :| x in ids;
      RegCount(ids - {x});
      assert (set id | id in ids :: Reg(id)) == (set id | id in ids - {x} :: Reg(id)) + {Reg(x)};
    }
  }

  lemma {:induction false} ThrCount(ts: set<Tid>)
    ensures |set t | t in ts :: Thr(t)| == |ts|
  {
    if ts != {} {
      var x :| x in ts;
      ThrCount(ts - {x});
      assert (set t | t in ts :: Thr(t)) == (set t | t in ts - {x} :: Thr(t)) + {Thr(x)};
    }
  }

  lemma {:induction false} HolderCount(st: St, k: Key)
    ensures |Holders(st, k)| == |RegisteredWith(st, k)| + |HoldingThreads(st, k)|
  {
    hide HeldKey, Holders;
    var ids, ts := RegisteredWith(st, k), HoldingThreads(st, k);
    RegCount(ids);
    ThrCount(ts);
    var a, b := set id | id in ids :: Reg(id), set t | t in ts :: Thr(t);
    forall h ensures h in Holders(st, k) <==> h in a + b {
      InHolders(st, k, h);
    }
    hide RegisteredWith, HoldingThreads;
    assert Holders(st, k) == a + b && a !! b;
  }

  /**
   Conservation: in every reachable state the count of a control key is the number of registered
   sessions with that key plus the openers and closers holding it; the key is present, with its one
   open connection, exactly when that number is positive; no other control connection is open; and the
   registry is within its limit with every id naming a different session.
   */
  lemma {:induction false} ControlConservation(live: set<Target>, evs: seq<Event>, k: Key)
    requires RunEvents(Init(live), evs).Some?
    ensures var st := RunEvents(Init(live), evs).value;
            && var users := |RegisteredWith(st, k)| + |HoldingThreads(st, k)|;
            && (k in st.sh.controls <==> users > 0)
            && (k in st.sh.controls ==> st.sh.controls[k].refs == users && st.sh.controls[k].handle in st.sh.openHandles)
    ensures var st := RunEvents(Init(live), evs).value;
            && |st.sh.registry| <= MAX_SESSIONS
            && (forall i, j :: i in st.sh.registry && j in st.sh.registry && st.sh.registry[i] == st.sh.registry[j] ==> i == j)
            && (forall h :: h in st.sh.openHandles ==> exists j :: ControlIs(st.sh, j, h))
  {
    InvAlways(live, evs);
    var st := RunEvents(Init(live), evs).value;
    hide RunEvents, Init, LockInv, OwnInv, ConnInv, HoldInv, TargetInv, SnapInv, KillInv, RegisteredWith, HoldingThreads, Holders;
    assert RefOk(st, k);
    HolderCount(st, k);
    assert Holders(st, k) == {} <==> |Holders(st, k)| == 0;
    assert k in st.sh.controls ==> ControlIs(st.sh, k, st.sh.controls[k].handle);
  }

  /** The control connection of a connected session, registered or not, is open, is its key's own, and is counted for the session. */
  lemma {:induction false} ControlOpenWhileUsed(live: set<Target>, evs: seq<Event>, s: Sref)
    requires RunEvents(Init(live), evs).Some?
    requires IsLinked(RunEvents(Init(live), evs).value.sh, s)
    ensures var sh := RunEvents(Init(live), evs).value.sh;
            && sh.heap[s].link.value.handle in sh.openHandles
            && sh.heap[s].key in sh.controls && sh.controls[sh.heap[s].key].handle == sh.heap[s].link.value.handle
            && sh.controls[sh.heap[s].key].refs > 0 && Kept(RunEvents(Init(live), evs).value, s)
  {
    InvAlways(live, evs);
    var st := RunEvents(Init(live), evs).value;
    hide RunEvents, Init, LockInv, OwnInv, ConnInv, TargetInv, SnapInv, KillInv, Kept, Holders;
    assert ControlIs(st.sh, st.sh.heap[s].key, st.sh.heap[s].link.value.handle);
    assert RefOk(st, st.sh.heap[s].key);
  }

  lemma {:induction false} OpenHandleStays(sh: Shared, e: Effect, k: Key, h: Handle)
    requires ControlIs(sh, k, h) && HandleInv(sh) && h !in Apply(sh, e).openHandles
    ensures e == ReleaseControl(k) && sh.controls[k].refs <= 1
  {
    hide KillOf;
    if e.ReleaseControl? && e.key in sh.controls && sh.controls[e.key].handle == h {
      assert ControlIs(sh, e.key, h);
    }
  }

  /** A control connection is closed only by the step in which the last holder of its key lets go. */
  lemma {:induction false} ClosedByLastHolder(live: set<Target>, evs: seq<Event>, ev: Event, k: Key, h: Handle)
    requires RunEvents(Init(live), evs).Some? && Next(RunEvents(Init(live), evs).value, ev).Some?
    requires var st := RunEvents(Init(live), evs).value; ControlIs(st.sh, k, h) && h !in Next(st, ev).value.sh.openHandles
    ensures var st := RunEvents(Init(live), evs).value;
            && Holders(Next(st, ev).value, k) == {}
            && ev.Step? && Holders(st, k) == {Thr(ev.t)}
  {
    InvAlways(live, evs);
    var st := RunEvents(Init(live), evs).value;
    hide RunEvents, Init;
    NextKeeps(st, ev);
    LastHolderLeaves(st, ev, k, h);
  }

  lemma {:induction false} LastHolderLeaves(st: St, ev: Event, k: Key, h: Handle)
    requires Inv(st) && Next(st, ev).Some? && Inv(Next(st, ev).value)
    requires ControlIs(st.sh, k, h) && h !in Next(st, ev).value.sh.openHandles
    ensures Holders(Next(st, ev).value, k) == {} && ev.Step? && Holders(st, k) == {Thr(ev.t)}
  {
    hide Holders, LockInv, OwnInv, ConnInv, HoldInv, TargetInv, SnapInv, KillInv, RegInv, Body, Wants, Granted, HeldKey;
    var st' := Next(st, ev).value;
    assert h in st.sh.openHandles;
    assert RefOk(st, k) && RefOk(st', k);
    assert ev.Step? && !st.threads[ev.t].pc.Idle? && Wants(st.threads[ev.t].pc).None?;
    var pc := st.threads[ev.t].pc;
    var m := Body(st.sh, pc, ev.c).value;
    assert st'.sh == Apply(st.sh, m.effect);
    OpenHandleStays(st.sh, m.effect, k, h);
    assert HeldKey(pc) == Some(k) by { BodyFits(st.sh, pc, ev.c); }
    InHolders(st, k, Thr(ev.t));
    OnlyMember(Holders(st, k), Thr(ev.t));
  }

  lemma {:induction false} OnlyMember(s: set<Holder>, h: Holder)
    requires h in s && |s| <= 1
    ensures s == {h}
  {
    assert |s - {h}| == |s| - 1;
    assert s - {h} == {};
  }

  // ---- Cancel targets ----

  /**
   Two connected sessions never share a connection or a cancel target, every recorded target is live,
   and no cancel ever sent could reach another connected session.
   */
  lemma {:induction false} CancelTargetsUnique(live: set<Target>, evs: seq<Event>)
    requires RunEvents(Init(live), evs).Some?
    ensures var sh := RunEvents(Init(live), evs).value.sh;
            && (forall s, o :: IsLinked(sh, s) && IsLinked(sh, o) && s != o ==> sh.heap[s].link.value.target !in Ids(sh.heap[o].link.value))
            && (forall s :: IsLinked(sh, s) ==> sh.heap[s].link.value.target in sh.live)
            && (forall i :: 0 <= i < |sh.kills| ==> sh.kills[i].others == {})
  {
    InvAlways(live, evs);
    var sh := RunEvents(Init(live), evs).value.sh;
    hide RunEvents, Init, LockInv, OwnInv, ConnInv, HoldInv, RefInv, SnapInv, RegInv, HandleInv;
    forall s, o | IsLinked(sh, s) && IsLinked(sh, o) && s != o ensures sh.heap[s].link.value.target !in Ids(sh.heap[o].link.value) {
      assert Ids(sh.heap[s].link.value) !! Ids(sh.heap[o].link.value);
      assert sh.heap[s].link.value.target in Ids(sh.heap[s].link.value);
    }
    forall s | IsLinked(sh, s) ensures sh.heap[s].link.value.target in sh.live {
      assert Ids(sh.heap[s].link.value) <= sh.live;
      assert sh.heap[s].link.value.target in Ids(sh.heap[s].link.value);
    }
  }
}
