/** Steps of the Xugu runtime that connect, disconnect, register or take a session, each keeping the invariants. */
module XuguLinks {
  import opened Common
  import opened XuguRuntime
  import opened XuguLocks
  import opened XuguInvariants
  import opened XuguSteps

  // ---- Recording a new connection ----

  predicate Links(sh: Shared, pc: PC, next: PC, s: Sref, link: Link)
  {
    && Dialled(pc) == Some(link.conn) && Snapshot(pc).Some? && link.target !in Snapshot(pc).value && link.target in sh.live
    && Connecting(pc) == Some((s, link.handle))
    && ((pc.OAfter? && next.OConnected? && next.s == s && next.key == pc.key) || (pc.VAfter? && next == VDone(s)))
  }

  lemma {:induction false} LinkKeeps(st: St, t: Tid, th: Thread, locks: map<Lock, Tid>, s: Sref, link: Link)
    requires Inv(st) && t in st.threads && Links(st.sh, st.threads[t].pc, th.pc, s, link)
    ensures Core(Put(st, t, th, locks, Apply(st.sh, SetLink(s, link))))
  {
    hide LockInv, OwnInv, HoldInv, RefInv, HandleInv, KillInv, TargetInv, SnapInv, ConnInv;
    var sh' := Apply(st.sh, SetLink(s, link));
    assert s in st.sh.heap by { LinkSession(st, t, th, s, link); }
    TableStays(st.sh, sh');
    SameControls(st.sh, sh');
    LinkOwn(st, t, th, locks, s, link);
    LinkHold(st, t, th, locks, s, link);
    LinkSnap(st, t, th, locks, s, link);
    LinkFacts(st.sh, st.threads[t].pc, th.pc, s, link);
    hide Links, HeldKey, Owner, Connecting, ControlIs;
    ConnStays(st, t, th, locks, sh');
    RefsStay(st, t, th, locks, sh');
  }

  lemma {:induction false} LinkFacts(sh: Shared, pc: PC, next: PC, s: Sref, link: Link)
    requires Links(sh, pc, next, s, link)
    ensures HeldKey(pc) == HeldKey(next) && Owner(pc) == Owner(next) && Connecting(next).None? && OwnedKey(pc) == OwnedKey(next)
    ensures Snapshot(next).None? && Dialled(next).None? && ConnectMu in Held(pc) && IsCloser(pc) == IsCloser(next)
    ensures Visits(pc) == Visits(next) && (Visits(pc) == Some(s) || Owner(pc) == Some(s)) && (Owner(next).Some? ==> Linked(next))
    ensures Visits(pc) == Some(s) ==> SessMu(s) in Held(pc)
  {
  }

  lemma {:induction false} LinkSession(st: St, t: Tid, th: Thread, s: Sref, link: Link)
    requires ConnInv(st) && t in st.threads && Connecting(st.threads[t].pc) == Some((s, link.handle))
    ensures s in st.sh.heap && Kept(st, s) && ControlIs(st.sh, st.sh.heap[s].key, link.handle)
  {
    hide Connecting, Kept, ControlIs;
    assert ConnOk(st, st.threads[t].pc);
  }

  lemma {:induction false} LinkHold(st: St, t: Tid, th: Thread, locks: map<Lock, Tid>, s: Sref, link: Link)
    requires Inv(st) && t in st.threads && Links(st.sh, st.threads[t].pc, th.pc, s, link)
    ensures HoldInv(Put(st, t, th, locks, Apply(st.sh, SetLink(s, link))))
  {
    hide LockInv, OwnInv, RefInv, HandleInv, KillInv, TargetInv, SnapInv, ConnInv;
    var sh' := Apply(st.sh, SetLink(s, link));
    var st' := Put(st, t, th, locks, sh');
    LinkSession(st, t, th, s, link);
    LinkFacts(st.sh, st.threads[t].pc, th.pc, s, link);
    SameControls(st.sh, sh');
    hide Links, Kept, ControlIs, HeldKey, Owner, Connecting;
    forall o | IsLinked(sh', o) ensures Kept(st', o) && ControlIs(sh', sh'.heap[o].key, sh'.heap[o].link.value.handle) {
      assert o != s ==> IsLinked(st.sh, o);
      KeptStays(st, t, th, locks, sh', o);
    }
  }

  lemma {:induction false} LinkOwn(st: St, t: Tid, th: Thread, locks: map<Lock, Tid>, s: Sref, link: Link)
    requires LockInv(st) && OwnInv(st) && t in st.threads && Links(st.sh, st.threads[t].pc, th.pc, s, link) && s in st.sh.heap
    ensures OwnInv(Put(st, t, th, locks, Apply(st.sh, SetLink(s, link))))
  {
    hide LockInv;
    var sh' := Apply(st.sh, SetLink(s, link));
    assert OwnerOk(st.sh, st.threads[t].pc) && VisitOk(st.sh, st.threads[t].pc);
    LinkFacts(st.sh, st.threads[t].pc, th.pc, s, link);
    assert OwnerOk(sh', th.pc) && VisitOk(sh', th.pc) by { hide Owner, Visits, HeldKey, OwnedKey, Linked, IsCloser, Held; }
    hide OwnerOk, VisitOk, Links, Owner, Visits, HeldKey, OwnedKey, Linked, IsCloser, Held, Apply;
    forall u | u in st.threads && u != t ensures OwnerOk(sh', st.threads[u].pc) && VisitOk(sh', st.threads[u].pc) {
      LinkOthers(st, t, u, th.pc, s, link);
    }
    OwnStays(st, t, th, locks, sh');
  }

  lemma {:induction false} LinkOthers(st: St, t: Tid, u: Tid, next: PC, s: Sref, link: Link)
    requires LockInv(st) && OwnInv(st) && t in st.threads && u in st.threads && u != t
    requires Links(st.sh, st.threads[t].pc, next, s, link) && s in st.sh.heap
    ensures var sh' := Apply(st.sh, SetLink(s, link)); OwnerOk(sh', st.threads[u].pc) && VisitOk(sh', st.threads[u].pc)
  {
    hide LockInv, OwnInv, Links, Owner, Visits, HeldKey, OwnedKey, Linked, IsCloser, Held;
    var pc, qc := st.threads[t].pc, st.threads[u].pc;
    LinkFacts(st.sh, pc, next, s, link);
    OneConnector(st, t, u);
    assert OwnerOk(st.sh, qc) && VisitOk(st.sh, qc) by { OneOwnership(st, u); }
    LinkOwnersFree(st, t, u, next, s, link);
    LinkedOwner(st.sh, s, link, qc);
  }

  lemma {:induction false} OneOwnership(st: St, u: Tid)
    requires OwnInv(st) && u in st.threads
    ensures OwnerOk(st.sh, st.threads[u].pc) && VisitOk(st.sh, st.threads[u].pc)
  {
    hide OwnerOk, VisitOk, Owner;
  }

  /** No other owner of the session being connected believes it to be disconnected. */
  lemma {:induction false} LinkOwnersFree(st: St, t: Tid, u: Tid, next: PC, s: Sref, link: Link)
    requires LockInv(st) && OwnInv(st) && t in st.threads && u in st.threads && u != t
    requires Links(st.sh, st.threads[t].pc, next, s, link)
    ensures Owner(st.threads[u].pc) == Some(s) ==> Linked(st.threads[u].pc)
  {
    hide LockInv, Links, Owner, Visits, HeldKey, OwnedKey, Linked, IsCloser, Held;
    var pc, qc := st.threads[t].pc, st.threads[u].pc;
    LinkFacts(st.sh, pc, next, s, link);
    Exclusive(st, t, u, SessMu(s));
    ClosersHold(qc);
    OneOwnership(st, t);
    OneOwnership(st, u);
    assert Owner(qc) == Some(s) ==> Owner(pc) != Some(s);
  }

  lemma {:induction false} LinkedOwner(sh: Shared, s: Sref, link: Link, pc: PC)
    requires OwnerOk(sh, pc) && VisitOk(sh, pc) && s in sh.heap && (Owner(pc) == Some(s) ==> Linked(pc))
    requires !pc.VWantAct? && !pc.VInAct? && !pc.VSnap? && !pc.VDial? && !pc.VAfter?
    ensures var sh' := Apply(sh, SetLink(s, link)); OwnerOk(sh', pc) && VisitOk(sh', pc)
  {
    hide Owner, Visits, OwnedKey, Linked, IsCloser, Registered;
    SameRegistrations(sh, Apply(sh, SetLink(s, link)));
  }

  /** A closer past the session's mutex holds it. */
  lemma {:induction false} ClosersHold(pc: PC)
    ensures IsCloser(pc) && !Linked(pc) ==> SessMu(Owner(pc).value) in Held(pc)
    ensures IsCloser(pc) ==> Owner(pc).Some?
  {
  }

  lemma {:induction false} LinkSnap(st: St, t: Tid, th: Thread, locks: map<Lock, Tid>, s: Sref, link: Link)
    requires LockInv(st) && SnapInv(st) && TargetInv(st.sh) && t in st.threads
    requires Links(st.sh, st.threads[t].pc, th.pc, s, link) && s in st.sh.heap
    ensures var st' := Put(st, t, th, locks, Apply(st.sh, SetLink(s, link))); SnapInv(st') && TargetInv(st'.sh)
  {
    var pc := st.threads[t].pc;
    var sh' := Apply(st.sh, SetLink(s, link));
    var st' := Put(st, t, th, locks, sh');
    LinkFacts(st.sh, pc, th.pc, s, link);
    assert SnapOk(st.sh, pc);
    hide LockInv, Snapshot, Dialled, Connecting, Held;
    forall o | IsLinked(sh', o) ensures o == s || IsLinked(st.sh, o) {}
    forall u | u in st'.threads ensures SnapOk(sh', st'.threads[u].pc) {
      if u != t {
        OneConnector(st, t, u);
      }
    }
  }

  // ---- Disconnecting ----

  predicate Disconnects(pc: PC, next: PC, s: Sref)
  {
    || (pc.RInAct? && pc.s == s && next == RWantRel(pc.key, s))
    || (pc.CInAct? && pc.s == s && next == CWantRel(pc.key, s))
    || (pc.VInAct? && pc.s == s && next == VSnap(s, pc.had))
  }

  lemma {:induction false} CutFacts(pc: PC, next: PC, s: Sref)
    requires Disconnects(pc, next, s)
    ensures HeldKey(pc) == HeldKey(next) && Owner(pc) == Owner(next) && OwnedKey(pc) == OwnedKey(next) && IsCloser(pc) == IsCloser(next)
    ensures Visits(pc) == Visits(next) && Snapshot(next).None? && Dialled(next).None? && !Linked(next)
    ensures pc.VInAct? ==> ConnectMu in Held(pc) && Visits(pc) == Some(s)
    ensures pc.CInAct? ==> SessMu(s) in Held(pc)
    ensures !pc.VInAct? ==> Owner(pc) == Some(s) && Connecting(next).None?
  {
  }

  lemma {:induction false} CutShape(sh: Shared, s: Sref)
    ensures var sh' := Apply(sh, Disconnect(s));
            && sh'.registry == sh.registry && sh'.published == sh.published && sh'.controls == sh.controls && sh'.nextSref == sh.nextSref
            && (sh'.heap == sh.heap || (s in sh.heap && sh'.heap == sh.heap[s := Session(sh.heap[s].key, None, false)]))
  {
    hide KillOf;
  }

  lemma {:induction false} CutFrame(sh: Shared, s: Sref)
    requires RegInv(sh)
    ensures var sh' := Apply(sh, Disconnect(s));
            && Steady(sh, sh') && sh'.controls == sh.controls && RegInv(sh')
            && forall o :: IsLinked(sh', o) ==> IsLinked(sh, o) && sh'.heap[o].link == sh.heap[o].link
  {
    CutShape(sh, s);
    hide Apply;
  }

  lemma {:induction false} CutKeeps(st: St, t: Tid, th: Thread, locks: map<Lock, Tid>, s: Sref)
    requires Inv(st) && t in st.threads && Disconnects(st.threads[t].pc, th.pc, s)
    ensures Core(Put(st, t, th, locks, Apply(st.sh, Disconnect(s))))
  {
    hide LockInv, OwnInv, HoldInv, RefInv, HandleInv, TargetInv, SnapInv, ConnInv, KillOf, KillInv, RegInv;
    hide Apply, Disconnects, HeldKey, Owner, Connecting, ControlIs, IsLinked, Steady;
    var sh' := Apply(st.sh, Disconnect(s));
    CutFrame(st.sh, s);
    SameControls(st.sh, sh');
    CutTable(st.sh, s);
    CutOwn(st, t, th, locks, s);
    CutConn(st, t, th, locks, s);
    CutSnap(st, t, th, locks, s);
    CutFacts(st.threads[t].pc, th.pc, s);
    HoldStays(st, t, th, locks, sh');
    RefsStay(st, t, th, locks, sh');
  }

  /** A cancel sends one kill when a statement runs on a connected session, else none; it reaches no other session, as targets are not shared. */
  lemma {:induction false} KillsSafe(sh: Shared, s: Sref)
    requires TargetInv(sh)
    ensures KillOf(sh, s) == if IsLinked(sh, s) && sh.heap[s].active then [Kill(s, sh.heap[s].link.value.target, {})] else []
    ensures forall i :: 0 <= i < |KillOf(sh, s)| ==> KillOf(sh, s)[i].others == {}
  {
    if IsLinked(sh, s) {
      var target := sh.heap[s].link.value.target;
      forall o ensures o !in Reached(sh, s, target) {
        assert IsLinked(sh, o) && o != s ==> Ids(sh.heap[s].link.value) !! Ids(sh.heap[o].link.value);
        assert target in Ids(sh.heap[s].link.value);
      }
      assert Reached(sh, s, target) == {};
    }
  }

  lemma {:induction false} CutTable(sh: Shared, s: Sref)
    requires HandleInv(sh) && KillInv(sh) && TargetInv(sh)
    ensures HandleInv(Apply(sh, Disconnect(s))) && KillInv(Apply(sh, Disconnect(s)))
  {
    hide KillOf, TargetInv, HandleInv;
    KillsSafe(sh, s);
    var sh' := Apply(sh, Disconnect(s));
    assert KillInv(sh');
    TableStays(sh, sh'.(kills := sh.kills));
    HandlesOnly(sh'.(kills := sh.kills), sh');
  }

  lemma {:induction false} HandlesOnly(sh: Shared, sh': Shared)
    requires HandleInv(sh) && sh'.controls == sh.controls && sh'.openHandles == sh.openHandles && sh'.nextHandle == sh.nextHandle
    ensures HandleInv(sh')
  {
    SameControls(sh, sh');
    SameControls(sh', sh);
    forall h | h in sh'.openHandles ensures exists k :: ControlIs(sh', k, h) {
      var k :| ControlIs(sh, k, h);
      assert ControlIs(sh', k, h);
    }
  }

  lemma {:induction false} CutOwn(st: St, t: Tid, th: Thread, locks: map<Lock, Tid>, s: Sref)
    requires LockInv(st) && OwnInv(st) && t in st.threads && Disconnects(st.threads[t].pc, th.pc, s)
    ensures OwnInv(Put(st, t, th, locks, Apply(st.sh, Disconnect(s))))
  {
    hide LockInv, KillOf;
    var sh' := Apply(st.sh, Disconnect(s));
    assert OwnerOk(st.sh, st.threads[t].pc) && VisitOk(st.sh, st.threads[t].pc);
    CutFacts(st.threads[t].pc, th.pc, s);
    assert OwnerOk(sh', th.pc) && VisitOk(sh', th.pc) by { hide Owner, Visits, HeldKey, OwnedKey, Linked, IsCloser, Held; }
    hide OwnerOk, VisitOk, Disconnects, Owner, Visits, HeldKey, OwnedKey, Linked, IsCloser, Held, Apply;
    forall u | u in st.threads && u != t ensures OwnerOk(sh', st.threads[u].pc) && VisitOk(sh', st.threads[u].pc) {
      CutOthers(st, t, u, th.pc, s);
    }
    OwnStays(st, t, th, locks, sh');
  }

  lemma {:induction false} VisitorHolds(pc: PC)
    ensures pc.VWantAct? || pc.VInAct? ==> Visits(pc) == Some(pc.s) && SessMu(pc.s) in Held(pc) && ConnectMu in Held(pc)
  {
  }

  lemma {:induction false} CutOthers(st: St, t: Tid, u: Tid, next: PC, s: Sref)
    requires LockInv(st) && OwnInv(st) && t in st.threads && u in st.threads && u != t && Disconnects(st.threads[t].pc, next, s)
    ensures var sh' := Apply(st.sh, Disconnect(s)); OwnerOk(sh', st.threads[u].pc) && VisitOk(sh', st.threads[u].pc)
  {
    hide KillOf;
    var pc, qc := st.threads[t].pc, st.threads[u].pc;
    assert OwnerOk(st.sh, qc) && VisitOk(st.sh, qc) && OwnerOk(st.sh, pc);
    CutFacts(pc, next, s);
    Exclusive(st, t, u, ConnectMu);
    Exclusive(st, t, u, SessMu(s));
    VisitorHolds(qc);
    assert pc.RInAct? ==> !IsCloser(pc);
    hide LockInv, Owner, Visits, HeldKey, OwnedKey, Linked, IsCloser, Held, OwnInv;
    CutShape(st.sh, s);
    SameRegistrations(st.sh, Apply(st.sh, Disconnect(s)));
    hide Apply, Registered;
  }

  lemma {:induction false} CutConn(st: St, t: Tid, th: Thread, locks: map<Lock, Tid>, s: Sref)
    requires Inv(st) && t in st.threads && Disconnects(st.threads[t].pc, th.pc, s)
    ensures ConnInv(Put(st, t, th, locks, Apply(st.sh, Disconnect(s))))
  {
    hide LockInv, OwnInv, HoldInv, RefInv, HandleInv, TargetInv, SnapInv, ConnInv, KillInv, RegInv;
    hide Apply, Disconnects, HeldKey, Owner, Visits, Connecting, ControlIs, Kept, ConnOk;
    var sh' := Apply(st.sh, Disconnect(s));
    CutFacts(st.threads[t].pc, th.pc, s);
    CutFrame(st.sh, s);
    SameControls(st.sh, sh');
    CutSelf(st, t, th, locks, s);
    ConnStays(st, t, th, locks, sh');
  }

  /** A validation goes on to connect with the control connection that its session had. */
  lemma {:induction false} CutSelf(st: St, t: Tid, th: Thread, locks: map<Lock, Tid>, s: Sref)
    requires RegInv(st.sh) && OwnInv(st) && HoldInv(st) && t in st.threads && Disconnects(st.threads[t].pc, th.pc, s)
    ensures ConnOk(Put(st, t, th, locks, Apply(st.sh, Disconnect(s))), th.pc)
  {
    hide RegInv, OwnerOk, Apply, HeldKey, Owner, Visits, ControlIs, Kept;
    var sh' := Apply(st.sh, Disconnect(s));
    var pc := st.threads[t].pc;
    CutFacts(pc, th.pc, s);
    CutFrame(st.sh, s);
    SameControls(st.sh, sh');
    assert VisitOk(st.sh, pc);
    if Connecting(th.pc).Some? {
      assert pc.VInAct? && Connecting(th.pc).value == (s, pc.had.value);
      assert IsLinked(st.sh, s);
      KeptStays(st, t, th, locks, sh', s);
    }
  }

  lemma {:induction false} CutSnap(st: St, t: Tid, th: Thread, locks: map<Lock, Tid>, s: Sref)
    requires SnapInv(st) && TargetInv(st.sh) && t in st.threads && Disconnects(st.threads[t].pc, th.pc, s)
    ensures var st' := Put(st, t, th, locks, Apply(st.sh, Disconnect(s))); SnapInv(st') && TargetInv(st'.sh)
  {
    hide KillOf;
    var sh' := Apply(st.sh, Disconnect(s));
    var st' := Put(st, t, th, locks, sh');
    CutFacts(st.threads[t].pc, th.pc, s);
    hide Snapshot, Dialled, Connecting, Held, Disconnects;
    forall o | IsLinked(sh', o) ensures IsLinked(st.sh, o) && sh'.heap[o].link == st.sh.heap[o].link && Ids(sh'.heap[o].link.value) <= sh'.live {
      assert o != s || sh' == st.sh;
      assert IsLinked(st.sh, s) && o != s ==> Ids(st.sh.heap[s].link.value) !! Ids(st.sh.heap[o].link.value);
    }
    forall u | u in st'.threads ensures SnapOk(sh', st'.threads[u].pc) {
      if u != t {
        assert SnapOk(st.sh, st.threads[u].pc);
      }
    }
  }
}
