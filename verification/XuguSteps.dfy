/** Steps of the Xugu runtime that leave links and registrations alone, each keeping the invariants. */
module XuguSteps {
  import opened Common
  import opened XuguRuntime
  import opened XuguLocks
  import opened XuguInvariants

  ghost function Put(st: St, t: Tid, th: Thread, locks: map<Lock, Tid>, sh: Shared): St
  {
    St(st.threads[t := th], locks, sh)
  }

  // ---- Facts shared by many effects ----

  /** The registry stands, and sessions keep their keys. */
  ghost predicate Steady(sh: Shared, sh': Shared)
  {
    && sh'.registry == sh.registry && sh'.published == sh.published
    && forall s :: s in sh.heap ==> s in sh'.heap && sh'.heap[s].key == sh.heap[s].key
  }

  /** A thread does not let go of a control reference. */
  predicate KeepsHold(pc: PC, next: PC)
  {
    HeldKey(pc).Some? ==> HeldKey(next).Some? && Owner(next) == Owner(pc)
  }

  lemma {:induction false} KeptStays(st: St, t: Tid, th: Thread, locks: map<Lock, Tid>, sh': Shared, s: Sref)
    requires t in st.threads && KeepsHold(st.threads[t].pc, th.pc) && sh'.registry == st.sh.registry && Kept(st, s)
    ensures Kept(Put(st, t, th, locks, sh'), s)
  {
    hide Owner, HeldKey;
    var st' := Put(st, t, th, locks, sh');
    if Registered(st.sh, s) {
      assert Registered(st'.sh, s);
    } else {
      var u :| u in st.threads && Owner(st.threads[u].pc) == Some(s) && HeldKey(st.threads[u].pc).Some?;
      assert u in st'.threads && Owner(st'.threads[u].pc) == Some(s) && HeldKey(st'.threads[u].pc).Some?;
    }
  }

  /** Connecting threads keep their control connection as long as no entry of the table goes away or changes. */
  lemma {:induction false} ConnStays(st: St, t: Tid, th: Thread, locks: map<Lock, Tid>, sh': Shared)
    requires ConnInv(st) && t in st.threads && KeepsHold(st.threads[t].pc, th.pc) && Steady(st.sh, sh')
    requires forall k, h :: ControlIs(st.sh, k, h) ==> ControlIs(sh', k, h)
    requires Connecting(th.pc) in {Connecting(st.threads[t].pc), None} || ConnOk(Put(st, t, th, locks, sh'), th.pc)
    ensures ConnInv(Put(st, t, th, locks, sh'))
  {
    hide Owner, HeldKey, Connecting, ControlIs, Kept;
    var st' := Put(st, t, th, locks, sh');
    forall s | Kept(st, s) ensures Kept(st', s) {
      KeptStays(st, t, th, locks, sh', s);
    }
    forall u | u in st'.threads ensures ConnOk(st', st'.threads[u].pc) {
      assert ConnOk(st, st.threads[u].pc);
      var pc := st'.threads[u].pc;
      if Connecting(pc).Some? && Connecting(pc) == Connecting(st.threads[u].pc) {
        var (s, h) := Connecting(pc).value;
        assert Connecting(st.threads[u].pc).value == (s, h);
        assert Kept(st', s);
        assert ControlIs(sh', st.sh.heap[s].key, h);
      }
    }
  }

  /** Connected sessions that were connected before with the same control connection stay accounted for. */
  lemma {:induction false} HoldStays(st: St, t: Tid, th: Thread, locks: map<Lock, Tid>, sh': Shared)
    requires HoldInv(st) && t in st.threads && KeepsHold(st.threads[t].pc, th.pc) && Steady(st.sh, sh')
    requires forall k, h :: ControlIs(st.sh, k, h) ==> ControlIs(sh', k, h)
    requires forall s :: IsLinked(sh', s) ==> IsLinked(st.sh, s) && sh'.heap[s].link == st.sh.heap[s].link
    ensures HoldInv(Put(st, t, th, locks, sh'))
  {
    hide Owner, HeldKey, ControlIs, Kept;
    var st' := Put(st, t, th, locks, sh');
    forall s | Kept(st, s) ensures Kept(st', s) {
      KeptStays(st, t, th, locks, sh', s);
    }
  }

  lemma {:induction false} RefsStay(st: St, t: Tid, th: Thread, locks: map<Lock, Tid>, sh': Shared)
    requires RefInv(st) && t in st.threads && HeldKey(st.threads[t].pc) == HeldKey(th.pc)
    requires RegInv(st.sh) && Steady(st.sh, sh') && sh'.controls == st.sh.controls
    ensures RefInv(Put(st, t, th, locks, sh'))
  {
    hide HeldKey;
    var st' := Put(st, t, th, locks, sh');
    forall k ensures RefOk(st', k) {
      hide Holders;
      assert RefOk(st, k);
      HoldersStay(st, t, th, locks, sh', k);
    }
  }

  lemma {:induction false} HoldersStay(st: St, t: Tid, th: Thread, locks: map<Lock, Tid>, sh': Shared, k: Key)
    requires t in st.threads && HeldKey(st.threads[t].pc) == HeldKey(th.pc)
    requires RegInv(st.sh) && Steady(st.sh, sh')
    ensures Holders(Put(st, t, th, locks, sh'), k) == Holders(st, k)
  {
    hide HeldKey, Holders;
    var st' := Put(st, t, th, locks, sh');
    forall h ensures h in Holders(st', k) <==> h in Holders(st, k) {
      InHolders(st, k, h);
      InHolders(st', k, h);
    }
  }

  lemma {:induction false} InHolders(st: St, k: Key, h: Holder)
    ensures h in Holders(st, k) <==>
            match h
            case Reg(id) => id in st.sh.registry && st.sh.registry[id] in st.sh.heap && st.sh.heap[st.sh.registry[id]].key == k
            case Thr(t) => t in st.threads && HeldKey(st.threads[t].pc) == Some(k)
  {
    hide HeldKey;
  }

  /** The control table and the cancels sent are judged by themselves. */
  lemma {:induction false} TableStays(sh: Shared, sh': Shared)
    requires HandleInv(sh) && KillInv(sh)
    requires sh'.controls == sh.controls && sh'.openHandles == sh.openHandles && sh'.nextHandle == sh.nextHandle && sh'.kills == sh.kills
    ensures HandleInv(sh') && KillInv(sh')
  {
    SameControls(sh', sh);
    forall h | h in sh'.openHandles ensures exists k :: ControlIs(sh', k, h) {
      var k :| ControlIs(sh, k, h);
      assert ControlIs(sh', k, h);
    }
  }

  /** Ownership survives when the acting thread's part is right and every other thread's part is untouched. */
  lemma {:induction false} OwnStays(st: St, t: Tid, th: Thread, locks: map<Lock, Tid>, sh': Shared)
    requires OwnInv(st) && t in st.threads
    requires OwnerOk(sh', th.pc) && VisitOk(sh', th.pc)
    requires forall u :: u in st.threads && u != t ==> OwnerOk(sh', st.threads[u].pc) && VisitOk(sh', st.threads[u].pc)
    requires forall u :: u in st.threads && u != t && Owner(th.pc).Some? ==> Owner(st.threads[u].pc) != Owner(th.pc)
    ensures OwnInv(Put(st, t, th, locks, sh'))
  {
    hide Owner, OwnerOk, VisitOk;
  }

  // ---- Steps that leave the shared state alone ----

  lemma {:induction false} QuietKeeps(st: St, t: Tid, th: Thread, locks: map<Lock, Tid>)
    requires Inv(st) && t in st.threads && Quiet(st.sh, st.threads[t].pc, th.pc)
    ensures Core(Put(st, t, th, locks, st.sh))
  {
    hide LockInv, RegInv, HandleInv, KillInv, TargetInv, OwnInv, ConnInv, SnapInv, HoldInv, RefInv;
    hide Owner, HeldKey, OwnedKey, Linked, IsCloser, Visits, Snapshot, Connecting, Dialled, HandleOf, Registered, IsLinked;
    QuietOwn(st, t, th, locks);
    ConnStays(st, t, th, locks, st.sh);
    HoldStays(st, t, th, locks, st.sh);
    RefsStay(st, t, th, locks, st.sh);
    QuietSnap(st, t, th, locks);
  }

  lemma {:induction false} QuietOwn(st: St, t: Tid, th: Thread, locks: map<Lock, Tid>)
    requires RegInv(st.sh) && OwnInv(st) && t in st.threads && Quiet(st.sh, st.threads[t].pc, th.pc)
    ensures OwnInv(Put(st, t, th, locks, st.sh))
  {
    hide Owner, HeldKey, OwnedKey, Linked, IsCloser, Visits, Snapshot, Connecting, Dialled, HandleOf;
    var pc := st.threads[t].pc;
    assert OwnerOk(st.sh, pc) && VisitOk(st.sh, pc);
    assert OwnerOk(st.sh, th.pc);
    assert VisitOk(st.sh, th.pc);
  }

  lemma {:induction false} QuietSnap(st: St, t: Tid, th: Thread, locks: map<Lock, Tid>)
    requires SnapInv(st) && TargetInv(st.sh) && t in st.threads && Quiet(st.sh, st.threads[t].pc, th.pc)
    ensures SnapInv(Put(st, t, th, locks, st.sh))
  {
    hide Owner, HeldKey, OwnedKey, Linked, IsCloser, Visits, Snapshot, Connecting, Dialled, HandleOf, Registered, Ids, IsLinked;
    assert SnapOk(st.sh, st.threads[t].pc);
  }

  // ---- Alloc ----

  lemma {:induction false} AllocKeeps(st: St, t: Tid, th: Thread, locks: map<Lock, Tid>, k: Key)
    requires Inv(st) && t in st.threads
    requires st.threads[t].pc.OInCheck? && th.pc.OWantConnect? && th.pc.key == k && th.pc.s == st.sh.nextSref
    ensures Core(Put(st, t, th, locks, Apply(st.sh, Alloc(k))))
  {
    hide LockInv, HandleInv, KillInv, TargetInv, OwnInv, ConnInv, SnapInv, HoldInv, RefInv, ControlIs;
    var sh' := Apply(st.sh, Alloc(k));
    AllocOwn(st, t, th, locks, k);
    TableStays(st.sh, sh');
    assert forall k, h :: ControlIs(st.sh, k, h) ==> ControlIs(sh', k, h) by { SameControls(st.sh, sh'); }
    AllocRest(st, t, th, locks, sh');
  }

  lemma {:induction false} SameControls(sh: Shared, sh': Shared)
    requires sh'.controls == sh.controls
    ensures forall k, h :: ControlIs(sh, k, h) ==> ControlIs(sh', k, h)
  {
  }

  lemma {:induction false} UnlinkedFacts(pc: PC)
    requires pc.OInCheck? || pc.OWantConnect?
    ensures HeldKey(pc).None? && Connecting(pc).None? && Snapshot(pc).None? && Dialled(pc).None?
  {
  }

  lemma {:induction false} AllocRest(st: St, t: Tid, th: Thread, locks: map<Lock, Tid>, sh': Shared)
    requires Inv(st) && t in st.threads && Steady(st.sh, sh')
    requires forall s :: IsLinked(sh', s) ==> IsLinked(st.sh, s) && sh'.heap[s].link == st.sh.heap[s].link
    requires sh'.live == st.sh.live && sh'.controls == st.sh.controls
    requires st.threads[t].pc.OInCheck? && th.pc.OWantConnect?
    ensures var st' := Put(st, t, th, locks, sh');
            ConnInv(st') && HoldInv(st') && RefInv(st') && SnapInv(st') && TargetInv(sh')
  {
    hide LockInv, RegInv, HandleInv, KillInv, TargetInv, OwnInv, ConnInv, SnapInv, HoldInv, RefInv, ControlIs, IsLinked, HeldKey, Owner, Connecting, Snapshot, Dialled;
    UnlinkedFacts(st.threads[t].pc);
    UnlinkedFacts(th.pc);
    SameControls(st.sh, sh');
    ConnStays(st, t, th, locks, sh');
    HoldStays(st, t, th, locks, sh');
    RefsStay(st, t, th, locks, sh');
    SnapStays(st, t, th, locks, sh');
  }

  lemma {:induction false} SameRegistrations(sh: Shared, sh': Shared)
    requires sh'.registry == sh.registry
    ensures forall s :: Registered(sh, s) == Registered(sh', s)
  {
    forall s ensures Registered(sh, s) == Registered(sh', s) {
    }
  }

  lemma {:induction false} OwnerView(sh: Shared, sh': Shared, pc: PC)
    requires OwnerOk(sh, pc) && sh'.registry == sh.registry && sh'.published == sh.published
    requires forall o :: o in sh.heap ==> o in sh'.heap && sh'.heap[o].key == sh.heap[o].key && sh'.heap[o].link == sh.heap[o].link
    ensures OwnerOk(sh', pc)
  {
    SameRegistrations(sh, sh');
    hide Owner, OwnedKey, Linked, IsCloser, Registered;
  }

  lemma {:induction false} VisitView(sh: Shared, sh': Shared, pc: PC)
    requires VisitOk(sh, pc) && sh.published <= sh'.published && forall o :: HandleOf(sh', o) == HandleOf(sh, o)
    ensures VisitOk(sh', pc)
  {
    hide Visits, HandleOf;
  }

  lemma {:induction false} AllocShape(sh: Shared, k: Key)
    ensures var sh' := Apply(sh, Alloc(k));
            && sh'.registry == sh.registry && sh'.published == sh.published && sh'.heap == sh.heap[sh.nextSref := Session(k, None, false)]
  {
  }

  lemma {:induction false} AllocFrame(sh: Shared, k: Key)
    requires RegInv(sh)
    ensures var sh' := Apply(sh, Alloc(k));
            && sh'.registry == sh.registry && sh'.published == sh.published
            && (forall o :: o in sh.heap ==> o in sh'.heap && sh'.heap[o] == sh.heap[o])
            && sh.nextSref !in sh.heap && sh.nextSref in sh'.heap && sh'.heap[sh.nextSref] == Session(k, None, false)
  {
    AllocShape(sh, k);
    hide Apply;
  }

  lemma {:induction false} AllocHandles(sh: Shared, k: Key)
    requires RegInv(sh)
    ensures forall o :: HandleOf(Apply(sh, Alloc(k)), o) == HandleOf(sh, o)
    ensures sh.nextSref !in sh.published && !Registered(Apply(sh, Alloc(k)), sh.nextSref)
  {
    AllocShape(sh, k);
    hide Apply;
  }

  lemma {:induction false} AllocOwn(st: St, t: Tid, th: Thread, locks: map<Lock, Tid>, k: Key)
    requires OwnInv(st) && RegInv(st.sh) && t in st.threads
    requires th.pc.OWantConnect? && th.pc.key == k && th.pc.s == st.sh.nextSref
    ensures OwnInv(Put(st, t, th, locks, Apply(st.sh, Alloc(k))))
  {
    var sh' := Apply(st.sh, Alloc(k));
    AllocFrame(st.sh, k);
    AllocHandles(st.sh, k);
    hide Apply, RegInv;
    assert OwnerOk(sh', th.pc) && VisitOk(sh', th.pc) && Owner(th.pc) == Some(st.sh.nextSref);
    forall u | u in st.threads && u != t
      ensures OwnerOk(sh', st.threads[u].pc) && VisitOk(sh', st.threads[u].pc) && Owner(st.threads[u].pc) != Owner(th.pc)
    {
      assert OwnerOk(st.sh, st.threads[u].pc) && VisitOk(st.sh, st.threads[u].pc) by { hide Owner, Visits, OwnerOk, VisitOk; }
      assert Owner(st.threads[u].pc) != Some(st.sh.nextSref) by { hide Owner, Visits, OwnedKey, Linked, IsCloser; }
      hide Owner, Visits, OwnerOk, VisitOk;
      OwnerView(st.sh, sh', st.threads[u].pc);
      VisitView(st.sh, sh', st.threads[u].pc);
    }
    hide Owner, Visits, OwnerOk, VisitOk;
    OwnStays(st, t, th, locks, sh');
  }

  /** Snapshots and dialled connections stay right when sessions neither connect nor leave the server. */
  lemma {:induction false} SnapStays(st: St, t: Tid, th: Thread, locks: map<Lock, Tid>, sh': Shared)
    requires SnapInv(st) && TargetInv(st.sh) && t in st.threads && sh'.live == st.sh.live
    requires forall s :: IsLinked(sh', s) ==> IsLinked(st.sh, s) && sh'.heap[s].link == st.sh.heap[s].link
    requires Snapshot(th.pc) in {Snapshot(st.threads[t].pc), None} && Dialled(th.pc) in {Dialled(st.threads[t].pc), None}
    ensures var st' := Put(st, t, th, locks, sh'); SnapInv(st') && TargetInv(sh')
  {
    hide Snapshot, Dialled, Ids;
    var st' := Put(st, t, th, locks, sh');
    assert SnapOk(st.sh, st.threads[t].pc);
    forall u | u in st'.threads ensures SnapOk(sh', st'.threads[u].pc) {
      assert u != t ==> SnapOk(st.sh, st.threads[u].pc);
    }
  }

  /** Ownership depends only on the registry and the sessions. */
  lemma {:induction false} SameOwnership(sh: Shared, sh': Shared, pc: PC)
    requires sh'.heap == sh.heap && sh'.registry == sh.registry && sh'.published == sh.published
    ensures OwnerOk(sh, pc) == OwnerOk(sh', pc) && VisitOk(sh, pc) == VisitOk(sh', pc)
  {
    hide Owner, OwnedKey, Visits, Linked, IsCloser;
    assert Owner(pc).Some? ==> Registered(sh, Owner(pc).value) == Registered(sh', Owner(pc).value);
  }

  lemma {:induction false} OwnSame(st: St, t: Tid, th: Thread, locks: map<Lock, Tid>, sh': Shared)
    requires OwnInv(st) && t in st.threads
    requires sh'.heap == st.sh.heap && sh'.registry == st.sh.registry && sh'.published == st.sh.published
    requires OwnerOk(st.sh, th.pc) && VisitOk(st.sh, th.pc) && Owner(th.pc) in {Owner(st.threads[t].pc), None}
    ensures OwnInv(Put(st, t, th, locks, sh'))
  {
    hide Owner, OwnerOk, VisitOk;
    forall pc ensures OwnerOk(st.sh, pc) == OwnerOk(sh', pc) && VisitOk(st.sh, pc) == VisitOk(sh', pc) {
      SameOwnership(st.sh, sh', pc);
    }
    OwnStays(st, t, th, locks, sh');
  }

  // ---- Acquiring a control connection ----

  predicate Acquires(sh: Shared, pc: PC, next: PC, k: Key)
  {
    && pc.OInControl? && pc.key == k && next.OWantAct? && next.s == pc.s && next.key == k
    && next.h == (if k in sh.controls then sh.controls[k].handle else sh.nextHandle)
  }

  lemma {:induction false} AcquireKeeps(st: St, t: Tid, th: Thread, locks: map<Lock, Tid>, k: Key)
    requires Inv(st) && t in st.threads && Acquires(st.sh, st.threads[t].pc, th.pc, k)
    ensures Core(Put(st, t, th, locks, Apply(st.sh, AcquireControl(k))))
  {
    hide LockInv, HandleInv, TargetInv, OwnInv, ConnInv, SnapInv, HoldInv, RefInv, ControlIs;
    var sh' := Apply(st.sh, AcquireControl(k));
    AcquireTable(st.sh, k);
    AcquireOwn(st, t, th, locks, k);
    AcquireConn(st, t, th, locks, k);
    AcquireRefs(st, t, th, locks, k);
    SnapStays(st, t, th, locks, sh');
  }

  lemma {:induction false} AcquiredControl(sh: Shared, k: Key, j: Key, h: Handle)
    ensures ControlIs(Apply(sh, AcquireControl(k)), j, h) <==>
            ControlIs(sh, j, h) || (k !in sh.controls && j == k && h == sh.nextHandle)
  {
  }

  lemma {:induction false} AcquireTable(sh: Shared, k: Key)
    requires HandleInv(sh)
    ensures HandleInv(Apply(sh, AcquireControl(k)))
    ensures forall j, h :: ControlIs(sh, j, h) ==> ControlIs(Apply(sh, AcquireControl(k)), j, h)
  {
    var sh' := Apply(sh, AcquireControl(k));
    hide ControlIs;
    forall j, h ensures ControlIs(sh', j, h) <==> ControlIs(sh, j, h) || (k !in sh.controls && j == k && h == sh.nextHandle) {
      AcquiredControl(sh, k, j, h);
    }
    forall h | h in sh'.openHandles ensures exists j :: ControlIs(sh', j, h) {
      if h in sh.openHandles {
        var j :| ControlIs(sh, j, h);
        assert ControlIs(sh', j, h);
      } else {
        assert ControlIs(sh', k, h);
      }
    }
  }

  lemma {:induction false} AcquireOwn(st: St, t: Tid, th: Thread, locks: map<Lock, Tid>, k: Key)
    requires OwnInv(st) && t in st.threads && Acquires(st.sh, st.threads[t].pc, th.pc, k)
    ensures OwnInv(Put(st, t, th, locks, Apply(st.sh, AcquireControl(k))))
  {
    assert OwnerOk(st.sh, st.threads[t].pc);
    OwnSame(st, t, th, locks, Apply(st.sh, AcquireControl(k)));
  }

  lemma {:induction false} AcquireConn(st: St, t: Tid, th: Thread, locks: map<Lock, Tid>, k: Key)
    requires OwnInv(st) && ConnInv(st) && HoldInv(st) && HandleInv(st.sh)
    requires t in st.threads && Acquires(st.sh, st.threads[t].pc, th.pc, k)
    ensures var st' := Put(st, t, th, locks, Apply(st.sh, AcquireControl(k))); ConnInv(st') && HoldInv(st')
  {
    hide ConnInv, HoldInv, HandleInv;
    var sh' := Apply(st.sh, AcquireControl(k));
    var st' := Put(st, t, th, locks, sh');
    AcquireTable(st.sh, k);
    assert OwnerOk(st.sh, st.threads[t].pc);
    assert Kept(st', th.pc.s) by {
      assert t in st'.threads && Owner(st'.threads[t].pc) == Some(th.pc.s) && HeldKey(st'.threads[t].pc).Some?;
    }
    assert ConnOk(st', th.pc);
    hide Owner, HeldKey, Connecting, ConnOk, ControlIs, Kept;
    ConnStays(st, t, th, locks, sh');
    HoldStays(st, t, th, locks, sh');
  }

  lemma {:induction false} AcquireRefs(st: St, t: Tid, th: Thread, locks: map<Lock, Tid>, k: Key)
    requires RefInv(st) && t in st.threads && Acquires(st.sh, st.threads[t].pc, th.pc, k)
    ensures RefInv(Put(st, t, th, locks, Apply(st.sh, AcquireControl(k))))
  {
    var st' := Put(st, t, th, locks, Apply(st.sh, AcquireControl(k)));
    assert HeldKey(st.threads[t].pc).None? && HeldKey(th.pc) == Some(k);
    forall j ensures RefOk(st', j) {
      hide HeldKey, Holders, RefOk, Apply;
      assert RefOk(st, j);
      AcquireFrame(st.sh, k);
      HoldersGain(st, t, th, locks, st'.sh, j);
      AcquireOne(st, st', Thr(t), k, j);
    }
  }

  lemma {:induction false} AcquireFrame(sh: Shared, k: Key)
    ensures var sh' := Apply(sh, AcquireControl(k)); sh'.heap == sh.heap && sh'.registry == sh.registry
  {
  }

  lemma {:induction false} AcquireOne(st: St, st': St, holder: Holder, k: Key, j: Key)
    requires RefOk(st, j) && st'.sh.controls == Apply(st.sh, AcquireControl(k)).controls && holder !in Holders(st, j)
    requires Holders(st', j) == Holders(st, j) + (if j == k then {holder} else {})
    ensures RefOk(st', j)
  {
    hide Holders;
    var before, after := Holders(st, j), Holders(st', j);
    if j == k {
      assert after == before + {holder} && |after| == |before| + 1;
      assert holder in after;
    } else {
      assert after == before;
    }
  }

  lemma {:induction false} HoldersGain(st: St, t: Tid, th: Thread, locks: map<Lock, Tid>, sh': Shared, j: Key)
    requires t in st.threads && HeldKey(st.threads[t].pc).None? && sh'.heap == st.sh.heap && sh'.registry == st.sh.registry
    ensures Holders(Put(st, t, th, locks, sh'), j) == Holders(st, j) + (if HeldKey(th.pc) == Some(j) then {Thr(t)} else {})
    ensures Thr(t) !in Holders(st, j)
  {
    hide HeldKey, Holders;
    var st' := Put(st, t, th, locks, sh');
    forall h ensures h in Holders(st', j) <==> h in Holders(st, j) + (if HeldKey(th.pc) == Some(j) then {Thr(t)} else {}) {
      InHolders(st, j, h);
      InHolders(st', j, h);
    }
    InHolders(st, j, Thr(t));
  }

  // ---- Releasing one ----

  predicate Releaser(pc: PC, k: Key)
  {
    HeldKey(pc) == Some(k) && (pc.OInRel? || pc.RInRel? || pc.CInRel?)
  }

  lemma {:induction false} ReleaseKeeps(st: St, t: Tid, th: Thread, locks: map<Lock, Tid>, k: Key)
    requires Inv(st) && t in st.threads && Releaser(st.threads[t].pc, k) && th.pc == Idle
    ensures Core(Put(st, t, th, locks, Apply(st.sh, ReleaseControl(k))))
  {
    hide LockInv, HandleInv, TargetInv, OwnInv, ConnInv, SnapInv, HoldInv, RefInv, ControlIs, Releaser;
    var sh' := Apply(st.sh, ReleaseControl(k));
    hide Apply;
    ReleaserHolds(st.threads[t].pc, k);
    ReleaseFrame(st.sh, k);
    RegSame(st.sh, sh');
    ReleaseTable(st.sh, k);
    IdleFacts();
    OwnSame(st, t, th, locks, sh');
    ReleaseConn(st, t, th, locks, k);
    ReleaseHold(st, t, th, locks, k);
    ReleaseRefs(st, t, th, locks, k);
    SnapStays(st, t, th, locks, sh');
  }

  lemma {:induction false} ReleaseFrame(sh: Shared, k: Key)
    ensures var sh' := Apply(sh, ReleaseControl(k));
            && sh'.heap == sh.heap && sh'.registry == sh.registry && sh'.published == sh.published && sh'.live == sh.live
            && sh'.kills == sh.kills && sh'.nextSref == sh.nextSref
  {
  }

  lemma {:induction false} RegSame(sh: Shared, sh': Shared)
    requires RegInv(sh) && sh'.heap == sh.heap && sh'.registry == sh.registry && sh'.published == sh.published && sh'.nextSref == sh.nextSref
    ensures RegInv(sh')
  {
  }

  lemma {:induction false} ReleasedControl(sh: Shared, k: Key, j: Key, h: Handle)
    ensures ControlIs(Apply(sh, ReleaseControl(k)), j, h) <==>
            ControlIs(sh, j, h) && (j != k || sh.controls[k].refs > 1)
  {
  }

  lemma {:induction false} ReleaseTable(sh: Shared, k: Key)
    requires HandleInv(sh)
    ensures HandleInv(Apply(sh, ReleaseControl(k)))
  {
    var sh' := Apply(sh, ReleaseControl(k));
    assert k in sh.controls ==> ControlIs(sh, k, sh.controls[k].handle);
    hide ControlIs;
    forall j, h ensures ControlIs(sh', j, h) <==> ControlIs(sh, j, h) && (j != k || sh.controls[k].refs > 1) {
      ReleasedControl(sh, k, j, h);
    }
    forall h | h in sh'.openHandles ensures exists j :: ControlIs(sh', j, h) {
      var j :| ControlIs(sh, j, h);
      assert ControlIs(sh', j, h);
    }
  }

  lemma {:induction false} ReleaseRefs(st: St, t: Tid, th: Thread, locks: map<Lock, Tid>, k: Key)
    requires RefInv(st) && t in st.threads && HeldKey(st.threads[t].pc) == Some(k) && th.pc == Idle
    ensures RefInv(Put(st, t, th, locks, Apply(st.sh, ReleaseControl(k))))
  {
    var st' := Put(st, t, th, locks, Apply(st.sh, ReleaseControl(k)));
    assert HeldKey(th.pc).None?;
    forall j ensures RefOk(st', j) {
      hide HeldKey, Holders, RefOk;
      assert RefOk(st, j);
      HoldersLose(st, t, th, locks, st'.sh, k, j);
      ReleaseOne(st, st', Thr(t), k, j);
    }
  }

  lemma {:induction false} ReleaseOne(st: St, st': St, holder: Holder, k: Key, j: Key)
    requires RefOk(st, j) && st'.sh.controls == Apply(st.sh, ReleaseControl(k)).controls
    requires Holders(st', j) == Holders(st, j) - {holder} && (holder in Holders(st, j) <==> j == k)
    ensures RefOk(st', j)
  {
    hide Holders;
    var before, after := Holders(st, j), Holders(st', j);
    if j == k {
      assert |after| == |before| - 1;
    } else {
      assert after == before;
    }
  }

  lemma {:induction false} HoldersLose(st: St, t: Tid, th: Thread, locks: map<Lock, Tid>, sh': Shared, k: Key, j: Key)
    requires t in st.threads && HeldKey(st.threads[t].pc) == Some(k) && HeldKey(th.pc).None?
    requires sh'.heap == st.sh.heap && sh'.registry == st.sh.registry
    ensures Holders(Put(st, t, th, locks, sh'), j) == Holders(st, j) - {Thr(t)}
    ensures Thr(t) in Holders(st, j) <==> j == k
  {
    hide HeldKey, Holders;
    var st' := Put(st, t, th, locks, sh');
    forall h ensures h in Holders(st', j) <==> h in Holders(st, j) - {Thr(t)} {
      InHolders(st, j, h);
      InHolders(st', j, h);
    }
    InHolders(st, j, Thr(t));
  }

  /** A session kept by someone other than the releasing thread has a second holder of its key. */
  lemma {:induction false} KeptHolder(st: St, t: Tid, s: Sref)
    requires OwnInv(st) && s in st.sh.heap && Kept(st, s)
    requires t in st.threads && Owner(st.threads[t].pc) != Some(s)
    ensures exists h :: h in Holders(st, st.sh.heap[s].key) && h != Thr(t)
  {
    hide HeldKey, Owner, OwnedKey, Visits, Linked, IsCloser, Holders;
    if Registered(st.sh, s) {
      var id :| id in st.sh.registry && st.sh.registry[id] == s;
      InHolders(st, st.sh.heap[s].key, Reg(id));
    } else {
      var u :| u in st.threads && Owner(st.threads[u].pc) == Some(s) && HeldKey(st.threads[u].pc).Some?;
      assert OwnerOk(st.sh, st.threads[u].pc);
      HeldIsOwned(st.threads[u].pc);
      InHolders(st, st.sh.heap[s].key, Thr(u));
    }
  }

  lemma {:induction false} HeldIsOwned(pc: PC)
    requires HeldKey(pc).Some?
    ensures OwnedKey(pc) == HeldKey(pc)
  {
  }

  /** What the releasing thread does not own stays kept, with its control connection open. */
  lemma {:induction false} ReleaseSpares(st: St, t: Tid, th: Thread, locks: map<Lock, Tid>, k: Key, s: Sref, h: Handle)
    requires OwnInv(st) && RefInv(st) && s in st.sh.heap && Kept(st, s) && ControlIs(st.sh, st.sh.heap[s].key, h)
    requires t in st.threads && Owner(st.threads[t].pc) != Some(s) && HeldKey(st.threads[t].pc) == Some(k)
    ensures var st' := Put(st, t, th, locks, Apply(st.sh, ReleaseControl(k)));
            Kept(st', s) && ControlIs(st'.sh, st.sh.heap[s].key, h)
  {
    hide HeldKey, Owner, OwnedKey, Visits, Linked, IsCloser, Holders, ControlIs, OwnInv;
    var sh' := Apply(st.sh, ReleaseControl(k));
    SpareKept(st, t, th, locks, sh', s);
    KeptHolder(st, t, s);
    ReleasedControl(st.sh, k, st.sh.heap[s].key, h);
    if st.sh.heap[s].key == k {
      assert RefOk(st, k);
      var o :| o in Holders(st, k) && o != Thr(t);
      InHolders(st, k, Thr(t));
      assert {o, Thr(t)} <= Holders(st, k);
      TwoMembers(Holders(st, k), o, Thr(t));
    }
  }

  lemma {:induction false} TwoMembers<T>(s: set<T>, a: T, b: T)
    requires a in s && b in s && a != b
    ensures |s| >= 2
  {
    assert |s - {a}| == |s| - 1;
    assert b in s - {a};
  }

  lemma {:induction false} SpareKept(st: St, t: Tid, th: Thread, locks: map<Lock, Tid>, sh': Shared, s: Sref)
    requires Kept(st, s) && sh'.registry == st.sh.registry && t in st.threads && Owner(st.threads[t].pc) != Some(s)
    ensures Kept(Put(st, t, th, locks, sh'), s)
  {
    hide HeldKey, Owner;
    var st' := Put(st, t, th, locks, sh');
    if Registered(st.sh, s) {
      assert Registered(st'.sh, s);
    } else {
      var u :| u in st.threads && Owner(st.threads[u].pc) == Some(s) && HeldKey(st.threads[u].pc).Some?;
      assert u in st'.threads && Owner(st'.threads[u].pc) == Some(s) && HeldKey(st'.threads[u].pc).Some?;
    }
  }

  /** A releasing thread's own session is no longer connected. */
  lemma {:induction false} ReleaserUnlinked(st: St, t: Tid, k: Key, s: Sref)
    requires OwnInv(st) && t in st.threads && Releaser(st.threads[t].pc, k) && IsLinked(st.sh, s)
    ensures Owner(st.threads[t].pc) != Some(s)
  {
    assert OwnerOk(st.sh, st.threads[t].pc);
  }

  lemma {:induction false} ReleaseHold(st: St, t: Tid, th: Thread, locks: map<Lock, Tid>, k: Key)
    requires Inv(st) && t in st.threads && Releaser(st.threads[t].pc, k)
    ensures HoldInv(Put(st, t, th, locks, Apply(st.sh, ReleaseControl(k))))
  {
    hide LockInv, HandleInv, TargetInv, ConnInv, SnapInv, RefInv, OwnInv, RegInv, ControlIs, Kept, HeldKey, OwnedKey, Owner, Releaser, Apply;
    var st' := Put(st, t, th, locks, Apply(st.sh, ReleaseControl(k)));
    ReleaserHolds(st.threads[t].pc, k);
    ReleaseFrame(st.sh, k);
    forall s | IsLinked(st'.sh, s) ensures Kept(st', s) && ControlIs(st'.sh, st'.sh.heap[s].key, st'.sh.heap[s].link.value.handle) {
      assert IsLinked(st.sh, s);
      ReleaserUnlinked(st, t, k, s);
      ReleaseSpares(st, t, th, locks, k, s, st.sh.heap[s].link.value.handle);
    }
  }

  lemma {:induction false} ReleaseConn(st: St, t: Tid, th: Thread, locks: map<Lock, Tid>, k: Key)
    requires Inv(st) && t in st.threads && Releaser(st.threads[t].pc, k) && th.pc == Idle
    ensures ConnInv(Put(st, t, th, locks, Apply(st.sh, ReleaseControl(k))))
  {
    hide LockInv, HandleInv, TargetInv, SnapInv, HoldInv, RefInv, OwnInv, ControlIs, Kept, HeldKey, OwnedKey, Connecting, Owner, Releaser;
    var st' := Put(st, t, th, locks, Apply(st.sh, ReleaseControl(k)));
    ReleaseFrame(st.sh, k);
    hide Apply;
    assert Connecting(Idle).None? by { IdleFacts(); }
    assert HeldKey(st.threads[t].pc) == Some(k) by { ReleaserHolds(st.threads[t].pc, k); }
    forall u | u in st'.threads ensures ConnOk(st', st'.threads[u].pc) {
      if u != t && Connecting(st.threads[u].pc).Some? {
        assert ConnOk(st, st.threads[u].pc);
        var (s, h) := Connecting(st.threads[u].pc).value;
        ConnectorsUndisturbed(st, t, u, k);
        ReleaseSpares(st, t, th, locks, k, s, h);
      }
    }
  }

  lemma {:induction false} ReleaserHolds(pc: PC, k: Key)
    requires Releaser(pc, k)
    ensures HeldKey(pc) == Some(k)
  {
  }

  lemma {:induction false} IdleFacts()
    ensures Connecting(Idle).None? && Owner(Idle).None? && HeldKey(Idle).None? && Visits(Idle).None?
    ensures Snapshot(Idle).None? && Dialled(Idle).None?
  {
  }

  /** Nobody connects a session that another thread is about to release. */
  lemma {:induction false} ConnectorsUndisturbed(st: St, t: Tid, u: Tid, k: Key)
    requires LockInv(st) && OwnInv(st) && t in st.threads && u in st.threads && t != u
    requires Releaser(st.threads[t].pc, k) && Connecting(st.threads[u].pc).Some?
    ensures Owner(st.threads[t].pc) != Some(Connecting(st.threads[u].pc).value.0)
  {
    var pc, qc := st.threads[t].pc, st.threads[u].pc;
    var s := Connecting(qc).value.0;
    assert OwnerOk(st.sh, pc) && VisitOk(st.sh, qc);
    ConnectorKind(qc);
    assert Owner(qc) == Some(s) ==> Owner(pc) != Owner(qc);
    assert Visits(qc) == Some(s) && Owner(pc) == Some(s) ==> pc.CInRel? && SessMu(s) in Held(pc);
    Exclusive(st, t, u, SessMu(s));
  }

  lemma {:induction false} Exclusive(st: St, t: Tid, u: Tid, l: Lock)
    requires LockInv(st) && t in st.threads && u in st.threads
    ensures l in Held(st.threads[t].pc) && l in Held(st.threads[u].pc) ==> t == u
  {
    hide Held;
    if l in Held(st.threads[t].pc) {
      assert st.locks[l] == t;
    }
  }

  /** A thread connects either the session it is opening or, holding the session's mutex, one it visits. */
  lemma {:induction false} ConnectorKind(pc: PC)
    requires Connecting(pc).Some?
    ensures var s := Connecting(pc).value.0;
            Owner(pc) == Some(s) || (Visits(pc) == Some(s) && SessMu(s) in Held(pc))
    ensures pc.OWantAct? || pc.OInAct? || pc.OSnap? || pc.ODial? || pc.OAfter? || pc.VSnap? || pc.VDial? || pc.VAfter?
  {
  }

  // ---- Dialling and hanging up ----

  /** Only the holder of connectMu has a snapshot, a dialled connection or a saved handle. */
  lemma {:induction false} ConnectHolder(pc: PC)
    requires Snapshot(pc).Some? || Dialled(pc).Some? || pc.VWantAct? || pc.VInAct? || pc.VSnap? || pc.VDial? || pc.VAfter?
    ensures ConnectMu in Held(pc)
  {
  }

  lemma {:induction false} OneConnector(st: St, t: Tid, u: Tid)
    requires LockInv(st) && t in st.threads && u in st.threads && ConnectMu in Held(st.threads[t].pc) && t != u
    ensures var pc := st.threads[u].pc;
            Snapshot(pc).None? && Dialled(pc).None? && !pc.VWantAct? && !pc.VInAct? && !pc.VSnap? && !pc.VDial? && !pc.VAfter?
  {
    hide LockInv, Held, Snapshot, Dialled;
    var pc := st.threads[u].pc;
    Exclusive(st, t, u, ConnectMu);
    if Snapshot(pc).Some? || Dialled(pc).Some? || pc.VWantAct? || pc.VInAct? || pc.VSnap? || pc.VDial? || pc.VAfter? {
      ConnectHolder(pc);
    }
  }

  /** The thread keeps its session and its reference while the sessions stay as they are. */
  lemma {:induction false} LiveOnly(st: St, t: Tid, th: Thread, locks: map<Lock, Tid>, sh': Shared)
    requires Inv(st) && t in st.threads
    requires sh'.heap == st.sh.heap && sh'.registry == st.sh.registry && sh'.published == st.sh.published && sh'.nextSref == st.sh.nextSref
    requires sh'.controls == st.sh.controls && sh'.openHandles == st.sh.openHandles && sh'.nextHandle == st.sh.nextHandle && sh'.kills == st.sh.kills
    requires OwnerOk(st.sh, th.pc) && VisitOk(st.sh, th.pc) && Owner(th.pc) in {Owner(st.threads[t].pc), None}
    requires HeldKey(th.pc) == HeldKey(st.threads[t].pc) && KeepsHold(st.threads[t].pc, th.pc)
    requires Connecting(th.pc) in {Connecting(st.threads[t].pc), None}
    ensures var st' := Put(st, t, th, locks, sh');
            RegInv(sh') && OwnInv(st') && ConnInv(st') && HoldInv(st') && RefInv(st') && HandleInv(sh') && KillInv(sh')
  {
    hide LockInv, OwnInv, ConnInv, HoldInv, RefInv, HandleInv, KillInv, TargetInv, SnapInv;
    hide Owner, HeldKey, Connecting, ControlIs, OwnerOk, VisitOk, KeepsHold;
    SameControls(st.sh, sh');
    TableStays(st.sh, sh');
    OwnSame(st, t, th, locks, sh');
    ConnStays(st, t, th, locks, sh');
    HoldStays(st, t, th, locks, sh');
    RefsStay(st, t, th, locks, sh');
  }

  predicate Dials(pc: PC, next: PC, conn: Target)
  {
    && Snapshot(pc).Some? && Dialled(next) == Some(conn) && Snapshot(next) == Snapshot(pc) && Connecting(next) == Connecting(pc)
    && ((pc.ODial? && next.OAfter? && pc.s == next.s && pc.key == next.key) || (pc.VDial? && next.VAfter? && pc.s == next.s))
  }

  lemma {:induction false} DialKeeps(st: St, t: Tid, th: Thread, locks: map<Lock, Tid>, conn: Target)
    requires Inv(st) && t in st.threads && Dials(st.threads[t].pc, th.pc, conn) && conn !in st.sh.live
    ensures Core(Put(st, t, th, locks, Apply(st.sh, Dial(conn))))
  {
    hide LockInv, ConnInv, HoldInv, RefInv, HandleInv, KillInv, TargetInv, SnapInv, RegInv;
    assert OwnerOk(st.sh, st.threads[t].pc) && VisitOk(st.sh, st.threads[t].pc);
    LiveOnly(st, t, th, locks, Apply(st.sh, Dial(conn)));
    DialSnap(st, t, th, locks, conn);
  }

  lemma {:induction false} DialSnap(st: St, t: Tid, th: Thread, locks: map<Lock, Tid>, conn: Target)
    requires SnapInv(st) && TargetInv(st.sh) && t in st.threads && Dials(st.threads[t].pc, th.pc, conn) && conn !in st.sh.live
    ensures var st' := Put(st, t, th, locks, Apply(st.sh, Dial(conn))); SnapInv(st') && TargetInv(st'.sh)
  {
    hide Snapshot, Dialled, Connecting, Ids;
    var st' := Put(st, t, th, locks, Apply(st.sh, Dial(conn)));
    assert SnapOk(st.sh, st.threads[t].pc);
    forall s | IsLinked(st'.sh, s) ensures IsLinked(st.sh, s) {}
    forall u | u in st'.threads ensures SnapOk(st'.sh, st'.threads[u].pc) {
      assert SnapOk(st.sh, st.threads[u].pc);
    }
  }

  predicate HangsUp(pc: PC, next: PC, conn: Target)
  {
    Dialled(pc) == Some(conn) && ((pc.OAfter? && next == OFail(pc.key, pc.s)) || (pc.VAfter? && next == VDone(pc.s)))
  }

  lemma {:induction false} HangupKeeps(st: St, t: Tid, th: Thread, locks: map<Lock, Tid>, conn: Target)
    requires Inv(st) && t in st.threads && HangsUp(st.threads[t].pc, th.pc, conn)
    ensures Core(Put(st, t, th, locks, Apply(st.sh, Hangup(conn))))
  {
    hide LockInv, ConnInv, HoldInv, RefInv, HandleInv, KillInv, TargetInv, SnapInv, RegInv;
    assert OwnerOk(st.sh, st.threads[t].pc) && VisitOk(st.sh, st.threads[t].pc);
    LiveOnly(st, t, th, locks, Apply(st.sh, Hangup(conn)));
    HangupSnap(st, t, th, locks, conn);
  }

  lemma {:induction false} HangupFacts(pc: PC, next: PC, conn: Target)
    requires HangsUp(pc, next, conn)
    ensures Snapshot(next).None? && Dialled(next).None? && ConnectMu in Held(pc)
  {
  }

  lemma {:induction false} HangupSnap(st: St, t: Tid, th: Thread, locks: map<Lock, Tid>, conn: Target)
    requires LockInv(st) && SnapInv(st) && TargetInv(st.sh) && t in st.threads && HangsUp(st.threads[t].pc, th.pc, conn)
    ensures var st' := Put(st, t, th, locks, Apply(st.sh, Hangup(conn))); SnapInv(st') && TargetInv(st'.sh)
  {
    hide LockInv, Snapshot, Dialled, Connecting, Ids, Held;
    HangupFacts(st.threads[t].pc, th.pc, conn);
    var st' := Put(st, t, th, locks, Apply(st.sh, Hangup(conn)));
    assert SnapOk(st.sh, st.threads[t].pc);
    forall s | IsLinked(st'.sh, s) ensures IsLinked(st.sh, s) {}
    forall u | u in st'.threads ensures SnapOk(st'.sh, st'.threads[u].pc) {
      if u != t {
        OneConnector(st, t, u);
      }
    }
  }
}
