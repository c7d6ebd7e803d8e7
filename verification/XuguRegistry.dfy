/** Registering and taking a session: the control reference moves between a thread and the registry. */
module XuguRegistry {
  import opened Common
  import opened XuguRuntime
  import opened XuguLocks
  import opened XuguInvariants
  import opened XuguSteps

  /** Neither move touches the sessions, the control table or the server. */
  ghost predicate TableOnly(sh: Shared, sh': Shared)
  {
    && sh'.heap == sh.heap && sh'.controls == sh.controls && sh'.openHandles == sh.openHandles && sh'.nextHandle == sh.nextHandle
    && sh'.live == sh.live && sh'.kills == sh.kills && sh'.nextSref == sh.nextSref
  }

  /** All that is left to show once the thread's hold and the registration have changed places. */
  lemma {:induction false} HandedOver(st: St, t: Tid, th: Thread, locks: map<Lock, Tid>, sh': Shared)
    requires Inv(st) && t in st.threads && TableOnly(st.sh, sh')
    requires forall s :: Kept(st, s) ==> Kept(Put(st, t, th, locks, sh'), s)
    requires Connecting(th.pc).None? && Snapshot(th.pc).None? && Dialled(th.pc).None?
    ensures var st' := Put(st, t, th, locks, sh');
            ConnInv(st') && HoldInv(st') && HandleInv(sh') && KillInv(sh') && SnapInv(st') && TargetInv(sh')
  {
    hide LockInv, RegInv, OwnInv, RefInv, HandleInv, KillInv, TargetInv, SnapInv, Kept, ControlIs, Connecting, Snapshot, Dialled;
    var st' := Put(st, t, th, locks, sh');
    TableStays(st.sh, sh');
    SameControls(st.sh, sh');
    SnapStays(st, t, th, locks, sh');
    forall u | u in st'.threads ensures ConnOk(st', st'.threads[u].pc) {
      if u != t {
        assert ConnOk(st, st.threads[u].pc);
        if Connecting(st.threads[u].pc).Some? {
          var (s, h) := Connecting(st.threads[u].pc).value;
          assert Kept(st', s) && ControlIs(sh', st.sh.heap[s].key, h);
        }
      }
    }
    forall s | IsLinked(sh', s) ensures Kept(st', s) && ControlIs(sh', sh'.heap[s].key, sh'.heap[s].link.value.handle) {
      assert IsLinked(st.sh, s);
    }
  }

  /** State a where thread t holds the reference of session s, and state b where registration id does. */
  ghost predicate HandOver(a: St, b: St, t: Tid, id: Id, s: Sref)
  {
    && t in a.threads && a.threads.Keys == b.threads.Keys && (forall u :: u in a.threads && u != t ==> a.threads[u] == b.threads[u])
    && s in a.sh.heap && HeldKey(a.threads[t].pc) == Some(a.sh.heap[s].key) && HeldKey(b.threads[t].pc).None?
    && id !in a.sh.registry && b.sh.registry == a.sh.registry[id := s] && a.sh.heap == b.sh.heap && a.sh.controls == b.sh.controls
  }

  lemma {:induction false} HandOverHolder(a: St, b: St, t: Tid, id: Id, s: Sref, j: Key, h: Holder)
    requires HandOver(a, b, t, id, s)
    ensures h in Holders(a, j) <==> if h == Thr(t) then j == a.sh.heap[s].key else h != Reg(id) && h in Holders(b, j)
    ensures h in Holders(b, j) <==> if h == Reg(id) then j == a.sh.heap[s].key else h != Thr(t) && h in Holders(a, j)
  {
    hide Holders, HeldKey;
    InHolders(a, j, h);
    InHolders(b, j, h);
  }

  lemma {:induction false} HandOverSize(a: St, b: St, t: Tid, id: Id, s: Sref, j: Key)
    requires HandOver(a, b, t, id, s)
    ensures |Holders(a, j)| == |Holders(b, j)|
  {
    hide Holders;
    var xs, ys, same := Holders(a, j), Holders(b, j), j == a.sh.heap[s].key;
    forall h
      ensures h in xs <==> if h == Thr(t) then same else h != Reg(id) && h in ys
      ensures h in ys <==> if h == Reg(id) then same else h != Thr(t) && h in xs
    {
      HandOverHolder(a, b, t, id, s, j, h);
    }
    SwapSize(xs, ys, Thr(t), Reg(id), same);
  }

  lemma {:induction false} SwapSize(xs: set<Holder>, ys: set<Holder>, x: Holder, y: Holder, same: bool)
    requires forall h :: h in xs <==> if h == x then same else h != y && h in ys
    requires forall h :: h in ys <==> if h == y then same else h != x && h in xs
    ensures |xs| == |ys|
  {
    assert xs - {x} == ys - {y};
    CutOne(xs, x);
    CutOne(ys, y);
  }

  lemma {:induction false} CutOne(s: set<Holder>, h: Holder)
    ensures |s| == |s - {h}| + (if h in s then 1 else 0)
  {
    if h !in s {
      assert s - {h} == s;
    }
  }

  /** One holder leaves and another comes: the counts stand. */
  lemma {:induction false} HandOverCounts(a: St, b: St, t: Tid, id: Id, s: Sref)
    requires HandOver(a, b, t, id, s)
    ensures RefInv(a) <==> RefInv(b)
  {
    hide Holders, HeldKey;
    forall j ensures RefOk(a, j) <==> RefOk(b, j) {
      HandOverSize(a, b, t, id, s, j);
      assert Holders(a, j) == {} <==> |Holders(a, j)| == 0;
      assert Holders(b, j) == {} <==> |Holders(b, j)| == 0;
    }
  }

  // ---- Register ----

  predicate Registers(sh: Shared, pc: PC, next: PC, id: Id, s: Sref)
  {
    pc.OInReg? && pc.s == s && id !in sh.registry && |sh.registry| < MAX_SESSIONS && next == Idle
  }

  lemma {:induction false} RegisterFrame(sh: Shared, id: Id, s: Sref)
    ensures var sh' := Apply(sh, Register(id, s));
            TableOnly(sh, sh') && sh'.registry == sh.registry[id := s] && sh'.published == sh.published + {s}
  {
  }

  /** The registering thread owns the session, unpublished, and carries its reference. */
  lemma {:induction false} RegisterFacts(sh: Shared, pc: PC, next: PC, id: Id, s: Sref)
    requires OwnerOk(sh, pc) && Registers(sh, pc, next, id, s)
    ensures Owner(pc) == Some(s) && s in sh.heap && HeldKey(pc) == Some(sh.heap[s].key) && !Registered(sh, s) && next == Idle
    ensures Owner(next).None? && HeldKey(next).None? && Visits(next).None?
  {
    hide Registered;
    assert OwnedKey(pc) == Some(pc.key);
  }

  lemma {:induction false} RegisterKeeps(st: St, t: Tid, th: Thread, locks: map<Lock, Tid>, id: Id, s: Sref)
    requires Inv(st) && t in st.threads && Registers(st.sh, st.threads[t].pc, th.pc, id, s)
    ensures Core(Put(st, t, th, locks, Apply(st.sh, Register(id, s))))
  {
    hide LockInv, RegInv, OwnInv, RefInv, HandleInv, KillInv, TargetInv, SnapInv, ConnInv, HoldInv, Kept, Apply, TableOnly;
    var sh' := Apply(st.sh, Register(id, s));
    RegisterFrame(st.sh, id, s);
    RegisterReg(st, t, id, s);
    RegisterOwn(st, t, th, locks, id, s);
    RegisterRefs(st, t, th, locks, id, s);
    forall o | Kept(st, o) ensures Kept(Put(st, t, th, locks, sh'), o) {
      RegisterKept(st, t, th, locks, id, s, o);
    }
    IdleFacts();
    hide Connecting, Snapshot, Dialled;
    HandedOver(st, t, th, locks, sh');
  }

  lemma {:induction false} RegisterReg(st: St, t: Tid, id: Id, s: Sref)
    requires RegInv(st.sh) && OwnInv(st) && t in st.threads && Registers(st.sh, st.threads[t].pc, Idle, id, s)
    ensures RegInv(Apply(st.sh, Register(id, s)))
  {
    hide Apply, OwnerOk, VisitOk, Owner, HeldKey, Visits, RegInv;
    RegisterFacts(st.sh, st.threads[t].pc, Idle, id, s);
    RegisterFrame(st.sh, id, s);
    RegisterTable(st.sh, id, s);
  }

  lemma {:induction false} RegisterTable(sh: Shared, id: Id, s: Sref)
    requires RegInv(sh) && id !in sh.registry && |sh.registry| < MAX_SESSIONS && s in sh.heap && !Registered(sh, s)
    ensures RegInv(Apply(sh, Register(id, s)))
  {
    var sh' := Apply(sh, Register(id, s));
    RegisterFrame(sh, id, s);
    hide Apply;
    assert |sh'.registry| <= MAX_SESSIONS by {
      assert sh'.registry.Keys == sh.registry.Keys + {id};
      assert |sh'.registry| == |sh'.registry.Keys|;
    }
    forall i, j | i in sh'.registry && j in sh'.registry && sh'.registry[i] == sh'.registry[j] ensures i == j {
      assert i != id ==> sh.registry[i] != s;
      assert j != id ==> sh.registry[j] != s;
    }
    hide Registered;
  }

  lemma {:induction false} RegisterKept(st: St, t: Tid, th: Thread, locks: map<Lock, Tid>, id: Id, s: Sref, o: Sref)
    requires t in st.threads && Registers(st.sh, st.threads[t].pc, th.pc, id, s) && Kept(st, o)
    ensures Kept(Put(st, t, th, locks, Apply(st.sh, Register(id, s))), o)
  {
    var st' := Put(st, t, th, locks, Apply(st.sh, Register(id, s)));
    assert Owner(st.threads[t].pc) == Some(s);
    hide Owner, HeldKey;
    if Registered(st.sh, o) {
      var i :| i in st.sh.registry && st.sh.registry[i] == o;
      assert i in st'.sh.registry && st'.sh.registry[i] == o;
    } else if o == s {
      assert id in st'.sh.registry && st'.sh.registry[id] == o;
    } else {
      var u :| u in st.threads && Owner(st.threads[u].pc) == Some(o) && HeldKey(st.threads[u].pc).Some?;
      assert u in st'.threads && Owner(st'.threads[u].pc) == Some(o) && HeldKey(st'.threads[u].pc).Some?;
    }
  }

  lemma {:induction false} RegisterOwn(st: St, t: Tid, th: Thread, locks: map<Lock, Tid>, id: Id, s: Sref)
    requires OwnInv(st) && t in st.threads && Registers(st.sh, st.threads[t].pc, th.pc, id, s)
    ensures OwnInv(Put(st, t, th, locks, Apply(st.sh, Register(id, s))))
  {
    hide Apply, OwnerOk, VisitOk, Owner, HeldKey, Visits, Registered;
    var sh' := Apply(st.sh, Register(id, s));
    RegisterFacts(st.sh, st.threads[t].pc, th.pc, id, s);
    IdleOwnership(sh');
    forall u | u in st.threads && u != t ensures OwnerOk(sh', st.threads[u].pc) && VisitOk(sh', st.threads[u].pc) {
      RegisterOthers(st.sh, st.threads[u].pc, id, s);
    }
    hide Registers;
    OwnStays(st, t, th, locks, sh');
  }

  lemma {:induction false} IdleOwnership(sh: Shared)
    ensures OwnerOk(sh, Idle) && VisitOk(sh, Idle)
  {
  }

  lemma {:induction false} RegisterOthers(sh: Shared, pc: PC, id: Id, s: Sref)
    requires OwnerOk(sh, pc) && VisitOk(sh, pc) && Owner(pc) != Some(s) && id !in sh.registry
    ensures var sh' := Apply(sh, Register(id, s)); OwnerOk(sh', pc) && VisitOk(sh', pc)
  {
    hide Apply, VisitOk, Owner, OwnedKey, Linked, IsCloser, HandleOf;
    var sh' := Apply(sh, Register(id, s));
    RegisterFrame(sh, id, s);
    assert Owner(pc).Some? ==> Registered(sh', Owner(pc).value) == Registered(sh, Owner(pc).value);
    SameHandles(sh, sh');
    VisitView(sh, sh', pc);
  }

  lemma {:induction false} SameHandles(sh: Shared, sh': Shared)
    requires sh'.heap == sh.heap
    ensures forall o :: HandleOf(sh', o) == HandleOf(sh, o)
  {
  }

  lemma {:induction false} RegisterRefs(st: St, t: Tid, th: Thread, locks: map<Lock, Tid>, id: Id, s: Sref)
    requires RefInv(st) && OwnInv(st) && t in st.threads && Registers(st.sh, st.threads[t].pc, th.pc, id, s)
    ensures RefInv(Put(st, t, th, locks, Apply(st.sh, Register(id, s))))
  {
    hide RefInv, Apply, OwnerOk, VisitOk, Owner, HeldKey, Visits, Registered;
    RegisterFrame(st.sh, id, s);
    RegisterFacts(st.sh, st.threads[t].pc, th.pc, id, s);
    HandOverCounts(st, Put(st, t, th, locks, Apply(st.sh, Register(id, s))), t, id, s);
  }

  // ---- Take ----

  predicate Takes(sh: Shared, pc: PC, next: PC, id: Id)
  {
    pc.CInTake? && id in sh.registry && sh.registry[id] in sh.heap && next == CWantSess(sh.heap[sh.registry[id]].key, sh.registry[id])
  }

  lemma {:induction false} TakeFrame(sh: Shared, id: Id)
    ensures var sh' := Apply(sh, Take(id)); TableOnly(sh, sh') && sh'.registry == sh.registry - {id} && sh'.published == sh.published
  {
  }

  /** The taking thread owned nothing, and goes on to own the session with its reference. */
  lemma {:induction false} TakeFacts(sh: Shared, pc: PC, next: PC, id: Id)
    requires Takes(sh, pc, next, id)
    ensures var s := sh.registry[id];
            && Owner(pc).None? && HeldKey(pc).None? && Owner(next) == Some(s) && HeldKey(next) == Some(sh.heap[s].key)
            && OwnedKey(next) == Some(sh.heap[s].key) && IsCloser(next) && Linked(next)
    ensures Connecting(next).None? && Snapshot(next).None? && Dialled(next).None? && Visits(next).None?
  {
  }

  lemma {:induction false} TakeKeeps(st: St, t: Tid, th: Thread, locks: map<Lock, Tid>, id: Id)
    requires Inv(st) && t in st.threads && Takes(st.sh, st.threads[t].pc, th.pc, id)
    ensures Core(Put(st, t, th, locks, Apply(st.sh, Take(id))))
  {
    hide LockInv, OwnInv, RefInv, HandleInv, KillInv, TargetInv, SnapInv, ConnInv, HoldInv, Kept, Apply, TableOnly, Connecting, Snapshot, Dialled, RegInv;
    hide Owner, HeldKey, OwnedKey, Visits;
    var sh' := Apply(st.sh, Take(id));
    TakeFrame(st.sh, id);
    TakeFacts(st.sh, st.threads[t].pc, th.pc, id);
    TakeReg(st.sh, id);
    TakeOwn(st, t, th, locks, id);
    TakeRefs(st, t, th, locks, id);
    forall o | Kept(st, o) ensures Kept(Put(st, t, th, locks, sh'), o) {
      TakeKept(st, t, th, locks, id, o);
    }
    hide Takes;
    HandedOver(st, t, th, locks, sh');
  }

  lemma {:induction false} TakeReg(sh: Shared, id: Id)
    requires RegInv(sh) && id in sh.registry
    ensures RegInv(Apply(sh, Take(id)))
    ensures forall o :: Registered(Apply(sh, Take(id)), o) <==> Registered(sh, o) && o != sh.registry[id]
  {
    TakeFrame(sh, id);
    hide Apply;
    var sh' := Apply(sh, Take(id));
    assert sh'.registry.Keys == sh.registry.Keys - {id};
    assert |sh'.registry| == |sh'.registry.Keys| && |sh.registry| == |sh.registry.Keys|;
    forall o | Registered(sh, o) && o != sh.registry[id] ensures Registered(sh', o) {
      var i :| i in sh.registry && sh.registry[i] == o;
      assert i in sh'.registry && sh'.registry[i] == o;
    }
  }

  lemma {:induction false} TakeKept(st: St, t: Tid, th: Thread, locks: map<Lock, Tid>, id: Id, o: Sref)
    requires RegInv(st.sh) && t in st.threads && Takes(st.sh, st.threads[t].pc, th.pc, id) && Kept(st, o)
    ensures Kept(Put(st, t, th, locks, Apply(st.sh, Take(id))), o)
  {
    hide Owner, HeldKey, OwnedKey, Visits, Connecting, Snapshot, Dialled, RegInv, Registered, Apply;
    var st' := Put(st, t, th, locks, Apply(st.sh, Take(id)));
    TakeFacts(st.sh, st.threads[t].pc, th.pc, id);
    TakeReg(st.sh, id);
    hide Takes;
    if o == st.sh.registry[id] {
      assert t in st'.threads && Owner(st'.threads[t].pc) == Some(o) && HeldKey(st'.threads[t].pc).Some?;
    } else if !Registered(st.sh, o) {
      var u :| u in st.threads && Owner(st.threads[u].pc) == Some(o) && HeldKey(st.threads[u].pc).Some?;
      assert u in st'.threads && Owner(st'.threads[u].pc) == Some(o) && HeldKey(st'.threads[u].pc).Some?;
    }
  }

  lemma {:induction false} TakeOwn(st: St, t: Tid, th: Thread, locks: map<Lock, Tid>, id: Id)
    requires OwnInv(st) && RegInv(st.sh) && t in st.threads && Takes(st.sh, st.threads[t].pc, th.pc, id)
    ensures OwnInv(Put(st, t, th, locks, Apply(st.sh, Take(id))))
  {
    hide Apply, OwnerOk, VisitOk, Owner, HeldKey, Visits, RegInv;
    var sh' := Apply(st.sh, Take(id));
    TakeSelf(st.sh, st.threads[t].pc, th.pc, id);
    assert Registered(st.sh, st.sh.registry[id]);
    forall u | u in st.threads && u != t
      ensures OwnerOk(sh', st.threads[u].pc) && VisitOk(sh', st.threads[u].pc) && Owner(st.threads[u].pc) != Some(st.sh.registry[id])
    {
      TakeOthers(st.sh, st.threads[u].pc, id);
    }
    hide Takes, Registered;
    OwnStays(st, t, th, locks, sh');
  }

  lemma {:induction false} TakeOthers(sh: Shared, pc: PC, id: Id)
    requires OwnerOk(sh, pc) && VisitOk(sh, pc) && RegInv(sh) && id in sh.registry && Registered(sh, sh.registry[id])
    ensures var sh' := Apply(sh, Take(id)); OwnerOk(sh', pc) && VisitOk(sh', pc) && Owner(pc) != Some(sh.registry[id])
  {
    hide Apply, VisitOk, Owner, OwnedKey, Linked, IsCloser, HandleOf, Registered, RegInv;
    TakeFrame(sh, id);
    TakeReg(sh, id);
    SameHandles(sh, Apply(sh, Take(id)));
    VisitView(sh, Apply(sh, Take(id)), pc);
  }

  lemma {:induction false} TakeSelf(sh: Shared, pc: PC, next: PC, id: Id)
    requires RegInv(sh) && Takes(sh, pc, next, id)
    ensures var sh' := Apply(sh, Take(id)); Owner(next) == Some(sh.registry[id]) && OwnerOk(sh', next) && VisitOk(sh', next)
  {
    assert sh.registry[id] in sh.published;
    hide Apply, Owner, Visits, OwnedKey, HeldKey, Linked, IsCloser, HandleOf, Registered, RegInv, Connecting, Snapshot, Dialled;
    TakeFrame(sh, id);
    TakeFacts(sh, pc, next, id);
    TakeReg(sh, id);
  }

  lemma {:induction false} TakeRefs(st: St, t: Tid, th: Thread, locks: map<Lock, Tid>, id: Id)
    requires RefInv(st) && t in st.threads && Takes(st.sh, st.threads[t].pc, th.pc, id)
    ensures RefInv(Put(st, t, th, locks, Apply(st.sh, Take(id))))
  {
    hide RefInv, Apply, HeldKey, Owner, OwnedKey, Visits, Connecting, Snapshot, Dialled;
    TakeFrame(st.sh, id);
    TakeFacts(st.sh, st.threads[t].pc, th.pc, id);
    hide Takes;
    assert st.sh.registry == (st.sh.registry - {id})[id := st.sh.registry[id]];
    HandOverCounts(Put(st, t, th, locks, Apply(st.sh, Take(id))), st, t, id, st.sh.registry[id]);
  }
}
