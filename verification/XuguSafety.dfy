/** Safety of the Xugu runtime over every run: reference counts, control connections and cancel targets. */
module XuguSafety {
  import opened XuguRuntime
  import opened XuguLocks
  import opened XuguInvariants
  import opened XuguSteps
  import opened XuguLinks
  import opened XuguRegistry

  // ---- The small effects ----

  lemma {:induction false} ActiveKeeps(st: St, t: Tid, th: Thread, locks: map<Lock, Tid>, s: Sref, active: bool)
    requires Inv(st) && t in st.threads && st.threads[t].pc == UInAct(s) && th.pc == UBusy(s)
    ensures Core(Put(st, t, th, locks, Apply(st.sh, SetActive(s, active))))
  {
    hide LockInv, OwnInv, HoldInv, RefInv, HandleInv, TargetInv, SnapInv, ConnInv, KillInv;
    var sh' := Apply(st.sh, SetActive(s, active));
    ActiveFrame(st.sh, s, active);
    hide Apply;
    SameControls(st.sh, sh');
    TableStays(st.sh, sh');
    ActiveOwn(st, t, th, locks, s, active);
    ConnStays(st, t, th, locks, sh');
    HoldStays(st, t, th, locks, sh');
    RefsStay(st, t, th, locks, sh');
    SnapStays(st, t, th, locks, sh');
  }

  lemma {:induction false} ActiveOwn(st: St, t: Tid, th: Thread, locks: map<Lock, Tid>, s: Sref, active: bool)
    requires OwnInv(st) && t in st.threads && st.threads[t].pc == UInAct(s) && th.pc == UBusy(s)
    ensures OwnInv(Put(st, t, th, locks, Apply(st.sh, SetActive(s, active))))
  {
    var sh' := Apply(st.sh, SetActive(s, active));
    assert VisitOk(st.sh, st.threads[t].pc);
    assert OwnerOk(sh', th.pc) && VisitOk(sh', th.pc) && Owner(th.pc).None?;
    forall u | u in st.threads && u != t ensures OwnerOk(sh', st.threads[u].pc) && VisitOk(sh', st.threads[u].pc) {
      hide OwnerOk, VisitOk, Apply;
      ActiveOther(st.sh, s, active, st.threads[u].pc);
    }
    hide Owner, Visits, OwnerOk, VisitOk, Apply;
    OwnStays(st, t, th, locks, sh');
  }

  lemma {:induction false} ActiveOther(sh: Shared, s: Sref, active: bool, pc: PC)
    requires OwnerOk(sh, pc) && VisitOk(sh, pc)
    ensures OwnerOk(Apply(sh, SetActive(s, active)), pc) && VisitOk(Apply(sh, SetActive(s, active)), pc)
  {
    hide OwnerOk, VisitOk, Apply;
    var sh' := Apply(sh, SetActive(s, active));
    ActiveFrame(sh, s, active);
    OwnerView(sh, sh', pc);
    VisitView(sh, sh', pc);
  }

  lemma {:induction false} ActiveFrame(sh: Shared, s: Sref, active: bool)
    ensures var sh' := Apply(sh, SetActive(s, active));
            && sh'.registry == sh.registry && sh'.published == sh.published && sh'.live == sh.live && sh'.controls == sh.controls
            && (forall o :: o in sh.heap <==> o in sh'.heap)
            && (forall o :: o in sh.heap ==> sh'.heap[o].key == sh.heap[o].key && sh'.heap[o].link == sh.heap[o].link)
            && sh'.openHandles == sh.openHandles && sh'.nextHandle == sh.nextHandle && sh'.kills == sh.kills
            && sh'.nextSref == sh.nextSref && forall o :: HandleOf(sh', o) == HandleOf(sh, o)
  {
  }

  lemma {:induction false} KillKeeps(st: St, t: Tid, th: Thread, locks: map<Lock, Tid>, s: Sref)
    requires Inv(st) && t in st.threads && st.threads[t].pc == XKill(s) && th.pc == Idle
    ensures Core(Put(st, t, th, locks, Apply(st.sh, SendKill(s))))
  {
    hide KillOf, LockInv, Core, Quiet, Apply, Put;
    var kills := Apply(st.sh, SendKill(s)).kills;
    var mid := Put(st, t, th, locks, st.sh);
    assert mid.(sh := mid.sh.(kills := kills)) == Put(st, t, th, locks, Apply(st.sh, SendKill(s))) by { KillOnly(st, t, th, locks, s); }
    KillsBounded(st, s);
    KillQuiet(st.sh, s);
    QuietKeeps(st, t, th, locks);
    Unkilled(mid, kills);
  }

  lemma {:induction false} KillOnly(st: St, t: Tid, th: Thread, locks: map<Lock, Tid>, s: Sref)
    ensures var mid := Put(st, t, th, locks, st.sh);
            mid.(sh := mid.sh.(kills := Apply(st.sh, SendKill(s)).kills)) == Put(st, t, th, locks, Apply(st.sh, SendKill(s)))
  {
    hide KillOf;
  }

  lemma {:induction false} KillQuiet(sh: Shared, s: Sref)
    ensures Quiet(sh, XKill(s), Idle)
  {
  }

  lemma {:induction false} KillsBounded(st: St, s: Sref)
    requires Core(st)
    ensures forall i :: 0 <= i < |Apply(st.sh, SendKill(s)).kills| ==> Apply(st.sh, SendKill(s)).kills[i].others == {}
  {
    KillsSafe(st.sh, s);
    hide KillOf, TargetInv, OwnInv, RefInv, HoldInv, ConnInv, HandleInv, RegInv, SnapInv;
  }

  /** The cancels sent and the crash flag bear on nothing else. */
  lemma {:induction false} Unkilled(st: St, kills: seq<Kill>)
    requires Core(st) && forall i :: 0 <= i < |kills| ==> kills[i].others == {}
    ensures Core(st.(sh := st.sh.(kills := kills)))
  {
    var sh' := st.sh.(kills := kills);
    Relabel(st, sh');
  }

  lemma {:induction false} Relabel(st: St, sh': Shared)
    requires Core(st)
    requires sh'.registry == st.sh.registry && sh'.heap == st.sh.heap && sh'.published == st.sh.published && sh'.controls == st.sh.controls
    requires sh'.openHandles == st.sh.openHandles && sh'.live == st.sh.live && sh'.nextSref == st.sh.nextSref && sh'.nextHandle == st.sh.nextHandle
    requires KillInv(sh')
    ensures Core(st.(sh := sh'))
  {
    hide Owner, Visits, OwnedKey, Linked, IsCloser, HeldKey, Connecting, Snapshot, Dialled, KillInv;
    var st' := st.(sh := sh');
    HandlesOnly(st.sh, sh');
    RelabelThreads(st, sh');
    RelabelRefs(st, sh');
    RelabelConn(st, sh');
    assert TargetInv(sh') && RegInv(sh');
  }

  lemma {:induction false} RelabelThreads(st: St, sh': Shared)
    requires OwnInv(st) && SnapInv(st)
    requires sh'.registry == st.sh.registry && sh'.heap == st.sh.heap && sh'.published == st.sh.published && sh'.live == st.sh.live
    ensures OwnInv(st.(sh := sh')) && SnapInv(st.(sh := sh'))
  {
    hide Owner, Visits, OwnedKey, Linked, IsCloser, HeldKey, Connecting, Snapshot, Dialled;
    var st' := st.(sh := sh');
    forall u | u in st'.threads ensures OwnerOk(sh', st'.threads[u].pc) && VisitOk(sh', st'.threads[u].pc) && SnapOk(sh', st'.threads[u].pc) {
      var pc := st.threads[u].pc;
      assert OwnerOk(st.sh, pc) && VisitOk(st.sh, pc) && SnapOk(st.sh, pc);
      hide OwnerOk, VisitOk;
      SameOwnership(st.sh, sh', pc);
      assert forall s :: IsLinked(sh', s) == IsLinked(st.sh, s);
    }
  }

  lemma {:induction false} RelabelRefs(st: St, sh': Shared)
    requires RefInv(st) && sh'.registry == st.sh.registry && sh'.heap == st.sh.heap && sh'.controls == st.sh.controls
    ensures RefInv(st.(sh := sh'))
  {
    var st' := st.(sh := sh');
    forall k ensures RefOk(st', k) {
      assert RefOk(st, k);
      assert Holders(st', k) == Holders(st, k);
    }
  }

  lemma {:induction false} RelabelConn(st: St, sh': Shared)
    requires ConnInv(st) && HoldInv(st)
    requires sh'.registry == st.sh.registry && sh'.heap == st.sh.heap && sh'.controls == st.sh.controls
    ensures ConnInv(st.(sh := sh')) && HoldInv(st.(sh := sh'))
  {
    hide Owner, Visits, OwnedKey, HeldKey, Connecting;
    var st' := st.(sh := sh');
    SameRegistrations(st.sh, sh');
    SameControls(st.sh, sh');
    forall s | Kept(st, s) ensures Kept(st', s) {}
    hide Kept, ControlIs, Registered;
    forall u | u in st'.threads ensures ConnOk(st', st'.threads[u].pc) {
      assert ConnOk(st, st.threads[u].pc);
      if Connecting(st.threads[u].pc).Some? {
        var (s, h) := Connecting(st.threads[u].pc).value;
        assert Kept(st', s) && ControlIs(sh', st.sh.heap[s].key, h);
      }
    }
    forall s | IsLinked(sh', s) ensures Kept(st', s) && ControlIs(sh', sh'.heap[s].key, sh'.heap[s].link.value.handle) {
      assert IsLinked(st.sh, s);
    }
  }

  // ---- Steps ----

  lemma {:induction false} EffectKeeps(st: St, t: Tid, th: Thread, locks: map<Lock, Tid>, m: Move)
    requires Inv(st) && t in st.threads && th.pc == m.pc && Fits(st.sh, st.threads[t].pc, m)
    ensures Core(Put(st, t, th, locks, Apply(st.sh, m.effect)))
  {
    hide Inv, Core, Quiet, Put, HeldKey, Owner, Connecting, Snapshot, Dialled;
    match m.effect
    case Nothing => QuietKeeps(st, t, th, locks);
    case Crash => CrashKeeps(st, t, th, locks);
    case Alloc(k) => AllocKeeps(st, t, th, locks, k);
    case AcquireControl(k) => AcquireKeeps(st, t, th, locks, k);
    case ReleaseControl(k) => ReleaseKeeps(st, t, th, locks, k);
    case Dial(conn) => DialKeeps(st, t, th, locks, conn);
    case Hangup(conn) => HangupKeeps(st, t, th, locks, conn);
    case SetLink(s, link) => LinkKeeps(st, t, th, locks, s, link);
    case Disconnect(s) => CutKeeps(st, t, th, locks, s);
    case Register(id, s) => RegisterKeeps(st, t, th, locks, id, s);
    case Take(id) => TakeKeeps(st, t, th, locks, id);
    case SetActive(s, active) => ActiveKeeps(st, t, th, locks, s, active);
    case SendKill(s) => KillKeeps(st, t, th, locks, s);
  }

  lemma {:induction false} CrashKeeps(st: St, t: Tid, th: Thread, locks: map<Lock, Tid>)
    requires Inv(st) && t in st.threads && th.pc == st.threads[t].pc
    ensures Core(Put(st, t, th, locks, Apply(st.sh, Crash)))
  {
    hide LockInv, Core;
    assert Quiet(st.sh, st.threads[t].pc, th.pc) by { QuietSelf(st, t); }
    QuietKeeps(st, t, th, locks);
    var mid := Put(st, t, th, locks, st.sh);
    assert KillInv(mid.sh) by { KillsOf(mid); }
    Relabel(mid, Apply(st.sh, Crash));
  }

  lemma {:induction false} KillsOf(st: St)
    requires Core(st)
    ensures KillInv(st.sh)
  {
  }

  lemma {:induction false} QuietSelf(st: St, t: Tid)
    requires Core(st) && t in st.threads
    ensures Quiet(st.sh, st.threads[t].pc, st.threads[t].pc)
  {
    hide LockInv, RegInv, HoldInv, RefInv, HandleInv, TargetInv, SnapInv, ConnInv, KillInv, Owner, HeldKey, OwnedKey, Linked, IsCloser, Visits, Snapshot, Dialled, Connecting;
    assert VisitOk(st.sh, st.threads[t].pc);
  }
}
