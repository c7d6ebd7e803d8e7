/** What every interleaving of the Xugu runtime keeps: ownership, reference counts and cancel targets. */
module XuguInvariants {
  import opened Common
  import opened XuguRuntime
  import opened XuguLocks

  // ---- What a program counter stands for ----

  /** The session a thread alone is responsible for: one being opened, or one taken out of the registry. */
  function Owner(pc: PC): Option<Sref>
  {
    match pc
    case OWantConnect(_, _, s) => Some(s)
    case OWantControl(_, _, s) => Some(s)
    case OInControl(_, _, s) => Some(s)
    case OWantAct(_, _, s, _) => Some(s)
    case OInAct(_, _, s, _) => Some(s)
    case OSnap(_, _, s, _) => Some(s)
    case ODial(_, _, s, _, _) => Some(s)
    case OAfter(_, _, s, _, _, _) => Some(s)
    case OConnected(_, _, s) => Some(s)
    case ONoControl(s) => Some(s)
    case OFail(_, s) => Some(s)
    case OWantRel(_, s) => Some(s)
    case OInRel(_, s) => Some(s)
    case OWantReg(_, _, s) => Some(s)
    case OInReg(_, _, s) => Some(s)
    case RWantAct(_, s) => Some(s)
    case RInAct(_, s) => Some(s)
    case RWantRel(_, s) => Some(s)
    case RInRel(_, s) => Some(s)
    case CWantSess(_, s) => Some(s)
    case CWantAct(_, s) => Some(s)
    case CInAct(_, s) => Some(s)
    case CWantRel(_, s) => Some(s)
    case CInRel(_, s) => Some(s)
    case _ => None
  }

  /** The control key whose reference a thread carries between acquiring or taking it and handing it on. */
  function HeldKey(pc: PC): Option<Key>
  {
    match pc
    case OWantAct(_, k, _, _) => Some(k)
    case OInAct(_, k, _, _) => Some(k)
    case OSnap(_, k, _, _) => Some(k)
    case ODial(_, k, _, _, _) => Some(k)
    case OAfter(_, k, _, _, _, _) => Some(k)
    case OConnected(_, k, _) => Some(k)
    case OFail(k, _) => Some(k)
    case OWantRel(k, _) => Some(k)
    case OInRel(k, _) => Some(k)
    case OWantReg(_, k, _) => Some(k)
    case OInReg(_, k, _) => Some(k)
    case RWantAct(k, _) => Some(k)
    case RInAct(k, _) => Some(k)
    case RWantRel(k, _) => Some(k)
    case RInRel(k, _) => Some(k)
    case CWantSess(k, _) => Some(k)
    case CWantAct(k, _) => Some(k)
    case CInAct(k, _) => Some(k)
    case CWantRel(k, _) => Some(k)
    case CInRel(k, _) => Some(k)
    case _ => None
  }

  /** The key the owned session was created with, where the program counter knows it. */
  function OwnedKey(pc: PC): Option<Key>
  {
    match pc
    case OWantConnect(_, k, _) => Some(k)
    case OWantControl(_, k, _) => Some(k)
    case OInControl(_, k, _) => Some(k)
    case _ => HeldKey(pc)
  }

  /** Owners between connecting and disconnecting their session. */
  predicate Linked(pc: PC)
  {
    pc.OConnected? || pc.OWantReg? || pc.OInReg? || pc.RWantAct? || pc.RInAct? || pc.CWantSess? || pc.CWantAct? || pc.CInAct?
  }

  predicate IsCloser(pc: PC)
  {
    pc.CWantSess? || pc.CWantAct? || pc.CInAct? || pc.CWantRel? || pc.CInRel?
  }

  /** The registered session a validator, query or cancel looked up. */
  function Visits(pc: PC): Option<Sref>
  {
    match pc
    case VWantSess(s) => Some(s)
    case VCheck(s) => Some(s)
    case VWantConnect(s) => Some(s)
    case VWantAct(s, _) => Some(s)
    case VInAct(s, _) => Some(s)
    case VSnap(s, _) => Some(s)
    case VDial(s, _, _) => Some(s)
    case VAfter(s, _, _, _) => Some(s)
    case VDone(s) => Some(s)
    case UWantSess(s) => Some(s)
    case UBusy(s) => Some(s)
    case UWantAct(s) => Some(s)
    case UInAct(s) => Some(s)
    case XWantAct(s) => Some(s)
    case XInAct(s) => Some(s)
    case XKill(s) => Some(s)
    case _ => None
  }

  /** The snapshot of SYS_SESSIONS a connecting thread compares against. */
  function Snapshot(pc: PC): Option<set<Target>>
  {
    match pc
    case ODial(_, _, _, _, b) => Some(b)
    case OAfter(_, _, _, _, b, _) => Some(b)
    case VDial(_, _, b) => Some(b)
    case VAfter(_, _, b, _) => Some(b)
    case _ => None
  }

  /** The session and control connection of a thread that is connecting that session. */
  function Connecting(pc: PC): Option<(Sref, Handle)>
  {
    match pc
    case OWantAct(_, _, s, h) => Some((s, h))
    case OInAct(_, _, s, h) => Some((s, h))
    case OSnap(_, _, s, h) => Some((s, h))
    case ODial(_, _, s, h, _) => Some((s, h))
    case OAfter(_, _, s, h, _, _) => Some((s, h))
    case VSnap(s, had) => if had.Some? then Some((s, had.value)) else None
    case VDial(s, h, _) => Some((s, h))
    case VAfter(s, h, _, _) => Some((s, h))
    case _ => None
  }

  // ---- Invariants ----

  ghost predicate RegInv(sh: Shared)
  {
    && |sh.registry| <= MAX_SESSIONS
    && (forall id :: id in sh.registry ==> sh.registry[id] in sh.heap && sh.registry[id] in sh.published)
    && (forall i, j :: i in sh.registry && j in sh.registry && sh.registry[i] == sh.registry[j] ==> i == j)
    && (forall s :: s in sh.heap ==> s < sh.nextSref)
    && (forall s :: s in sh.published ==> s in sh.heap)
  }

  ghost predicate Registered(sh: Shared, s: Sref)
  {
    exists id :: id in sh.registry && sh.registry[id] == s
  }

  ghost predicate OwnInv(st: St)
  {
    && (forall t :: t in st.threads ==> OwnerOk(st.sh, st.threads[t].pc) && VisitOk(st.sh, st.threads[t].pc))
    && (forall t, u :: t in st.threads && u in st.threads && t != u && Owner(st.threads[t].pc).Some?
                ==> Owner(st.threads[t].pc) != Owner(st.threads[u].pc))
  }

  ghost predicate OwnerOk(sh: Shared, pc: PC)
  {
    Owner(pc).Some? ==>
      var s := Owner(pc).value;
      && s in sh.heap && !Registered(sh, s) && (IsCloser(pc) <==> s in sh.published)
      && (!Linked(pc) ==> sh.heap[s].link.None?)
      && (OwnedKey(pc).Some? ==> sh.heap[s].key == OwnedKey(pc).value)
  }

  /** Visitors know only sessions that have been registered, and reconnect with the handle the session had. */
  ghost predicate VisitOk(sh: Shared, pc: PC)
  {
    && (Visits(pc).Some? ==> Visits(pc).value in sh.published)
    && (pc.VWantAct? || pc.VInAct? ==> pc.had == HandleOf(sh, pc.s))
    && (pc.VSnap? || pc.VDial? || pc.VAfter? ==> HandleOf(sh, pc.s) == None)
  }

  /** Some registration or thread holds a control reference on behalf of session s. */
  ghost predicate Kept(st: St, s: Sref)
  {
    Registered(st.sh, s) || exists t :: t in st.threads && Owner(st.threads[t].pc) == Some(s) && HeldKey(st.threads[t].pc).Some?
  }

  ghost predicate ControlIs(sh: Shared, key: Key, h: Handle)
  {
    key in sh.controls && sh.controls[key].handle == h
  }

  /** A connecting thread uses the open control connection of its session's key. */
  ghost predicate ConnOk(st: St, pc: PC)
  {
    Connecting(pc).Some? ==>
      var (s, h) := Connecting(pc).value; s in st.sh.heap && Kept(st, s) && ControlIs(st.sh, st.sh.heap[s].key, h)
  }

  ghost predicate ConnInv(st: St)
  {
    forall t :: t in st.threads ==> ConnOk(st, st.threads[t].pc)
  }

  predicate IsLinked(sh: Shared, s: Sref)
  {
    s in sh.heap && sh.heap[s].link.Some?
  }

  /** A connected session is accounted for, and its control connection is the open one of its key. */
  ghost predicate HoldInv(st: St)
  {
    forall s :: IsLinked(st.sh, s) ==> Kept(st, s) && ControlIs(st.sh, st.sh.heap[s].key, st.sh.heap[s].link.value.handle)
  }

  datatype Holder = Reg(id: Id) | Thr(t: Tid)

  ghost function Holders(st: St, k: Key): set<Holder>
  {
    (set id | id in st.sh.registry && st.sh.registry[id] in st.sh.heap && st.sh.heap[st.sh.registry[id]].key == k :: Reg(id))
    + (set t | t in st.threads && HeldKey(st.threads[t].pc) == Some(k) :: Thr(t))
  }

  /** Conservation: a key's count is the number of its holders, and it is present exactly when it has one. */
  ghost predicate RefOk(st: St, k: Key)
  {
    if k in st.sh.controls then Holders(st, k) != {} && st.sh.controls[k].refs == |Holders(st, k)| else Holders(st, k) == {}
  }

  ghost predicate RefInv(st: St)
  {
    forall k :: RefOk(st, k)
  }

  /** Open control connections are those of the present keys, one each. */
  ghost predicate HandleInv(sh: Shared)
  {
    && (forall k, h :: ControlIs(sh, k, h) ==> h in sh.openHandles)
    && (forall h :: h in sh.openHandles ==> h < sh.nextHandle && exists k :: ControlIs(sh, k, h))
    && (forall j, k, h :: ControlIs(sh, j, h) && ControlIs(sh, k, h) ==> j == k)
  }

  /** No two connected sessions share a connection or cancel target, and all of these are live. */
  ghost predicate TargetInv(sh: Shared)
  {
    && (forall s :: IsLinked(sh, s) ==> Ids(sh.heap[s].link.value) <= sh.live)
    && (forall s, o :: IsLinked(sh, s) && IsLinked(sh, o) && s != o ==> Ids(sh.heap[s].link.value) !! Ids(sh.heap[o].link.value))
  }

  ghost predicate SnapOk(sh: Shared, pc: PC)
  {
    && (Snapshot(pc).Some? ==> forall s :: IsLinked(sh, s) ==> Ids(sh.heap[s].link.value) <= Snapshot(pc).value)
    && (Dialled(pc).Some? ==> Dialled(pc).value in sh.live
                              && forall s :: IsLinked(sh, s) ==> Dialled(pc).value !in Ids(sh.heap[s].link.value))
  }

  ghost predicate SnapInv(st: St)
  {
    forall t :: t in st.threads ==> SnapOk(st.sh, st.threads[t].pc)
  }

  ghost predicate KillInv(sh: Shared)
  {
    forall i :: 0 <= i < |sh.kills| ==> sh.kills[i].others == {}
  }

  ghost predicate Core(st: St)
  {
    && RegInv(st.sh) && OwnInv(st) && ConnInv(st) && HoldInv(st) && RefInv(st)
    && HandleInv(st.sh) && TargetInv(st.sh) && SnapInv(st) && KillInv(st.sh)
  }

  ghost predicate Inv(st: St)
  {
    LockInv(st) && Core(st)
  }

  // ---- How a thread's own part changes ----

  /** The program counter moves on without the shared state. */
  ghost predicate Quiet(sh: Shared, pc: PC, next: PC)
  {
    QuietOwner(pc, next) && QuietVisit(sh, pc, next) && QuietConnect(sh, pc, next)
  }

  predicate QuietOwner(pc: PC, next: PC)
  {
    && HeldKey(next) == HeldKey(pc)
    && (Owner(next) == Owner(pc) || (Owner(next).None? && HeldKey(pc).None?))
    && (Owner(next).Some? ==> Linked(next) == Linked(pc) && IsCloser(next) == IsCloser(pc) && OwnedKey(next) in {OwnedKey(pc), None})
  }

  ghost predicate QuietVisit(sh: Shared, pc: PC, next: PC)
  {
    && (Visits(next) in {Visits(pc), None} || Registered(sh, Visits(next).value))
    && (next.VWantAct? ==> next.had == HandleOf(sh, next.s))
    && (next.VInAct? ==> pc == VWantAct(next.s, next.had) || pc == next)
    && (next.VSnap? || next.VDial? || next.VAfter? ==> (pc.VSnap? || pc.VDial? || pc.VAfter?) && pc.s == next.s)
  }

  predicate QuietConnect(sh: Shared, pc: PC, next: PC)
  {
    && Connecting(next) in {Connecting(pc), None}
    && (Snapshot(next) in {Snapshot(pc), None} || Snapshot(next) == Some(sh.live))
    && Dialled(next) in {Dialled(pc), None}
  }

  lemma {:induction false} GrantQuiet(sh: Shared, pc: PC)
    requires Wants(pc).Some?
    ensures Quiet(sh, pc, Granted(sh, pc))
  {
    hide Wants, Granted, QuietOwner, QuietVisit, QuietConnect;
    GrantOwner(sh, pc);
    GrantVisit(sh, pc);
    GrantConnect(sh, pc);
  }

  lemma {:induction false} GrantOwner(sh: Shared, pc: PC)
    requires Wants(pc).Some?
    ensures QuietOwner(pc, Granted(sh, pc))
  {
    hide HandleOf;
  }

  lemma {:induction false} GrantVisit(sh: Shared, pc: PC)
    requires Wants(pc).Some?
    ensures QuietVisit(sh, pc, Granted(sh, pc))
  {
    hide HandleOf, Registered;
  }

  lemma {:induction false} GrantConnect(sh: Shared, pc: PC)
    requires Wants(pc).Some?
    ensures QuietConnect(sh, pc, Granted(sh, pc))
  {
    hide HandleOf;
  }

  lemma {:induction false} StartQuiet(sh: Shared, cmd: Cmd)
    ensures Quiet(sh, Idle, StartOf(cmd))
  {
    hide HandleOf, Registered;
  }

  /** What each effect asks of the thread that causes it. */
  ghost predicate Fits(sh: Shared, pc: PC, m: Move)
  {
    match m.effect
    case Nothing => Quiet(sh, pc, m.pc)
    case Crash => m.pc == pc
    case Alloc(k) => pc.OInCheck? && m.pc.OWantConnect? && m.pc.key == k && m.pc.s == sh.nextSref
    case AcquireControl(k) =>
      && pc.OInControl? && pc.key == k && m.pc.OWantAct? && m.pc.s == pc.s && m.pc.key == k
      && m.pc.h == (if k in sh.controls then sh.controls[k].handle else sh.nextHandle)
    case ReleaseControl(k) => HeldKey(pc) == Some(k) && (pc.OInRel? || pc.RInRel? || pc.CInRel?) && m.pc == Idle
    case Dial(conn) =>
      && conn !in sh.live && Snapshot(pc).Some? && Dialled(m.pc) == Some(conn) && Snapshot(m.pc) == Snapshot(pc)
      && Connecting(m.pc) == Connecting(pc) && ((pc.ODial? && m.pc.OAfter? && pc.s == m.pc.s && pc.key == m.pc.key) || (pc.VDial? && m.pc.VAfter? && pc.s == m.pc.s))
    case Hangup(conn) => Dialled(pc) == Some(conn) && ((pc.OAfter? && m.pc == OFail(pc.key, pc.s)) || (pc.VAfter? && m.pc == VDone(pc.s)))
    case SetLink(s, link) =>
      && Dialled(pc) == Some(link.conn) && Snapshot(pc).Some? && link.target !in Snapshot(pc).value && link.target in sh.live
      && Connecting(pc) == Some((s, link.handle))
      && ((pc.OAfter? && m.pc.OConnected? && m.pc.s == s && m.pc.key == pc.key) || (pc.VAfter? && m.pc == VDone(s)))
    case Disconnect(s) =>
      || (pc.RInAct? && pc.s == s && m.pc == RWantRel(pc.key, s))
      || (pc.CInAct? && pc.s == s && m.pc == CWantRel(pc.key, s))
      || (pc.VInAct? && pc.s == s && m.pc == VSnap(s, pc.had))
    case Register(id, s) => pc.OInReg? && pc.s == s && id !in sh.registry && |sh.registry| < MAX_SESSIONS && m.pc == Idle
    case Take(id) =>
      && pc.CInTake? && id in sh.registry && sh.registry[id] in sh.heap
      && m.pc == CWantSess(sh.heap[sh.registry[id]].key, sh.registry[id])
    case SetActive(s, _) => pc == UInAct(s) && m.pc == UBusy(s)
    case SendKill(s) => pc == XKill(s) && m.pc == Idle
  }

  lemma {:induction false} OpenFits(sh: Shared, pc: PC, c: Choice)
    requires OpenBody(sh, pc, c).Some?
    ensures Fits(sh, pc, OpenBody(sh, pc, c).value)
  {
    hide HandleOf, Registered;
  }

  lemma {:induction false} CloseFits(sh: Shared, pc: PC, c: Choice)
    requires CloseBody(sh, pc, c).Some?
    ensures Fits(sh, pc, CloseBody(sh, pc, c).value)
  {
    hide HandleOf, Registered;
  }

  lemma {:induction false} VisitFits(sh: Shared, pc: PC, c: Choice)
    requires VisitBody(sh, pc, c).Some?
    ensures Fits(sh, pc, VisitBody(sh, pc, c).value)
  {
    hide HandleOf, Lists, CloseEach;
  }

  lemma {:induction false} BodyFits(sh: Shared, pc: PC, c: Choice)
    requires Body(sh, pc, c).Some?
    ensures Fits(sh, pc, Body(sh, pc, c).value)
  {
    hide OpenBody, CloseBody, VisitBody, IsConnector, IsVisitor, Fits;
    if IsConnector(pc) {
      OpenFits(sh, pc, c);
    } else if IsVisitor(pc) {
      VisitFits(sh, pc, c);
    } else {
      CloseFits(sh, pc, c);
    }
  }
}
