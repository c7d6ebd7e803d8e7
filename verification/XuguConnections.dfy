/** Server connections of the Xugu runtime: none leaves its hands without being closed. */
module XuguConnections {
  import opened Common
  import opened XuguRuntime
  import opened XuguLocks
  import opened XuguInvariants
  import opened XuguRuns

  /** The connection belongs to a session, or to a thread that has just opened it. */
  ghost predicate Owned(st: St, conn: Target)
  {
    (exists s :: LinkedBy(st.sh, s, conn)) || (exists t :: DialledBy(st, t, conn))
  }

  predicate LinkedBy(sh: Shared, s: Sref, conn: Target)
  {
    s in sh.heap && sh.heap[s].link.Some? && sh.heap[s].link.value.conn == conn
  }

  predicate DialledBy(st: St, t: Tid, conn: Target)
  {
    t in st.threads && Dialled(st.threads[t].pc) == Some(conn)
  }

  lemma {:induction false} OpenHandsOver(sh: Shared, pc: PC, c: Choice)
    requires OpenBody(sh, pc, c).Some? && Dialled(pc).Some?
    ensures var e := OpenBody(sh, pc, c).value.effect; e == Hangup(Dialled(pc).value) || (e.SetLink? && e.link.conn == Dialled(pc).value)
  {
  }

  lemma {:induction false} VisitHandsOver(sh: Shared, pc: PC, c: Choice)
    requires VisitBody(sh, pc, c).Some? && Dialled(pc).Some?
    ensures var e := VisitBody(sh, pc, c).value.effect; e == Hangup(Dialled(pc).value) || (e.SetLink? && e.link.conn == Dialled(pc).value)
  {
    hide HandleOf, Lists, CloseEach;
  }

  /** A thread with a fresh connection closes it or hands it to its session. */
  lemma {:induction false} HandsOver(sh: Shared, pc: PC, c: Choice)
    requires Body(sh, pc, c).Some? && Dialled(pc).Some?
    ensures var e := Body(sh, pc, c).value.effect; e == Hangup(Dialled(pc).value) || (e.SetLink? && e.link.conn == Dialled(pc).value)
  {
    DiallersAct(pc);
    hide OpenBody, VisitBody, CloseBody, Dialled;
    if IsConnector(pc) {
      OpenHandsOver(sh, pc, c);
    } else {
      VisitHandsOver(sh, pc, c);
    }
  }

  lemma {:induction false} DiallersAct(pc: PC)
    requires Dialled(pc).Some?
    ensures !pc.Idle? && Wants(pc).None? && (IsConnector(pc) || IsVisitor(pc))
  {
  }

  /** A session is linked only while it is not. */
  lemma {:induction false} LinksTheUnlinked(st: St, t: Tid, m: Move)
    requires OwnInv(st) && t in st.threads && Fits(st.sh, st.threads[t].pc, m) && m.effect.SetLink? && m.effect.s in st.sh.heap
    ensures st.sh.heap[m.effect.s].link.None?
  {
    var pc := st.threads[t].pc;
    assert OwnerOk(st.sh, pc) && VisitOk(st.sh, pc);
    assert pc.OAfter? ==> Owner(pc) == Some(pc.s) && !Linked(pc);
    hide OwnInv, Registered;
  }

  lemma {:induction false} EffectOnLink(sh: Shared, e: Effect, s: Sref, conn: Target)
    requires LinkedBy(sh, s, conn) && RegInv(sh) && (e.SetLink? && e.s in sh.heap ==> sh.heap[e.s].link.None?)
    ensures LinkedBy(Apply(sh, e), s, conn) || (e == Disconnect(s) && conn !in Apply(sh, e).live)
  {
    hide KillOf;
  }

  lemma {:induction false} EffectSetsLink(sh: Shared, s: Sref, link: Link)
    requires s in sh.heap
    ensures LinkedBy(Apply(sh, SetLink(s, link)), s, link.conn)
  {
  }

  lemma {:induction false} LinkKnown(st: St, t: Tid, m: Move)
    requires ConnInv(st) && t in st.threads && Fits(st.sh, st.threads[t].pc, m) && m.effect.SetLink?
    ensures m.effect.s in st.sh.heap
  {
    assert ConnOk(st, st.threads[t].pc);
    hide ConnInv, Kept, ControlIs, Quiet;
  }

  /** A connection that a session or thread lets go of is closed by that very step. */
  lemma {:induction false} ClosedWhenLetGo(st: St, ev: Event, conn: Target)
    requires Inv(st) && Next(st, ev).Some? && Owned(st, conn) && !Owned(Next(st, ev).value, conn)
    ensures ev.Step? && conn !in Next(st, ev).value.sh.live
  {
    hide Inv, Body, Wants, Granted, Apply, Dialled, LinkedBy, Protected;
    var st' := Next(st, ev).value;
    if exists s :: LinkedBy(st.sh, s, conn) {
      var s :| LinkedBy(st.sh, s, conn);
      LinkLetGo(st, ev, s, conn);
    } else {
      var t :| DialledBy(st, t, conn);
      DialLetGo(st, ev, t, conn);
    }
  }

  lemma {:induction false} LinkLetGo(st: St, ev: Event, s: Sref, conn: Target)
    requires Inv(st) && Next(st, ev).Some? && LinkedBy(st.sh, s, conn)
    ensures LinkedBy(Next(st, ev).value.sh, s, conn) || (ev.Step? && conn !in Next(st, ev).value.sh.live)
  {
    hide LockInv, OwnInv, ConnInv, HoldInv, RefInv, HandleInv, TargetInv, SnapInv, KillInv, RegInv, Body, Wants, Granted, Apply, Protected, Fits;
    if ev.Step? {
      var pc := st.threads[ev.t].pc;
      if !pc.Idle? && Wants(pc).None? {
        var m := Body(st.sh, pc, ev.c).value;
        BodyFits(st.sh, pc, ev.c);
        if m.effect.SetLink? && m.effect.s in st.sh.heap {
          LinksTheUnlinked(st, ev.t, m);
        }
        EffectOnLink(st.sh, m.effect, s, conn);
      }
    }
  }

  lemma {:induction false} DialLetGo(st: St, ev: Event, t: Tid, conn: Target)
    requires Inv(st) && Next(st, ev).Some? && DialledBy(st, t, conn)
    ensures Owned(Next(st, ev).value, conn) || (ev.Step? && conn !in Next(st, ev).value.sh.live)
  {
    hide LockInv, OwnInv, ConnInv, HoldInv, RefInv, HandleInv, TargetInv, SnapInv, KillInv, RegInv, Body, Wants, Granted, Dialled, Protected, Fits, LinkedBy;
    DiallersAct(st.threads[t].pc);
    if ev.Step? && ev.t == t {
      var pc := st.threads[t].pc;
      var m := Body(st.sh, pc, ev.c).value;
      BodyFits(st.sh, pc, ev.c);
      HandsOver(st.sh, pc, ev.c);
      if m.effect.SetLink? {
        LinkKnown(st, t, m);
        EffectSetsLink(st.sh, m.effect.s, m.effect.link);
      }
    } else {
      hide Apply;
      assert DialledBy(Next(st, ev).value, t, conn);
    }
  }

  /** In every run: a connection that the runtime had and no longer has was closed by the step that let it go. */
  lemma {:induction false} NoConnectionLeaks(live: set<Target>, evs: seq<Event>, ev: Event, conn: Target)
    requires RunEvents(Init(live), evs).Some? && Next(RunEvents(Init(live), evs).value, ev).Some?
    requires var st := RunEvents(Init(live), evs).value; Owned(st, conn) && !Owned(Next(st, ev).value, conn)
    ensures ev.Step? && conn !in Next(RunEvents(Init(live), evs).value, ev).value.sh.live
  {
    hide Inv, Next, Owned;
    InvAlways(live, evs);
    ClosedWhenLetGo(RunEvents(Init(live), evs).value, ev, conn);
  }
}
