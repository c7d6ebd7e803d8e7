/** The crash of a validation in any interleaving: its cause is the session's handle at the moment session.mu was taken. */
module XuguReconnect {
  import opened Common
  import opened XuguRuntime
  import opened XuguLocks
  import opened XuguInvariants
  import opened XuguSteps
  import opened XuguRuns
  import opened XuguCrash

  /** A validation of s from taking session.mu to the query on the control connection. */
  predicate Reconnecting(pc: PC, s: Sref)
  {
    (pc.VCheck? || pc.VWantConnect? || pc.VWantAct? || pc.VInAct? || pc.VSnap?) && pc.s == s
  }

  /** What such a validation goes by: the handle of the session, and later the handle it has read. */
  predicate GoesBy(sh: Shared, pc: PC, s: Sref, had: Option<Handle>)
  {
    Reconnecting(pc, s) && had == if pc.VCheck? || pc.VWantConnect? then HandleOf(sh, s) else pc.had
  }

  /** In this event the thread takes session.mu for a validation. */
  predicate TakesSession(st: St, ev: Event, t: Tid)
  {
    ev.Step? && ev.t == t && t in st.threads && st.threads[t].pc.VWantSess?
  }

  /** The last event of the run in which thread t took session.mu for a validation. */
  function LastTake(st: St, evs: seq<Event>, t: Tid): Option<nat>
  {
    if evs == [] then None
    else
      var before := evs[..|evs| - 1];
      var mid := RunEvents(st, before);
      if mid.Some? && TakesSession(mid.value, evs[|before|], t) then Some(|before|) else LastTake(st, before, t)
  }

  // ---- The thread's own steps ----

  lemma {:induction false} OwnGrant(sh: Shared, pc: PC, s: Sref)
    requires Wants(pc).Some? && Reconnecting(Granted(sh, pc), s)
    ensures pc == VWantSess(s) || Reconnecting(pc, s)
    ensures pc == VWantSess(s) ==> GoesBy(sh, Granted(sh, pc), s, HandleOf(sh, s))
    ensures forall had :: GoesBy(sh, pc, s, had) ==> GoesBy(sh, Granted(sh, pc), s, had)
  {
    hide HandleOf;
  }

  lemma {:induction false} OwnVisit(sh: Shared, pc: PC, s: Sref, c: Choice)
    requires VisitBody(sh, pc, c).Some? && Reconnecting(VisitBody(sh, pc, c).value.pc, s)
    ensures var m := VisitBody(sh, pc, c).value;
            Reconnecting(pc, s) && if m.pc.VWantConnect? then pc.VCheck? && m.effect == Nothing else m.pc.VSnap? && (pc.VInAct? || pc.VSnap?) && m.pc.had == pc.had
  {
    hide HandleOf, Lists, CloseEach;
  }

  lemma {:induction false} OtherBodies(sh: Shared, pc: PC, s: Sref, c: Choice)
    requires Body(sh, pc, c).Some? && Reconnecting(Body(sh, pc, c).value.pc, s)
    ensures Body(sh, pc, c) == VisitBody(sh, pc, c)
  {
    hide VisitBody, HandleOf;
  }

  lemma {:induction false} OwnBody(sh: Shared, pc: PC, s: Sref, c: Choice)
    requires Body(sh, pc, c).Some? && Reconnecting(Body(sh, pc, c).value.pc, s)
    ensures var m := Body(sh, pc, c).value;
            Reconnecting(pc, s) && forall had :: GoesBy(sh, pc, s, had) ==> GoesBy(Apply(sh, m.effect), m.pc, s, had)
  {
    OtherBodies(sh, pc, s, c);
    hide Body, VisitBody, HandleOf;
    OwnVisit(sh, pc, s, c);
    assert Apply(sh, Nothing) == sh;
    hide Apply;
  }

  // ---- Everyone else's ----

  lemma {:induction false} HandleChanges(sh: Shared, e: Effect, s: Sref)
    requires s in sh.heap && RegInv(sh)
    ensures HandleOf(Apply(sh, e), s) == HandleOf(sh, s) || (e.SetLink? && e.s == s) || e == Disconnect(s)
  {
    hide KillOf;
  }

  /** While a thread holds session.mu of a registered session, nobody else connects or disconnects it. */
  lemma {:induction false} HeldSessionStays(st: St, t: Tid, u: Tid, s: Sref, m: Move)
    requires LockInv(st) && OwnInv(st) && RegInv(st.sh) && t in st.threads && u in st.threads && t != u
    requires SessMu(s) in Held(st.threads[t].pc) && s in st.sh.published && Fits(st.sh, st.threads[u].pc, m)
    ensures HandleOf(Apply(st.sh, m.effect), s) == HandleOf(st.sh, s)
  {
    Exclusive(st, t, u, SessMu(s));
    assert OwnerOk(st.sh, st.threads[u].pc);
    HandleChanges(st.sh, m.effect, s);
    hide LockInv, OwnInv, RegInv, Apply, HandleOf, Quiet, Dialled, Snapshot, OwnedKey, HeldKey, Visits;
    if HandleOf(Apply(st.sh, m.effect), s) != HandleOf(st.sh, s) {
      ChangersHold(st.sh, st.threads[u].pc, m, s);
    }
  }

  /** Who connects or disconnects a session owns it unpublished, or holds its mutex. */
  lemma {:induction false} ChangersHold(sh: Shared, pc: PC, m: Move, s: Sref)
    requires Fits(sh, pc, m) && ((m.effect.SetLink? && m.effect.s == s) || m.effect == Disconnect(s))
    ensures (Owner(pc) == Some(s) && !IsCloser(pc)) || SessMu(s) in Held(pc)
  {
    hide Quiet, Snapshot, Dialled;
  }

  lemma {:induction false} ReconnectorHolds(st: St, t: Tid, s: Sref)
    requires OwnInv(st) && t in st.threads && Reconnecting(st.threads[t].pc, s)
    ensures SessMu(s) in Held(st.threads[t].pc) && s in st.sh.published
  {
    assert VisitOk(st.sh, st.threads[t].pc);
    assert Visits(st.threads[t].pc) == Some(s);
  }

  /** Nothing outside the thread itself changes what its validation goes by. */
  lemma {:induction false} OthersKeep(st: St, ev: Event, t: Tid, s: Sref, had: Option<Handle>)
    requires Inv(st) && Next(st, ev).Some? && t in st.threads && !(ev.Step? && ev.t == t)
    requires GoesBy(st.sh, st.threads[t].pc, s, had)
    ensures GoesBy(Next(st, ev).value.sh, st.threads[t].pc, s, had)
  {
    ReconnectorHolds(st, t, s);
    hide LockInv, OwnInv, RegInv, ConnInv, HoldInv, RefInv, HandleInv, TargetInv, SnapInv, KillInv, Held, Body, Granted, Wants, Apply, Protected, Fits;
    if ev.Step? && !st.threads[ev.t].pc.Idle? && Wants(st.threads[ev.t].pc).None? {
      BodyFits(st.sh, st.threads[ev.t].pc, ev.c);
      HeldSessionStays(st, t, ev.t, s, Body(st.sh, st.threads[ev.t].pc, ev.c).value);
    }
  }

  lemma {:induction false} OwnKeeps(st: St, t: Tid, c: Choice, s: Sref)
    requires t in st.threads && ThreadStep(st, t, c).Some? && Reconnecting(ThreadStep(st, t, c).value.threads[t].pc, s)
    ensures var st', pc := ThreadStep(st, t, c).value, st.threads[t].pc;
            && (pc == VWantSess(s) || Reconnecting(pc, s))
            && (pc == VWantSess(s) ==> GoesBy(st'.sh, st'.threads[t].pc, s, HandleOf(st.sh, s)))
            && forall had :: GoesBy(st.sh, pc, s, had) ==> GoesBy(st'.sh, st'.threads[t].pc, s, had)
  {
    var pc := st.threads[t].pc;
    hide Body, Granted, Wants, Apply, HandleOf, GoesBy;
    if !pc.Idle? {
      if Wants(pc).Some? {
        OwnGrant(st.sh, pc, s);
      } else {
        OwnBody(st.sh, pc, s, c);
      }
    }
  }

  // ---- Over a run ----

  /** The validation goes by the handle its session had when the thread last took session.mu. */
  ghost predicate Traced(live: set<Target>, evs: seq<Event>, t: Tid, s: Sref, st: St)
    requires t in st.threads
  {
    var i := LastTake(Init(live), evs, t);
    && i.Some? && i.value < |evs|
    && var taken := RunEvents(Init(live), evs[..i.value]);
    && taken.Some? && t in taken.value.threads && taken.value.threads[t].pc == VWantSess(s)
    && evs[i.value].Step? && evs[i.value].t == t
    && GoesBy(st.sh, st.threads[t].pc, s, HandleOf(taken.value.sh, s))
  }

  lemma {:induction false} ReconnectTraced(live: set<Target>, evs: seq<Event>, t: Tid, s: Sref)
    requires RunEvents(Init(live), evs).Some? && t in RunEvents(Init(live), evs).value.threads
    requires Reconnecting(RunEvents(Init(live), evs).value.threads[t].pc, s)
    ensures Traced(live, evs, t, s, RunEvents(Init(live), evs).value)
    decreases |evs|
  {
    hide Next, Inv, GoesBy, HandleOf;
    if evs != [] {
      var before, ev := evs[..|evs| - 1], evs[|evs| - 1];
      var mid, st := RunEvents(Init(live), before).value, RunEvents(Init(live), evs).value;
      InvAlways(live, before);
      ReconnectGoesOn(mid, ev, t, s);
      if !TakesSession(mid, ev, t) {
        ReconnectTraced(live, before, t, s);
        var i := LastTake(Init(live), before, t).value;
        assert before[..i] == evs[..i] && before[i] == evs[i];
        assert LastTake(Init(live), evs, t) == Some(i);
      }
    }
  }

  /** One event: the validation begins here, or goes on by the same handle. */
  lemma {:induction false} ReconnectGoesOn(st: St, ev: Event, t: Tid, s: Sref)
    requires Inv(st) && Next(st, ev).Some? && t in Next(st, ev).value.threads && Reconnecting(Next(st, ev).value.threads[t].pc, s)
    ensures var st' := Next(st, ev).value;
            && t in st.threads
            && if TakesSession(st, ev, t) then st.threads[t].pc == VWantSess(s) && GoesBy(st'.sh, st'.threads[t].pc, s, HandleOf(st.sh, s))
               else Reconnecting(st.threads[t].pc, s)
                    && forall had :: GoesBy(st.sh, st.threads[t].pc, s, had) ==> GoesBy(st'.sh, st'.threads[t].pc, s, had)
  {
    hide Inv, HandleOf, Protected;
    if ev.Step? && ev.t == t {
      hide ThreadStep;
      OwnKeeps(st, t, ev.c, s);
    } else {
      assert t in st.threads && Next(st, ev).value.threads[t] == st.threads[t] by { OthersWait(st, ev, t); }
      hide Next;
      forall had | GoesBy(st.sh, st.threads[t].pc, s, had) ensures GoesBy(Next(st, ev).value.sh, st.threads[t].pc, s, had) {
        OthersKeep(st, ev, t, s, had);
      }
    }
  }

  lemma {:induction false} OthersWait(st: St, ev: Event, t: Tid)
    requires Next(st, ev).Some? && t in Next(st, ev).value.threads && !Next(st, ev).value.threads[t].pc.Idle? && !(ev.Step? && ev.t == t)
    ensures t in st.threads && Next(st, ev).value.threads[t] == st.threads[t]
  {
    hide Body, Wants, Granted, Apply, Protected;
  }

  /**
   In every run, whatever the other threads and the server do in between: a validation about to query its control
   connection crashes if and only if its session had no handle when the thread took session.mu.
   */
  lemma {:induction false} CrashDecidedAtTake(live: set<Target>, evs: seq<Event>, t: Tid, c: Choice)
    requires RunEvents(Init(live), evs).Some?
    requires var st := RunEvents(Init(live), evs).value; !st.sh.crashed && t in st.threads && st.threads[t].pc.VSnap?
    ensures var st, i := RunEvents(Init(live), evs).value, LastTake(Init(live), evs, t);
            && i.Some? && i.value < |evs| && RunEvents(Init(live), evs[..i.value]).Some?
            && var taken := RunEvents(Init(live), evs[..i.value]).value;
            && TakesSession(taken, evs[i.value], t) && taken.threads[t].pc.s == st.threads[t].pc.s
            && Next(st, Step(t, c)).Some?
            && (Next(st, Step(t, c)).value.sh.crashed <==> HandleOf(taken.sh, st.threads[t].pc.s).None?)
  {
    var st := RunEvents(Init(live), evs).value;
    ReconnectTraced(live, evs, t, st.threads[t].pc.s);
    hide RunEvents, HandleOf, LastTake;
    SnapMoves(st, t, c);
    CrashesExactlyWithoutHandle(st, t, c);
  }

  /** Any crash of any run has this cause: a validation that took session.mu of a session without a handle. */
  lemma {:induction false} CrashTraced(live: set<Target>, evs: seq<Event>, ev: Event)
    requires RunEvents(Init(live), evs).Some? && Next(RunEvents(Init(live), evs).value, ev).Some?
    requires Next(RunEvents(Init(live), evs).value, ev).value.sh.crashed
    ensures ev.Step?
    ensures var i := LastTake(Init(live), evs, ev.t);
            && i.Some? && i.value < |evs| && RunEvents(Init(live), evs[..i.value]).Some?
            && var taken := RunEvents(Init(live), evs[..i.value]).value;
            TakesSession(taken, evs[i.value], ev.t) && HandleOf(taken.sh, taken.threads[ev.t].pc.s).None?
  {
    var st := RunEvents(Init(live), evs).value;
    hide RunEvents, ThreadStep, HandleOf, LastTake, Protected;
    CrashesExactlyWithoutHandle(st, ev.t, ev.c);
    CrashDecidedAtTake(live, evs, ev.t, ev.c);
  }

  lemma {:induction false} SnapMoves(st: St, t: Tid, c: Choice)
    requires t in st.threads && st.threads[t].pc.VSnap?
    ensures ThreadStep(st, t, c).Some?
  {
    hide Apply;
  }
}
