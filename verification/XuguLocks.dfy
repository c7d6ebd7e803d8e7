/** Mutex discipline of the Xugu runtime: who holds what, in which order, and why some thread can always move. */
module XuguLocks {
  import opened Common
  import opened XuguRuntime

  /** The lock table says exactly what the program counters say. */
  ghost predicate LockInv(st: St)
  {
    && (forall l :: l in st.locks ==> st.locks[l] in st.threads && l in Held(st.threads[st.locks[l]].pc))
    && (forall t, l :: t in st.threads && l in Held(st.threads[t].pc) ==> l in st.locks && st.locks[l] == t)
  }

  /** Mutexes are taken in rank order: session.mu, then connectMu or r.mu, then controlMu or activeCancelMu. */
  lemma {:induction false} RankOrder(pc: PC, h: Lock)
    requires Wants(pc).Some? && h in Held(pc)
    ensures Rank(h) < Rank(Wants(pc).value)
  {
  }

  predicate Releases(pc: PC, m: Move)
  {
    m.released <= Held(pc) && Held(m.pc) == Held(pc) - m.released
  }

  lemma {:induction false} VisitReleases(sh: Shared, pc: PC, c: Choice)
    requires VisitBody(sh, pc, c).Some?
    ensures Releases(pc, VisitBody(sh, pc, c).value)
  {
    hide HandleOf, Lists, CloseEach;
  }

  lemma {:induction false} OpenReleases(sh: Shared, pc: PC, c: Choice)
    requires OpenBody(sh, pc, c).Some?
    ensures Releases(pc, OpenBody(sh, pc, c).value)
  {
  }

  lemma {:induction false} CloseReleases(sh: Shared, pc: PC, c: Choice)
    requires CloseBody(sh, pc, c).Some?
    ensures Releases(pc, CloseBody(sh, pc, c).value)
  {
  }

  /** A region lets go of mutexes it holds and of no others, and keeps the rest. */
  lemma {:induction false} BodyReleases(sh: Shared, pc: PC, c: Choice)
    requires Body(sh, pc, c).Some?
    ensures Releases(pc, Body(sh, pc, c).value)
  {
    hide OpenBody, VisitBody, CloseBody, Held, IsVisitor, IsConnector;
    if IsConnector(pc) {
      OpenReleases(sh, pc, c);
    } else if IsVisitor(pc) {
      VisitReleases(sh, pc, c);
    } else {
      CloseReleases(sh, pc, c);
    }
  }

  lemma {:induction false} GrantHolds(sh: Shared, pc: PC)
    requires Wants(pc).Some?
    ensures Held(Granted(sh, pc)) == Held(pc) + {Wants(pc).value} && Wants(pc).value !in Held(pc)
  {
    hide Held, Wants, Granted;
    GrantedHolds(sh, pc);
    if Wants(pc).value in Held(pc) {
      RankOrder(pc, Wants(pc).value);
    }
  }

  lemma {:induction false} GrantedHolds(sh: Shared, pc: PC)
    requires Wants(pc).Some?
    ensures Held(Granted(sh, pc)) == Held(pc) + {Wants(pc).value}
  {
    hide HandleOf;
  }

  lemma {:induction false} LockStep(st: St, t: Tid, c: Choice)
    requires LockInv(st) && t in st.threads && ThreadStep(st, t, c).Some?
    ensures LockInv(ThreadStep(st, t, c).value)
  {
    hide Body, Held, Granted, Wants, Apply;
    var pc := st.threads[t].pc;
    if pc.Idle? {
      IdleHoldsNothing(st.threads[t].todo);
    } else if Wants(pc).Some? {
      GrantHolds(st.sh, pc);
    } else {
      BodyReleases(st.sh, pc, c);
      var m := Body(st.sh, pc, c).value;
      UnlockKeeps(st, t, Thread(m.pc, m.more + st.threads[t].todo), m.released, Apply(st.sh, m.effect));
    }
  }

  lemma {:induction false} UnlockKeeps(st: St, t: Tid, th: Thread, released: set<Lock>, sh: Shared)
    requires LockInv(st) && t in st.threads
    requires released <= Held(st.threads[t].pc) && Held(th.pc) == Held(st.threads[t].pc) - released
    ensures LockInv(St(st.threads[t := th], st.locks - released, sh))
  {
    hide Held;
    var st' := St(st.threads[t := th], st.locks - released, sh);
    forall u, l | u in st'.threads && l in Held(st'.threads[u].pc) ensures l in st'.locks && st'.locks[l] == u {
      assert l in Held(st.threads[u].pc);
    }
  }

  lemma {:induction false} IdleHoldsNothing(todo: seq<Cmd>)
    ensures Held(Idle) == {} && Wants(Idle) == None
    ensures todo != [] ==> Held(StartOf(todo[0])) == {}
  {
  }

  lemma {:induction false} LockInvNext(st: St, ev: Event)
    requires LockInv(st) && Next(st, ev).Some?
    ensures LockInv(Next(st, ev).value)
  {
    hide Body, Held, Granted, Wants, Apply, Protected;
    match ev
    case Spawn(t, cmds) => IdleHoldsNothing(cmds);
    case Step(t, c) => LockStep(st, t, c);
    case ServerConnect(_) =>
    case ServerDrop(_) =>
  }

  // ---- Progress ----

  ghost predicate CanStep(st: St, t: Tid)
  {
    t in st.threads && exists c :: ThreadStep(st, t, c).Some?
  }

  predicate Finished(th: Thread)
  {
    th.pc.Idle? && th.todo == []
  }

  lemma {:induction false} Enumerate(keys: set<Id>) returns (ids: seq<Id>)
    ensures Lists(ids, keys)
    decreases |keys|
  {
    if keys == {} {
      ids := [];
    } else {
      var k :| k in keys;
      var rest := Enumerate(keys - {k});
      ids := [k] + rest;
    }
  }

  /** A thread that does not wait for a mutex can always move, whatever the database answers. */
  lemma {:induction false} UnblockedMoves(st: St, t: Tid)
    requires t in st.threads && !Finished(st.threads[t])
    requires Wants(st.threads[t].pc).None? || Wants(st.threads[t].pc).value !in st.locks
    ensures CanStep(st, t)
  {
    hide Apply, Held;
    var ids := Enumerate(st.sh.registry.Keys);
    var c := Choice(false, Target(0, 0), ids);
    assert ThreadStep(st, t, c).Some?;
  }

  /** Follow the mutex a thread waits for to its holder, and so on; ranks rise, so the chain ends at a thread that moves. */
  lemma {:induction false} SomeoneMoves(st: St, t: Tid) returns (m: Tid)
    requires LockInv(st) && t in st.threads && !Finished(st.threads[t])
    ensures CanStep(st, m)
    decreases 3 - (if Wants(st.threads[t].pc).Some? then Rank(Wants(st.threads[t].pc).value) else 3)
  {
    hide Held, Wants, Rank, CanStep;
    RankBound(st.threads[t].pc);
    var w := Wants(st.threads[t].pc);
    if w.None? || w.value !in st.locks {
      UnblockedMoves(st, t);
      m := t;
    } else {
      var holder := st.locks[w.value];
      HoldersAreBusy(st.threads[holder], w.value);
      RankBound(st.threads[holder].pc);
      if Wants(st.threads[holder].pc).Some? {
        RankOrder(st.threads[holder].pc, w.value);
      }
      m := SomeoneMoves(st, holder);
    }
  }

  lemma {:induction false} RankBound(pc: PC)
    ensures Wants(pc).Some? ==> Rank(Wants(pc).value) < 3
  {
  }

  lemma {:induction false} HoldersAreBusy(th: Thread, l: Lock)
    requires l in Held(th.pc)
    ensures !Finished(th)
  {
  }

  lemma {:induction false} LocksHoldAlways(live: set<Target>, evs: seq<Event>)
    requires RunEvents(Init(live), evs).Some?
    ensures LockInv(RunEvents(Init(live), evs).value)
    decreases |evs|
  {
    hide Next;
    if evs != [] {
      LocksHoldAlways(live, evs[..|evs| - 1]);
      LockInvNext(RunEvents(Init(live), evs[..|evs| - 1]).value, evs[|evs| - 1]);
    }
  }

  /**
   Deadlock freedom: in every reachable state that has not crashed, as long as some request is
   unfinished, some thread has a step.
   */
  lemma {:induction false} DeadlockFree(live: set<Target>, evs: seq<Event>, t: Tid)
    requires RunEvents(Init(live), evs).Some?
    requires var st := RunEvents(Init(live), evs).value; !st.sh.crashed && t in st.threads && !Finished(st.threads[t])
    ensures var st := RunEvents(Init(live), evs).value;
            exists m: Tid, c: Choice :: Next(st, Step(m, c)).Some?
  {
    hide Held, Wants, Body, RunEvents;
    LocksHoldAlways(live, evs);
    var st := RunEvents(Init(live), evs).value;
    var m := SomeoneMoves(st, t);
    var c :| ThreadStep(st, m, c).Some?;
    assert Next(st, Step(m, c)) == ThreadStep(st, m, c);
  }
}
