/**
 The multi-session runtime of agents/drivers/xugu/main.go as a step machine. Every thread is a
 program counter with its locals; a step either takes a mutex or runs one region up to the next
 blocking point. Database calls are steps whose outcome is chosen by the environment.
 */
module XuguRuntime {
  import opened Common

  const MAX_SESSIONS := 256

  type Tid = nat
  type Id = string
  type Key = string
  type Sref = nat
  type Handle = nat

  /** A server-side session as SYS_SESSIONS names it. */
  datatype Target = Target(node: int, session: int)

  /** A connected server: its own connection, the id recorded for cancelling it, and the control connection. */
  datatype Link = Link(conn: Target, target: Target, handle: Handle)

  datatype Session = Session(key: Key, link: Option<Link>, active: bool)

  datatype Control = Control(handle: Handle, refs: nat)

  /** A cancel sent for session `who`, and the other connected sessions it could reach. */
  datatype Kill = Kill(who: Sref, target: Target, others: set<Sref>)

  datatype Lock = RMu | ConnectMu | ControlMu | SessMu(s: Sref) | ActiveMu(s: Sref)

  datatype Op = Validate | Use | Cancel

  datatype Cmd = Open(id: Id, key: Key) | Close(id: Id) | Lookup(id: Id, op: Op) | Shutdown

  datatype PC =
    | Idle
      // openSession
    | OWantCheck(id: Id, key: Key) | OInCheck(id: Id, key: Key)
    | OWantConnect(id: Id, key: Key, s: Sref) | OWantControl(id: Id, key: Key, s: Sref) | OInControl(id: Id, key: Key, s: Sref)
    | OWantAct(id: Id, key: Key, s: Sref, h: Handle) | OInAct(id: Id, key: Key, s: Sref, h: Handle)
    | OSnap(id: Id, key: Key, s: Sref, h: Handle) | ODial(id: Id, key: Key, s: Sref, h: Handle, before: set<Target>)
    | OAfter(id: Id, key: Key, s: Sref, h: Handle, before: set<Target>, conn: Target)
    | OConnected(id: Id, key: Key, s: Sref)
    | ONoControl(s: Sref) | OFail(key: Key, s: Sref) | OWantRel(key: Key, s: Sref) | OInRel(key: Key, s: Sref)
    | OWantReg(id: Id, key: Key, s: Sref) | OInReg(id: Id, key: Key, s: Sref)
      // the same, undoing a connect that lost the race for its id, with r.mu held
    | RWantAct(key: Key, s: Sref) | RInAct(key: Key, s: Sref) | RWantRel(key: Key, s: Sref) | RInRel(key: Key, s: Sref)
      // closeSession
    | CWantTake(id: Id) | CInTake(id: Id)
    | CWantSess(key: Key, s: Sref) | CWantAct(key: Key, s: Sref) | CInAct(key: Key, s: Sref)
    | CWantRel(key: Key, s: Sref) | CInRel(key: Key, s: Sref)
      // session lookup, then validate_session, a query, or cancel_session
    | LWant(id: Id, op: Op) | LIn(id: Id, op: Op)
    | VWantSess(s: Sref) | VCheck(s: Sref) | VWantConnect(s: Sref)
    | VWantAct(s: Sref, had: Option<Handle>) | VInAct(s: Sref, had: Option<Handle>) | VSnap(s: Sref, had: Option<Handle>)
    | VDial(s: Sref, h: Handle, before: set<Target>) | VAfter(s: Sref, h: Handle, before: set<Target>, conn: Target)
    | VDone(s: Sref)
    | UWantSess(s: Sref) | UBusy(s: Sref) | UWantAct(s: Sref) | UInAct(s: Sref)
    | XWantAct(s: Sref) | XInAct(s: Sref) | XKill(s: Sref)
      // closeAllSessions: the snapshot of ids
    | SWant | SIn

  datatype Thread = Thread(pc: PC, todo: seq<Cmd>)

  /** Everything the mutexes protect, and the server side. */
  datatype Shared = Shared(
    registry: map<Id, Sref>,
    heap: map<Sref, Session>,
    published: set<Sref>,
    controls: map<Key, Control>,
    openHandles: set<Handle>,
    live: set<Target>,
    nextSref: Sref,
    nextHandle: Handle,
    crashed: bool,
    kills: seq<Kill>)

  datatype St = St(threads: map<Tid, Thread>, locks: map<Lock, Tid>, sh: Shared)

  /** What the environment decides about one step. */
  datatype Choice = Choice(ok: bool, target: Target, ids: seq<Id>)

  // ---- Mutexes ----

  function Rank(l: Lock): nat
  {
    match l case SessMu(_) => 0 case ConnectMu => 1 case RMu => 1 case ControlMu => 2 case ActiveMu(_) => 2
  }

  function Held(pc: PC): set<Lock>
  {
    match pc
    case OInCheck(_, _) => {RMu}
    case OWantControl(_, _, _) => {ConnectMu}
    case OInControl(_, _, _) => {ConnectMu, ControlMu}
    case OWantAct(_, _, _, _) => {ConnectMu}
    case OInAct(_, _, s, _) => {ConnectMu, ActiveMu(s)}
    case OSnap(_, _, _, _) => {ConnectMu}
    case ODial(_, _, _, _, _) => {ConnectMu}
    case OAfter(_, _, _, _, _, _) => {ConnectMu}
    case OConnected(_, _, _) => {ConnectMu}
    case ONoControl(_) => {ConnectMu}
    case OFail(_, _) => {ConnectMu}
    case OInRel(_, _) => {ControlMu}
    case OInReg(_, _, _) => {RMu}
    case RWantAct(_, _) => {RMu}
    case RInAct(_, s) => {RMu, ActiveMu(s)}
    case RWantRel(_, _) => {RMu}
    case RInRel(_, _) => {RMu, ControlMu}
    case CInTake(_) => {RMu}
    case CWantAct(_, s) => {SessMu(s)}
    case CInAct(_, s) => {SessMu(s), ActiveMu(s)}
    case CWantRel(_, s) => {SessMu(s)}
    case CInRel(_, s) => {SessMu(s), ControlMu}
    case LIn(_, _) => {RMu}
    case VCheck(s) => {SessMu(s)}
    case VWantConnect(s) => {SessMu(s)}
    case VWantAct(s, _) => {SessMu(s), ConnectMu}
    case VInAct(s, _) => {SessMu(s), ConnectMu, ActiveMu(s)}
    case VSnap(s, _) => {SessMu(s), ConnectMu}
    case VDial(s, _, _) => {SessMu(s), ConnectMu}
    case VAfter(s, _, _, _) => {SessMu(s), ConnectMu}
    case VDone(s) => {SessMu(s), ConnectMu}
    case UBusy(s) => {SessMu(s)}
    case UWantAct(s) => {SessMu(s)}
    case UInAct(s) => {SessMu(s), ActiveMu(s)}
    case XInAct(s) => {ActiveMu(s)}
    case SIn => {RMu}
    case _ => {}
  }

  /** The mutex a thread is about to take. */
  function Wants(pc: PC): Option<Lock>
  {
    match pc
    case OWantCheck(_, _) => Some(RMu)
    case OWantConnect(_, _, _) => Some(ConnectMu)
    case OWantControl(_, _, _) => Some(ControlMu)
    case OWantAct(_, _, s, _) => Some(ActiveMu(s))
    case OWantRel(_, _) => Some(ControlMu)
    case OWantReg(_, _, _) => Some(RMu)
    case RWantAct(_, s) => Some(ActiveMu(s))
    case RWantRel(_, _) => Some(ControlMu)
    case CWantTake(_) => Some(RMu)
    case CWantSess(_, s) => Some(SessMu(s))
    case CWantAct(_, s) => Some(ActiveMu(s))
    case CWantRel(_, _) => Some(ControlMu)
    case LWant(_, _) => Some(RMu)
    case VWantSess(s) => Some(SessMu(s))
    case VWantConnect(_) => Some(ConnectMu)
    case VWantAct(s, _) => Some(ActiveMu(s))
    case UWantSess(s) => Some(SessMu(s))
    case UWantAct(s) => Some(ActiveMu(s))
    case XWantAct(s) => Some(ActiveMu(s))
    case SWant => Some(RMu)
    case _ => None
  }

  function HandleOf(sh: Shared, s: Sref): Option<Handle>
  {
    if s in sh.heap && sh.heap[s].link.Some? then Some(sh.heap[s].link.value.handle) else None
  }

  /** Where taking the wanted mutex leads; reconnecting reads the control handle at that moment. */
  function Granted(sh: Shared, pc: PC): PC
    requires Wants(pc).Some?
  {
    match pc
    case OWantCheck(id, k) => OInCheck(id, k)
    case OWantConnect(id, k, s) => OWantControl(id, k, s)
    case OWantControl(id, k, s) => OInControl(id, k, s)
    case OWantAct(id, k, s, h) => OInAct(id, k, s, h)
    case OWantRel(k, s) => OInRel(k, s)
    case OWantReg(id, k, s) => OInReg(id, k, s)
    case RWantAct(k, s) => RInAct(k, s)
    case RWantRel(k, s) => RInRel(k, s)
    case CWantTake(id) => CInTake(id)
    case CWantSess(k, s) => CWantAct(k, s)
    case CWantAct(k, s) => CInAct(k, s)
    case CWantRel(k, s) => CInRel(k, s)
    case LWant(id, op) => LIn(id, op)
    case VWantSess(s) => VCheck(s)
    case VWantConnect(s) => VWantAct(s, HandleOf(sh, s))
    case VWantAct(s, had) => VInAct(s, had)
    case UWantSess(s) => UBusy(s)
    case UWantAct(s) => UInAct(s)
    case XWantAct(s) => XInAct(s)
    case SWant => SIn
  }

  // ---- Effects on the shared state ----

  datatype Effect =
    | Nothing
    | Alloc(key: Key)
    | AcquireControl(key: Key)
    | ReleaseControl(key: Key)
    | Dial(conn: Target)
    | Hangup(conn: Target)
    | SetLink(s: Sref, link: Link)
    | Disconnect(s: Sref)
    | Register(id: Id, s: Sref)
    | Take(id: Id)
    | SetActive(s: Sref, active: bool)
    | SendKill(s: Sref)
    | Crash

  function Ids(link: Link): set<Target>
  {
    {link.conn, link.target}
  }

  /** The other connected sessions that a cancel of this target would reach. */
  function Reached(sh: Shared, s: Sref, target: Target): set<Sref>
  {
    set o | o in sh.heap && o != s && sh.heap[o].link.Some? && target in Ids(sh.heap[o].link.value)
  }

  /**
   cancelActiveQuery outside its mutex: only a connected session with something running sends a cancel. Reading
   the target and the server acting on it are one step.
   */
  function KillOf(sh: Shared, s: Sref): seq<Kill>
  {
    if s in sh.heap && sh.heap[s].active && sh.heap[s].link.Some? then
      var target := sh.heap[s].link.value.target;
      [Kill(s, target, Reached(sh, s, target))]
    else []
  }

  function Apply(sh: Shared, e: Effect): Shared
  {
    match e
    case Nothing => sh
    case Alloc(key) => sh.(heap := sh.heap[sh.nextSref := Session(key, None, false)], nextSref := sh.nextSref + 1)
    case AcquireControl(key) =>
      if key in sh.controls then sh.(controls := sh.controls[key := sh.controls[key].(refs := sh.controls[key].refs + 1)])
      else sh.(controls := sh.controls[key := Control(sh.nextHandle, 1)],
               openHandles := sh.openHandles + {sh.nextHandle}, nextHandle := sh.nextHandle + 1)
    case ReleaseControl(key) =>
      if key !in sh.controls then sh
      else if sh.controls[key].refs <= 1 then
        sh.(controls := sh.controls - {key}, openHandles := sh.openHandles - {sh.controls[key].handle})
      else sh.(controls := sh.controls[key := sh.controls[key].(refs := sh.controls[key].refs - 1)])
    case Dial(conn) => sh.(live := sh.live + {conn})
    case Hangup(conn) => sh.(live := sh.live - {conn})
    case SetLink(s, link) => if s in sh.heap then sh.(heap := sh.heap[s := sh.heap[s].(link := Some(link))]) else sh
    case Disconnect(s) =>
      if s !in sh.heap || sh.heap[s].link.None? then sh
      else sh.(heap := sh.heap[s := Session(sh.heap[s].key, None, false)],
               live := sh.live - {sh.heap[s].link.value.conn}, kills := sh.kills + KillOf(sh, s))
    case Register(id, s) => sh.(registry := sh.registry[id := s], published := sh.published + {s})
    case Take(id) => sh.(registry := sh.registry - {id})
    case SetActive(s, active) => if s in sh.heap then sh.(heap := sh.heap[s := sh.heap[s].(active := active)]) else sh
    case SendKill(s) => sh.(kills := sh.kills + KillOf(sh, s))
    case Crash => sh.(crashed := true)
  }

  /** What a region does, where it ends, and the mutexes it has let go by then. */
  datatype Move = Move(effect: Effect, pc: PC, released: set<Lock>, more: seq<Cmd>)

  function StartOf(cmd: Cmd): PC
  {
    match cmd
    case Open(id, key) => OWantCheck(id, key)
    case Close(id) => CWantTake(id)
    case Lookup(id, op) => LWant(id, op)
    case Shutdown => SWant
  }

  function CloseEach(ids: seq<Id>): seq<Cmd>
  {
    seq(|ids|, i requires 0 <= i < |ids| => Close(ids[i]))
  }

  /** Each key once, in whatever order the map iteration happens to give. */
  predicate Lists(ids: seq<Id>, keys: set<Id>)
  {
    |ids| == |keys| && forall id :: id in keys ==> id in ids
  }

  predicate IsConnector(pc: PC)
  {
    pc.OInCheck? || pc.OInControl? || pc.OInAct? || pc.OSnap? || pc.ODial? || pc.OAfter? || pc.OConnected?
  }

  predicate IsVisitor(pc: PC)
  {
    pc.LIn? || pc.VCheck? || pc.VInAct? || pc.VSnap? || pc.VDial? || pc.VAfter? || pc.VDone? || pc.UBusy? || pc.UInAct?
    || pc.XInAct? || pc.XKill? || pc.SIn?
  }

  /** openSession up to the end of connectWithControl. */
  function OpenBody(sh: Shared, pc: PC, c: Choice): Option<Move>
  {
    match pc
    case OInCheck(id, k) =>
      Some(if id in sh.registry || |sh.registry| >= MAX_SESSIONS then Move(Nothing, Idle, {RMu}, [])
           else Move(Alloc(k), OWantConnect(id, k, sh.nextSref), {RMu}, []))
    case OInControl(id, k, s) =>
      Some(if k in sh.controls then Move(AcquireControl(k), OWantAct(id, k, s, sh.controls[k].handle), {ControlMu}, [])
           else if c.ok then Move(AcquireControl(k), OWantAct(id, k, s, sh.nextHandle), {ControlMu}, [])
           else Move(Nothing, ONoControl(s), {ControlMu}, []))
    case OInAct(id, k, s, h) => Some(Move(Nothing, OSnap(id, k, s, h), {ActiveMu(s)}, []))
    case OSnap(id, k, s, h) =>
      Some(if c.ok then Move(Nothing, ODial(id, k, s, h, sh.live), {}, []) else Move(Nothing, OFail(k, s), {}, []))
    case ODial(id, k, s, h, before) =>
      Some(if c.ok && c.target !in sh.live then Move(Dial(c.target), OAfter(id, k, s, h, before, c.target), {}, [])
           else Move(Nothing, OFail(k, s), {}, []))
    case OAfter(id, k, s, h, before, conn) =>
      Some(if c.ok && sh.live - before == {c.target}
           then Move(SetLink(s, Link(conn, c.target, h)), OConnected(id, k, s), {}, [])
           else Move(Hangup(conn), OFail(k, s), {}, []))
    case OConnected(id, k, s) => Some(Move(Nothing, OWantReg(id, k, s), {ConnectMu}, []))
    case _ => None
  }

  /** Registering or rolling back a new session, and closing one. */
  function CloseBody(sh: Shared, pc: PC, c: Choice): Option<Move>
  {
    match pc
    case ONoControl(_) => Some(Move(Nothing, Idle, {ConnectMu}, []))
    case OFail(k, s) => Some(Move(Nothing, OWantRel(k, s), {ConnectMu}, []))
    case OInRel(k, s) => Some(Move(ReleaseControl(k), Idle, {ControlMu}, []))
    case OInReg(id, k, s) =>
      Some(if id in sh.registry || |sh.registry| >= MAX_SESSIONS then Move(Nothing, RWantAct(k, s), {}, [])
           else Move(Register(id, s), Idle, {RMu}, []))
    case RInAct(k, s) => Some(Move(Disconnect(s), RWantRel(k, s), {ActiveMu(s)}, []))
    case RInRel(k, s) => Some(Move(ReleaseControl(k), Idle, {RMu, ControlMu}, []))
    case CInTake(id) =>
      Some(if id in sh.registry && sh.registry[id] in sh.heap
           then Move(Take(id), CWantSess(sh.heap[sh.registry[id]].key, sh.registry[id]), {RMu}, [])
           else Move(Nothing, Idle, {RMu}, []))
    case CInAct(k, s) => Some(Move(Disconnect(s), CWantRel(k, s), {ActiveMu(s)}, []))
    case CInRel(k, s) => Some(Move(ReleaseControl(k), Idle, {SessMu(s), ControlMu}, []))
    case _ => None
  }

  /** Requests on a session found in the registry, and the shutdown snapshot. */
  function VisitBody(sh: Shared, pc: PC, c: Choice): Option<Move>
  {
    match pc
    case LIn(id, op) =>
      Some(if id !in sh.registry then Move(Nothing, Idle, {RMu}, [])
           else
             var s := sh.registry[id];
             Move(Nothing, match op case Validate => VWantSess(s) case Use => UWantSess(s) case Cancel => XWantAct(s), {RMu}, []))
    case VCheck(s) =>
      Some(if c.ok && HandleOf(sh, s).Some? then Move(Nothing, Idle, {SessMu(s)}, []) else Move(Nothing, VWantConnect(s), {}, []))
    case VInAct(s, had) => Some(Move(Disconnect(s), VSnap(s, had), {ActiveMu(s)}, []))
    case VSnap(s, had) =>
      Some(if had.None? then Move(Crash, VSnap(s, had), {}, [])
           else if c.ok then Move(Nothing, VDial(s, had.value, sh.live), {}, [])
           else Move(Nothing, VDone(s), {}, []))
    case VDial(s, h, before) =>
      Some(if c.ok && c.target !in sh.live then Move(Dial(c.target), VAfter(s, h, before, c.target), {}, [])
           else Move(Nothing, VDone(s), {}, []))
    case VAfter(s, h, before, conn) =>
      Some(if c.ok && sh.live - before == {c.target} then Move(SetLink(s, Link(conn, c.target, h)), VDone(s), {}, [])
           else Move(Hangup(conn), VDone(s), {}, []))
    case VDone(s) => Some(Move(Nothing, Idle, {SessMu(s), ConnectMu}, []))
    case UBusy(s) => Some(if c.ok then Move(Nothing, UWantAct(s), {}, []) else Move(Nothing, Idle, {SessMu(s)}, []))
    case UInAct(s) => Some(Move(SetActive(s, c.ok), UBusy(s), {ActiveMu(s)}, []))
    case XInAct(s) => Some(Move(Nothing, XKill(s), {ActiveMu(s)}, []))
    case XKill(s) => Some(Move(SendKill(s), Idle, {}, []))
    case SIn => if Lists(c.ids, sh.registry.Keys) then Some(Move(Nothing, Idle, {RMu}, CloseEach(c.ids))) else None
    case _ => None
  }

  /** The body of every region that does not begin by taking a mutex. */
  function Body(sh: Shared, pc: PC, c: Choice): Option<Move>
  {
    if IsConnector(pc) then OpenBody(sh, pc, c) else if IsVisitor(pc) then VisitBody(sh, pc, c) else CloseBody(sh, pc, c)
  }

  // ---- Steps ----

  datatype Event =
    | Spawn(t: Tid, cmds: seq<Cmd>)
    | Step(t: Tid, c: Choice)
    | ServerConnect(target: Target)
    | ServerDrop(target: Target)

  /** Connections and recorded targets of this runtime, which are taken to stay live while in use. */
  predicate Protected(st: St, target: Target)
  {
    || (exists s :: s in st.sh.heap && st.sh.heap[s].link.Some? && target in Ids(st.sh.heap[s].link.value))
    || (exists t :: t in st.threads && Dialled(st.threads[t].pc) == Some(target))
  }

  /** The connection a thread has opened and not yet handed over. */
  function Dialled(pc: PC): Option<Target>
  {
    match pc case OAfter(_, _, _, _, _, conn) => Some(conn) case VAfter(_, _, _, conn) => Some(conn) case _ => None
  }

  function Next(st: St, ev: Event): Option<St>
  {
    if st.sh.crashed then None
    else match ev
      case Spawn(t, cmds) => if t in st.threads then None else Some(st.(threads := st.threads[t := Thread(Idle, cmds)]))
      case Step(t, c) => if t in st.threads then ThreadStep(st, t, c) else None
      case ServerConnect(target) => Some(st.(sh := st.sh.(live := st.sh.live + {target})))
      case ServerDrop(target) => if Protected(st, target) then None else Some(st.(sh := st.sh.(live := st.sh.live - {target})))
  }

  function ThreadStep(st: St, t: Tid, c: Choice): Option<St>
    requires t in st.threads
  {
    var th := st.threads[t];
    if th.pc.Idle? then
      if th.todo == [] then None else Some(st.(threads := st.threads[t := Thread(StartOf(th.todo[0]), th.todo[1..])]))
    else if Wants(th.pc).Some? then
      var l := Wants(th.pc).value;
      if l in st.locks then None
      else Some(St(st.threads[t := Thread(Granted(st.sh, th.pc), th.todo)], st.locks[l := t], st.sh))
    else match Body(st.sh, th.pc, c)
      case None => None
      case Some(m) =>
        Some(St(st.threads[t := Thread(m.pc, m.more + th.todo)], st.locks - m.released, Apply(st.sh, m.effect)))
  }

  function Init(live: set<Target>): St
  {
    St(map[], map[], Shared(map[], map[], {}, map[], {}, live, 0, 0, false, []))
  }

  /** A run of the machine: any interleaving of requests, steps and outside sessions. */
  function RunEvents(st: St, evs: seq<Event>): Option<St>
    decreases |evs|
  {
    if evs == [] then Some(st)
    else match RunEvents(st, evs[..|evs| - 1])
      case None => None
      case Some(mid) => Next(mid, evs[|evs| - 1])
  }
}
