/**
 The relay as a transition system: any number of handler threads, each with its captured
 locals and a program counter, one atomic step per critical section (or per unlocked shared
 access). A scheduler picks which thread moves next; I/O outcomes, random draws and the
 clock arrive in the Choice of a step.
 */
module Protocol {
  import opened Options
  import opened Decimal
  import opened Store

  datatype Role =
    | ClientData | HostData | HostSignal | ClientSignal
    | FreshCreator | ReuseCreator | GhostCleaner | IdleCleaner

  /** A handler's local variables, and which of its writes to the room it has made. */
  datatype Locals = Locals(
    role: Role,
    code: Code,                  // the id parameter; for a ReuseCreator the code its token names
    name: string,                // ClientData: the name it filed; HostData: the request parameter
    room: Option<RoomId>,        // ClientData, HostData: the Room captured; HostSignal: the Room joined
    asked: bool,                 // ClientData: filed its request
    listed: bool,                // ClientData: entered itself in ClientsToHostConnections
    client: Option<Conn>,        // HostData: the client whose request it took
    linked: bool,                // HostData: wrote ClientsToHostConnections
    mirrored: bool,              // HostData: wrote HostToClientsConnections
    partner: Option<Conn>)       // the connection the forwarding loop writes to

  // Program counters, one datatype for each stretch of handler code.
  datatype ClientPc = FindRoom | ReadHost | Filing | Listing | Asking
  datatype PollPc = PollRoom | PollHost(seen: RoomId) | PollPartner(seen: RoomId)
  datatype SweepPc = SweepFind | SweepCheck(seen: RoomId) | SweepDelete(seen: RoomId)
  datatype DataPc = TakeFind | Taking | Linking | Mirroring | Touching
  datatype SeekPc = SeekRoom | SeekPartner(seen: RoomId)
  datatype SignalPc = Join | SignalFind | SignalHost(seen: RoomId)
  datatype ServePc = Serving | Received(packet: Packet) | Acting(seen: RoomId, packet: Packet)
    | Registering(seen: RoomId, id: Byte)
  datatype ExitPc = Forwarding | Leave | Cleanup | Closing(goal: set<Closure>, left: set<Closure>)
    | Finished(goal: set<Closure>) | Bailed
  datatype CreatePc = DrawCode | CheckToken | Evicting(host: Conn) | Rebind
  datatype CleanPc = GhostScan | GhostPrune(stale: set<Code>) | IdleScan
    | IdleDelete(codes: set<Code>, hosts: set<Conn>) | IdleClose(hosts: set<Conn>)

  datatype Pc =
    | Gate
    | Enter
    | Client(client: ClientPc)
    | Poll(poll: PollPc)
    | Sweep(sweep: SweepPc)
    | Data(data: DataPc)
    | Seek(seek: SeekPc)
    | Signal(signal: SignalPc)
    | Serve(serve: ServePc)
    | Exit(exit: ExitPc)
    | Create(create: CreatePc)
    | Clean(clean: CleanPc)

  // Where the threads that are done with the relay end up.
  const DONE := Exit(Finished({}))

  datatype Sys = Sys(
    shared: Shared,
    locals: seq<Locals>,         // of each handler, indexed by the connection it handles
    pcs: seq<Pc>,                // of each handler, in the same order
    count: int,                  // NumberOfClientsConnected
    lost: set<RoomId>,           // the Room objects whose HostMu a handler unwound under
    closed: set<Conn>,           // connections on which CloseWebsocket was called
    delivered: seq<Delivery>)    // signal packets written

  /** Everything a step does not control. */
  datatype Choice = Choice(ok: bool, draw: nat, now: int, code: Code, packet: Packet, pick: Closure)

  datatype Action =
    | Spawn(role: Role, code: Code, name: string)
    | Recall(code: Code)         // an earlier process signed a reuse token for this code, with the same key
    | Step(t: Conn, ch: Choice)

  // ---- What a step leaves alone ----

  /** A step is one thread's own: every other handler's locals and program counter stay as they were. */
  predicate Moves(s: Sys, s': Sys, t: Conn) {
    && |s'.locals| == |s.locals| == |s'.pcs| == |s.pcs|
    && (forall u: Conn :: u < |s.pcs| && u != t ==> s'.locals[u] == s.locals[u] && s'.pcs[u] == s.pcs[u])
  }

  /** Only cleanups, creations and cleaners write app.Rooms. */
  predicate KeepsTable(s: Sys, s': Sys) {
    s'.shared.table == s.shared.table && s'.shared.issued == s.shared.issued && |s'.shared.heap| == |s.shared.heap|
  }

  /** Only clientRelayHandler itself decides on the name, and on when it is filed. */
  predicate KeepsRequest(s: Sys, s': Sys, t: Conn) {
    && t < |s.locals| && t < |s'.locals| && t < |s'.pcs|
    && s'.locals[t].role == s.locals[t].role && s'.locals[t].code == s.locals[t].code
    && s'.locals[t].name == s.locals[t].name && s'.locals[t].asked == s.locals[t].asked
    && s'.pcs[t] != Gate && s'.pcs[t] != Client(Filing)
  }

  // ---- Small updates ----

  function Goto(s: Sys, t: Conn, pc: Pc): (s': Sys)
    requires t < |s.pcs|
    ensures |s.locals| == |s.pcs| ==> Moves(s, s', t)
  {
    s.(pcs := s.pcs[t := pc])
  }

  function Become(s: Sys, t: Conn, l: Locals, pc: Pc): (s': Sys)
    requires t < |s.locals| == |s.pcs|
    ensures Moves(s, s', t)
  {
    s.(locals := s.locals[t := l], pcs := s.pcs[t := pc])
  }

  function Close(s: Sys, c: Conn): Sys {
    s.(closed := s.closed + {c})
  }

  function Deliver(s: Sys, dest: Conn, packet: Packet): Sys {
    s.(delivered := s.delivered + [Delivery(dest, packet)])
  }

  function WithRoom(s: Sys, id: RoomId, r: RoomState): Sys
    requires id < |s.shared.heap|
  {
    s.(shared := PutRoom(s.shared, id, r))
  }

  function Lookup(s: Sys, code: Code): Option<RoomId> {
    if code in s.shared.table then Some(s.shared.table[code]) else None
  }

  predicate LostWired(s: Sys) {
    forall r :: r in s.lost ==> r < |s.shared.heap|
  }

  ghost predicate Valid(s: Sys) {
    && Wired(s.shared)
    && |s.locals| == |s.pcs|
    && LostWired(s)
    && forall t :: 0 <= t < |s.pcs| ==> PcWired(s.locals[t], s.pcs[t], |s.shared.heap|)
  }

  /** The room ids a thread holds are ids of Room objects. */
  predicate PcWired(l: Locals, pc: Pc, rooms: nat) {
    && (l.room.Some? ==> l.room.value < rooms)
    && (match pc
        case Client(p) => p != FindRoom ==> l.room.Some?
        case Poll(p) => p != PollRoom ==> p.seen < rooms
        case Sweep(p) => p != SweepFind ==> p.seen < rooms
        case Data(p) =>
          && (p.Taking? || p.Touching? ==> l.room.Some?)
          && (p.Linking? || p.Mirroring? ==> l.room.Some? && l.client.Some?)
        case Seek(p) => p != SeekRoom ==> p.seen < rooms
        case Signal(p) => p.SignalHost? ==> p.seen < rooms
        case Serve(p) => p.Acting? || p.Registering? ==> p.seen < rooms
        case _ => true)
  }

  // ---- The handlers, one step at a time ----

  /** HandleRelay's first section, and where each kind of connection goes next. */
  function GateStep(s: Sys, t: Conn): (s': Sys)
    requires Valid(s) && t < |s.pcs|
    ensures Moves(s, s', t)
    ensures KeepsTable(s, s')
    ensures KeepsRequest(s, s', t)
  {
    var l := s.locals[t];
    if l.code !in s.shared.table then Goto(Close(s, t), t, DONE)
    else Goto(s, t, match l.role
                    case HostData => Data(TakeFind)
                    case HostSignal => Signal(Join)
                    case _ => Enter)
  }

  /** The counter goes up, and the handler proper starts. */
  function EnterStep(s: Sys, t: Conn): (s': Sys)
    requires Valid(s) && t < |s.pcs|
    ensures Moves(s, s', t)
    ensures KeepsTable(s, s')
    ensures KeepsRequest(s, s', t)
  {
    Goto(s.(count := s.count + 1), t, if s.locals[t].role == ClientData then Client(FindRoom) else Signal(SignalFind))
  }

  /** clientRelayHandler up to the request sent to the host. */
  function ClientStep(s: Sys, t: Conn, ch: Choice): (s': Sys)
    requires Valid(s) && t < |s.pcs| && s.pcs[t].Client?
    ensures Moves(s, s', t)
    ensures KeepsTable(s, s')
  {
    var l := s.locals[t];
    match s.pcs[t].client
    case FindRoom =>
      (match Lookup(s, l.code)
       case None => Goto(Close(s, t), t, Exit(Leave))
       case Some(id) => Become(s, t, l.(room := Some(id)), Client(ReadHost)))
    case ReadHost =>
      if s.shared.heap[l.room.value].host.None? then Goto(Close(s, t), t, Exit(Leave))
      else if !ch.ok then Goto(s, t, Exit(Leave))
      else Become(s, t, l.(name := RequestName(ch.draw % 9_999_999, l.code)), Client(Filing))
    case Filing =>
      Become(WithRoom(s, l.room.value, FileRequest(s.shared.heap[l.room.value], l.name, t)), t, l.(asked := true),
        Client(Listing))
    case Listing =>
      Become(WithRoom(s, l.room.value, ListClient(s.shared.heap[l.room.value], t)), t, l.(listed := true),
        Client(Asking))
    case Asking =>
      if l.room.value in s.lost then s
      else Goto(s, t, if ch.ok then Poll(PollRoom) else Exit(Leave))
  }

  /** waitForHostConnectionAndReturnIt. A nil entry goes round again without looking at the clock. */
  function PollStep(s: Sys, t: Conn, ch: Choice): (s': Sys)
    requires Valid(s) && t < |s.pcs| && s.pcs[t].Poll?
    ensures Moves(s, s', t)
    ensures KeepsTable(s, s')
    ensures KeepsRequest(s, s', t)
  {
    var l := s.locals[t];
    match s.pcs[t].poll
    case PollRoom =>
      (match Lookup(s, l.code)
       case None => Goto(s, t, Sweep(SweepFind))
       case Some(id) => Goto(s, t, Poll(PollHost(id))))
    case PollHost(seen) =>
      Goto(s, t, if s.shared.heap[seen].host.None? then Sweep(SweepFind) else Poll(PollPartner(seen)))
    case PollPartner(seen) =>
      var c2h := s.shared.heap[seen].c2h;
      if t !in c2h then Goto(s, t, if ch.ok then Poll(PollRoom) else Sweep(SweepFind))
      else if c2h[t].None? then Goto(s, t, Poll(PollRoom))
      else Become(s, t, l.(partner := c2h[t]), Sweep(SweepFind))
  }

  function AfterSweep(l: Locals): Pc {
    if l.partner.Some? then Exit(Forwarding) else Exit(Leave)
  }

  /** handleRequestCleanup, deferred by the wait: it sweeps whatever room now has the code. */
  function SweepStep(s: Sys, t: Conn): (s': Sys)
    requires Valid(s) && t < |s.pcs| && s.pcs[t].Sweep?
    ensures Moves(s, s', t)
    ensures KeepsTable(s, s')
    ensures KeepsRequest(s, s', t)
  {
    var l := s.locals[t];
    match s.pcs[t].sweep
    case SweepFind =>
      (match Lookup(s, l.code)
       case None => Goto(s, t, AfterSweep(l))
       case Some(id) => Goto(s, t, Sweep(SweepCheck(id))))
    case SweepCheck(seen) =>
      Goto(s, t, if l.name in s.shared.heap[seen].requests then Sweep(SweepDelete(seen)) else AfterSweep(l))
    case SweepDelete(seen) =>
      Goto(WithRoom(s, seen, DropRequest(s.shared.heap[seen], l.name)), t, AfterSweep(l))
  }

  /** HandleRelay's take, link and mirror sections for a host's data connection. */
  function DataStep(s: Sys, t: Conn, ch: Choice): (s': Sys)
    requires Valid(s) && t < |s.pcs| && s.pcs[t].Data?
    ensures Moves(s, s', t)
    ensures KeepsTable(s, s')
    ensures KeepsRequest(s, s', t)
  {
    var l := s.locals[t];
    match s.pcs[t].data
    case TakeFind =>
      (match Lookup(s, l.code)
       case None => Goto(Close(s, t), t, DONE)
       case Some(id) => Become(s, t, l.(room := Some(id)), Data(Taking)))
    case Taking =>
      var r := s.shared.heap[l.room.value];
      if l.name !in r.requests then Goto(Close(s, t), t, DONE)
      else Become(WithRoom(s, l.room.value, DropRequest(r, l.name)), t, l.(client := Some(r.requests[l.name])),
        Data(Linking))
    case Linking =>
      var r := s.shared.heap[l.room.value];
      if l.client.value !in r.c2h then Goto(Close(s, t), t, DONE)
      else Become(WithRoom(s, l.room.value, Link(r, l.client.value, t)), t, l.(linked := true), Data(Mirroring))
    case Mirroring =>
      Become(WithRoom(s, l.room.value, Mirror(s.shared.heap[l.room.value], t, l.client.value)), t,
        l.(mirrored := true), Data(Touching))
    case Touching =>
      Goto(WithRoom(s, l.room.value, Touch(s.shared.heap[l.room.value], ch.now)), t, Seek(SeekRoom))
  }

  /** handleHostToRelayGameConnection finds the room again, by its code, and then its partner. */
  function SeekStep(s: Sys, t: Conn): (s': Sys)
    requires Valid(s) && t < |s.pcs| && s.pcs[t].Seek?
    ensures Moves(s, s', t)
    ensures KeepsTable(s, s')
    ensures KeepsRequest(s, s', t)
  {
    var l := s.locals[t];
    match s.pcs[t].seek
    case SeekRoom =>
      (match Lookup(s, l.code)
       case None => Goto(s, t, Exit(Cleanup))
       case Some(id) => Goto(s, t, Seek(SeekPartner(id))))
    case SeekPartner(seen) =>
      var h2c := s.shared.heap[seen].h2c;
      if t !in h2c then Goto(s, t, Exit(Cleanup))
      else Become(s, t, l.(partner := Some(h2c[t])), Exit(Forwarding))
  }

  /** The host's join, and the lookups at the head of the two signal handlers. */
  function SignalStep(s: Sys, t: Conn, ch: Choice): (s': Sys)
    requires Valid(s) && t < |s.pcs| && s.pcs[t].Signal?
    ensures Moves(s, s', t)
    ensures KeepsTable(s, s')
    ensures KeepsRequest(s, s', t)
  {
    var l := s.locals[t];
    match s.pcs[t].signal
    case Join =>
      (match Lookup(s, l.code)
       case None => Goto(Close(s, t), t, DONE)
       case Some(id) =>
         var r := s.shared.heap[id];
         if r.host.Some? then Goto(Close(s, t), t, DONE)
         else Become(WithRoom(s, id, Seat(r, t, ch.now)), t, l.(room := Some(id)), Enter))
    case SignalFind =>
      (match Lookup(s, l.code)
       case None => Goto(if l.role == ClientSignal then Close(s, t) else s, t, Exit(Bailed))
       case Some(id) => Goto(s, t, if l.role == ClientSignal then Signal(SignalHost(id)) else Serve(Serving)))
    case SignalHost(seen) =>
      if s.shared.heap[seen].hasHost then Goto(s, t, Serve(Serving)) else Goto(Close(s, t), t, Exit(Bailed))
  }

  /** The two signal loops: read a packet, find the room by its code, act. */
  function ServeStep(s: Sys, t: Conn, ch: Choice): (s': Sys)
    requires Valid(s) && t < |s.pcs| && s.pcs[t].Serve?
    ensures Moves(s, s', t)
    ensures KeepsTable(s, s')
    ensures KeepsRequest(s, s', t)
  {
    var l := s.locals[t];
    match s.pcs[t].serve
    case Serving => Goto(s, t, if ch.ok then Serve(Received(ch.packet)) else Exit(Leave))
    case Received(packet) =>
      (match Lookup(s, l.code)
       case None => Goto(s, t, Serve(Serving))
       case Some(id) => Goto(s, t, Serve(Acting(id, packet))))
    case Acting(seen, packet) =>
      if TakesHostMu(l.role, packet) && seen in s.lost then s
      else if l.role == ClientSignal then ActForClient(s, t, seen, packet)
      else ActForHost(s, t, seen, packet)
    case Registering(seen, id) => Goto(WithRoom(s, seen, Route(s.shared.heap[seen], id, t)), t, Serve(Serving))
  }

  /** The packets that a signal handler handles under HostMu: it answers a ping, and it forwards to the host. */
  predicate TakesHostMu(role: Role, packet: Packet) {
    packet != [] && (packet[0] == PING || (role == ClientSignal && ForHost(packet)))
  }

  /**
   HandleSignalPacketFromClient after the lookup. A missing host is a nil dereference: the
   handler unwinds, with HostMu locked for good.
   */
  function ActForClient(s: Sys, t: Conn, seen: RoomId, packet: Packet): Sys
    requires t < |s.pcs| && seen < |s.shared.heap|
  {
    if packet == [] then Goto(s, t, Serve(Serving))
    else if packet[0] == PING then Goto(Deliver(s, t, [PONG]), t, Serve(Serving))
    else if packet[0] == PONG || packet[0] == CONNECTION_ESTABLISHED then Goto(s, t, Serve(Serving))
    else
      match s.shared.heap[seen].host
      case None => Goto(s.(lost := s.lost + {seen}), t, Exit(Leave))
      case Some(h) =>
        Goto(Deliver(s, h, packet), t, Serve(if |packet| >= 2 then Registering(seen, packet[1]) else Serving))
  }

  /** HandleSignalPacket after the lookup. */
  function ActForHost(s: Sys, t: Conn, seen: RoomId, packet: Packet): Sys
    requires t < |s.pcs| && seen < |s.shared.heap|
  {
    var routes := s.shared.heap[seen].routes;
    if packet == [] then Goto(s, t, Serve(Serving))
    else if packet[0] == PING then Goto(Deliver(s, t, [PONG]), t, Serve(Serving))
    else if packet[0] == PONG || |packet| < 2 || packet[1] !in routes then Goto(s, t, Serve(Serving))
    else Goto(Deliver(s, routes[packet[1]], packet), t, Serve(Serving))
  }

  /** The forwarding loops' exits, the deferred decrement, and handleCleanup. */
  function ExitStep(s: Sys, t: Conn, ch: Choice): (s': Sys)
    requires Valid(s) && t < |s.pcs| && s.pcs[t].Exit?
    ensures Moves(s, s', t)
    ensures KeepsRequest(s, s', t)
  {
    var l := s.locals[t];
    match s.pcs[t].exit
    case Forwarding =>
      if ch.ok then s else Goto(s, t, if l.role == ClientData then Exit(Leave) else Exit(Cleanup))
    case Leave => Goto(s.(count := s.count - 1), t, Exit(Cleanup))
    case Cleanup =>
      (match Lookup(s, l.code)
       case None => Goto(s, t, DONE)
       case Some(id) =>
         var goal := CleanupClosures(s.shared.heap[id], t, Unspecified);
         Goto(s.(shared := AfterCleanup(s.shared, t, l.code)), t, Exit(Closing(goal, goal))))
    case Closing(goal, left) =>
      if left == {} then Goto(s, t, Exit(Finished(goal)))
      else if ch.pick in left then Goto(Close(s, ch.pick.conn), t, Exit(Closing(goal, left - {ch.pick})))
      else s
    case Finished(_) => s
    case Bailed => s
  }

  /** HandleCreatePath, with the lock gap of the eviction between CheckToken and Rebind. */
  function CreateStep(s: Sys, t: Conn, ch: Choice): (s': Sys)
    requires Valid(s) && t < |s.pcs| && s.pcs[t].Create?
    ensures Moves(s, s', t)
    ensures KeepsRequest(s, s', t)
  {
    var l := s.locals[t];
    match s.pcs[t].create
    case DrawCode =>
      if IsCode(ch.code) && ch.code !in s.shared.table
      then Goto(s.(shared := Issue(Bind(s.shared, ch.code, ch.now), ch.code)), t, DONE)
      else Goto(s, t, DONE)
    case CheckToken =>
      if !ch.ok || l.code !in s.shared.issued || l.code == LUCKY_CODE then Goto(s, t, DONE)
      else
        (match Evicted(s.shared, l.code)
         case Some(h) => Goto(s, t, Create(Evicting(h)))
         case None => Goto(s.(shared := Bind(s.shared, l.code, ch.now)), t, DONE))
    case Evicting(host) => Goto(Close(s, host), t, Create(Rebind))
    case Rebind => Goto(s.(shared := Bind(s.shared, l.code, ch.now)), t, DONE)
  }

  /** The two room cleaners: a scan under the read lock, then a deletion under the write lock. */
  function CleanStep(s: Sys, t: Conn, ch: Choice): (s': Sys)
    requires Valid(s) && t < |s.pcs| && s.pcs[t].Clean?
    ensures Moves(s, s', t)
    ensures KeepsRequest(s, s', t)
  {
    match s.pcs[t].clean
    case GhostScan => Goto(s, t, Clean(GhostPrune(GhostRooms(s.shared, ch.now))))
    case GhostPrune(stale) => Goto(s.(shared := PruneGhosts(s.shared, stale)), t, Clean(GhostScan))
    case IdleScan =>
      var codes := IdleRooms(s.shared, ch.now);
      Goto(s, t, Clean(IdleDelete(codes, HostsOf(s.shared, codes))))
    case IdleDelete(codes, hosts) => Goto(s.(shared := Unbind(s.shared, codes)), t, Clean(IdleClose(hosts)))
    case IdleClose(hosts) =>
      if hosts == {} then Goto(s, t, Clean(IdleScan))
      else if ch.pick.conn in hosts then Goto(Close(s, ch.pick.conn), t, Clean(IdleClose(hosts - {ch.pick.conn})))
      else s
  }

  function Exec(s: Sys, t: Conn, ch: Choice): (s': Sys)
    requires Valid(s) && t < |s.pcs|
    ensures Moves(s, s', t)
    ensures !s.pcs[t].Client? ==> KeepsRequest(s, s', t)
    ensures !s.pcs[t].Exit? && !s.pcs[t].Create? && !s.pcs[t].Clean? ==> KeepsTable(s, s')
  {
    match s.pcs[t]
    case Gate => GateStep(s, t)
    case Enter => EnterStep(s, t)
    case Client(_) => ClientStep(s, t, ch)
    case Poll(_) => PollStep(s, t, ch)
    case Sweep(_) => SweepStep(s, t)
    case Data(_) => DataStep(s, t, ch)
    case Seek(_) => SeekStep(s, t)
    case Signal(_) => SignalStep(s, t, ch)
    case Serve(_) => ServeStep(s, t, ch)
    case Exit(_) => ExitStep(s, t, ch)
    case Create(_) => CreateStep(s, t, ch)
    case Clean(_) => CleanStep(s, t, ch)
  }

  // ---- Runs ----

  function StartPc(role: Role): Pc {
    match role
    case FreshCreator => Create(DrawCode)
    case ReuseCreator => Create(CheckToken)
    case GhostCleaner => Clean(GhostScan)
    case IdleCleaner => Clean(IdleScan)
    case _ => Gate
  }

  function StartLocals(role: Role, code: Code, name: string): Locals {
    Locals(role, code, name, None, false, false, None, false, false, None)
  }

  function Do(s: Sys, a: Action): Sys
    requires Valid(s)
  {
    match a
    case Spawn(role, code, name) =>
      s.(locals := s.locals + [StartLocals(role, code, name)], pcs := s.pcs + [StartPc(role)])
    case Recall(code) => if IsCode(code) then s.(shared := Issue(s.shared, code)) else s
    case Step(t, ch) => if t < |s.pcs| then Exec(s, t, ch) else s
  }

  const INIT := Sys(Shared(map[], [], {}), [], [], 0, {}, {}, [])
}
