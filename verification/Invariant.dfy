/**
 The invariant of the pairing protocol. Its core speaks of the Room objects and of the
 handlers' locals only, so the many steps that move nothing but a program counter keep it
 outright; program counters enter through PcOk, one thread at a time.
 */
module Invariant {
  import opened Options
  import opened Decimal
  import opened Store
  import opened Protocol

  type Heap = seq<RoomState>
  type Crew = seq<Locals>

  // ---- Per room ----

  /** A filed request belongs to the client that filed it in this room, and that client is not linked. */
  ghost predicate RequestOk(heap: Heap, ls: Crew, r: RoomId, name: string)
    requires r < |heap| && name in heap[r].requests
  {
    var c := heap[r].requests[name];
    && c < |ls|
    && ls[c].role == ClientData && ls[c].room == Some(r) && ls[c].asked && ls[c].name == name
    && (c in heap[r].c2h ==> heap[r].c2h[c] == None)
  }

  /**
   An entry of ClientsToHostConnections belongs to a client of this room; a non-nil one to the
   data thread that linked it.
   */
  ghost predicate EntryOk(heap: Heap, ls: Crew, r: RoomId, c: Conn)
    requires r < |heap| && c in heap[r].c2h
  {
    && c < |ls|
    && ls[c].role == ClientData && ls[c].room == Some(r) && ls[c].listed
    && (heap[r].c2h[c].Some? ==>
          var h := heap[r].c2h[c].value;
          h < |ls| && ls[h].room == Some(r) && ls[h].client == Some(c) && ls[h].linked)
  }

  ghost predicate MirrorOk(heap: Heap, ls: Crew, r: RoomId, h: Conn)
    requires r < |heap| && h in heap[r].h2c
  {
    h < |ls| && ls[h].room == Some(r) && ls[h].client == Some(heap[r].h2c[h]) && ls[h].mirrored
  }

  /** HasHost tells whether there is a host, and the host is a thread that joined this room. */
  ghost predicate SeatOk(room: RoomState, ls: Crew, r: RoomId) {
    && room.hasHost == room.host.Some?
    && (room.host.Some? ==>
          var x := room.host.value;
          x < |ls| && ls[x].role == HostSignal && ls[x].room == Some(r))
  }

  ghost predicate RequestsOk(heap: Heap, ls: Crew) {
    forall r: RoomId, name :: r < |heap| && name in heap[r].requests ==> RequestOk(heap, ls, r, name)
  }

  ghost predicate EntriesOk(heap: Heap, ls: Crew) {
    forall r: RoomId, c :: r < |heap| && c in heap[r].c2h ==> EntryOk(heap, ls, r, c)
  }

  ghost predicate MirrorsOk(heap: Heap, ls: Crew) {
    forall r: RoomId, h :: r < |heap| && h in heap[r].h2c ==> MirrorOk(heap, ls, r, h)
  }

  ghost predicate SeatsOk(heap: Heap, ls: Crew) {
    forall r: RoomId :: r < |heap| ==> SeatOk(heap[r], ls, r)
  }

  // ---- Per thread ----

  ghost predicate ClientOk(heap: Heap, l: Locals, t: Conn) {
    && l.client.None? && !l.linked && !l.mirrored
    && (l.asked || l.listed || l.partner.Some? ==> l.room.Some? && l.room.value < |heap|)
    && (l.listed ==> l.asked && t in heap[l.room.value].c2h)
    && (l.partner.Some? ==> l.listed && heap[l.room.value].c2h[t] == l.partner)
  }

  ghost predicate DataOk(heap: Heap, ls: Crew, l: Locals, t: Conn) {
    && !l.asked && !l.listed
    && (l.client.Some? ==>
          && l.room.Some? && l.room.value < |heap|
          && l.client.value < |ls|
          && ls[l.client.value].role == ClientData
          && ls[l.client.value].room == l.room
          && ls[l.client.value].asked)
    && (l.linked ==> l.client.Some?
                     && l.client.value in heap[l.room.value].c2h
                     && heap[l.room.value].c2h[l.client.value] == Some(t))
    && (l.mirrored ==> l.linked
                       && t in heap[l.room.value].h2c
                       && heap[l.room.value].h2c[t] == l.client.value)
    && (l.partner.Some? ==> l.mirrored && l.partner == l.client)
  }

  ghost predicate OtherOk(heap: Heap, l: Locals, t: Conn) {
    && !l.asked && !l.listed && l.client.None? && !l.linked && !l.mirrored && l.partner.None?
    && (l.role == HostSignal && l.room.Some? ==> l.room.value < |heap| && heap[l.room.value].host == Some(t))
  }

  ghost predicate ThreadOk(heap: Heap, ls: Crew, l: Locals, t: Conn) {
    match l.role
    case ClientData => ClientOk(heap, l, t)
    case HostData => DataOk(heap, ls, l, t)
    case _ => OtherOk(heap, l, t)
  }

  ghost predicate ThreadsOk(heap: Heap, ls: Crew) {
    forall t: Conn :: t < |ls| ==> ThreadOk(heap, ls, ls[t], t)
  }

  /** Each client is taken by at most one data thread. */
  ghost predicate TakersDiffer(ls: Crew) {
    forall h, k :: 0 <= h < |ls| && 0 <= k < |ls| && ls[h].client.Some? && ls[h].client == ls[k].client ==> h == k
  }

  /** A taken client is in no request map. */
  ghost predicate TakenNotWaiting(heap: Heap, ls: Crew) {
    forall h, r: RoomId, name :: 0 <= h < |ls| && r < |heap| && name in heap[r].requests && ls[h].client.Some?
      ==> heap[r].requests[name] != ls[h].client.value
  }

  ghost predicate Core(heap: Heap, ls: Crew) {
    && RequestsOk(heap, ls)
    && EntriesOk(heap, ls)
    && MirrorsOk(heap, ls)
    && SeatsOk(heap, ls)
    && ThreadsOk(heap, ls)
    && TakersDiffer(ls)
    && TakenNotWaiting(heap, ls)
  }

  // ---- Steps on the core ----

  /** Nobody is in a map before its handler wrote it there. */
  lemma EntriesFollowWrites(heap: Heap, ls: Crew, t: Conn)
    requires EntriesOk(heap, ls) && MirrorsOk(heap, ls) && t < |ls|
    ensures !ls[t].listed ==> forall r: RoomId :: r < |heap| ==> t !in heap[r].c2h
    ensures !ls[t].mirrored ==> forall r: RoomId :: r < |heap| ==> t !in heap[r].h2c
  {
    assert forall r: RoomId :: r < |heap| && t in heap[r].c2h ==> EntryOk(heap, ls, r, t);
    assert forall r: RoomId :: r < |heap| && t in heap[r].h2c ==> MirrorOk(heap, ls, r, t);
  }

  /** A thread that has written nothing may capture a room, draw a name, or start. */
  lemma CaptureKeepsCore(heap: Heap, ls: Crew, t: Conn, l: Locals)
    requires Core(heap, ls) && t < |ls|
    requires l == ls[t].(room := l.room, name := l.name)
    requires !l.asked && l.client.None? && l.role != HostSignal && !l.listed && l.partner.None?
    ensures Core(heap, ls[t := l])
  {
  }

  lemma SpawnKeepsCore(heap: Heap, ls: Crew, role: Role, code: Code, name: string)
    requires Core(heap, ls)
    ensures Core(heap, ls + [StartLocals(role, code, name)])
  {
  }

  /** A fresh Room object refers to nobody. */
  lemma NewRoomKeepsCore(heap: Heap, ls: Crew, now: int)
    requires Core(heap, ls)
    ensures Core(heap + [EmptyRoom(now)], ls)
  {
  }

  /** Timestamps and signal routes play no part. */
  lemma TouchKeepsCore(heap: Heap, ls: Crew, r: RoomId, room: RoomState)
    requires Core(heap, ls) && r < |heap|
    requires room == heap[r].(lastFilled := room.lastFilled, routes := room.routes)
    ensures Core(heap[r := room], ls)
  {
  }

  lemma DropKeepsCore(heap: Heap, ls: Crew, r: RoomId, name: string)
    requires Core(heap, ls) && r < |heap|
    ensures Core(heap[r := DropRequest(heap[r], name)], ls)
  {
  }

  lemma FileKeepsCore(heap: Heap, ls: Crew, t: Conn)
    requires Core(heap, ls) && t < |ls|
    requires ls[t].role == ClientData && ls[t].room.Some? && ls[t].room.value < |heap| && !ls[t].asked
    ensures Core(heap[ls[t].room.value := FileRequest(heap[ls[t].room.value], ls[t].name, t)],
            ls[t := ls[t].(asked := true)])
  {
  }

  lemma ListKeepsThreads(heap: Heap, ls: Crew, t: Conn)
    requires ThreadsOk(heap, ls) && t < |ls|
    requires ls[t].role == ClientData && ls[t].asked && !ls[t].listed && ls[t].room.Some? && ls[t].room.value < |heap|
    requires t !in heap[ls[t].room.value].c2h
    ensures ThreadsOk(heap[ls[t].room.value := ListClient(heap[ls[t].room.value], t)], ls[t := ls[t].(listed := true)])
  {
    var id, ls' := ls[t].room.value, ls[t := ls[t].(listed := true)];
    var heap' := heap[id := ListClient(heap[id], t)];
    forall u: Conn | u < |ls|
      ensures ThreadOk(heap', ls', ls'[u], u)
    {
      assert ThreadOk(heap, ls, ls[u], u);
    }
  }

  lemma ListKeepsCore(heap: Heap, ls: Crew, t: Conn)
    requires Core(heap, ls) && t < |ls|
    requires ls[t].role == ClientData && ls[t].asked && !ls[t].listed && ls[t].room.Some? && ls[t].room.value < |heap|
    ensures Core(heap[ls[t].room.value := ListClient(heap[ls[t].room.value], t)], ls[t := ls[t].(listed := true)])
  {
    EntriesFollowWrites(heap, ls, t);
    ListKeepsThreads(heap, ls, t);
  }

  lemma TakeKeepsThreads(heap: Heap, ls: Crew, t: Conn, l: Locals)
    requires ThreadsOk(heap, ls) && RequestsOk(heap, ls) && t < |ls|
    requires ls[t].role == HostData && ls[t].client.None? && ls[t].room.Some? && ls[t].room.value < |heap|
    requires ls[t].name in heap[ls[t].room.value].requests
    requires l == ls[t].(client := Some(heap[ls[t].room.value].requests[ls[t].name]))
    ensures ThreadsOk(heap[ls[t].room.value := DropRequest(heap[ls[t].room.value], ls[t].name)], ls[t := l])
  {
    var id, ls' := ls[t].room.value, ls[t := l];
    var heap' := heap[id := DropRequest(heap[id], ls[t].name)];
    assert RequestOk(heap, ls, id, ls[t].name);
    forall u: Conn | u < |ls|
      ensures ThreadOk(heap', ls', ls'[u], u)
    {
      assert ThreadOk(heap, ls, ls[u], u);
    }
  }

  lemma TakeKeepsCore(heap: Heap, ls: Crew, t: Conn)
    requires Core(heap, ls) && t < |ls|
    requires ls[t].role == HostData && ls[t].client.None? && ls[t].room.Some? && ls[t].room.value < |heap|
    requires ls[t].name in heap[ls[t].room.value].requests
    ensures var r := heap[ls[t].room.value];
            Core(heap[ls[t].room.value := DropRequest(r, ls[t].name)],
                 ls[t := ls[t].(client := Some(r.requests[ls[t].name]))])
  {
    TakeKeepsThreads(heap, ls, t, ls[t].(client := Some(heap[ls[t].room.value].requests[ls[t].name])));
  }

  /**
   A taken client that is registered but not yet linked by its taker has a nil entry: nobody
   else could have linked it.
   */
  lemma TakenEntryIsNil(heap: Heap, ls: Crew, t: Conn)
    requires EntriesOk(heap, ls) && TakersDiffer(ls) && t < |ls|
    requires ls[t].client.Some? && !ls[t].linked && ls[t].room.Some? && ls[t].room.value < |heap|
    requires ls[t].client.value in heap[ls[t].room.value].c2h
    ensures heap[ls[t].room.value].c2h[ls[t].client.value] == None
  {
    assert EntryOk(heap, ls, ls[t].room.value, ls[t].client.value);
  }

  lemma LinkKeepsThreads(heap: Heap, ls: Crew, t: Conn)
    requires ThreadsOk(heap, ls) && t < |ls|
    requires ls[t].role == HostData && ls[t].client.Some? && !ls[t].linked && ls[t].room.Some?
             && ls[t].room.value < |heap|
    requires ls[t].client.value in heap[ls[t].room.value].c2h && heap[ls[t].room.value].c2h[ls[t].client.value] == None
    ensures ThreadsOk(heap[ls[t].room.value := Link(heap[ls[t].room.value], ls[t].client.value, t)],
            ls[t := ls[t].(linked := true)])
  {
    var id, ls' := ls[t].room.value, ls[t := ls[t].(linked := true)];
    var heap' := heap[id := Link(heap[id], ls[t].client.value, t)];
    forall u: Conn | u < |ls|
      ensures ThreadOk(heap', ls', ls'[u], u)
    {
      assert ThreadOk(heap, ls, ls[u], u);
    }
  }

  lemma LinkKeepsCore(heap: Heap, ls: Crew, t: Conn)
    requires Core(heap, ls) && t < |ls|
    requires ls[t].role == HostData && ls[t].client.Some? && !ls[t].linked && ls[t].room.Some?
             && ls[t].room.value < |heap|
    requires ls[t].client.value in heap[ls[t].room.value].c2h
    ensures Core(heap[ls[t].room.value := Link(heap[ls[t].room.value], ls[t].client.value, t)],
            ls[t := ls[t].(linked := true)])
  {
    TakenEntryIsNil(heap, ls, t);
    LinkKeepsThreads(heap, ls, t);
  }

  lemma MirrorKeepsThreads(heap: Heap, ls: Crew, t: Conn)
    requires ThreadsOk(heap, ls) && t < |ls|
    requires ls[t].role == HostData && ls[t].linked && !ls[t].mirrored
    requires ls[t].client.Some? && ls[t].room.Some? && ls[t].room.value < |heap|
    ensures ThreadsOk(heap[ls[t].room.value := Mirror(heap[ls[t].room.value], t, ls[t].client.value)],
            ls[t := ls[t].(mirrored := true)])
  {
    var id, ls' := ls[t].room.value, ls[t := ls[t].(mirrored := true)];
    var heap' := heap[id := Mirror(heap[id], t, ls[t].client.value)];
    forall u: Conn | u < |ls|
      ensures ThreadOk(heap', ls', ls'[u], u)
    {
      assert ThreadOk(heap, ls, ls[u], u);
    }
  }

  lemma MirrorKeepsRooms(heap: Heap, ls: Crew, t: Conn)
    requires RequestsOk(heap, ls) && EntriesOk(heap, ls) && MirrorsOk(heap, ls) && SeatsOk(heap, ls) && t < |ls|
    requires ls[t].role == HostData && ls[t].client.Some? && ls[t].room.Some? && ls[t].room.value < |heap|
    ensures var heap' := heap[ls[t].room.value := Mirror(heap[ls[t].room.value], t, ls[t].client.value)];
            var ls' := ls[t := ls[t].(mirrored := true)];
            RequestsOk(heap', ls') && EntriesOk(heap', ls') && MirrorsOk(heap', ls') && SeatsOk(heap', ls')
  {
  }

  lemma MirrorKeepsCore(heap: Heap, ls: Crew, t: Conn)
    requires Core(heap, ls) && t < |ls|
    requires ls[t].role == HostData && ls[t].linked && !ls[t].mirrored
    requires ls[t].client.Some? && ls[t].room.Some? && ls[t].room.value < |heap|
    ensures Core(heap[ls[t].room.value := Mirror(heap[ls[t].room.value], t, ls[t].client.value)],
            ls[t := ls[t].(mirrored := true)])
  {
    MirrorKeepsRooms(heap, ls, t);
    MirrorKeepsThreads(heap, ls, t);
  }

  /** What a poll finds in any room is the link of the client's own room. */
  lemma PartnerKeepsCore(heap: Heap, ls: Crew, t: Conn, seen: RoomId)
    requires Core(heap, ls) && t < |ls| && seen < |heap|
    requires ls[t].role == ClientData && t in heap[seen].c2h && heap[seen].c2h[t].Some?
    ensures Core(heap, ls[t := ls[t].(partner := heap[seen].c2h[t])])
  {
  }

  lemma DataPartnerKeepsCore(heap: Heap, ls: Crew, t: Conn, seen: RoomId)
    requires Core(heap, ls) && t < |ls| && seen < |heap|
    requires ls[t].role == HostData && t in heap[seen].h2c
    ensures Core(heap, ls[t := ls[t].(partner := Some(heap[seen].h2c[t]))])
  {
  }

  lemma SeatKeepsCore(heap: Heap, ls: Crew, t: Conn, r: RoomId, now: int)
    requires Core(heap, ls) && t < |ls| && r < |heap|
    requires ls[t].role == HostSignal && ls[t].room.None? && heap[r].host.None?
    ensures Core(heap[r := Seat(heap[r], t, now)], ls[t := ls[t].(room := Some(r))])
  {
  }

  // ---- Program counters ----

  predicate Signals(l: Locals) {
    l.role == HostSignal || l.role == ClientSignal
  }

  /** A handler that has written nothing yet. */
  predicate Unwritten(l: Locals, role: Role) {
    l.role == role && !l.asked && !l.listed && l.client.None? && !l.linked && !l.mirrored && l.partner.None?
  }

  /** How far a handler has got, by its program counter. */
  predicate PcOk(l: Locals, pc: Pc) {
    match pc
    case Gate => l == StartLocals(l.role, l.code, l.name) && StartPc(l.role) == Gate
    case Enter => Unwritten(l, ClientData) || Signals(l)
    case Client(p) =>
      (match p
       case Listing => l.role == ClientData && l.asked && !l.listed && l.partner.None?
       case Asking => l.role == ClientData && l.listed && l.partner.None?
       case _ => Unwritten(l, ClientData))
    case Poll(_) => l.role == ClientData && l.listed && l.partner.None?
    case Sweep(_) => l.role == ClientData && l.listed
    case Data(p) =>
      && l.role == HostData && l.partner.None?
      && (match p
          case TakeFind => Unwritten(l, HostData)
          case Taking => Unwritten(l, HostData)
          case Linking => l.client.Some? && !l.linked
          case Mirroring => l.linked && !l.mirrored
          case Touching => l.mirrored)
    case Seek(_) => l.role == HostData && l.mirrored && l.partner.None?
    case Signal(p) =>
      (match p
       case Join => Unwritten(l, HostSignal) && l.room.None?
       case SignalFind => Signals(l)
       case SignalHost(_) => l.role == ClientSignal)
    case Serve(p) => if p.Registering? then l.role == ClientSignal else Signals(l)
    case Exit(p) =>
      (match p
       case Forwarding => (l.role == ClientData || l.role == HostData) && l.partner.Some?
       case Leave => l.role == ClientData || Signals(l)
       case Bailed => Signals(l)
       case Finished(_) => l.role != GhostCleaner && l.role != IdleCleaner
       case _ => l.role == ClientData || l.role == HostData || Signals(l))
    case Create(p) => if p.DrawCode? then l.role == FreshCreator else l.role == ReuseCreator
    case Clean(p) => if p.GhostScan? || p.GhostPrune? then l.role == GhostCleaner else l.role == IdleCleaner
  }

  /**
   The link and its mirror are two steps apart; a data thread that took a client and did not
   link it is about to, or gave up.
   */
  predicate ProgressOk(l: Locals, pc: Pc) {
    && (l.mirrored ==> l.linked)
    && (l.linked ==> l.client.Some?)
    && (l.linked && !l.mirrored ==> pc == Data(Mirroring))
    && (l.role == HostData && l.client.Some? && !l.linked ==> pc == Data(Linking) || pc == DONE)
  }

  /** A creator about to re-bind a code holds a token that was issued for it. */
  predicate Holding(l: Locals, pc: Pc, issued: set<Code>) {
    pc.Create? && (pc.create.Evicting? || pc.create.Rebind?) ==> l.code in issued && l.code != LUCKY_CODE
  }

  ghost predicate HandlerOk(l: Locals, pc: Pc, rooms: nat, issued: set<Code>) {
    PcWired(l, pc, rooms) && PcOk(l, pc) && ProgressOk(l, pc) && Holding(l, pc, issued)
  }

  ghost predicate HandlersOk(s: Sys)
    requires |s.locals| == |s.pcs|
  {
    forall t: Conn :: t < |s.pcs| ==> HandlerOk(s.locals[t], s.pcs[t], |s.shared.heap|, s.shared.issued)
  }

  /** Only six-digit codes are ever bound or issued. */
  ghost predicate CodesOk(shared: Shared) {
    && (forall code :: code in shared.table ==> IsCode(code))
    && (forall code :: code in shared.issued ==> IsCode(code))
  }

  /** The part of the invariant that looks at one thread at a time. */
  ghost predicate Local(s: Sys) {
    Valid(s) && CodesOk(s.shared) && HandlersOk(s)
  }

  ghost predicate Inv(s: Sys) {
    Local(s) && Core(s.shared.heap, s.locals)
  }

  // ---- Every step keeps the local part ----

  /** One thread moves, room ids and issued codes only accumulate: nobody else notices. */
  lemma OneThreadMoves(s: Sys, s': Sys, t: Conn)
    requires Local(s) && t < |s.pcs|
    requires Moves(s, s', t)
    requires |s.shared.heap| <= |s'.shared.heap| && s.shared.issued <= s'.shared.issued
    requires Wired(s'.shared) && CodesOk(s'.shared) && LostWired(s')
    requires HandlerOk(s'.locals[t], s'.pcs[t], |s'.shared.heap|, s'.shared.issued)
    ensures Local(s')
  {
    forall u: Conn | u < |s.pcs|
      ensures HandlerOk(s'.locals[u], s'.pcs[u], |s'.shared.heap|, s'.shared.issued)
    {
      assert HandlerOk(s.locals[u], s.pcs[u], |s.shared.heap|, s.shared.issued);
    }
  }

  /** The same for the steps that leave the table alone. */
  lemma OneHandlerMoves(s: Sys, s': Sys, t: Conn)
    requires Local(s) && t < |s.pcs|
    requires Moves(s, s', t)
    requires KeepsTable(s, s') && LostWired(s')
    requires HandlerOk(s'.locals[t], s'.pcs[t], |s'.shared.heap|, s'.shared.issued)
    ensures Local(s')
  {
    OneThreadMoves(s, s', t);
  }

  lemma GateKeepsLocal(s: Sys, t: Conn)
    requires Local(s) && t < |s.pcs| && s.pcs[t].Gate?
    ensures Local(GateStep(s, t))
  {
    assert HandlerOk(s.locals[t], s.pcs[t], |s.shared.heap|, s.shared.issued);
    OneHandlerMoves(s, GateStep(s, t), t);
  }

  lemma EnterKeepsLocal(s: Sys, t: Conn)
    requires Local(s) && t < |s.pcs| && s.pcs[t].Enter?
    ensures Local(EnterStep(s, t))
  {
    assert HandlerOk(s.locals[t], s.pcs[t], |s.shared.heap|, s.shared.issued);
    OneHandlerMoves(s, EnterStep(s, t), t);
  }

  lemma ClientKeepsLocal(s: Sys, t: Conn, ch: Choice)
    requires Local(s) && t < |s.pcs| && s.pcs[t].Client?
    ensures Local(ClientStep(s, t, ch))
  {
    assert HandlerOk(s.locals[t], s.pcs[t], |s.shared.heap|, s.shared.issued);
    OneHandlerMoves(s, ClientStep(s, t, ch), t);
  }

  lemma PollKeepsLocal(s: Sys, t: Conn, ch: Choice)
    requires Local(s) && t < |s.pcs| && s.pcs[t].Poll?
    ensures Local(PollStep(s, t, ch))
  {
    assert HandlerOk(s.locals[t], s.pcs[t], |s.shared.heap|, s.shared.issued);
    OneHandlerMoves(s, PollStep(s, t, ch), t);
  }

  lemma SweepKeepsLocal(s: Sys, t: Conn)
    requires Local(s) && t < |s.pcs| && s.pcs[t].Sweep?
    ensures Local(SweepStep(s, t))
  {
    assert HandlerOk(s.locals[t], s.pcs[t], |s.shared.heap|, s.shared.issued);
    OneHandlerMoves(s, SweepStep(s, t), t);
  }

  lemma DataKeepsLocal(s: Sys, t: Conn, ch: Choice)
    requires Local(s) && t < |s.pcs| && s.pcs[t].Data?
    ensures Local(DataStep(s, t, ch))
  {
    assert HandlerOk(s.locals[t], s.pcs[t], |s.shared.heap|, s.shared.issued);
    OneHandlerMoves(s, DataStep(s, t, ch), t);
  }

  lemma SeekKeepsLocal(s: Sys, t: Conn)
    requires Local(s) && t < |s.pcs| && s.pcs[t].Seek?
    ensures Local(SeekStep(s, t))
  {
    assert HandlerOk(s.locals[t], s.pcs[t], |s.shared.heap|, s.shared.issued);
    OneHandlerMoves(s, SeekStep(s, t), t);
  }

  lemma SignalKeepsLocal(s: Sys, t: Conn, ch: Choice)
    requires Local(s) && t < |s.pcs| && s.pcs[t].Signal?
    ensures Local(SignalStep(s, t, ch))
  {
    assert HandlerOk(s.locals[t], s.pcs[t], |s.shared.heap|, s.shared.issued);
    OneHandlerMoves(s, SignalStep(s, t, ch), t);
  }

  lemma ActingKeepsLocal(s: Sys, t: Conn, ch: Choice)
    requires Local(s) && t < |s.pcs| && s.pcs[t].Serve? && s.pcs[t].serve.Acting?
    ensures LostWired(ServeStep(s, t, ch))
    ensures HandlerOk(ServeStep(s, t, ch).locals[t], ServeStep(s, t, ch).pcs[t], |s.shared.heap|, s.shared.issued)
  {
    assert HandlerOk(s.locals[t], s.pcs[t], |s.shared.heap|, s.shared.issued);
  }

  lemma ServeKeepsLocal(s: Sys, t: Conn, ch: Choice)
    requires Local(s) && t < |s.pcs| && s.pcs[t].Serve?
    ensures Local(ServeStep(s, t, ch))
  {
    assert HandlerOk(s.locals[t], s.pcs[t], |s.shared.heap|, s.shared.issued);
    if s.pcs[t].serve.Acting? {
      ActingKeepsLocal(s, t, ch);
    }
    OneHandlerMoves(s, ServeStep(s, t, ch), t);
  }

  lemma ExitKeepsLocal(s: Sys, t: Conn, ch: Choice)
    requires Local(s) && t < |s.pcs| && s.pcs[t].Exit?
    ensures Local(ExitStep(s, t, ch))
  {
    assert HandlerOk(s.locals[t], s.pcs[t], |s.shared.heap|, s.shared.issued);
    OneThreadMoves(s, ExitStep(s, t, ch), t);
  }

  lemma CreateKeepsLocal(s: Sys, t: Conn, ch: Choice)
    requires Local(s) && t < |s.pcs| && s.pcs[t].Create?
    ensures Local(CreateStep(s, t, ch))
  {
    assert HandlerOk(s.locals[t], s.pcs[t], |s.shared.heap|, s.shared.issued);
    OneThreadMoves(s, CreateStep(s, t, ch), t);
  }

  lemma CleanKeepsLocal(s: Sys, t: Conn, ch: Choice)
    requires Local(s) && t < |s.pcs| && s.pcs[t].Clean?
    ensures Local(CleanStep(s, t, ch))
  {
    assert HandlerOk(s.locals[t], s.pcs[t], |s.shared.heap|, s.shared.issued);
    OneThreadMoves(s, CleanStep(s, t, ch), t);
  }

  // ---- Every step keeps the core ----

  ghost predicate CoreOf(s: Sys) {
    Core(s.shared.heap, s.locals)
  }

  lemma ClientKeepsCore(s: Sys, t: Conn, ch: Choice)
    requires Inv(s) && t < |s.pcs| && s.pcs[t].Client?
    ensures CoreOf(ClientStep(s, t, ch))
  {
    var heap, ls, l := s.shared.heap, s.locals, s.locals[t];
    assert HandlerOk(l, s.pcs[t], |heap|, s.shared.issued);
    match s.pcs[t].client
    case FindRoom =>
      if l.code in s.shared.table {
        CaptureKeepsCore(heap, ls, t, l.(room := Some(s.shared.table[l.code])));
      }
    case ReadHost => CaptureKeepsCore(heap, ls, t, l.(name := RequestName(ch.draw % 9_999_999, l.code)));
    case Filing => FileKeepsCore(heap, ls, t);
    case Listing => ListKeepsCore(heap, ls, t);
    case Asking =>
  }

  lemma PollKeepsCore(s: Sys, t: Conn, ch: Choice)
    requires Inv(s) && t < |s.pcs| && s.pcs[t].Poll?
    ensures CoreOf(PollStep(s, t, ch))
  {
    var heap := s.shared.heap;
    assert HandlerOk(s.locals[t], s.pcs[t], |heap|, s.shared.issued);
    match s.pcs[t].poll
    case PollPartner(seen) =>
      if t in heap[seen].c2h && heap[seen].c2h[t].Some? {
        PartnerKeepsCore(heap, s.locals, t, seen);
      }
    case _ =>
  }

  lemma SweepKeepsCore(s: Sys, t: Conn)
    requires Inv(s) && t < |s.pcs| && s.pcs[t].Sweep?
    ensures CoreOf(SweepStep(s, t))
  {
    match s.pcs[t].sweep
    case SweepDelete(seen) => DropKeepsCore(s.shared.heap, s.locals, seen, s.locals[t].name);
    case _ =>
  }

  lemma DataKeepsCore(s: Sys, t: Conn, ch: Choice)
    requires Inv(s) && t < |s.pcs| && s.pcs[t].Data?
    ensures CoreOf(DataStep(s, t, ch))
  {
    var heap, ls, l := s.shared.heap, s.locals, s.locals[t];
    assert HandlerOk(l, s.pcs[t], |heap|, s.shared.issued);
    match s.pcs[t].data
    case TakeFind =>
      if l.code in s.shared.table {
        CaptureKeepsCore(heap, ls, t, l.(room := Some(s.shared.table[l.code])));
      }
    case Taking =>
      if l.name in heap[l.room.value].requests {
        TakeKeepsCore(heap, ls, t);
      }
    case Linking =>
      if l.client.value in heap[l.room.value].c2h {
        LinkKeepsCore(heap, ls, t);
      }
    case Mirroring => MirrorKeepsCore(heap, ls, t);
    case Touching => TouchKeepsCore(heap, ls, l.room.value, Touch(heap[l.room.value], ch.now));
  }

  lemma SeekKeepsCore(s: Sys, t: Conn)
    requires Inv(s) && t < |s.pcs| && s.pcs[t].Seek?
    ensures CoreOf(SeekStep(s, t))
  {
    var heap := s.shared.heap;
    assert HandlerOk(s.locals[t], s.pcs[t], |heap|, s.shared.issued);
    match s.pcs[t].seek
    case SeekRoom =>
    case SeekPartner(seen) =>
      if t in heap[seen].h2c {
        DataPartnerKeepsCore(heap, s.locals, t, seen);
      }
  }

  lemma SignalKeepsCore(s: Sys, t: Conn, ch: Choice)
    requires Inv(s) && t < |s.pcs| && s.pcs[t].Signal?
    ensures CoreOf(SignalStep(s, t, ch))
  {
    var l := s.locals[t];
    assert HandlerOk(l, s.pcs[t], |s.shared.heap|, s.shared.issued);
    match s.pcs[t].signal
    case Join =>
      if l.code in s.shared.table && s.shared.heap[s.shared.table[l.code]].host.None? {
        SeatKeepsCore(s.shared.heap, s.locals, t, s.shared.table[l.code], ch.now);
      }
    case _ =>
  }

  lemma ServeKeepsCore(s: Sys, t: Conn, ch: Choice)
    requires Inv(s) && t < |s.pcs| && s.pcs[t].Serve?
    ensures CoreOf(ServeStep(s, t, ch))
  {
    match s.pcs[t].serve
    case Registering(seen, id) => TouchKeepsCore(s.shared.heap, s.locals, seen, Route(s.shared.heap[seen], id, t));
    case _ =>
  }

  /** Cleanups and cleaners touch the table only. */
  lemma UnbindingKeepsHeap(s: Sys, t: Conn, ch: Choice)
    requires Valid(s) && t < |s.pcs| && (s.pcs[t].Exit? || s.pcs[t].Clean?)
    ensures Exec(s, t, ch).shared.heap == s.shared.heap && Exec(s, t, ch).locals == s.locals
  {
  }

  /** A creator adds an empty room, if anything. */
  lemma CreationKeepsHeap(s: Sys, t: Conn, ch: Choice)
    requires Valid(s) && t < |s.pcs| && s.pcs[t].Create?
    ensures Exec(s, t, ch).locals == s.locals
    ensures Exec(s, t, ch).shared.heap == s.shared.heap
            || Exec(s, t, ch).shared.heap == s.shared.heap + [EmptyRoom(ch.now)]
  {
  }

  lemma TableStepsKeepCore(s: Sys, t: Conn, ch: Choice)
    requires Inv(s) && t < |s.pcs|
    requires s.pcs[t].Exit? || s.pcs[t].Create? || s.pcs[t].Clean?
    ensures CoreOf(Exec(s, t, ch))
  {
    if s.pcs[t].Create? {
      CreationKeepsHeap(s, t, ch);
      NewRoomKeepsCore(s.shared.heap, s.locals, ch.now);
    } else {
      UnbindingKeepsHeap(s, t, ch);
    }
  }

  lemma SpawnKeepsInv(s: Sys, role: Role, code: Code, name: string)
    requires Inv(s)
    ensures Inv(Do(s, Spawn(role, code, name)))
  {
    SpawnKeepsCore(s.shared.heap, s.locals, role, code, name);
    var s' := Do(s, Spawn(role, code, name));
    forall u: Conn | u < |s'.pcs|
      ensures HandlerOk(s'.locals[u], s'.pcs[u], |s'.shared.heap|, s'.shared.issued)
    {
      if u < |s.pcs| {
        assert HandlerOk(s.locals[u], s.pcs[u], |s.shared.heap|, s.shared.issued);
      }
    }
  }

  lemma StepKeepsLocal(s: Sys, t: Conn, ch: Choice)
    requires Local(s) && t < |s.pcs|
    ensures Local(Exec(s, t, ch))
  {
    match s.pcs[t]
    case Gate => GateKeepsLocal(s, t);
    case Enter => EnterKeepsLocal(s, t);
    case Client(_) => ClientKeepsLocal(s, t, ch);
    case Poll(_) => PollKeepsLocal(s, t, ch);
    case Sweep(_) => SweepKeepsLocal(s, t);
    case Data(_) => DataKeepsLocal(s, t, ch);
    case Seek(_) => SeekKeepsLocal(s, t);
    case Signal(_) => SignalKeepsLocal(s, t, ch);
    case Serve(_) => ServeKeepsLocal(s, t, ch);
    case Exit(_) => ExitKeepsLocal(s, t, ch);
    case Create(_) => CreateKeepsLocal(s, t, ch);
    case Clean(_) => CleanKeepsLocal(s, t, ch);
  }

  lemma StepKeepsCore(s: Sys, t: Conn, ch: Choice)
    requires Inv(s) && t < |s.pcs|
    ensures CoreOf(Exec(s, t, ch))
  {
    match s.pcs[t]
    case Gate =>
    case Enter =>
    case Client(_) => ClientKeepsCore(s, t, ch);
    case Poll(_) => PollKeepsCore(s, t, ch);
    case Sweep(_) => SweepKeepsCore(s, t);
    case Data(_) => DataKeepsCore(s, t, ch);
    case Seek(_) => SeekKeepsCore(s, t);
    case Signal(_) => SignalKeepsCore(s, t, ch);
    case Serve(_) => ServeKeepsCore(s, t, ch);
    case _ => TableStepsKeepCore(s, t, ch);
  }

  lemma RecallKeepsInv(s: Sys, code: Code)
    requires Inv(s)
    ensures Inv(Do(s, Recall(code)))
  {
  }

  /** Every step of every thread keeps the invariant. */
  lemma ActionKeepsInv(s: Sys, a: Action)
    requires Inv(s)
    ensures Inv(Do(s, a))
  {
    match a
    case Spawn(role, code, name) => SpawnKeepsInv(s, role, code, name);
    case Recall(code) => RecallKeepsInv(s, code);
    case Step(t, ch) =>
      if t < |s.pcs| {
        StepKeepsLocal(s, t, ch);
        StepKeepsCore(s, t, ch);
      }
  }

  // ---- Runs ----

  /** The state that a run, a sequence of actions, leads to. Every state on the way satisfies the invariant. */
  function After(s: Sys, run: seq<Action>): (s': Sys)
    requires Inv(s)
    ensures Inv(s')
  {
    if run == [] then s
    else
      var before := After(s, run[..|run| - 1]);
      ActionKeepsInv(before, run[|run| - 1]);
      Do(before, run[|run| - 1])
  }

  lemma InitSatisfiesInv()
    ensures Inv(INIT)
  {
  }

  /** The states reachable from a relay that has just started. */
  function Reached(run: seq<Action>): (s: Sys)
    ensures Inv(s)
  {
    InitSatisfiesInv();
    After(INIT, run)
  }

  lemma {:induction false} RunsCompose(s: Sys, run: seq<Action>, more: seq<Action>)
    requires Inv(s)
    ensures After(s, run + more) == After(After(s, run), more)
  {
    if more == [] {
      assert run + more == run;
    } else {
      var init := more[..|more| - 1];
      assert (run + more)[..|run + more| - 1] == run + init;
      RunsCompose(s, run, init);
    }
  }

  lemma AfterLast(run: seq<Action>, a: Action)
    ensures Reached(run + [a]) == Do(Reached(run), a)
  {
    assert (run + [a])[..|run|] == run;
  }

  /** A relay that restarts with the same key, when these codes have been issued before. */
  function Restarted(codes: set<Code>): Sys {
    INIT.(shared := INIT.shared.(issued := codes))
  }

  /** What holds of all runs holds of the runs after a restart, too: they begin with what earlier processes signed. */
  lemma {:induction false} RestartsAreRuns(codes: set<Code>) returns (run: seq<Action>)
    requires forall code :: code in codes ==> IsCode(code)
    ensures Reached(run) == Restarted(codes)
    ensures forall more :: Reached(run + more) == After(Reached(run), more)
    decreases |codes|
  {
    InitSatisfiesInv();
    if code :| code in codes {
      var rest := RestartsAreRuns(codes - {code});
      run := rest + [Recall(code)];
      AfterLast(rest, Recall(code));
      assert codes - {code} + {code} == codes;
    } else {
      run := [];
    }
    forall more ensures Reached(run + more) == After(Reached(run), more) {
      RunsCompose(INIT, run, more);
    }
  }
}
