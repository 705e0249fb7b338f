/**
 The lock operations of a handler in the transition system, step by step, and the paths of the
 lock system: every handler of every run goes along one of those paths.
 */
module LockTraces {
  import opened Options
  import opened Store
  import opened Protocol
  import opened Invariant
  import L = Locks
  import P = LockPaths

  type Piece = P.Piece

  function Reading(lock: L.Lock): Piece {
    P.Section(lock, L.Read)
  }

  function Writing(lock: L.Lock): Piece {
    P.Section(lock, L.Write)
  }

  function If(condition: bool, piece: Piece): seq<Piece> {
    if condition then [piece] else []
  }

  const ROOMS := Reading(L.RoomsMu)

  // ---- What one step locks ----

  predicate Missing(s: Sys, t: Conn)
    requires t < |s.locals|
  {
    s.locals[t].code !in s.shared.table
  }

  function ClientPieces(s: Sys, t: Conn): seq<Piece>
    requires Valid(s) && t < |s.pcs| && s.pcs[t].Client?
  {
    var l := s.locals[t];
    assert PcWired(l, s.pcs[t], |s.shared.heap|);
    match s.pcs[t].client
    case FindRoom => [ROOMS] + If(Missing(s, t), P.CLOSE)
    case ReadHost => If(s.shared.heap[l.room.value].host.None?, P.CLOSE)
    case Filing => [Writing(L.RequestsMu(l.room.value))]
    case Listing => [Writing(L.ClientsMu(l.room.value))]
    case Asking => If(l.room.value !in s.lost, Writing(L.HostMu(l.room.value)))
  }

  function PollPieces(p: PollPc): seq<Piece> {
    match p
    case PollRoom => [ROOMS]
    case PollHost(_) => []
    case PollPartner(seen) => [Reading(L.ClientsMu(seen))]
  }

  function SweepPieces(p: SweepPc): seq<Piece> {
    match p
    case SweepFind => [ROOMS]
    case SweepCheck(seen) => [Reading(L.RequestsMu(seen))]
    case SweepDelete(seen) => [Writing(L.RequestsMu(seen))]
  }

  function DataPieces(s: Sys, t: Conn): seq<Piece>
    requires Valid(s) && t < |s.pcs| && s.pcs[t].Data?
  {
    var l := s.locals[t];
    assert PcWired(l, s.pcs[t], |s.shared.heap|);
    match s.pcs[t].data
    case TakeFind => [ROOMS] + If(Missing(s, t), P.CLOSE)
    case Taking => [Writing(L.RequestsMu(l.room.value))] + If(l.name !in s.shared.heap[l.room.value].requests, P.CLOSE)
    case Linking => [Writing(L.ClientsMu(l.room.value))]
      + If(l.client.value !in s.shared.heap[l.room.value].c2h, P.CLOSE)
    case Mirroring => [Writing(L.HostsMu(l.room.value))]
    case Touching => []
  }

  /** The partner is read under the other map's lock, as in the code. */
  function SeekPieces(p: SeekPc): seq<Piece> {
    match p
    case SeekRoom => [ROOMS]
    case SeekPartner(seen) => [Reading(L.ClientsMu(seen))]
  }

  function SignalPieces(s: Sys, t: Conn): seq<Piece>
    requires Valid(s) && t < |s.pcs| && s.pcs[t].Signal?
  {
    var l := s.locals[t];
    assert PcWired(l, s.pcs[t], |s.shared.heap|);
    match s.pcs[t].signal
    case Join => [Writing(L.RoomsMu)] + If(Missing(s, t) || s.shared.heap[s.shared.table[l.code]].host.Some?, P.CLOSE)
    case SignalFind => [ROOMS] + If(Missing(s, t) && l.role == ClientSignal, P.CLOSE)
    case SignalHost(seen) => If(!s.shared.heap[seen].hasHost, P.CLOSE)
  }

  /** What handling a packet in room seen comes to. */
  function PacketPathOf(s: Sys, role: Role, seen: RoomId, packet: Packet): P.PacketPath
    requires seen < |s.shared.heap|
  {
    if !TakesHostMu(role, packet) then P.Quiet
    else if packet[0] != PING && s.shared.heap[seen].host.None? then P.NilHost(seen)
    else P.UnderHostMu(seen)
  }

  function ServePieces(s: Sys, t: Conn): seq<Piece>
    requires Valid(s) && t < |s.pcs| && s.pcs[t].Serve?
  {
    assert PcWired(s.locals[t], s.pcs[t], |s.shared.heap|);
    match s.pcs[t].serve
    case Received(_) => [ROOMS]
    case Acting(seen, packet) =>
      if TakesHostMu(s.locals[t].role, packet) && seen in s.lost then []
      else P.PacketOps(PacketPathOf(s, s.locals[t].role, seen, packet))[1..]
    case _ => []
  }

  /** The cleanup of this handler, as it begins. */
  function CleanupPathOf(s: Sys, t: Conn): P.CleanupPath
    requires Valid(s) && t < |s.pcs|
  {
    if Missing(s, t) then P.RoomGone
    else
      var id := s.shared.table[s.locals[t].code];
      if s.shared.heap[id].host == Some(t) then P.HostLeft(0) else P.PartnerLeft(id, 0)
  }

  function ExitPieces(s: Sys, t: Conn, ch: Choice): seq<Piece>
    requires Valid(s) && t < |s.pcs| && s.pcs[t].Exit?
  {
    match s.pcs[t].exit
    case Cleanup => [P.CleanupSection(CleanupPathOf(s, t))]
    case Closing(_, left) => If(ch.pick in left, P.CLOSE)
    case _ => []
  }

  /** The section on the used salts comes before the creator's first step. */
  function CreatePieces(p: CreatePc): seq<Piece> {
    match p
    case Evicting(_) => [P.CLOSE]
    case Rebind => [Writing(L.RoomsMu)]
    case _ => [Writing(L.UsedSaltsMu), Writing(L.RoomsMu)]
  }

  function CleanPieces(p: CleanPc, ch: Choice): seq<Piece> {
    match p
    case GhostScan => [ROOMS]
    case GhostPrune(stale) => If(stale != {}, Writing(L.RoomsMu))
    case IdleScan => [ROOMS]
    case IdleDelete(codes, _) => If(codes != {}, Writing(L.RoomsMu))
    case IdleClose(hosts) => If(ch.pick.conn in hosts, P.CLOSE)
  }

  function StepPieces(s: Sys, t: Conn, ch: Choice): seq<Piece>
    requires Valid(s) && t < |s.pcs|
  {
    match s.pcs[t]
    case Gate =>
      var forClient := s.locals[t].role == ClientData || s.locals[t].role == ClientSignal;
      [ROOMS] + If(Missing(s, t) && forClient, Reading(L.RecentlyDeletedMu)) + If(Missing(s, t), P.CLOSE)
    case Enter => []
    case Client(_) => ClientPieces(s, t)
    case Poll(p) => PollPieces(p)
    case Sweep(p) => SweepPieces(p)
    case Data(_) => DataPieces(s, t)
    case Seek(p) => SeekPieces(p)
    case Signal(_) => SignalPieces(s, t)
    case Serve(_) => ServePieces(s, t)
    case Exit(_) => ExitPieces(s, t, ch)
    case Create(p) => CreatePieces(p)
    case Clean(p) => CleanPieces(p, ch)
  }

  /** The pieces of handler t along a run. */
  ghost function Trace(run: seq<Action>, t: Conn): seq<Piece> {
    if run == [] then []
    else
      var before, last := Reached(run[..|run| - 1]), run[|run| - 1];
      Trace(run[..|run| - 1], t) +
      (if last.Step? && last.t == t && t < |before.pcs| then StepPieces(before, t, last.ch) else [])
  }

  // ---- Where a handler is on its path ----

  /** What a client has done once it has asked the host. */
  function Asked(room: RoomId): seq<Piece> {
    [ROOMS, ROOMS] + P.AskOps(room)
  }

  function SignalIn(role: Role): seq<Piece> {
    if role == HostSignal then [ROOMS, Writing(L.RoomsMu), ROOMS] else [ROOMS, ROOMS]
  }

  predicate NoneUnwinds(ps: seq<P.PacketPath>) {
    forall k :: 0 <= k < |ps| ==> !P.Unwinds(ps[k])
  }

  predicate ClientAt(l: Locals, p: ClientPc, e: seq<Piece>) {
    match p
    case FindRoom => e == [ROOMS]
    case ReadHost => e == [ROOMS, ROOMS]
    case Filing => e == [ROOMS, ROOMS]
    case Listing => l.room.Some? && e == [ROOMS, ROOMS, Writing(L.RequestsMu(l.room.value))]
    case Asking => l.room.Some? && e == [ROOMS, ROOMS] + P.FileOps(l.room.value)
  }

  ghost predicate PollAt(l: Locals, p: PollPc, e: seq<Piece>) {
    l.room.Some? && exists ps :: e == Asked(l.room.value) + P.PollsOps(ps) + If(!p.PollRoom?, ROOMS)
  }

  ghost predicate SweepAt(l: Locals, p: SweepPc, e: seq<Piece>) {
    l.room.Some? &&
    exists ps ::
      e == Asked(l.room.value) + P.PollsOps(ps) +
           (match p
            case SweepFind => []
            case SweepCheck(_) => [ROOMS]
            case SweepDelete(seen) => [ROOMS, Reading(L.RequestsMu(seen))])
  }

  predicate DataAt(l: Locals, p: DataPc, e: seq<Piece>) {
    if p.TakeFind? then e == [ROOMS]
    else
      l.room.Some? &&
      var r := l.room.value;
      e == [ROOMS, ROOMS] +
           (match p
            case Taking => []
            case Linking => [Writing(L.RequestsMu(r))]
            case Mirroring => [Writing(L.RequestsMu(r)), Writing(L.ClientsMu(r))]
            case _ => [Writing(L.RequestsMu(r)), Writing(L.ClientsMu(r)), Writing(L.HostsMu(r))])
  }

  predicate SeekAt(l: Locals, p: SeekPc, e: seq<Piece>) {
    && l.room.Some?
    && e == [ROOMS, ROOMS, Writing(L.RequestsMu(l.room.value)), Writing(L.ClientsMu(l.room.value)),
         Writing(L.HostsMu(l.room.value))]
            + If(p.SeekPartner?, ROOMS)
  }

  predicate SignalAt(l: Locals, p: SignalPc, e: seq<Piece>) {
    match p
    case Join => e == [ROOMS]
    case SignalFind => e == [ROOMS] + If(l.role == HostSignal, Writing(L.RoomsMu))
    case SignalHost(_) => e == [ROOMS, ROOMS]
  }

  ghost predicate ServeAt(l: Locals, p: ServePc, e: seq<Piece>) {
    exists ps :: NoneUnwinds(ps) && e == SignalIn(l.role) + P.Served(ps) + If(p.Acting?, ROOMS)
  }

  /** Up to its cleanup. */
  ghost predicate AtCleanup(e: seq<Piece>) {
    exists p :: P.HasCleanup(p) && e == P.Head(p)
  }

  ghost predicate InCleanup(e: seq<Piece>) {
    exists p, c, k: nat :: P.HasCleanup(p) && IsClosingPath(c) && e == P.Head(p) + [P.CleanupSection(c)] + P.Closes(k)
  }

  predicate IsClosingPath(c: P.CleanupPath) {
    !c.RoomGone?
  }

  ghost predicate AtEnd(e: seq<Piece>) {
    exists p :: e == P.Ops(p)
  }

  ghost predicate ExitAt(p: ExitPc, e: seq<Piece>) {
    match p
    case Closing(_, _) => InCleanup(e)
    case Finished(_) => AtEnd(e)
    case Bailed => AtEnd(e)
    case _ => AtCleanup(e)
  }

  predicate CreateAt(p: CreatePc, e: seq<Piece>) {
    match p
    case Evicting(_) => e == [Writing(L.UsedSaltsMu), Writing(L.RoomsMu)]
    case Rebind => e == [Writing(L.UsedSaltsMu), Writing(L.RoomsMu), P.CLOSE]
    case _ => e == []
  }

  /** In the middle of a round of the idle cleaner, after this much of it. */
  ghost predicate RoundAt(round: seq<Piece>, e: seq<Piece>) {
    exists ticks :: e == P.TicksOps(ticks) + round
  }

  ghost predicate CleanAt(p: CleanPc, e: seq<Piece>) {
    match p
    case GhostScan => RoundAt([], e)
    case IdleScan => RoundAt([], e)
    case GhostPrune(_) => RoundAt([ROOMS], e)
    case IdleDelete(codes, hosts) => RoundAt([ROOMS], e) && (codes == {} ==> hosts == {})
    case IdleClose(hosts) =>
      || (hosts == {} && RoundAt([ROOMS], e))
      || exists n: nat :: RoundAt([ROOMS, Writing(L.RoomsMu)] + P.Closes(n), e)
  }

  ghost predicate OnPath(l: Locals, pc: Pc, e: seq<Piece>) {
    match pc
    case Gate => e == []
    case Enter => e == [ROOMS] + If(l.role == HostSignal, Writing(L.RoomsMu))
    case Client(p) => ClientAt(l, p, e)
    case Poll(p) => PollAt(l, p, e)
    case Sweep(p) => SweepAt(l, p, e)
    case Data(p) => DataAt(l, p, e)
    case Seek(p) => SeekAt(l, p, e)
    case Signal(p) => SignalAt(l, p, e)
    case Serve(p) => ServeAt(l, p, e)
    case Exit(p) => ExitAt(p, e)
    case Create(p) => CreateAt(p, e)
    case Clean(p) => CleanAt(p, e)
  }

  // ---- Every step stays on a path ----

  /** A path that ends where it is. */
  lemma Ends(p: P.Path, e: seq<Piece>)
    requires e == P.Ops(p)
    ensures AtEnd(e)
  {
  }

  lemma Reaches(p: P.Path, e: seq<Piece>)
    requires P.HasCleanup(p) && e == P.Head(p)
    ensures AtCleanup(e)
  {
  }

  lemma GateOnPath(s: Sys, t: Conn, e: seq<Piece>, ch: Choice)
    requires Local(s) && t < |s.pcs| && s.pcs[t].Gate? && e == []
    ensures OnPath(Exec(s, t, ch).locals[t], Exec(s, t, ch).pcs[t], e + StepPieces(s, t, ch))
  {
    assert HandlerOk(s.locals[t], s.pcs[t], |s.shared.heap|, s.shared.issued);
    if Missing(s, t) {
      var forClient := s.locals[t].role == ClientData || s.locals[t].role == ClientSignal;
      Ends(P.MissingRoom(forClient), e + StepPieces(s, t, ch));
    }
  }

  lemma EnterOnPath(s: Sys, t: Conn, e: seq<Piece>, ch: Choice)
    requires Local(s) && t < |s.pcs| && s.pcs[t].Enter? && OnPath(s.locals[t], s.pcs[t], e)
    ensures OnPath(Exec(s, t, ch).locals[t], Exec(s, t, ch).pcs[t], e + StepPieces(s, t, ch))
  {
    assert HandlerOk(s.locals[t], s.pcs[t], |s.shared.heap|, s.shared.issued);
    assert e + [] == e;
  }

  lemma ClientOnPath(s: Sys, t: Conn, e: seq<Piece>, ch: Choice)
    requires Local(s) && t < |s.pcs| && s.pcs[t].Client? && OnPath(s.locals[t], s.pcs[t], e)
    ensures OnPath(Exec(s, t, ch).locals[t], Exec(s, t, ch).pcs[t], e + StepPieces(s, t, ch))
  {
    var l, s', e' := s.locals[t], Exec(s, t, ch), e + StepPieces(s, t, ch);
    assert HandlerOk(l, s.pcs[t], |s.shared.heap|, s.shared.issued);
    match s.pcs[t].client
    case FindRoom =>
      if Missing(s, t) {
        Reaches(P.ClientConnection(P.ClientRefused, P.RoomGone), e');
      }
    case ReadHost =>
      if s.shared.heap[l.room.value].host.None? {
        Reaches(P.ClientConnection(P.ClientRefused, P.RoomGone), e');
      } else if !ch.ok {
        Reaches(P.ClientConnection(P.NoNumber, P.RoomGone), e');
      }
    case Filing =>
    case Listing =>
    case Asking =>
      var room := l.room.value;
      if room in s.lost {
        assert e' == e;
      } else if ch.ok {
        assert e' == Asked(room) + P.PollsOps([]) + [];
      } else {
        Reaches(P.ClientConnection(P.WriteFailed(room), P.RoomGone), e');
      }
  }

  lemma PollNext(s: Sys, t: Conn, ch: Choice)
    requires Valid(s) && t < |s.pcs| && s.pcs[t].Poll?
    ensures var l', pc' := Exec(s, t, ch).locals[t], Exec(s, t, ch).pcs[t];
            && l'.room == s.locals[t].room
            && (pc' == Sweep(SweepFind)
                || (pc'.Poll? && (pc'.poll.PollRoom? <==> s.pcs[t].poll.PollPartner?)))
  {
  }

  lemma PollOnPath(s: Sys, t: Conn, e: seq<Piece>, ch: Choice)
    requires Local(s) && t < |s.pcs| && s.pcs[t].Poll? && OnPath(s.locals[t], s.pcs[t], e)
    ensures OnPath(Exec(s, t, ch).locals[t], Exec(s, t, ch).pcs[t], e + StepPieces(s, t, ch))
  {
    PollNext(s, t, ch);
    PollGoesOn(s.locals[t], s.pcs[t].poll, e);
    assert StepPieces(s, t, ch) == PollPieces(s.pcs[t].poll);
  }

  /** Done with a poll, and gone over to the sweep or to the next one; or in the middle of one. */
  lemma PollGoesOn(l: Locals, p: PollPc, e: seq<Piece>)
    requires PollAt(l, p, e)
    ensures SweepAt(l, SweepFind, e + PollPieces(p))
    ensures !p.PollPartner? ==> forall q: PollPc :: !q.PollRoom? ==> PollAt(l, q, e + PollPieces(p))
    ensures p.PollPartner? ==> PollAt(l, PollRoom, e + PollPieces(p))
  {
    var room, e' := l.room.value, e + PollPieces(p);
    var ps :| e == Asked(room) + P.PollsOps(ps) + If(!p.PollRoom?, ROOMS);
    var q := match p
      case PollRoom => P.PollNoRoom
      case PollHost(_) => P.PollNoHost
      case PollPartner(seen) => P.PollEntry(seen);
    P.OneMorePoll(ps, q);
    assert P.PollOps(q) == If(!p.PollRoom?, ROOMS) + PollPieces(p);
    assert e' == Asked(room) + P.PollsOps(ps + [q]) + [];
    assert !p.PollPartner? ==> e' == Asked(room) + P.PollsOps(ps) + [ROOMS];
  }

  lemma SweepEnds(l: Locals, room: RoomId, ps: seq<P.PollPath>, sweep: P.SweepPath, e: seq<Piece>)
    requires e == Asked(room) + P.PollsOps(ps) + P.SweepOps(sweep)
    ensures AtCleanup(e)
  {
    var p := P.ClientConnection(P.Waited(room, ps, sweep), P.RoomGone);
    assert P.Head(p) == [ROOMS] + ([ROOMS] + (P.AskOps(room) + P.PollsOps(ps) + P.SweepOps(sweep)));
    Reaches(p, e);
  }

  lemma SweepOnPath(s: Sys, t: Conn, e: seq<Piece>, ch: Choice)
    requires Local(s) && t < |s.pcs| && s.pcs[t].Sweep? && OnPath(s.locals[t], s.pcs[t], e)
    ensures OnPath(Exec(s, t, ch).locals[t], Exec(s, t, ch).pcs[t], e + StepPieces(s, t, ch))
  {
    var l, p, e' := s.locals[t], s.pcs[t].sweep, e + StepPieces(s, t, ch);
    var room := l.room.value;
    match p
    case SweepFind =>
      var ps :| e == Asked(room) + P.PollsOps(ps) + [];
      assert e' == Asked(room) + P.PollsOps(ps) + [ROOMS];
      if Missing(s, t) {
        SweepEnds(l, room, ps, P.SweepNoRoom, e');
      }
    case SweepCheck(seen) =>
      var ps :| e == Asked(room) + P.PollsOps(ps) + [ROOMS];
      assert e' == Asked(room) + P.PollsOps(ps) + [ROOMS, Reading(L.RequestsMu(seen))];
      if l.name !in s.shared.heap[seen].requests {
        SweepEnds(l, room, ps, P.SweepAbsent(seen), e');
      }
    case SweepDelete(seen) =>
      var ps :| e == Asked(room) + P.PollsOps(ps) + [ROOMS, Reading(L.RequestsMu(seen))];
      SweepEnds(l, room, ps, P.SweepPresent(seen), e');
  }

  lemma DataNext(s: Sys, t: Conn, ch: Choice)
    requires Local(s) && t < |s.pcs| && s.pcs[t].Data?
    ensures var l, l', p, pc' := s.locals[t], Exec(s, t, ch).locals[t], s.pcs[t].data, Exec(s, t, ch).pcs[t];
            && (p.TakeFind? || (l.room.Some? && l'.room == l.room))
            && match p
               case TakeFind => if Missing(s, t) then pc' == DONE else pc' == Data(Taking) && l'.room.Some?
               case Taking => pc' == if l.name in s.shared.heap[l.room.value].requests then Data(Linking) else DONE
               case Linking => pc' == if l.client.value in s.shared.heap[l.room.value].c2h then Data(Mirroring)
                 else DONE
               case Mirroring => pc' == Data(Touching)
               case Touching => pc' == Seek(SeekRoom)
  {
    assert HandlerOk(s.locals[t], s.pcs[t], |s.shared.heap|, s.shared.issued);
  }

  lemma DataOnPath(s: Sys, t: Conn, e: seq<Piece>, ch: Choice)
    requires Local(s) && t < |s.pcs| && s.pcs[t].Data? && OnPath(s.locals[t], s.pcs[t], e)
    ensures OnPath(Exec(s, t, ch).locals[t], Exec(s, t, ch).pcs[t], e + StepPieces(s, t, ch))
  {
    var l, e' := s.locals[t], e + StepPieces(s, t, ch);
    DataNext(s, t, ch);
    assert StepPieces(s, t, ch) == DataPieces(s, t);
    match s.pcs[t].data
    case TakeFind =>
      if Missing(s, t) {
        Ends(P.DataConnection(P.DataNoRoom), e');
      }
    case Taking =>
      if l.name !in s.shared.heap[l.room.value].requests {
        Ends(P.DataConnection(P.NoRequest(l.room.value)), e');
      }
    case Linking =>
      if l.client.value !in s.shared.heap[l.room.value].c2h {
        Ends(P.DataConnection(P.NoClient(l.room.value)), e');
      }
    case Mirroring =>
    case Touching =>
  }

  lemma SeekOnPath(s: Sys, t: Conn, e: seq<Piece>, ch: Choice)
    requires Local(s) && t < |s.pcs| && s.pcs[t].Seek? && OnPath(s.locals[t], s.pcs[t], e)
    ensures OnPath(Exec(s, t, ch).locals[t], Exec(s, t, ch).pcs[t], e + StepPieces(s, t, ch))
  {
    var room, e' := s.locals[t].room.value, e + StepPieces(s, t, ch);
    match s.pcs[t].seek
    case SeekRoom =>
      if Missing(s, t) {
        Reaches(P.DataConnection(P.Paired(room, [], P.RoomGone, [])), e');
      }
    case SeekPartner(seen) =>
      Reaches(P.DataConnection(P.Paired(room, [seen], P.RoomGone, [])), e');
  }

  lemma SignalNext(s: Sys, t: Conn, ch: Choice)
    requires Local(s) && t < |s.pcs| && s.pcs[t].Signal?
    ensures var l, l', p, pc' := s.locals[t], Exec(s, t, ch).locals[t], s.pcs[t].signal, Exec(s, t, ch).pcs[t];
            && l'.role == l.role && (l.role == HostSignal || l.role == ClientSignal)
            && match p
               case Join =>
                 && l.role == HostSignal
                 && pc' == if Missing(s, t) || s.shared.heap[s.shared.table[l.code]].host.Some? then DONE else Enter
               case SignalFind =>
                 if Missing(s, t) then pc' == Exit(Bailed)
                 else if l.role == ClientSignal then pc' == Signal(SignalHost(s.shared.table[l.code]))
                 else pc' == Serve(Serving)
               case SignalHost(seen) =>
                 l.role == ClientSignal && pc' == if s.shared.heap[seen].hasHost then Serve(Serving) else Exit(Bailed)
  {
    assert HandlerOk(s.locals[t], s.pcs[t], |s.shared.heap|, s.shared.issued);
  }

  lemma ServingBegins(l: Locals, e: seq<Piece>)
    requires e == SignalIn(l.role)
    ensures ServeAt(l, Serving, e)
  {
    assert e == SignalIn(l.role) + P.Served([]) + [];
  }

  lemma SignalOnPath(s: Sys, t: Conn, e: seq<Piece>, ch: Choice)
    requires Local(s) && t < |s.pcs| && s.pcs[t].Signal? && OnPath(s.locals[t], s.pcs[t], e)
    ensures OnPath(Exec(s, t, ch).locals[t], Exec(s, t, ch).pcs[t], e + StepPieces(s, t, ch))
  {
    var l, l', e' := s.locals[t], Exec(s, t, ch).locals[t], e + StepPieces(s, t, ch);
    SignalNext(s, t, ch);
    assert StepPieces(s, t, ch) == SignalPieces(s, t);
    match s.pcs[t].signal
    case Join =>
      if Missing(s, t) || s.shared.heap[s.shared.table[l.code]].host.Some? {
        Ends(P.HostRefused, e');
      }
    case SignalFind =>
      if Missing(s, t) {
        Ends(if l.role == ClientSignal then P.ClientSignalRefused else P.HostGone, e');
      } else if l.role == HostSignal {
        ServingBegins(l', e');
      }
    case SignalHost(seen) =>
      if s.shared.heap[seen].hasHost {
        ServingBegins(l', e');
      } else {
        Ends(P.ClientSignalRefused, e');
      }
  }

  lemma ServedMore(role: Role, ps: seq<P.PacketPath>, p: P.PacketPath, e: seq<Piece>)
    requires NoneUnwinds(ps) && !P.Unwinds(p) && e == SignalIn(role) + P.Served(ps) + P.PacketOps(p)
    ensures NoneUnwinds(ps + [p]) && e == SignalIn(role) + P.Served(ps + [p]) + []
  {
    P.OneMorePacket(ps, p);
  }

  lemma ServedToTheEnd(role: Role, ps: seq<P.PacketPath>, e: seq<Piece>)
    requires P.OnlyLastUnwinds(ps) && (role == HostSignal || role == ClientSignal)
    requires role == HostSignal ==> forall k :: 0 <= k < |ps| ==> !ps[k].NilHost?
    requires e == SignalIn(role) + P.Served(ps)
    ensures AtCleanup(e)
  {
    if role == HostSignal {
      Reaches(P.HostServed(ps, P.RoomGone), e);
    } else {
      Reaches(P.ClientSignalServed(ps, P.RoomGone), e);
    }
  }

  lemma ActingNext(s: Sys, t: Conn, ch: Choice)
    requires Local(s) && t < |s.pcs| && s.pcs[t].Serve? && s.pcs[t].serve.Acting?
    ensures var seen, packet := s.pcs[t].serve.seen, s.pcs[t].serve.packet;
            var l', pc', role := Exec(s, t, ch).locals[t], Exec(s, t, ch).pcs[t], s.locals[t].role;
            && (role == HostSignal || role == ClientSignal) && l'.role == role
            && if TakesHostMu(role, packet) && seen in s.lost then pc' == s.pcs[t]
               else
                 var p := PacketPathOf(s, role, seen, packet);
                 if p.NilHost? then role == ClientSignal && pc' == Exit(Leave)
                 else pc'.Serve? && !pc'.serve.Acting?
  {
    assert HandlerOk(s.locals[t], s.pcs[t], |s.shared.heap|, s.shared.issued);
  }

  lemma ActingOnPath(s: Sys, t: Conn, e: seq<Piece>, ch: Choice)
    requires Local(s) && t < |s.pcs| && s.pcs[t].Serve? && s.pcs[t].serve.Acting? && OnPath(s.locals[t], s.pcs[t], e)
    ensures OnPath(Exec(s, t, ch).locals[t], Exec(s, t, ch).pcs[t], e + StepPieces(s, t, ch))
  {
    var role, seen, packet := s.locals[t].role, s.pcs[t].serve.seen, s.pcs[t].serve.packet;
    ActingNext(s, t, ch);
    assert StepPieces(s, t, ch) == ServePieces(s, t);
    var ps :| NoneUnwinds(ps) && e == SignalIn(role) + P.Served(ps) + [ROOMS];
    var p, e' := PacketPathOf(s, role, seen, packet), e + ServePieces(s, t);
    if TakesHostMu(role, packet) && seen in s.lost {
      assert e' == e;
    } else {
      assert [ROOMS] + P.PacketOps(p)[1..] == P.PacketOps(p);
      assert e' == SignalIn(role) + P.Served(ps) + P.PacketOps(p);
      if p.NilHost? {
        P.OneMorePacket(ps, p);
        ServedToTheEnd(role, ps + [p], e');
      } else {
        ServedMore(role, ps, p, e');
      }
    }
  }

  lemma ServeOnPath(s: Sys, t: Conn, e: seq<Piece>, ch: Choice)
    requires Local(s) && t < |s.pcs| && s.pcs[t].Serve? && !s.pcs[t].serve.Acting? && OnPath(s.locals[t], s.pcs[t], e)
    ensures OnPath(Exec(s, t, ch).locals[t], Exec(s, t, ch).pcs[t], e + StepPieces(s, t, ch))
  {
    var role, e' := s.locals[t].role, e + StepPieces(s, t, ch);
    assert HandlerOk(s.locals[t], s.pcs[t], |s.shared.heap|, s.shared.issued);
    var ps :| NoneUnwinds(ps) && e == SignalIn(role) + P.Served(ps) + [];
    match s.pcs[t].serve
    case Serving =>
      assert e' == e;
      if !ch.ok {
        ServedToTheEnd(role, ps, e');
      }
    case Received(packet) =>
      assert e' == SignalIn(role) + P.Served(ps) + [ROOMS];
      assert P.PacketOps(P.Quiet) == [ROOMS];
      ServedMore(role, ps, P.Quiet, e');
    case Registering(_, _) => assert e' == e;
    case _ =>
  }

  lemma ExitOnPath(s: Sys, t: Conn, e: seq<Piece>, ch: Choice)
    requires Local(s) && t < |s.pcs| && s.pcs[t].Exit? && OnPath(s.locals[t], s.pcs[t], e)
    ensures OnPath(Exec(s, t, ch).locals[t], Exec(s, t, ch).pcs[t], e + StepPieces(s, t, ch))
  {
    var e' := e + StepPieces(s, t, ch);
    match s.pcs[t].exit
    case Cleanup => CleanupOnPath(s, t, e, ch);
    case Closing(_, _) => ClosingOnPath(s, t, e, ch);
    case _ => assert e' == e;
  }

  lemma CleanupOnPath(s: Sys, t: Conn, e: seq<Piece>, ch: Choice)
    requires Local(s) && t < |s.pcs| && s.pcs[t] == Exit(Cleanup) && AtCleanup(e)
    ensures OnPath(Exec(s, t, ch).locals[t], Exec(s, t, ch).pcs[t], e + StepPieces(s, t, ch))
  {
    var c, e' := CleanupPathOf(s, t), e + StepPieces(s, t, ch);
    var p :| P.HasCleanup(p) && e == P.Head(p);
    if c.RoomGone? {
      P.HeadThenCleanup(p, c);
      assert P.CleanupOps(c) == [P.CleanupSection(c)];
      Ends(P.WithCleanup(p, c), e');
    } else {
      assert e' == P.Head(p) + [P.CleanupSection(c)] + P.Closes(0);
      assert IsClosingPath(c);
    }
  }

  lemma ClosingNext(s: Sys, t: Conn, ch: Choice)
    requires Valid(s) && t < |s.pcs| && s.pcs[t].Exit? && s.pcs[t].exit.Closing?
    ensures var left, pc' := s.pcs[t].exit.left, Exec(s, t, ch).pcs[t];
            && pc'.Exit?
            && if left == {} then pc'.exit.Finished? else pc'.exit.Closing?
  {
  }

  /** One more closing, or the end of the list. */
  lemma ClosingGoesOn(e: seq<Piece>)
    requires InCleanup(e)
    ensures InCleanup(e + [P.CLOSE]) && AtEnd(e)
  {
    var p, c, k: nat :| P.HasCleanup(p) && IsClosingPath(c) && e == P.Head(p) + [P.CleanupSection(c)] + P.Closes(k);
    assert P.Closes(k) + [P.CLOSE] == P.Closes(k + 1);
    assert e + [P.CLOSE] == P.Head(p) + [P.CleanupSection(c)] + P.Closes(k + 1);
    CloseCount(c, k);
    P.HeadThenCleanup(p, c.(closes := k));
    assert e == P.Head(p) + ([P.CleanupSection(c)] + P.Closes(k));
    Ends(P.WithCleanup(p, c.(closes := k)), e);
  }

  lemma ClosingOnPath(s: Sys, t: Conn, e: seq<Piece>, ch: Choice)
    requires Local(s) && t < |s.pcs| && s.pcs[t].Exit? && s.pcs[t].exit.Closing? && InCleanup(e)
    ensures OnPath(Exec(s, t, ch).locals[t], Exec(s, t, ch).pcs[t], e + StepPieces(s, t, ch))
  {
    ClosingNext(s, t, ch);
    ClosingGoesOn(e);
    assert e + [] == e;
  }

  lemma CloseCount(c: P.CleanupPath, k: nat)
    requires IsClosingPath(c)
    ensures P.CleanupOps(c.(closes := k)) == [P.CleanupSection(c)] + P.Closes(k)
  {
  }

  lemma CreateOnPath(s: Sys, t: Conn, e: seq<Piece>, ch: Choice)
    requires Local(s) && t < |s.pcs| && s.pcs[t].Create? && OnPath(s.locals[t], s.pcs[t], e)
    ensures OnPath(Exec(s, t, ch).locals[t], Exec(s, t, ch).pcs[t], e + StepPieces(s, t, ch))
  {
    var e' := e + StepPieces(s, t, ch);
    match s.pcs[t].create
    case DrawCode => Ends(P.Creation(P.Created), e');
    case CheckToken => Ends(P.Creation(P.TokenRefused), e');
    case Evicting(_) =>
    case Rebind => Ends(P.Creation(P.CreatedByEviction), e');
  }

  lemma CleanOnPath(s: Sys, t: Conn, e: seq<Piece>, ch: Choice)
    requires Local(s) && t < |s.pcs| && s.pcs[t].Clean? && OnPath(s.locals[t], s.pcs[t], e)
    ensures OnPath(Exec(s, t, ch).locals[t], Exec(s, t, ch).pcs[t], e + StepPieces(s, t, ch))
  {
    var e' := e + StepPieces(s, t, ch);
    match s.pcs[t].clean
    case GhostScan => RoundBegins(e);
    case IdleScan =>
      RoundBegins(e);
      assert IdleRooms(s.shared, ch.now) == {} ==> HostsOf(s.shared, IdleRooms(s.shared, ch.now)) == {};
    case GhostPrune(stale) =>
      var ticks :| e == P.TicksOps(ticks) + [ROOMS];
      RoundEnds(ticks, P.Ghosts(stale != {}), e');
    case IdleDelete(codes, hosts) =>
      var ticks :| e == P.TicksOps(ticks) + [ROOMS];
      if codes == {} {
        assert e' == e;
      } else {
        assert e' == P.TicksOps(ticks) + ([ROOMS, Writing(L.RoomsMu)] + P.Closes(0));
      }
    case IdleClose(hosts) => IdleCloseOnPath(s, t, e, ch);
  }

  lemma RoundBegins(e: seq<Piece>)
    requires RoundAt([], e)
    ensures RoundAt([ROOMS], e + [ROOMS])
  {
    var ticks :| e == P.TicksOps(ticks) + [];
    assert e + [ROOMS] == P.TicksOps(ticks) + [ROOMS];
  }

  lemma RoundEnds(ticks: seq<P.TickPath>, tick: P.TickPath, e: seq<Piece>)
    requires e == P.TicksOps(ticks) + P.TicksOps([tick])
    ensures RoundAt([], e)
  {
    P.OneMoreTick(ticks, tick);
    assert e == P.TicksOps(ticks + [tick]) + [];
  }

  lemma IdleCloseNext(s: Sys, t: Conn, ch: Choice)
    requires Valid(s) && t < |s.pcs| && s.pcs[t].Clean? && s.pcs[t].clean.IdleClose?
    ensures var hosts, pc' := s.pcs[t].clean.hosts, Exec(s, t, ch).pcs[t];
            && pc'.Clean?
            && if hosts == {} then pc'.clean.IdleScan?
                 else pc'.clean.IdleClose? && (ch.pick.conn !in hosts ==> pc' == s.pcs[t])
  {
  }

  lemma IdleCloseGoesOn(n: nat, e: seq<Piece>)
    requires RoundAt([ROOMS, Writing(L.RoomsMu)] + P.Closes(n), e)
    ensures RoundAt([ROOMS, Writing(L.RoomsMu)] + P.Closes(n + 1), e + [P.CLOSE])
    ensures RoundAt([], e)
  {
    var ticks :| e == P.TicksOps(ticks) + ([ROOMS, Writing(L.RoomsMu)] + P.Closes(n));
    assert P.Closes(n) + [P.CLOSE] == P.Closes(n + 1);
    assert e + [P.CLOSE] == P.TicksOps(ticks) + ([ROOMS, Writing(L.RoomsMu)] + P.Closes(n + 1));
    assert P.TicksOps([P.Idles(true, n)]) == [ROOMS, Writing(L.RoomsMu)] + P.Closes(n);
    RoundEnds(ticks, P.Idles(true, n), e);
  }

  lemma IdleCloseOnPath(s: Sys, t: Conn, e: seq<Piece>, ch: Choice)
    requires Local(s) && t < |s.pcs| && s.pcs[t].Clean? && s.pcs[t].clean.IdleClose? && OnPath(s.locals[t], s.pcs[t], e)
    ensures OnPath(Exec(s, t, ch).locals[t], Exec(s, t, ch).pcs[t], e + StepPieces(s, t, ch))
  {
    var hosts := s.pcs[t].clean.hosts;
    IdleCloseNext(s, t, ch);
    assert StepPieces(s, t, ch) == If(ch.pick.conn in hosts, P.CLOSE) && e + [] == e;
    if hosts == {} && RoundAt([ROOMS], e) {
      var ticks :| e == P.TicksOps(ticks) + [ROOMS];
      assert P.TicksOps([P.Idles(false, 0)]) == [ROOMS];
      RoundEnds(ticks, P.Idles(false, 0), e);
    } else {
      var n: nat :| RoundAt([ROOMS, Writing(L.RoomsMu)] + P.Closes(n), e);
      IdleCloseGoesOn(n, e);
    }
  }

  // ---- Along runs ----

  lemma StepOnPath(s: Sys, t: Conn, e: seq<Piece>, ch: Choice)
    requires Local(s) && t < |s.pcs| && OnPath(s.locals[t], s.pcs[t], e)
    ensures OnPath(Exec(s, t, ch).locals[t], Exec(s, t, ch).pcs[t], e + StepPieces(s, t, ch))
  {
    match s.pcs[t]
    case Gate => GateOnPath(s, t, e, ch);
    case Enter => EnterOnPath(s, t, e, ch);
    case Client(_) => ClientOnPath(s, t, e, ch);
    case Poll(_) => PollOnPath(s, t, e, ch);
    case Sweep(_) => SweepOnPath(s, t, e, ch);
    case Data(_) => DataOnPath(s, t, e, ch);
    case Seek(_) => SeekOnPath(s, t, e, ch);
    case Signal(_) => SignalOnPath(s, t, e, ch);
    case Serve(p) =>
      if p.Acting? {
        ActingOnPath(s, t, e, ch);
      } else {
        ServeOnPath(s, t, e, ch);
      }
    case Exit(_) => ExitOnPath(s, t, e, ch);
    case Create(_) => CreateOnPath(s, t, e, ch);
    case Clean(_) => CleanOnPath(s, t, e, ch);
  }

  lemma StartOnPath(role: Role, code: Code, name: string)
    ensures OnPath(StartLocals(role, code, name), StartPc(role), [])
  {
    assert [] == P.TicksOps([]) + [];
  }

  lemma {:induction false} NothingBeforeSpawn(run: seq<Action>, t: Conn)
    requires |Reached(run).pcs| <= t
    ensures Trace(run, t) == []
  {
    InitSatisfiesInv();
    if run != [] {
      NothingBeforeSpawn(run[..|run| - 1], t);
    }
  }

  lemma {:induction false} TracesAreOnPaths(run: seq<Action>, t: Conn)
    requires t < |Reached(run).pcs|
    ensures OnPath(Reached(run).locals[t], Reached(run).pcs[t], Trace(run, t))
  {
    InitSatisfiesInv();
    var before, last := Reached(run[..|run| - 1]), run[|run| - 1];
    var e := Trace(run[..|run| - 1], t);
    if t < |before.pcs| {
      TracesAreOnPaths(run[..|run| - 1], t);
      if last.Step? && last.t == t {
        StepOnPath(before, t, e, last.ch);
      } else {
        assert Trace(run, t) == e;
      }
    } else {
      NothingBeforeSpawn(run[..|run| - 1], t);
      assert Trace(run, t) == [];
      StartOnPath(last.role, last.code, last.name);
    }
  }

  // ---- Every trace is a path, or the beginning of one ----

  ghost predicate Begins(e: seq<Piece>) {
    exists p :: e <= P.Ops(p)
  }

  lemma BeginsPath(p: P.Path, e: seq<Piece>)
    requires e <= P.Ops(p)
    ensures Begins(e)
  {
  }

  lemma ClientBegins(l: Locals, p: ClientPc, e: seq<Piece>)
    requires ClientAt(l, p, e)
    ensures Begins(e)
  {
    var room := if l.room.Some? then l.room.value else 0;
    var path := P.ClientConnection(P.WriteFailed(room), P.RoomGone);
    P.HeadThenCleanup(path, P.RoomGone);
    assert P.Head(path) == [ROOMS] + ([ROOMS] + P.AskOps(room));
    BeginsPath(path, e);
  }

  lemma WaitBegins(room: RoomId, ps: seq<P.PollPath>, sweep: P.SweepPath, e: seq<Piece>)
    requires e <= Asked(room) + P.PollsOps(ps) + P.SweepOps(sweep)
    ensures Begins(e)
  {
    var path := P.ClientConnection(P.Waited(room, ps, sweep), P.RoomGone);
    P.HeadThenCleanup(path, P.RoomGone);
    assert P.Head(path) == [ROOMS] + ([ROOMS] + (P.AskOps(room) + P.PollsOps(ps) + P.SweepOps(sweep)));
    assert P.Head(path) == Asked(room) + P.PollsOps(ps) + P.SweepOps(sweep);
    BeginsPath(path, e);
  }

  lemma PollBegins(l: Locals, p: PollPc, e: seq<Piece>)
    requires PollAt(l, p, e)
    ensures Begins(e)
  {
    var ps :| e == Asked(l.room.value) + P.PollsOps(ps) + If(!p.PollRoom?, ROOMS);
    assert P.SweepOps(P.SweepNoRoom) == [ROOMS];
    WaitBegins(l.room.value, ps, P.SweepNoRoom, e);
  }

  lemma SweepBegins(l: Locals, p: SweepPc, e: seq<Piece>)
    requires SweepAt(l, p, e)
    ensures Begins(e)
  {
    var room := l.room.value;
    match p
    case SweepFind =>
      var ps :| e == Asked(room) + P.PollsOps(ps) + [];
      WaitBegins(room, ps, P.SweepNoRoom, e);
    case SweepCheck(_) =>
      var ps :| e == Asked(room) + P.PollsOps(ps) + [ROOMS];
      assert P.SweepOps(P.SweepNoRoom) == [ROOMS];
      WaitBegins(room, ps, P.SweepNoRoom, e);
    case SweepDelete(seen) =>
      var ps :| e == Asked(room) + P.PollsOps(ps) + [ROOMS, Reading(L.RequestsMu(seen))];
      assert [ROOMS, Reading(L.RequestsMu(seen))] <= P.SweepOps(P.SweepPresent(seen));
      WaitBegins(room, ps, P.SweepPresent(seen), e);
  }

  lemma PairedBegins(room: RoomId, e: seq<Piece>)
    requires e <= [ROOMS, ROOMS, Writing(L.RequestsMu(room)), Writing(L.ClientsMu(room)), Writing(L.HostsMu(room)),
             ROOMS]
    ensures Begins(e)
  {
    var path := P.DataConnection(P.Paired(room, [], P.RoomGone, []));
    P.HeadThenCleanup(path, P.RoomGone);
    assert P.Head(path) == [ROOMS, ROOMS, Writing(L.RequestsMu(room)), Writing(L.ClientsMu(room)),
           Writing(L.HostsMu(room)), ROOMS];
    BeginsPath(path, e);
  }

  lemma ServeBegins(l: Locals, p: ServePc, e: seq<Piece>)
    requires ServeAt(l, p, e)
    ensures Begins(e)
  {
    var ps :| NoneUnwinds(ps) && e == SignalIn(l.role) + P.Served(ps) + If(p.Acting?, ROOMS);
    P.OneMorePacket(ps, P.Quiet);
    assert P.PacketOps(P.Quiet) == [ROOMS];
    var whole := SignalIn(l.role) + P.Served(ps + [P.Quiet]);
    assert e <= whole;
    ServedToTheEnd(if l.role == HostSignal then HostSignal else ClientSignal, ps + [P.Quiet], whole);
    HeadsBegin(whole, e);
  }

  lemma HeadsBegin(whole: seq<Piece>, e: seq<Piece>)
    requires AtCleanup(whole) && e <= whole
    ensures Begins(e)
  {
    var p :| P.HasCleanup(p) && whole == P.Head(p);
    P.HeadThenCleanup(p, P.RoomGone);
    BeginsPath(P.WithCleanup(p, P.RoomGone), e);
  }

  lemma RoundBeginsPath(round: seq<Piece>, tick: P.TickPath, e: seq<Piece>)
    requires RoundAt(round, e) && round <= P.TicksOps([tick])
    ensures Begins(e)
  {
    var ticks :| e == P.TicksOps(ticks) + round;
    P.OneMoreTick(ticks, tick);
    BeginsPath(P.Background(ticks + [tick]), e);
  }

  lemma CleanBegins(p: CleanPc, e: seq<Piece>)
    requires CleanAt(p, e)
    ensures Begins(e)
  {
    assert P.TicksOps([P.Ghosts(false)]) == [ROOMS];
    if RoundAt([], e) {
      RoundBeginsPath([], P.Ghosts(false), e);
    } else if RoundAt([ROOMS], e) {
      RoundBeginsPath([ROOMS], P.Ghosts(false), e);
    } else {
      var n: nat :| RoundAt([ROOMS, Writing(L.RoomsMu)] + P.Closes(n), e);
      IdleCloseGoesOn(n, e);
      RoundBeginsPath([], P.Ghosts(false), e);
    }
  }

  lemma ExitBegins(p: ExitPc, e: seq<Piece>)
    requires ExitAt(p, e)
    ensures Begins(e)
  {
    if p.Closing? {
      ClosingGoesOn(e);
    }
    if p.Closing? || p.Finished? || p.Bailed? {
      var path :| e == P.Ops(path);
      BeginsPath(path, e);
    } else {
      HeadsBegin(e, e);
    }
  }

  lemma OnPathBegins(l: Locals, pc: Pc, e: seq<Piece>)
    requires OnPath(l, pc, e)
    ensures Begins(e)
  {
    match pc
    case Gate => BeginsPath(P.BadVersion, e);
    case Enter => BeginsPath(if l.role == HostSignal then P.HostGone else P.ClientSignalRefused, e);
    case Client(p) => ClientBegins(l, p, e);
    case Poll(p) => PollBegins(l, p, e);
    case Sweep(p) => SweepBegins(l, p, e);
    case Data(p) => PairedBegins(if p.TakeFind? then 0 else l.room.value, e);
    case Seek(_) => PairedBegins(l.room.value, e);
    case Signal(p) => BeginsPath(if p.SignalFind? && l.role == HostSignal then P.HostGone
      else P.ClientSignalRefused, e);
    case Serve(p) => ServeBegins(l, p, e);
    case Exit(p) => ExitBegins(p, e);
    case Create(_) => BeginsPath(P.Creation(P.CreatedByEviction), e);
    case Clean(p) => CleanBegins(p, e);
  }

  /**
   The handlers of the transition system are threads of the lock system. In every run, the
   lock operations of a handler are the beginning of one of the paths, and all of one when the
   handler is through: what is proved of all paths is true of them.
   */
  lemma HandlersFollowPaths(run: seq<Action>, t: Conn)
    requires t < |Reached(run).pcs|
    ensures exists p :: Trace(run, t) <= P.Ops(p)
    ensures var pc := Reached(run).pcs[t];
            pc.Exit? && (pc.exit.Finished? || pc.exit.Bailed?) ==> exists p :: Trace(run, t) == P.Ops(p)
  {
    TracesAreOnPaths(run, t);
    OnPathBegins(Reached(run).locals[t], Reached(run).pcs[t], Trace(run, t));
  }

  // ---- Every write is under its lock ----

  /** Which steps write the maps of Room object r. */
  predicate MapWritesAt(s: Sys, t: Conn, ch: Choice, r: RoomId)
    requires Valid(s) && t < |s.pcs| && r < |s.shared.heap|
  {
    var s', l, pc := Exec(s, t, ch), s.locals[t], s.pcs[t];
    && r < |s'.shared.heap|
    && var room, room' := s.shared.heap[r], s'.shared.heap[r];
    && (room'.requests != room.requests ==>
          ((pc == Client(Filing) || pc == Data(Taking)) && l.room == Some(r)) || pc == Sweep(SweepDelete(r)))
    && (room'.c2h != room.c2h ==> (pc == Client(Listing) || pc == Data(Linking)) && l.room == Some(r))
    && (room'.h2c != room.h2c ==> pc == Data(Mirroring) && l.room == Some(r))
  }

  lemma ClientMapWrites(s: Sys, t: Conn, ch: Choice, r: RoomId)
    requires Valid(s) && t < |s.pcs| && r < |s.shared.heap| && (s.pcs[t].Client? || s.pcs[t].Sweep?)
    ensures MapWritesAt(s, t, ch, r)
  {
    assert PcWired(s.locals[t], s.pcs[t], |s.shared.heap|);
  }

  lemma DataMapWrites(s: Sys, t: Conn, ch: Choice, r: RoomId)
    requires Valid(s) && t < |s.pcs| && r < |s.shared.heap| && s.pcs[t].Data?
    ensures MapWritesAt(s, t, ch, r)
  {
    assert PcWired(s.locals[t], s.pcs[t], |s.shared.heap|);
  }

  lemma SignalMapWrites(s: Sys, t: Conn, ch: Choice, r: RoomId)
    requires Valid(s) && t < |s.pcs| && r < |s.shared.heap| && (s.pcs[t].Signal? || s.pcs[t].Serve?)
    ensures MapWritesAt(s, t, ch, r)
  {
    assert PcWired(s.locals[t], s.pcs[t], |s.shared.heap|);
  }

  lemma OtherMapWrites(s: Sys, t: Conn, ch: Choice, r: RoomId)
    requires Valid(s) && t < |s.pcs| && r < |s.shared.heap|
    requires !s.pcs[t].Client? && !s.pcs[t].Data? && !s.pcs[t].Sweep? && !s.pcs[t].Signal? && !s.pcs[t].Serve?
    ensures MapWritesAt(s, t, ch, r)
  {
  }

  /** No step of any handler writes a link or request map but in a section of that map's lock. */
  lemma MapWritesAreLocked(s: Sys, t: Conn, ch: Choice, r: RoomId)
    requires Valid(s) && t < |s.pcs| && r < |s.shared.heap|
    ensures var s', pieces := Exec(s, t, ch), StepPieces(s, t, ch);
            && r < |s'.shared.heap|
            && var room, room' := s.shared.heap[r], s'.shared.heap[r];
            && (room'.requests != room.requests ==> Writing(L.RequestsMu(r)) in pieces)
            && (room'.c2h != room.c2h ==> Writing(L.ClientsMu(r)) in pieces)
            && (room'.h2c != room.h2c ==> Writing(L.HostsMu(r)) in pieces)
  {
    match s.pcs[t]
    case Client(_) => ClientMapWrites(s, t, ch, r);
    case Sweep(_) => ClientMapWrites(s, t, ch, r);
    case Data(_) => DataMapWrites(s, t, ch, r);
    case Signal(_) => SignalMapWrites(s, t, ch, r);
    case Serve(_) => SignalMapWrites(s, t, ch, r);
    case _ => OtherMapWrites(s, t, ch, r);
  }

  /** A section, or part of one, in which RoomsMu is held for writing. */
  predicate HoldsRooms(piece: Piece) {
    piece != [] && piece[0] == L.Acquire(L.RoomsMu, L.Write)
  }

  /** No step writes the table but in a section of RoomsMu for writing. */
  lemma TableWritesAreLocked(s: Sys, t: Conn, ch: Choice)
    requires Valid(s) && t < |s.pcs| && Exec(s, t, ch).shared.table != s.shared.table
    ensures exists k :: 0 <= k < |StepPieces(s, t, ch)| && HoldsRooms(StepPieces(s, t, ch)[k])
  {
    var pieces := StepPieces(s, t, ch);
    match s.pcs[t]
    case Exit(_) => assert HoldsRooms(pieces[0]);
    case Create(p) => assert HoldsRooms(pieces[if p.Rebind? then 0 else 1]);
    case Clean(p) => CleanerWrites(s, t, ch);
  }

  lemma CleanerWrites(s: Sys, t: Conn, ch: Choice)
    requires Valid(s) && t < |s.pcs| && s.pcs[t].Clean? && Exec(s, t, ch).shared.table != s.shared.table
    ensures StepPieces(s, t, ch) != [] && HoldsRooms(StepPieces(s, t, ch)[0])
  {
    assert s.shared.table - {} == s.shared.table;
  }
}
