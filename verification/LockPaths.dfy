/**
 The lock operations of every handler and background loop, for every way through it. A path
 records the branches taken and the rooms met on the way; what the thread does follows from
 it, as a sequence of pieces. Every path keeps the discipline of Locks, and gives back all
 its locks unless it unwinds while it writes to a host under HostMu. A write can unwind
 because there is no host, or because the library panics on a concurrent writer: a closing
 of the same connection writes to it without HostMu.
 */
module LockPaths {
  import opened Options
  import opened Locks

  /** A stretch of operations; but for one, a whole critical section or a closing. */
  type Piece = seq<Op>

  function Section(lock: Lock, mode: Mode): Piece {
    [Acquire(lock, mode), Release(lock)]
  }

  const CLOSE: Piece := [CloseSocket]

  function Closes(n: nat): seq<Piece> {
    seq(n, _ => CLOSE)
  }

  function Join(pieces: seq<Piece>): seq<Op> {
    if pieces == [] then [] else pieces[0] + Join(pieces[1..])
  }

  // ---- handleCleanup ----

  datatype CleanupPath = RoomGone | HostLeft(closes: nat) | PartnerLeft(room: nat, closes: nat)

  /** The only nesting of locks: under RoomsMu, the deleted-rooms lock, or the two maps' locks in turn. */
  function CleanupSection(p: CleanupPath): Piece {
    [Acquire(RoomsMu, Write)] +
    (match p
     case RoomGone => []
     case HostLeft(_) => Section(RecentlyDeletedMu, Write)
     case PartnerLeft(r, _) => Section(ClientsMu(r), Read) + Section(HostsMu(r), Read)) +
    [Release(RoomsMu)]
  }

  /** The sockets are closed after RoomsMu is released. */
  function CleanupOps(p: CleanupPath): seq<Piece> {
    [CleanupSection(p)] + Closes(if p.RoomGone? then 0 else p.closes)
  }

  // ---- clientRelayHandler ----

  datatype PollPath = PollNoRoom | PollNoHost | PollEntry(room: nat)

  function PollsOps(ps: seq<PollPath>): seq<Piece> {
    if ps == [] then []
    else
      [Section(RoomsMu, Read)] +
      (if ps[0].PollEntry? then [Section(ClientsMu(ps[0].room), Read)] else []) +
      PollsOps(ps[1..])
  }

  datatype SweepPath = SweepNoRoom | SweepAbsent(room: nat) | SweepPresent(room: nat)

  function SweepOps(p: SweepPath): seq<Piece> {
    [Section(RoomsMu, Read)] +
    (match p
     case SweepNoRoom => []
     case SweepAbsent(r) => [Section(RequestsMu(r), Read)]
     case SweepPresent(r) => [Section(RequestsMu(r), Read), Section(RequestsMu(r), Write)])
  }

  datatype ClientPath =
    | ClientRefused
    | NoNumber
    | AskPanics(room: nat)
    | WriteFailed(room: nat)
    | Waited(room: nat, polls: seq<PollPath>, sweep: SweepPath)

  function FileOps(room: nat): seq<Piece> {
    [Section(RequestsMu(room), Write), Section(ClientsMu(room), Write)]
  }

  function AskOps(room: nat): seq<Piece> {
    FileOps(room) + [Section(HostMu(room), Write)]
  }

  /** A panic between the lock and the unlock of HostMu: the unlock is not deferred. */
  function Orphan(room: nat): Piece {
    [Acquire(HostMu(room), Write)]
  }

  /** The client handler up to its deferred cleanup. */
  function ClientHead(p: ClientPath): seq<Piece> {
    [Section(RoomsMu, Read)] +
    (match p
     case ClientRefused => [CLOSE]
     case NoNumber => []
     case AskPanics(r) => FileOps(r) + [Orphan(r)]
     case WriteFailed(r) => AskOps(r)
     case Waited(r, polls, sweep) => AskOps(r) + PollsOps(polls) + SweepOps(sweep))
  }

  function ClientOps(p: ClientPath, cleanup: CleanupPath): seq<Piece> {
    ClientHead(p) + CleanupOps(cleanup)
  }

  // ---- HandleRelay for a host's data connection ----

  datatype DataPath = DataNoRoom | NoRequest(room: nat) | NoClient(room: nat)
    | Paired(room: nat, found: seq<nat>, cleanup: CleanupPath, recovered: seq<CleanupPath>)

  function CleanupsOps(ps: seq<CleanupPath>): seq<Piece> {
    if ps == [] then [] else CleanupOps(ps[0]) + CleanupsOps(ps[1..])
  }

  /** The three sections of the handshake, and the two lookups of the handler. */
  function PairedHead(r: nat, found: seq<nat>): seq<Piece> {
    [Section(RequestsMu(r), Write), Section(ClientsMu(r), Write), Section(HostsMu(r), Write),
     Section(RoomsMu, Read)] +
    (if found == [] then [] else [Section(ClientsMu(found[0]), Read)])
  }

  /** found holds the room that was looked up again, if any; recovered, the second cleanup of a recovered panic. */
  function DataOps(p: DataPath): seq<Piece> {
    [Section(RoomsMu, Read)] +
    (match p
     case DataNoRoom => [CLOSE]
     case NoRequest(r) => [Section(RequestsMu(r), Write), CLOSE]
     case NoClient(r) => [Section(RequestsMu(r), Write), Section(ClientsMu(r), Write), CLOSE]
     case Paired(r, found, cleanup, recovered) => PairedHead(r, found) + CleanupOps(cleanup) + CleanupsOps(recovered))
  }

  // ---- The signal connections ----

  /**
   A packet's handling: nothing under a lock, a pong or a forward under HostMu, a client's
   forward that finds no host, or a write under HostMu on which the library panics.
   */
  datatype PacketPath = Quiet | UnderHostMu(room: nat) | NilHost(room: nat) | WritePanics(room: nat)

  predicate Unwinds(p: PacketPath) {
    p.NilHost? || p.WritePanics?
  }

  function PacketOps(p: PacketPath): seq<Piece> {
    [Section(RoomsMu, Read)] +
    (match p
     case Quiet => []
     case UnderHostMu(r) => [Section(HostMu(r), Write)]
     case NilHost(r) => [Orphan(r)]
     case WritePanics(r) => [Orphan(r)])
  }

  /** The loop handles packets until one makes it unwind; the deferred cleanup runs either way. */
  function ServeOps(ps: seq<PacketPath>, cleanup: CleanupPath): seq<Piece> {
    if ps == [] then CleanupOps(cleanup)
    else if Unwinds(ps[0]) then PacketOps(ps[0]) + CleanupOps(cleanup)
    else PacketOps(ps[0]) + ServeOps(ps[1..], cleanup)
  }

  /** A host's packets write to client connections and back to the host's own, never through room.Host. */
  type HostPacketPath = p: PacketPath | !p.NilHost? witness Quiet

  // ---- All paths ----

  datatype TickPath = Ghosts(any: bool) | Idles(any: bool, closes: nat) | Reasons | Salts | Watchdog

  function TicksOps(ps: seq<TickPath>): seq<Piece> {
    if ps == [] then []
    else
      (match ps[0]
       case Ghosts(any) => [Section(RoomsMu, Read)] + (if any then [Section(RoomsMu, Write)] else [])
       case Idles(any, n) => [Section(RoomsMu, Read)] + (if any then [Section(RoomsMu, Write)] + Closes(n) else [])
       case Reasons => [Section(RecentlyDeletedMu, Read), Section(RecentlyDeletedMu, Write)]
       case Salts => [Section(UsedSaltsMu, Write)]
       case Watchdog => [Section(RoomsMu, Read)]) + TicksOps(ps[1..])
  }

  datatype CreationPath = WorkUnverified | WorkRefused | TokenRefused | Created | CreatedByEviction

  function CreationOps(p: CreationPath): seq<Piece> {
    match p
    case WorkUnverified => []
    case WorkRefused => [Section(UsedSaltsMu, Write)]
    case TokenRefused => [Section(UsedSaltsMu, Write), Section(RoomsMu, Write)]
    case Created => [Section(UsedSaltsMu, Write), Section(RoomsMu, Write)]
    case CreatedByEviction => [Section(UsedSaltsMu, Write), Section(RoomsMu, Write), CLOSE, Section(RoomsMu, Write)]
  }

  datatype Path =
    | BadVersion
    | MissingRoom(forClient: bool)
    | ClientConnection(client: ClientPath, cleanup: CleanupPath)
    | DataConnection(data: DataPath)
    | HostRefused
    | HostGone
    | HostServed(hostPackets: seq<HostPacketPath>, cleanup: CleanupPath)
    | ClientSignalRefused
    | ClientSignalServed(packets: seq<PacketPath>, cleanup: CleanupPath)
    | Creation(creation: CreationPath)
    | Background(ticks: seq<TickPath>)

  function Ops(p: Path): seq<Piece> {
    match p
    case BadVersion => [CLOSE]
    case MissingRoom(forClient) =>
      [Section(RoomsMu, Read)] + (if forClient then [Section(RecentlyDeletedMu, Read)] else []) + [CLOSE]
    case ClientConnection(client, cleanup) => [Section(RoomsMu, Read)] + ClientOps(client, cleanup)
    case DataConnection(data) => [Section(RoomsMu, Read)] + DataOps(data)
    case HostRefused => [Section(RoomsMu, Read), Section(RoomsMu, Write), CLOSE]
    case HostGone => [Section(RoomsMu, Read), Section(RoomsMu, Write), Section(RoomsMu, Read)]
    case HostServed(packets, cleanup) =>
      [Section(RoomsMu, Read), Section(RoomsMu, Write), Section(RoomsMu, Read)] + ServeOps(packets, cleanup)
    case ClientSignalRefused => [Section(RoomsMu, Read), Section(RoomsMu, Read), CLOSE]
    case ClientSignalServed(packets, cleanup) =>
      [Section(RoomsMu, Read), Section(RoomsMu, Read)] + ServeOps(packets, cleanup)
    case Creation(creation) => CreationOps(creation)
    case Background(ticks) => TicksOps(ticks)
  }

  // ---- Paths up to their cleanup ----

  function PollOps(p: PollPath): seq<Piece> {
    [Section(RoomsMu, Read)] + (if p.PollEntry? then [Section(ClientsMu(p.room), Read)] else [])
  }

  lemma {:induction false} OneMorePoll(ps: seq<PollPath>, p: PollPath)
    ensures PollsOps(ps + [p]) == PollsOps(ps) + PollOps(p)
  {
    if ps != [] {
      assert (ps + [p])[1..] == ps[1..] + [p];
      OneMorePoll(ps[1..], p);
    }
  }

  lemma {:induction false} OneMoreTick(ps: seq<TickPath>, p: TickPath)
    ensures TicksOps(ps + [p]) == TicksOps(ps) + TicksOps([p])
  {
    if ps != [] {
      assert (ps + [p])[1..] == ps[1..] + [p];
      OneMoreTick(ps[1..], p);
    } else {
      assert [] + [p] == [p];
    }
  }

  /** The packets that a signal loop has handled. */
  function Served(ps: seq<PacketPath>): seq<Piece> {
    if ps == [] then [] else Served(ps[..|ps| - 1]) + PacketOps(ps[|ps| - 1])
  }

  lemma OneMorePacket(ps: seq<PacketPath>, p: PacketPath)
    ensures Served(ps + [p]) == Served(ps) + PacketOps(p)
  {
    assert (ps + [p])[..|ps|] == ps;
  }

  /** A loop handles no packet after one on which it unwinds. */
  predicate OnlyLastUnwinds(ps: seq<PacketPath>) {
    forall k :: 0 <= k < |ps| - 1 ==> !Unwinds(ps[k])
  }

  lemma {:induction false} ServedFirst(ps: seq<PacketPath>)
    requires ps != []
    ensures Served(ps) == PacketOps(ps[0]) + Served(ps[1..])
  {
    if |ps| > 1 {
      var init := ps[..|ps| - 1];
      ServedFirst(init);
      assert ps[1..][..|ps| - 2] == init[1..];
    }
  }

  lemma {:induction false} ServedThenCleanup(ps: seq<PacketPath>, cleanup: CleanupPath)
    requires OnlyLastUnwinds(ps)
    ensures ServeOps(ps, cleanup) == Served(ps) + CleanupOps(cleanup)
  {
    if ps == [] {
      assert [] + CleanupOps(cleanup) == CleanupOps(cleanup);
    } else {
      ServedFirst(ps);
      if Unwinds(ps[0]) {
        assert ps[1..] == [] && Served(ps) == PacketOps(ps[0]);
      } else {
        ServedThenCleanup(ps[1..], cleanup);
        assert PacketOps(ps[0]) + (Served(ps[1..]) + CleanupOps(cleanup)) == Served(ps) + CleanupOps(cleanup);
      }
    }
  }

  /** The paths that end in one deferred cleanup. */
  predicate HasCleanup(p: Path) {
    match p
    case ClientConnection(_, _) => true
    case DataConnection(data) => data.Paired? && data.recovered == []
    case HostServed(packets, _) => OnlyLastUnwinds(packets)
    case ClientSignalServed(packets, _) => OnlyLastUnwinds(packets)
    case _ => false
  }

  function WithCleanup(p: Path, c: CleanupPath): Path
    requires HasCleanup(p)
  {
    match p
    case ClientConnection(client, _) => ClientConnection(client, c)
    case DataConnection(data) => DataConnection(data.(cleanup := c))
    case HostServed(packets, _) => HostServed(packets, c)
    case ClientSignalServed(packets, _) => ClientSignalServed(packets, c)
    case _ => p
  }

  /** Such a path up to its cleanup. */
  function Head(p: Path): seq<Piece>
    requires HasCleanup(p)
  {
    match p
    case ClientConnection(client, _) => [Section(RoomsMu, Read)] + ClientHead(client)
    case DataConnection(data) => [Section(RoomsMu, Read), Section(RoomsMu, Read)] + PairedHead(data.room, data.found)
    case HostServed(packets, _) =>
      [Section(RoomsMu, Read), Section(RoomsMu, Write), Section(RoomsMu, Read)] + Served(packets)
    case ClientSignalServed(packets, _) => [Section(RoomsMu, Read), Section(RoomsMu, Read)] + Served(packets)
    case _ => []
  }

  /** A lookup in front, and nothing behind. */
  lemma Rearranged(first: Piece, second: Piece, body: seq<Piece>, tail: seq<Piece>)
    ensures [first] + ([second] + (body + tail + [])) == [first, second] + body + tail
    ensures [first] + (body + tail) == ([first] + body) + tail
    ensures [first, second] + (body + tail) == ([first, second] + body) + tail
  {
  }

  lemma Rearranged3(first: Piece, second: Piece, third: Piece, body: seq<Piece>, tail: seq<Piece>)
    ensures [first, second, third] + (body + tail) == ([first, second, third] + body) + tail
  {
  }

  lemma HeadThenCleanup(p: Path, c: CleanupPath)
    requires HasCleanup(p)
    ensures Ops(WithCleanup(p, c)) == Head(p) + CleanupOps(c)
  {
    var read, write, tail := Section(RoomsMu, Read), Section(RoomsMu, Write), CleanupOps(c);
    match p
    case HostServed(packets, _) =>
      ServedThenCleanup(packets, c);
      Rearranged3(read, write, read, Served(packets), tail);
    case ClientSignalServed(packets, _) =>
      ServedThenCleanup(packets, c);
      Rearranged(read, read, Served(packets), tail);
    case ClientConnection(client, _) => Rearranged(read, read, ClientHead(client), tail);
    case DataConnection(data) =>
      assert DataOps(data.(cleanup := c)) == [read] + (PairedHead(data.room, data.found) + tail + []);
      Rearranged(read, read, PairedHead(data.room, data.found), tail);
  }

  // ---- Which locks a path takes ----

  predicate Takes(p: Path, lock: Lock, mode: Mode) {
    Acquire(lock, mode) in Join(Ops(p))
  }

  lemma {:induction false} InJoin(op: Op, pieces: seq<Piece>)
    ensures op in Join(pieces) <==> exists p :: p in pieces && op in p
  {
    if pieces != [] {
      InJoin(op, pieces[1..]);
      assert forall p :: p in pieces <==> p == pieces[0] || p in pieces[1..];
    }
  }

  /** Some piece contains the operation. */
  predicate Among(op: Op, pieces: seq<Piece>) {
    exists p :: p in pieces && op in p
  }

  lemma AmongBoth(op: Op, a: seq<Piece>, b: seq<Piece>)
    ensures Among(op, a + b) <==> Among(op, a) || Among(op, b)
  {
    assert forall p :: p in a + b <==> p in a || p in b;
  }

  /** The locks inside a Room object. */
  predicate InRoom(lock: Lock) {
    lock.RequestsMu? || lock.ClientsMu? || lock.HostsMu? || lock.HostMu?
  }

  /** A cleanup that is not the host's looks its connection up in both link maps. */
  predicate CleanupNeeds(c: CleanupPath, lock: Lock, mode: Mode) {
    c.PartnerLeft? && mode == Read && (lock == ClientsMu(c.room) || lock == HostsMu(c.room))
  }

  predicate SomeCleanupNeeds(cs: seq<CleanupPath>, lock: Lock, mode: Mode) {
    exists k :: 0 <= k < |cs| && CleanupNeeds(cs[k], lock, mode)
  }

  /** A poll that gets as far as the client's entry reads ClientsToHostConnections. */
  predicate PollsNeed(ps: seq<PollPath>, lock: Lock, mode: Mode) {
    exists k :: 0 <= k < |ps| && ps[k].PollEntry? && lock == ClientsMu(ps[k].room) && mode == Read
  }

  /** A sweep reads the request map of the room it finds, and deletes from it if the name is there. */
  predicate SweepNeeds(p: SweepPath, lock: Lock, mode: Mode) {
    !p.SweepNoRoom? && lock == RequestsMu(p.room) && (mode == Read || p.SweepPresent?)
  }

  /** A client that gets as far as filing writes both maps, and asks the host. */
  predicate AskNeeds(room: nat, lock: Lock, mode: Mode) {
    mode == Write && (lock == RequestsMu(room) || lock == ClientsMu(room) || lock == HostMu(room))
  }

  predicate ClientNeeds(p: ClientPath, lock: Lock, mode: Mode) {
    match p
    case AskPanics(room) => AskNeeds(room, lock, mode)
    case WriteFailed(room) => AskNeeds(room, lock, mode)
    case Waited(room, polls, sweep) =>
      AskNeeds(room, lock, mode) || PollsNeed(polls, lock, mode) || SweepNeeds(sweep, lock, mode)
    case _ => false
  }

  /** A data connection takes the request, links, and mirrors, as far as it gets, and then reads its partner. */
  predicate DataNeeds(p: DataPath, lock: Lock, mode: Mode) {
    match p
    case DataNoRoom => false
    case NoRequest(room) => mode == Write && lock == RequestsMu(room)
    case NoClient(room) => mode == Write && (lock == RequestsMu(room) || lock == ClientsMu(room))
    case Paired(room, found, cleanup, recovered) =>
      || (mode == Write && (lock == RequestsMu(room) || lock == ClientsMu(room) || lock == HostsMu(room)))
      || (mode == Read && found != [] && lock == ClientsMu(found[0]))
      || CleanupNeeds(cleanup, lock, mode) || SomeCleanupNeeds(recovered, lock, mode)
  }

  /** A packet that is handled under this HostMu comes before the loop ends, or ends it. */
  predicate PacketsNeed(ps: seq<PacketPath>, lock: Lock, mode: Mode) {
    exists k :: 0 <= k < |ps| && PacketNeeds(ps[k], lock, mode) && forall j :: 0 <= j < k ==> !Unwinds(ps[j])
  }

  predicate PacketNeeds(p: PacketPath, lock: Lock, mode: Mode) {
    !p.Quiet? && mode == Write && lock == HostMu(p.room)
  }

  /** Which locks of which rooms a path needs, and in which mode, by what happens on it. */
  predicate Needs(p: Path, lock: Lock, mode: Mode) {
    match p
    case ClientConnection(client, cleanup) => ClientNeeds(client, lock, mode) || CleanupNeeds(cleanup, lock, mode)
    case DataConnection(data) => DataNeeds(data, lock, mode)
    case HostServed(packets, cleanup) => PacketsNeed(packets, lock, mode) || CleanupNeeds(cleanup, lock, mode)
    case ClientSignalServed(packets, cleanup) => PacketsNeed(packets, lock, mode) || CleanupNeeds(cleanup, lock, mode)
    case _ => false
  }

  lemma CleanupTakes(c: CleanupPath, lock: Lock, mode: Mode)
    requires InRoom(lock)
    ensures Among(Acquire(lock, mode), CleanupOps(c)) <==> CleanupNeeds(c, lock, mode)
  {
    assert CleanupOps(c)[0] in CleanupOps(c);
  }

  lemma {:induction false} CleanupsTake(cs: seq<CleanupPath>, lock: Lock, mode: Mode)
    requires InRoom(lock)
    ensures Among(Acquire(lock, mode), CleanupsOps(cs)) <==> SomeCleanupNeeds(cs, lock, mode)
  {
    if cs != [] {
      CleanupTakes(cs[0], lock, mode);
      CleanupsTake(cs[1..], lock, mode);
      AmongBoth(Acquire(lock, mode), CleanupOps(cs[0]), CleanupsOps(cs[1..]));
      assert forall k :: 1 <= k < |cs| ==> cs[1..][k - 1] == cs[k];
    }
  }

  lemma {:induction false} PollsTake(ps: seq<PollPath>, lock: Lock, mode: Mode)
    requires InRoom(lock)
    ensures Among(Acquire(lock, mode), PollsOps(ps)) <==> PollsNeed(ps, lock, mode)
  {
    if ps != [] {
      var first := [Section(RoomsMu, Read)] + (if ps[0].PollEntry? then [Section(ClientsMu(ps[0].room), Read)] else []);
      PollsTake(ps[1..], lock, mode);
      AmongBoth(Acquire(lock, mode), first, PollsOps(ps[1..]));
      assert ps[0].PollEntry? ==> Section(ClientsMu(ps[0].room), Read) in first;
      assert forall k :: 1 <= k < |ps| ==> ps[1..][k - 1] == ps[k];
    }
  }

  lemma SweepTakes(p: SweepPath, lock: Lock, mode: Mode)
    requires InRoom(lock)
    ensures Among(Acquire(lock, mode), SweepOps(p)) <==> SweepNeeds(p, lock, mode)
  {
    assert !p.SweepNoRoom? ==> Section(RequestsMu(p.room), Read) in SweepOps(p);
    assert p.SweepPresent? ==> Section(RequestsMu(p.room), Write) in SweepOps(p);
  }

  lemma AskTakes(room: nat, lock: Lock, mode: Mode)
    ensures Among(Acquire(lock, mode), AskOps(room)) <==> AskNeeds(room, lock, mode)
    ensures Among(Acquire(lock, mode), FileOps(room) + [Orphan(room)]) <==> AskNeeds(room, lock, mode)
  {
    assert Section(RequestsMu(room), Write) in AskOps(room)
           && Section(RequestsMu(room), Write) in FileOps(room) + [Orphan(room)];
    assert Section(ClientsMu(room), Write) in AskOps(room)
           && Section(ClientsMu(room), Write) in FileOps(room) + [Orphan(room)];
    assert Section(HostMu(room), Write) in AskOps(room) && Orphan(room) in FileOps(room) + [Orphan(room)];
  }

  lemma ClientTakes(p: ClientPath, lock: Lock, mode: Mode)
    requires InRoom(lock)
    ensures Among(Acquire(lock, mode), ClientHead(p)) <==> ClientNeeds(p, lock, mode)
  {
    var op, look := Acquire(lock, mode), [Section(RoomsMu, Read)];
    match p
    case ClientRefused =>
    case NoNumber =>
    case AskPanics(r) =>
      AskTakes(r, lock, mode);
      AmongBoth(op, look, FileOps(r) + [Orphan(r)]);
    case WriteFailed(r) =>
      AskTakes(r, lock, mode);
      AmongBoth(op, look, AskOps(r));
    case Waited(r, polls, sweep) =>
      AskTakes(r, lock, mode);
      PollsTake(polls, lock, mode);
      SweepTakes(sweep, lock, mode);
      AmongBoth(op, AskOps(r), PollsOps(polls));
      AmongBoth(op, AskOps(r) + PollsOps(polls), SweepOps(sweep));
      AmongBoth(op, look, AskOps(r) + PollsOps(polls) + SweepOps(sweep));
  }

  lemma PairedTakes(room: nat, found: seq<nat>, lock: Lock, mode: Mode)
    requires InRoom(lock)
    ensures Among(Acquire(lock, mode), PairedHead(room, found)) <==>
            || (mode == Write && (lock == RequestsMu(room) || lock == ClientsMu(room) || lock == HostsMu(room)))
            || (mode == Read && found != [] && lock == ClientsMu(found[0]))
  {
    var pieces := PairedHead(room, found);
    assert Section(RequestsMu(room), Write) in pieces && Section(ClientsMu(room), Write) in pieces;
    assert Section(HostsMu(room), Write) in pieces && (found != [] ==> Section(ClientsMu(found[0]), Read) in pieces);
  }

  lemma DataTakes(p: DataPath, lock: Lock, mode: Mode)
    requires InRoom(lock)
    ensures Among(Acquire(lock, mode), DataOps(p)) <==> DataNeeds(p, lock, mode)
  {
    var op, look := Acquire(lock, mode), [Section(RoomsMu, Read)];
    match p
    case DataNoRoom =>
    case NoRequest(r) => assert Section(RequestsMu(r), Write) in DataOps(p);
    case NoClient(r) => assert Section(RequestsMu(r), Write) in DataOps(p)
      && Section(ClientsMu(r), Write) in DataOps(p);
    case Paired(r, found, cleanup, recovered) =>
      PairedTakes(r, found, lock, mode);
      CleanupTakes(cleanup, lock, mode);
      CleanupsTake(recovered, lock, mode);
      AmongBoth(op, PairedHead(r, found), CleanupOps(cleanup));
      AmongBoth(op, PairedHead(r, found) + CleanupOps(cleanup), CleanupsOps(recovered));
      AmongBoth(op, look, PairedHead(r, found) + CleanupOps(cleanup) + CleanupsOps(recovered));
  }

  lemma PacketTakes(p: PacketPath, lock: Lock, mode: Mode)
    requires InRoom(lock)
    ensures Among(Acquire(lock, mode), PacketOps(p)) <==> PacketNeeds(p, lock, mode)
  {
    if !p.Quiet? {
      assert PacketOps(p)[1] in PacketOps(p);
    }
  }

  lemma PacketsNeedLater(ps: seq<PacketPath>, lock: Lock, mode: Mode)
    requires ps != [] && !Unwinds(ps[0])
    ensures PacketsNeed(ps, lock, mode) <==> PacketNeeds(ps[0], lock, mode) || PacketsNeed(ps[1..], lock, mode)
  {
    if k :| 0 <= k < |ps| - 1 && PacketNeeds(ps[1..][k], lock, mode)
            && forall j :: 0 <= j < k ==> !Unwinds(ps[1..][j]) {
      assert forall j :: 1 <= j < k + 1 ==> ps[j] == ps[1..][j - 1];
      assert PacketNeeds(ps[k + 1], lock, mode);
    }
    if k :| 1 <= k < |ps| && PacketNeeds(ps[k], lock, mode) && forall j :: 0 <= j < k ==> !Unwinds(ps[j]) {
      assert PacketNeeds(ps[1..][k - 1], lock, mode);
      assert forall j :: 0 <= j < k - 1 ==> ps[1..][j] == ps[j + 1];
    }
  }

  lemma {:induction false} ServeTakes(ps: seq<PacketPath>, cleanup: CleanupPath, lock: Lock, mode: Mode)
    requires InRoom(lock)
    ensures Among(Acquire(lock, mode), ServeOps(ps, cleanup))
            <==> PacketsNeed(ps, lock, mode) || CleanupNeeds(cleanup, lock, mode)
  {
    var op := Acquire(lock, mode);
    CleanupTakes(cleanup, lock, mode);
    if ps != [] {
      PacketTakes(ps[0], lock, mode);
      if Unwinds(ps[0]) {
        AmongBoth(op, PacketOps(ps[0]), CleanupOps(cleanup));
      } else {
        ServeTakes(ps[1..], cleanup, lock, mode);
        AmongBoth(op, PacketOps(ps[0]), ServeOps(ps[1..], cleanup));
        PacketsNeedLater(ps, lock, mode);
      }
    }
  }

  lemma {:induction false} TicksTakeNone(ps: seq<TickPath>, lock: Lock, mode: Mode)
    requires InRoom(lock)
    ensures !Among(Acquire(lock, mode), TicksOps(ps))
  {
    if ps != [] {
      TicksTakeNone(ps[1..], lock, mode);
    }
  }

  /**
   Which locks of a Room object a path takes, exactly: for every access to a map, and for
   every write to a host, that happens on it, that map's lock or that room's HostMu in the
   right mode, and no other. (Two accesses go by another lock in the code: a host's cleanup
   goes through ClientsToHostConnections under RoomsMu, and a data connection reads its partner
   in HostToClientsConnections under the other map's lock.)
   */
  lemma RoomLocksAreTakenExactly(p: Path, lock: Lock, mode: Mode)
    requires InRoom(lock)
    ensures Takes(p, lock, mode) <==> Needs(p, lock, mode)
  {
    var op := Acquire(lock, mode);
    var look := [Section(RoomsMu, Read)];
    InJoin(op, Ops(p));
    assert Takes(p, lock, mode) <==> Among(op, Ops(p));
    match p {
      case ClientConnection(client, cleanup) =>
        ClientTakes(client, lock, mode);
        CleanupTakes(cleanup, lock, mode);
        AmongBoth(op, ClientHead(client), CleanupOps(cleanup));
        AmongBoth(op, look, ClientOps(client, cleanup));
      case DataConnection(data) =>
        DataTakes(data, lock, mode);
        AmongBoth(op, look, DataOps(data));
      case HostServed(packets, cleanup) =>
        ServeTakes(packets, cleanup, lock, mode);
        AmongBoth(op, [Section(RoomsMu, Read), Section(RoomsMu, Write), Section(RoomsMu, Read)],
          ServeOps(packets, cleanup));
      case ClientSignalServed(packets, cleanup) =>
        ServeTakes(packets, cleanup, lock, mode);
        AmongBoth(op, [Section(RoomsMu, Read), Section(RoomsMu, Read)], ServeOps(packets, cleanup));
      case Background(ticks) => TicksTakeNone(ticks, lock, mode);
      case _ =>
    }
  }

  // ---- The locks outside the rooms ----

  predicate HasTick(ticks: seq<TickPath>, tick: TickPath) {
    tick in ticks
  }

  /** Whose cleanup this path runs, if it is the host's. */
  predicate HostCleansUp(p: Path) {
    match p
    case ClientConnection(_, cleanup) => cleanup.HostLeft?
    case DataConnection(data) =>
      data.Paired? && (data.cleanup.HostLeft? || exists c :: c in data.recovered && c.HostLeft?)
    case HostServed(_, cleanup) => cleanup.HostLeft?
    case ClientSignalServed(_, cleanup) => cleanup.HostLeft?
    case _ => false
  }

  /** The used salts are locked by every creation whose token verified, and by the purge. */
  predicate NeedsSalts(p: Path) {
    match p
    case Creation(creation) => !creation.WorkUnverified?
    case Background(ticks) => HasTick(ticks, Salts)
    case _ => false
  }

  /** The deleted rooms are read for a client that finds no room, and read and written by their cleaner. */
  predicate ReadsDeleted(p: Path) {
    match p
    case MissingRoom(forClient) => forClient
    case Background(ticks) => HasTick(ticks, Reasons)
    case _ => false
  }

  predicate WritesDeleted(p: Path) {
    HostCleansUp(p) || (p.Background? && HasTick(p.ticks, Reasons))
  }

  predicate Global(lock: Lock) {
    lock == UsedSaltsMu || lock == RecentlyDeletedMu
  }

  lemma CleanupTakesGlobal(c: CleanupPath, lock: Lock, mode: Mode)
    requires Global(lock)
    ensures Among(Acquire(lock, mode), CleanupOps(c)) <==> c.HostLeft? && lock == RecentlyDeletedMu && mode == Write
  {
    assert CleanupOps(c)[0] in CleanupOps(c);
  }

  lemma {:induction false} CleanupsTakeGlobal(cs: seq<CleanupPath>, lock: Lock, mode: Mode)
    requires Global(lock)
    ensures Among(Acquire(lock, mode), CleanupsOps(cs)) <==>
            (exists c :: c in cs && c.HostLeft?) && lock == RecentlyDeletedMu && mode == Write
  {
    if cs != [] {
      CleanupTakesGlobal(cs[0], lock, mode);
      CleanupsTakeGlobal(cs[1..], lock, mode);
      AmongBoth(Acquire(lock, mode), CleanupOps(cs[0]), CleanupsOps(cs[1..]));
      assert forall c :: c in cs <==> c == cs[0] || c in cs[1..];
    }
  }

  lemma {:induction false} PollsTakeNoGlobal(ps: seq<PollPath>, lock: Lock, mode: Mode)
    requires Global(lock)
    ensures !Among(Acquire(lock, mode), PollsOps(ps))
  {
    if ps != [] {
      PollsTakeNoGlobal(ps[1..], lock, mode);
    }
  }

  lemma {:induction false} ServeTakesGlobal(ps: seq<PacketPath>, cleanup: CleanupPath, lock: Lock, mode: Mode)
    requires Global(lock)
    ensures Among(Acquire(lock, mode), ServeOps(ps, cleanup)) <==> Among(Acquire(lock, mode), CleanupOps(cleanup))
  {
    if ps != [] {
      assert !Among(Acquire(lock, mode), PacketOps(ps[0]));
      if Unwinds(ps[0]) {
        AmongBoth(Acquire(lock, mode), PacketOps(ps[0]), CleanupOps(cleanup));
      } else {
        ServeTakesGlobal(ps[1..], cleanup, lock, mode);
        AmongBoth(Acquire(lock, mode), PacketOps(ps[0]), ServeOps(ps[1..], cleanup));
      }
    }
  }

  lemma TickTakesGlobal(tick: TickPath, lock: Lock, mode: Mode)
    requires Global(lock)
    ensures Among(Acquire(lock, mode), TicksOps([tick])) <==>
            (tick == Salts && lock == UsedSaltsMu && mode == Write) || (tick == Reasons && lock == RecentlyDeletedMu)
  {
    assert tick == Salts ==> Section(UsedSaltsMu, Write) in TicksOps([tick]);
    assert tick == Reasons ==>
           Section(RecentlyDeletedMu, Read) in TicksOps([tick])
           && Section(RecentlyDeletedMu, Write) in TicksOps([tick]);
  }

  lemma {:induction false} TicksTakeGlobal(ticks: seq<TickPath>, lock: Lock, mode: Mode)
    requires Global(lock)
    ensures Among(Acquire(lock, mode), TicksOps(ticks)) <==>
            (HasTick(ticks, Salts) && lock == UsedSaltsMu && mode == Write)
              || (HasTick(ticks, Reasons) && lock == RecentlyDeletedMu)
  {
    if ticks != [] {
      TickTakesGlobal(ticks[0], lock, mode);
      TicksTakeGlobal(ticks[1..], lock, mode);
      OneMoreTickInFront(ticks);
      AmongBoth(Acquire(lock, mode), TicksOps([ticks[0]]), TicksOps(ticks[1..]));
    }
  }

  lemma OneMoreTickInFront(ticks: seq<TickPath>)
    requires ticks != []
    ensures TicksOps(ticks) == TicksOps([ticks[0]]) + TicksOps(ticks[1..])
  {
    assert [ticks[0]][1..] == [];
  }

  lemma ClientTakesNoGlobal(p: ClientPath, lock: Lock, mode: Mode)
    requires Global(lock)
    ensures !Among(Acquire(lock, mode), ClientHead(p))
  {
    if p.Waited? {
      var op, look := Acquire(lock, mode), [Section(RoomsMu, Read)];
      PollsTakeNoGlobal(p.polls, lock, mode);
      AmongBoth(op, AskOps(p.room), PollsOps(p.polls));
      AmongBoth(op, AskOps(p.room) + PollsOps(p.polls), SweepOps(p.sweep));
      AmongBoth(op, look, AskOps(p.room) + PollsOps(p.polls) + SweepOps(p.sweep));
    }
  }

  lemma DataTakesGlobal(p: DataPath, lock: Lock, mode: Mode)
    requires Global(lock)
    ensures Among(Acquire(lock, mode), DataOps(p)) <==>
            HostCleansUp(DataConnection(p)) && lock == RecentlyDeletedMu && mode == Write
  {
    if p.Paired? {
      var op, head := Acquire(lock, mode), PairedHead(p.room, p.found);
      CleanupTakesGlobal(p.cleanup, lock, mode);
      CleanupsTakeGlobal(p.recovered, lock, mode);
      assert !Among(op, head);
      AmongBoth(op, head, CleanupOps(p.cleanup));
      AmongBoth(op, head + CleanupOps(p.cleanup), CleanupsOps(p.recovered));
      AmongBoth(op, [Section(RoomsMu, Read)], head + CleanupOps(p.cleanup) + CleanupsOps(p.recovered));
    }
  }

  /** Which paths take the lock of the used salts and that of the recently deleted rooms, and how. */
  lemma GlobalLocksAreTakenExactly(p: Path, mode: Mode)
    ensures Takes(p, UsedSaltsMu, mode) <==> NeedsSalts(p) && mode == Write
    ensures Takes(p, RecentlyDeletedMu, mode) <==> if mode == Read then ReadsDeleted(p) else WritesDeleted(p)
  {
    GlobalTakes(p, UsedSaltsMu, mode);
    GlobalTakes(p, RecentlyDeletedMu, mode);
  }

  predicate NeedsGlobal(p: Path, lock: Lock, mode: Mode) {
    if lock == UsedSaltsMu then NeedsSalts(p) && mode == Write
    else if mode == Read then ReadsDeleted(p)
    else WritesDeleted(p)
  }

  lemma GlobalTakes(p: Path, lock: Lock, mode: Mode)
    requires Global(lock)
    ensures Takes(p, lock, mode) <==> NeedsGlobal(p, lock, mode)
  {
    var op, look := Acquire(lock, mode), [Section(RoomsMu, Read)];
    InJoin(op, Ops(p));
    assert Takes(p, lock, mode) <==> Among(op, Ops(p));
    match p {
      case ClientConnection(client, cleanup) =>
        ClientTakesNoGlobal(client, lock, mode);
        CleanupTakesGlobal(cleanup, lock, mode);
        AmongBoth(op, ClientHead(client), CleanupOps(cleanup));
        AmongBoth(op, look, ClientOps(client, cleanup));
      case DataConnection(data) =>
        DataTakesGlobal(data, lock, mode);
        AmongBoth(op, look, DataOps(data));
      case HostServed(packets, cleanup) =>
        ServeTakesGlobal(packets, cleanup, lock, mode);
        CleanupTakesGlobal(cleanup, lock, mode);
        AmongBoth(op, [Section(RoomsMu, Read), Section(RoomsMu, Write), Section(RoomsMu, Read)],
          ServeOps(packets, cleanup));
      case ClientSignalServed(packets, cleanup) =>
        ServeTakesGlobal(packets, cleanup, lock, mode);
        CleanupTakesGlobal(cleanup, lock, mode);
        AmongBoth(op, [Section(RoomsMu, Read), Section(RoomsMu, Read)], ServeOps(packets, cleanup));
      case Background(ticks) => TicksTakeGlobal(ticks, lock, mode);
      case Creation(creation) =>
        assert !creation.WorkUnverified? ==> Section(UsedSaltsMu, Write) in Ops(p);
      case MissingRoom(forClient) =>
        assert forClient ==> Section(RecentlyDeletedMu, Read) in Ops(p);
      case _ =>
    }
  }

  /** A background round takes RoomsMu for reading in every scan and probe, and for writing in every deletion. */
  predicate TickNeedsRooms(tick: TickPath, mode: Mode) {
    match tick
    case Ghosts(any) => mode == Read || any
    case Idles(any, _) => mode == Read || any
    case Watchdog => mode == Read
    case _ => false
  }

  lemma {:induction false} TicksTakeRooms(ticks: seq<TickPath>, mode: Mode)
    ensures Takes(Background(ticks), RoomsMu, mode) <==> exists k :: 0 <= k < |ticks| && TickNeedsRooms(ticks[k], mode)
  {
    InJoin(Acquire(RoomsMu, mode), TicksOps(ticks));
    TicksAmongRooms(ticks, mode);
  }

  lemma {:induction false} TicksAmongRooms(ticks: seq<TickPath>, mode: Mode)
    ensures Among(Acquire(RoomsMu, mode), TicksOps(ticks))
            <==> exists k :: 0 <= k < |ticks| && TickNeedsRooms(ticks[k], mode)
  {
    if ticks != [] {
      TickTakesRooms(ticks[0], mode);
      TicksAmongRooms(ticks[1..], mode);
      OneMoreTickInFront(ticks);
      AmongBoth(Acquire(RoomsMu, mode), TicksOps([ticks[0]]), TicksOps(ticks[1..]));
      assert forall k :: 1 <= k < |ticks| ==> ticks[1..][k - 1] == ticks[k];
    }
  }

  lemma TickTakesRooms(tick: TickPath, mode: Mode)
    ensures Among(Acquire(RoomsMu, mode), TicksOps([tick])) <==> TickNeedsRooms(tick, mode)
  {
    var pieces := TicksOps([tick]);
    assert tick.Ghosts? || tick.Idles? || tick.Watchdog? ==> Section(RoomsMu, Read) in pieces;
    assert (tick.Ghosts? || tick.Idles?) && tick.any ==> Section(RoomsMu, Write) in pieces;
  }

  /** Whoever is refused on one of these paths is closed. */
  lemma RefusedPathsClose(p: Path)
    requires p.BadVersion? || p.MissingRoom? || p.HostRefused? || p.ClientSignalRefused?
    ensures CloseSocket in Join(Ops(p))
  {
    InJoin(CloseSocket, Ops(p));
    assert CLOSE in Ops(p) && CloseSocket in CLOSE;
  }

  /** The room of the first packet on which the handler unwinds. */
  function FirstUnwinding(ps: seq<PacketPath>): Option<nat> {
    if ps == [] then None else if Unwinds(ps[0]) then Some(ps[0].room) else FirstUnwinding(ps[1..])
  }

  /** The room, if any, whose HostMu a path never gives back: that of the write on which it unwinds. */
  function Lost(p: Path): Option<nat> {
    match p
    case ClientConnection(AskPanics(room), _) => Some(room)
    case HostServed(packets, _) => FirstUnwinding(packets)
    case ClientSignalServed(packets, _) => FirstUnwinding(packets)
    case _ => None
  }

  // ---- Disciplined pieces ----

  predicate Balanced(ops: seq<Op>) {
    Disciplined({}, map[], ops)
  }

  predicate AllBalanced(pieces: seq<Piece>) {
    forall p :: p in pieces ==> Balanced(p)
  }

  /** After a disciplined stretch that gives back its locks, only the rest matters. */
  lemma {:induction false} Compose(kept: set<Lock>, held: map<Lock, Mode>, a: seq<Op>, b: seq<Op>)
    requires Disciplined({}, held, a)
    ensures Disciplined(kept, held, a + b) <==> Disciplined(kept, map[], b)
    ensures HeldAtEnd(held, a + b) == HeldAtEnd(map[], b)
    decreases |a|
  {
    if a == [] {
      assert a + b == b && held == map[];
    } else {
      assert (a + b)[1..] == a[1..] + b;
      Compose(kept, HeldAfter(held, a[0]), a[1..], b);
    }
  }

  /** Balanced pieces in front change nothing about the rest. */
  lemma {:induction false} BalancedPrefix(kept: set<Lock>, pieces: seq<Piece>, rest: seq<Piece>)
    requires AllBalanced(pieces)
    ensures Disciplined(kept, map[], Join(pieces + rest)) <==> Disciplined(kept, map[], Join(rest))
    ensures HeldAtEnd(map[], Join(pieces + rest)) == HeldAtEnd(map[], Join(rest))
  {
    if pieces == [] {
      assert pieces + rest == rest;
    } else {
      assert (pieces + rest)[1..] == pieces[1..] + rest;
      assert Balanced(pieces[0]);
      Compose(kept, map[], pieces[0], Join(pieces[1..] + rest));
      BalancedPrefix(kept, pieces[1..], rest);
    }
  }

  lemma BalancedJoin(pieces: seq<Piece>)
    requires AllBalanced(pieces)
    ensures Balanced(Join(pieces)) && HeldAtEnd(map[], Join(pieces)) == map[]
  {
    BalancedPrefix({}, pieces, []);
    assert pieces + [] == pieces;
  }

  lemma SectionsAreBalanced()
    ensures forall lock, mode :: Balanced(Section(lock, mode))
    ensures Balanced(CLOSE)
    ensures forall n :: AllBalanced(Closes(n))
  {
    assert CLOSE[1..] == [];
    forall lock, mode ensures Balanced(Section(lock, mode)) {
      SectionIsBalanced(lock, mode);
    }
  }

  lemma SectionIsBalanced(lock: Lock, mode: Mode)
    ensures Balanced(Section(lock, mode))
  {
    var held: map<Lock, Mode> := map[lock := mode];
    assert held - {lock} == map[] && [Release(lock)][1..] == [];
    assert Disciplined({}, held, [Release(lock)]);
    assert Section(lock, mode)[1..] == [Release(lock)];
  }

  /** A section of a lower-ranked lock may stand anywhere under RoomsMu. */
  lemma NestedSection(lock: Lock, mode: Mode, rest: seq<Op>)
    requires lock != RoomsMu
    ensures Disciplined({}, map[RoomsMu := Write], Section(lock, mode) + rest)
            <==> Disciplined({}, map[RoomsMu := Write], rest)
  {
    var ops := Section(lock, mode) + rest;
    assert ops[1..] == [Release(lock)] + rest && ([Release(lock)] + rest)[1..] == rest;
    assert map[RoomsMu := Write][lock := mode] - {lock} == map[RoomsMu := Write];
  }

  lemma CleanupIsBalanced(p: CleanupPath)
    ensures AllBalanced(CleanupOps(p))
  {
    SectionsAreBalanced();
    var ops, last := CleanupSection(p), [Release(RoomsMu)];
    assert last[1..] == [] && map[RoomsMu := Write] - {RoomsMu} == map[];
    assert Disciplined({}, map[RoomsMu := Write], last);
    match p
    case RoomGone => assert ops[1..] == last;
    case HostLeft(_) =>
      assert ops[1..] == Section(RecentlyDeletedMu, Write) + last;
      NestedSection(RecentlyDeletedMu, Write, last);
    case PartnerLeft(r, _) =>
      assert ops[1..] == Section(ClientsMu(r), Read) + (Section(HostsMu(r), Read) + last);
      NestedSection(ClientsMu(r), Read, Section(HostsMu(r), Read) + last);
      NestedSection(HostsMu(r), Read, last);
  }

  lemma {:induction false} PollsAreBalanced(ps: seq<PollPath>)
    ensures AllBalanced(PollsOps(ps))
  {
    SectionsAreBalanced();
    if ps != [] {
      PollsAreBalanced(ps[1..]);
    }
  }

  lemma {:induction false} CleanupsAreBalanced(ps: seq<CleanupPath>)
    ensures AllBalanced(CleanupsOps(ps))
  {
    if ps != [] {
      CleanupIsBalanced(ps[0]);
      CleanupsAreBalanced(ps[1..]);
    }
  }

  lemma {:induction false} TicksAreBalanced(ps: seq<TickPath>)
    ensures AllBalanced(TicksOps(ps))
  {
    SectionsAreBalanced();
    if ps != [] {
      TicksAreBalanced(ps[1..]);
    }
  }

  lemma SweepIsBalanced(p: SweepPath)
    ensures AllBalanced(SweepOps(p))
  {
    SectionsAreBalanced();
  }

  lemma AskIsBalanced(room: nat)
    ensures AllBalanced(AskOps(room))
  {
    SectionsAreBalanced();
  }

  lemma ClientIsBalanced(p: ClientPath, cleanup: CleanupPath)
    requires !p.AskPanics?
    ensures AllBalanced(ClientOps(p, cleanup))
  {
    SectionsAreBalanced();
    CleanupIsBalanced(cleanup);
    if p.WriteFailed? || p.Waited? {
      AskIsBalanced(p.room);
    }
    if p.Waited? {
      PollsAreBalanced(p.polls);
      SweepIsBalanced(p.sweep);
    }
  }

  lemma DataIsBalanced(p: DataPath)
    ensures AllBalanced(DataOps(p))
  {
    SectionsAreBalanced();
    if p.Paired? {
      CleanupIsBalanced(p.cleanup);
      CleanupsAreBalanced(p.recovered);
    }
  }

  lemma {:induction false} ServeIsBalanced(ps: seq<PacketPath>, cleanup: CleanupPath)
    requires FirstUnwinding(ps).None?
    ensures AllBalanced(ServeOps(ps, cleanup))
  {
    SectionsAreBalanced();
    if ps == [] {
      CleanupIsBalanced(cleanup);
    } else {
      ServeIsBalanced(ps[1..], cleanup);
    }
  }

  // ---- Unwinding ----

  predicate Avoids(ops: seq<Op>, lock: Lock) {
    forall op :: op in ops ==> op.CloseSocket? || op.lock != lock
  }

  lemma {:induction false} JoinAvoids(pieces: seq<Piece>, lock: Lock)
    requires forall p :: p in pieces ==> Avoids(p, lock)
    ensures Avoids(Join(pieces), lock)
  {
    if pieces != [] {
      assert pieces[0] in pieces;
      JoinAvoids(pieces[1..], lock);
    }
  }

  /** A lock that is kept for good and not asked for again does not disturb what follows. */
  lemma {:induction false} KeptDoesNotDisturb(held: map<Lock, Mode>, todo: seq<Op>, lock: Lock)
    requires Disciplined({}, held, todo) && Avoids(todo, lock) && lock !in held && lock != RoomsMu
    ensures Disciplined({lock}, held[lock := Write], todo)
    ensures HeldAtEnd(held[lock := Write], todo) == map[lock := Write]
    decreases |todo|
  {
    if todo != [] {
      assert todo[0] in todo;
      assert HeldAfter(held[lock := Write], todo[0]) == HeldAfter(held, todo[0])[lock := Write];
      KeptDoesNotDisturb(HeldAfter(held, todo[0]), todo[1..], lock);
    }
  }

  /** Balanced pieces, then the unwinding, then the deferred cleanup. */
  lemma UnwindingKeeps(prefix: seq<Piece>, room: nat, cleanup: CleanupPath)
    requires AllBalanced(prefix)
    ensures var ops := Join(prefix + ([Orphan(room)] + CleanupOps(cleanup)));
            && Disciplined({HostMu(room)}, map[], ops)
            && HeldAtEnd(map[], ops) == map[HostMu(room) := Write]
  {
    var lock, tail := HostMu(room), CleanupOps(cleanup);
    BalancedPrefix({lock}, prefix, [Orphan(room)] + tail);
    CleanupIsBalanced(cleanup);
    BalancedJoin(tail);
    JoinAvoids(tail, lock);
    KeptDoesNotDisturb(map[], Join(tail), lock);
    assert ([Orphan(room)] + tail)[1..] == tail;
    var ops := Join([Orphan(room)] + tail);
    assert ops[0] == Acquire(lock, Write) && ops[1..] == Join(tail);
    assert HeldAfter(map[], ops[0]) == map[lock := Write];
  }

  /** A signal loop that unwinds has handled whole packets before. */
  lemma {:induction false} ServeSplits(ps: seq<PacketPath>, cleanup: CleanupPath) returns (prefix: seq<Piece>)
    requires FirstUnwinding(ps).Some?
    ensures AllBalanced(prefix)
    ensures ServeOps(ps, cleanup) == prefix + ([Orphan(FirstUnwinding(ps).value)] + CleanupOps(cleanup))
  {
    SectionsAreBalanced();
    if Unwinds(ps[0]) {
      prefix := [Section(RoomsMu, Read)];
    } else {
      var rest := ServeSplits(ps[1..], cleanup);
      prefix := PacketOps(ps[0]) + rest;
    }
  }

  lemma ServedSplits(first: seq<Piece>, ps: seq<PacketPath>, cleanup: CleanupPath) returns (prefix: seq<Piece>)
    requires AllBalanced(first) && FirstUnwinding(ps).Some?
    ensures AllBalanced(prefix)
    ensures first + ServeOps(ps, cleanup) == prefix + ([Orphan(FirstUnwinding(ps).value)] + CleanupOps(cleanup))
  {
    var rest := ServeSplits(ps, cleanup);
    prefix := first + rest;
  }

  /** Where a path unwinds, its pieces split into balanced ones, the write, and the cleanup. */
  lemma LosingPathSplits(p: Path) returns (prefix: seq<Piece>)
    requires Lost(p).Some?
    ensures AllBalanced(prefix) && Ops(p) == prefix + ([Orphan(Lost(p).value)] + CleanupOps(p.cleanup))
  {
    SectionsAreBalanced();
    var read, write := Section(RoomsMu, Read), Section(RoomsMu, Write);
    match p
    case ClientConnection(client, _) => prefix := [read, read] + FileOps(client.room);
    case HostServed(packets, _) => prefix := ServedSplits([read, write, read], packets, p.cleanup);
    case ClientSignalServed(packets, _) => prefix := ServedSplits([read, read], packets, p.cleanup);
  }

  lemma KeepingPathIsBalanced(p: Path)
    requires Lost(p).None?
    ensures AllBalanced(Ops(p))
  {
    SectionsAreBalanced();
    match p {
      case ClientConnection(client, cleanup) => ClientIsBalanced(client, cleanup);
      case DataConnection(data) => DataIsBalanced(data);
      case HostServed(packets, cleanup) => ServeIsBalanced(packets, cleanup);
      case ClientSignalServed(packets, cleanup) => ServeIsBalanced(packets, cleanup);
      case Background(ticks) => TicksAreBalanced(ticks);
      case _ =>
    }
  }

  // ---- All paths ----

  /** The locks that a path never gives back. */
  function KeptBy(p: Path): map<Lock, Mode> {
    match Lost(p)
    case None => map[]
    case Some(room) => map[HostMu(room) := Write]
  }

  /**
   Every way through every handler and background loop keeps the order of locks and closes no
   socket under RoomsMu, and in the end holds nothing, unless it unwinds under a HostMu: then
   it holds that one, for good.
   */
  lemma PathsKeepWhatTheyLose(p: Path)
    ensures Disciplined(KeptBy(p).Keys, map[], Join(Ops(p)))
    ensures HeldAtEnd(map[], Join(Ops(p))) == KeptBy(p)
  {
    if Lost(p).Some? {
      var prefix := LosingPathSplits(p);
      UnwindingKeeps(prefix, Lost(p).value, p.cleanup);
      assert KeptBy(p).Keys == {HostMu(Lost(p).value)};
    } else {
      KeepingPathIsBalanced(p);
      BalancedJoin(Ops(p));
      assert KeptBy(p).Keys == {};
    }
  }

  lemma {:induction false} BalancedHoldsNothing(held: map<Lock, Mode>, todo: seq<Op>)
    requires Disciplined({}, held, todo)
    ensures HeldAtEnd(held, todo) == map[]
    decreases |todo|
  {
    if todo != [] {
      BalancedHoldsNothing(HeldAfter(held, todo[0]), todo[1..]);
    }
  }

  /** A path gives back every lock it takes exactly when it does not unwind under a HostMu. */
  lemma PathsAreDisciplined(p: Path)
    ensures Balanced(Join(Ops(p))) <==> Lost(p).None?
  {
    PathsKeepWhatTheyLose(p);
    if Lost(p).None? {
      assert KeptBy(p).Keys == {};
    } else if Balanced(Join(Ops(p))) {
      assert HostMu(Lost(p).value) in KeptBy(p);
      BalancedHoldsNothing(map[], Join(Ops(p)));
    }
  }

  /** No path closes a socket while it holds RoomsMu. */
  lemma PathsCloseOutsideRooms(p: Path, n: nat)
    requires n < |Join(Ops(p))| && Join(Ops(p))[n] == CloseSocket
    ensures RoomsMu !in HeldAt(map[], Join(Ops(p)), n)
  {
    PathsKeepWhatTheyLose(p);
    DisciplineMeans(KeptBy(p).Keys, map[], Join(Ops(p)), n);
  }

  // ---- The relay as a whole ----

  /** Any number of handlers and background loops about to start, each on its own path. */
  function Starting(paths: seq<Path>): System {
    seq(|paths|, i requires 0 <= i < |paths| => Thread(map[], Join(Ops(paths[i])), false))
  }

  predicate LocksHost(p: Path, room: nat) {
    exists op :: op in Join(Ops(p)) && op.Acquire? && op.lock == HostMu(room)
  }

  /**
   Who needs a HostMu: a client that asks its host, and a signal loop that handles a packet
   under it, unwinding included.
   */
  lemma LocksHostExactly(p: Path, room: nat)
    ensures LocksHost(p, room) <==> Needs(p, HostMu(room), Write)
  {
    RoomLocksAreTakenExactly(p, HostMu(room), Write);
    RoomLocksAreTakenExactly(p, HostMu(room), Read);
    if op :| op in Join(Ops(p)) && op.Acquire? && op.lock == HostMu(room) {
      assert op == Acquire(HostMu(room), op.mode);
      assert op.mode == Read || op.mode == Write;
    }
  }

  /** Nobody needs a HostMu that another handler loses. */
  predicate NoLostLockWanted(paths: seq<Path>) {
    forall i, j :: 0 <= i < |paths| && 0 <= j < |paths| && i != j && Lost(paths[i]).Some? ==>
      !LocksHost(paths[j], Lost(paths[i]).value)
  }

  lemma StartingIsInitial(paths: seq<Path>)
    ensures Initial(Starting(paths)) && KeptForWriting(Starting(paths))
    ensures forall i :: 0 <= i < |paths| ==> Keeps(Starting(paths)[i]) == KeptBy(paths[i]).Keys
  {
    forall i | 0 <= i < |paths|
      ensures Fresh(Starting(paths)[i]) && Keeps(Starting(paths)[i]) == KeptBy(paths[i]).Keys
      ensures forall lock :: lock in Keeps(Starting(paths)[i]) ==>
              HeldAtEnd(map[], Starting(paths)[i].todo)[lock] == Write
    {
      PathsKeepWhatTheyLose(paths[i]);
    }
  }

  lemma LostLocksAreKept(paths: seq<Path>)
    ensures KeptAlone(Starting(paths)) <==> NoLostLockWanted(paths)
  {
    var sys := Starting(paths);
    StartingIsInitial(paths);
    forall j, room | 0 <= j < |paths|
      ensures Uses(sys[j], HostMu(room)) <==> LocksHost(paths[j], room)
    {
    }
    if KeptAlone(sys) {
      forall i, j | 0 <= i < |paths| && 0 <= j < |paths| && i != j && Lost(paths[i]).Some?
        ensures !LocksHost(paths[j], Lost(paths[i]).value)
      {
        assert HostMu(Lost(paths[i]).value) in Keeps(sys[i]);
      }
    }
  }

  /**
   The exact condition for the relay to be live. For any number of handlers on any paths:
   from every state of every schedule all of them can be taken to their ends, if and only if
   none of them needs a HostMu that another one loses by unwinding.
   */
  lemma RelayNeverStuckExactly(paths: seq<Path>)
    ensures NeverStuck(Starting(paths)) <==> NoLostLockWanted(paths)
  {
    StartingIsInitial(paths);
    LostLocksAreKept(paths);
    NeverStuckExactly(Starting(paths));
  }

  /**
   While nobody needs a lost HostMu the relay never deadlocks: under any schedule, a handler
   that has work left either can go on, or waits for one that is inside a critical section,
   or queued for one, and can go on.
   */
  lemma RelayNeverDeadlocks(paths: seq<Path>, order: seq<nat>, i: nat)
    requires NoLostLockWanted(paths)
    requires Schedule(Starting(paths), order)
    requires i < |After(Starting(paths), order)| && After(Starting(paths), order)[i].todo != []
    ensures CanStep(After(Starting(paths), order), i)
            || exists j :: 0 <= j < |After(Starting(paths), order)| && Engaged(After(Starting(paths), order)[j])
                           && CanStep(After(Starting(paths), order), j)
  {
    StartingIsInitial(paths);
    LostLocksAreKept(paths);
    NeverDeadlocked(Starting(paths), order, i);
  }

  /**
   What unwinding costs: whenever one handler unwinds under a HostMu and another one needs
   it, some schedule leaves the other waiting for ever, whatever is scheduled after that.
   */
  lemma UnwindingStrands(paths: seq<Path>, gone: nat, waiter: nat, room: nat) returns (order: seq<nat>)
    requires gone < |paths| && waiter < |paths| && gone != waiter
    requires Lost(paths[gone]) == Some(room) && LocksHost(paths[waiter], room)
    ensures Schedule(Starting(paths), order) && Stranded(After(Starting(paths), order), waiter)
  {
    StartingIsInitial(paths);
    PathsKeepWhatTheyLose(paths[gone]);
    var sys := Starting(paths);
    assert HostMu(room) in Keeps(sys[gone]) && Uses(sys[waiter], HostMu(room));
    order := ClashStrands(sys, gone, waiter, HostMu(room));
  }
}
