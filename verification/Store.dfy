/**
 The state the relay's handlers share, and what each critical section does to it.
 A room code is bound to at most one Room object at a time (app.Rooms); objects that lost
 their code stay on the heap, because running handlers still hold pointers to them.
 */
module Store {
  import opened Options

  /** An upgraded connection. Each HandleRelay call has its own, so it also names the handler. */
  type Conn = nat
  type RoomId = nat
  type Code = string
  type Byte = b: int | 0 <= b < 256
  type Packet = seq<Byte>

  const LUCKY_CODE := "676767"
  const ROOM_EMPTY_CLEANUP_DELAY := 60_000
  const ROOM_IDLE_NO_CLIENT_DELAY := 60_000 * 15

  // SignalingMessageType
  const PING: Byte := 1
  const PONG: Byte := 2
  const CONNECTION_ESTABLISHED: Byte := 4

  /** A host's packet that carries a client's id: neither a ping nor a pong, and long enough. */
  predicate ForClients(packet: Packet) {
    |packet| >= 2 && packet[0] != PING && packet[0] != PONG
  }

  /** The packets of a client that the relay hands to the host. */
  predicate ForHost(packet: Packet) {
    packet != [] && packet[0] != PING && packet[0] != PONG && packet[0] != CONNECTION_ESTABLISHED
  }

  datatype Reason =
    | Unspecified
    | HostDisconnected
    | SignalDisconnected
    | ClientDisconnected
    | InternalError
    | ConnectionIdle
    | ReuseTokenPresented
    | RoomNotFound
    | InvalidAction
    | InvalidRequestID
    | PairLinkFailed

  /** One call of CloseWebsocket. */
  datatype Closure = Closure(conn: Conn, reason: Reason)

  /** A signal packet written to a connection. */
  datatype Delivery = Delivery(dest: Conn, packet: Packet)

  /** The Room struct. A nil map value in ClientsToHostConnections is None. */
  datatype RoomState = RoomState(
    host: Option<Conn>,
    hasHost: bool,
    requests: map<string, Conn>,
    c2h: map<Conn, Option<Conn>>,
    h2c: map<Conn, Conn>,
    routes: map<Byte, Conn>,
    created: int,
    lastFilled: int)

  /** The table of rooms, every Room object ever made, and the codes that reuse tokens were issued for. */
  datatype Shared = Shared(table: map<Code, RoomId>, heap: seq<RoomState>, issued: set<Code>)

  ghost predicate Wired(s: Shared) {
    forall code :: code in s.table ==> s.table[code] < |s.heap|
  }

  // ---- Critical sections on one Room object ----

  function EmptyRoom(now: int): RoomState {
    RoomState(None, false, map[], map[], map[], map[], now, now)
  }

  function FileRequest(r: RoomState, name: string, client: Conn): RoomState {
    r.(requests := r.requests[name := client])
  }

  function ListClient(r: RoomState, client: Conn): RoomState {
    r.(c2h := r.c2h[client := None])
  }

  function DropRequest(r: RoomState, name: string): RoomState {
    r.(requests := r.requests - {name})
  }

  function Link(r: RoomState, client: Conn, data: Conn): RoomState {
    r.(c2h := r.c2h[client := Some(data)])
  }

  function Mirror(r: RoomState, data: Conn, client: Conn): RoomState {
    r.(h2c := r.h2c[data := client])
  }

  function Touch(r: RoomState, now: int): RoomState {
    r.(lastFilled := now)
  }

  /** The whole handshake: linked, mirrored, and the room's timestamp moved. */
  function Paired(r: RoomState, client: Conn, data: Conn, now: int): RoomState {
    Touch(Mirror(Link(r, client, data), data, client), now)
  }

  function Seat(r: RoomState, host: Conn, now: int): RoomState {
    r.(host := Some(host), hasHost := true, lastFilled := now)
  }

  function Route(r: RoomState, id: Byte, client: Conn): RoomState {
    r.(routes := r.routes[id := client])
  }

  // ---- Critical sections on the table ----

  function PutRoom(s: Shared, id: RoomId, r: RoomState): Shared
    requires id < |s.heap|
  {
    s.(heap := s.heap[id := r])
  }

  /** Of two writes to the same Room object the later one remains. */
  lemma LastWriteWins(s: Shared, id: RoomId, r: RoomState, r': RoomState)
    requires id < |s.heap|
    ensures PutRoom(PutRoom(s, id, r), id, r') == PutRoom(s, id, r')
  {
    assert s.heap[id := r][id := r'] == s.heap[id := r'];
  }

  /** Binds a code to a fresh Room object. */
  function Bind(s: Shared, code: Code, now: int): Shared {
    s.(table := s.table[code := |s.heap|], heap := s.heap + [EmptyRoom(now)])
  }

  function Unbind(s: Shared, codes: set<Code>): Shared {
    s.(table := s.table - codes)
  }

  function Issue(s: Shared, code: Code): Shared {
    s.(issued := s.issued + {code})
  }

  /** The host that a reuse of this code has to evict, if any. */
  function Evicted(s: Shared, code: Code): Option<Conn>
    requires Wired(s)
  {
    if code in s.table then s.heap[s.table[code]].host else None
  }

  /** handleCleanup's section: only the seated host's own cleanup unbinds its code. */
  function AfterCleanup(s: Shared, conn: Conn, code: Code): Shared
    requires Wired(s)
  {
    if code in s.table && s.heap[s.table[code]].host == Some(conn) then Unbind(s, {code}) else s
  }

  // ---- What a cleanup closes ----

  function CloseIf(c: Option<Conn>, reason: Reason): set<Closure> {
    if c.Some? then {Closure(c.value, reason)} else {}
  }

  /** Every registered client, and the data connection linked to it when there is one. */
  function PairClosures(c2h: map<Conn, Option<Conn>>): set<Closure> {
    (set c | c in c2h :: Closure(c, HostDisconnected)) +
    (set c | c in c2h && c2h[c].Some? :: Closure(c2h[c].value, SignalDisconnected))
  }

  function TeardownClosures(r: RoomState, conn: Conn, reason: Reason): set<Closure> {
    PairClosures(r.c2h) + {Closure(conn, reason)}
  }

  function PartingClosures(r: RoomState, conn: Conn, reason: Reason): set<Closure> {
    CloseIf(if conn in r.c2h then r.c2h[conn] else None, ClientDisconnected) +
    CloseIf(if conn in r.h2c then Some(r.h2c[conn]) else None, ClientDisconnected) +
    {Closure(conn, reason)}
  }

  function CleanupClosures(r: RoomState, conn: Conn, reason: Reason): set<Closure> {
    if r.host == Some(conn) then TeardownClosures(r, conn, reason) else PartingClosures(r, conn, reason)
  }

  // ---- What the cleaners select ----

  function GhostRooms(s: Shared, now: int): set<Code>
    requires Wired(s)
  {
    set code | code in s.table
               && !s.heap[s.table[code]].hasHost
               && now - s.heap[s.table[code]].created > ROOM_EMPTY_CLEANUP_DELAY
  }

  function PruneGhosts(s: Shared, stale: set<Code>): Shared
    requires Wired(s)
  {
    Unbind(s, set code | code in stale && code in s.table && !s.heap[s.table[code]].hasHost)
  }

  lemma UnbindOneMore(s: Shared, codes: set<Code>, code: Code)
    ensures Unbind(Unbind(s, codes), {code}) == Unbind(s, codes + {code})
  {
    assert s.table - codes - {code} == s.table - (codes + {code});
  }

  /** Pruning code by code comes to the same as pruning all at once. */
  lemma PruneOneMore(s: Shared, stale: set<Code>, code: Code)
    requires Wired(s)
    ensures var t := PruneGhosts(s, stale);
            PruneGhosts(s, stale + {code}) ==
            if code in t.table && !s.heap[t.table[code]].hasHost then Unbind(t, {code}) else t
  {
    var t := PruneGhosts(s, stale);
    var next := if code in t.table && !s.heap[t.table[code]].hasHost then Unbind(t, {code}) else t;
    assert PruneGhosts(s, stale + {code}).table == next.table;
  }

  function IdleRooms(s: Shared, now: int): set<Code>
    requires Wired(s)
  {
    set code | code in s.table
               && now - s.heap[s.table[code]].lastFilled > ROOM_IDLE_NO_CLIENT_DELAY
               && s.heap[s.table[code]].c2h == map[]
  }

  function HostsOf(s: Shared, codes: set<Code>): set<Conn>
    requires Wired(s)
  {
    set code | code in codes && code in s.table && s.heap[s.table[code]].host.Some? :: s.heap[s.table[code]].host.value
  }
}
