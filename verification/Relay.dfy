/**
 The relay's own objects. A Room is a struct that many handlers point to; the ServerData
 methods below are its handlers' critical sections, in the order in which one handler runs
 them. Each is proved against the function of the shared state that the transition system
 executes, so what holds along the system's runs holds of these bodies.
 */
module Relay {
  import opened Options
  import opened Decimal
  import opened Store

  type RandomBelowMillion = n: nat | n < CODE_SPACE

  datatype Deletion = Deletion(time: int, reason: Reason)

  datatype ReuseOutcome = Rejected | Evict(host: Conn) | Rebound

  class Room {
    ghost const id: RoomId
    var host: Option<Conn>
    var hasHost: bool
    var requests: map<string, Conn>
    var c2h: map<Conn, Option<Conn>>
    var h2c: map<Conn, Conn>
    var routes: map<Byte, Conn>
    var created: int
    var lastFilled: int

    ghost function State(): RoomState
      reads this
    {
      RoomState(host, hasHost, requests, c2h, h2c, routes, created, lastFilled)
    }

    constructor (ghost id: RoomId, now: int)
      ensures this.id == id && State() == EmptyRoom(now)
    {
      this.id := id;
      host, hasHost := None, false;
      requests, c2h, h2c, routes := map[], map[], map[], map[];
      created, lastFilled := now, now;
    }
  }

  // ---- The closing list, in the order in which a map is traversed ----

  /** A traversal of a map's keys, in whatever order the runtime picks. */
  ghost predicate Traverses(order: seq<Conn>, keys: set<Conn>) {
    && (forall i, j :: 0 <= i < j < |order| ==> order[i] != order[j])
    && (forall c :: c in order <==> c in keys)
  }

  /** The calls of CloseWebsocket that two index-aligned lists amount to: nils are skipped with their reasons. */
  function Calls(conns: seq<Option<Conn>>, reasons: seq<Reason>): seq<Closure>
    requires |conns| == |reasons|
  {
    if conns == [] then []
    else
      var last := |conns| - 1;
      Calls(conns[..last], reasons[..last])
        + (if conns[last].Some? then [Closure(conns[last].value, reasons[last])] else [])
  }

  /** What tearing down a room closes when its clients are met in this order. */
  function TeardownCalls(c2h: map<Conn, Option<Conn>>, order: seq<Conn>): seq<Closure>
    requires forall c :: c in order ==> c in c2h
  {
    if order == [] then []
    else
      var c := order[|order| - 1];
      assert c in order;
      TeardownCalls(c2h, order[..|order| - 1]) +
      (if c2h[c].Some? then [Closure(c2h[c].value, SignalDisconnected)] else []) + [Closure(c, HostDisconnected)]
  }

  /** What a connection other than the host takes with it: its partner, whichever end it is. */
  function PartnerCalls(r: RoomState, conn: Conn): seq<Closure> {
    (if conn in r.c2h && r.c2h[conn].Some? then [Closure(r.c2h[conn].value, ClientDisconnected)] else []) +
    (if conn in r.h2c then [Closure(r.h2c[conn], ClientDisconnected)] else [])
  }

  function ClosuresOf(conns: seq<Conn>, reason: Reason): seq<Closure> {
    if conns == [] then [] else ClosuresOf(conns[..|conns| - 1], reason) + [Closure(conns[|conns| - 1], reason)]
  }

  /** One call for each connection, in order. */
  lemma {:induction false} ClosuresOfAll(conns: seq<Conn>, reason: Reason)
    ensures |ClosuresOf(conns, reason)| == |conns|
    ensures forall i :: 0 <= i < |conns| ==> ClosuresOf(conns, reason)[i] == Closure(conns[i], reason)
  {
    if conns != [] {
      ClosuresOfAll(conns[..|conns| - 1], reason);
    }
  }

  function Codes(codes: seq<Code>): set<Code> {
    set code | code in codes
  }

  lemma CallsAppend(conns: seq<Option<Conn>>, reasons: seq<Reason>, c: Option<Conn>, reason: Reason)
    requires |conns| == |reasons|
    ensures Calls(conns + [c], reasons + [reason]) == Calls(conns, reasons)
            + (if c.Some? then [Closure(c.value, reason)] else [])
  {
    assert (conns + [c])[..|conns|] == conns && (reasons + [reason])[..|reasons|] == reasons;
  }

  /** Whatever the order, the calls are the closures of the teardown. */
  lemma {:induction false} TeardownCallsAreClosures(c2h: map<Conn, Option<Conn>>, order: seq<Conn>, p: Closure)
    requires forall c :: c in order ==> c in c2h
    ensures p in TeardownCalls(c2h, order) <==>
            exists c :: c in order && (p == Closure(c, HostDisconnected)
                                       || (c2h[c].Some? && p == Closure(c2h[c].value, SignalDisconnected)))
  {
    if order != [] {
      var init, last := order[..|order| - 1], order[|order| - 1];
      assert order == init + [last];
      assert forall c :: c in order <==> c in init || c == last;
      TeardownCallsAreClosures(c2h, init, p);
    }
  }

  predicate ClosesEachOnce(calls: seq<Closure>) {
    forall i, j :: 0 <= i < j < |calls| ==> calls[i].conn != calls[j].conn
  }

  lemma OneMoreClosed(calls: seq<Closure>, p: Closure)
    requires ClosesEachOnce(calls) && forall q :: q in calls ==> q.conn != p.conn
    ensures ClosesEachOnce(calls + [p])
  {
    assert forall i :: 0 <= i < |calls| ==> calls[i] in calls;
  }

  /** In a room whose links are one-to-one and lead outside its clients, no connection is closed twice. */
  lemma {:induction false} TeardownClosesEachOnce(c2h: map<Conn, Option<Conn>>, order: seq<Conn>)
    requires forall i, j :: 0 <= i < j < |order| ==> order[i] != order[j]
    requires forall c :: c in order ==> c in c2h
    requires forall c, d :: c in c2h && d in c2h && c2h[c].Some? ==> c2h[c].value != d && (c2h[c] == c2h[d] ==> c == d)
    ensures ClosesEachOnce(TeardownCalls(c2h, order))
  {
    if order != [] {
      var init, c := order[..|order| - 1], order[|order| - 1];
      assert c in order;
      TeardownClosesEachOnce(c2h, init);
      var before := TeardownCalls(c2h, init);
      forall p | p in before
        ensures p.conn != c && (c2h[c].Some? ==> p.conn != c2h[c].value)
      {
        TeardownCallsAreClosures(c2h, init, p);
      }
      if c2h[c].Some? {
        OneMoreClosed(before, Closure(c2h[c].value, SignalDisconnected));
        before := before + [Closure(c2h[c].value, SignalDisconnected)];
      }
      OneMoreClosed(before, Closure(c, HostDisconnected));
      assert c2h[c].None? ==>
          TeardownCalls(c2h, order) == TeardownCalls(c2h, init) + [] + [Closure(c, HostDisconnected)];
    }
  }

  class ServerData {
    var rooms: map<Code, Room>
    var recentlyDeleted: map<Code, Deletion>
    ghost var heap: seq<Room>          // every Room object made so far, by id
    ghost var issued: set<Code>        // the codes that reuse tokens were signed for
    ghost var closures: seq<Closure>   // the calls of CloseWebsocket
    ghost var sent: seq<Delivery>      // the signal packets written

    ghost predicate Valid()
      reads this`rooms, this`heap, heap
    {
      && (forall i :: 0 <= i < |heap| ==> heap[i].id == i)
      && (forall code :: code in rooms ==> Holds(rooms[code]))
    }

    ghost predicate Holds(room: Room)
      reads this`heap
    {
      room.id < |heap| && heap[room.id] == room
    }

    ghost function Table(): map<Code, RoomId>
      reads this`rooms
    {
      map code | code in rooms :: rooms[code].id
    }

    ghost function States(): seq<RoomState>
      reads this`heap, heap
    {
      var objects := heap;
      seq(|objects|, i requires 0 <= i < |objects| reads objects => objects[i].State())
    }

    ghost function Abstract(): (s: Shared)
      requires Valid()
      reads this`rooms, this`heap, this`issued, heap
      ensures Wired(s)
    {
      Shared(Table(), States(), issued)
    }

    /** Writing one Room object changes that object's state and nothing else. */
    twostate lemma OneRoomWritten(room: Room)
      requires old(Valid()) && old(Holds(room))
      requires rooms == old(rooms) && heap == old(heap) && issued == old(issued)
      requires forall i :: 0 <= i < |heap| && i != room.id ==> heap[i].State() == old(heap[i].State())
      ensures Valid() && Holds(room)
      ensures Abstract() == PutRoom(old(Abstract()), room.id, room.State())
    {
      assert States() == old(States())[room.id := room.State()];
    }

    constructor ()
      ensures Valid() && Abstract() == Shared(map[], [], {}) && closures == [] && sent == []
    {
      rooms, recentlyDeleted := map[], map[];
      heap, issued, closures, sent := [], {}, [], [];
    }

    lemma StateOf(room: Room)
      requires Valid() && Holds(room)
      ensures Abstract().heap[room.id] == room.State()
    {
    }

    /** CloseWebsocket. */
    method CloseWebsocket(conn: Conn, reason: Reason)
      modifies this`closures
      ensures closures == old(closures) + [Closure(conn, reason)]
    {
      closures := closures + [Closure(conn, reason)];
    }

    method GetRoomExists(code: Code) returns (room: Room?)
      requires Valid()
      ensures room == null <==> code !in rooms
      ensures room != null ==> Holds(room) && room == rooms[code] && Abstract().table[code] == room.id
    {
      if code in rooms {
        room := rooms[code];
      } else {
        room := null;
      }
    }

    // ---- clientRelayHandler's writes ----

    method FileRequest(room: Room, name: string, conn: Conn)
      requires Valid() && Holds(room)
      modifies room`requests
      ensures Valid()
      ensures Abstract() == PutRoom(old(Abstract()), room.id, Store.FileRequest(old(room.State()), name, conn))
    {
      room.requests := room.requests[name := conn];
      OneRoomWritten(room);
    }

    method ListClient(room: Room, conn: Conn)
      requires Valid() && Holds(room)
      modifies room`c2h
      ensures Valid() && Abstract() == PutRoom(old(Abstract()), room.id, Store.ListClient(old(room.State()), conn))
    {
      room.c2h := room.c2h[conn := None];
      OneRoomWritten(room);
    }

    /** One round of the wait: the partner if the entry is linked, and whether there is an entry at all. */
    method PollPartner(room: Room, conn: Conn) returns (listed: bool, partner: Option<Conn>)
      requires Valid() && Holds(room)
      ensures listed <==> conn in Abstract().heap[room.id].c2h
      ensures partner == if listed then Abstract().heap[room.id].c2h[conn] else None
    {
      listed := conn in room.c2h;
      partner := if listed then room.c2h[conn] else None;
    }

    /** handleRequestCleanup. */
    method HandleRequestCleanup(name: string, code: Code)
      requires Valid()
      modifies heap
      ensures Valid() && rooms == old(rooms) && heap == old(heap)
      ensures Abstract() == if code !in old(rooms) then old(Abstract())
                            else PutRoom(old(Abstract()), old(rooms[code].id),
                                         DropRequest(old(rooms[code].State()), name))
    {
      var room := GetRoomExists(code);
      if room == null {
        return;
      }
      if name !in room.requests {
        assert room.requests - {name} == room.requests;
        OneRoomWritten(room);
        return;
      }
      room.requests := room.requests - {name};
      OneRoomWritten(room);
    }

    // ---- HandleRelay for a host's data connection ----

    method TakeRequest(room: Room, name: string) returns (client: Option<Conn>)
      requires Valid() && Holds(room)
      modifies room`requests
      ensures Valid()
      ensures client == if name in old(room.requests) then Some(old(room.requests[name])) else None
      ensures Abstract() == PutRoom(old(Abstract()), room.id, DropRequest(old(room.State()), name))
    {
      if name !in room.requests {
        assert room.requests - {name} == room.requests;
        OneRoomWritten(room);
        return None;
      }
      client := Some(room.requests[name]);
      room.requests := room.requests - {name};
      OneRoomWritten(room);
    }

    method LinkClient(room: Room, client: Conn, conn: Conn) returns (ok: bool)
      requires Valid() && Holds(room)
      modifies room`c2h
      ensures Valid() && (ok <==> client in old(room.c2h))
      ensures Abstract() == if ok then PutRoom(old(Abstract()), room.id, Link(old(room.State()), client, conn))
                            else old(Abstract())
    {
      ok := client in room.c2h;
      if ok {
        room.c2h := room.c2h[client := Some(conn)];
        OneRoomWritten(room);
      }
    }

    method MirrorLink(room: Room, conn: Conn, client: Conn)
      requires Valid() && Holds(room)
      modifies room`h2c
      ensures Valid() && Abstract() == PutRoom(old(Abstract()), room.id, Mirror(old(room.State()), conn, client))
    {
      room.h2c := room.h2c[conn := client];
      OneRoomWritten(room);
    }

    method TouchRoom(room: Room, now: int)
      requires Valid() && Holds(room)
      modifies room`lastFilled
      ensures Valid() && Abstract() == PutRoom(old(Abstract()), room.id, Touch(old(room.State()), now))
    {
      room.lastFilled := now;
      OneRoomWritten(room);
    }

    /** Link, mirror and timestamp, in this order. */
    method LinkPair(room: Room, client: Conn, conn: Conn, now: int) returns (ok: bool)
      requires Valid() && Holds(room)
      modifies room`c2h, room`h2c, room`lastFilled
      ensures Valid() && (ok <==> client in old(room.c2h))
      ensures Abstract() == if ok then PutRoom(old(Abstract()), room.id, Paired(old(room.State()), client, conn, now))
                            else old(Abstract())
    {
      ok := LinkClient(room, client, conn);
      if !ok {
        return;
      }
      StateOf(room);
      ghost var linked := room.State();
      LastWriteWins(old(Abstract()), room.id, linked, Mirror(linked, conn, client));
      MirrorLink(room, conn, client);
      StateOf(room);
      ghost var mirrored := room.State();
      LastWriteWins(old(Abstract()), room.id, mirrored, Touch(mirrored, now));
      TouchRoom(room, now);
    }

    /**
     The whole handshake of a data connection, when no other handler runs in between: either
     the request's client ends up linked in both maps and its request is gone, or the
     connection is closed with the reason that says which step failed.
     */
    method JoinAsData(code: Code, name: string, conn: Conn, now: int) returns (client: Option<Conn>)
      requires Valid()
      modifies this`closures, heap
      ensures Valid() && rooms == old(rooms) && heap == old(heap)
      ensures client.Some? <==>
              code in rooms && name in old(rooms[code].requests)
              && old(rooms[code].requests)[name] in old(rooms[code].c2h)
      ensures client.Some? ==>
                && client == Some(old(rooms[code].requests)[name]) && closures == old(closures)
                && Abstract() == PutRoom(old(Abstract()), rooms[code].id,
                                         Paired(DropRequest(old(rooms[code].State()), name), client.value, conn, now))
      ensures client.None? ==>
                var requested := code in rooms && name in old(rooms[code].requests);
                && closures == old(closures) + [Closure(conn, if code !in rooms then RoomNotFound
                                                              else if !requested then InvalidRequestID
                                                              else PairLinkFailed)]
                && Abstract() == if code !in rooms then old(Abstract())
                                 else PutRoom(old(Abstract()), rooms[code].id,
                                              DropRequest(old(rooms[code].State()), name))
    {
      var room := GetRoomExists(code);
      if room == null {
        CloseWebsocket(conn, RoomNotFound);
        return None;
      }
      ghost var before := Abstract();
      client := TakeRequest(room, name);
      if client.None? {
        CloseWebsocket(conn, InvalidRequestID);
        return None;
      }
      StateOf(room);
      ghost var taken := room.State();
      assert Abstract() == PutRoom(before, room.id, taken);
      var ok := LinkPair(room, client.value, conn, now);
      if !ok {
        CloseWebsocket(conn, PairLinkFailed);
        return None;
      }
      LastWriteWins(before, room.id, taken, Paired(taken, client.value, conn, now));
    }

    // ---- HandleRelay for a host ----

    method JoinAsHost(code: Code, conn: Conn, now: int) returns (ok: bool)
      requires Valid()
      modifies this`closures, heap
      ensures Valid() && rooms == old(rooms) && heap == old(heap)
      ensures ok <==> code in rooms && old(rooms[code].host).None?
      ensures ok ==> closures == old(closures)
                     && Abstract() == PutRoom(old(Abstract()), rooms[code].id,
                                              Seat(old(rooms[code].State()), conn, now))
      ensures !ok ==> Abstract() == old(Abstract())
                      && closures == old(closures) +
                                     [Closure(conn, if code in rooms then InvalidAction else RoomNotFound)]
    {
      if code in rooms {
        var room := rooms[code];
        if room.host.Some? {
          CloseWebsocket(conn, InvalidAction);
          return false;
        }
        room.host, room.hasHost := Some(conn), true;
        room.lastFilled := now;
        OneRoomWritten(room);
        ok := true;
      } else {
        CloseWebsocket(conn, RoomNotFound);
        ok := false;
      }
    }

    // ---- handleCleanup ----

    /**
     handleCleanup. The two lists are filled side by side in the order in which the map is
     traversed, and the closing loop walks them by one index, past the nil entries.
     */
    method HandleCleanup(conn: Conn, code: Code, reason: Reason, now: int) returns (ghost order: seq<Conn>)
      requires Valid()
      modifies this`rooms, this`recentlyDeleted, this`closures
      ensures Valid() && heap == old(heap) && Abstract() == AfterCleanup(old(Abstract()), conn, code)
      ensures code !in old(rooms) ==> closures == old(closures) && recentlyDeleted == old(recentlyDeleted)
      ensures code in old(rooms) && old(rooms)[code].host == Some(conn) ==>
                && Traverses(order, old(rooms)[code].c2h.Keys)
                && closures == old(closures) + TeardownCalls(old(rooms)[code].c2h, order) + [Closure(conn, reason)]
                && recentlyDeleted == old(recentlyDeleted)[code := Deletion(now, reason)]
      ensures code in old(rooms) && old(rooms)[code].host != Some(conn) ==>
                var room := old(rooms)[code];
                && recentlyDeleted == old(recentlyDeleted)
                && closures == old(closures) + PartnerCalls(room.State(), conn) + [Closure(conn, reason)]
    {
      order := [];
      if code !in rooms {
        return;
      }
      var room := rooms[code];
      StateOf(room);
      if room.host == Some(conn) {
        order := TearDown(room, conn, code, reason, now);
      } else {
        ClosePair(room, conn, reason);
      }
    }

    /** The host's branch: list the room, unbind its code, remember why, and close. */
    method TearDown(room: Room, conn: Conn, code: Code, reason: Reason, now: int) returns (ghost order: seq<Conn>)
      requires Valid() && Holds(room)
      modifies this`rooms, this`recentlyDeleted, this`closures
      ensures Valid() && Abstract() == Unbind(old(Abstract()), {code})
      ensures Traverses(order, room.c2h.Keys)
      ensures closures == old(closures) + TeardownCalls(room.c2h, order) + [Closure(conn, reason)]
      ensures recentlyDeleted == old(recentlyDeleted)[code := Deletion(now, reason)]
    {
      var toClose: seq<Option<Conn>>, closeReasons: seq<Reason>;
      toClose, closeReasons, order := ListRoom(room);
      DropCode(code);
      RememberDeletion(code, reason, now);
      assert Valid() && Abstract() == Unbind(old(Abstract()), {code});
      CallsAppend(toClose, closeReasons, Some(conn), reason);
      CloseAll(toClose + [Some(conn)], closeReasons + [reason]);
    }

    /** Why a code's room was deleted, and when. */
    method RememberDeletion(code: Code, reason: Reason, now: int)
      modifies this`recentlyDeleted
      ensures recentlyDeleted == old(recentlyDeleted)[code := Deletion(now, reason)]
    {
      recentlyDeleted := recentlyDeleted[code := Deletion(now, reason)];
    }

    /** delete(app.Rooms, code). */
    method DropCode(code: Code)
      requires Valid()
      modifies this`rooms
      ensures Valid() && rooms == old(rooms) - {code} && Abstract() == Unbind(old(Abstract()), {code})
    {
      rooms := rooms - {code};
      assert Table() == old(Table()) - {code};
    }

    /** The other branch: close the partner and the connection itself. */
    method ClosePair(room: Room, conn: Conn, reason: Reason)
      modifies this`closures
      ensures closures == old(closures) + PartnerCalls(room.State(), conn) + [Closure(conn, reason)]
    {
      var toClose, closeReasons := ListPair(room, conn);
      CallsAppend(toClose, closeReasons, Some(conn), reason);
      CloseAll(toClose + [Some(conn)], closeReasons + [reason]);
    }

    /** The partner in either map. */
    method ListPair(room: Room, conn: Conn) returns (toClose: seq<Option<Conn>>, closeReasons: seq<Reason>)
      ensures |toClose| == |closeReasons| && Calls(toClose, closeReasons) == PartnerCalls(room.State(), conn)
    {
      toClose, closeReasons := [], [];
      if conn in room.c2h {
        CallsAppend(toClose, closeReasons, room.c2h[conn], ClientDisconnected);
        toClose, closeReasons := toClose + [room.c2h[conn]], closeReasons + [ClientDisconnected];
      }
      if conn in room.h2c {
        CallsAppend(toClose, closeReasons, Some(room.h2c[conn]), ClientDisconnected);
        toClose, closeReasons := toClose + [Some(room.h2c[conn])], closeReasons + [ClientDisconnected];
      }
    }

    /** The host's list: every pair of ClientsToHostConnections, in map order. */
    method ListRoom(room: Room) returns (toClose: seq<Option<Conn>>, closeReasons: seq<Reason>, ghost order: seq<Conn>)
      ensures Traverses(order, room.c2h.Keys) && |toClose| == |closeReasons|
      ensures Calls(toClose, closeReasons) == TeardownCalls(room.c2h, order)
    {
      toClose, closeReasons, order := [], [], [];
      var rest := room.c2h.Keys;
      while rest != {}
        invariant |toClose| == |closeReasons| && rest <= room.c2h.Keys
        invariant Traverses(order, room.c2h.Keys - rest)
        invariant Calls(toClose, closeReasons) == TeardownCalls(room.c2h, order)
        decreases rest
      {
        var ws1 :| ws1 in rest;
        var ws2 := room.c2h[ws1];
        CallsAppend(toClose, closeReasons, ws2, SignalDisconnected);
        toClose, closeReasons := toClose + [ws2], closeReasons + [SignalDisconnected];
        CallsAppend(toClose, closeReasons, Some(ws1), HostDisconnected);
        toClose, closeReasons := toClose + [Some(ws1)], closeReasons + [HostDisconnected];
        assert (order + [ws1])[..|order|] == order;
        order := order + [ws1];
        rest := rest - {ws1};
      }
      assert room.c2h.Keys - rest == room.c2h.Keys;
    }

    /** The closing loop: one index for both lists, moved on for nil entries too. */
    method CloseAll(toClose: seq<Option<Conn>>, closeReasons: seq<Reason>)
      requires |toClose| == |closeReasons|
      modifies this`closures
      ensures closures == old(closures) + Calls(toClose, closeReasons)
    {
      var index := 0;
      for k := 0 to |toClose|
        invariant index == k
        invariant closures == old(closures) + Calls(toClose[..k], closeReasons[..k])
      {
        assert toClose[..k + 1] == toClose[..k] + [toClose[k]]
               && closeReasons[..k + 1] == closeReasons[..k] + [closeReasons[k]];
        CallsAppend(toClose[..k], closeReasons[..k], toClose[k], closeReasons[k]);
        if toClose[k].None? {
          index := index + 1;
          continue;
        }
        CloseWebsocket(toClose[k].value, closeReasons[index]);
        index := index + 1;
      }
      assert toClose[..|toClose|] == toClose && closeReasons[..|toClose|] == closeReasons;
    }

    // ---- HandleCreatePath ----

    /** Binds a code to a new Room object, over whatever had the code. */
    method Install(code: Code, now: int)
      requires Valid()
      modifies this`rooms, this`heap
      ensures Valid() && Abstract() == Bind(old(Abstract()), code, now)
      ensures heap[..|old(heap)|] == old(heap)
    {
      var room := new Room(|heap|, now);
      heap := heap + [room];
      rooms := rooms[code := room];
      assert Table() == old(Table())[code := |old(heap)|];
      assert States() == old(States()) + [EmptyRoom(now)];
    }

    /** The first free code among the draws, if it comes before ten thousand taken ones. */
    method DrawFreeCode(draw: nat -> RandomBelowMillion) returns (code: Option<Code>)
      ensures code.None? ==> forall i: nat :: i < 10_000 ==> CodeOf(draw(i)) in rooms
      ensures code.Some? ==> IsCode(code.value) && code.value !in rooms
                             && exists k: nat :: k < 10_000 && code == Some(CodeOf(draw(k)))
                                                 && forall i: nat :: i < k ==> CodeOf(draw(i)) in rooms
    {
      var gameId := "";
      var attempts: nat := 0;
      while true
        invariant attempts < 10_000
        invariant forall i: nat :: i < attempts ==> CodeOf(draw(i)) in rooms
        decreases 10_000 - attempts
      {
        gameId := CodeOf(draw(attempts));
        if gameId in rooms {
          attempts := attempts + 1;
        } else {
          break;
        }
        if attempts >= 10_000 {
          return None;
        }
      }
      PaddedValue(draw(attempts), 6);
      code := Some(gameId);
    }

    /**
     The path without a reuse token: the lucky code when it was drawn and is free, otherwise
     the first free code among the next draws, giving up after ten thousand taken ones.
     */
    method CreateFresh(lucky: bool, draw: nat -> RandomBelowMillion, now: int) returns (code: Option<Code>)
      requires Valid()
      modifies this`rooms, this`heap, this`issued
      ensures Valid()
      ensures code.None? ==> Abstract() == old(Abstract()) && (lucky ==> "676767" in old(rooms))
                             && forall i: nat :: i < 10_000 ==> CodeOf(draw(i)) in old(rooms)
      ensures code.Some? ==> IsCode(code.value) && code.value !in old(rooms)
                             && Abstract() == Issue(Bind(old(Abstract()), code.value, now), code.value)
      ensures code.Some? ==> if lucky && "676767" !in old(rooms) then code == Some("676767")
                             else exists k: nat :: k < 10_000 && code == Some(CodeOf(draw(k)))
                                                   && forall i: nat :: i < k ==> CodeOf(draw(i)) in old(rooms)
    {
      var gameId := "";
      var foundCode := false;
      if lucky {
        gameId := LUCKY_CODE;
        foundCode := gameId !in rooms;
      }
      if !foundCode {
        var drawn := DrawFreeCode(draw);
        if drawn.None? {
          return None;
        }
        gameId := drawn.value;
      }
      assert IsCode(gameId);
      Install(gameId, now);
      issued := issued + {gameId};
      code := Some(gameId);
    }

    /** The path with a reuse token, up to the point where it re-binds the code or lets go of the lock to evict. */
    method BeginReuse(token: Option<Code>, now: int) returns (outcome: ReuseOutcome)
      requires Valid()
      modifies this`rooms, this`heap, this`closures
      ensures Valid()
      ensures outcome.Rejected? <==> token.None? || token.value == "" || token.value == "676767"
      ensures outcome.Evict? <==> !outcome.Rejected? && Evicted(old(Abstract()), token.value).Some?
      ensures outcome.Evict? ==> Evicted(old(Abstract()), token.value) == Some(outcome.host)
                                 && closures == old(closures) + [Closure(outcome.host, ReuseTokenPresented)]
      ensures !outcome.Evict? ==> closures == old(closures)
      ensures Abstract() == if outcome.Rebound? then Bind(old(Abstract()), token.value, now) else old(Abstract())
    {
      if token.None? || token.value == "" {
        return Rejected;
      }
      if token.value == LUCKY_CODE {
        return Rejected;
      }
      if token.value in rooms && rooms[token.value].host.Some? {
        var host := rooms[token.value].host.value;
        CloseWebsocket(host, ReuseTokenPresented);
        return Evict(host);
      }
      FinishReuse(token.value, now);
      outcome := Rebound;
    }

    /** After the lock is taken again: whatever holds the code by now is dropped, and a new Room object gets it. */
    method FinishReuse(code: Code, now: int)
      requires Valid()
      modifies this`rooms, this`heap
      ensures Valid() && Abstract() == Bind(old(Abstract()), code, now)
    {
      rooms := rooms - {code};
      assert Valid();
      Install(code, now);
      assert Abstract().table == old(Abstract()).table[code := |old(Abstract()).heap|];
    }

    // ---- The cleaners ----

    /** CleanUnusedRooms, phase one. */
    method ScanGhosts(now: int) returns (staleRooms: seq<Code>)
      requires Valid()
      ensures forall code :: code in staleRooms <==> code in GhostRooms(Abstract(), now)
    {
      staleRooms := [];
      var rest := rooms.Keys;
      while rest != {}
        invariant rest <= rooms.Keys
        invariant forall code :: code in staleRooms <==> code in GhostRooms(Abstract(), now) && code !in rest
        decreases rest
      {
        var code :| code in rest;
        var room := rooms[code];
        StateOf(room);
        if !room.hasHost && now - room.created > ROOM_EMPTY_CLEANUP_DELAY {
          staleRooms := staleRooms + [code];
        }
        rest := rest - {code};
      }
    }

    /** CleanUnusedRooms, phase two: existence and host are checked again. */
    method PruneGhosts(staleRooms: seq<Code>)
      requires Valid()
      modifies this`rooms
      ensures Valid() && Abstract() == Store.PruneGhosts(old(Abstract()), Codes(staleRooms))
    {
      ghost var before := Abstract();
      for k := 0 to |staleRooms|
        invariant Valid() && Abstract() == Store.PruneGhosts(before, Codes(staleRooms[..k]))
      {
        var code := staleRooms[k];
        assert Codes(staleRooms[..k + 1]) == Codes(staleRooms[..k]) + {code};
        PruneOneMore(before, Codes(staleRooms[..k]), code);
        if code in rooms && !rooms[code].hasHost {
          DropCode(code);
        }
      }
      assert staleRooms[..|staleRooms|] == staleRooms;
    }

    /** CleanIdleRooms, phase one. */
    method ScanIdle(now: int) returns (codesToDelete: seq<Code>, toClose: seq<Conn>)
      requires Valid()
      ensures forall code :: code in codesToDelete <==> code in IdleRooms(Abstract(), now)
      ensures forall conn :: conn in toClose <==> conn in HostsOf(Abstract(), IdleRooms(Abstract(), now))
    {
      codesToDelete, toClose := [], [];
      var rest := rooms.Keys;
      while rest != {}
        invariant rest <= rooms.Keys
        invariant forall code :: code in codesToDelete <==> code in IdleRooms(Abstract(), now) && code !in rest
        invariant forall conn :: conn in toClose <==> conn in HostsOf(Abstract(), IdleRooms(Abstract(), now) - rest)
        decreases rest
      {
        var code :| code in rest;
        var room := rooms[code];
        StateOf(room);
        if now - room.lastFilled > ROOM_IDLE_NO_CLIENT_DELAY && |room.c2h| == 0 {
          codesToDelete := codesToDelete + [code];
          if room.host.Some? {
            toClose := toClose + [room.host.value];
          }
        }
        rest := rest - {code};
      }
      assert IdleRooms(Abstract(), now) - rest == IdleRooms(Abstract(), now);
    }

    /** CleanIdleRooms, phase two: the listed codes go, whatever they are bound to by now, and then the listed hosts. */
    method DeleteIdle(codesToDelete: seq<Code>, toClose: seq<Conn>)
      requires Valid()
      modifies this`rooms, this`closures
      ensures Valid() && Abstract() == Unbind(old(Abstract()), Codes(codesToDelete))
      ensures closures == old(closures) + ClosuresOf(toClose, ConnectionIdle)
    {
      ghost var before := Abstract();
      for k := 0 to |codesToDelete|
        invariant Valid() && Abstract() == Unbind(before, Codes(codesToDelete[..k])) && closures == old(closures)
      {
        assert Codes(codesToDelete[..k + 1]) == Codes(codesToDelete[..k]) + {codesToDelete[k]};
        UnbindOneMore(before, Codes(codesToDelete[..k]), codesToDelete[k]);
        DropCode(codesToDelete[k]);
      }
      assert codesToDelete[..|codesToDelete|] == codesToDelete;
      CloseEach(toClose, ConnectionIdle);
    }

    method CloseEach(conns: seq<Conn>, reason: Reason)
      modifies this`closures
      ensures closures == old(closures) + ClosuresOf(conns, reason)
    {
      for k := 0 to |conns|
        invariant closures == old(closures) + ClosuresOf(conns[..k], reason)
      {
        assert conns[..k + 1][..k] == conns[..k];
        CloseWebsocket(conns[k], reason);
      }
      assert conns[..|conns|] == conns;
    }

    // ---- Signalling ----

    method Send(dest: Conn, packet: Packet)
      modifies this`sent
      ensures sent == old(sent) + [Delivery(dest, packet)]
    {
      sent := sent + [Delivery(dest, packet)];
    }

    /** HandleSignalPacketFromClient. It unwinds when the room it finds has no host to write to. */
    method HandleSignalPacketFromClient(message: Packet, conn: Conn, code: Code) returns (unwinds: bool)
      requires Valid()
      modifies this`sent, heap
      ensures Valid() && rooms == old(rooms) && heap == old(heap)
      ensures unwinds <==> code in rooms && ForHost(message) && old(rooms[code].host).None?
      ensures sent == old(sent) + (if code !in rooms || message == [] then []
                                   else if message[0] == PING then [Delivery(conn, [PONG])]
                                   else if ForHost(message) && !unwinds
                                   then [Delivery(old(rooms[code].host).value, message)]
                                   else [])
      ensures Abstract() == if code in rooms && ForHost(message) && !unwinds && |message| >= 2
                            then PutRoom(old(Abstract()), rooms[code].id,
                                         Route(old(rooms[code].State()), message[1], conn))
                            else old(Abstract())
    {
      unwinds := false;
      if code !in rooms || |message| == 0 {
        return;
      }
      var room := rooms[code];
      if message[0] == PING {
        Send(conn, [PONG]);
      } else if message[0] == PONG || message[0] == CONNECTION_ESTABLISHED {
      } else if room.host.None? {
        unwinds := true;
      } else {
        Send(room.host.value, message);
        if |message| >= 2 {
          room.routes := room.routes[message[1] := conn];
          OneRoomWritten(room);
        }
      }
    }

    /** HandleSignalPacket. */
    method HandleSignalPacket(message: Packet, conn: Conn, code: Code)
      requires Valid()
      modifies this`sent
      ensures Valid()
      ensures sent == old(sent) + (if code !in rooms || message == [] then []
                                   else if message[0] == PING then [Delivery(conn, [PONG])]
                                   else if ForClients(message) && message[1] in rooms[code].routes
                                   then [Delivery(rooms[code].routes[message[1]], message)]
                                   else [])
    {
      if code !in rooms || |message| == 0 {
        return;
      }
      var room := rooms[code];
      if message[0] == PING {
        Send(conn, [PONG]);
      } else if message[0] != PONG && |message| >= 2 && message[1] in room.routes {
        Send(room.routes[message[1]], message);
      }
    }
  }
}
