/**
 Signal routing over runs. Each Room object's WebRTCHandshakeConnectionsMap is a last-writer
 register per id: what a host's packet is delivered to is decided by the run's history of
 registrations in that Room object and by nothing else.
 */
module Routing {
  import opened Options
  import opened Store
  import opened Protocol
  import opened Invariant
  import opened Pairing

  /** About to write id k of Room object r. */
  predicate Registers(pc: Pc, r: RoomId, k: Byte) {
    pc.Serve? && pc.serve.Registering? && pc.serve.seen == r && pc.serve.id == k
  }

  /** Who registered id k in Room object r most recently along the run, if anybody. */
  function LastRegistrant(run: seq<Action>, r: RoomId, k: Byte): Option<Conn> {
    if run == [] then None
    else
      var before, last := Reached(run[..|run| - 1]), run[|run| - 1];
      if last.Step? && last.t < |before.pcs| && Registers(before.pcs[last.t], r, k) then Some(last.t)
      else LastRegistrant(run[..|run| - 1], r, k)
  }

  function RouteIn(s: Sys, r: RoomId, k: Byte): Option<Conn> {
    if r < |s.shared.heap| && k in s.shared.heap[r].routes then Some(s.shared.heap[r].routes[k]) else None
  }

  lemma ServeRoutes(s: Sys, t: Conn, ch: Choice, r: RoomId, k: Byte)
    requires Valid(s) && t < |s.pcs| && s.pcs[t].Serve?
    ensures RouteIn(ServeStep(s, t, ch), r, k) == if Registers(s.pcs[t], r, k) then Some(t) else RouteIn(s, r, k)
  {
    assert PcWired(s.locals[t], s.pcs[t], |s.shared.heap|);
    if s.pcs[t].serve.Registering? {
      var seen, id := s.pcs[t].serve.seen, s.pcs[t].serve.id;
      assert ServeStep(s, t, ch).shared.heap == s.shared.heap[seen := Route(s.shared.heap[seen], id, t)];
    }
  }

  lemma PairingStepsKeepRoutes(s: Sys, t: Conn, ch: Choice, r: RoomId, k: Byte)
    requires Valid(s) && t < |s.pcs| && (s.pcs[t].Client? || s.pcs[t].Sweep? || s.pcs[t].Data? || s.pcs[t].Signal?)
    ensures RouteIn(Exec(s, t, ch), r, k) == RouteIn(s, r, k)
  {
    assert PcWired(s.locals[t], s.pcs[t], |s.shared.heap|);
  }

  /** Only the registering step writes a route, and it writes the one it names. */
  lemma StepRoutes(s: Sys, t: Conn, ch: Choice, r: RoomId, k: Byte)
    requires Valid(s) && t < |s.pcs|
    ensures RouteIn(Exec(s, t, ch), r, k) == if Registers(s.pcs[t], r, k) then Some(t) else RouteIn(s, r, k)
  {
    if s.pcs[t].Serve? {
      ServeRoutes(s, t, ch, r, k);
    } else if s.pcs[t].Client? || s.pcs[t].Sweep? || s.pcs[t].Data? || s.pcs[t].Signal? {
      PairingStepsKeepRoutes(s, t, ch, r, k);
    }
  }

  lemma ActionRoutes(s: Sys, a: Action, r: RoomId, k: Byte)
    requires Valid(s)
    ensures RouteIn(Do(s, a), r, k) ==
            if a.Step? && a.t < |s.pcs| && Registers(s.pcs[a.t], r, k) then Some(a.t) else RouteIn(s, r, k)
  {
    match a
    case Spawn(_, _, _) =>
    case Recall(_) =>
    case Step(t, ch) =>
      if t < |s.pcs| {
        StepRoutes(s, t, ch, r, k);
      }
  }

  /** The routing map of a Room object holds, for each id, the most recent registrant of the run. */
  lemma {:induction false} RoutesAreLastRegistrants(run: seq<Action>, r: RoomId, k: Byte)
    ensures RouteIn(Reached(run), r, k) == LastRegistrant(run, r, k)
  {
    InitSatisfiesInv();
    if run != [] {
      RoutesAreLastRegistrants(run[..|run| - 1], r, k);
      ActionRoutes(Reached(run[..|run| - 1]), run[|run| - 1], r, k);
    }
  }

  /**
   A host's packet that carries id k goes, unchanged, to the client that most recently
   registered k in the Room object the packet was resolved to, and to nobody if none has.
   Any other packet of the host reaches no client; a ping waits for HostMu, for ever if it is
   lost.
   */
  lemma HostPacketsGoToLastRegistrant(run: seq<Action>, t: Conn, ch: Choice, seen: RoomId, packet: Packet)
    requires t < |Reached(run).pcs| && Reached(run).pcs[t] == Serve(Acting(seen, packet))
             && Reached(run).locals[t].role == HostSignal
    ensures Exec(Reached(run), t, ch).shared == Reached(run).shared
    ensures Exec(Reached(run), t, ch).delivered == Reached(run).delivered +
              (if ForClients(packet) then
                 (match LastRegistrant(run, seen, packet[1]) case Some(c) => [Delivery(c, packet)] case None => [])
               else if packet != [] && packet[0] == PING && seen !in Reached(run).lost then [Delivery(t, [PONG])]
               else [])
  {
    if ForClients(packet) {
      RoutesAreLastRegistrants(run, seen, packet[1]);
    }
    HostPacketsFollowRoutes(Reached(run), t, ch, seen, packet);
  }

  lemma HostPacketsFollowRoutes(s: Sys, t: Conn, ch: Choice, seen: RoomId, packet: Packet)
    requires Valid(s) && t < |s.pcs| && s.pcs[t] == Serve(Acting(seen, packet)) && s.locals[t].role == HostSignal
    ensures Exec(s, t, ch).shared == s.shared
    ensures Exec(s, t, ch).delivered == s.delivered +
              (if ForClients(packet) then
                 (match RouteIn(s, seen, packet[1]) case Some(c) => [Delivery(c, packet)] case None => [])
               else if packet != [] && packet[0] == PING && seen !in s.lost then [Delivery(t, [PONG])]
               else [])
  {
    assert PcWired(s.locals[t], s.pcs[t], |s.shared.heap|);
    assert s.delivered + [] == s.delivered;
  }

  /** The type bytes: a ping [1] is answered with a pong [2], on either side, whatever follows the type. */
  lemma PingsAreAnswered(s: Sys, t: Conn, ch: Choice, seen: RoomId, packet: Packet)
    requires Valid(s) && t < |s.pcs| && s.pcs[t] == Serve(Acting(seen, packet)) && Signals(s.locals[t])
    requires packet != [] && packet[0] == 1 && seen !in s.lost
    ensures Exec(s, t, ch) == Goto(s.(delivered := s.delivered + [Delivery(t, [2])]), t, Serve(Serving))
  {
  }

  /** Pongs, and a client's report of an established connection, are dropped; so is an empty packet. */
  lemma PongsAreDropped(s: Sys, t: Conn, ch: Choice, seen: RoomId, packet: Packet)
    requires Valid(s) && t < |s.pcs| && s.pcs[t] == Serve(Acting(seen, packet)) && Signals(s.locals[t])
    requires packet == [] || packet[0] == 2 || (packet[0] == 4 && s.locals[t].role == ClientSignal)
    ensures Exec(s, t, ch) == Goto(s, t, Serve(Serving))
  {
  }

  // ---- Who registers ----

  /**
   What becomes of a client's packet: it is forwarded, and leads to a registration if it
   carries an id, unless it is a ping, a pong or a report of an established connection; the
   handler unwinds exactly when a packet to forward meets a room without a host, and then,
   only then, that room's HostMu is lost. Where HostMu is lost, nothing moves.
   */
  lemma ClientPacketsAreForwarded(run: seq<Action>, t: Conn, ch: Choice, seen: RoomId, packet: Packet, k: Byte)
    requires t < |Reached(run).pcs| && Reached(run).pcs[t] == Serve(Acting(seen, packet))
             && Reached(run).locals[t].role == ClientSignal
    ensures seen < |Reached(run).shared.heap|
    ensures var s', host := Exec(Reached(run), t, ch), Reached(run).shared.heap[seen].host;
            && s'.shared == Reached(run).shared
            && if seen in Reached(run).lost && TakesHostMu(ClientSignal, packet) then s' == Reached(run)
               else
                 && (Registers(s'.pcs[t], seen, k) <==>
                     ForHost(packet) && host.Some? && |packet| >= 2 && packet[1] == k)
                 && (s'.pcs[t] == Exit(Leave) <==> ForHost(packet) && host.None?)
                 && s'.lost == Reached(run).lost + (if s'.pcs[t] == Exit(Leave) then {seen} else {})
                 && (ForHost(packet) && host.Some? ==>
                       s'.delivered == Reached(run).delivered + [Delivery(host.value, packet)])
  {
    assert PcWired(Reached(run).locals[t], Reached(run).pcs[t], |Reached(run).shared.heap|);
  }

  /** The next step of this handler hands a client's packet to the connection of the host of Room object r. */
  predicate HandsOver(s: Sys, t: Conn, r: RoomId)
    requires |s.locals| == |s.pcs|
  {
    && t < |s.pcs| && s.locals[t].role == ClientSignal
    && s.pcs[t].Serve? && s.pcs[t].serve.Acting? && s.pcs[t].serve.seen == r && ForHost(s.pcs[t].serve.packet)
    && r !in s.lost && r < |s.shared.heap| && s.shared.heap[r].host.Some?
  }

  /** The packet carries id k, too. */
  predicate Forwards(s: Sys, t: Conn, r: RoomId, k: Byte)
    requires |s.locals| == |s.pcs|
  {
    HandsOver(s, t, r) && |s.pcs[t].serve.packet| >= 2 && s.pcs[t].serve.packet[1] == k
  }

  lemma OthersDoNotRegister(s: Sys, t: Conn, ch: Choice, r: RoomId, k: Byte)
    requires Valid(s) && t < |s.pcs| && !s.pcs[t].Serve?
    ensures !Registers(Exec(s, t, ch).pcs[t], r, k)
  {
    if s.pcs[t].Client? || s.pcs[t].Data? || s.pcs[t].Signal? {
      HandshakesDoNotRegister(s, t, ch, r, k);
    }
  }

  lemma HandshakesDoNotRegister(s: Sys, t: Conn, ch: Choice, r: RoomId, k: Byte)
    requires Valid(s) && t < |s.pcs| && (s.pcs[t].Client? || s.pcs[t].Data? || s.pcs[t].Signal?)
    ensures !Registers(Exec(s, t, ch).pcs[t], r, k)
  {
  }

  /**
   A handler comes to register an id exactly by forwarding a packet that carries it to the
   room's host; the packet is written to the host in that very step.
   */
  lemma RegistersExactlyByForwarding(s: Sys, t: Conn, ch: Choice, r: RoomId, k: Byte)
    requires Local(s) && t < |s.pcs|
    ensures Registers(Exec(s, t, ch).pcs[t], r, k) <==> Forwards(s, t, r, k)
    ensures Forwards(s, t, r, k) ==>
              Exec(s, t, ch).delivered == s.delivered + [Delivery(s.shared.heap[r].host.value, s.pcs[t].serve.packet)]
  {
    assert HandlerOk(s.locals[t], s.pcs[t], |s.shared.heap|, s.shared.issued);
    if !s.pcs[t].Serve? {
      OthersDoNotRegister(s, t, ch, r, k);
    }
  }

  /** Along the run, the handler of c forwarded a packet that carries id k to the host of Room object r. */
  ghost predicate HasForwarded(run: seq<Action>, c: Conn, r: RoomId, k: Byte) {
    run != [] &&
    var last := run[|run| - 1];
    || HasForwarded(run[..|run| - 1], c, r, k)
    || (last.Step? && last.t == c && Forwards(Reached(run[..|run| - 1]), c, r, k))
  }

  /** Who is about to register was before, or has just forwarded. */
  lemma ActionRegisters(s: Sys, a: Action, c: Conn, r: RoomId, k: Byte)
    requires Local(s) && c < |Do(s, a).pcs| && Registers(Do(s, a).pcs[c], r, k)
    ensures (a.Step? && a.t == c && Forwards(s, c, r, k)) || (c < |s.pcs| && Registers(s.pcs[c], r, k))
  {
    if a.Step? && a.t < |s.pcs| {
      RegistersExactlyByForwarding(s, a.t, a.ch, r, k);
    }
  }

  /** Whoever is about to register has forwarded such a packet. */
  lemma {:induction false} RegistrantsForwarded(run: seq<Action>, c: Conn, r: RoomId, k: Byte)
    requires c < |Reached(run).pcs| && Registers(Reached(run).pcs[c], r, k)
    ensures HasForwarded(run, c, r, k)
  {
    InitSatisfiesInv();
    if run != [] {
      var before := Reached(run[..|run| - 1]);
      ActionRegisters(before, run[|run| - 1], c, r, k);
      if c < |before.pcs| && Registers(before.pcs[c], r, k) {
        RegistrantsForwarded(run[..|run| - 1], c, r, k);
      }
    }
  }

  /** Whoever holds a route has forwarded such a packet. */
  lemma {:induction false} RoutesAreForwarded(run: seq<Action>, r: RoomId, k: Byte)
    requires RouteIn(Reached(run), r, k).Some?
    ensures HasForwarded(run, RouteIn(Reached(run), r, k).value, r, k)
  {
    InitSatisfiesInv();
    if run != [] {
      var before, last := Reached(run[..|run| - 1]), run[|run| - 1];
      ActionRoutes(before, last, r, k);
      if last.Step? && last.t < |before.pcs| && Registers(before.pcs[last.t], r, k) {
        RegistrantsForwarded(run[..|run| - 1], last.t, r, k);
      } else {
        RoutesAreForwarded(run[..|run| - 1], r, k);
      }
    }
  }

  /** A client's packet with id k was handed to the connection of the host of Room object r. */
  ghost predicate HandedToHost(s: Sys, r: RoomId, k: Byte) {
    && r < |s.shared.heap| && s.shared.heap[r].host.Some?
    && exists packet: Packet :: |packet| >= 2 && ForHost(packet) && packet[1] == k
                                && Delivery(s.shared.heap[r].host.value, packet) in s.delivered
  }

  lemma DeliveriesStay(s: Sys, a: Action)
    requires Valid(s)
    ensures s.delivered <= Do(s, a).delivered
  {
    if a.Step? && a.t < |s.pcs| && !s.pcs[a.t].Serve? {
      OthersDeliverNothing(s, a.t, a.ch);
    }
  }

  lemma OthersDeliverNothing(s: Sys, t: Conn, ch: Choice)
    requires Valid(s) && t < |s.pcs| && !s.pcs[t].Serve?
    ensures Exec(s, t, ch).delivered == s.delivered
  {
  }

  lemma {:induction false} ForwardedPacketsReachTheHost(run: seq<Action>, c: Conn, r: RoomId, k: Byte)
    requires HasForwarded(run, c, r, k)
    ensures HandedToHost(Reached(run), r, k)
  {
    InitSatisfiesInv();
    var init, last := run[..|run| - 1], run[|run| - 1];
    var before := Reached(init);
    DeliveriesStay(before, last);
    ActionGrows(before, last);
    if HasForwarded(init, c, r, k) {
      ForwardedPacketsReachTheHost(init, c, r, k);
    } else {
      RegistersExactlyByForwarding(before, c, last.ch, r, k);
      var packet := before.pcs[c].serve.packet;
      assert Delivery(before.shared.heap[r].host.value, packet) in Reached(run).delivered;
    }
  }

  /**
   In every run, whoever holds the route of an id in a Room object has forwarded a packet
   that carries the id to that room's host, and the packet was handed to the host's
   connection; whether the write succeeded the code does not ask. Pings, pongs and reports of an
   established connection lead to no route.
   */
  lemma RouteHoldersForwarded(run: seq<Action>, r: RoomId, k: Byte, c: Conn)
    requires RouteIn(Reached(run), r, k) == Some(c)
    ensures HasForwarded(run, c, r, k) && HandedToHost(Reached(run), r, k)
  {
    RoutesAreForwarded(run, r, k);
    ForwardedPacketsReachTheHost(run, c, r, k);
  }
}
