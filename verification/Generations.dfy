/**
 A code that passes from one Room object to the next while handlers of the first still run.
 What a handler does after a lookup goes to the Room object that it found; so an evicted
 host's cleanup spares its old room, and its packets can reach the clients of the new one.
 */
module Generations {
  import opened Options
  import opened Store
  import opened Protocol
  import opened Invariant
  import opened Pairing
  import opened Teardown
  import opened Rooms
  import opened Parting
  import opened Routing
  import opened Scenarios
  import opened Cleaners
  import opened PairScenarios

  // ---- Evictions ----

  /** The idle cleaner deletes the code, or the holder of its reuse token binds it anew. */
  predicate TakesAway(s: Sys, a: Action, code: Code)
    requires |s.pcs| == |s.locals| && Wired(s.shared)
  {
    a.Step? && a.t < |s.pcs|
    && match s.pcs[a.t]
       case Clean(IdleDelete(codes, _)) => code in codes
       case Create(_) => code == s.locals[a.t].code && Binds(s, a.t, a.ch)
       case _ => false
  }

  ghost predicate TakenAway(s: Sys, run: seq<Action>, code: Code)
    requires Inv(s)
  {
    run != [] &&
    (TakenAway(s, run[..|run| - 1], code) || TakesAway(After(s, run[..|run| - 1]), run[|run| - 1], code))
  }

  predicate BoundTo(s: Sys, code: Code, r: RoomId) {
    code in s.shared.table && s.shared.table[code] == r
  }

  /** A Room object that is not bound to a code is never bound to it again. */
  lemma ActionKeepsAway(s: Sys, a: Action, code: Code, r: RoomId)
    requires Inv(s) && r < |s.shared.heap| && !BoundTo(s, code, r)
    ensures !BoundTo(Do(s, a), code, r)
  {
    if a.Step? && a.t < |s.pcs| && code in Exec(s, a.t, a.ch).shared.table {
      if code !in s.shared.table || Exec(s, a.t, a.ch).shared.table[code] != s.shared.table[code] {
        NewBindingsAreFresh(s, a.t, a.ch, code);
      }
    }
  }

  lemma ActionTakesAway(s: Sys, a: Action, code: Code, r: RoomId)
    requires Inv(s) && BoundTo(s, code, r) && TakesAway(s, a, code)
    ensures !BoundTo(Do(s, a), code, r)
  {
  }

  /** While its host is seated, nothing but these two, and the host's own cleanup, takes a room its code. */
  lemma ActionLeavesBound(s: Sys, a: Action, h: Conn, r: RoomId)
    requires Inv(s) && h < |s.pcs| && BoundTo(s, s.locals[h].code, r) && s.shared.heap[r].host == Some(h)
    requires !TakesAway(s, a, s.locals[h].code)
    requires a.Step? && a.t == h ==> s.pcs[h] != Exit(Cleanup)
    ensures BoundTo(Do(s, a), s.locals[h].code, r)
  {
    if a.Step? && a.t < |s.pcs| {
      CodesKeepTheirRooms(s, a.t, a.ch, s.locals[h].code);
      if s.pcs[a.t].Create? {
        CreationNeedsBinding(s, a.t, a.ch, s.locals[h].code);
      }
    }
  }

  lemma CreationNeedsBinding(s: Sys, t: Conn, ch: Choice, code: Code)
    requires Inv(s) && t < |s.pcs| && s.pcs[t].Create? && code in s.shared.table
    requires !(code == s.locals[t].code && Binds(s, t, ch))
    ensures code in Exec(s, t, ch).shared.table && Exec(s, t, ch).shared.table[code] == s.shared.table[code]
  {
    assert HandlerOk(s.locals[t], s.pcs[t], |s.shared.heap|, s.shared.issued);
  }

  /** The cleanup has begun. */
  predicate Past(pc: Pc) {
    pc.Exit? && (pc.exit.Closing? || pc.exit.Finished?)
  }

  /** The host has begun its cleanup, or its code is bound to its room unless it was taken away. */
  predicate Waiting(s: Sys, h: Conn, code: Code, r: RoomId, taken: bool) {
    && h < |s.pcs| == |s.locals| && s.locals[h].code == code && r < |s.shared.heap| && s.shared.heap[r].host == Some(h)
    && (Past(s.pcs[h]) || (BoundTo(s, code, r) <==> !taken))
  }

  lemma ActionKeepsWaiting(s: Sys, a: Action, h: Conn, code: Code, r: RoomId, taken: bool)
    requires Inv(s) && Waiting(s, h, code, r, taken)
    ensures Waiting(Do(s, a), h, code, r, taken || TakesAway(s, a, code))
  {
    ActionGrows(s, a);
    if Past(s.pcs[h]) {
      ActionKeepsPast(s, a, h);
    } else if a.Step? && a.t == h && s.pcs[h] == Exit(Cleanup) {
      CleanupGoesPast(s, h, a.ch);
    } else if taken {
      ActionKeepsAway(s, a, code, r);
    } else if TakesAway(s, a, code) {
      ActionTakesAway(s, a, code, r);
    } else {
      ActionLeavesBound(s, a, h, r);
    }
  }

  lemma ActionKeepsPast(s: Sys, a: Action, h: Conn)
    requires Valid(s) && h < |s.pcs| && Past(s.pcs[h])
    ensures h < |Do(s, a).pcs| && Past(Do(s, a).pcs[h])
  {
  }

  lemma CleanupGoesPast(s: Sys, h: Conn, ch: Choice)
    requires Valid(s) && h < |s.pcs| && s.pcs[h] == Exit(Cleanup)
    ensures Past(Exec(s, h, ch).pcs[h])
  {
  }

  lemma {:induction false} RunKeepsWaiting(s: Sys, run: seq<Action>, h: Conn, code: Code, r: RoomId)
    requires Inv(s) && Waiting(s, h, code, r, false)
    ensures Waiting(After(s, run), h, code, r, TakenAway(s, run, code))
  {
    if run != [] {
      RunKeepsWaiting(s, run[..|run| - 1], h, code, r);
      ActionKeepsWaiting(After(s, run[..|run| - 1]), run[|run| - 1], h, code, r, TakenAway(s, run[..|run| - 1], code));
    }
  }

  /**
   When a host's departure tears its room down, exactly. Take any run in which the host is
   seated in the room its code is bound to, and any continuation, evictions included, after
   which the host begins its cleanup. If by then no holder of a reuse token has re-bound the
   code, and the idle cleaner has not deleted it, the cleanup lists the whole room; otherwise
   it lists nobody but the host, and the pairs of the old room stay as they are.
   */
  lemma DeparturesTearDownExactly(run: seq<Action>, more: seq<Action>, h: Conn, ch: Choice)
    requires h < |Reached(run).pcs| && AtHome(Reached(run), h)
    requires Reached(run).shared.heap[Reached(run).locals[h].room.value].host == Some(h)
    requires h < |Reached(run + more).pcs| && Reached(run + more).pcs[h] == Exit(Cleanup)
    ensures var s, s' := Reached(run), Reached(run + more);
            var r, pc := s.locals[h].room.value, Exec(s', h, ch).pcs[h];
            && r < |s'.shared.heap| && Past(pc)
            && if TakenAway(s, more, s.locals[h].code) then Spares(pc, h) && Exec(s', h, ch).shared == s'.shared
               else pc == Exit(Closing(TeardownClosures(s'.shared.heap[r], h, Unspecified),
                                       TeardownClosures(s'.shared.heap[r], h, Unspecified)))
  {
    InitSatisfiesInv();
    RunsCompose(INIT, run, more);
    var s, s' := Reached(run), Reached(run + more);
    var r, code := s.locals[h].room.value, s.locals[h].code;
    RunKeepsWaiting(s, more, h, code, r);
    CleanupGoesPast(s', h, ch);
    if !TakenAway(s, more, code) {
      CleanupBegins(s', h, ch);
    } else if code in s'.shared.table {
      SeatedAt(s', h, r);
      StaleCleanupTouchesNothing(s', h, ch);
    } else {
      CleanupFindsNothing(s', h, ch);
    }
  }

  lemma SeatedAt(s: Sys, h: Conn, r: RoomId)
    requires Inv(s) && r < |s.shared.heap| && s.shared.heap[r].host == Some(h)
    ensures h < |s.locals| && s.locals[h].role == HostSignal && s.locals[h].room == Some(r)
  {
    assert SeatOk(s.shared.heap[r], s.locals, r);
  }

  /** The list names nobody but h. */
  predicate Spares(pc: Pc, h: Conn)
    requires Past(pc)
  {
    forall p :: p in pc.exit.goal ==> p.conn == h
  }

  // ---- Packets across generations ----

  /** The Room object that the handler found at its latest lookup for a packet. */
  ghost function FoundRoom(run: seq<Action>, t: Conn): Option<RoomId> {
    if run == [] then None
    else
      var before, last := Reached(run[..|run| - 1]), run[|run| - 1];
      if last.Step? && last.t == t && LooksUp(before, t) then Lookup(before, before.locals[t].code)
      else FoundRoom(run[..|run| - 1], t)
  }

  /** About to look up the room for a packet that was read, and the code is bound. */
  predicate LooksUp(s: Sys, t: Conn)
    requires |s.locals| == |s.pcs|
  {
    t < |s.pcs| && s.pcs[t].Serve? && s.pcs[t].serve.Received? && s.locals[t].code in s.shared.table
  }

  /** The handler acts on Room object r, for a packet or for a registration. */
  predicate ActsOn(pc: Pc, r: RoomId) {
    pc.Serve? && (pc.serve.Acting? || pc.serve.Registering?) && pc.serve.seen == r
  }

  lemma StepActs(s: Sys, t: Conn, ch: Choice, r: RoomId)
    requires Valid(s) && t < |s.pcs| && ActsOn(Exec(s, t, ch).pcs[t], r)
    ensures if LooksUp(s, t) then Lookup(s, s.locals[t].code) == Some(r) else ActsOn(s.pcs[t], r)
  {
    if !s.pcs[t].Serve? {
      OthersDoNotServe(s, t, ch, r);
    }
  }

  lemma OthersDoNotServe(s: Sys, t: Conn, ch: Choice, r: RoomId)
    requires Valid(s) && t < |s.pcs| && !s.pcs[t].Serve?
    ensures !ActsOn(Exec(s, t, ch).pcs[t], r)
  {
    if s.pcs[t].Client? || s.pcs[t].Data? || s.pcs[t].Signal? {
      HandshakesDoNotServe(s, t, ch, r);
    }
  }

  lemma HandshakesDoNotServe(s: Sys, t: Conn, ch: Choice, r: RoomId)
    requires Valid(s) && t < |s.pcs| && (s.pcs[t].Client? || s.pcs[t].Data? || s.pcs[t].Signal?)
    ensures !ActsOn(Exec(s, t, ch).pcs[t], r)
  {
  }

  /** What a signal handler does with a packet, it does in the room of its latest lookup. */
  lemma {:induction false} ActsInFoundRoom(run: seq<Action>, t: Conn, r: RoomId)
    requires t < |Reached(run).pcs| && ActsOn(Reached(run).pcs[t], r)
    ensures FoundRoom(run, t) == Some(r)
  {
    InitSatisfiesInv();
    if run != [] {
      var before, last := Reached(run[..|run| - 1]), run[|run| - 1];
      if last.Step? && last.t == t && t < |before.pcs| {
        StepActs(before, t, last.ch, r);
      }
      if !(last.Step? && last.t == t && LooksUp(before, t)) {
        ActsInFoundRoom(run[..|run| - 1], t, r);
      }
    }
  }

  /**
   Isolation of signalling, exactly. A host's packet with an id goes to the last registrant of
   the Room object of its latest lookup; that is a room the host is seated in if and only if
   its code was bound, at that lookup, to the room it joined.
   */
  lemma HostPacketsStayHomeExactly(run: seq<Action>, t: Conn, ch: Choice, seen: RoomId, packet: Packet)
    requires t < |Reached(run).pcs| && Reached(run).pcs[t] == Serve(Acting(seen, packet))
    requires Reached(run).locals[t].role == HostSignal && ForClients(packet)
    ensures var s := Reached(run);
            && FoundRoom(run, t) == Some(seen) && seen < |s.shared.heap|
            && (s.shared.heap[seen].host == Some(t) <==> FoundRoom(run, t) == s.locals[t].room)
            && Exec(s, t, ch).delivered == s.delivered +
               (match LastRegistrant(run, seen, packet[1]) case Some(c) => [Delivery(c, packet)] case None => [])
  {
    var s := Reached(run);
    ActsInFoundRoom(run, t, seen);
    HostPacketsGoToLastRegistrant(run, t, ch, seen, packet);
    assert PcWired(s.locals[t], s.pcs[t], |s.shared.heap|);
    assert ThreadOk(s.shared.heap, s.locals, s.locals[t], t);
    assert SeatOk(s.shared.heap[seen], s.locals, seen);
  }

  /** A client's packet goes to the host of the Room object of its latest lookup, and registers the client there. */
  lemma ClientPacketsGoToFoundRoom(run: seq<Action>, t: Conn, ch: Choice, seen: RoomId, packet: Packet)
    requires t < |Reached(run).pcs| && Reached(run).pcs[t] == Serve(Acting(seen, packet))
    requires Reached(run).locals[t].role == ClientSignal && ForHost(packet)
    ensures FoundRoom(run, t) == Some(seen) && seen < |Reached(run).shared.heap|
    ensures Reached(run).shared.heap[seen].host.Some? && seen !in Reached(run).lost ==>
              var s, s' := Reached(run), Exec(Reached(run), t, ch);
              && s'.delivered == s.delivered + [Delivery(s.shared.heap[seen].host.value, packet)]
              && (|packet| >= 2 ==> Registers(s'.pcs[t], seen, packet[1]))
  {
    ActsInFoundRoom(run, t, seen);
    ClientPacketsAreForwarded(run, t, ch, seen, packet, if |packet| >= 2 then packet[1] else 0);
  }

  // ---- Two runs ----

  /** Both loops of the pair are running. */
  predicate StillForward(s: Sys) {
    && |s.pcs| == |s.locals| >= 4 && s.pcs[2] == Exit(Forwarding) && s.pcs[3] == Exit(Forwarding)
    && s.locals[2].partner == Some(3) && s.locals[3].partner == Some(2)
  }

  lemma EvictionKeepsForwarding(s: Sys, s': Sys, l: Locals)
    requires PairForwards(s)
    requires s' == Joined(s.(shared := Bind(s.shared, "000000", 0), closed := s.closed + {1}), l, DONE)
    ensures s'.shared.table == map["000000" := 1] && s'.closed == {1} && |s'.pcs| == |s'.locals| == 5
    ensures s'.pcs[1] == Serve(Serving) && s'.locals[1] == s.locals[1] && StillForward(s')
  {
  }

  lemma HostIsEvictedServing() returns (run: seq<Action>)
    ensures var s := Reached(run);
            && s.shared.table == map["000000" := 1] && s.closed == {1} && |s.pcs| == |s.locals| == 5
            && s.pcs[1] == Serve(Serving) && s.locals[1] == StartLocals(HostSignal, "000000", "").(room := Some(0))
            && StillForward(s)
  {
    var pair := PairIsForwarding();
    run := Rebinds(pair, "000000", 0);
    EvictionKeepsForwarding(Reached(pair), Reached(run), StartLocals(ReuseCreator, "000000", ""));
  }

  lemma EvictedHostLeaves() returns (run: seq<Action>)
    ensures var s := Reached(run);
            && s.shared.table == map["000000" := 1] && s.closed == {1} && |s.pcs| == |s.locals| == 5
            && s.pcs[1] == Exit(Cleanup) && s.locals[1] == StartLocals(HostSignal, "000000", "").(room := Some(0))
            && StillForward(s)
  {
    var bound := HostIsEvictedServing();
    run := Leaves(bound, 1, 0);
  }

  /**
   An evicted host that cleans up after its code was re-bound lists nobody but itself: the
   pair of its room goes on forwarding, and nobody has closed it.
   */
  lemma EvictionSparesPair() returns (run: seq<Action>)
    ensures var s := Reached(run);
            var goal := {Closure(1, Unspecified)};
            StillForward(s) && s.pcs[1] == Exit(Closing(goal, goal)) && s.closed == {1}
  {
    var left := EvictedHostLeaves();
    AfterLast(left, Step(1, At(0)));
    StaleCleanupTouchesNothing(Reached(left), 1, At(0));
    CleanupStep(Reached(left), 1, At(0));
    run := left + [Step(1, At(0))];
  }

  lemma LoopSteps(s: Sys, t: Conn, ch: Choice, id: RoomId, h: Conn)
    requires Valid(s) && t < |s.pcs| && Lookup(s, s.locals[t].code) == Some(id)
    ensures s.pcs[t] == Serve(Serving) && ch.ok ==> Exec(s, t, ch) == Goto(s, t, Serve(Received(ch.packet)))
    ensures s.pcs[t] == Serve(Received(OFFER)) ==> Exec(s, t, ch) == Goto(s, t, Serve(Acting(id, OFFER)))
    ensures s.pcs[t] == Serve(Acting(id, OFFER)) && s.locals[t].role == ClientSignal
            && id !in s.lost && s.shared.heap[id].host == Some(h) ==>
              Exec(s, t, ch) == Goto(Deliver(s, h, OFFER), t, Serve(Registering(id, 7)))
    ensures s.pcs[t] == Serve(Registering(id, 7)) ==>
              Exec(s, t, ch) == Goto(WithRoom(s, id, Route(s.shared.heap[id], 7, t)), t, Serve(Serving))
  {
  }

  const OFFERED := At(0).(packet := OFFER)

  /** A serving handler reads a packet and finds the room. */
  lemma PacketIsLookedUp(run: seq<Action>, t: Conn, id: RoomId) returns (next: seq<Action>)
    requires t < |Reached(run).pcs| && Reached(run).pcs[t] == Serve(Serving)
    requires Lookup(Reached(run), Reached(run).locals[t].code) == Some(id)
    ensures next == run + [Step(t, OFFERED)] + [Step(t, At(0))]
    ensures Reached(next) == Goto(Reached(run), t, Serve(Acting(id, OFFER)))
  {
    var s := Reached(run);
    AfterLast(run, Step(t, OFFERED));
    LoopSteps(s, t, OFFERED, id, 0);
    assert Reached(run + [Step(t, OFFERED)]) == Goto(s, t, Serve(Received(OFFER)));
    AfterLast(run + [Step(t, OFFERED)], Step(t, At(0)));
    LoopSteps(Reached(run + [Step(t, OFFERED)]), t, At(0), id, 0);
    LastMoveWins(s, t, Serve(Received(OFFER)), Serve(Acting(id, OFFER)));
    next := run + [Step(t, OFFERED)] + [Step(t, At(0))];
  }

  /** A client's offer is forwarded to the host, and registers the client. */
  lemma ClientOffers(run: seq<Action>, t: Conn, id: RoomId, h: Conn) returns (next: seq<Action>)
    requires t < |Reached(run).pcs| && Reached(run).pcs[t] == Serve(Serving)
    requires Reached(run).locals[t].role == ClientSignal
    requires Lookup(Reached(run), Reached(run).locals[t].code) == Some(id) && id !in Reached(run).lost
    requires Reached(run).shared.heap[id].host == Some(h)
    ensures var s := Reached(run);
            Reached(next) == Goto(WithRoom(Deliver(s, h, OFFER), id, Route(s.shared.heap[id], 7, t)), t, Serve(Serving))
  {
    var s, step := Reached(run), Step(t, At(0));
    var found := PacketIsLookedUp(run, t, id);
    AfterLast(found, step);
    LoopSteps(Reached(found), t, At(0), id, h);
    LastMoveWins(Deliver(s, h, OFFER), t, Serve(Acting(id, OFFER)), Serve(Registering(id, 7)));
    assert Reached(found + [step]) == Goto(Deliver(s, h, OFFER), t, Serve(Registering(id, 7)));
    AfterLast(found + [step], step);
    LoopSteps(Reached(found + [step]), t, At(0), id, h);
    var routed := WithRoom(Deliver(s, h, OFFER), id, Route(s.shared.heap[id], 7, t));
    LastMoveWins(routed, t, Serve(Registering(id, 7)), Serve(Serving));
    next := found + [step] + [step];
  }

  /**
   Host 1 has read a packet before it was evicted, host 3 serves in the next room, and client 4
   has joined that one.
   */
  predicate Crossing(s: Sys) {
    && s.shared.table == map["000000" := 1] && |s.shared.heap| == 2
    && s.shared.heap[0].host == Some(1) && s.shared.heap[1].host == Some(3) && s.lost == {}
    && |s.pcs| == |s.locals| == 5 && s.pcs[1] == Serve(Received(OFFER)) && s.pcs[4] == Serve(Serving)
    && s.locals[1].role == HostSignal && s.locals[1].code == "000000" && s.locals[1].room == Some(0)
    && s.locals[4].role == ClientSignal && s.locals[4].code == "000000"
  }

  predicate EvictedReading(s: Sys) {
    && s.shared.table == map["000000" := 1] && |s.shared.heap| == 2
    && s.shared.heap[0].host == Some(1) && s.shared.heap[1].host == None && s.lost == {}
    && |s.pcs| == |s.locals| == 3 && s.pcs[1] == Serve(Received(OFFER))
    && s.locals[1] == StartLocals(HostSignal, "000000", "").(room := Some(0))
  }

  lemma HostIsEvictedReading() returns (run: seq<Action>)
    ensures EvictedReading(Reached(run))
  {
    var hosted := HostedRoom();
    AfterLast(hosted, Step(1, OFFERED));
    LoopSteps(Reached(hosted), 1, OFFERED, 0, 0);
    run := Rebinds(hosted + [Step(1, OFFERED)], "000000", 0);
  }

  lemma NextRoomIsCrossed(s: Sys, s': Sys, host: Locals, client: Locals)
    requires EvictedReading(s) && host.role == HostSignal
    requires client.role == ClientSignal && client.code == "000000" && s'.lost == s.lost
    requires s'.shared == PutRoom(s.shared, 1, Seat(s.shared.heap[1], 3, 0))
    requires s'.locals == s.locals + [host] + [client] && s'.pcs == s.pcs + [Serve(Serving)] + [Serve(Serving)]
    ensures Crossing(s')
  {
  }

  lemma NextRoomFills() returns (run: seq<Action>)
    ensures Crossing(Reached(run))
  {
    var evicted := HostIsEvictedReading();
    var joined := HostJoins(evicted, "000000", 0);
    var served := HostServes(joined, 3, 0);
    run := ClientSignalArrives(served, "000000", 0);
    NextRoomIsCrossed(Reached(evicted), Reached(run), Reached(run).locals[3], Reached(run).locals[4]);
  }

  lemma ClientHasOffered() returns (run: seq<Action>)
    ensures Crossing(Reached(run)) && RouteIn(Reached(run), 1, 7) == Some(4)
  {
    var filled := NextRoomFills();
    run := ClientOffers(filled, 4, 1, 3);
  }

  /**
   Signalling crosses generations: the packet of a host that was evicted while it read goes
   to a client of the next room, in which that host is not seated.
   */
  lemma PacketCrossesGenerations() returns (run: seq<Action>)
    ensures var s := Reached(run);
            && |s.pcs| == 5 && s.pcs[1] == Serve(Acting(1, OFFER)) && s.locals[1].role == HostSignal
            && s.locals[1].room == Some(0) && |s.shared.heap| == 2 && s.shared.heap[1].host == Some(3)
            && forall ch :: Exec(s, 1, ch).delivered == s.delivered + [Delivery(4, OFFER)]
  {
    var offered := ClientHasOffered();
    AfterLast(offered, Step(1, At(0)));
    LoopSteps(Reached(offered), 1, At(0), 1, 0);
    run := offered + [Step(1, At(0))];
    forall ch ensures Exec(Reached(run), 1, ch).delivered == Reached(run).delivered + [Delivery(4, OFFER)] {
      HostPacketsFollowRoutes(Reached(run), 1, ch, 1, OFFER);
    }
  }
}
