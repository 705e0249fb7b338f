/**
 A client and a data connection from their arrival to their forwarding loops, and what can
 happen to them then. As in Scenarios, every continuation is given action by action.
 */
module PairScenarios {
  import opened Options
  import opened Decimal
  import opened Store
  import opened Protocol
  import opened Invariant
  import opened Pairing
  import opened Scenarios
  import opened Cleaners
  import opened Parting
  import Forwarding

  // ---- The data connection ----

  lemma FindingSteps(s: Sys, t: Conn, ch: Choice, id: RoomId)
    requires Valid(s) && t < |s.pcs| && s.locals[t].role == HostData && Lookup(s, s.locals[t].code) == Some(id)
    ensures s.pcs[t] == Gate ==> Exec(s, t, ch) == Goto(s, t, Data(TakeFind))
    ensures s.pcs[t] == Data(TakeFind) ==> Exec(s, t, ch) == Become(s, t, s.locals[t].(room := Some(id)), Data(Taking))
    ensures s.pcs[t] == Seek(SeekRoom) ==> Exec(s, t, ch) == Goto(s, t, Seek(SeekPartner(id)))
  {
  }

  lemma LinkingSteps(s: Sys, t: Conn, ch: Choice, id: RoomId, c: Conn)
    requires Valid(s) && t < |s.pcs| && s.locals[t].room == Some(id)
    ensures s.pcs[t] == Data(Taking) && Filed(s, id, s.locals[t].name, c) ==>
              Exec(s, t, ch) == Become(WithRoom(s, id, DropRequest(s.shared.heap[id], s.locals[t].name)), t,
                                       s.locals[t].(client := Some(c)), Data(Linking))
    ensures s.pcs[t] == Data(Linking) && s.locals[t].client == Some(c) && c in s.shared.heap[id].c2h ==>
              Exec(s, t, ch) == Become(WithRoom(s, id, Link(s.shared.heap[id], c, t)), t,
                                       s.locals[t].(linked := true), Data(Mirroring))
    ensures s.pcs[t] == Data(Mirroring) && s.locals[t].client == Some(c) ==>
              Exec(s, t, ch) == Become(WithRoom(s, id, Mirror(s.shared.heap[id], t, c)), t,
                                       s.locals[t].(mirrored := true), Data(Touching))
    ensures s.pcs[t] == Data(Touching) ==>
              Exec(s, t, ch) == Goto(WithRoom(s, id, Touch(s.shared.heap[id], ch.now)), t, Seek(SeekRoom))
    ensures s.pcs[t] == Seek(SeekPartner(id)) && t in s.shared.heap[id].h2c ==>
              Exec(s, t, ch) == Become(s, t, s.locals[t].(partner := Some(s.shared.heap[id].h2c[t])), Exit(Forwarding))
  {
  }

  lemma DataFinds(run: seq<Action>, code: Code, name: string, now: int) returns (next: seq<Action>)
    requires code in Reached(run).shared.table
    ensures var s, step := Reached(run), Step(|Reached(run).pcs|, At(now));
            && next == run + [Spawn(HostData, code, name)] + [step] + [step]
            && Reached(next) ==
               Joined(s, StartLocals(HostData, code, name).(room := Some(s.shared.table[code])), Data(Taking))
  {
    var s, t, step := Reached(run), |Reached(run).pcs|, Step(|Reached(run).pcs|, At(now));
    var l, id := StartLocals(HostData, code, name), s.shared.table[code];
    var spawned := run + [Spawn(HostData, code, name)];
    AfterLast(run, Spawn(HostData, code, name));
    assert Reached(spawned) == Joined(s, l, Gate);
    AfterLast(spawned, step);
    FindingSteps(Reached(spawned), t, At(now), id);
    LastMoves(s, l, Gate, l, Data(TakeFind));
    assert Reached(spawned + [step]) == Joined(s, l, Data(TakeFind));
    AfterLast(spawned + [step], step);
    FindingSteps(Reached(spawned + [step]), t, At(now), id);
    LastMoves(s, l, Data(TakeFind), l.(room := Some(id)), Data(Taking));
    next := spawned + [step] + [step];
  }

  lemma DataTakes(run: seq<Action>, s: Sys, l: Locals, id: RoomId, c: Conn, now: int) returns (next: seq<Action>)
    requires |s.locals| == |s.pcs| && l.room == Some(id) && Filed(s, id, l.name, c) && c in s.shared.heap[id].c2h
    requires Reached(run) == Joined(s, l, Data(Taking))
    ensures var step, room := Step(|s.pcs|, At(now)), Link(DropRequest(s.shared.heap[id], l.name), c, |s.pcs|);
            && next == run + [step] + [step]
            && Reached(next) == Joined(WithRoom(s, id, room), l.(client := Some(c), linked := true), Data(Mirroring))
  {
    var t, step, taken := |s.pcs|, Step(|s.pcs|, At(now)), DropRequest(s.shared.heap[id], l.name);
    AfterLast(run, step);
    LinkingSteps(Reached(run), t, At(now), id, c);
    LastMoves(WithRoom(s, id, taken), l, Data(Taking), l.(client := Some(c)), Data(Linking));
    assert Reached(run + [step]) == Joined(WithRoom(s, id, taken), l.(client := Some(c)), Data(Linking));
    AfterLast(run + [step], step);
    LinkingSteps(Reached(run + [step]), t, At(now), id, c);
    LastWriteWins(s.shared, id, taken, Link(taken, c, t));
    LastMoves(WithRoom(s, id, Link(taken, c, t)), l.(client := Some(c)), Data(Linking),
              l.(client := Some(c), linked := true), Data(Mirroring));
    next := run + [step] + [step];
  }

  lemma DataMirrors(run: seq<Action>, s: Sys, l: Locals, id: RoomId, c: Conn, now: int) returns (next: seq<Action>)
    requires |s.locals| == |s.pcs| && id < |s.shared.heap| && l.room == Some(id) && l.client == Some(c)
    requires Reached(run) == Joined(s, l, Data(Mirroring))
    ensures var step, room := Step(|s.pcs|, At(now)), Touch(Mirror(s.shared.heap[id], |s.pcs|, c), now);
            && next == run + [step] + [step]
            && Reached(next) == Joined(WithRoom(s, id, room), l.(mirrored := true), Seek(SeekRoom))
  {
    var t, step, mirrored := |s.pcs|, Step(|s.pcs|, At(now)), Mirror(s.shared.heap[id], |s.pcs|, c);
    AfterLast(run, step);
    LinkingSteps(Reached(run), t, At(now), id, c);
    LastMoves(WithRoom(s, id, mirrored), l, Data(Mirroring), l.(mirrored := true), Data(Touching));
    assert Reached(run + [step]) == Joined(WithRoom(s, id, mirrored), l.(mirrored := true), Data(Touching));
    AfterLast(run + [step], step);
    LinkingSteps(Reached(run + [step]), t, At(now), id, c);
    LastWriteWins(s.shared, id, mirrored, Touch(mirrored, now));
    LastMoves(WithRoom(s, id, Touch(mirrored, now)), l.(mirrored := true), Data(Touching),
              l.(mirrored := true), Seek(SeekRoom));
    next := run + [step] + [step];
  }

  lemma DataSeeks(run: seq<Action>, s: Sys, l: Locals, id: RoomId, c: Conn, now: int) returns (next: seq<Action>)
    requires |s.locals| == |s.pcs| && id < |s.shared.heap| && l.role == HostData && l.room == Some(id)
    requires Lookup(s, l.code) == Some(id) && |s.pcs| in s.shared.heap[id].h2c && s.shared.heap[id].h2c[|s.pcs|] == c
    requires Reached(run) == Joined(s, l, Seek(SeekRoom))
    ensures next == run + [Step(|s.pcs|, At(now))] + [Step(|s.pcs|, At(now))]
    ensures Reached(next) == Joined(s, l.(partner := Some(c)), Exit(Forwarding))
  {
    var t, step := |s.pcs|, Step(|s.pcs|, At(now));
    AfterLast(run, step);
    FindingSteps(Reached(run), t, At(now), id);
    LastMoves(s, l, Seek(SeekRoom), l, Seek(SeekPartner(id)));
    assert Reached(run + [step]) == Joined(s, l, Seek(SeekPartner(id)));
    AfterLast(run + [step], step);
    LinkingSteps(Reached(run + [step]), t, At(now), id, c);
    LastMoves(s, l, Seek(SeekPartner(id)), l.(partner := Some(c)), Exit(Forwarding));
    next := run + [step] + [step];
  }

  lemma DataTakesAndMirrors(run: seq<Action>, s: Sys, l: Locals, id: RoomId, c: Conn, now: int)
    returns (next: seq<Action>)
    requires |s.locals| == |s.pcs| && l.room == Some(id) && Filed(s, id, l.name, c) && c in s.shared.heap[id].c2h
    requires Reached(run) == Joined(s, l, Data(Taking))
    ensures Reached(next) == Joined(WithRoom(s, id, Paired(DropRequest(s.shared.heap[id], l.name), c, |s.pcs|, now)),
                                    l.(client := Some(c), linked := true, mirrored := true), Seek(SeekRoom))
  {
    var linked := Link(DropRequest(s.shared.heap[id], l.name), c, |s.pcs|);
    var taken := DataTakes(run, s, l, id, c, now);
    next := DataMirrors(taken, WithRoom(s, id, linked), l.(client := Some(c), linked := true), id, c, now);
    LastWriteWins(s.shared, id, linked, Touch(Mirror(linked, |s.pcs|, c), now));
  }

  /** A data connection arrives, takes a request on file, links, and forwards. */
  lemma DataConnects(run: seq<Action>, code: Code, id: RoomId, name: string, c: Conn, now: int)
    returns (next: seq<Action>)
    requires var s := Reached(run);
             Lookup(s, code) == Some(id) && Filed(s, id, name, c) && c in s.shared.heap[id].c2h
    ensures var s, t := Reached(run), |Reached(run).pcs|;
            var l := StartLocals(HostData, code, name).(
              room := Some(id), client := Some(c), linked := true, mirrored := true, partner := Some(c));
            Reached(next) ==
            Joined(WithRoom(s, id, Paired(DropRequest(s.shared.heap[id], name), c, t, now)), l, Exit(Forwarding))
  {
    var s, l := Reached(run), StartLocals(HostData, code, name).(room := Some(id));
    var found := DataFinds(run, code, name, now);
    var paired := DataTakesAndMirrors(found, s, l, id, c, now);
    var s' := WithRoom(s, id, Paired(DropRequest(s.shared.heap[id], name), c, |s.pcs|, now));
    next := DataSeeks(paired, s', l.(client := Some(c), linked := true, mirrored := true), id, c, now);
  }

  // ---- The client ----

  lemma PollingSteps(s: Sys, t: Conn, ch: Choice, id: RoomId, h: Conn)
    requires Valid(s) && t < |s.pcs| && Lookup(s, s.locals[t].code) == Some(id) && s.locals[t].room == Some(id)
    requires s.locals[t].role == ClientData && ch.ok
    ensures s.pcs[t] == Client(Asking) && id !in s.lost ==> Exec(s, t, ch) == Goto(s, t, Poll(PollRoom))
    ensures s.pcs[t] == Poll(PollRoom) ==> Exec(s, t, ch) == Goto(s, t, Poll(PollHost(id)))
    ensures s.pcs[t] == Poll(PollHost(id)) && s.shared.heap[id].host.Some? ==>
              Exec(s, t, ch) == Goto(s, t, Poll(PollPartner(id)))
    ensures s.pcs[t] == Poll(PollPartner(id)) && t in s.shared.heap[id].c2h && s.shared.heap[id].c2h[t] == Some(h) ==>
              Exec(s, t, ch) == Become(s, t, s.locals[t].(partner := Some(h)), Sweep(SweepFind))
    ensures s.pcs[t] == Sweep(SweepFind) ==> Exec(s, t, ch) == Goto(s, t, Sweep(SweepCheck(id)))
    ensures s.pcs[t] == Sweep(SweepCheck(id)) && s.locals[t].name !in s.shared.heap[id].requests
            && s.locals[t].partner.Some? ==>
              Exec(s, t, ch) == Goto(s, t, Exit(Forwarding))
  {
  }

  /** Of two moves of the same handler the later one remains. */
  lemma LastBecomesWin(s: Sys, t: Conn, pc: Pc, l: Locals, pc': Pc, l': Locals, pc'': Pc)
    requires t < |s.locals| == |s.pcs|
    ensures Become(Goto(s, t, pc), t, l, pc') == Become(s, t, l, pc')
    ensures Goto(Become(s, t, l, pc), t, pc') == Become(s, t, l, pc')
  {
    assert s.pcs[t := pc][t := pc'] == s.pcs[t := pc'];
  }

  lemma ClientPolls(run: seq<Action>, t: Conn, id: RoomId, now: int) returns (next: seq<Action>)
    requires var s := Reached(run);
             && t < |s.pcs| && s.pcs[t] == Client(Asking) && s.locals[t].role == ClientData
             && Lookup(s, s.locals[t].code) == Some(id) && s.locals[t].room == Some(id)
             && id !in s.lost && s.shared.heap[id].host.Some?
    ensures next == run + [Step(t, At(now))] + [Step(t, At(now))] + [Step(t, At(now))]
    ensures Reached(next) == Goto(Reached(run), t, Poll(PollPartner(id)))
  {
    var s, step := Reached(run), Step(t, At(now));
    AfterLast(run, step);
    PollingSteps(s, t, At(now), id, 0);
    assert Reached(run + [step]) == Goto(s, t, Poll(PollRoom));
    AfterLast(run + [step], step);
    PollingSteps(Reached(run + [step]), t, At(now), id, 0);
    LastMoveWins(s, t, Poll(PollRoom), Poll(PollHost(id)));
    assert Reached(run + [step] + [step]) == Goto(s, t, Poll(PollHost(id)));
    AfterLast(run + [step] + [step], step);
    PollingSteps(Reached(run + [step] + [step]), t, At(now), id, 0);
    LastMoveWins(s, t, Poll(PollHost(id)), Poll(PollPartner(id)));
    next := run + [step] + [step] + [step];
  }

  lemma ClientSweeps(run: seq<Action>, t: Conn, id: RoomId, h: Conn, now: int) returns (next: seq<Action>)
    requires var s := Reached(run);
             && t < |s.pcs| && s.pcs[t] == Poll(PollPartner(id)) && s.locals[t].role == ClientData
             && Lookup(s, s.locals[t].code) == Some(id) && s.locals[t].room == Some(id)
             && Linked(s.shared.heap, id, t, h) && s.locals[t].name !in s.shared.heap[id].requests
    ensures next == run + [Step(t, At(now))] + [Step(t, At(now))] + [Step(t, At(now))]
    ensures Reached(next) == Become(Reached(run), t, Reached(run).locals[t].(partner := Some(h)), Exit(Forwarding))
  {
    var s, step := Reached(run), Step(t, At(now));
    var l := s.locals[t].(partner := Some(h));
    AfterLast(run, step);
    PollingSteps(s, t, At(now), id, h);
    assert Reached(run + [step]) == Become(s, t, l, Sweep(SweepFind));
    AfterLast(run + [step], step);
    PollingSteps(Reached(run + [step]), t, At(now), id, h);
    LastBecomesWin(s, t, Sweep(SweepFind), l, Sweep(SweepCheck(id)), l, Exit(Forwarding));
    assert Reached(run + [step] + [step]) == Become(s, t, l, Sweep(SweepCheck(id)));
    AfterLast(run + [step] + [step], step);
    PollingSteps(Reached(run + [step] + [step]), t, At(now), id, h);
    LastBecomesWin(s, t, Sweep(SweepCheck(id)), l, Exit(Forwarding), l, Exit(Forwarding));
    next := run + [step] + [step] + [step];
  }

  // ---- A linked pair ----

  const NAME := RequestName(0, "000000")

  /** Host 1, client 2 and data connection 3 are in one room, and 2 is linked to 3. */
  predicate LinkedPair(s: Sys) {
    && s.shared.table == map["000000" := 0] && |s.shared.heap| == 1 && s.shared.heap[0].host == Some(1)
    && s.shared.heap[0].c2h == map[2 := Some(3)] && s.shared.heap[0].h2c == map[3 := 2]
    && s.shared.heap[0].requests == map[]
    && s.shared.issued == {"000000"} && s.closed == {} && s.lost == {} && |s.pcs| == |s.locals| == 4
    && s.pcs[1] == Serve(Serving) && s.locals[1] == StartLocals(HostSignal, "000000", "").(room := Some(0))
    && s.pcs[3] == Exit(Forwarding) && s.locals[3].role == HostData && s.locals[3].code == "000000"
    && s.locals[2].role == ClientData && s.locals[2].code == "000000"
    && s.locals[2].room == Some(0) && s.locals[2].name == NAME
  }

  /** Both of their loops are running. */
  predicate PairForwards(s: Sys) {
    LinkedPair(s) && s.pcs[2] == Exit(Forwarding) && s.locals[2].partner == Some(3) && s.locals[3].partner == Some(2)
  }

  /** The client waits in its room, and its request is on file. */
  predicate Asking2(s: Sys) {
    && s.shared.table == map["000000" := 0] && |s.shared.heap| == 1 && s.shared.heap[0].host == Some(1)
    && s.shared.heap[0].c2h == map[2 := None] && s.shared.heap[0].h2c == map[]
    && s.shared.heap[0].requests == map[NAME := 2]
    && s.shared.issued == {"000000"} && s.closed == {} && s.lost == {} && |s.pcs| == |s.locals| == 3
    && s.pcs[1] == Serve(Serving) && s.locals[1] == StartLocals(HostSignal, "000000", "").(room := Some(0))
    && s.pcs[2] == Client(Asking) && s.locals[2].partner == None
    && s.locals[2].role == ClientData && s.locals[2].code == "000000"
    && s.locals[2].room == Some(0) && s.locals[2].name == NAME
  }

  lemma ClientAsks() returns (run: seq<Action>)
    ensures Asking2(Reached(run))
  {
    var hosted := HostedRoom();
    run := ClientEnters(hosted, "000000", 0);
  }

  lemma PairStates(s: Sys, s': Sys, l: Locals)
    requires Asking2(s)
    requires s' == Joined(WithRoom(s, 0, Paired(DropRequest(s.shared.heap[0], NAME), 2, 3, 0)), l, Exit(Forwarding))
    requires l.role == HostData && l.code == "000000" && l.partner == Some(2)
    ensures LinkedPair(s') && s'.pcs[2] == Client(Asking) && s'.locals[3].partner == Some(2)
  {
  }

  lemma PairIsLinked() returns (run: seq<Action>)
    ensures LinkedPair(Reached(run)) && Reached(run).pcs[2] == Client(Asking)
    ensures Reached(run).locals[3].partner == Some(2)
  {
    var asked := ClientAsks();
    run := DataConnects(asked, "000000", 0, NAME, 2, 0);
    PairStates(Reached(asked), Reached(run), Reached(run).locals[3]);
  }

  lemma PairIsForwarding() returns (run: seq<Action>)
    ensures PairForwards(Reached(run))
  {
    run := PairIsLinked();
    run := ClientPolls(run, 2, 0, 0);
    run := ClientSweeps(run, 2, 0, 3, 0);
  }

  // ---- The host leaves ----

  /** A loop breaks off and its handler is about to clean up. */
  lemma LeaveSteps(s: Sys, t: Conn, ch: Choice)
    requires Valid(s) && t < |s.pcs|
    ensures s.pcs[t] == Serve(Serving) && !ch.ok ==> Exec(s, t, ch) == Goto(s, t, Exit(Leave))
    ensures s.pcs[t] == Exit(Forwarding) && s.locals[t].role == ClientData && !ch.ok ==>
              Exec(s, t, ch) == Goto(s, t, Exit(Leave))
    ensures s.pcs[t] == Exit(Leave) ==> Exec(s, t, ch) == Goto(s.(count := s.count - 1), t, Exit(Cleanup))
  {
  }

  function Broken(now: int): Choice {
    At(now).(ok := false)
  }

  lemma Leaves(run: seq<Action>, t: Conn, now: int) returns (next: seq<Action>)
    requires t < |Reached(run).pcs|
    requires Reached(run).pcs[t] == Serve(Serving)
             || (Reached(run).pcs[t] == Exit(Forwarding) && Reached(run).locals[t].role == ClientData)
    ensures next == run + [Step(t, Broken(now))] + [Step(t, At(now))]
    ensures Reached(next) == Goto(Reached(run).(count := Reached(run).count - 1), t, Exit(Cleanup))
  {
    var s := Reached(run);
    AfterLast(run, Step(t, Broken(now)));
    LeaveSteps(s, t, Broken(now));
    assert Reached(run + [Step(t, Broken(now))]) == Goto(s, t, Exit(Leave));
    AfterLast(run + [Step(t, Broken(now))], Step(t, At(now)));
    LeaveSteps(Reached(run + [Step(t, Broken(now))]), t, At(now));
    LastMoveWins(s.(count := s.count - 1), t, Exit(Leave), Exit(Cleanup));
    next := run + [Step(t, Broken(now))] + [Step(t, At(now))];
  }

  lemma CleanupStep(s: Sys, t: Conn, ch: Choice)
    requires Valid(s) && t < |s.pcs| && s.pcs[t] == Exit(Cleanup)
    ensures s.locals[t].code !in s.shared.table ==> Exec(s, t, ch) == Goto(s, t, DONE)
    ensures s.locals[t].code in s.shared.table ==>
              var goal := CleanupClosures(s.shared.heap[s.shared.table[s.locals[t].code]], t, Unspecified);
              Exec(s, t, ch) ==
              Goto(s.(shared := AfterCleanup(s.shared, t, s.locals[t].code)), t, Exit(Closing(goal, goal)))
  {
  }

  const PAIR_LIST := {Closure(2, HostDisconnected), Closure(3, SignalDisconnected), Closure(1, Unspecified)}

  /** The host has unbound the code and set out to close the room, and the pair still forwards. */
  predicate TearingDown(s: Sys) {
    && s.shared.table == map[] && s.closed == {} && |s.pcs| == |s.locals| == 4
    && s.pcs[1] == Exit(Closing(PAIR_LIST, PAIR_LIST))
    && s.pcs[2] == Exit(Forwarding) && s.locals[2].role == ClientData && s.locals[2].code == "000000"
    && s.locals[2].partner == Some(3)
  }

  lemma PairList(room: RoomState)
    requires room.host == Some(1) && room.c2h == map[2 := Some(3)]
    ensures CleanupClosures(room, 1, Unspecified) == PAIR_LIST
  {
    assert 2 in room.c2h && room.c2h[2] == Some(3);
  }

  lemma HostTearsDown() returns (run: seq<Action>)
    ensures TearingDown(Reached(run))
  {
    var pair := PairIsForwarding();
    var left := Leaves(pair, 1, 0);
    PairList(Reached(left).shared.heap[0]);
    AfterLast(left, Step(1, At(0)));
    CleanupStep(Reached(left), 1, At(0));
    run := left + [Step(1, At(0))];
  }

  /** A step in which a cleanup closes the data connection off its list. */
  const CLOSE_3 := At(0).(pick := Closure(3, SignalDisconnected))

  lemma ClosingStep(s: Sys, t: Conn, ch: Choice, goal: set<Closure>)
    requires Valid(s) && t < |s.pcs| && s.pcs[t] == Exit(Closing(goal, goal)) && ch.pick in goal
    ensures Exec(s, t, ch) == Goto(Close(s, ch.pick.conn), t, Exit(Closing(goal, goal - {ch.pick})))
  {
  }

  /**
   The room goes while a message is being copied: the client's loop stops inside it, its own
   cleanup finds no room, and the host's list closes the partner.
   */
  lemma HostClosesPartner() returns (run: seq<Action>, more: seq<Action>)
    ensures TearingDown(Reached(run))
    ensures more == [Step(2, At(0))] + [Step(2, At(0))] + [Step(1, CLOSE_3)]
    ensures var s' := Reached(run + [Step(2, Broken(0))] + more);
            |s'.pcs| == 4 && s'.pcs[2] == DONE && s'.closed == {3}
  {
    run := HostTearsDown();
    var left := Leaves(run, 2, 0);
    AfterLast(left, Step(2, At(0)));
    CleanupStep(Reached(left), 2, At(0));
    var done := left + [Step(2, At(0))];
    AfterLast(done, Step(1, CLOSE_3));
    ClosingStep(Reached(done), 1, CLOSE_3, PAIR_LIST);
    more := [Step(2, At(0))] + [Step(2, At(0))] + [Step(1, CLOSE_3)];
    ThreeMore(run + [Step(2, Broken(0))], Step(2, At(0)), Step(2, At(0)), Step(1, CLOSE_3));
  }

  lemma ThreeMore(run: seq<Action>, a: Action, b: Action, c: Action)
    ensures run + [a] + [b] + [c] == run + ([a] + [b] + [c])
  {
  }

  /**
   So a truncated message reaches the partner although the handler's own cleanup named nobody:
   the code was unbound by then, and the host's cleanup closed the partner.
   */
  lemma TornDownPairGetsTruncatedMessage(data: Forwarding.Payload) returns (run: seq<Action>, more: seq<Action>)
    requires |data| == 4
    ensures var s, s1 := Reached(run), Reached(run + [Step(2, Broken(0))]);
            && 2 < |s.pcs| && s.pcs[2] == Exit(Forwarding) && s.locals[2].partner == Some(3) && 3 !in s.closed
            && !CleanedUpAtHome(s1, more, 2) && Closers(s1, more, 3) != {} && 2 !in Closers(s1, more, 3)
    ensures var closed := Reached(run + [Step(2, Broken(0))] + more).closed;
            && 3 in closed
            && var script := Forwarding.Sent(data, Forwarding.ReadFault(2));
               Forwarding.Seen(script, Forwarding.CLIENT_TO_HOST, 0, 3 in closed, true) == [data[..2]]
  {
    run, more := HostClosesPartner();
    PartnersAreClosedExactly(run, 2, Broken(0), more, 3);
    OwnCleanupNamedNobody(run, more);
    Forwarding.TruncatedMessageArrives(Forwarding.CLIENT_TO_HOST, data, 2);
  }

  lemma OwnCleanupNamedNobody(run: seq<Action>, more: seq<Action>)
    requires TearingDown(Reached(run))
    requires var s' := Reached(run + [Step(2, Broken(0))] + more); |s'.pcs| == 4 && s'.pcs[2] == DONE
    ensures !CleanedUpAtHome(Reached(run + [Step(2, Broken(0))]), more, 2)
  {
    InitSatisfiesInv();
    AfterLast(run, Step(2, Broken(0)));
    StopDeparts(Reached(run), 2, Broken(0), 3);
    RunsCompose(INIT, run + [Step(2, Broken(0))], more);
    RunDeparts(Reached(run + [Step(2, Broken(0))]), more, 2, 3);
  }
}
