/**
 What can happen, from any reachable state: continuations in which handlers arrive and take
 the steps that lead to the relay's surprises. Every continuation is given action by action,
 and no clock in it runs backwards.
 */
module Scenarios {
  import opened Options
  import opened Decimal
  import opened Store
  import opened Protocol
  import opened Invariant

  /** A step at a given time in which I/O succeeds. */
  function At(now: int): Choice {
    Choice(true, 0, now, "000000", [], Closure(0, Unspecified))
  }

  /** The state in which a new handler is the last, and nothing else has changed. */
  function Joined(s: Sys, l: Locals, pc: Pc): Sys {
    s.(locals := s.locals + [l], pcs := s.pcs + [pc])
  }

  /** The last handler moves on, and nothing else changes. */
  lemma LastMoves(s: Sys, l: Locals, pc: Pc, l': Locals, pc': Pc)
    requires |s.locals| == |s.pcs|
    ensures Become(Joined(s, l, pc), |s.pcs|, l', pc') == Joined(s, l', pc')
    ensures Goto(Joined(s, l, pc), |s.pcs|, pc') == Joined(s, l, pc')
  {
  }

  /** A room is opened under a free code. */
  lemma Opens(run: seq<Action>, code: Code, now: int) returns (next: seq<Action>)
    requires IsCode(code) && code !in Reached(run).shared.table
    ensures next == run + [Spawn(FreshCreator, "", ""), Step(|Reached(run).pcs|, At(now).(code := code))]
    ensures Reached(next) == Joined(Reached(run).(shared := Issue(Bind(Reached(run).shared, code, now), code)),
                                    StartLocals(FreshCreator, "", ""), DONE)
  {
    var s, t := Reached(run), |Reached(run).pcs|;
    var spawned := run + [Spawn(FreshCreator, "", "")];
    AfterLast(run, Spawn(FreshCreator, "", ""));
    AfterLast(spawned, Step(t, At(now).(code := code)));
    next := spawned + [Step(t, At(now).(code := code))];
    LastMoves(s, StartLocals(FreshCreator, "", ""), Create(DrawCode), StartLocals(FreshCreator, "", ""), DONE);
  }

  /** A host joins a room that has none. */
  lemma HostJoins(run: seq<Action>, code: Code, now: int) returns (next: seq<Action>)
    requires code in Reached(run).shared.table
    requires Reached(run).shared.heap[Reached(run).shared.table[code]].host.None?
    ensures var s, t := Reached(run), |Reached(run).pcs|;
            var id := s.shared.table[code];
            && next == run + [Spawn(HostSignal, code, ""), Step(t, At(now)), Step(t, At(now))]
            && Reached(next) == Joined(s.(shared := PutRoom(s.shared, id, Seat(s.shared.heap[id], t, now))),
                                       StartLocals(HostSignal, code, "").(room := Some(id)), Enter)
  {
    var s, t := Reached(run), |Reached(run).pcs|;
    var l, id := StartLocals(HostSignal, code, ""), s.shared.table[code];
    var spawned := run + [Spawn(HostSignal, code, "")];
    var gated := spawned + [Step(t, At(now))];
    next := gated + [Step(t, At(now))];
    AfterLast(run, Spawn(HostSignal, code, ""));
    AfterLast(spawned, Step(t, At(now)));
    AfterLast(gated, Step(t, At(now)));
    LastMoves(s, l, Gate, l, Signal(Join));
    assert Reached(gated) == Joined(s, l, Signal(Join));
    LastMoves(s.(shared := Reached(next).shared), l, Signal(Join), l.(room := Some(id)), Enter);
  }

  /** The steps of a client's signal connection up to its loop. */
  lemma SignalSteps(s: Sys, t: Conn, ch: Choice)
    requires Valid(s) && t < |s.pcs| && s.locals[t].role == ClientSignal && s.locals[t].code in s.shared.table
    ensures s.pcs[t] == Gate ==> Exec(s, t, ch) == Goto(s, t, Enter)
    ensures s.pcs[t] == Enter ==> Exec(s, t, ch) == Goto(s.(count := s.count + 1), t, Signal(SignalFind))
    ensures s.pcs[t] == Signal(SignalFind) ==>
            Exec(s, t, ch) == Goto(s, t, Signal(SignalHost(s.shared.table[s.locals[t].code])))
    ensures s.pcs[t].Signal? && s.pcs[t].signal.SignalHost? ==>
              Exec(s, t, ch) == if s.shared.heap[s.pcs[t].signal.seen].hasHost then Goto(s, t, Serve(Serving))
                                else Goto(Close(s, t), t, Exit(Bailed))
  {
  }

  lemma ClientSignalEnters(run: seq<Action>, code: Code, now: int)
    requires code in Reached(run).shared.table
    ensures var s, step := Reached(run), Step(|Reached(run).pcs|, At(now));
            Reached(run + [Spawn(ClientSignal, code, ""), step, step])
            == Joined(s.(count := s.count + 1), StartLocals(ClientSignal, code, ""), Signal(SignalFind))
  {
    var s, t := Reached(run), |Reached(run).pcs|;
    var l, step := StartLocals(ClientSignal, code, ""), Step(t, At(now));
    var spawned := run + [Spawn(ClientSignal, code, "")];
    AfterLast(run, Spawn(ClientSignal, code, ""));
    assert Reached(spawned) == Joined(s, l, Gate);
    AfterLast(spawned, step);
    SignalSteps(Reached(spawned), t, At(now));
    LastMoves(s, l, Gate, l, Enter);
    AfterLast(spawned + [step], step);
    SignalSteps(Reached(spawned + [step]), t, At(now));
    LastMoves(s.(count := s.count + 1), l, Enter, l, Signal(SignalFind));
    assert spawned + [step] + [step] == run + [Spawn(ClientSignal, code, ""), step, step];
  }

  /** The last looks before the signal loop. */
  lemma ClientSignalLooks(run: seq<Action>, s: Sys, l: Locals, now: int)
    requires |s.locals| == |s.pcs| && l.role == ClientSignal && l.code in s.shared.table && Wired(s.shared)
    requires Reached(run) == Joined(s, l, Signal(SignalFind))
    ensures var t, room, step := |s.pcs|, s.shared.heap[s.shared.table[l.code]], Step(|s.pcs|, At(now));
            Reached(run + [step, step]) ==
            if room.hasHost then Joined(s, l, Serve(Serving)) else Joined(s.(closed := s.closed + {t}), l, Exit(Bailed))
  {
    var t, id, step := |s.pcs|, s.shared.table[l.code], Step(|s.pcs|, At(now));
    AfterLast(run, step);
    SignalSteps(Reached(run), t, At(now));
    LastMoves(s, l, Signal(SignalFind), l, Signal(SignalHost(id)));
    AfterLast(run + [step], step);
    SignalSteps(Reached(run + [step]), t, At(now));
    LastMoves(s, l, Signal(SignalHost(id)), l, Serve(Serving));
    LastMoves(s.(closed := s.closed + {t}), l, Signal(SignalHost(id)), l, Exit(Bailed));
    assert run + [step] + [step] == run + [step, step];
  }

  /** A client's signal connection arrives: it serves if the room has a host, and bails out if not. */
  lemma ClientSignalArrives(run: seq<Action>, code: Code, now: int) returns (next: seq<Action>)
    requires code in Reached(run).shared.table
    ensures var s, t := Reached(run), |Reached(run).pcs|;
            var l, step := StartLocals(ClientSignal, code, ""), Step(t, At(now));
            && next == run + [Spawn(ClientSignal, code, ""), step, step, step, step]
            && Reached(next) ==
               if s.shared.heap[s.shared.table[code]].host.Some?
               then Joined(s.(count := s.count + 1), l, Serve(Serving))
               else Joined(s.(count := s.count + 1, closed := s.closed + {t}), l, Exit(Bailed))
  {
    var s, step := Reached(run), Step(|Reached(run).pcs|, At(now));
    var l, id := StartLocals(ClientSignal, code, ""), s.shared.table[code];
    assert SeatOk(s.shared.heap[id], s.locals, id);
    ClientSignalEnters(run, code, now);
    var entered := run + [Spawn(ClientSignal, code, ""), step, step];
    ClientSignalLooks(entered, s.(count := s.count + 1), l, now);
    next := entered + [step, step];
  }

  /** Of two moves of the same handler the later one remains. */
  lemma LastMoveWins(s: Sys, t: Conn, pc: Pc, pc': Pc)
    requires t < |s.pcs|
    ensures Goto(Goto(s, t, pc), t, pc') == Goto(s, t, pc')
  {
    assert s.pcs[t := pc][t := pc'] == s.pcs[t := pc'];
  }

  /** A host that has joined starts to serve. */
  lemma HostServes(run: seq<Action>, t: Conn, now: int) returns (next: seq<Action>)
    requires t < |Reached(run).pcs| && Reached(run).pcs[t] == Enter && Reached(run).locals[t].role == HostSignal
    requires Reached(run).locals[t].code in Reached(run).shared.table
    ensures next == run + [Step(t, At(now)), Step(t, At(now))]
    ensures Reached(next) == Goto(Reached(run).(count := Reached(run).count + 1), t, Serve(Serving))
  {
    var step, s := Step(t, At(now)), Reached(run);
    AfterLast(run, step);
    AfterLast(run + [step], step);
    next := run + [step] + [step];
    LastMoveWins(s.(count := s.count + 1), t, Signal(SignalFind), Serve(Serving));
  }

  lemma LeavingSteps(s: Sys, t: Conn, ch: Choice)
    requires Valid(s) && t < |s.pcs| && s.locals[t].code !in s.shared.table
    ensures s.pcs[t] == Serve(Serving) && !ch.ok ==> Exec(s, t, ch) == Goto(s, t, Exit(Leave))
    ensures s.pcs[t] == Exit(Leave) ==> Exec(s, t, ch) == Goto(s.(count := s.count - 1), t, Exit(Cleanup))
    ensures s.pcs[t] == Exit(Cleanup) ==> Exec(s, t, ch) == Goto(s, t, DONE)
  {
  }

  /** The connection of a serving handler breaks off when its room is gone. */
  lemma LeavesNothing(run: seq<Action>, t: Conn, now: int) returns (next: seq<Action>)
    requires t < |Reached(run).pcs| && Reached(run).pcs[t] == Serve(Serving)
    requires Reached(run).locals[t].code !in Reached(run).shared.table
    ensures next == run + [Step(t, At(now).(ok := false)), Step(t, At(now)), Step(t, At(now))]
    ensures Reached(next) == Goto(Reached(run).(count := Reached(run).count - 1), t, DONE)
  {
    var fault, step, s := Step(t, At(now).(ok := false)), Step(t, At(now)), Reached(run);
    AfterLast(run, fault);
    LeavingSteps(s, t, At(now).(ok := false));
    assert Reached(run + [fault]) == Goto(s, t, Exit(Leave));
    AfterLast(run + [fault], step);
    LeavingSteps(Reached(run + [fault]), t, At(now));
    var left := run + [fault] + [step];
    LastMoveWins(s.(count := s.count - 1), t, Exit(Leave), Exit(Cleanup));
    assert Reached(left) == Goto(s.(count := s.count - 1), t, Exit(Cleanup));
    AfterLast(left, step);
    LeavingSteps(Reached(left), t, At(now));
    next := left + [step];
    LastMoveWins(s.(count := s.count - 1), t, Exit(Cleanup), DONE);
  }

  /** A scan lists what looks idle, with the hosts, and leaves everything else alone. */
  lemma ScanLists(s: Sys, t: Conn, ch: Choice)
    requires Valid(s) && t < |s.pcs| && s.pcs[t] == Clean(IdleScan)
    ensures Exec(s, t, ch) ==
            Goto(s, t, Clean(IdleDelete(IdleRooms(s.shared, ch.now), HostsOf(s.shared, IdleRooms(s.shared, ch.now)))))
  {
  }

  // ---- The cleaners come by ----

  /** The idle cleaner starts and scans. */
  lemma IdleCleanerScans(run: seq<Action>, now: int) returns (next: seq<Action>)
    ensures var s, t := Reached(run), |Reached(run).pcs|;
            && next == run + [Spawn(IdleCleaner, "", ""), Step(t, At(now))]
            && Reached(next) == Joined(s, StartLocals(IdleCleaner, "", ""),
                                       Clean(IdleDelete(IdleRooms(s.shared, now),
                                                        HostsOf(s.shared, IdleRooms(s.shared, now)))))
  {
    var s, t, l := Reached(run), |Reached(run).pcs|, StartLocals(IdleCleaner, "", "");
    var spawned := run + [Spawn(IdleCleaner, "", "")];
    AfterLast(run, Spawn(IdleCleaner, "", ""));
    assert Reached(spawned) == Joined(s, l, Clean(IdleScan));
    AfterLast(spawned, Step(t, At(now)));
    ScanLists(Reached(spawned), t, At(now));
    next := spawned + [Step(t, At(now))];
    var codes := IdleRooms(s.shared, now);
    LastMoves(s, l, Clean(IdleScan), l, Clean(IdleDelete(codes, HostsOf(s.shared, codes))));
  }

  lemma GhostSteps(s: Sys, t: Conn, ch: Choice)
    requires Valid(s) && t < |s.pcs|
    ensures s.pcs[t] == Clean(GhostScan) && GhostRooms(s.shared, ch.now) == {} ==>
              Exec(s, t, ch) == Goto(s, t, Clean(GhostPrune({})))
    ensures s.pcs[t] == Clean(GhostPrune({})) ==> Exec(s, t, ch) == Goto(s, t, Clean(GhostScan))
  {
    assert s.shared.table - {} == s.shared.table;
  }

  /** The ghost cleaner starts, scans, and finds nothing to prune. */
  lemma GhostCleanerFindsNothing(run: seq<Action>, now: int) returns (next: seq<Action>)
    requires GhostRooms(Reached(run).shared, now) == {}
    ensures var t := |Reached(run).pcs|;
            && next == run + [Spawn(GhostCleaner, "", ""), Step(t, At(now)), Step(t, At(now))]
            && Reached(next) == Joined(Reached(run), StartLocals(GhostCleaner, "", ""), Clean(GhostScan))
  {
    var s, step, l := Reached(run), Step(|Reached(run).pcs|, At(now)), StartLocals(GhostCleaner, "", "");
    var scanned := run + [Spawn(GhostCleaner, "", "")] + [step];
    GhostCleanerScans(run, now);
    AfterLast(scanned, step);
    GhostSteps(Reached(scanned), |s.pcs|, At(now));
    LastMoves(s, l, Clean(GhostPrune({})), l, Clean(GhostScan));
    next := scanned + [step];
  }

  lemma GhostCleanerScans(run: seq<Action>, now: int)
    requires GhostRooms(Reached(run).shared, now) == {}
    ensures Reached(run + [Spawn(GhostCleaner, "", "")] + [Step(|Reached(run).pcs|, At(now))])
            == Joined(Reached(run), StartLocals(GhostCleaner, "", ""), Clean(GhostPrune({})))
  {
    var s, step, l := Reached(run), Step(|Reached(run).pcs|, At(now)), StartLocals(GhostCleaner, "", "");
    var spawned := run + [Spawn(GhostCleaner, "", "")];
    AfterLast(run, Spawn(GhostCleaner, "", ""));
    assert Reached(spawned) == Joined(s, l, Clean(GhostScan));
    AfterLast(spawned, step);
    GhostSteps(Reached(spawned), |s.pcs|, At(now));
    LastMoves(s, l, Clean(GhostScan), l, Clean(GhostPrune({})));
  }

  // ---- A client enters ----

  /** The steps of a client up to the request that it sends to the host. */
  lemma ClientSteps(s: Sys, t: Conn, ch: Choice, id: RoomId)
    requires Valid(s) && t < |s.pcs| && s.locals[t].role == ClientData && Lookup(s, s.locals[t].code) == Some(id)
    ensures s.pcs[t] == Gate ==> Exec(s, t, ch) == Goto(s, t, Enter)
    ensures s.pcs[t] == Enter ==> Exec(s, t, ch) == Goto(s.(count := s.count + 1), t, Client(FindRoom))
    ensures s.pcs[t] == Client(FindRoom) ==>
              Exec(s, t, ch) == Become(s, t, s.locals[t].(room := Some(id)), Client(ReadHost))
  {
  }

  lemma ClientFinds(run: seq<Action>, code: Code, now: int)
    requires code in Reached(run).shared.table
    ensures var s, step := Reached(run), Step(|Reached(run).pcs|, At(now));
            Reached(run + [Spawn(ClientData, code, ""), step, step, step])
            == Joined(s.(count := s.count + 1),
                      StartLocals(ClientData, code, "").(room := Some(s.shared.table[code])), Client(ReadHost))
  {
    var s, t, step := Reached(run), |Reached(run).pcs|, Step(|Reached(run).pcs|, At(now));
    var l, id, counted := StartLocals(ClientData, code, ""), s.shared.table[code], s.(count := s.count + 1);
    var spawned := run + [Spawn(ClientData, code, "")];
    AfterLast(run, Spawn(ClientData, code, ""));
    assert Reached(spawned) == Joined(s, l, Gate);
    AfterLast(spawned, step);
    ClientSteps(Reached(spawned), t, At(now), id);
    LastMoves(s, l, Gate, l, Enter);
    AfterLast(spawned + [step], step);
    ClientSteps(Reached(spawned + [step]), t, At(now), id);
    LastMoves(counted, l, Enter, l, Client(FindRoom));
    assert Reached(spawned + [step] + [step]) == Joined(counted, l, Client(FindRoom));
    AfterLast(spawned + [step] + [step], step);
    ClientSteps(Reached(spawned + [step] + [step]), t, At(now), id);
    LastMoves(counted, l, Client(FindRoom), l.(room := Some(id)), Client(ReadHost));
    assert spawned + [step] + [step] + [step] == run + [Spawn(ClientData, code, ""), step, step, step];
  }

  /** A client arrives, files its request, and enters itself in its room. */
  lemma ClientEnters(run: seq<Action>, code: Code, now: int) returns (next: seq<Action>)
    requires code in Reached(run).shared.table
    requires Reached(run).shared.heap[Reached(run).shared.table[code]].host.Some?
    ensures var s, t := Reached(run), |Reached(run).pcs|;
            var step, id := Step(t, At(now)), s.shared.table[code];
            var name, room := RequestName(0, code), s.shared.heap[id];
            var l := StartLocals(ClientData, code, name).(room := Some(id), asked := true, listed := true);
            && next == run + [Spawn(ClientData, code, ""), step, step, step] + [step, step, step]
            && Reached(next) ==
               Joined(s.(count := s.count + 1,
                         shared := PutRoom(s.shared, id, ListClient(FileRequest(room, name, t), t))),
                      l, Client(Asking))
  {
    var s, t, step := Reached(run), |Reached(run).pcs|, Step(|Reached(run).pcs|, At(now));
    var found := run + [Spawn(ClientData, code, ""), step, step, step];
    ClientFinds(run, code, now);
    var id := s.shared.table[code];
    EntersFound(found, s.(count := s.count + 1), id, StartLocals(ClientData, code, "").(room := Some(id)), now);
    next := found + [step, step, step];
  }

  lemma EntrySteps(s: Sys, t: Conn, ch: Choice, id: RoomId)
    requires Valid(s) && t < |s.pcs| && s.locals[t].room == Some(id) && id < |s.shared.heap|
    ensures s.pcs[t] == Client(ReadHost) && s.shared.heap[id].host.Some? && ch.ok && ch.draw == 0 ==>
              Exec(s, t, ch) == Become(s, t, s.locals[t].(name := RequestName(0, s.locals[t].code)), Client(Filing))
    ensures s.pcs[t] == Client(Filing) ==>
              Exec(s, t, ch) == Become(WithRoom(s, id, FileRequest(s.shared.heap[id], s.locals[t].name, t)), t,
                                       s.locals[t].(asked := true), Client(Listing))
    ensures s.pcs[t] == Client(Listing) ==>
              Exec(s, t, ch) == Become(WithRoom(s, id, ListClient(s.shared.heap[id], t)), t,
                                       s.locals[t].(listed := true), Client(Asking))
  {
  }

  lemma FilesFound(run: seq<Action>, s: Sys, id: RoomId, l: Locals, now: int)
    requires |s.locals| == |s.pcs| && id < |s.shared.heap| && s.shared.heap[id].host.Some? && l.room == Some(id)
    requires Reached(run) == Joined(s, l, Client(ReadHost))
    ensures var t, step, name := |s.pcs|, Step(|s.pcs|, At(now)), RequestName(0, l.code);
            Reached(run + [step] + [step])
            == Joined(WithRoom(s, id, FileRequest(s.shared.heap[id], name, t)),
                      l.(name := name, asked := true), Client(Listing))
  {
    var t, step, l' := |s.pcs|, Step(|s.pcs|, At(now)), l.(name := RequestName(0, l.code));
    AfterLast(run, step);
    EntrySteps(Reached(run), t, At(now), id);
    LastMoves(s, l, Client(ReadHost), l', Client(Filing));
    assert Reached(run + [step]) == Joined(s, l', Client(Filing));
    AfterLast(run + [step], step);
    EntrySteps(Reached(run + [step]), t, At(now), id);
    LastMoves(WithRoom(s, id, FileRequest(s.shared.heap[id], l'.name, t)), l', Client(Filing),
              l'.(asked := true), Client(Listing));
  }

  lemma EntersFound(run: seq<Action>, s: Sys, id: RoomId, l: Locals, now: int)
    requires |s.locals| == |s.pcs| && id < |s.shared.heap| && s.shared.heap[id].host.Some? && l.room == Some(id)
    requires Reached(run) == Joined(s, l, Client(ReadHost))
    ensures var t, step, name := |s.pcs|, Step(|s.pcs|, At(now)), RequestName(0, l.code);
            Reached(run + [step, step, step])
            == Joined(s.(shared := PutRoom(s.shared, id, ListClient(FileRequest(s.shared.heap[id], name, t), t))),
                      l.(name := name, asked := true, listed := true), Client(Asking))
  {
    var t, step, l' := |s.pcs|, Step(|s.pcs|, At(now)), l.(name := RequestName(0, l.code), asked := true);
    var filed := FileRequest(s.shared.heap[id], l'.name, t);
    FilesFound(run, s, id, l, now);
    AfterLast(run + [step] + [step], step);
    EntrySteps(Reached(run + [step] + [step]), t, At(now), id);
    LastWriteWins(s.shared, id, filed, ListClient(filed, t));
    LastMoves(WithRoom(s, id, ListClient(filed, t)), l', Client(Listing), l'.(listed := true), Client(Asking));
    assert run + [step] + [step] + [step] == run + [step, step, step];
  }

  // ---- A token re-binds a code ----

  /** What the holder of a reuse token does: a host has to be evicted first. */
  function RebindingSteps(s: Sys, code: Code, now: int): seq<Action>
    requires Wired(s.shared)
  {
    var step := Step(|s.pcs|, At(now));
    [Spawn(ReuseCreator, code, ""), step] + if Evicted(s.shared, code).Some? then [step, step] else []
  }

  lemma TokenBinds(s: Sys, t: Conn, ch: Choice)
    requires Valid(s) && t < |s.pcs| && s.pcs[t] == Create(CheckToken) && ch.ok
    requires s.locals[t].code in s.shared.issued && s.locals[t].code != LUCKY_CODE
    requires Evicted(s.shared, s.locals[t].code).None?
    ensures Exec(s, t, ch) == Goto(s.(shared := Bind(s.shared, s.locals[t].code, ch.now)), t, DONE)
  {
  }

  lemma RebindsHostless(run: seq<Action>, code: Code, now: int)
    requires code in Reached(run).shared.issued && code != LUCKY_CODE && Evicted(Reached(run).shared, code).None?
    ensures Reached(run + RebindingSteps(Reached(run), code, now))
            == Joined(Reached(run).(shared := Bind(Reached(run).shared, code, now)),
                      StartLocals(ReuseCreator, code, ""), DONE)
  {
    var s, l, step := Reached(run), StartLocals(ReuseCreator, code, ""), Step(|Reached(run).pcs|, At(now));
    var spawned := run + [Spawn(ReuseCreator, code, "")];
    AfterLast(run, Spawn(ReuseCreator, code, ""));
    assert Reached(spawned) == Joined(s, l, Create(CheckToken));
    AfterLast(spawned, step);
    TokenBinds(Reached(spawned), |s.pcs|, At(now));
    LastMoves(s.(shared := Bind(s.shared, code, now)), l, Create(CheckToken), l, DONE);
    assert spawned + [step] == run + RebindingSteps(s, code, now);
  }

  lemma TokenEvicts(s: Sys, t: Conn, ch: Choice, h: Conn)
    requires Valid(s) && t < |s.pcs| && s.pcs[t] == Create(CheckToken) && ch.ok
    requires s.locals[t].code in s.shared.issued && s.locals[t].code != LUCKY_CODE
    requires Evicted(s.shared, s.locals[t].code) == Some(h)
    ensures Exec(s, t, ch) == Goto(s, t, Create(Evicting(h)))
  {
  }

  lemma EvictionSteps(s: Sys, t: Conn, ch: Choice)
    requires Valid(s) && t < |s.pcs| && s.pcs[t].Create?
    ensures s.pcs[t].create.Evicting? ==> Exec(s, t, ch) == Goto(Close(s, s.pcs[t].create.host), t, Create(Rebind))
    ensures s.pcs[t].create.Rebind? ==>
              Exec(s, t, ch) == Goto(s.(shared := Bind(s.shared, s.locals[t].code, ch.now)), t, DONE)
  {
  }

  /** Up to where the host is about to be evicted, and the lock has been let go. */
  lemma EvictionBegins(run: seq<Action>, code: Code, now: int, h: Conn)
    requires code in Reached(run).shared.issued && code != LUCKY_CODE && Evicted(Reached(run).shared, code) == Some(h)
    ensures Reached(run + [Spawn(ReuseCreator, code, ""), Step(|Reached(run).pcs|, At(now))])
            == Joined(Reached(run), StartLocals(ReuseCreator, code, ""), Create(Evicting(h)))
  {
    var s, l, step := Reached(run), StartLocals(ReuseCreator, code, ""), Step(|Reached(run).pcs|, At(now));
    var spawned := run + [Spawn(ReuseCreator, code, "")];
    AfterLast(run, Spawn(ReuseCreator, code, ""));
    assert Reached(spawned) == Joined(s, l, Create(CheckToken));
    AfterLast(spawned, step);
    TokenEvicts(Reached(spawned), |s.pcs|, At(now), h);
    LastMoves(s, l, Create(CheckToken), l, Create(Evicting(h)));
    assert spawned + [step] == run + [Spawn(ReuseCreator, code, ""), step];
  }

  lemma EvictionEnds(run: seq<Action>, s: Sys, l: Locals, h: Conn, now: int)
    requires |s.locals| == |s.pcs| && Reached(run) == Joined(s, l, Create(Evicting(h)))
    ensures Reached(run + [Step(|s.pcs|, At(now)), Step(|s.pcs|, At(now))])
            == Joined(s.(shared := Bind(s.shared, l.code, now), closed := s.closed + {h}), l, DONE)
  {
    var step, closed := Step(|s.pcs|, At(now)), s.(closed := s.closed + {h});
    AfterLast(run, step);
    EvictionSteps(Reached(run), |s.pcs|, At(now));
    LastMoves(closed, l, Create(Evicting(h)), l, Create(Rebind));
    assert Reached(run + [step]) == Joined(closed, l, Create(Rebind));
    AfterLast(run + [step], step);
    EvictionSteps(Reached(run + [step]), |s.pcs|, At(now));
    LastMoves(closed.(shared := Bind(s.shared, l.code, now)), l, Create(Rebind), l, DONE);
    assert run + [step] + [step] == run + [step, step];
  }

  /** The holder of a reuse token binds its code to a new Room object. */
  lemma Rebinds(run: seq<Action>, code: Code, now: int) returns (next: seq<Action>)
    requires code in Reached(run).shared.issued && code != LUCKY_CODE
    ensures next == run + RebindingSteps(Reached(run), code, now)
    ensures var s := Reached(run);
            var evicted := Evicted(s.shared, code);
            Reached(next) == Joined(s.(shared := Bind(s.shared, code, now),
                                       closed := s.closed + if evicted.Some? then {evicted.value} else {}),
                                    StartLocals(ReuseCreator, code, ""), DONE)
  {
    var s, l, step := Reached(run), StartLocals(ReuseCreator, code, ""), Step(|Reached(run).pcs|, At(now));
    next := run + RebindingSteps(s, code, now);
    match Evicted(s.shared, code)
    case None =>
      RebindsHostless(run, code, now);
      assert s.closed + {} == s.closed;
    case Some(h) =>
      EvictionBegins(run, code, now, h);
      var mid := run + [Spawn(ReuseCreator, code, ""), step];
      EvictionEnds(mid, s, l, h, now);
      assert mid + [step, step] == next;
  }

  // ---- A forwarded packet that finds no host ----

  const OFFER: Packet := [3, 7]

  /** The next step of a signal handler forwards this packet and unwinds, with HostMu held. */
  ghost predicate AboutToUnwind(s: Sys, t: Conn, packet: Packet)
    requires Inv(s)
  {
    && t < |s.pcs| && s.locals[t].role == ClientSignal
    && s.pcs[t].Serve? && s.pcs[t].serve.Acting? && s.pcs[t].serve.packet == packet && ForHost(packet)
    && s.shared.heap[s.pcs[t].serve.seen].host.None?
    && forall ch :: Exec(s, t, ch) == Goto(s.(lost := s.lost + {s.pcs[t].serve.seen}), t, Exit(Leave))
  }

  /**
   A handler of a client's signal connection that is serving can be made to unwind whenever a
   reuse token was issued for its room's code: the token re-binds the code to a Room object
   that has no host yet, and the next packet is forwarded there.
   */
  lemma ServingClientsCanMeetNoHost(run: seq<Action>, t: Conn, now: int) returns (next: seq<Action>)
    requires t < |Reached(run).pcs| && Reached(run).pcs[t] == Serve(Serving)
             && Reached(run).locals[t].role == ClientSignal
    requires Reached(run).locals[t].code in Reached(run).shared.issued && Reached(run).locals[t].code != LUCKY_CODE
    ensures next == run + RebindingSteps(Reached(run), Reached(run).locals[t].code, now)
                    + [Step(t, At(now).(packet := OFFER)), Step(t, At(now))]
    ensures AboutToUnwind(Reached(next), t, OFFER)
  {
    var bound := Rebinds(run, Reached(run).locals[t].code, now);
    assert |Reached(run).shared.heap| !in Reached(run).lost;
    next := PacketMeetsNoHost(bound, t, now);
  }

  lemma PacketMeetsNoHost(run: seq<Action>, t: Conn, now: int) returns (next: seq<Action>)
    requires t < |Reached(run).pcs| && Reached(run).pcs[t] == Serve(Serving)
             && Reached(run).locals[t].role == ClientSignal
    requires Lookup(Reached(run), Reached(run).locals[t].code).Some?
    requires Reached(run).shared.heap[Reached(run).shared.table[Reached(run).locals[t].code]].host.None?
    requires Reached(run).shared.table[Reached(run).locals[t].code] !in Reached(run).lost
    ensures next == run + [Step(t, At(now).(packet := OFFER)), Step(t, At(now))]
    ensures AboutToUnwind(Reached(next), t, OFFER)
  {
    var offered := Step(t, At(now).(packet := OFFER));
    AfterLast(run, offered);
    assert Reached(run + [offered]).pcs[t] == Serve(Received(OFFER));
    AfterLast(run + [offered], Step(t, At(now)));
    next := run + [offered] + [Step(t, At(now))];
  }

  /**
   From a relay that has just started: a room is opened, a host and a client's signal connection
   join, and a token re-binds the code.
   */
  lemma NoHostIsMet() returns (run: seq<Action>, t: Conn)
    ensures AboutToUnwind(Reached(run), t, OFFER)
  {
    run := Opens([], "000000", 0);
    run := HostJoins(run, "000000", 0);
    t := |Reached(run).pcs|;
    run := ClientSignalArrives(run, "000000", 0);
    run := ServingClientsCanMeetNoHost(run, t, 0);
  }
}
