/**
 The two room cleaners across their lock gaps. The ghost cleaner looks again before it
 deletes; the idle cleaner does not, so whether it deletes a room in use depends on what
 happened between its scan and its deletion, and on nothing else.
 */
module Cleaners {
  import opened Options
  import opened Decimal
  import opened Store
  import opened Protocol
  import opened Invariant
  import opened Rooms
  import opened Scenarios

  // ---- Ghost rooms ----

  /** However old the scan, a ghost pruning removes no room that has a host when it runs. */
  lemma GhostPruningSparesHosts(s: Sys, t: Conn, ch: Choice, code: Code)
    requires Inv(s) && t < |s.pcs| && s.pcs[t].Clean? && s.pcs[t].clean.GhostPrune?
    requires code in s.shared.table
    ensures code !in Exec(s, t, ch).shared.table
            <==> code in s.pcs[t].clean.stale && s.shared.heap[s.shared.table[code]].host.None?
  {
    var id := s.shared.table[code];
    assert SeatOk(s.shared.heap[id], s.locals, id);
  }

  // ---- Idle rooms: what happens to one Room object ----

  /** A step that a room in use shows: a host joins it, a client enters itself in it, or a data connection fills it. */
  predicate UsesRoom(s: Sys, t: Conn, r: RoomId)
    requires t < |s.pcs| && |s.pcs| == |s.locals| && Wired(s.shared)
  {
    match s.pcs[t]
    case Signal(Join) => Lookup(s, s.locals[t].code) == Some(r) && s.shared.heap[r].host.None?
    case Client(Listing) => s.locals[t].room == Some(r)
    case Data(Touching) => s.locals[t].room == Some(r)
    case _ => false
  }

  predicate SameUse(room: RoomState, room': RoomState) {
    room'.host == room.host && room'.lastFilled == room.lastFilled && (room'.c2h == map[] <==> room.c2h == map[])
  }

  /** In use at the given time or later, by what the idle cleaner looks at. */
  predicate InUseSince(room: RoomState, now: int) {
    room.lastFilled >= now || room.c2h != map[]
  }

  lemma PairingStepUse(s: Sys, t: Conn, ch: Choice, r: RoomId)
    requires Valid(s) && t < |s.pcs| && r < |s.shared.heap| && (s.pcs[t].Client? || s.pcs[t].Data?)
    ensures !UsesRoom(s, t, r) ==> SameUse(s.shared.heap[r], Exec(s, t, ch).shared.heap[r])
    ensures UsesRoom(s, t, r) ==> InUseSince(Exec(s, t, ch).shared.heap[r], ch.now)
    ensures forall now :: now <= ch.now && InUseSince(s.shared.heap[r], now) ==>
            InUseSince(Exec(s, t, ch).shared.heap[r], now)
  {
    assert PcWired(s.locals[t], s.pcs[t], |s.shared.heap|);
    if s.pcs[t] == Client(Listing) && s.locals[t].room == Some(r) {
      assert t in Exec(s, t, ch).shared.heap[r].c2h;
    }
  }

  lemma OtherStepUse(s: Sys, t: Conn, ch: Choice, r: RoomId)
    requires Valid(s) && t < |s.pcs| && r < |s.shared.heap| && !s.pcs[t].Client? && !s.pcs[t].Data?
    ensures !UsesRoom(s, t, r) ==> SameUse(s.shared.heap[r], Exec(s, t, ch).shared.heap[r])
    ensures UsesRoom(s, t, r) ==> InUseSince(Exec(s, t, ch).shared.heap[r], ch.now)
    ensures forall now :: now <= ch.now && InUseSince(s.shared.heap[r], now) ==>
            InUseSince(Exec(s, t, ch).shared.heap[r], now)
  {
    assert PcWired(s.locals[t], s.pcs[t], |s.shared.heap|);
  }

  /** Only those three steps change whether a Room object looks idle, and no step makes a used one look idle again. */
  lemma StepUse(s: Sys, t: Conn, ch: Choice, r: RoomId)
    requires Valid(s) && t < |s.pcs| && r < |s.shared.heap|
    ensures r < |Exec(s, t, ch).shared.heap|
    ensures !UsesRoom(s, t, r) ==> SameUse(s.shared.heap[r], Exec(s, t, ch).shared.heap[r])
    ensures UsesRoom(s, t, r) ==> InUseSince(Exec(s, t, ch).shared.heap[r], ch.now)
    ensures forall now :: now <= ch.now && InUseSince(s.shared.heap[r], now) ==>
            InUseSince(Exec(s, t, ch).shared.heap[r], now)
  {
    if s.pcs[t].Client? || s.pcs[t].Data? {
      PairingStepUse(s, t, ch, r);
    } else {
      OtherStepUse(s, t, ch, r);
    }
  }

  // ---- Idle rooms: what happens to a code between the scan and the deletion ----

  /** An action hits a code when its room is used, or when the code is bound to another room. */
  ghost predicate Hits(s: Sys, a: Action, code: Code)
    requires Inv(s)
  {
    a.Step? && a.t < |s.pcs| &&
    (if code in s.shared.table && code in Exec(s, a.t, a.ch).shared.table
        && Exec(s, a.t, a.ch).shared.table[code] == s.shared.table[code]
     then UsesRoom(s, a.t, s.shared.table[code])
     else code in Exec(s, a.t, a.ch).shared.table)
  }

  ghost predicate HitAlong(s: Sys, run: seq<Action>, code: Code)
    requires Inv(s)
  {
    run != [] && (HitAlong(s, run[..|run| - 1], code) || Hits(After(s, run[..|run| - 1]), run[|run| - 1], code))
  }

  /** No clock of the run reads less than now, and the cleaner t does not move in it. */
  predicate Meanwhile(run: seq<Action>, t: Conn, now: int) {
    forall i :: 0 <= i < |run| && run[i].Step? ==> run[i].t != t && run[i].ch.now >= now
  }

  /** What the idle cleaner's verdict on a code is worth: as good as at the scan, unless the code was hit. */
  ghost predicate Standing(s: Sys, s': Sys, code: Code, hit: bool, now: int)
    requires Inv(s) && Inv(s') && code in s.shared.table
  {
    code in s'.shared.table ==>
      if hit then InUseSince(s'.shared.heap[s'.shared.table[code]], now)
      else s'.shared.table[code] == s.shared.table[code]
           && SameUse(s.shared.heap[s.shared.table[code]], s'.shared.heap[s'.shared.table[code]])
  }

  lemma ActionKeepsStanding(s: Sys, s': Sys, a: Action, code: Code, hit: bool, now: int)
    requires Inv(s) && Inv(s') && Inv(Do(s', a)) && code in s.shared.table
    requires a.Step? ==> a.ch.now >= now
    requires Standing(s, s', code, hit, now)
    ensures Standing(s, Do(s', a), code, hit || Hits(s', a, code), now)
  {
    if a.Step? && a.t < |s'.pcs| && code in Exec(s', a.t, a.ch).shared.table {
      var s'' := Exec(s', a.t, a.ch);
      if code in s'.shared.table && s''.shared.table[code] == s'.shared.table[code] {
        StepUse(s', a.t, a.ch, s'.shared.table[code]);
      } else {
        NewBindingsAreFresh(s', a.t, a.ch, code);
      }
    }
  }

  lemma {:induction false} RunKeepsStanding(s: Sys, run: seq<Action>, code: Code, now: int)
    requires Inv(s) && code in s.shared.table
    requires forall i :: 0 <= i < |run| && run[i].Step? ==> run[i].ch.now >= now
    ensures Standing(s, After(s, run), code, HitAlong(s, run, code), now)
  {
    if run != [] {
      var init, last := run[..|run| - 1], run[|run| - 1];
      RunKeepsStanding(s, init, code, now);
      var before, hit := After(s, init), HitAlong(s, init, code);
      assert After(s, run) == Do(before, last);
      ActionKeepsStanding(s, before, last, code, hit, now);
    }
  }

  lemma {:induction false} OthersLeaveThreadAlone(s: Sys, run: seq<Action>, t: Conn, now: int)
    requires Inv(s) && Meanwhile(run, t, now) && t < |s.pcs|
    ensures t < |After(s, run).pcs| && After(s, run).pcs[t] == s.pcs[t]
  {
    if run != [] {
      OthersLeaveThreadAlone(s, run[..|run| - 1], t, now);
    }
  }

  /** What a standing verdict says later on. */
  lemma StandingDecides(s: Sys, s': Sys, code: Code, hit: bool, scanned: int)
    requires Inv(s) && Inv(s') && code in IdleRooms(s.shared, scanned) && code in s'.shared.table
    requires Standing(s, s', code, hit, scanned)
    ensures hit ==> forall now :: now <= scanned + ROOM_IDLE_NO_CLIENT_DELAY ==> code !in IdleRooms(s'.shared, now)
    ensures !hit ==> s'.shared.table[code] == s.shared.table[code]
                     && s'.shared.heap[s'.shared.table[code]].host == s.shared.heap[s.shared.table[code]].host
                     && forall now :: now >= scanned ==> code in IdleRooms(s'.shared, now)
  {
  }

  lemma DeletionDeletes(s: Sys, t: Conn, ch: Choice)
    requires Valid(s) && t < |s.pcs| && s.pcs[t].Clean? && s.pcs[t].clean.IdleDelete?
    ensures Exec(s, t, ch) == Goto(s.(shared := Unbind(s.shared, s.pcs[t].clean.codes)), t,
            Clean(IdleClose(s.pcs[t].clean.hosts)))
  {
  }

  /**
   The idle cleaner, exactly. Take any run in which it scans and lists a code, and any
   continuation up to its deletion, at the end of which the code is still bound. If the code
   was hit in between, that is, if a host joined the room, a client entered itself in it, a
   data connection filled it, or the code was bound to another room, then its room is not
   idle, at least until the idle delay has passed again. If not, it is the room of the scan,
   still idle, and its host, if it has one, is on the cleaner's closing list.
   */
  lemma IdleDeletionIsRightUnlessHit(run: seq<Action>, t: Conn, ch: Choice, more: seq<Action>, code: Code)
    requires t < |Reached(run).pcs| && Reached(run).pcs[t] == Clean(IdleScan)
    requires code in IdleRooms(Reached(run).shared, ch.now)
    requires Meanwhile(more, t, ch.now)
    ensures var s, s1, s2 := Reached(run), Reached(run + [Step(t, ch)]), Reached(run + [Step(t, ch)] + more);
            && t < |s2.pcs| && s2.pcs[t].Clean? && s2.pcs[t].clean.IdleDelete? && code in s2.pcs[t].clean.codes
            && (forall ch' :: code !in Exec(s2, t, ch').shared.table)
            && (code in s2.shared.table ==>
                  if HitAlong(s1, more, code)
                  then forall now :: now <= ch.now + ROOM_IDLE_NO_CLIENT_DELAY ==> code !in IdleRooms(s2.shared, now)
                  else
                    && (forall now :: now >= ch.now ==> code in IdleRooms(s2.shared, now))
                    && s2.shared.table[code] == s.shared.table[code]
                    && var host := s2.shared.heap[s2.shared.table[code]].host;
                       host.Some? ==> host.value in s2.pcs[t].clean.hosts)
  {
    InitSatisfiesInv();
    var s1, s2 := Reached(run + [Step(t, ch)]), Reached(run + [Step(t, ch)] + more);
    AfterLast(run, Step(t, ch));
    ScanLists(Reached(run), t, ch);
    RunsCompose(INIT, run + [Step(t, ch)], more);
    RunKeepsStanding(s1, more, code, ch.now);
    OthersLeaveThreadAlone(s1, more, t, ch.now);
    if code in s2.shared.table {
      StandingDecides(s1, s2, code, HitAlong(s1, more, code), ch.now);
    }
    forall ch' ensures code !in Exec(s2, t, ch').shared.table {
      DeletionDeletes(s2, t, ch');
    }
  }

  /** So the deletion unbinds no hosted room, and no room in use, exactly when no listed code is bound to one. */
  lemma IdleDeletionSparesExactly(s: Sys, t: Conn, ch: Choice, now: int)
    requires Inv(s) && t < |s.pcs| && s.pcs[t].Clean? && s.pcs[t].clean.IdleDelete?
    ensures var table, codes, left := s.shared.table, s.pcs[t].clean.codes, Exec(s, t, ch).shared.table;
            && ((forall code :: code in table && s.shared.heap[table[code]].host.Some? ==> code in left)
                <==> (forall code :: code in codes && code in table ==> s.shared.heap[table[code]].host.None?))
            && ((forall code :: code in table && code !in IdleRooms(s.shared, now) ==> code in left)
                <==> (forall code :: code in codes && code in table ==> code in IdleRooms(s.shared, now)))
  {
    DeletionDeletes(s, t, ch);
  }

  // ---- Two rooms in use that go ----

  const SCAN_TIME := ROOM_IDLE_NO_CLIENT_DELAY + 1
  const PRUNE_TIME := ROOM_EMPTY_CLEANUP_DELAY + 1

  /** A re-binding sleeps for 50 milliseconds after an eviction and for five seconds before the new room is made. */
  const REBOUND_TIME := SCAN_TIME + 50 + 5_000

  /** The clocks that the steps of a run read never run backwards, and none reads more than now. */
  predicate ClocksRise(run: seq<Action>, now: int) {
    && (forall i, j :: 0 <= i < j < |run| && run[i].Step? && run[j].Step? ==> run[i].ch.now <= run[j].ch.now)
    && (forall i :: 0 <= i < |run| && run[i].Step? ==> run[i].ch.now <= now)
  }

  /** The ghost cleaner scanned, and pruned, when the room was a minute old. */
  predicate GhostCleanerCameBy(run: seq<Action>) {
    && |run| >= 10 && run[7] == Spawn(GhostCleaner, "", "")
    && run[8] == Step(2, At(PRUNE_TIME)) && run[9] == Step(2, At(PRUNE_TIME))
  }

  lemma ClocksRiseOn(run: seq<Action>, next: seq<Action>, before: int, now: int)
    requires ClocksRise(run, before) && before <= now && run <= next
    requires forall i :: |run| <= i < |next| && next[i].Step? ==> next[i].ch.now == now
    ensures ClocksRise(next, now)
    ensures GhostCleanerCameBy(run) ==> GhostCleanerCameBy(next)
  {
    assert forall i :: 0 <= i < |run| ==> next[i] == run[i];
  }

  // The same, for the continuations used here.

  lemma LastClock(run: seq<Action>, t: Conn, now: int)
    requires ClocksRise(run, now) && GhostCleanerCameBy(run)
    ensures ClocksRise(run + [Step(t, At(now))], now) && GhostCleanerCameBy(run + [Step(t, At(now))])
  {
    ClocksRiseOn(run, run + [Step(t, At(now))], now, now);
  }

  lemma ClientClocks(run: seq<Action>, t: Conn, now: int)
    requires ClocksRise(run, now) && GhostCleanerCameBy(run)
    ensures var step := Step(t, At(now));
            var next := run + [Spawn(ClientData, "000000", ""), step, step, step] + [step, step, step];
            ClocksRise(next, now) && GhostCleanerCameBy(next)
  {
    var step := Step(t, At(now));
    ClocksRiseOn(run, run + [Spawn(ClientData, "000000", ""), step, step, step] + [step, step, step], now, now);
  }

  lemma EvictionClocks(run: seq<Action>, s: Sys, before: int, now: int)
    requires ClocksRise(run, before) && before <= now && GhostCleanerCameBy(run) && Wired(s.shared)
    ensures ClocksRise(run + RebindingSteps(s, "000000", now), now)
    ensures GhostCleanerCameBy(run + RebindingSteps(s, "000000", now))
  {
    ClocksRiseOn(run, run + RebindingSteps(s, "000000", now), before, now);
  }

  lemma LeavingClocks(run: seq<Action>, t: Conn, now: int)
    requires ClocksRise(run, now) && GhostCleanerCameBy(run)
    ensures var next := run + [Step(t, At(now).(ok := false)), Step(t, At(now)), Step(t, At(now))];
            ClocksRise(next, now) && GhostCleanerCameBy(next)
  {
    ClocksRiseOn(run, run + [Step(t, At(now).(ok := false)), Step(t, At(now)), Step(t, At(now))], now, now);
  }

  /** One room, hosted by connection 1, which serves. */
  predicate Hosted(s: Sys) {
    && s.shared.table == map["000000" := 0] && s.shared.heap == [Seat(EmptyRoom(0), 1, 0)]
    && s.shared.issued == {"000000"} && s.closed == {} && s.lost == {}
    && |s.pcs| == |s.locals| >= 2 && s.pcs[1] == Serve(Serving)
    && s.locals[1] == StartLocals(HostSignal, "000000", "").(room := Some(0))
  }

  lemma OneRoomOpens() returns (run: seq<Action>)
    ensures ClocksRise(run, 0)
    ensures var s := Reached(run);
            && s.shared.table == map["000000" := 0] && s.shared.heap == [EmptyRoom(0)]
            && s.shared.issued == {"000000"} && s.closed == {} && s.lost == {}
            && |s.pcs| == |s.locals| == 1 && |run| == 2
  {
    assert Reached([]) == INIT;
    run := Opens([], "000000", 0);
    ClocksRiseOn([], run, 0, 0);
  }

  /** A host opens a room and serves. */
  lemma HostedRoom() returns (run: seq<Action>)
    ensures ClocksRise(run, 0)
    ensures |run| == 7 && Hosted(Reached(run)) && |Reached(run).pcs| == 2
  {
    var start := OneRoomOpens();
    var joined := HostJoins(start, "000000", 0);
    run := HostServes(joined, 1, 0);
    ClocksRiseOn(start, run, 0, 0);
  }

  /** The idle cleaner, thread 3, has listed the room and its host; the ghost cleaner, thread 2, has come by. */
  predicate Listed(s: Sys) {
    Hosted(s) && |s.pcs| == 4 && s.pcs[3] == Clean(IdleDelete({"000000"}, {1})) && GhostCleanerRuns(s)
  }

  /** Thread 2 is a ghost cleaner between two rounds. */
  predicate GhostCleanerRuns(s: Sys) {
    |s.pcs| == |s.locals| > 2 && s.locals[2].role == GhostCleaner && s.pcs[2] == Clean(GhostScan)
  }

  /**
   Both cleaners are at work: the ghost cleaner comes by and spares the room, since it has a
   host, and a quarter of an hour later the idle cleaner lists it.
   */
  lemma HostedRoomIsListed() returns (run: seq<Action>)
    ensures ClocksRise(run, SCAN_TIME) && GhostCleanerCameBy(run) && Listed(Reached(run))
  {
    var hosted := HostedRoom();
    HostedRoomLooksIdle(Reached(hosted).shared);
    var spared := GhostCleanerFindsNothing(hosted, PRUNE_TIME);
    ClocksRiseOn(hosted, spared, 0, PRUNE_TIME);
    run := IdleCleanerScans(spared, SCAN_TIME);
    ClocksRiseOn(spared, run, PRUNE_TIME, SCAN_TIME);
  }

  lemma HostedRoomLooksIdle(shared: Shared)
    requires shared.table == map["000000" := 0] && shared.heap == [Seat(EmptyRoom(0), 1, 0)]
    ensures GhostRooms(shared, PRUNE_TIME) == {}
    ensures IdleRooms(shared, SCAN_TIME) == {"000000"} && HostsOf(shared, {"000000"}) == {1}
  {
    assert shared.heap[shared.table["000000"]].host == Some(1);
  }

  /** A client has entered the hosted room since the scan. */
  predicate Entered(s: Sys) {
    && s.shared.table == map["000000" := 0] && |s.shared.heap| == 1 && s.shared.heap[0].host == Some(1)
    && s.shared.heap[0].c2h == map[4 := None] && |s.pcs| == 5 && s.pcs[1] == Serve(Serving)
    && s.pcs[3] == Clean(IdleDelete({"000000"}, {1})) && GhostCleanerRuns(s)
  }

  lemma EnteredIsInUse(s: Sys, now: int)
    requires Wired(s.shared) && Entered(s)
    ensures "000000" !in IdleRooms(s.shared, now)
  {
    assert 4 in s.shared.heap[0].c2h;
  }

  lemma EnteringEnters(s: Sys, s': Sys, name: string, l: Locals, pc: Pc)
    requires Listed(s) && s'.locals == s.locals + [l] && s'.pcs == s.pcs + [pc]
    requires s'.shared == PutRoom(s.shared, 0, ListClient(FileRequest(s.shared.heap[0], name, 4), 4))
    ensures Entered(s')
  {
  }

  lemma EnteredRoom() returns (run: seq<Action>)
    ensures ClocksRise(run, SCAN_TIME) && GhostCleanerCameBy(run) && Entered(Reached(run))
  {
    var listed := HostedRoomIsListed();
    run := ClientEnters(listed, "000000", SCAN_TIME);
    EnteringEnters(Reached(listed), Reached(run), RequestName(0, "000000"), Reached(run).locals[4], Client(Asking));
    ClientClocks(listed, |Reached(listed).pcs|, SCAN_TIME);
  }

  lemma DeletionEmpties(s: Sys, s': Sys)
    requires Entered(s) && s' == Goto(s.(shared := Unbind(s.shared, {"000000"})), 3, Clean(IdleClose({1})))
    ensures s'.shared.table == map[] && s'.pcs[3] == Clean(IdleClose({1}))
  {
  }

  /**
   The idle cleaner deletes a room in use, with both cleaners at work: a client has entered
   the hosted room since the scan, so that it is not idle at any time.
   */
  lemma IdleCleanerDeletesEnteredRoom() returns (run: seq<Action>)
    ensures ClocksRise(run + [Step(3, At(SCAN_TIME))], SCAN_TIME) && GhostCleanerCameBy(run)
    ensures Entered(Reached(run)) && forall now :: "000000" !in IdleRooms(Reached(run).shared, now)
    ensures var s' := Reached(run + [Step(3, At(SCAN_TIME))]);
            s'.shared.table == map[] && s'.pcs[3] == Clean(IdleClose({1}))
  {
    run := EnteredRoom();
    var last := Step(3, At(SCAN_TIME));
    AfterLast(run, last);
    DeletionDeletes(Reached(run), 3, At(SCAN_TIME));
    DeletionEmpties(Reached(run), Reached(run + [last]));
    LastClock(run, 3, SCAN_TIME);
    forall now ensures "000000" !in IdleRooms(Reached(run).shared, now) {
      EnteredIsInUse(Reached(run), now);
    }
  }

  /** The next host, connection 5, serves in a room of its own, and the idle cleaner has not deleted yet. */
  predicate NextHosted(s: Sys) {
    && s.shared.table == map["000000" := 1] && |s.shared.heap| == 2
    && s.shared.heap[1] == Seat(EmptyRoom(REBOUND_TIME), 5, REBOUND_TIME) && s.closed == {1}
    && |s.pcs| == |s.locals| == 6 && s.pcs[3] == Clean(IdleDelete({"000000"}, {1})) && s.pcs[5] == Serve(Serving)
    && s.locals[5].role == HostSignal && s.locals[5].code == "000000"
    && GhostCleanerRuns(s)
  }

  /** The first host, connection 1, has been evicted, and the code is bound to a new room. */
  predicate Rebound(s: Sys) {
    && s.shared.table == map["000000" := 1] && |s.shared.heap| == 2 && s.shared.heap[1] == EmptyRoom(REBOUND_TIME)
    && s.closed == {1} && |s.pcs| == |s.locals| == 5 && GhostCleanerRuns(s)
    && s.pcs[3] == Clean(IdleDelete({"000000"}, {1}))
  }

  lemma EvictionRebinds(s: Sys, s': Sys, l: Locals)
    requires Listed(s)
    requires s' == Joined(s.(shared := Bind(s.shared, "000000", REBOUND_TIME), closed := s.closed + {1}), l, DONE)
    ensures Rebound(s')
  {
  }

  lemma NextHostJoins(s: Sys, s': Sys, l: Locals)
    requires Rebound(s) && l == StartLocals(HostSignal, "000000", "").(room := Some(1))
    requires s'.shared == PutRoom(s.shared, 1, Seat(s.shared.heap[1], 5, REBOUND_TIME)) && s'.closed == s.closed
    requires s'.locals == s.locals + [l] && s'.pcs == s.pcs + [Serve(Serving)]
    ensures NextHosted(s')
  {
  }

  /** Between the scan and the deletion a token evicts the host and re-binds the code. */
  lemma HostIsEvicted() returns (run: seq<Action>)
    ensures ClocksRise(run, REBOUND_TIME) && GhostCleanerCameBy(run) && Rebound(Reached(run))
  {
    var listed := HostedRoomIsListed();
    run := Rebinds(listed, "000000", REBOUND_TIME);
    EvictionRebinds(Reached(listed), Reached(run), StartLocals(ReuseCreator, "000000", ""));
    EvictionClocks(listed, Reached(listed), SCAN_TIME, REBOUND_TIME);
  }

  /** Then the next host joins and serves. */
  lemma NextHostServes() returns (run: seq<Action>)
    ensures ClocksRise(run, REBOUND_TIME) && GhostCleanerCameBy(run) && NextHosted(Reached(run))
  {
    var bound := HostIsEvicted();
    var joined := HostJoins(bound, "000000", REBOUND_TIME);
    run := HostServes(joined, 5, REBOUND_TIME);
    NextHostJoins(Reached(bound), Reached(run), Reached(run).locals[5]);
    ClocksRiseOn(bound, run, REBOUND_TIME, REBOUND_TIME);
  }

  /**
   The idle cleaner deletes the room of the next host, which is not idle and whose host is not
   on the closing list.
   */
  lemma IdleCleanerDeletesNextRoom() returns (run: seq<Action>)
    ensures ClocksRise(run + [Step(3, At(REBOUND_TIME))], REBOUND_TIME) && GhostCleanerCameBy(run)
    ensures NextHosted(Reached(run)) && "000000" !in IdleRooms(Reached(run).shared, REBOUND_TIME)
    ensures Reached(run + [Step(3, At(REBOUND_TIME))])
            == Goto(Reached(run).(shared := Unbind(Reached(run).shared, {"000000"})), 3, Clean(IdleClose({1})))
  {
    run := NextHostServes();
    var last := Step(3, At(REBOUND_TIME));
    AfterLast(run, last);
    DeletionDeletes(Reached(run), 3, At(REBOUND_TIME));
    LastClock(run, 3, REBOUND_TIME);
  }

  lemma NobodyClosesNextHost(s: Sys, s1: Sys, s2: Sys)
    requires NextHosted(s) && s1 == Goto(s.(shared := Unbind(s.shared, {"000000"})), 3, Clean(IdleClose({1})))
    requires s2 == Goto(s1.(count := s1.count - 1), 5, DONE)
    ensures |s2.pcs| == |s2.locals| == 6 && s2.locals[5].role == HostSignal && s2.pcs[5] == DONE && 5 !in s2.closed
    ensures s2.pcs[3] == Clean(IdleClose({1})) && GhostCleanerRuns(s2)
  {
  }

  /**
   A cleanup whose room is gone can leave its connection open: when that host's connection
   breaks off, its cleanup finds no room, and it is on no list.
   */
  lemma CleanupLeavesHostOpen() returns (run: seq<Action>)
    ensures ClocksRise(run, REBOUND_TIME) && GhostCleanerCameBy(run)
    ensures var s := Reached(run);
            && |s.pcs| == |s.locals| == 6 && s.locals[5].role == HostSignal && s.pcs[5] == DONE && 5 !in s.closed
            && s.pcs[3] == Clean(IdleClose({1})) && GhostCleanerRuns(s)
  {
    var served := IdleCleanerDeletesNextRoom();
    var deleted := served + [Step(3, At(REBOUND_TIME))];
    run := LeavesNothing(deleted, 5, REBOUND_TIME);
    NobodyClosesNextHost(Reached(served), Reached(deleted), Reached(run));
    LeavingClocks(deleted, 5, REBOUND_TIME);
  }
}
