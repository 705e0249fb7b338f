/**
 What the cleaners' scans list, by the run itself: by the clocks that were read when a room was
 made, joined and filled, and by who entered it. The timestamps in the Room objects are those
 clocks.
 */
module Clocks {
  import opened Options
  import opened Store
  import opened Protocol
  import opened Invariant
  import opened Pairing
  import opened Rooms
  import opened Cleaners

  // ---- The history of a Room object ----

  /** The action makes Room object r. */
  predicate Makes(s: Sys, a: Action, r: RoomId)
    requires Valid(s)
  {
    a.Step? && a.t < |s.pcs| && |s.shared.heap| <= r < |Exec(s, a.t, a.ch).shared.heap|
  }

  /** A host joins Room object r, or a data connection fills it. */
  predicate Fills(s: Sys, a: Action, r: RoomId)
    requires Valid(s)
  {
    a.Step? && a.t < |s.pcs|
    && match s.pcs[a.t]
       case Signal(Join) => Lookup(s, s.locals[a.t].code) == Some(r) && s.shared.heap[r].host.None?
       case Data(Touching) => s.locals[a.t].room == Some(r)
       case _ => false
  }

  /** A client enters itself in Room object r. */
  predicate Enters(s: Sys, a: Action, r: RoomId)
    requires Valid(s)
  {
    a.Step? && a.t < |s.pcs| && s.pcs[a.t] == Client(Listing) && s.locals[a.t].room == Some(r)
  }

  /** The clock of the step that made Room object r. */
  ghost function CreatedAt(run: seq<Action>, r: RoomId): int {
    if run == [] then 0
    else
      var last := run[|run| - 1];
      if Makes(Reached(run[..|run| - 1]), last, r) then last.ch.now else CreatedAt(run[..|run| - 1], r)
  }

  /** The clock of the latest step that made, joined or filled Room object r. */
  ghost function FilledAt(run: seq<Action>, r: RoomId): int {
    if run == [] then 0
    else
      var before, last := Reached(run[..|run| - 1]), run[|run| - 1];
      if Makes(before, last, r) || Fills(before, last, r) then last.ch.now else FilledAt(run[..|run| - 1], r)
  }

  ghost predicate EverEntered(run: seq<Action>, r: RoomId) {
    run != [] &&
    (EverEntered(run[..|run| - 1], r) || Enters(Reached(run[..|run| - 1]), run[|run| - 1], r))
  }

  // ---- The timestamps are the clocks ----

  lemma PairingKeepsClocks(s: Sys, t: Conn, ch: Choice, r: RoomId)
    requires Valid(s) && t < |s.pcs| && r < |s.shared.heap| && (s.pcs[t].Client? || s.pcs[t].Data?)
    ensures var room, room' := s.shared.heap[r], Exec(s, t, ch).shared.heap[r];
            && room'.created == room.created
            && room'.lastFilled == (if Fills(s, Step(t, ch), r) then ch.now else room.lastFilled)
            && (room'.c2h != map[] <==> room.c2h != map[] || Enters(s, Step(t, ch), r))
  {
    assert PcWired(s.locals[t], s.pcs[t], |s.shared.heap|);
    if Enters(s, Step(t, ch), r) {
      assert t in Exec(s, t, ch).shared.heap[r].c2h;
    }
  }

  lemma OthersKeepClocks(s: Sys, t: Conn, ch: Choice, r: RoomId)
    requires Valid(s) && t < |s.pcs| && r < |s.shared.heap| && !s.pcs[t].Client? && !s.pcs[t].Data?
    ensures var room, room' := s.shared.heap[r], Exec(s, t, ch).shared.heap[r];
            && room'.created == room.created
            && room'.lastFilled == (if Fills(s, Step(t, ch), r) then ch.now else room.lastFilled)
            && room'.c2h == room.c2h
  {
    assert PcWired(s.locals[t], s.pcs[t], |s.shared.heap|);
  }

  /** A room is made with both timestamps at the step's clock, and nobody in it. */
  lemma NewRoomsAreStamped(s: Sys, t: Conn, ch: Choice, r: RoomId)
    requires Valid(s) && t < |s.pcs| && Makes(s, Step(t, ch), r)
    ensures var room := Exec(s, t, ch).shared.heap[r];
            room.created == ch.now && room.lastFilled == ch.now && room.c2h == map[]
  {
  }

  ghost predicate Stamped(s: Sys, run: seq<Action>, r: RoomId)
    requires r < |s.shared.heap|
  {
    var room := s.shared.heap[r];
    && room.created == CreatedAt(run, r)
    && room.lastFilled == FilledAt(run, r)
    && (room.c2h != map[] <==> EverEntered(run, r))
  }

  lemma RoomsEnteredExist(s: Sys, a: Action)
    requires Valid(s)
    ensures forall r: RoomId :: Enters(s, a, r) ==> r < |s.shared.heap|
  {
    if a.Step? && a.t < |s.pcs| {
      assert PcWired(s.locals[a.t], s.pcs[a.t], |s.shared.heap|);
    }
  }

  lemma {:induction false} NobodyEntersBefore(run: seq<Action>, r: RoomId)
    requires |Reached(run).shared.heap| <= r
    ensures !EverEntered(run, r)
  {
    InitSatisfiesInv();
    if run != [] {
      var before := Reached(run[..|run| - 1]);
      ActionGrows(before, run[|run| - 1]);
      NobodyEntersBefore(run[..|run| - 1], r);
      RoomsEnteredExist(before, run[|run| - 1]);
    }
  }

  /** In every run the timestamps of a Room object are the clocks read when it was made, and last joined or filled. */
  lemma {:induction false} TimestampsAreClocks(run: seq<Action>, r: RoomId)
    requires r < |Reached(run).shared.heap|
    ensures Stamped(Reached(run), run, r)
  {
    InitSatisfiesInv();
    var before, last := Reached(run[..|run| - 1]), run[|run| - 1];
    if r < |before.shared.heap| {
      TimestampsAreClocks(run[..|run| - 1], r);
      if last.Step? && last.t < |before.pcs| {
        if before.pcs[last.t].Client? || before.pcs[last.t].Data? {
          PairingKeepsClocks(before, last.t, last.ch, r);
        } else {
          OthersKeepClocks(before, last.t, last.ch, r);
        }
      }
    } else {
      NobodyEntersBefore(run[..|run| - 1], r);
      NewRoomsAreStamped(before, last.t, last.ch, r);
    }
  }

  // ---- What the scans list ----

  lemma GhostScanStep(s: Sys, t: Conn, ch: Choice, code: Code)
    requires Valid(s) && t < |s.pcs| && s.pcs[t] == Clean(GhostScan)
    ensures var pc := Exec(s, t, ch).pcs[t];
            && pc.Clean? && pc.clean.GhostPrune?
            && (code in pc.clean.stale <==>
                  code in s.shared.table && !s.shared.heap[s.shared.table[code]].hasHost
                  && s.shared.heap[s.shared.table[code]].created < ch.now - 60_000)
  {
  }

  lemma IdleScanStep(s: Sys, t: Conn, ch: Choice, code: Code)
    requires Valid(s) && t < |s.pcs| && s.pcs[t] == Clean(IdleScan)
    ensures var pc := Exec(s, t, ch).pcs[t];
            && pc.Clean? && pc.clean.IdleDelete?
            && (code in pc.clean.codes <==>
                  code in s.shared.table && s.shared.heap[s.shared.table[code]].c2h == map[]
                  && s.shared.heap[s.shared.table[code]].lastFilled < ch.now - 900_000)
  {
  }

  lemma IdleScanHosts(s: Sys, t: Conn, ch: Choice, h: Conn)
    requires Valid(s) && t < |s.pcs| && s.pcs[t] == Clean(IdleScan)
    ensures var pc := Exec(s, t, ch).pcs[t];
            && pc.Clean? && pc.clean.IdleDelete?
            && (h in pc.clean.hosts <==>
                  exists code :: code in pc.clean.codes && code in s.shared.table
                                 && s.shared.heap[s.shared.table[code]].host == Some(h))
  {
  }

  /**
   The ghost cleaner's scan lists a code exactly if it is bound to a Room object without a host
   that was made more than a minute before, by the clocks that the two steps read.
   */
  lemma GhostScanListsExactly(run: seq<Action>, t: Conn, ch: Choice, code: Code)
    requires t < |Reached(run).pcs| && Reached(run).pcs[t] == Clean(GhostScan)
    ensures var s, pc := Reached(run), Exec(Reached(run), t, ch).pcs[t];
            && pc.Clean? && pc.clean.GhostPrune?
            && (code in pc.clean.stale <==>
                  code in s.shared.table && s.shared.heap[s.shared.table[code]].host.None?
                  && CreatedAt(run, s.shared.table[code]) < ch.now - 60_000)
  {
    var s := Reached(run);
    GhostScanStep(s, t, ch, code);
    if code in s.shared.table {
      TimestampsAreClocks(run, s.shared.table[code]);
      assert SeatOk(s.shared.heap[s.shared.table[code]], s.locals, s.shared.table[code]);
    }
  }

  /**
   The idle cleaner's scan lists a code exactly if it is bound to a Room object that no client
   ever entered and that was made, and last joined or filled, more than a quarter of an hour
   before; and it lists exactly the hosts of those.
   */
  lemma IdleScanListsExactly(run: seq<Action>, t: Conn, ch: Choice, code: Code, h: Conn)
    requires t < |Reached(run).pcs| && Reached(run).pcs[t] == Clean(IdleScan)
    ensures var s, pc := Reached(run), Exec(Reached(run), t, ch).pcs[t];
            && pc.Clean? && pc.clean.IdleDelete?
            && (code in pc.clean.codes <==>
                  code in s.shared.table && !EverEntered(run, s.shared.table[code])
                  && FilledAt(run, s.shared.table[code]) < ch.now - 900_000)
            && (h in pc.clean.hosts <==>
                  exists other :: other in pc.clean.codes && other in s.shared.table
                                  && s.shared.heap[s.shared.table[other]].host == Some(h))
  {
    var s := Reached(run);
    IdleScanStep(s, t, ch, code);
    IdleScanHosts(s, t, ch, h);
    if code in s.shared.table {
      TimestampsAreClocks(run, s.shared.table[code]);
    }
  }

  // ---- What a pruning removes ----

  /** Between the scan and the pruning the cleaner holds on to its list. */
  lemma ListIsKept(run: seq<Action>, t: Conn, ch: Choice, more: seq<Action>)
    requires t < |Reached(run).pcs| && Reached(run).pcs[t] == Clean(GhostScan)
    requires Meanwhile(more, t, ch.now)
    ensures var s' := Reached(run + [Step(t, ch)] + more);
            t < |s'.pcs| && s'.pcs[t] == Exec(Reached(run), t, ch).pcs[t]
  {
    InitSatisfiesInv();
    AfterLast(run, Step(t, ch));
    RunsCompose(INIT, run + [Step(t, ch)], more);
    OthersLeaveThreadAlone(Reached(run + [Step(t, ch)]), more, t, ch.now);
  }

  /**
   The ghost cleaner across its lock gap, over every run: when its pruning unbinds a code, the
   Room object has no host at that moment, and either it is the one of the scan, made more
   than a minute before the scan, or the code was bound to another one in between.
   */
  lemma PrunedRoomsAreOldUnlessRebound(run: seq<Action>, t: Conn, ch: Choice, more: seq<Action>, ch': Choice,
    code: Code)
    requires t < |Reached(run).pcs| && Reached(run).pcs[t] == Clean(GhostScan)
    requires Meanwhile(more, t, ch.now)
    requires code in Reached(run + [Step(t, ch)] + more).shared.table
    ensures var s, s' := Reached(run), Reached(run + [Step(t, ch)] + more);
            && t < |s'.pcs|
            && (code !in Exec(s', t, ch').shared.table ==>
                  && s'.shared.heap[s'.shared.table[code]].host.None? && code in s.shared.table
                  && (s'.shared.table[code] != s.shared.table[code]
                        || CreatedAt(run, s.shared.table[code]) < ch.now - 60_000))
  {
    ListIsKept(run, t, ch, more);
    GhostScanListsExactly(run, t, ch, code);
    GhostPruningSparesHosts(Reached(run + [Step(t, ch)] + more), t, ch', code);
  }
}
