/**
 Clients that wait for a link. A request can be overwritten by an equal draw, swept in a later
 room of the same code, or taken by a connection that then gives up; the client goes on
 waiting. Whether it can still be linked is decided by what is on file, and by nothing else.
 */
module Waiting {
  import opened Options
  import opened Store
  import opened Protocol
  import opened Invariant
  import opened Pairing

  /** The client has entered itself in its room, and its entry is nil. */
  predicate Waits(heap: Heap, ls: Crew, c: Conn) {
    && c < |ls| && ls[c].role == ClientData && ls[c].listed && ls[c].room.Some? && ls[c].room.value < |heap|
    && c in heap[ls[c].room.value].c2h && heap[ls[c].room.value].c2h[c] == None
  }

  /** A data connection has taken the client's request and is about to link. */
  predicate Taken(s: Sys, c: Conn)
    requires |s.locals| == |s.pcs|
  {
    exists h :: 0 <= h < |s.pcs| && AboutToLink(s, h, c)
  }

  predicate AboutToLink(s: Sys, h: Conn, c: Conn)
    requires h < |s.pcs| == |s.locals|
  {
    s.pcs[h] == Data(Linking) && s.locals[h].client == Some(c)
  }

  /** A data connection that asks for this name has found the room and is about to look for the request. */
  predicate Asked(s: Sys, r: RoomId, name: string)
    requires |s.locals| == |s.pcs|
  {
    exists h :: 0 <= h < |s.pcs| && AboutToTake(s, h, r, name)
  }

  predicate AboutToTake(s: Sys, h: Conn, r: RoomId, name: string)
    requires h < |s.pcs| == |s.locals|
  {
    s.pcs[h] == Data(Taking) && s.locals[h].room == Some(r) && s.locals[h].name == name
  }

  predicate Bound(s: Sys, r: RoomId) {
    exists code :: code in s.shared.table && s.shared.table[code] == r
  }

  /** The request is on file, and the room can be found, or has been found by somebody who asks for it. */
  ghost predicate Findable(s: Sys, r: RoomId, c: Conn)
    requires |s.locals| == |s.pcs|
  {
    exists name :: Filed(s, r, name, c) && (Bound(s, r) || Asked(s, r, name))
  }

  /** The client has not been forgotten. */
  ghost predicate Hopeful(s: Sys, c: Conn)
    requires |s.locals| == |s.pcs| && c < |s.locals| && s.locals[c].room.Some?
  {
    Taken(s, c) || Findable(s, s.locals[c].room.value, c)
  }

  ghost predicate Forgotten(s: Sys, c: Conn)
    requires |s.locals| == |s.pcs|
  {
    Waits(s.shared.heap, s.locals, c) && !Hopeful(s, c)
  }

  // ---- No step brings hope back ----

  lemma OthersFileNothing(s: Sys, t: Conn, ch: Choice, r: RoomId)
    requires Valid(s) && t < |s.pcs| && !s.pcs[t].Client? && r < |s.shared.heap|
    ensures r < |Exec(s, t, ch).shared.heap|
    ensures Exec(s, t, ch).shared.heap[r].requests.Items <= s.shared.heap[r].requests.Items
  {
    if s.pcs[t].Data? || s.pcs[t].Sweep? {
      TakingFilesNothing(s, t, ch, r);
    }
  }

  lemma TakingFilesNothing(s: Sys, t: Conn, ch: Choice, r: RoomId)
    requires Valid(s) && t < |s.pcs| && (s.pcs[t].Data? || s.pcs[t].Sweep?) && r < |s.shared.heap|
    ensures r < |Exec(s, t, ch).shared.heap|
    ensures Exec(s, t, ch).shared.heap[r].requests.Items <= s.shared.heap[r].requests.Items
  {
    assert PcWired(s.locals[t], s.pcs[t], |s.shared.heap|);
  }

  /** Requests appear by filing only. */
  lemma StepFiles(s: Sys, t: Conn, ch: Choice, r: RoomId, name: string, c: Conn)
    requires Local(s) && t < |s.pcs| && c < |s.pcs| && s.locals[c].asked && r < |s.shared.heap|
    requires Filed(Exec(s, t, ch), r, name, c)
    ensures Filed(s, r, name, c)
  {
    if s.pcs[t].Client? {
      assert HandlerOk(s.locals[t], s.pcs[t], |s.shared.heap|, s.shared.issued);
    } else {
      OthersFileNothing(s, t, ch, r);
      assert (name, c) in Exec(s, t, ch).shared.heap[r].requests.Items;
    }
  }

  /** No step binds a Room object that was there before. */
  lemma StepBinds(s: Sys, t: Conn, ch: Choice, r: RoomId)
    requires Valid(s) && t < |s.pcs| && r < |s.shared.heap| && Bound(Exec(s, t, ch), r)
    ensures Bound(s, r)
  {
    var code :| code in Exec(s, t, ch).shared.table && Exec(s, t, ch).shared.table[code] == r;
    assert code in s.shared.table && s.shared.table[code] == r;
  }

  lemma ClientsDoNotAsk(s: Sys, t: Conn, ch: Choice)
    requires Valid(s) && t < |s.pcs| && (s.pcs[t].Client? || s.pcs[t].Poll? || s.pcs[t].Sweep? || s.pcs[t].Signal?)
    ensures !Exec(s, t, ch).pcs[t].Data?
  {
  }

  lemma OthersDoNotAsk(s: Sys, t: Conn, ch: Choice)
    requires Valid(s) && t < |s.pcs| && !s.pcs[t].Data?
    ensures Exec(s, t, ch).pcs[t] != Data(Taking) && Exec(s, t, ch).pcs[t] != Data(Linking)
  {
    if s.pcs[t].Client? || s.pcs[t].Poll? || s.pcs[t].Sweep? || s.pcs[t].Signal? {
      ClientsDoNotAsk(s, t, ch);
    }
  }

  /** Only a connection that finds the room bound comes to look for a request there. */
  lemma StepAsks(s: Sys, t: Conn, ch: Choice, r: RoomId, name: string)
    requires Valid(s) && t < |s.pcs| && Asked(Exec(s, t, ch), r, name)
    ensures Asked(s, r, name) || Bound(s, r)
  {
    var s' := Exec(s, t, ch);
    var h: Conn :| h < |s'.pcs| && AboutToTake(s', h, r, name);
    if h != t {
      assert AboutToTake(s, h, r, name);
    } else if !s.pcs[t].Data? {
      OthersDoNotAsk(s, t, ch);
    }
  }

  /** Only a connection that takes the client's request comes to link it. */
  lemma StepTakes(s: Sys, t: Conn, ch: Choice, c: Conn)
    requires Inv(s) && t < |s.pcs| && c < |s.pcs| && s.locals[c].room.Some? && Taken(Exec(s, t, ch), c)
    ensures Hopeful(s, c)
  {
    var s' := Exec(s, t, ch);
    var h: Conn :| h < |s'.pcs| && AboutToLink(s', h, c);
    if h != t {
      assert AboutToLink(s, h, c);
    } else if !s.pcs[t].Data? {
      OthersDoNotAsk(s, t, ch);
    } else {
      TakerAsked(s, t, ch, c);
    }
  }

  lemma TakerAsked(s: Sys, t: Conn, ch: Choice, c: Conn)
    requires Inv(s) && t < |s.pcs| && s.pcs[t].Data? && c < |s.pcs| && s.locals[c].room.Some?
    requires AboutToLink(Exec(s, t, ch), t, c)
    ensures Findable(s, s.locals[c].room.value, c)
  {
    var l := s.locals[t];
    assert HandlerOk(l, s.pcs[t], |s.shared.heap|, s.shared.issued);
    assert s.pcs[t] == Data(Taking);
    assert RequestOk(s.shared.heap, s.locals, l.room.value, l.name);
    assert AboutToTake(s, t, l.room.value, l.name);
    assert Filed(s, l.room.value, l.name, c);
  }

  lemma ClientKeepsEntry(s: Sys, t: Conn, ch: Choice, c: Conn, r: RoomId)
    requires Local(s) && t < |s.pcs| && s.pcs[t].Client? && r < |s.shared.heap| && c in s.shared.heap[r].c2h
    requires s.shared.heap[r].c2h[c] == None
    ensures c in Exec(s, t, ch).shared.heap[r].c2h && Exec(s, t, ch).shared.heap[r].c2h[c] == None
  {
  }

  lemma DataKeepsEntry(s: Sys, t: Conn, ch: Choice, c: Conn, r: RoomId)
    requires Local(s) && t < |s.pcs| && s.pcs[t].Data? && r < |s.shared.heap| && c in s.shared.heap[r].c2h
    requires s.shared.heap[r].c2h[c] == None && !AboutToLink(s, t, c)
    ensures c in Exec(s, t, ch).shared.heap[r].c2h && Exec(s, t, ch).shared.heap[r].c2h[c] == None
  {
    assert HandlerOk(s.locals[t], s.pcs[t], |s.shared.heap|, s.shared.issued);
  }

  lemma OthersKeepEntries(s: Sys, t: Conn, ch: Choice, r: RoomId)
    requires Local(s) && t < |s.pcs| && !s.pcs[t].Client? && !s.pcs[t].Data? && r < |s.shared.heap|
    ensures r < |Exec(s, t, ch).shared.heap| && Exec(s, t, ch).shared.heap[r].c2h == s.shared.heap[r].c2h
  {
    assert HandlerOk(s.locals[t], s.pcs[t], |s.shared.heap|, s.shared.issued);
  }

  lemma StepKeepsListed(s: Sys, t: Conn, ch: Choice)
    requires Local(s) && t < |s.pcs| && s.locals[t].role == ClientData && s.locals[t].listed
    ensures var l := Exec(s, t, ch).locals[t];
            l.role == ClientData && l.listed && l.room == s.locals[t].room
  {
    assert HandlerOk(s.locals[t], s.pcs[t], |s.shared.heap|, s.shared.issued);
  }

  /** A waiting client that nobody is about to link goes on waiting. */
  lemma StepKeepsWaiting(s: Sys, t: Conn, ch: Choice, c: Conn)
    requires Local(s) && t < |s.pcs| && Waits(s.shared.heap, s.locals, c) && !Taken(s, c)
    ensures Waits(Exec(s, t, ch).shared.heap, Exec(s, t, ch).locals, c)
    ensures Exec(s, t, ch).locals[c].room == s.locals[c].room
  {
    var r := s.locals[c].room.value;
    if s.pcs[t].Client? {
      ClientKeepsEntry(s, t, ch, c, r);
    } else if s.pcs[t].Data? {
      assert !AboutToLink(s, t, c);
      DataKeepsEntry(s, t, ch, c, r);
    } else {
      OthersKeepEntries(s, t, ch, r);
    }
    if c == t {
      StepKeepsListed(s, t, ch);
    }
  }

  lemma StepForgetsForGood(s: Sys, t: Conn, ch: Choice, c: Conn)
    requires Inv(s) && t < |s.pcs| && Forgotten(s, c)
    ensures Forgotten(Exec(s, t, ch), c)
  {
    var s', r := Exec(s, t, ch), s.locals[c].room.value;
    StepKeepsWaiting(s, t, ch, c);
    assert ThreadOk(s.shared.heap, s.locals, s.locals[c], c);
    if Taken(s', c) {
      StepTakes(s, t, ch, c);
    }
    if name :| Filed(s', r, name, c) && (Bound(s', r) || Asked(s', r, name)) {
      StepFiles(s, t, ch, r, name, c);
      if Bound(s', r) {
        StepBinds(s, t, ch, r);
      } else {
        StepAsks(s, t, ch, r, name);
      }
    }
  }

  /** A handler that arrives asks for nothing yet, and rooms, table and requests stay. */
  lemma ArrivalsBringNoHope(s: Sys, s': Sys, c: Conn)
    requires |s.locals| == |s.pcs| <= |s'.pcs| == |s'.locals| && Forgotten(s, c)
    requires s'.locals[..|s.pcs|] == s.locals && s'.pcs[..|s.pcs|] == s.pcs
    requires forall h :: |s.pcs| <= h < |s'.pcs| ==> !s'.pcs[h].Data?
    requires s'.shared.heap == s.shared.heap && s'.shared.table == s.shared.table
    ensures Forgotten(s', c)
  {
    var r := s.locals[c].room.value;
    assert s'.locals[c] == s'.locals[..|s.pcs|][c];
    assert forall h: Conn :: h < |s.pcs| ==> s'.pcs[h] == s'.pcs[..|s.pcs|][h];
    assert forall h: Conn :: h < |s.pcs| ==> s'.locals[h] == s'.locals[..|s.pcs|][h];
    if h: Conn :| h < |s'.pcs| && AboutToLink(s', h, c) {
      assert AboutToLink(s, h, c);
    }
    if name :| Filed(s', r, name, c) && (Bound(s', r) || Asked(s', r, name)) {
      assert Filed(s, r, name, c) && !Bound(s, r) && !Bound(s', r);
      var h: Conn :| h < |s'.pcs| && AboutToTake(s', h, r, name);
      assert AboutToTake(s, h, r, name);
    }
  }

  lemma ActionForgetsForGood(s: Sys, a: Action, c: Conn)
    requires Inv(s) && Forgotten(s, c)
    ensures var s' := Do(s, a);
            |s'.locals| == |s'.pcs| && Forgotten(s', c)
  {
    if a.Step? {
      if a.t < |s.pcs| {
        StepForgetsForGood(s, a.t, a.ch, c);
      }
    } else {
      ArrivalsBringNoHope(s, Do(s, a), c);
    }
  }

  lemma {:induction false} ForgottenForGood(s: Sys, run: seq<Action>, c: Conn)
    requires Inv(s) && Forgotten(s, c)
    ensures Forgotten(After(s, run), c)
  {
    if run != [] {
      ForgottenForGood(s, run[..|run| - 1], c);
      ActionForgetsForGood(After(s, run[..|run| - 1]), run[|run| - 1], c);
    }
  }

  /** An equal draw overwrites the earlier client's request and forgets that client. */
  lemma EqualDrawsForget(s: Sys, t: Conn, ch: Choice, c: Conn)
    requires Inv(s) && t < |s.pcs| && s.pcs[t] == Client(Filing)
    requires Waits(s.shared.heap, s.locals, c) && !Taken(s, c)
    requires s.locals[t].room == s.locals[c].room && s.locals[t].name == s.locals[c].name
    ensures Forgotten(Exec(s, t, ch), c)
  {
    var s' := Exec(s, t, ch);
    StepKeepsWaiting(s, t, ch, c);
    if Taken(s', c) {
      var h: Conn :| h < |s'.pcs| && AboutToLink(s', h, c);
      assert AboutToLink(s, h, c);
    }
  }

  // ---- How a wait ends ----

  /**
   When a wait ends, exactly: the code is unbound, the room has lost its host, the client's
   entry is linked, or there is no entry and the minute is over. While the entry is nil the
   clock is not looked at.
   */
  lemma WaitEndsExactly(s: Sys, t: Conn, ch: Choice)
    requires Valid(s) && t < |s.pcs| && s.pcs[t].Poll?
    ensures var p, s' := s.pcs[t].poll, Exec(s, t, ch);
            && (s'.pcs[t] == Sweep(SweepFind) || s'.pcs[t].Poll?)
            && (s'.pcs[t] == Sweep(SweepFind) <==>
                match p
                case PollRoom => s.locals[t].code !in s.shared.table
                case PollHost(seen) => s.shared.heap[seen].host.None?
                case PollPartner(seen) =>
                  var c2h := s.shared.heap[seen].c2h;
                  if t in c2h then c2h[t].Some? else !ch.ok)
            && s'.locals[t].partner == (if p.PollPartner? && t in s.shared.heap[p.seen].c2h
                 && s.shared.heap[p.seen].c2h[t].Some?
                                        then s.shared.heap[p.seen].c2h[t] else s.locals[t].partner)
  {
    assert PcWired(s.locals[t], s.pcs[t], |s.shared.heap|);
  }

  /** The client is polling, and it looks at its own room, if at any. */
  predicate PollsHome(s: Sys, c: Conn)
    requires |s.locals| == |s.pcs| && c < |s.pcs|
  {
    s.pcs[c].Poll? && (s.pcs[c].poll.PollRoom? || s.locals[c].room == Some(s.pcs[c].poll.seen))
  }

  /** Whenever the client moves along the run, its code is bound to its room. */
  ghost predicate StaysBound(s: Sys, run: seq<Action>, c: Conn)
    requires Inv(s)
  {
    run == [] ||
    (StaysBound(s, run[..|run| - 1], c) &&
     var before, last := After(s, run[..|run| - 1]), run[|run| - 1];
     last.Step? && last.t == c && c < |before.pcs| ==>
       before.locals[c].code in before.shared.table
       && before.locals[c].room == Some(before.shared.table[before.locals[c].code]))
  }

  lemma ActionKeepsPolling(s: Sys, a: Action, c: Conn)
    requires Inv(s) && c < |s.pcs| && PollsHome(s, c) && Waits(s.shared.heap, s.locals, c)
    requires s.shared.heap[s.locals[c].room.value].host.Some?
    requires a.Step? && a.t == c ==>
             s.locals[c].code in s.shared.table && s.locals[c].room == Some(s.shared.table[s.locals[c].code])
    ensures |Do(s, a).locals| == |Do(s, a).pcs| > c && PollsHome(Do(s, a), c)
  {
    if a.Step? && a.t < |s.pcs| && a.t == c {
      assert HandlerOk(s.locals[c], s.pcs[c], |s.shared.heap|, s.shared.issued);
    }
  }

  /**
   The wait has no bound. A forgotten client whose room has a host polls for ever, whatever the
   clocks say, as long as its code is bound to that room whenever it looks.
   */
  lemma {:induction false} ForgottenClientsPollForEver(s: Sys, run: seq<Action>, c: Conn)
    requires Inv(s) && Forgotten(s, c) && PollsHome(s, c) && s.shared.heap[s.locals[c].room.value].host.Some?
    requires StaysBound(s, run, c)
    ensures c < |After(s, run).pcs| && PollsHome(After(s, run), c)
  {
    if run != [] {
      var init := run[..|run| - 1];
      ForgottenClientsPollForEver(s, init, c);
      ForgottenForGood(s, init, c);
      RunGrows(s, init);
      assert ThreadOk(s.shared.heap, s.locals, s.locals[c], c);
      ActionKeepsPolling(After(s, init), run[|run| - 1], c);
    }
  }

  // ---- What the sweep achieves ----

  /** The client's wait ends with a sweep of its own room. */
  predicate SweepsHome(s: Sys, a: Action, c: Conn)
    requires Valid(s)
  {
    && a.Step? && a.t == c && c < |s.pcs| && s.pcs[c].Sweep? && !s.pcs[c].sweep.SweepFind?
    && s.locals[c].room == Some(s.pcs[c].sweep.seen) && !Exec(s, c, a.ch).pcs[c].Sweep?
  }

  ghost predicate HasSweptHome(run: seq<Action>, c: Conn) {
    run != [] && (HasSweptHome(run[..|run| - 1], c) || SweepsHome(Reached(run[..|run| - 1]), run[|run| - 1], c))
  }

  /** No request on file, in any room, is the client's. */
  predicate OffFile(s: Sys, c: Conn) {
    forall r: RoomId :: r < |s.shared.heap| ==> c !in s.shared.heap[r].requests.Values
  }

  lemma SweepClears(s: Sys, c: Conn, ch: Choice)
    requires Inv(s) && c < |s.pcs| && SweepsHome(s, Step(c, ch), c)
    ensures OffFile(Exec(s, c, ch), c) && Exec(s, c, ch).locals[c].asked && Exec(s, c, ch).locals[c].role == ClientData
  {
    assert HandlerOk(s.locals[c], s.pcs[c], |s.shared.heap|, s.shared.issued);
    assert ThreadOk(s.shared.heap, s.locals, s.locals[c], c);
    var s' := Exec(s, c, ch);
    forall r: RoomId, name | r < |s'.shared.heap| && name in s'.shared.heap[r].requests
      ensures s'.shared.heap[r].requests[name] != c
    {
      assert s'.shared.heap[r].requests[name] == s.shared.heap[r].requests[name];
      assert RequestOk(s.shared.heap, s.locals, r, name);
    }
  }

  lemma ActionKeepsOffFile(s: Sys, a: Action, c: Conn)
    requires Inv(s) && c < |s.pcs| && OffFile(s, c) && s.locals[c].asked
    ensures OffFile(Do(s, a), c) && c < |Do(s, a).locals| && Do(s, a).locals[c].asked
  {
    ActionGrows(s, a);
    if a.Step? && a.t < |s.pcs| {
      var s' := Exec(s, a.t, a.ch);
      forall r: RoomId, name | r < |s'.shared.heap| && name in s'.shared.heap[r].requests
        ensures s'.shared.heap[r].requests[name] != c
      {
        if s'.shared.heap[r].requests[name] == c && r < |s.shared.heap| {
          StepFiles(s, a.t, a.ch, r, name, c);
        } else if r >= |s.shared.heap| {
          NewRoomsAreEmpty(s, a.t, a.ch, r);
        }
      }
    }
  }

  lemma NewRoomsAreEmpty(s: Sys, t: Conn, ch: Choice, r: RoomId)
    requires Valid(s) && t < |s.pcs| && |s.shared.heap| <= r < |Exec(s, t, ch).shared.heap|
    ensures Exec(s, t, ch).shared.heap[r].requests == map[]
  {
  }

  /** In every run a client that swept its own room at the end of its wait is on file nowhere, then and for good. */
  lemma {:induction false} SweptClientsAreOffFile(run: seq<Action>, c: Conn)
    requires HasSweptHome(run, c)
    ensures c < |Reached(run).locals| && Reached(run).locals[c].asked && OffFile(Reached(run), c)
  {
    InitSatisfiesInv();
    var before, last := Reached(run[..|run| - 1]), run[|run| - 1];
    if HasSweptHome(run[..|run| - 1], c) {
      SweptClientsAreOffFile(run[..|run| - 1], c);
      ActionKeepsOffFile(before, last, c);
    } else {
      SweepClears(before, c, last.ch);
    }
  }

  // ---- Where there is hope ----

  /** A connection that is about to link does. */
  lemma TakenCanBeLinked(run: seq<Action>, c: Conn, h: Conn, ch: Choice)
    requires var s := Reached(run);
             Waits(s.shared.heap, s.locals, c) && h < |s.pcs| && AboutToLink(s, h, c)
    ensures Linked(Reached(run + [Step(h, ch)]).shared.heap, Reached(run).locals[c].room.value, c, h)
  {
    var s := Reached(run);
    assert DataOk(s.shared.heap, s.locals, s.locals[h], h) by {
      assert ThreadOk(s.shared.heap, s.locals, s.locals[h], h);
      assert HandlerOk(s.locals[h], s.pcs[h], |s.shared.heap|, s.shared.issued);
    }
    AfterLast(run, Step(h, ch));
  }

  lemma AskedCanBeLinked(run: seq<Action>, c: Conn, h: Conn, r: RoomId, name: string, ch: Choice)
    returns (next: seq<Action>)
    requires var s := Reached(run);
             && Waits(s.shared.heap, s.locals, c) && s.locals[c].room == Some(r)
             && h < |s.pcs| && AboutToTake(s, h, r, name) && Filed(s, r, name, c)
    ensures next == run + [Step(h, ch)] + [Step(h, ch)]
    ensures Linked(Reached(next).shared.heap, r, c, h)
  {
    var taken := run + [Step(h, ch)];
    AfterLast(run, Step(h, ch));
    TakesRequest(Reached(run), h, ch, r, name, c);
    TakenCanBeLinked(taken, c, h, ch);
    next := taken + [Step(h, ch)];
  }

  lemma TakesRequest(s: Sys, h: Conn, ch: Choice, r: RoomId, name: string, c: Conn)
    requires Local(s) && h < |s.pcs| && AboutToTake(s, h, r, name) && Filed(s, r, name, c)
    requires Waits(s.shared.heap, s.locals, c)
    ensures AboutToLink(Exec(s, h, ch), h, c) && h != c
    ensures Waits(Exec(s, h, ch).shared.heap, Exec(s, h, ch).locals, c)
    ensures Exec(s, h, ch).locals[c] == s.locals[c]
  {
    assert HandlerOk(s.locals[h], s.pcs[h], |s.shared.heap|, s.shared.issued);
  }

  /** While the room is bound, a data connection can come and ask for the name. */
  lemma BoundCanBeAsked(run: seq<Action>, code: Code, name: string, ch: Choice) returns (next: seq<Action>)
    requires code in Reached(run).shared.table
    ensures var s, h, s' := Reached(run), |Reached(run).pcs|, Reached(next);
            && next == run + [Spawn(HostData, code, name), Step(h, ch), Step(h, ch)]
            && s'.shared == s.shared && |s'.pcs| == h + 1 && s'.locals[..h] == s.locals
            && AboutToTake(s', h, s.shared.table[code], name)
  {
    var h, arrival := |Reached(run).pcs|, Spawn(HostData, code, name);
    AfterLast(run, arrival);
    AfterLast(run + [arrival], Step(h, ch));
    assert Reached(run + [arrival] + [Step(h, ch)]).pcs[h] == Data(TakeFind);
    AfterLast(run + [arrival] + [Step(h, ch)], Step(h, ch));
    next := run + [arrival] + [Step(h, ch)] + [Step(h, ch)];
  }

  lemma BoundCanBeLinked(run: seq<Action>, c: Conn, r: RoomId, code: Code, name: string, ch: Choice)
    returns (more: seq<Action>)
    requires Waits(Reached(run).shared.heap, Reached(run).locals, c) && Reached(run).locals[c].room == Some(r)
    requires code in Reached(run).shared.table && Reached(run).shared.table[code] == r
    requires Filed(Reached(run), r, name, c)
    ensures Linked(Reached(run + more).shared.heap, r, c, |Reached(run).pcs|)
  {
    var h := |Reached(run).pcs|;
    var asked := BoundCanBeAsked(run, code, name, ch);
    StillWaiting(Reached(run), Reached(asked), c, r, name);
    var next := AskedCanBeLinked(asked, c, h, r, name, ch);
    var arrival := [Spawn(HostData, code, name), Step(h, ch), Step(h, ch)];
    more := arrival + [Step(h, ch)] + [Step(h, ch)];
    TwoMore(run, arrival, Step(h, ch));
  }

  lemma TwoMore(run: seq<Action>, more: seq<Action>, a: Action)
    ensures run + more + [a] + [a] == run + (more + [a] + [a])
  {
  }

  lemma StillWaiting(s: Sys, s': Sys, c: Conn, r: RoomId, name: string)
    requires |s.locals| == |s.pcs| <= |s'.locals| && s'.locals[..|s.pcs|] == s.locals && s'.shared == s.shared
    requires Waits(s.shared.heap, s.locals, c) && s.locals[c].room == Some(r) && Filed(s, r, name, c)
    ensures Waits(s'.shared.heap, s'.locals, c) && s'.locals[c].room == Some(r) && Filed(s', r, name, c)
  {
    assert s'.locals[c] == s'.locals[..|s.pcs|][c];
  }

  lemma FindableCanBeLinked(run: seq<Action>, c: Conn, r: RoomId, ch: Choice) returns (more: seq<Action>, h: Conn)
    requires Waits(Reached(run).shared.heap, Reached(run).locals, c) && Reached(run).locals[c].room == Some(r)
    requires Findable(Reached(run), r, c)
    ensures Linked(Reached(run + more).shared.heap, r, c, h)
  {
    var s := Reached(run);
    var name :| Filed(s, r, name, c) && (Bound(s, r) || Asked(s, r, name));
    if Asked(s, r, name) {
      h :| h < |s.pcs| && AboutToTake(s, h, r, name);
      var next := AskedCanBeLinked(run, c, h, r, name, ch);
      more := [] + [Step(h, ch)] + [Step(h, ch)];
      TwoMore(run, [], Step(h, ch));
      assert run + [] == run;
    } else {
      var code :| code in s.shared.table && s.shared.table[code] == r;
      h := |s.pcs|;
      more := BoundCanBeLinked(run, c, r, code, name, ch);
    }
  }

  lemma HopefulCanBeLinked(run: seq<Action>, c: Conn, ch: Choice) returns (more: seq<Action>, h: Conn)
    requires Waits(Reached(run).shared.heap, Reached(run).locals, c) && Hopeful(Reached(run), c)
    ensures Linked(Reached(run + more).shared.heap, Reached(run).locals[c].room.value, c, h)
  {
    if Taken(Reached(run), c) {
      h :| h < |Reached(run).pcs| && AboutToLink(Reached(run), h, c);
      TakenCanBeLinked(run, c, h, ch);
      more := [Step(h, ch)];
    } else {
      more, h := FindableCanBeLinked(run, c, Reached(run).locals[c].room.value, ch);
    }
  }

  /** Some continuation links the client. */
  ghost predicate CanBeLinked(run: seq<Action>, c: Conn) {
    exists more, r, h :: Linked(Reached(run + more).shared.heap, r, c, h)
  }

  /**
   Which waiting clients can still be linked, exactly: those that a data connection has taken
   and is about to link, and those whose request is on file in a Room object that is bound to
   a code, or in which a connection is already looking for that request. The others are never
   linked, in any continuation, to anybody.
   */
  lemma WaitingClientsCanBeLinkedExactly(run: seq<Action>, c: Conn)
    requires Waits(Reached(run).shared.heap, Reached(run).locals, c)
    ensures CanBeLinked(run, c) <==> Hopeful(Reached(run), c)
  {
    if Hopeful(Reached(run), c) {
      var more, h := HopefulCanBeLinked(run, c, Choice(true, 0, 0, "", [], Closure(0, Unspecified)));
    } else {
      forall more, r, h ensures !Linked(Reached(run + more).shared.heap, r, c, h) {
        NeverLinked(run, more, c, r, h);
      }
    }
  }

  lemma NeverLinked(run: seq<Action>, more: seq<Action>, c: Conn, r: RoomId, h: Conn)
    requires Forgotten(Reached(run), c)
    ensures !Linked(Reached(run + more).shared.heap, r, c, h)
  {
    InitSatisfiesInv();
    RunsCompose(INIT, run, more);
    ForgottenForGood(Reached(run), more, c);
    if Linked(Reached(run + more).shared.heap, r, c, h) {
      LinkedMeansTaken(Reached(run + more).shared.heap, Reached(run + more).locals, r, c, h);
    }
  }
}
