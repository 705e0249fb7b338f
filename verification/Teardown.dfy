/**
 What a cleanup closes, in every reachable state: exactly the room when its host leaves,
 exactly the pair when one end of a tunnel leaves; and a cleanup that has run to its end has
 closed everything it set out to close.
 */
module Teardown {
  import opened Options
  import opened Store
  import opened Protocol
  import opened Invariant
  import opened Pairing
  import Relay

  // ---- A finished cleanup has closed its goal ----

  /** All that a cleanup has crossed off its list is closed. */
  predicate ProgressShown(pc: Pc, closed: set<Conn>) {
    match pc
    case Exit(Closing(goal, left)) => left <= goal && forall p :: p in goal && p !in left ==> p.conn in closed
    case Exit(Finished(goal)) => forall p :: p in goal ==> p.conn in closed
    case _ => true
  }

  predicate AllShown(s: Sys) {
    forall t: Conn :: t < |s.pcs| ==> ProgressShown(s.pcs[t], s.closed)
  }

  lemma ExitKeepsShown(s: Sys, t: Conn, ch: Choice)
    requires Valid(s) && t < |s.pcs| && s.pcs[t].Exit? && ProgressShown(s.pcs[t], s.closed)
    ensures ProgressShown(ExitStep(s, t, ch).pcs[t], ExitStep(s, t, ch).closed)
  {
  }

  /** Neither closing nor closed a list. */
  predicate ShowsNothing(pc: Pc) {
    pc.Exit? ==> !pc.exit.Closing? && (pc.exit.Finished? ==> pc == DONE)
  }

  lemma ClientsShowNothing(s: Sys, t: Conn, ch: Choice)
    requires Valid(s) && t < |s.pcs| && (s.pcs[t].Client? || s.pcs[t].Poll? || s.pcs[t].Sweep? || s.pcs[t].Signal?)
    ensures ShowsNothing(Exec(s, t, ch).pcs[t])
  {
  }

  /** Only handleCleanup hands out closing lists; whoever is done without one has closed nothing on its behalf. */
  lemma OthersShowNothing(s: Sys, t: Conn, ch: Choice)
    requires Valid(s) && t < |s.pcs| && !s.pcs[t].Exit?
    ensures ShowsNothing(Exec(s, t, ch).pcs[t])
  {
    if s.pcs[t].Client? || s.pcs[t].Poll? || s.pcs[t].Sweep? || s.pcs[t].Signal? {
      ClientsShowNothing(s, t, ch);
    }
  }

  lemma StepKeepsShown(s: Sys, t: Conn, ch: Choice)
    requires Inv(s) && AllShown(s) && t < |s.pcs|
    ensures AllShown(Exec(s, t, ch))
  {
    StepGrows(s, t, ch);
    if s.pcs[t].Exit? {
      ExitKeepsShown(s, t, ch);
    } else {
      OthersShowNothing(s, t, ch);
    }
  }

  /** In every run, a cleanup that reached its end left every connection on its list closed. */
  lemma {:induction false} FinishedCleanupsClosedAll(run: seq<Action>)
    ensures AllShown(Reached(run))
  {
    InitSatisfiesInv();
    if run != [] {
      var before, last := Reached(run[..|run| - 1]), run[|run| - 1];
      FinishedCleanupsClosedAll(run[..|run| - 1]);
      match last
      case Spawn(_, _, _) =>
      case Recall(_) =>
      case Step(t, ch) =>
        if t < |before.pcs| {
          StepKeepsShown(before, t, ch);
        }
    }
  }

  // ---- Host teardown ----

  /** No connection is on the list twice. */
  predicate NamesEachOnce(goal: set<Closure>) {
    forall p, q :: p in goal && q in goal && p.conn == q.conn ==> p == q
  }

  lemma TeardownNamesEachOnce(heap: Heap, ls: Crew, r: RoomId, host: Conn, reason: Reason)
    requires Core(heap, ls) && r < |heap| && heap[r].host == Some(host)
    ensures NamesEachOnce(TeardownClosures(heap[r], host, reason))
  {
    var room := heap[r];
    var goal := TeardownClosures(room, host, reason);
    assert SeatOk(room, ls, r);
    forall p | p in goal
      ensures p.conn < |ls|
      ensures p.reason == (match ls[p.conn].role
                           case ClientData => HostDisconnected
                           case HostData => SignalDisconnected
                           case _ => reason)
      ensures ls[p.conn].role == ClientData || ls[p.conn].role == HostData || p.conn == host
    {
      if p.conn != host || p.reason != reason {
        if p.reason == HostDisconnected && p.conn in room.c2h {
          assert EntryOk(heap, ls, r, p.conn);
        } else {
          var c :| c in room.c2h && room.c2h[c].Some? && p == Closure(room.c2h[c].value, SignalDisconnected);
          LinkedMeansTaken(heap, ls, r, c, p.conn);
        }
      }
    }
  }

  /**
   Host teardown is exact. When the host of the bound Room object cleans up, its list names
   the host, every registered client and every linked data connection, each once and each
   with the reason of its role, and nobody else. All of the mirror map's keys are among them.
   */
  lemma HostTeardownIsExact(run: seq<Action>, t: Conn, ch: Choice)
    requires t < |Reached(run).pcs| && Reached(run).pcs[t] == Exit(Cleanup)
    requires Reached(run).locals[t].code in Reached(run).shared.table
    requires Reached(run).shared.heap[Reached(run).shared.table[Reached(run).locals[t].code]].host == Some(t)
    ensures var room := Reached(run).shared.heap[Reached(run).shared.table[Reached(run).locals[t].code]];
            var pc := Exec(Reached(run), t, ch).pcs[t];
            && pc.Exit? && pc.exit.Closing? && pc.exit.left == pc.exit.goal && NamesEachOnce(pc.exit.goal)
            && (forall x: Conn, why ::
                  Closure(x, why) in pc.exit.goal <==>
                    || (x in room.c2h && why == HostDisconnected)
                    || ((exists c :: c in room.c2h && room.c2h[c] == Some(x)) && why == SignalDisconnected)
                    || (x == t && why == Unspecified))
            && (forall h :: h in room.h2c ==> Closure(h, SignalDisconnected) in pc.exit.goal)
  {
    var s := Reached(run);
    var r := s.shared.table[s.locals[t].code];
    var room := s.shared.heap[r];
    TeardownNamesEachOnce(s.shared.heap, s.locals, r, t, Unspecified);
    MapsAreInverseIn(s, r);
    forall h | h in room.h2c ensures Closure(h, SignalDisconnected) in TeardownClosures(room, t, Unspecified) {
      assert room.c2h[room.h2c[h]] == Some(h);
    }
  }

  /**
   The calls that handleCleanup's loops make for a host, in whatever order the map is
   traversed, are the closures of the teardown, and close no connection twice.
   */
  lemma HostCleanupCallsAreExact(run: seq<Action>, r: RoomId, host: Conn, order: seq<Conn>, reason: Reason)
    requires r < |Reached(run).shared.heap| && Reached(run).shared.heap[r].host == Some(host)
    requires Relay.Traverses(order, Reached(run).shared.heap[r].c2h.Keys)
    ensures var room := Reached(run).shared.heap[r];
            var calls := Relay.TeardownCalls(room.c2h, order) + [Closure(host, reason)];
            && (forall p :: p in calls <==> p in TeardownClosures(room, host, reason))
            && Relay.ClosesEachOnce(calls)
  {
    var s := Reached(run);
    var heap, ls := s.shared.heap, s.locals;
    var c2h := heap[r].c2h;
    forall c, d | c in c2h && d in c2h && c2h[c].Some?
      ensures c2h[c].value != d && (c2h[c] == c2h[d] ==> c == d) && c2h[c].value != host && d != host
    {
      LinkedMeansTaken(heap, ls, r, c, c2h[c].value);
      assert EntryOk(heap, ls, r, d) && SeatOk(heap[r], ls, r);
      MapsAreInverseIn(s, r);
    }
    Relay.TeardownClosesEachOnce(c2h, order);
    var calls := Relay.TeardownCalls(c2h, order);
    forall p
      ensures p in calls <==> p in PairClosures(c2h)
    {
      Relay.TeardownCallsAreClosures(c2h, order, p);
    }
    forall p | p in calls
      ensures p.conn != host
    {
      TeardownSparesHost(heap, ls, r, host, p);
    }
    Relay.OneMoreClosed(calls, Closure(host, reason));
  }

  lemma TeardownSparesHost(heap: Heap, ls: Crew, r: RoomId, host: Conn, p: Closure)
    requires Core(heap, ls) && r < |heap| && heap[r].host == Some(host) && p in PairClosures(heap[r].c2h)
    ensures p.conn != host
  {
    assert SeatOk(heap[r], ls, r);
    if p.reason == HostDisconnected && p.conn in heap[r].c2h {
      assert EntryOk(heap, ls, r, p.conn);
    } else {
      var c :| c in heap[r].c2h && heap[r].c2h[c].Some? && p == Closure(heap[r].c2h[c].value, SignalDisconnected);
      LinkedMeansTaken(heap, ls, r, c, p.conn);
    }
  }

  // ---- Pair teardown ----

  /** The first step of a cleanup in a room that is still bound. */
  lemma CleanupBegins(s: Sys, t: Conn, ch: Choice)
    requires Valid(s) && t < |s.pcs| && s.pcs[t] == Exit(Cleanup) && s.locals[t].code in s.shared.table
    ensures var room := s.shared.heap[s.shared.table[s.locals[t].code]];
            var goal := CleanupClosures(room, t, Unspecified);
            && Exec(s, t, ch).pcs[t] == Exit(Closing(goal, goal))
            && (room.host != Some(t) ==> Exec(s, t, ch).shared == s.shared)
  {
  }

  lemma EndsListEachOther(heap: Heap, ls: Crew, r: RoomId, c: Conn, h: Conn, t: Conn)
    requires Core(heap, ls) && Linked(heap, r, c, h) && (t == c || (t == h && h in heap[r].h2c))
    ensures heap[r].host != Some(t)
    ensures CleanupClosures(heap[r], t, Unspecified) ==
            {Closure(if t == c then h else c, ClientDisconnected), Closure(t, Unspecified)}
  {
    LinkedMeansTaken(heap, ls, r, c, h);
    assert SeatOk(heap[r], ls, r);
    ConnectionsHaveOneEnd(heap, ls, r, t);
    if t == h {
      assert MirrorOk(heap, ls, r, h);
    }
  }

  /**
   Pair teardown. While the Room object in which c and h are linked is bound to the code,
   the cleanup of either end lists both ends and nobody else, and unbinds nothing. This
   includes the client's cleanup landing between the two writes of the link.
   */
  lemma PairTeardownClosesBoth(run: seq<Action>, r: RoomId, c: Conn, h: Conn, t: Conn, ch: Choice)
    requires Linked(Reached(run).shared.heap, r, c, h) && (t == c || t == h)
    requires t < |Reached(run).pcs| && Reached(run).pcs[t] == Exit(Cleanup)
    requires Reached(run).locals[t].code in Reached(run).shared.table
    requires Reached(run).shared.table[Reached(run).locals[t].code] == r
    ensures Exec(Reached(run), t, ch).shared == Reached(run).shared
    ensures var goal := {Closure(if t == c then h else c, ClientDisconnected), Closure(t, Unspecified)};
            Exec(Reached(run), t, ch).pcs[t] == Exit(Closing(goal, goal))
  {
    MapsAreInverseIn(Reached(run), r);
    EndsListEachOther(Reached(run).shared.heap, Reached(run).locals, r, c, h, t);
    CleanupBegins(Reached(run), t, ch);
  }

  // ---- No connection is closed twice ----

  /** No connection is at both ends of links, and none is its own partner. */
  predicate OneEnd(room: RoomState, t: Conn) {
    && !(t in room.c2h && t in room.h2c)
    && (t in room.c2h ==> room.c2h[t] != Some(t))
    && (t in room.h2c ==> room.h2c[t] != t)
  }

  lemma ConnectionsHaveOneEnd(heap: Heap, ls: Crew, r: RoomId, t: Conn)
    requires Core(heap, ls) && r < |heap|
    ensures OneEnd(heap[r], t)
  {
    if t in heap[r].c2h {
      assert EntryOk(heap, ls, r, t);
      if heap[r].c2h[t].Some? {
        LinkedMeansTaken(heap, ls, r, t, heap[r].c2h[t].value);
      }
    }
    if t in heap[r].h2c {
      assert MirrorOk(heap, ls, r, t);
      assert ThreadOk(heap, ls, ls[t], t);
    }
  }

  lemma PartingCallsAreExact(room: RoomState, t: Conn, reason: Reason)
    requires OneEnd(room, t)
    ensures var calls := Relay.PartnerCalls(room, t) + [Closure(t, reason)];
            && (forall p :: p in calls <==> p in PartingClosures(room, t, reason))
            && Relay.ClosesEachOnce(calls)
  {
  }

  /**
   The calls that handleCleanup makes for a connection that is not the host are the closures
   of the parting, and close no connection twice.
   */
  lemma PairCleanupCallsAreExact(run: seq<Action>, r: RoomId, t: Conn, reason: Reason)
    requires r < |Reached(run).shared.heap|
    ensures var room := Reached(run).shared.heap[r];
            var calls := Relay.PartnerCalls(room, t) + [Closure(t, reason)];
            && (forall p :: p in calls <==> p in PartingClosures(room, t, reason))
            && Relay.ClosesEachOnce(calls)
  {
    ConnectionsHaveOneEnd(Reached(run).shared.heap, Reached(run).locals, r, t);
    PartingCallsAreExact(Reached(run).shared.heap[r], t, reason);
  }

  // ---- From the list to the closed connections ----

  /** Working on this list, or through with it. */
  predicate Pursues(pc: Pc, goal: set<Closure>) {
    match pc
    case Exit(Closing(g, _)) => g == goal
    case Exit(Finished(g)) => g == goal
    case _ => false
  }

  lemma ActionKeepsPursuing(s: Sys, a: Action, t: Conn, goal: set<Closure>)
    requires Valid(s) && t < |s.pcs| && Pursues(s.pcs[t], goal)
    ensures t < |Do(s, a).pcs| && Pursues(Do(s, a).pcs[t], goal)
  {
  }

  /** A cleanup stays with its list along every continuation. */
  lemma {:induction false} ListsAreForLife(s: Sys, run: seq<Action>, t: Conn, goal: set<Closure>)
    requires Inv(s) && t < |s.pcs| && Pursues(s.pcs[t], goal)
    ensures t < |After(s, run).pcs| && Pursues(After(s, run).pcs[t], goal)
  {
    if run != [] {
      ListsAreForLife(s, run[..|run| - 1], t, goal);
      ActionKeepsPursuing(After(s, run[..|run| - 1]), run[|run| - 1], t, goal);
    }
  }

  lemma PursuedIsClosed(s: Sys, t: Conn, goal: set<Closure>)
    requires AllShown(s) && t < |s.pcs| && Pursues(s.pcs[t], goal) && s.pcs[t].exit.Finished?
    ensures forall p :: p in goal ==> p.conn in s.closed
  {
    assert ProgressShown(s.pcs[t], s.closed);
  }

  lemma CleanupsListThemselves(room: RoomState, t: Conn)
    ensures Closure(t, Unspecified) in CleanupClosures(room, t, Unspecified)
  {
  }

  /**
   A cleanup in a room that is still bound, from its first step to its end: in every
   continuation it works on the list it made in that step, and once it is through, every
   connection on that list is closed, its own among them.
   */
  lemma CleanupClosesItsList(run: seq<Action>, t: Conn, ch: Choice, more: seq<Action>)
    requires t < |Reached(run).pcs| && Reached(run).pcs[t] == Exit(Cleanup)
    requires Reached(run).locals[t].code in Reached(run).shared.table
    ensures var s, s' := Reached(run), Reached(run + [Step(t, ch)] + more);
            var goal := CleanupClosures(s.shared.heap[s.shared.table[s.locals[t].code]], t, Unspecified);
            && t < |s'.pcs| && Pursues(s'.pcs[t], goal) && Closure(t, Unspecified) in goal
            && (s'.pcs[t].exit.Finished? ==> forall p :: p in goal ==> p.conn in s'.closed)
  {
    InitSatisfiesInv();
    var s := Reached(run);
    var goal := CleanupClosures(s.shared.heap[s.shared.table[s.locals[t].code]], t, Unspecified);
    AfterLast(run, Step(t, ch));
    CleanupBegins(s, t, ch);
    RunsCompose(INIT, run + [Step(t, ch)], more);
    ListsAreForLife(Reached(run + [Step(t, ch)]), more, t, goal);
    FinishedCleanupsClosedAll(run + [Step(t, ch)] + more);
    CleanupsListThemselves(s.shared.heap[s.shared.table[s.locals[t].code]], t);
    if Reached(run + [Step(t, ch)] + more).pcs[t].exit.Finished? {
      PursuedIsClosed(Reached(run + [Step(t, ch)] + more), t, goal);
    }
  }

  /**
   When the cleanup of a room's host is through, the host, every client and every linked data
   connection are closed.
   */
  lemma HostTeardownCompletes(run: seq<Action>, t: Conn, ch: Choice, more: seq<Action>)
    requires t < |Reached(run).pcs| && Reached(run).pcs[t] == Exit(Cleanup)
    requires Reached(run).locals[t].code in Reached(run).shared.table
    requires Reached(run).shared.heap[Reached(run).shared.table[Reached(run).locals[t].code]].host == Some(t)
    requires t < |Reached(run + [Step(t, ch)] + more).pcs|
    requires var pc := Reached(run + [Step(t, ch)] + more).pcs[t]; pc.Exit? && pc.exit.Finished?
    ensures var closed := Reached(run + [Step(t, ch)] + more).closed;
            var room := Reached(run).shared.heap[Reached(run).shared.table[Reached(run).locals[t].code]];
            && t in closed
            && (forall c :: c in room.c2h ==> c in closed && (room.c2h[c].Some? ==> room.c2h[c].value in closed))
            && (forall h :: h in room.h2c ==> h in closed)
  {
    CleanupClosesItsList(run, t, ch, more);
    var s := Reached(run);
    var r := s.shared.table[s.locals[t].code];
    var room := s.shared.heap[r];
    MapsAreInverseIn(s, r);
    var goal := TeardownClosures(room, t, Unspecified);
    forall c | c in room.c2h
      ensures Closure(c, HostDisconnected) in goal
      ensures room.c2h[c].Some? ==> Closure(room.c2h[c].value, SignalDisconnected) in goal
    {
    }
  }

  /** When the cleanup of one end of a link is through, both ends are closed. */
  lemma PairTeardownCompletes(run: seq<Action>, r: RoomId, c: Conn, h: Conn, t: Conn, ch: Choice, more: seq<Action>)
    requires Linked(Reached(run).shared.heap, r, c, h) && (t == c || t == h)
    requires t < |Reached(run).pcs| && Reached(run).pcs[t] == Exit(Cleanup)
    requires Reached(run).locals[t].code in Reached(run).shared.table
    requires Reached(run).shared.table[Reached(run).locals[t].code] == r
    requires t < |Reached(run + [Step(t, ch)] + more).pcs|
    requires var pc := Reached(run + [Step(t, ch)] + more).pcs[t]; pc.Exit? && pc.exit.Finished?
    ensures c in Reached(run + [Step(t, ch)] + more).closed && h in Reached(run + [Step(t, ch)] + more).closed
  {
    CleanupClosesItsList(run, t, ch, more);
    MapsAreInverseIn(Reached(run), r);
    EndsListEachOther(Reached(run).shared.heap, Reached(run).locals, r, c, h, t);
    var goal := CleanupClosures(Reached(run).shared.heap[r], t, Unspecified);
    assert Closure(if t == c then h else c, ClientDisconnected) in goal && Closure(t, Unspecified) in goal;
  }

  // ---- A cleanup whose room is gone ----

  /**
   A handler at this point closes c, which need not be its own connection: a cleanup's list, an
   eviction, the idle cleaner's list.
   */
  predicate ClosesFor(pc: Pc, ch: Choice, c: Conn) {
    match pc
    case Exit(Closing(_, left)) => ch.pick in left && ch.pick.conn == c
    case Create(Evicting(host)) => host == c
    case Clean(IdleClose(hosts)) => c in hosts && ch.pick.conn == c
    case _ => false
  }

  /** Otherwise a step closes nothing but the connection of its own handler. */
  lemma StepClosesFor(s: Sys, t: Conn, ch: Choice, c: Conn)
    requires Valid(s) && t < |s.pcs| && c != t
    ensures c in Exec(s, t, ch).closed <==> c in s.closed || ClosesFor(s.pcs[t], ch, c)
  {
  }

  ghost predicate ClosedByOthers(s: Sys, run: seq<Action>, c: Conn)
    requires Inv(s)
  {
    run != [] &&
    var before, last := After(s, run[..|run| - 1]), run[|run| - 1];
    || ClosedByOthers(s, run[..|run| - 1], c)
    || (last.Step? && last.t < |before.pcs| && last.t != c && ClosesFor(before.pcs[last.t], last.ch, c))
  }

  lemma CleanupFindsNothing(s: Sys, t: Conn, ch: Choice)
    requires Valid(s) && t < |s.pcs| && s.pcs[t] == Exit(Cleanup) && s.locals[t].code !in s.shared.table
    ensures Exec(s, t, ch) == Goto(s, t, DONE)
  {
  }

  lemma DoneHandlersStay(s: Sys, a: Action, t: Conn)
    requires Valid(s) && t < |s.pcs| && s.pcs[t] == DONE
    ensures t < |Do(s, a).pcs| && Do(s, a).pcs[t] == DONE
    ensures t in Do(s, a).closed <==>
            t in s.closed || (a.Step? && a.t < |s.pcs| && a.t != t && ClosesFor(s.pcs[a.t], a.ch, t))
  {
    if a.Step? && a.t < |s.pcs| && a.t != t {
      StepClosesFor(s, a.t, a.ch, t);
    }
  }

  lemma {:induction false} DoneHandlersAreClosedByOthers(s: Sys, run: seq<Action>, t: Conn)
    requires Inv(s) && t < |s.pcs| && s.pcs[t] == DONE
    ensures t < |After(s, run).pcs| && After(s, run).pcs[t] == DONE
    ensures t in After(s, run).closed <==> t in s.closed || ClosedByOthers(s, run, t)
  {
    if run != [] {
      DoneHandlersAreClosedByOthers(s, run[..|run| - 1], t);
      DoneHandlersStay(After(s, run[..|run| - 1]), run[|run| - 1], t);
    }
  }

  /**
   Whether a handler's own connection gets closed. If the code is bound when the handler
   cleans up, its connection is closed by the end of the cleanup. If it is not, the handler
   is done at once, and in every continuation its connection is closed if and only if it was
   before, or another cleanup's list, an eviction or the idle cleaner's list names it.
   */
  lemma OwnConnectionsAreClosed(run: seq<Action>, t: Conn, ch: Choice, more: seq<Action>)
    requires t < |Reached(run).pcs| && Reached(run).pcs[t] == Exit(Cleanup)
    ensures var s, s1, s' := Reached(run), Reached(run + [Step(t, ch)]), Reached(run + [Step(t, ch)] + more);
            && t < |s'.pcs|
            && (if s.locals[t].code in s.shared.table
                then (s'.pcs[t].Exit? && s'.pcs[t].exit.Finished? ==> t in s'.closed)
                else s'.pcs[t] == DONE && (t in s'.closed <==> t in s.closed || ClosedByOthers(s1, more, t)))
  {
    if Reached(run).locals[t].code in Reached(run).shared.table {
      CleanupClosesItsList(run, t, ch, more);
    } else {
      InitSatisfiesInv();
      AfterLast(run, Step(t, ch));
      CleanupFindsNothing(Reached(run), t, ch);
      RunsCompose(INIT, run + [Step(t, ch)], more);
      DoneHandlersAreClosedByOthers(Reached(run + [Step(t, ch)]), more, t);
    }
  }
}
