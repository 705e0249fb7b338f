/**
 How a tunnel ends. From the moment a forwarding loop stops, anybody may close the partner:
 the handler's own cleanup, the other end's, the host's, an eviction, the idle cleaner. Who did
 decides nothing about what the partner sees; that it was closed does.
 */
module Parting {
  import opened Options
  import opened Store
  import opened Protocol
  import opened Invariant
  import opened Pairing
  import opened Teardown
  import Rooms
  import Forwarding

  predicate Names(goal: set<Closure>, c: Conn) {
    exists p :: p in goal && p.conn == c
  }

  /** The code is bound to the Room object that the handler joined. */
  predicate AtHome(s: Sys, t: Conn)
    requires t < |s.locals|
  {
    s.locals[t].code in s.shared.table && s.locals[t].room == Some(s.shared.table[s.locals[t].code])
  }

  lemma PartnersAreLinked(s: Sys, t: Conn)
    requires Inv(s) && t < |s.pcs| && s.locals[t].partner.Some?
    ensures s.locals[t].room.Some?
    ensures var p, r := s.locals[t].partner.value, s.locals[t].room.value;
            && p != t
            && (if s.locals[t].role == ClientData then Linked(s.shared.heap, r, t, p)
                else Linked(s.shared.heap, r, p, t) && t in s.shared.heap[r].h2c)
  {
    var heap, ls, p := s.shared.heap, s.locals, s.locals[t].partner.value;
    assert ThreadOk(heap, ls, ls[t], t);
    if ls[t].role == ClientData {
      LinkedMeansTaken(heap, ls, ls[t].room.value, t, p);
    } else {
      LinkedMeansTaken(heap, ls, ls[t].room.value, p, t);
    }
  }

  // ---- The handler's own cleanup ----

  /** How far a handler has got after its loop; home says whether it has cleaned up at home. */
  predicate Departing(pc: Pc, p: Conn, home: bool) {
    match pc
    case Exit(Leave) => !home
    case Exit(Cleanup) => !home
    case Exit(Closing(goal, left)) => left <= goal && (Names(goal, p) <==> home)
    case Exit(Finished(goal)) => Names(goal, p) <==> home
    case _ => false
  }

  /**
   The cleanup of a forwarding handler names its partner exactly when its code is still bound
   to the room it joined.
   */
  lemma CleanupNamesPartnerExactly(s: Sys, t: Conn, ch: Choice)
    requires Inv(s) && t < |s.pcs| && s.pcs[t] == Exit(Cleanup) && s.locals[t].partner.Some?
    ensures Departing(Exec(s, t, ch).pcs[t], s.locals[t].partner.value, AtHome(s, t))
  {
    var p := s.locals[t].partner.value;
    PartnersAreLinked(s, t);
    if AtHome(s, t) {
      var r, client := s.locals[t].room.value, s.locals[t].role == ClientData;
      EndsListEachOther(s.shared.heap, s.locals, r, if client then t else p, if client then p else t, t);
      CleanupBegins(s, t, ch);
      var goal := CleanupClosures(s.shared.heap[r], t, Unspecified);
      assert Closure(p, ClientDisconnected) in goal;
    } else if s.locals[t].code in s.shared.table {
      Rooms.StaleCleanupTouchesNothing(s, t, ch);
    } else {
      CleanupFindsNothing(s, t, ch);
    }
  }

  lemma StepDeparts(s: Sys, t: Conn, ch: Choice, p: Conn, home: bool)
    requires Inv(s) && t < |s.pcs| && s.locals[t].partner == Some(p) && Departing(s.pcs[t], p, home)
    ensures Departing(Exec(s, t, ch).pcs[t], p, home || (s.pcs[t] == Exit(Cleanup) && AtHome(s, t)))
  {
    if s.pcs[t] == Exit(Cleanup) {
      CleanupNamesPartnerExactly(s, t, ch);
    }
  }

  /** The action begins the handler's cleanup while its code is bound to the room it joined. */
  predicate CleansUpAtHome(s: Sys, a: Action, t: Conn)
    requires |s.pcs| == |s.locals|
  {
    a.Step? && a.t == t && t < |s.pcs| && s.pcs[t] == Exit(Cleanup) && AtHome(s, t)
  }

  /** Along the run, the handler began its cleanup while its code was bound to the room it joined. */
  ghost predicate CleanedUpAtHome(s: Sys, run: seq<Action>, t: Conn)
    requires Inv(s)
  {
    run != [] &&
    (CleanedUpAtHome(s, run[..|run| - 1], t) || CleansUpAtHome(After(s, run[..|run| - 1]), run[|run| - 1], t))
  }

  lemma ActionDeparts(s: Sys, a: Action, t: Conn, p: Conn, home: bool)
    requires Inv(s) && t < |s.pcs| && s.locals[t].partner == Some(p) && Departing(s.pcs[t], p, home)
    ensures t < |Do(s, a).pcs| == |Do(s, a).locals| && Do(s, a).locals[t].partner == Some(p)
    ensures Departing(Do(s, a).pcs[t], p, home || CleansUpAtHome(s, a, t))
  {
    ActionGrows(s, a);
    if a.Step? && a.t == t {
      StepDeparts(s, t, a.ch, p, home);
    }
  }

  lemma {:induction false} RunDeparts(s: Sys, run: seq<Action>, t: Conn, p: Conn)
    requires Inv(s) && t < |s.pcs| && s.locals[t].partner == Some(p) && Departing(s.pcs[t], p, false)
    ensures t < |After(s, run).pcs| && After(s, run).locals[t].partner == Some(p)
    ensures Departing(After(s, run).pcs[t], p, CleanedUpAtHome(s, run, t))
  {
    if run != [] {
      var init := run[..|run| - 1];
      RunDeparts(s, init, t, p);
      ActionDeparts(After(s, init), run[|run| - 1], t, p, CleanedUpAtHome(s, init, t));
    }
  }

  // ---- Everybody else ----

  /** The action closes c off a cleanup's list, as an eviction, or off the idle cleaner's list. */
  predicate Closes(s: Sys, a: Action, c: Conn) {
    a.Step? && a.t < |s.pcs| && ClosesFor(s.pcs[a.t], a.ch, c)
  }

  /** The handlers that did so along the run. */
  ghost function Closers(s: Sys, run: seq<Action>, c: Conn): set<Conn>
    requires Inv(s)
  {
    if run == [] then {}
    else
      Closers(s, run[..|run| - 1], c) +
      (if Closes(After(s, run[..|run| - 1]), run[|run| - 1], c) then {run[|run| - 1].t} else {})
  }

  /** The ends of a link are closed in no other way: they are past all refusals. */
  lemma StepClosesEnd(s: Sys, u: Conn, ch: Choice, r: RoomId, c: Conn, h: Conn, x: Conn)
    requires Inv(s) && u < |s.pcs| && Linked(s.shared.heap, r, c, h) && (x == c || x == h)
    ensures x in Exec(s, u, ch).closed <==> x in s.closed || ClosesFor(s.pcs[u], ch, x)
  {
    if u != x {
      StepClosesFor(s, u, ch, x);
    } else {
      LinkedMeansTaken(s.shared.heap, s.locals, r, c, h);
      assert HandlerOk(s.locals[x], s.pcs[x], |s.shared.heap|, s.shared.issued);
      LinkedEndsCloseOffLists(s, x, ch);
    }
  }

  lemma LinkedEndsCloseOffLists(s: Sys, x: Conn, ch: Choice)
    requires Valid(s) && x < |s.pcs| && PcOk(s.locals[x], s.pcs[x])
    requires (s.locals[x].role == ClientData && s.locals[x].listed)
             || (s.locals[x].role == HostData && s.locals[x].linked)
    ensures x in Exec(s, x, ch).closed <==> x in s.closed || ClosesFor(s.pcs[x], ch, x)
  {
  }

  lemma ActionClosesEnd(s: Sys, a: Action, r: RoomId, c: Conn, h: Conn, x: Conn)
    requires Inv(s) && Linked(s.shared.heap, r, c, h) && (x == c || x == h)
    ensures x in Do(s, a).closed <==> x in s.closed || Closes(s, a, x)
    ensures Linked(Do(s, a).shared.heap, r, c, h)
  {
    ActionGrows(s, a);
    if a.Step? && a.t < |s.pcs| {
      StepClosesEnd(s, a.t, a.ch, r, c, h, x);
    }
  }

  /** An end of a link that was open is closed later exactly if some handler closed it on the way. */
  lemma {:induction false} RunClosesEnd(s: Sys, run: seq<Action>, r: RoomId, c: Conn, h: Conn, x: Conn)
    requires Inv(s) && Linked(s.shared.heap, r, c, h) && (x == c || x == h) && x !in s.closed
    ensures x in After(s, run).closed <==> Closers(s, run, x) != {}
    ensures Linked(After(s, run).shared.heap, r, c, h)
  {
    if run != [] {
      RunClosesEnd(s, run[..|run| - 1], r, c, h, x);
      ActionClosesEnd(After(s, run[..|run| - 1]), run[|run| - 1], r, c, h, x);
    }
  }

  /** The handler's own list closes the partner only after a cleanup at home. */
  lemma {:induction false} OwnListIsFromHome(s: Sys, run: seq<Action>, t: Conn, p: Conn)
    requires Inv(s) && t < |s.pcs| && s.locals[t].partner == Some(p) && Departing(s.pcs[t], p, false)
    requires t in Closers(s, run, p)
    ensures CleanedUpAtHome(s, run, t)
  {
    var init := run[..|run| - 1];
    if t in Closers(s, init, p) {
      OwnListIsFromHome(s, init, t, p);
    } else {
      RunDeparts(s, init, t, p);
    }
  }

  /** A cleanup at home that is through has closed the partner. */
  lemma DepartedAtHome(s: Sys, t: Conn, p: Conn)
    requires AllShown(s) && t < |s.pcs| && Departing(s.pcs[t], p, true) && s.pcs[t].exit.Finished?
    ensures p in s.closed
  {
    assert ProgressShown(s.pcs[t], s.closed);
  }

  // ---- From the stop on ----

  /** After the stop of a loop the handler is on its way out. */
  lemma StopDeparts(s: Sys, t: Conn, ch: Choice, p: Conn)
    requires Inv(s) && t < |s.pcs| && s.pcs[t] == Exit(Forwarding) && !ch.ok && s.locals[t].partner == Some(p)
    ensures var s1 := Exec(s, t, ch);
            Departing(s1.pcs[t], p, false) && s1.locals == s.locals && s1.closed == s.closed && s1.shared == s.shared
  {
  }

  /**
   Who closes the partner of a loop that stopped. Take any run in which a loop stops while its
   partner is open, and any continuation. The partner is closed in the end if and only if some
   handler closed it on the way: the loop's own only if its cleanup began while its code was
   bound to the room it joined, and then, by the time it is through, in any case; or any
   other, the partner's own included.
   */
  lemma PartnersAreClosedExactly(run: seq<Action>, t: Conn, ch: Choice, more: seq<Action>, p: Conn)
    requires t < |Reached(run).pcs| && Reached(run).pcs[t] == Exit(Forwarding) && !ch.ok
    requires Reached(run).locals[t].partner == Some(p) && p !in Reached(run).closed
    ensures var s1, s' := Reached(run + [Step(t, ch)]), Reached(run + [Step(t, ch)] + more);
            && t < |s'.pcs|
            && (p in s'.closed <==> Closers(s1, more, p) != {})
            && (t in Closers(s1, more, p) ==> CleanedUpAtHome(s1, more, t))
            && (CleanedUpAtHome(s1, more, t) && s'.pcs[t].Exit? && s'.pcs[t].exit.Finished? ==> p in s'.closed)
  {
    InitSatisfiesInv();
    AfterLast(run, Step(t, ch));
    RunsCompose(INIT, run + [Step(t, ch)], more);
    StopDeparts(Reached(run), t, ch, p);
    var s1 := Reached(run + [Step(t, ch)]);
    RunDeparts(s1, more, t, p);
    PartnerIsEnd(s1, more, t, p);
    if t in Closers(s1, more, p) {
      OwnListIsFromHome(s1, more, t, p);
    }
    FinishedCleanupsClosedAll(run + [Step(t, ch)] + more);
    var s' := Reached(run + [Step(t, ch)] + more);
    if CleanedUpAtHome(s1, more, t) && s'.pcs[t].exit.Finished? {
      DepartedAtHome(s', t, p);
    }
  }

  lemma PartnerIsEnd(s: Sys, run: seq<Action>, t: Conn, p: Conn)
    requires Inv(s) && t < |s.pcs| && s.locals[t].partner == Some(p) && p !in s.closed
    ensures p in After(s, run).closed <==> Closers(s, run, p) != {}
  {
    PartnersAreLinked(s, t);
    var r := s.locals[t].room.value;
    if s.locals[t].role == ClientData {
      RunClosesEnd(s, run, r, t, p, p);
    } else {
      RunClosesEnd(s, run, r, p, t, p);
    }
  }

  /**
   What the partner sees of a loop, on every script and in every run: the binary messages
   before the stop; and, exactly if the loop stopped inside a message, somebody closes the
   partner after that and it takes the close frame, what was copied of that message, as if it
   were one.
   */
  lemma StoppedLoopsFinaliseTheirLastMessage(
      run: seq<Action>, t: Conn, ch: Choice, more: seq<Action>, p: Conn,
      script: seq<Forwarding.Turn>, config: Forwarding.Config, n: nat, ok: bool)
    requires t < |Reached(run).pcs| && Reached(run).pcs[t] == Exit(Forwarding) && !ch.ok
    requires Reached(run).locals[t].partner == Some(p) && p !in Reached(run).closed
    requires Forwarding.EndsAt(script, config, n)
    ensures var s1, s' := Reached(run + [Step(t, ch)]), Reached(run + [Step(t, ch)] + more);
            var left := Forwarding.LeftOpen(script, config, n);
            Forwarding.Seen(script, config, n, p in s'.closed, ok) ==
            Forwarding.BinaryMessages(script[..Forwarding.Sound(script, n)]) +
            (if Closers(s1, more, p) != {} && ok && left.Some? then [left.value] else [])
  {
    PartnersAreClosedExactly(run, t, ch, more, p);
    Forwarding.PartnerSees(script, config, n, p in Reached(run + [Step(t, ch)] + more).closed, ok);
  }
}
