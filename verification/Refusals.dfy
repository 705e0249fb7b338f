/**
 Which connections the relay turns away, and that it closes every one of them. With the
 closing lists these are all the ways in which a connection is ever closed.
 */
module Refusals {
  import opened Options
  import opened Store
  import opened Protocol
  import opened Invariant
  import opened Teardown

  predicate Unbound(s: Sys, t: Conn)
    requires t < |s.locals|
  {
    s.locals[t].code !in s.shared.table
  }

  /**
   The next step of this handler turns its connection away: at the gate and at every later
   lookup, when the code is unbound; a client, when the room has no host; a data connection,
   when its name is not on file or its client has not entered itself; a host, when the room
   has one; a client's signal connection, when the room has no host.
   */
  predicate Refuses(s: Sys, t: Conn)
    requires Valid(s) && t < |s.pcs|
  {
    var l := s.locals[t];
    assert PcWired(l, s.pcs[t], |s.shared.heap|);
    match s.pcs[t]
    case Gate => Unbound(s, t)
    case Client(FindRoom) => Unbound(s, t)
    case Client(ReadHost) => s.shared.heap[l.room.value].host.None?
    case Data(TakeFind) => Unbound(s, t)
    case Data(Taking) => l.name !in s.shared.heap[l.room.value].requests
    case Data(Linking) => l.client.value !in s.shared.heap[l.room.value].c2h
    case Signal(Join) => Unbound(s, t) || s.shared.heap[s.shared.table[l.code]].host.Some?
    case Signal(SignalFind) => l.role == ClientSignal && Unbound(s, t)
    case Signal(SignalHost(seen)) => s.shared.heap[seen].host.None?
    case _ => false
  }

  /** Where a refusal leads: to the end, to the way out, or past the deferred decrement. */
  function AfterRefusal(pc: Pc): Pc {
    match pc
    case Client(_) => Exit(Leave)
    case Signal(p) => if p.Join? then DONE else Exit(Bailed)
    case _ => DONE
  }

  lemma SeatsTell(s: Sys, r: RoomId)
    requires Inv(s) && r < |s.shared.heap|
    ensures s.shared.heap[r].hasHost == s.shared.heap[r].host.Some?
  {
    assert SeatOk(s.shared.heap[r], s.locals, r);
  }

  /**
   A handler closes its own connection exactly when it refuses it, or off a list; and who is
   refused goes no further.
   */
  lemma RefusalsClose(s: Sys, t: Conn, ch: Choice)
    requires Inv(s) && t < |s.pcs|
    ensures t in Exec(s, t, ch).closed <==> t in s.closed || Refuses(s, t) || ClosesFor(s.pcs[t], ch, t)
    ensures Refuses(s, t) ==> Exec(s, t, ch).pcs[t] == AfterRefusal(s.pcs[t])
  {
    assert PcWired(s.locals[t], s.pcs[t], |s.shared.heap|);
    if s.pcs[t].Signal? {
      if s.pcs[t].signal.SignalHost? {
        SeatsTell(s, s.pcs[t].signal.seen);
      }
      SignalRefusalsClose(s, t, ch);
    } else {
      OtherRefusalsClose(s, t, ch);
    }
  }

  lemma SignalRefusalsClose(s: Sys, t: Conn, ch: Choice)
    requires Valid(s) && t < |s.pcs| && s.pcs[t].Signal?
    requires s.pcs[t].signal.SignalHost? ==>
               s.shared.heap[s.pcs[t].signal.seen].hasHost == s.shared.heap[s.pcs[t].signal.seen].host.Some?
    ensures t in Exec(s, t, ch).closed <==> t in s.closed || Refuses(s, t)
    ensures Refuses(s, t) ==> Exec(s, t, ch).pcs[t] == AfterRefusal(s.pcs[t])
  {
  }

  lemma OtherRefusalsClose(s: Sys, t: Conn, ch: Choice)
    requires Valid(s) && t < |s.pcs| && !s.pcs[t].Signal?
    ensures t in Exec(s, t, ch).closed <==> t in s.closed || Refuses(s, t) || ClosesFor(s.pcs[t], ch, t)
    ensures Refuses(s, t) ==> Exec(s, t, ch).pcs[t] == AfterRefusal(s.pcs[t])
  {
  }

  // ---- Along runs ----

  predicate RefusesNow(s: Sys, a: Action, t: Conn)
    requires Valid(s)
  {
    a.Step? && a.t == t && t < |s.pcs| && Refuses(s, t)
  }

  ghost predicate Refused(run: seq<Action>, t: Conn) {
    run != [] && (Refused(run[..|run| - 1], t) || RefusesNow(Reached(run[..|run| - 1]), run[|run| - 1], t))
  }

  /** A cleanup's list, an eviction or the idle cleaner's list closed the connection. */
  ghost predicate ClosedOffList(run: seq<Action>, c: Conn) {
    run != [] &&
    var before, last := Reached(run[..|run| - 1]), run[|run| - 1];
    ClosedOffList(run[..|run| - 1], c)
      || (last.Step? && last.t < |before.pcs| && ClosesFor(before.pcs[last.t], last.ch, c))
  }

  lemma ActionCloses(s: Sys, a: Action, c: Conn)
    requires Inv(s)
    ensures c in Do(s, a).closed <==>
            c in s.closed || RefusesNow(s, a, c) || (a.Step? && a.t < |s.pcs| && ClosesFor(s.pcs[a.t], a.ch, c))
  {
    if a.Step? && a.t < |s.pcs| {
      if a.t == c {
        RefusalsClose(s, c, a.ch);
      } else {
        StepClosesFor(s, a.t, a.ch, c);
      }
    }
  }

  /** In every run a connection is closed if and only if it was refused, or a list or an eviction named it. */
  lemma {:induction false} ClosedExactly(run: seq<Action>, c: Conn)
    ensures c in Reached(run).closed <==> Refused(run, c) || ClosedOffList(run, c)
  {
    InitSatisfiesInv();
    if run != [] {
      ClosedExactly(run[..|run| - 1], c);
      ActionCloses(Reached(run[..|run| - 1]), run[|run| - 1], c);
    }
  }

  /** The handler has begun its cleanup. */
  ghost predicate CleanedUp(run: seq<Action>, t: Conn) {
    run != [] &&
    var before, last := Reached(run[..|run| - 1]), run[|run| - 1];
    CleanedUp(run[..|run| - 1], t) || (last.Step? && last.t == t && t < |before.pcs| && before.pcs[t] == Exit(Cleanup))
  }

  predicate Connects(role: Role) {
    role == ClientData || role == HostData || role == HostSignal || role == ClientSignal
  }

  /** At an end of a handler's way: past a cleanup, or turned away. */
  predicate AtEnd(l: Locals, pc: Pc) {
    pc.Exit? && (pc.exit.Closing? || pc.exit.Finished? || (pc.exit.Bailed? && l.role == ClientSignal))
  }

  /** Only refusals and cleanups lead there. */
  lemma StepEnds(s: Sys, t: Conn, ch: Choice)
    requires Inv(s) && t < |s.pcs| && Connects(s.locals[t].role)
    ensures Connects(Exec(s, t, ch).locals[t].role)
    ensures AtEnd(Exec(s, t, ch).locals[t], Exec(s, t, ch).pcs[t]) ==>
              AtEnd(s.locals[t], s.pcs[t]) || Refuses(s, t) || s.pcs[t] == Exit(Cleanup)
  {
    assert HandlerOk(s.locals[t], s.pcs[t], |s.shared.heap|, s.shared.issued);
    if s.pcs[t].Signal? {
      if s.pcs[t].signal.SignalHost? {
        SeatsTell(s, s.pcs[t].signal.seen);
      }
      SignalEnds(s, t, ch);
    } else {
      OtherEnds(s, t, ch);
    }
  }

  lemma SignalEnds(s: Sys, t: Conn, ch: Choice)
    requires Valid(s) && t < |s.pcs| && s.pcs[t].Signal?
    requires s.pcs[t].signal.SignalHost? ==>
               s.shared.heap[s.pcs[t].signal.seen].hasHost == s.shared.heap[s.pcs[t].signal.seen].host.Some?
    ensures Exec(s, t, ch).locals[t].role == s.locals[t].role
    ensures AtEnd(Exec(s, t, ch).locals[t], Exec(s, t, ch).pcs[t]) ==> Refuses(s, t)
  {
  }

  lemma OtherEnds(s: Sys, t: Conn, ch: Choice)
    requires Valid(s) && t < |s.pcs| && !s.pcs[t].Signal? && PcOk(s.locals[t], s.pcs[t]) && Connects(s.locals[t].role)
    ensures Exec(s, t, ch).locals[t].role == s.locals[t].role
    ensures AtEnd(Exec(s, t, ch).locals[t], Exec(s, t, ch).pcs[t]) ==>
              AtEnd(s.locals[t], s.pcs[t]) || Refuses(s, t) || s.pcs[t] == Exit(Cleanup)
  {
  }

  lemma {:induction false} EndsAreRefusalsOrCleanups(run: seq<Action>, t: Conn)
    requires t < |Reached(run).pcs| && Connects(Reached(run).locals[t].role)
    requires AtEnd(Reached(run).locals[t], Reached(run).pcs[t])
    ensures Refused(run, t) || CleanedUp(run, t)
  {
    InitSatisfiesInv();
    if run != [] {
      var before, last := Reached(run[..|run| - 1]), run[|run| - 1];
      if t < |before.pcs| {
        RolesStay(before, last, t);
        if last.Step? && last.t == t {
          StepEnds(before, t, last.ch);
        }
        if AtEnd(before.locals[t], before.pcs[t]) {
          EndsAreRefusalsOrCleanups(run[..|run| - 1], t);
        }
      }
    }
  }

  lemma RolesStay(s: Sys, a: Action, t: Conn)
    requires Valid(s) && t < |s.pcs|
    ensures t < |Do(s, a).locals| && Do(s, a).locals[t].role == s.locals[t].role
  {
    if a.Step? && a.t < |s.pcs| && s.pcs[a.t].Client? {
      ClientsKeepRoles(s, a.t, a.ch);
    }
  }

  lemma ClientsKeepRoles(s: Sys, t: Conn, ch: Choice)
    requires Valid(s) && t < |s.pcs| && s.pcs[t].Client?
    ensures Exec(s, t, ch).locals[t].role == s.locals[t].role
  {
  }

  /**
   Nobody is turned away and left open. In every run a connection whose handler is done, or a
   client's signal connection whose handler bailed out, without a cleanup has been refused,
   and has been closed; and whoever was refused, clients on their way to the cleanup included,
   is closed.
   */
  lemma TurnedAwayMeansClosed(run: seq<Action>, t: Conn)
    requires t < |Reached(run).pcs| && Connects(Reached(run).locals[t].role)
    ensures AtEnd(Reached(run).locals[t], Reached(run).pcs[t]) && !CleanedUp(run, t) ==> Refused(run, t)
    ensures Refused(run, t) ==> t in Reached(run).closed
  {
    ClosedExactly(run, t);
    if AtEnd(Reached(run).locals[t], Reached(run).pcs[t]) {
      EndsAreRefusalsOrCleanups(run, t);
    }
  }
}
