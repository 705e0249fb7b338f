/**
 Room codes and the Room objects behind them, while stale handlers, cleaners and creators
 interleave: who may unbind a code, what a late cleanup can touch, and what names mean.
 */
module Rooms {
  import opened Options
  import opened Decimal
  import opened Store
  import opened Protocol
  import opened Invariant
  import opened Pairing

  // ---- Hosts ----

  /** HasHost agrees with Host, a host joined the room it hosts, and no connection hosts two Room objects. */
  ghost predicate SeatsAreUnique(heap: Heap) {
    && (forall r: RoomId :: r < |heap| ==> heap[r].hasHost == heap[r].host.Some?)
    && (forall r: RoomId, q: RoomId ::
          r < |heap| && q < |heap| && heap[r].host.Some? && heap[r].host == heap[q].host ==> r == q)
  }

  /** In every run a Room object gets at most one host, for good, and a connection hosts at most one Room object. */
  lemma HostsAreForLife(run: seq<Action>, more: seq<Action>)
    ensures SeatsAreUnique(Reached(run).shared.heap)
    ensures |Reached(run).shared.heap| <= |Reached(run + more).shared.heap|
    ensures forall r: RoomId :: r < |Reached(run).shared.heap| && Reached(run).shared.heap[r].host.Some? ==>
              Reached(run + more).shared.heap[r].host == Reached(run).shared.heap[r].host
  {
    InitSatisfiesInv();
    RunsCompose(INIT, run, more);
    RunGrows(Reached(run), more);
    var heap, ls := Reached(run).shared.heap, Reached(run).locals;
    assert forall r: RoomId :: r < |heap| ==> SeatOk(heap[r], ls, r);
  }

  // ---- The table ----

  /** The five ways a code can lose the Room object it is bound to. */
  datatype Cause = HostLeft | PrunedAsGhost | DeletedAsIdle | Reused | Kept

  function CauseOf(s: Sys, t: Conn, code: Code): Cause
    requires t < |s.pcs| && |s.pcs| == |s.locals| && Wired(s.shared) && code in s.shared.table
  {
    var room := s.shared.heap[s.shared.table[code]];
    match s.pcs[t]
    case Exit(Cleanup) => if code == s.locals[t].code && room.host == Some(t) then HostLeft else Kept
    case Clean(GhostPrune(stale)) => if code in stale && room.host.None? then PrunedAsGhost else Kept
    case Clean(IdleDelete(codes, _)) => if code in codes then DeletedAsIdle else Kept
    case Create(p) => if p != DrawCode && !p.Evicting? && code == s.locals[t].code then Reused else Kept
    case _ => Kept
  }

  /**
   Whatever thread moves, a code keeps its Room object unless its own host cleans up, the
   ghost cleaner finds it without a host at that very moment, the idle cleaner listed it, or
   the holder of its reuse token re-binds it to a new Room object. In particular the drawing
   of random codes never replaces a room, and no cleanup but the seated host's unbinds one.
   */
  lemma CodesKeepTheirRooms(s: Sys, t: Conn, ch: Choice, code: Code)
    requires Inv(s) && t < |s.pcs| && code in s.shared.table
    ensures var s', cause := Exec(s, t, ch), CauseOf(s, t, code);
            && (cause == Kept ==> code in s'.shared.table && s'.shared.table[code] == s.shared.table[code])
            && (cause == HostLeft ==> code !in s'.shared.table
                                      && s.locals[t].role == HostSignal
                                      && s.locals[t].room == Some(s.shared.table[code]))
            && (cause == PrunedAsGhost || cause == DeletedAsIdle ==> code !in s'.shared.table)
            && (cause == Reused ==> code in s.shared.issued
                                    || (code in s'.shared.table && s'.shared.table[code] == s.shared.table[code]))
  {
    assert HandlerOk(s.locals[t], s.pcs[t], |s.shared.heap|, s.shared.issued);
    var id := s.shared.table[code];
    assert SeatOk(s.shared.heap[id], s.locals, id);
  }

  /** Codes appear by creation only, each bound to a Room object that is new, empty and without a host. */
  lemma NewBindingsAreFresh(s: Sys, t: Conn, ch: Choice, code: Code)
    requires Inv(s) && t < |s.pcs| && code in Exec(s, t, ch).shared.table
    requires code in s.shared.table ==> Exec(s, t, ch).shared.table[code] != s.shared.table[code]
    ensures var s' := Exec(s, t, ch);
            && s.pcs[t].Create?
            && s'.shared.table[code] == |s.shared.heap| && s'.shared.heap == s.shared.heap + [EmptyRoom(ch.now)]
            && (forall other :: other in s'.shared.table && other != code ==>
                  other in s.shared.table && s'.shared.table[other] == s.shared.table[other])
            && (s.locals[t].role == FreshCreator ==> code !in s.shared.table && IsCode(code))
            && (s.locals[t].role == ReuseCreator ==>
                  code == s.locals[t].code && code in s.shared.issued && code != "676767")
  {
    assert HandlerOk(s.locals[t], s.pcs[t], |s.shared.heap|, s.shared.issued);
  }

  /** The holder of a reuse token is about to bind its code: no host has to be evicted, or one has been. */
  predicate Binds(s: Sys, t: Conn, ch: Choice)
    requires t < |s.pcs| && |s.pcs| == |s.locals| && Wired(s.shared)
  {
    || s.pcs[t] == Create(Rebind)
    || (s.pcs[t] == Create(CheckToken) && ch.ok && s.locals[t].code in s.shared.issued
        && s.locals[t].code != LUCKY_CODE && Evicted(s.shared, s.locals[t].code).None?)
  }

  /**
   However the reuse path got there, across its lock gap or without one, it ends with its
   code bound to a Room object that is new, empty and without a host, that no other code is
   bound to, while every other code keeps what it had.
   */
  lemma ReuseEndsWithFreshRoom(s: Sys, t: Conn, ch: Choice)
    requires Inv(s) && t < |s.pcs| && Binds(s, t, ch)
    ensures var s', code := Exec(s, t, ch), s.locals[t].code;
            && s'.pcs[t] == DONE && IsCode(code)
            && code in s'.shared.table && s'.shared.table[code] == |s.shared.heap|
            && s'.shared.heap == s.shared.heap + [EmptyRoom(ch.now)]
            && (forall other :: other != code ==> (other in s'.shared.table <==> other in s.shared.table))
            && (forall other :: other != code && other in s.shared.table ==>
                  s'.shared.table[other] == s.shared.table[other] && s'.shared.table[other] != s'.shared.table[code])
  {
    assert HandlerOk(s.locals[t], s.pcs[t], |s.shared.heap|, s.shared.issued);
  }

  /** No Room object is bound to two codes. */
  predicate OneCodeEach(table: map<Code, RoomId>) {
    forall a, b :: a in table && b in table && table[a] == table[b] ==> a == b
  }

  lemma StepKeepsOneCodeEach(s: Sys, t: Conn, ch: Choice)
    requires Inv(s) && t < |s.pcs| && OneCodeEach(s.shared.table)
    ensures OneCodeEach(Exec(s, t, ch).shared.table)
  {
    var s' := Exec(s, t, ch);
    forall a | a in s'.shared.table && !(a in s.shared.table && s'.shared.table[a] == s.shared.table[a])
      ensures s'.shared.table[a] == |s.shared.heap|
      ensures forall b :: b in s'.shared.table && b != a ==>
              b in s.shared.table && s'.shared.table[b] == s.shared.table[b]
    {
      NewBindingsAreFresh(s, t, ch, a);
    }
  }

  lemma {:induction false} RoomsHaveOneCodeEach(run: seq<Action>)
    ensures OneCodeEach(Reached(run).shared.table)
  {
    InitSatisfiesInv();
    if run != [] {
      var before, last := Reached(run[..|run| - 1]), run[|run| - 1];
      RoomsHaveOneCodeEach(run[..|run| - 1]);
      match last
      case Spawn(_, _, _) =>
      case Recall(_) =>
      case Step(t, ch) =>
        if t < |before.pcs| {
          StepKeepsOneCodeEach(before, t, ch);
        }
    }
  }

  // ---- Stale cleanups ----

  /**
   Generation safety. A handler whose code is bound to another Room object than the one it
   joined, if it joined any, closes nothing but its own connection in its cleanup, and leaves
   the table as it is. Signal connections of clients never join a Room object.
   */
  lemma StaleCleanupTouchesNothing(s: Sys, t: Conn, ch: Choice)
    requires Inv(s) && t < |s.pcs| && s.pcs[t] == Exit(Cleanup)
    requires s.locals[t].code in s.shared.table && s.locals[t].room != Some(s.shared.table[s.locals[t].code])
    ensures Exec(s, t, ch).shared == s.shared
    ensures var goal := {Closure(t, Unspecified)};
            Exec(s, t, ch).pcs[t] == Exit(Closing(goal, goal))
  {
    var heap, ls, id := s.shared.heap, s.locals, s.shared.table[s.locals[t].code];
    assert SeatOk(heap[id], ls, id);
    assert t in heap[id].c2h ==> EntryOk(heap, ls, id, t);
    assert t in heap[id].h2c ==> MirrorOk(heap, ls, id, t);
    assert CleanupClosures(heap[id], t, Unspecified) == {Closure(t, Unspecified)};
  }

  /** Only the seated host's cleanup writes the table: every other cleanup, stale or not, leaves it alone. */
  lemma OnlyTheHostUnbinds(s: Sys, t: Conn, ch: Choice)
    requires Inv(s) && t < |s.pcs| && s.pcs[t] == Exit(Cleanup)
    ensures Exec(s, t, ch).shared != s.shared <==>
            s.locals[t].code in s.shared.table && s.shared.heap[s.shared.table[s.locals[t].code]].host == Some(t)
  {
    var code := s.locals[t].code;
    if code in s.shared.table && s.shared.heap[s.shared.table[code]].host == Some(t) {
      assert code !in Exec(s, t, ch).shared.table;
    }
  }

  // ---- Names ----

  /** The name is the one that the client made of a number it drew and of its code. */
  ghost predicate Named(l: Locals) {
    IsCode(l.code) && exists n: nat :: n < 9_999_999 && l.name == RequestName(n, l.code)
  }

  /** A client past the gate has a six-digit code, and the name it files carries that code. */
  ghost predicate NameOk(l: Locals, pc: Pc) {
    l.role == ClientData ==>
      && (pc == Gate || pc == DONE || IsCode(l.code))
      && (l.asked || pc == Client(Filing) ==> Named(l))
  }

  ghost predicate NamesOk(s: Sys) {
    |s.locals| == |s.pcs| && forall t: Conn :: t < |s.pcs| ==> NameOk(s.locals[t], s.pcs[t])
  }

  lemma StepKeepsName(s: Sys, t: Conn, ch: Choice)
    requires Local(s) && t < |s.pcs| && NameOk(s.locals[t], s.pcs[t])
    ensures NameOk(Exec(s, t, ch).locals[t], Exec(s, t, ch).pcs[t])
  {
    assert HandlerOk(s.locals[t], s.pcs[t], |s.shared.heap|, s.shared.issued);
    if s.pcs[t] == Client(ReadHost) {
      var n := ch.draw % 9_999_999;
      assert Exec(s, t, ch).pcs[t] == Client(Filing) ==>
             Exec(s, t, ch).locals[t].name == RequestName(n, s.locals[t].code);
    }
  }

  lemma StepKeepsNames(s: Sys, t: Conn, ch: Choice)
    requires Local(s) && NamesOk(s) && t < |s.pcs|
    ensures NamesOk(Exec(s, t, ch))
  {
    StepKeepsName(s, t, ch);
  }

  lemma ActionKeepsNames(s: Sys, a: Action)
    requires Local(s) && NamesOk(s)
    ensures NamesOk(Do(s, a))
  {
    if a.Step? && a.t < |s.pcs| {
      StepKeepsNames(s, a.t, a.ch);
    }
  }

  lemma {:induction false} ReachedNamesOk(run: seq<Action>)
    ensures NamesOk(Reached(run))
  {
    InitSatisfiesInv();
    if run != [] {
      ReachedNamesOk(run[..|run| - 1]);
      ActionKeepsNames(Reached(run[..|run| - 1]), run[|run| - 1]);
    }
  }

  /**
   In every run only six-digit codes are bound or issued, and the name of every request on
   file is one its client made of a number and its own code; no other number and code make it.
   */
  lemma NamesAreUnambiguous(run: seq<Action>, r: RoomId, name: string)
    ensures forall code :: code in Reached(run).shared.table || code in Reached(run).shared.issued ==> IsCode(code)
    ensures r < |Reached(run).shared.heap| && name in Reached(run).shared.heap[r].requests ==>
              var c := Reached(run).shared.heap[r].requests[name];
              && c < |Reached(run).locals| && IsCode(Reached(run).locals[c].code)
              && exists n: nat :: n < 9_999_999 && name == RequestName(n, Reached(run).locals[c].code)
                                  && forall m: nat, code :: IsCode(code) && name == RequestName(m, code) ==>
                                       m == n && code == Reached(run).locals[c].code
  {
    ReachedNamesOk(run);
    var s := Reached(run);
    assert CodesOk(s.shared);
    if r < |s.shared.heap| && name in s.shared.heap[r].requests {
      var c := s.shared.heap[r].requests[name];
      assert RequestOk(s.shared.heap, s.locals, r, name) && NameOk(s.locals[c], s.pcs[c]);
      var n: nat :| n < 9_999_999 && name == RequestName(n, s.locals[c].code);
      forall m: nat, code | IsCode(code) && name == RequestName(m, code)
        ensures m == n && code == s.locals[c].code
      {
        RequestNamesCollideOnlyOnEqualDraws(m, code, n, s.locals[c].code);
      }
    }
  }
}
