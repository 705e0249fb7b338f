/**
 NumberOfClientsConnected over runs: it is raised in HandleRelay before the handler starts
 and lowered by a deferred call, which the signal handlers register only after their first
 early returns.
 */
module Accounting {
  import opened Store
  import opened Protocol
  import opened Invariant
  import opened Scenarios

  /** Handlers between the counter's increment and their deferred decrement. */
  predicate Running(l: Locals, pc: Pc) {
    match pc
    case Client(_) => true
    case Poll(_) => true
    case Sweep(_) => true
    case Signal(p) => p != Join
    case Serve(_) => true
    case Exit(p) => p.Leave? || (p.Forwarding? && l.role == ClientData)
    case _ => false
  }

  /** Signal handlers that returned before they registered the decrement. */
  predicate GaveUp(l: Locals, pc: Pc) {
    pc == Exit(Bailed)
  }

  function Count(ls: seq<Locals>, pcs: seq<Pc>, p: (Locals, Pc) -> bool): nat
    requires |ls| == |pcs|
  {
    if ls == [] then 0
    else Count(ls[..|ls| - 1], pcs[..|pcs| - 1], p) + (if p(ls[|ls| - 1], pcs[|pcs| - 1]) then 1 else 0)
  }

  function Weight(l: Locals, pc: Pc, p: (Locals, Pc) -> bool): nat {
    if p(l, pc) then 1 else 0
  }

  /** When one entry changes, the count changes by that entry. */
  lemma {:induction false} CountMoves(ls: seq<Locals>, pcs: seq<Pc>, ls': seq<Locals>, pcs': seq<Pc>, t: nat,
                                         p: (Locals, Pc) -> bool)
    requires t < |ls| == |pcs| == |ls'| == |pcs'|
    requires forall u: nat :: u < |ls| && u != t ==> ls'[u] == ls[u] && pcs'[u] == pcs[u]
    ensures Count(ls', pcs', p) - Weight(ls'[t], pcs'[t], p) == Count(ls, pcs, p) - Weight(ls[t], pcs[t], p)
  {
    var n := |ls| - 1;
    if t < n {
      CountMoves(ls[..n], pcs[..n], ls'[..n], pcs'[..n], t, p);
    } else {
      assert ls'[..n] == ls[..n] && pcs'[..n] == pcs[..n];
    }
  }

  /** A handler that arrives adds its own weight. */
  lemma CountArrives(ls: seq<Locals>, pcs: seq<Pc>, l: Locals, pc: Pc, p: (Locals, Pc) -> bool)
    requires |ls| == |pcs|
    ensures Count(ls + [l], pcs + [pc], p) == Count(ls, pcs, p) + Weight(l, pc, p)
  {
    assert (ls + [l])[..|ls|] == ls && (pcs + [pc])[..|pcs|] == pcs;
  }

  /** The counter is the number of running counted handlers plus the number of signal handlers that bailed out. */
  ghost predicate Balanced(s: Sys)
    requires |s.locals| == |s.pcs|
  {
    s.count == Count(s.locals, s.pcs, Running) + Count(s.locals, s.pcs, GaveUp)
  }

  /** Entering counts a handler, leaving discounts it. */
  lemma CountedStepMoves(s: Sys, t: Conn, ch: Choice)
    requires Local(s) && t < |s.pcs| && (s.pcs[t].Enter? || s.pcs[t].Exit?)
    ensures CountMovesWith(s, Exec(s, t, ch), t)
  {
    assert HandlerOk(s.locals[t], s.pcs[t], |s.shared.heap|, s.shared.issued);
  }

  lemma ClientStepMoves(s: Sys, t: Conn, ch: Choice)
    requires Local(s) && t < |s.pcs| && (s.pcs[t].Client? || s.pcs[t].Poll? || s.pcs[t].Sweep?)
    ensures CountMovesWith(s, Exec(s, t, ch), t)
  {
    assert HandlerOk(s.locals[t], s.pcs[t], |s.shared.heap|, s.shared.issued);
  }

  lemma DataStepMoves(s: Sys, t: Conn, ch: Choice)
    requires Local(s) && t < |s.pcs| && (s.pcs[t].Gate? || s.pcs[t].Data? || s.pcs[t].Seek?)
    ensures CountMovesWith(s, Exec(s, t, ch), t)
  {
    assert HandlerOk(s.locals[t], s.pcs[t], |s.shared.heap|, s.shared.issued);
  }

  lemma SignalStepMoves(s: Sys, t: Conn, ch: Choice)
    requires Local(s) && t < |s.pcs| && (s.pcs[t].Signal? || s.pcs[t].Serve?)
    ensures CountMovesWith(s, Exec(s, t, ch), t)
  {
    assert HandlerOk(s.locals[t], s.pcs[t], |s.shared.heap|, s.shared.issued);
  }

  lemma TableStepMoves(s: Sys, t: Conn, ch: Choice)
    requires Local(s) && t < |s.pcs| && (s.pcs[t].Create? || s.pcs[t].Clean?)
    ensures CountMovesWith(s, Exec(s, t, ch), t)
  {
    assert HandlerOk(s.locals[t], s.pcs[t], |s.shared.heap|, s.shared.issued);
  }

  lemma StepMoves(s: Sys, t: Conn, ch: Choice)
    requires Local(s) && t < |s.pcs|
    ensures CountMovesWith(s, Exec(s, t, ch), t)
  {
    match s.pcs[t]
    case Enter => CountedStepMoves(s, t, ch);
    case Exit(_) => CountedStepMoves(s, t, ch);
    case Client(_) => ClientStepMoves(s, t, ch);
    case Poll(_) => ClientStepMoves(s, t, ch);
    case Sweep(_) => ClientStepMoves(s, t, ch);
    case Signal(_) => SignalStepMoves(s, t, ch);
    case Serve(_) => SignalStepMoves(s, t, ch);
    case Create(_) => TableStepMoves(s, t, ch);
    case Clean(_) => TableStepMoves(s, t, ch);
    case _ => DataStepMoves(s, t, ch);
  }

  /** A step changes the counter by what it changes for its own thread. */
  predicate CountMovesWith(s: Sys, s': Sys, t: Conn)
    requires t < |s.locals| == |s.pcs| == |s'.locals| == |s'.pcs|
  {
    s'.count - Weight(s'.locals[t], s'.pcs[t], Running) - Weight(s'.locals[t], s'.pcs[t], GaveUp)
    == s.count - Weight(s.locals[t], s.pcs[t], Running) - Weight(s.locals[t], s.pcs[t], GaveUp)
  }

  lemma StepKeepsBalance(s: Sys, t: Conn, ch: Choice)
    requires Local(s) && Balanced(s) && t < |s.pcs|
    ensures Balanced(Exec(s, t, ch))
  {
    var s' := Exec(s, t, ch);
    StepMoves(s, t, ch);
    CountMoves(s.locals, s.pcs, s'.locals, s'.pcs, t, Running);
    CountMoves(s.locals, s.pcs, s'.locals, s'.pcs, t, GaveUp);
  }

  /** A handler that arrives is not counted yet. */
  lemma SpawnKeepsBalance(s: Sys, role: Role, code: Code, name: string)
    requires |s.locals| == |s.pcs| && Balanced(s)
    ensures var l, pc := StartLocals(role, code, name), StartPc(role);
            s.count == Count(s.locals + [l], s.pcs + [pc], Running) + Count(s.locals + [l], s.pcs + [pc], GaveUp)
  {
    var l, pc := StartLocals(role, code, name), StartPc(role);
    CountArrives(s.locals, s.pcs, l, pc, Running);
    CountArrives(s.locals, s.pcs, l, pc, GaveUp);
  }

  lemma ActionKeepsBalance(s: Sys, a: Action)
    requires Local(s) && Balanced(s)
    ensures |Do(s, a).locals| == |Do(s, a).pcs| && Balanced(Do(s, a))
  {
    match a
    case Spawn(role, code, name) => SpawnKeepsBalance(s, role, code, name);
    case Recall(_) =>
    case Step(t, ch) =>
      if t < |s.pcs| {
        StepKeepsBalance(s, t, ch);
      }
  }

  lemma {:induction false} ReachedBalanced(run: seq<Action>)
    ensures Balanced(Reached(run))
  {
    InitSatisfiesInv();
    if run != [] {
      ReachedBalanced(run[..|run| - 1]);
      ActionKeepsBalance(Reached(run[..|run| - 1]), run[|run| - 1]);
    }
  }

  lemma {:induction false} NoneCounted(ls: seq<Locals>, pcs: seq<Pc>)
    requires |ls| == |pcs|
    ensures Count(ls, pcs, GaveUp) == 0 <==> forall t: Conn :: t < |pcs| ==> pcs[t] != Exit(Bailed)
  {
    if ls != [] {
      var n := |ls| - 1;
      NoneCounted(ls[..n], pcs[..n]);
      assert forall t: Conn :: t < n ==> pcs[..n][t] == pcs[t];
      assert GaveUp(ls[n], pcs[n]) <==> pcs[n] == Exit(Bailed);
    }
  }

  /**
   In every run the counter equals the running counted handlers plus the signal handlers
   that bailed out before their decrement; so it never falls below the live count, and it
   is exact if and only if no signal handler has bailed out.
   */
  lemma CounterCountsHandlers(run: seq<Action>)
    ensures Balanced(Reached(run))
    ensures Reached(run).count >= Count(Reached(run).locals, Reached(run).pcs, Running)
    ensures Reached(run).count == Count(Reached(run).locals, Reached(run).pcs, Running)
            <==> forall t: Conn :: t < |Reached(run).pcs| ==> Reached(run).pcs[t] != Exit(Bailed)
  {
    ReachedBalanced(run);
    NoneCounted(Reached(run).locals, Reached(run).pcs);
  }

  /** How far the counter is above the live count. */
  function Excess(s: Sys): int
    requires |s.locals| == |s.pcs|
  {
    s.count - Count(s.locals, s.pcs, Running)
  }

  /**
   Wherever a room without a host is bound, the counter can drift by one more: a client's
   signal connection arrives there, is counted, bails out, and is never discounted.
   */
  lemma HostlessRoomsMakeTheCounterDrift(run: seq<Action>, code: Code, now: int) returns (next: seq<Action>)
    requires code in Reached(run).shared.table
    requires Reached(run).shared.heap[Reached(run).shared.table[code]].host.None?
    ensures run <= next && Excess(Reached(next)) == Excess(Reached(run)) + 1
  {
    next := ClientSignalArrives(run, code, now);
    CountArrives(Reached(run).locals, Reached(run).pcs, StartLocals(ClientSignal, code, ""), Exit(Bailed), Running);
  }

  /** A run from the start after which the counter is above the live count. */
  lemma CounterDrifts() returns (run: seq<Action>)
    ensures Reached(run).count > Count(Reached(run).locals, Reached(run).pcs, Running)
  {
    var start := Opens([], "000000", 0);
    run := HostlessRoomsMakeTheCounterDrift(start, "000000", 0);
    CounterCountsHandlers(start);
  }
}
