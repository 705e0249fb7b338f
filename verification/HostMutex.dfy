/**
 HostMu over runs. A handler that unwinds while it forwards a packet leaves that Room
 object's HostMu locked for good. Whoever needs it waits for ever, and nobody, not even a host
 that joins later, is handed a packet of that Room object's clients.
 */
module HostMutex {
  import opened Options
  import opened Store
  import opened Protocol
  import opened Invariant
  import opened Pairing
  import opened Routing
  import opened Scenarios

  /** The next step of this handler locks the HostMu of Room object r. */
  predicate NeedsHostMu(s: Sys, t: Conn, r: RoomId)
    requires |s.locals| == |s.pcs|
  {
    && t < |s.pcs|
    && match s.pcs[t]
       case Client(Asking) => s.locals[t].room == Some(r)
       case Serve(Acting(seen, packet)) => seen == r && TakesHostMu(s.locals[t].role, packet)
       case _ => false
  }

  /** About to forward a client's packet in a room without a host. */
  predicate Unwinds(s: Sys, t: Conn, r: RoomId)
    requires |s.locals| == |s.pcs|
  {
    && t < |s.pcs| && s.locals[t].role == ClientSignal
    && s.pcs[t].Serve? && s.pcs[t].serve.Acting? && s.pcs[t].serve.seen == r && ForHost(s.pcs[t].serve.packet)
    && r < |s.shared.heap| && s.shared.heap[r].host.None?
  }

  /** A HostMu is lost by unwinding only. */
  lemma StepLoses(s: Sys, t: Conn, ch: Choice, r: RoomId)
    requires Valid(s) && t < |s.pcs|
    ensures r in Exec(s, t, ch).lost <==> r in s.lost || Unwinds(s, t, r)
  {
    assert PcWired(s.locals[t], s.pcs[t], |s.shared.heap|);
    if !s.pcs[t].Serve? {
      OthersLoseNothing(s, t, ch);
    }
  }

  lemma OthersLoseNothing(s: Sys, t: Conn, ch: Choice)
    requires Valid(s) && t < |s.pcs| && !s.pcs[t].Serve?
    ensures Exec(s, t, ch).lost == s.lost
  {
  }

  /** Along the run, some handler unwound under the HostMu of Room object r. */
  ghost predicate HasUnwound(run: seq<Action>, r: RoomId) {
    run != [] &&
    var last := run[|run| - 1];
    HasUnwound(run[..|run| - 1], r) || (last.Step? && Unwinds(Reached(run[..|run| - 1]), last.t, r))
  }

  lemma {:induction false} LostMeansUnwound(run: seq<Action>, r: RoomId)
    ensures r in Reached(run).lost <==> HasUnwound(run, r)
  {
    InitSatisfiesInv();
    if run != [] {
      var before, last := Reached(run[..|run| - 1]), run[|run| - 1];
      LostMeansUnwound(run[..|run| - 1], r);
      if last.Step? && last.t < |before.pcs| {
        StepLoses(before, last.t, last.ch, r);
      }
    }
  }

  /** A handler that needs a lost HostMu makes no move. */
  lemma BlockedStays(s: Sys, t: Conn, ch: Choice, r: RoomId)
    requires Valid(s) && t < |s.pcs| && r in s.lost && NeedsHostMu(s, t, r)
    ensures Exec(s, t, ch) == s
  {
  }

  lemma ActionKeepsBlocked(s: Sys, a: Action, t: Conn, r: RoomId)
    requires Valid(s) && r in s.lost && NeedsHostMu(s, t, r)
    ensures var s' := Do(s, a);
            && |s'.locals| == |s'.pcs| > t
            && r in s'.lost && s'.locals[t] == s.locals[t] && s'.pcs[t] == s.pcs[t]
  {
    if a.Step? && a.t < |s.pcs| {
      StepLoses(s, a.t, a.ch, r);
      if a.t == t {
        BlockedStays(s, t, a.ch, r);
      }
    }
  }

  /** Whoever needs a lost HostMu is where it is in every continuation, whatever the others do. */
  lemma {:induction false} LostHostMuBlocksForEver(s: Sys, run: seq<Action>, t: Conn, r: RoomId)
    requires Inv(s) && r in s.lost && NeedsHostMu(s, t, r)
    ensures var s' := After(s, run);
            r in s'.lost && NeedsHostMu(s', t, r) && s'.locals[t] == s.locals[t] && s'.pcs[t] == s.pcs[t]
  {
    if run != [] {
      LostHostMuBlocksForEver(s, run[..|run| - 1], t, r);
      ActionKeepsBlocked(After(s, run[..|run| - 1]), run[|run| - 1], t, r);
    }
  }

  /** The clients' packets that were handed to the host of Room object r along the run. */
  ghost function HandedOver(run: seq<Action>, r: RoomId): seq<Packet> {
    if run == [] then []
    else
      var before, last := Reached(run[..|run| - 1]), run[|run| - 1];
      HandedOver(run[..|run| - 1], r) +
      (if last.Step? && HandsOver(before, last.t, r) then [before.pcs[last.t].serve.packet] else [])
  }

  /** To hand over a packet is to write it to the host. */
  lemma HandingOverDelivers(s: Sys, t: Conn, ch: Choice, r: RoomId)
    requires Valid(s) && HandsOver(s, t, r)
    ensures Exec(s, t, ch).delivered == s.delivered + [Delivery(s.shared.heap[r].host.value, s.pcs[t].serve.packet)]
  {
  }

  /** While a Room object has no host, nothing is handed over. */
  lemma {:induction false} NothingBeforeTheHost(run: seq<Action>, r: RoomId)
    requires r < |Reached(run).shared.heap| ==> Reached(run).shared.heap[r].host.None?
    ensures HandedOver(run, r) == []
  {
    InitSatisfiesInv();
    if run != [] {
      ActionGrows(Reached(run[..|run| - 1]), run[|run| - 1]);
      NothingBeforeTheHost(run[..|run| - 1], r);
    }
  }

  /** Where HostMu is lost, nothing more is handed over. */
  lemma {:induction false} NothingAfterTheLoss(run: seq<Action>, more: seq<Action>, r: RoomId)
    requires r in Reached(run).lost
    ensures r in Reached(run + more).lost && HandedOver(run + more, r) == HandedOver(run, r)
  {
    if more == [] {
      assert run + more == run;
    } else {
      var init, last := more[..|more| - 1], more[|more| - 1];
      assert (run + more)[..|run + more| - 1] == run + init;
      NothingAfterTheLoss(run, init, r);
      var before := Reached(run + init);
      assert Reached(run + more) == Do(before, last);
      if last.Step? && last.t < |before.pcs| {
        StepLoses(before, last.t, last.ch, r);
      }
    }
  }

  /**
   What one unwinding costs: the Room object had no host, its HostMu is lost, and in no
   continuation is any packet of its clients handed to a host, also when one joins later.
   */
  lemma UnwindingSilencesTheRoom(run: seq<Action>, t: Conn, ch: Choice, more: seq<Action>, packet: Packet)
    requires AboutToUnwind(Reached(run), t, packet)
    ensures var r, end := Reached(run).pcs[t].serve.seen, run + [Step(t, ch)] + more;
            r in Reached(end).lost && HandedOver(end, r) == []
  {
    var r := Reached(run).pcs[t].serve.seen;
    AfterLast(run, Step(t, ch));
    NothingBeforeTheHost(run, r);
    assert (run + [Step(t, ch)])[..|run|] == run;
    NothingAfterTheLoss(run + [Step(t, ch)], more, r);
  }
}
