/**
 What the pairing protocol guarantees in every reachable state and along every run: tunnels
 are exclusive, the two link maps are inverse up to the one step between their writes, and a
 request is consumed at most once.
 */
module Pairing {
  import opened Options
  import opened Store
  import opened Protocol
  import opened Invariant

  /** The client's loop is running and writes to h. */
  predicate ClientForwards(s: Sys, c: Conn, h: Conn)
    requires |s.locals| == |s.pcs|
  {
    c < |s.pcs| && s.locals[c].role == ClientData && s.pcs[c] == Exit(Forwarding) && s.locals[c].partner == Some(h)
  }

  /** The loop of a host's data connection is running and writes to c. */
  predicate HostForwards(s: Sys, h: Conn, c: Conn)
    requires |s.locals| == |s.pcs|
  {
    h < |s.pcs| && s.locals[h].role == HostData && s.pcs[h] == Exit(Forwarding) && s.locals[h].partner == Some(c)
  }

  /** c and h are linked in the Room object r. */
  predicate Linked(heap: Heap, r: RoomId, c: Conn, h: Conn) {
    r < |heap| && c in heap[r].c2h && heap[r].c2h[c] == Some(h)
  }

  /** The client's request is on file in room r under this name. */
  predicate Filed(s: Sys, r: RoomId, name: string, c: Conn) {
    r < |s.shared.heap| && name in s.shared.heap[r].requests && s.shared.heap[r].requests[name] == c
  }

  /** A link ties a client of that room to the data connection that took its request, on both sides. */
  lemma LinkedMeansTaken(heap: Heap, ls: Crew, r: RoomId, c: Conn, h: Conn)
    requires Core(heap, ls) && Linked(heap, r, c, h)
    ensures c < |ls| && ls[c].role == ClientData && ls[c].room == Some(r) && ls[c].listed
    ensures h < |ls| && ls[h].role == HostData && ls[h].room == Some(r) && ls[h].client == Some(c) && ls[h].linked
  {
    assert EntryOk(heap, ls, r, c);
    assert ThreadOk(heap, ls, ls[h], h);
  }

  /** One of the two loops between c and h is running. */
  predicate Tunnel(s: Sys, c: Conn, h: Conn)
    requires |s.locals| == |s.pcs|
  {
    ClientForwards(s, c, h) || HostForwards(s, h, c)
  }

  lemma TunnelsAreLinked(s: Sys, c: Conn, h: Conn)
    requires Inv(s) && Tunnel(s, c, h)
    ensures c < |s.locals| && h < |s.locals|
    ensures s.locals[c].room.Some? && s.locals[c].room == s.locals[h].room
    ensures Linked(s.shared.heap, s.locals[c].room.value, c, h)
  {
    var heap, ls := s.shared.heap, s.locals;
    if ClientForwards(s, c, h) {
      assert ClientOk(heap, ls[c], c);
      LinkedMeansTaken(heap, ls, ls[c].room.value, c, h);
    } else {
      assert DataOk(heap, ls, ls[h], h);
      LinkedMeansTaken(heap, ls, ls[h].room.value, c, h);
    }
  }

  /** Two links that share an end are the same link, even across Room objects. */
  lemma LinksAreExclusive(heap: Heap, ls: Crew, r: RoomId, c: Conn, h: Conn, r': RoomId, c': Conn, h': Conn)
    requires Core(heap, ls) && Linked(heap, r, c, h) && Linked(heap, r', c', h')
    requires c == c' || h == h'
    ensures r == r' && c == c' && h == h'
  {
    LinkedMeansTaken(heap, ls, r, c, h);
    LinkedMeansTaken(heap, ls, r', c', h');
  }

  /**
   The two maps of a Room object are inverse to each other: every mirror entry has its link,
   and a link lacks its mirror exactly while the thread that wrote it is between the two
   writes. No data connection is linked to two clients.
   */
  ghost predicate InverseMaps(s: Sys, room: RoomState) {
    && (forall h :: h in room.h2c ==> room.h2c[h] in room.c2h && room.c2h[room.h2c[h]] == Some(h))
    && (forall c :: c in room.c2h && room.c2h[c].Some? ==>
          var h := room.c2h[c].value;
          h < |s.pcs| && (if s.pcs[h] == Data(Mirroring) then h !in room.h2c else h in room.h2c && room.h2c[h] == c))
    && (forall c, d :: c in room.c2h && d in room.c2h && room.c2h[c].Some? && room.c2h[c] == room.c2h[d] ==> c == d)
  }

  lemma MapsAreInverseIn(s: Sys, r: RoomId)
    requires Inv(s) && r < |s.shared.heap|
    ensures InverseMaps(s, s.shared.heap[r])
  {
    var heap, ls, room := s.shared.heap, s.locals, s.shared.heap[r];
    forall h | h in room.h2c
      ensures room.h2c[h] in room.c2h && room.c2h[room.h2c[h]] == Some(h)
    {
      assert MirrorOk(heap, ls, r, h);
      assert ThreadOk(heap, ls, ls[h], h);
    }
    forall c | c in room.c2h && room.c2h[c].Some?
      ensures var h := room.c2h[c].value;
              h < |s.pcs| && (if s.pcs[h] == Data(Mirroring) then h !in room.h2c else h in room.h2c && room.h2c[h] == c)
    {
      var h := room.c2h[c].value;
      LinkedMeansTaken(heap, ls, r, c, h);
      assert DataOk(heap, ls, ls[h], h);
      assert HandlerOk(ls[h], s.pcs[h], |heap|, s.shared.issued);
    }
    forall c, d | c in room.c2h && d in room.c2h && room.c2h[c].Some? && room.c2h[c] == room.c2h[d]
      ensures c == d
    {
      LinksAreExclusive(heap, ls, r, c, room.c2h[c].value, r, d, room.c2h[c].value);
    }
  }

  lemma MapsAreInverse(run: seq<Action>, r: RoomId)
    requires r < |Reached(run).shared.heap|
    ensures InverseMaps(Reached(run), Reached(run).shared.heap[r])
  {
    MapsAreInverseIn(Reached(run), r);
  }

  // ---- Requests ----

  /** A request still on file belongs to a client that is not linked, and that no data connection has taken. */
  lemma WaitingClientsAreUnlinked(run: seq<Action>, r: RoomId, name: string)
    requires r < |Reached(run).shared.heap| && name in Reached(run).shared.heap[r].requests
    ensures var s, c := Reached(run), Reached(run).shared.heap[r].requests[name];
            && (forall q: RoomId, h: Conn :: !Linked(s.shared.heap, q, c, h))
            && (forall h: Conn :: h < |s.locals| ==> s.locals[h].client != Some(c))
  {
    var s := Reached(run);
    var heap, ls, c := s.shared.heap, s.locals, s.shared.heap[r].requests[name];
    assert RequestOk(heap, ls, r, name);
    forall h: Conn | h < |ls| ensures ls[h].client != Some(c) {
      assert TakenNotWaiting(heap, ls);
    }
    forall q: RoomId, h: Conn ensures !Linked(heap, q, c, h) {
      if Linked(heap, q, c, h) {
        LinkedMeansTaken(heap, ls, q, c, h);
      }
    }
  }

  /** The entry that the link step overwrites is always nil: no link is ever displaced. */
  lemma LinkOverwritesNil(s: Sys, t: Conn)
    requires Inv(s) && t < |s.pcs| && s.pcs[t] == Data(Linking)
    requires s.locals[t].client.value in s.shared.heap[s.locals[t].room.value].c2h
    ensures s.shared.heap[s.locals[t].room.value].c2h[s.locals[t].client.value] == None
  {
    assert HandlerOk(s.locals[t], s.pcs[t], |s.shared.heap|, s.shared.issued);
    TakenEntryIsNil(s.shared.heap, s.locals, t);
  }

  // ---- What never changes again ----

  /** A Room object only accumulates: registered clients, links, mirrors and the host stay. */
  predicate RoomGrows(r: RoomState, r': RoomState) {
    && (forall c :: c in r.c2h ==> c in r'.c2h && (r.c2h[c].Some? ==> r'.c2h[c] == r.c2h[c]))
    && (forall h :: h in r.h2c ==> h in r'.h2c && r'.h2c[h] == r.h2c[h])
    && (r.host.Some? ==> r'.host == r.host)
  }

  /** A handler's captured locals, once set, stay. */
  predicate LocalsGrow(l: Locals, l': Locals) {
    && l'.role == l.role && l'.code == l.code
    && (l.room.Some? && l.role != ClientData && l.role != HostData ==> l'.room == l.room)
    && (l.asked ==> l'.asked && l'.name == l.name && l'.room == l.room)
    && (l.client.Some? ==> l'.client == l.client && l'.room == l.room)
    && (l.partner.Some? ==> l'.partner == l.partner && l'.room == l.room)
  }

  predicate Grows(s: Sys, s': Sys) {
    && |s.shared.heap| <= |s'.shared.heap| && |s.locals| <= |s'.locals|
    && (forall r: RoomId :: r < |s.shared.heap| ==> RoomGrows(s.shared.heap[r], s'.shared.heap[r]))
    && (forall t: Conn :: t < |s.locals| ==> LocalsGrow(s.locals[t], s'.locals[t]))
    && s.closed <= s'.closed
  }

  /** A step writes at most one room of the old heap and the locals of one thread. */
  lemma OneMoveGrows(s: Sys, s': Sys, t: Conn, id: RoomId)
    requires t < |s.locals| && Moves(s, s', t)
    requires LocalsGrow(s.locals[t], s'.locals[t]) && s.closed <= s'.closed
    requires |s.shared.heap| <= |s'.shared.heap|
    requires forall r: RoomId :: r < |s.shared.heap| && r != id ==> s'.shared.heap[r] == s.shared.heap[r]
    requires id < |s.shared.heap| ==> RoomGrows(s.shared.heap[id], s'.shared.heap[id])
    ensures Grows(s, s')
  {
  }

  lemma ClientGrows(s: Sys, t: Conn, ch: Choice)
    requires Inv(s) && t < |s.pcs| && s.pcs[t].Client?
    ensures Grows(s, ClientStep(s, t, ch))
  {
    var l := s.locals[t];
    assert HandlerOk(l, s.pcs[t], |s.shared.heap|, s.shared.issued);
    EntriesFollowWrites(s.shared.heap, s.locals, t);
    OneMoveGrows(s, ClientStep(s, t, ch), t, if l.room.Some? then l.room.value else 0);
  }

  lemma PollGrows(s: Sys, t: Conn, ch: Choice)
    requires Local(s) && t < |s.pcs| && s.pcs[t].Poll?
    ensures Grows(s, PollStep(s, t, ch))
  {
    assert HandlerOk(s.locals[t], s.pcs[t], |s.shared.heap|, s.shared.issued);
    OneMoveGrows(s, PollStep(s, t, ch), t, 0);
  }

  lemma SweepGrows(s: Sys, t: Conn)
    requires Valid(s) && t < |s.pcs| && s.pcs[t].Sweep?
    ensures Grows(s, SweepStep(s, t))
  {
    OneMoveGrows(s, SweepStep(s, t), t, if s.pcs[t].sweep.SweepDelete? then s.pcs[t].sweep.seen else 0);
  }

  lemma LinkGrows(s: Sys, t: Conn, ch: Choice)
    requires Inv(s) && t < |s.pcs| && s.pcs[t] == Data(Linking)
    ensures Grows(s, DataStep(s, t, ch))
  {
    if s.locals[t].client.value in s.shared.heap[s.locals[t].room.value].c2h {
      LinkOverwritesNil(s, t);
    }
    OneMoveGrows(s, DataStep(s, t, ch), t, s.locals[t].room.value);
  }

  lemma MirrorGrows(s: Sys, t: Conn, ch: Choice)
    requires Inv(s) && t < |s.pcs| && s.pcs[t] == Data(Mirroring)
    ensures Grows(s, DataStep(s, t, ch))
  {
    assert HandlerOk(s.locals[t], s.pcs[t], |s.shared.heap|, s.shared.issued);
    EntriesFollowWrites(s.shared.heap, s.locals, t);
    OneMoveGrows(s, DataStep(s, t, ch), t, s.locals[t].room.value);
  }

  lemma DataGrows(s: Sys, t: Conn, ch: Choice)
    requires Local(s) && t < |s.pcs| && s.pcs[t].Data? && s.pcs[t] != Data(Linking) && s.pcs[t] != Data(Mirroring)
    ensures Grows(s, DataStep(s, t, ch))
  {
    var l := s.locals[t];
    assert HandlerOk(l, s.pcs[t], |s.shared.heap|, s.shared.issued);
    OneMoveGrows(s, DataStep(s, t, ch), t, if l.room.Some? then l.room.value else 0);
  }

  lemma SeekGrows(s: Sys, t: Conn)
    requires Local(s) && t < |s.pcs| && s.pcs[t].Seek?
    ensures Grows(s, SeekStep(s, t))
  {
    assert HandlerOk(s.locals[t], s.pcs[t], |s.shared.heap|, s.shared.issued);
    OneMoveGrows(s, SeekStep(s, t), t, 0);
  }

  lemma SignalGrows(s: Sys, t: Conn, ch: Choice)
    requires Local(s) && t < |s.pcs| && s.pcs[t].Signal?
    ensures Grows(s, SignalStep(s, t, ch))
  {
    var l := s.locals[t];
    assert HandlerOk(l, s.pcs[t], |s.shared.heap|, s.shared.issued);
    OneMoveGrows(s, SignalStep(s, t, ch), t, if l.code in s.shared.table then s.shared.table[l.code] else 0);
  }

  lemma ServeGrows(s: Sys, t: Conn, ch: Choice)
    requires Valid(s) && t < |s.pcs| && s.pcs[t].Serve?
    ensures Grows(s, ServeStep(s, t, ch))
  {
    OneMoveGrows(s, ServeStep(s, t, ch), t, if s.pcs[t].serve.Registering? then s.pcs[t].serve.seen else 0);
  }

  lemma ExitGrows(s: Sys, t: Conn, ch: Choice)
    requires Valid(s) && t < |s.pcs| && s.pcs[t].Exit?
    ensures Grows(s, ExitStep(s, t, ch))
  {
    OneMoveGrows(s, ExitStep(s, t, ch), t, |s.shared.heap|);
  }

  lemma CreateGrows(s: Sys, t: Conn, ch: Choice)
    requires Valid(s) && t < |s.pcs| && s.pcs[t].Create?
    ensures Grows(s, CreateStep(s, t, ch))
  {
    OneMoveGrows(s, CreateStep(s, t, ch), t, |s.shared.heap|);
  }

  lemma CleanGrows(s: Sys, t: Conn, ch: Choice)
    requires Valid(s) && t < |s.pcs| && s.pcs[t].Clean?
    ensures Grows(s, CleanStep(s, t, ch))
  {
    OneMoveGrows(s, CleanStep(s, t, ch), t, |s.shared.heap|);
  }

  lemma StepGrows(s: Sys, t: Conn, ch: Choice)
    requires Inv(s) && t < |s.pcs|
    ensures Grows(s, Exec(s, t, ch))
  {
    match s.pcs[t]
    case Client(_) => ClientGrows(s, t, ch);
    case Poll(_) => PollGrows(s, t, ch);
    case Sweep(_) => SweepGrows(s, t);
    case Data(p) =>
      if p == Linking {
        LinkGrows(s, t, ch);
      } else if p == Mirroring {
        MirrorGrows(s, t, ch);
      } else {
        DataGrows(s, t, ch);
      }
    case Seek(_) => SeekGrows(s, t);
    case Signal(_) => SignalGrows(s, t, ch);
    case Serve(_) => ServeGrows(s, t, ch);
    case Gate =>
    case Enter =>
    case Exit(_) => ExitGrows(s, t, ch);
    case Create(_) => CreateGrows(s, t, ch);
    case Clean(_) => CleanGrows(s, t, ch);
  }

  lemma ActionGrows(s: Sys, a: Action)
    requires Inv(s)
    ensures Grows(s, Do(s, a))
  {
    match a
    case Spawn(_, _, _) =>
    case Recall(_) =>
    case Step(t, ch) =>
      if t < |s.pcs| {
        StepGrows(s, t, ch);
      }
  }

  lemma GrowthComposes(s: Sys, s': Sys, s'': Sys)
    requires Grows(s, s') && Grows(s', s'')
    ensures Grows(s, s'')
  {
  }

  lemma {:induction false} RunGrows(s: Sys, run: seq<Action>)
    requires Inv(s)
    ensures Grows(s, After(s, run))
  {
    if run != [] {
      var before := After(s, run[..|run| - 1]);
      RunGrows(s, run[..|run| - 1]);
      ActionGrows(before, run[|run| - 1]);
      GrowthComposes(s, before, After(s, run));
    }
  }

  /**
   Once taken, a client is on no room's request map in any continuation, under any name, and
   stays taken by the same connection.
   */
  lemma TakenClientsNeverReturn(run: seq<Action>, more: seq<Action>, h: Conn)
    requires h < |Reached(run).locals| && Reached(run).locals[h].client.Some?
    ensures var c, s' := Reached(run).locals[h].client.value, Reached(run + more);
            && h < |s'.locals| && s'.locals[h].client == Some(c)
            && (forall k: Conn :: k < |s'.locals| && s'.locals[k].client == Some(c) ==> k == h)
            && (forall r: RoomId, name :: r < |s'.shared.heap| && name in s'.shared.heap[r].requests ==>
                  s'.shared.heap[r].requests[name] != c)
  {
    InitSatisfiesInv();
    RunsCompose(INIT, run, more);
    RunGrows(Reached(run), more);
  }

  /** A link, its mirror and a loop's partner are for life: they hold in every continuation. */
  lemma LinksAreForLife(run: seq<Action>, more: seq<Action>, r: RoomId, c: Conn, h: Conn)
    requires Linked(Reached(run).shared.heap, r, c, h)
    ensures Linked(Reached(run + more).shared.heap, r, c, h)
    ensures h in Reached(run).shared.heap[r].h2c ==>
            h in Reached(run + more).shared.heap[r].h2c && Reached(run + more).shared.heap[r].h2c[h] == c
    ensures forall t: Conn :: t < |Reached(run).locals| && Reached(run).locals[t].partner.Some? ==>
              t < |Reached(run + more).locals|
                && Reached(run + more).locals[t].partner == Reached(run).locals[t].partner
  {
    InitSatisfiesInv();
    RunsCompose(INIT, run, more);
    RunGrows(Reached(run), more);
    if h in Reached(run).shared.heap[r].h2c {
      LinkedIsMirrored(Reached(run).shared.heap, Reached(run).locals, r, c, h);
    }
  }

  lemma LinkedIsMirrored(heap: Heap, ls: Crew, r: RoomId, c: Conn, h: Conn)
    requires Core(heap, ls) && Linked(heap, r, c, h) && h in heap[r].h2c
    ensures heap[r].h2c[h] == c
  {
    LinkedMeansTaken(heap, ls, r, c, h);
    assert MirrorOk(heap, ls, r, h);
  }

  /**
   Of all loops that ever run, in either direction, two that share an end join the same two
   connections: s' is s itself or any later state. Both ends joined the same Room object.
   */
  ghost predicate ExclusiveTunnels(s: Sys, s': Sys)
    requires |s.locals| == |s.pcs| && |s'.locals| == |s'.pcs|
  {
    && (forall c: Conn, h: Conn, c': Conn, h': Conn ::
          Tunnel(s, c, h) && Tunnel(s', c', h') && (c == c' || h == h') ==> c == c' && h == h')
    && (forall c: Conn, h: Conn :: Tunnel(s, c, h) ==>
          && c < |s.locals| && h < |s.locals|
          && s.locals[c].room.Some? && s.locals[c].room == s.locals[h].room)
  }

  lemma GrowthKeepsTunnelsExclusive(s: Sys, s': Sys)
    requires Inv(s) && Inv(s') && Grows(s, s')
    ensures ExclusiveTunnels(s, s')
  {
    forall c: Conn, h: Conn | Tunnel(s, c, h)
      ensures c < |s.locals| && h < |s.locals| && s.locals[c].room.Some? && s.locals[c].room == s.locals[h].room
      ensures Linked(s'.shared.heap, s.locals[c].room.value, c, h)
    {
      TunnelsAreLinked(s, c, h);
    }
    forall c: Conn, h: Conn, c': Conn, h': Conn | Tunnel(s, c, h) && Tunnel(s', c', h') && (c == c' || h == h')
      ensures c == c' && h == h'
    {
      TunnelsAreLinked(s', c', h');
      LinksAreExclusive(s'.shared.heap, s'.locals, s.locals[c].room.value, c, h, s'.locals[c'].room.value, c', h');
    }
  }

  /**
   Tunnel exclusivity, whatever the interleaving and for good: each client exchanges messages
   with one data connection only, and each data connection with one client only, at any two
   moments of any run.
   */
  lemma TunnelsAreExclusive(run: seq<Action>, more: seq<Action>)
    ensures ExclusiveTunnels(Reached(run), Reached(run + more))
  {
    InitSatisfiesInv();
    RunsCompose(INIT, run, more);
    RunGrows(Reached(run), more);
    GrowthKeepsTunnelsExclusive(Reached(run), Reached(run + more));
  }
}
