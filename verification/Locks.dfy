/**
 Deadlock freedom. Threads acquire and release Go's read-write mutexes, under a discipline on
 each thread's sequence of operations: ranks increase while locks are held, and no socket is
 closed under RoomsMu. A thread may keep locks for good; a system of such threads can always
 run to its end exactly when no thread uses a lock that another one keeps.
 */
module Locks {
  datatype Lock =
    | RoomsMu
    | RecentlyDeletedMu
    | UsedSaltsMu
    | RequestsMu(room: nat)
    | ClientsMu(room: nat)
    | HostsMu(room: nat)
    | HostMu(room: nat)

  datatype Mode = Read | Write

  datatype Op = Acquire(lock: Lock, mode: Mode) | Release(lock: Lock) | CloseSocket

  /** RoomsMu ranks above every other lock: it may be held while another is taken, never the other way round. */
  function Rank(lock: Lock): nat {
    if lock == RoomsMu then 0 else 1
  }

  const RANKS: nat := 2

  /** A thread: what it holds, what it still has to do, and whether it is queued as a writer. */
  datatype Thread = Thread(held: map<Lock, Mode>, todo: seq<Op>, queued: bool)

  type System = seq<Thread>

  // ---- The discipline ----

  function HeldAfter(held: map<Lock, Mode>, op: Op): map<Lock, Mode> {
    match op
    case Acquire(lock, mode) => held[lock := mode]
    case Release(lock) => held - {lock}
    case CloseSocket => held
  }

  /** What a thread holds once it has done all its operations. */
  function HeldAtEnd(held: map<Lock, Mode>, todo: seq<Op>): map<Lock, Mode>
    decreases |todo|
  {
    if todo == [] then held else HeldAtEnd(HeldAfter(held, todo[0]), todo[1..])
  }

  /** An operation in order: of the locks that a thread holds, those it keeps for good do not count. */
  predicate OpOk(kept: set<Lock>, held: map<Lock, Mode>, op: Op) {
    match op
    case Acquire(lock, _) => lock !in held && forall k :: k in held && k !in kept ==> Rank(k) < Rank(lock)
    case Release(lock) => lock in held
    case CloseSocket => RoomsMu !in held
  }

  /** From what it holds, the rest of the thread keeps to the order and ends holding nothing but what it keeps. */
  predicate Disciplined(kept: set<Lock>, held: map<Lock, Mode>, todo: seq<Op>)
    decreases |todo|
  {
    if todo == [] then held.Keys <= kept
    else OpOk(kept, held, todo[0]) && Disciplined(kept, HeldAfter(held, todo[0]), todo[1..])
  }

  // ---- Go's read-write mutex ----

  predicate Wants(th: Thread, lock: Lock, mode: Mode) {
    th.todo != [] && th.todo[0] == Acquire(lock, mode)
  }

  /** Somebody holds the lock in the given mode; Go's locks do not ask whether it is the same thread. */
  predicate Held(sys: System, lock: Lock, mode: Mode) {
    exists j :: 0 <= j < |sys| && lock in sys[j].held && sys[j].held[lock] == mode
  }

  /** Somebody other than i is queued as a writer: new readers wait behind it, and so do other writers. */
  predicate QueuedByOther(sys: System, i: nat, lock: Lock) {
    exists j :: 0 <= j < |sys| && j != i && sys[j].queued && Wants(sys[j], lock, Write)
  }

  /**
   Thread i can take its next step. A writer first queues, against other writers only, and
   then waits for the readers to leave.
   */
  predicate CanStep(sys: System, i: nat)
    requires i < |sys|
  {
    var th := sys[i];
    th.todo != [] &&
    match th.todo[0]
    case Release(_) => true
    case CloseSocket => true
    case Acquire(lock, Read) => !Held(sys, lock, Write) && !QueuedByOther(sys, i, lock)
    case Acquire(lock, Write) =>
      if th.queued then !Held(sys, lock, Read)
      else !Held(sys, lock, Write) && !QueuedByOther(sys, i, lock)
  }

  function StepOf(th: Thread): Thread
    requires th.todo != []
  {
    if th.todo[0].Acquire? && th.todo[0].mode == Write && !th.queued then th.(queued := true)
    else Thread(HeldAfter(th.held, th.todo[0]), th.todo[1..], false)
  }

  function Take(sys: System, i: nat): System
    requires i < |sys| && CanStep(sys, i)
  {
    sys[i := StepOf(sys[i])]
  }

  predicate Schedule(sys: System, order: seq<nat>)
    decreases |order|
  {
    order == [] || (order[0] < |sys| && CanStep(sys, order[0]) && Schedule(Take(sys, order[0]), order[1..]))
  }

  function After(sys: System, order: seq<nat>): System
    requires Schedule(sys, order)
    decreases |order|
  {
    if order == [] then sys else After(Take(sys, order[0]), order[1..])
  }

  lemma {:induction false} SchedulesCompose(sys: System, order: seq<nat>, more: seq<nat>)
    requires Schedule(sys, order) && Schedule(After(sys, order), more)
    ensures Schedule(sys, order + more) && After(sys, order + more) == After(After(sys, order), more)
    decreases |order|
  {
    if order == [] {
      assert order + more == more;
    } else {
      assert (order + more)[1..] == order[1..] + more;
      SchedulesCompose(Take(sys, order[0]), order[1..], more);
    }
  }

  // ---- What the discipline means, operation by operation ----

  /** What a thread holds when it comes to its n-th operation. */
  function HeldAt(held: map<Lock, Mode>, todo: seq<Op>, n: nat): map<Lock, Mode>
    requires n <= |todo|
  {
    HeldAtEnd(held, todo[..n])
  }

  /**
   No socket is closed under RoomsMu; no lock is asked for that is already held; and of the
   locks that are not kept for good only RoomsMu is held while another one is asked for.
   */
  lemma {:induction false} DisciplineMeans(kept: set<Lock>, held: map<Lock, Mode>, todo: seq<Op>, n: nat)
    requires Disciplined(kept, held, todo) && n < |todo|
    ensures var now, op := HeldAt(held, todo, n), todo[n];
            && (op.CloseSocket? ==> RoomsMu !in now)
            && (op.Release? ==> op.lock in now)
            && (op.Acquire? ==>
                  op.lock !in now && forall k :: k in now && k !in kept ==> k == RoomsMu && op.lock != RoomsMu)
    decreases n
  {
    if n > 0 {
      DisciplineMeans(kept, HeldAfter(held, todo[0]), todo[1..], n - 1);
      assert todo[..n][1..] == todo[1..][..n - 1];
    }
  }

  /**
   Go's readers queue behind a waiting writer: a thread that reads a lock and asks to read it
   again, with a writer queued in between, stops itself and the writer.
   */
  lemma RereadingDeadlocks(lock: Lock, rest: seq<Op>, rest': seq<Op>)
    ensures var sys := [Thread(map[lock := Read], [Acquire(lock, Read)] + rest, false),
                        Thread(map[], [Acquire(lock, Write)] + rest', true)];
            !CanStep(sys, 0) && !CanStep(sys, 1)
  {
    var sys := [Thread(map[lock := Read], [Acquire(lock, Read)] + rest, false),
                Thread(map[], [Acquire(lock, Write)] + rest', true)];
    assert Wants(sys[1], lock, Write);
    assert lock in sys[0].held && sys[0].held[lock] == Read;
  }

  /** Readers do not keep each other out. */
  lemma ReadersShare(lock: Lock, rest: seq<Op>)
    ensures CanStep([Thread(map[lock := Read], [], false), Thread(map[], [Acquire(lock, Read)] + rest, false)], 1)
  {
  }

  // ---- What every reachable system satisfies ----

  /** The locks a thread never gives back. */
  function Keeps(th: Thread): set<Lock> {
    HeldAtEnd(th.held, th.todo).Keys
  }

  predicate Uses(th: Thread, lock: Lock) {
    lock in th.held || exists op :: op in th.todo && op.Acquire? && op.lock == lock
  }

  predicate ThreadOk(th: Thread) {
    && Disciplined(Keeps(th), th.held, th.todo)
    && (th.queued ==> th.todo != [] && th.todo[0].Acquire? && th.todo[0].mode == Write)
  }

  /** A writer excludes everybody, queued or not. */
  predicate Exclusive(sys: System) {
    forall i, j, lock ::
      0 <= i < |sys| && 0 <= j < |sys| && i != j && lock in sys[i].held && sys[i].held[lock] == Write ==>
        lock !in sys[j].held && !(sys[j].queued && Wants(sys[j], lock, Write))
  }

  /** At most one writer is queued for a lock. */
  predicate OneQueued(sys: System) {
    forall i, j ::
      0 <= i < |sys| && 0 <= j < |sys| && sys[i].queued && sys[j].queued && sys[i].todo != [] && sys[j].todo != [] ==>
        sys[i].todo[0] != sys[j].todo[0] || i == j
  }

  /** What one thread keeps for good, no other thread uses. */
  predicate KeptAlone(sys: System) {
    forall i, j, lock :: 0 <= i < |sys| && 0 <= j < |sys| && i != j && lock in Keeps(sys[i]) ==> !Uses(sys[j], lock)
  }

  predicate SystemOk(sys: System) {
    (forall i :: 0 <= i < |sys| ==> ThreadOk(sys[i])) && Exclusive(sys) && OneQueued(sys) && KeptAlone(sys)
  }

  /** A thread about to start on a path that is disciplined but for the locks it keeps. */
  predicate Fresh(th: Thread) {
    th.held == map[] && !th.queued && Disciplined(Keeps(th), map[], th.todo)
  }

  /** Threads about to start: any number of them. */
  predicate Initial(sys: System) {
    forall i :: 0 <= i < |sys| ==> Fresh(sys[i])
  }

  lemma StepOfUsesNoMore(th: Thread, lock: Lock)
    requires th.todo != [] && Uses(StepOf(th), lock)
    ensures Uses(th, lock)
  {
    assert th.todo[0] in th.todo;
  }

  lemma StepOfIsOk(th: Thread)
    requires ThreadOk(th) && th.todo != []
    ensures ThreadOk(StepOf(th)) && Keeps(StepOf(th)) == Keeps(th)
  {
  }

  lemma TakeKeepsExclusive(sys: System, i: nat)
    requires Exclusive(sys) && OneQueued(sys) && i < |sys| && CanStep(sys, i)
    ensures Exclusive(Take(sys, i)) && OneQueued(Take(sys, i))
  {
  }

  lemma TakeKeepsOk(sys: System, i: nat)
    requires SystemOk(sys) && i < |sys| && CanStep(sys, i)
    ensures SystemOk(Take(sys, i))
  {
    StepOfIsOk(sys[i]);
    TakeKeepsExclusive(sys, i);
    forall lock | Uses(StepOf(sys[i]), lock)
      ensures Uses(sys[i], lock)
    {
      StepOfUsesNoMore(sys[i], lock);
    }
  }

  lemma {:induction false} AfterIsOk(sys: System, order: seq<nat>)
    requires SystemOk(sys) && Schedule(sys, order)
    ensures SystemOk(After(sys, order))
    decreases |order|
  {
    if order != [] {
      TakeKeepsOk(sys, order[0]);
      AfterIsOk(Take(sys, order[0]), order[1..]);
    }
  }

  // ---- Progress ----

  /** In the middle of a critical section, or queued for one. */
  predicate Engaged(th: Thread) {
    th.held != map[] || th.queued
  }

  /** Whoever waits, waits for an engaged thread. */
  lemma SomebodyHolds(sys: System, i: nat) returns (j: nat)
    requires SystemOk(sys) && i < |sys| && sys[i].todo != [] && !CanStep(sys, i)
    ensures sys[i].todo[0].Acquire?
    ensures j < |sys| && j != i && Engaged(sys[j])
    ensures sys[j].todo != []
    ensures sys[i].todo[0].lock in sys[j].held || (sys[j].queued && Wants(sys[j], sys[i].todo[0].lock, Write))
  {
    var lock := sys[i].todo[0].lock;
    assert ThreadOk(sys[i]) && lock !in sys[i].held;
    if k :| 0 <= k < |sys| && lock in sys[k].held {
      j := k;
      assert ThreadOk(sys[k]);
      assert sys[i].todo[0] in sys[i].todo && Uses(sys[i], lock);
    } else {
      j :| 0 <= j < |sys| && j != i && sys[j].queued && Wants(sys[j], lock, Write);
    }
  }

  /** Along waiting, ranks rise; so the chain of waiting ends in an engaged thread that can step. */
  lemma {:induction false} WaitingEnds(sys: System, i: nat) returns (j: nat)
    requires SystemOk(sys) && i < |sys| && sys[i].todo != [] && !CanStep(sys, i)
    ensures j < |sys| && Engaged(sys[j]) && CanStep(sys, j)
    decreases RANKS - Rank(sys[i].todo[0].lock), if sys[i].queued then 0 else 1
  {
    var lock := sys[i].todo[0].lock;
    j := SomebodyHolds(sys, i);
    if !CanStep(sys, j) {
      assert ThreadOk(sys[j]);
      assert sys[i].todo[0] in sys[i].todo && Uses(sys[i], lock);
      j := WaitingEnds(sys, j);
    }
  }

  /**
   Deadlock freedom, for any number of threads and any schedule: whenever some thread has
   operations left, either it can take its next one, or a thread that is inside a critical
   section or queued for one can. Unstarted threads do not count as progress.
   */
  lemma NeverDeadlocked(sys: System, order: seq<nat>, i: nat)
    requires Initial(sys) && KeptAlone(sys) && Schedule(sys, order)
    requires i < |After(sys, order)| && After(sys, order)[i].todo != []
    ensures CanStep(After(sys, order), i)
            || exists j :: 0 <= j < |After(sys, order)| && Engaged(After(sys, order)[j])
                 && CanStep(After(sys, order), j)
  {
    AfterIsOk(sys, order);
    if !CanStep(After(sys, order), i) {
      var j := WaitingEnds(After(sys, order), i);
    }
  }

  // ---- Running to the end ----

  predicate Done(sys: System) {
    forall i :: 0 <= i < |sys| ==> sys[i].todo == []
  }

  /** Some schedule takes every thread to its end. */
  ghost predicate CanFinish(sys: System) {
    exists order :: Schedule(sys, order) && Done(After(sys, order))
  }

  /** Whatever has been scheduled so far, every thread can still be taken to its end. */
  ghost predicate NeverStuck(sys: System) {
    forall order :: Schedule(sys, order) ==> CanFinish(After(sys, order))
  }

  /** The steps that a system has left at most. */
  function Work(sys: System): nat {
    if sys == [] then 0
    else
      var last := sys[|sys| - 1];
      Work(sys[..|sys| - 1]) + 2 * |last.todo| + (if last.queued then 0 else 1)
  }

  lemma {:induction false} StepsUseUpWork(sys: System, i: nat, th: Thread)
    requires i < |sys|
    requires 2 * |th.todo| + (if th.queued then 0 else 1) < 2 * |sys[i].todo| + (if sys[i].queued then 0 else 1)
    ensures Work(sys[i := th]) < Work(sys)
  {
    var n := |sys| - 1;
    if i < n {
      assert sys[i := th][..n] == sys[..n][i := th];
      StepsUseUpWork(sys[..n], i, th);
    } else {
      assert sys[i := th][..n] == sys[..n];
    }
  }

  /** From every system that satisfies the invariant, a schedule takes every thread to its end. */
  lemma {:induction false} OkSystemsFinish(sys: System) returns (order: seq<nat>)
    requires SystemOk(sys)
    ensures Schedule(sys, order) && Done(After(sys, order))
    decreases Work(sys)
  {
    if i :| 0 <= i < |sys| && sys[i].todo != [] {
      var j := i;
      if !CanStep(sys, i) {
        j := WaitingEnds(sys, i);
      }
      TakeKeepsOk(sys, j);
      StepsUseUpWork(sys, j, StepOf(sys[j]));
      var rest := OkSystemsFinish(Take(sys, j));
      order := [j] + rest;
      assert order[1..] == rest;
    } else {
      order := [];
    }
  }

  // ---- Getting stuck ----

  /** A thread that has operations left and makes no move under any schedule. */
  ghost predicate Stranded(sys: System, i: nat) {
    && i < |sys| && sys[i].todo != []
    && forall order :: Schedule(sys, order) ==> |After(sys, order)| == |sys| && After(sys, order)[i] == sys[i]
  }

  /** A thread that has ended keeps a lock: whoever wants it waits for ever, whatever the others do. */
  lemma {:induction false} LostLockBlocks(sys: System, order: seq<nat>, gone: nat, waiter: nat, lock: Lock)
    requires Schedule(sys, order) && gone < |sys| && waiter < |sys|
    requires sys[gone].todo == [] && lock in sys[gone].held && sys[gone].held[lock] == Write
    requires sys[waiter].todo != [] && sys[waiter].todo[0].Acquire? && sys[waiter].todo[0].lock == lock
             && !sys[waiter].queued
    ensures |After(sys, order)| == |sys| && After(sys, order)[waiter] == sys[waiter]
    decreases |order|
  {
    assert Held(sys, lock, Write);
    if order != [] {
      LostLockBlocks(Take(sys, order[0]), order[1..], gone, waiter, lock);
    }
  }

  /** The first n operations, done. */
  function Advanced(th: Thread, n: nat): Thread
    requires n <= |th.todo|
  {
    Thread(HeldAtEnd(th.held, th.todo[..n]), th.todo[n..], false)
  }

  /** The first n operations of a thread acquire nothing that another thread holds. */
  predicate Unhindered(sys: System, i: nat, n: nat)
    requires i < |sys| && n <= |sys[i].todo|
  {
    && (forall j :: 0 <= j < |sys| ==> !sys[j].queued)
    && (forall j, k :: 0 <= j < |sys| && j != i && 0 <= k < n && sys[i].todo[k].Acquire? ==>
          sys[i].todo[k].lock !in sys[j].held)
  }

  /** A thread that meets no lock of another's can be run alone. */
  lemma {:induction false} RunsAlone(sys: System, i: nat, n: nat, kept: set<Lock>) returns (order: seq<nat>)
    requires i < |sys| && n <= |sys[i].todo| && Unhindered(sys, i, n) && Disciplined(kept, sys[i].held, sys[i].todo)
    ensures Schedule(sys, order) && After(sys, order) == sys[i := Advanced(sys[i], n)]
    decreases n
  {
    var th := sys[i];
    if n == 0 {
      order := [];
      assert Advanced(th, 0) == th;
    } else {
      order := OneAlone(sys, i, kept);
      var next := sys[i := Advanced(th, 1)];
      AdvancedOne(th);
      assert next[i].todo == th.todo[1..] && next[i].held == HeldAfter(th.held, th.todo[0]);
      var rest := RunsAlone(next, i, n - 1, kept);
      SchedulesCompose(sys, order, rest);
      order := order + rest;
      assert th.todo[..n][1..] == th.todo[1..][..n - 1];
      assert Advanced(next[i], n - 1) == Advanced(th, n);
      assert next[i := Advanced(next[i], n - 1)] == sys[i := Advanced(th, n)];
    }
  }

  lemma AdvancedOne(th: Thread)
    requires th.todo != []
    ensures Advanced(th, 1) == Thread(HeldAfter(th.held, th.todo[0]), th.todo[1..], false)
  {
    var held := HeldAfter(th.held, th.todo[0]);
    assert th.todo[..1][1..] == [];
    assert HeldAtEnd(held, []) == held;
    assert HeldAtEnd(th.held, th.todo[..1]) == HeldAtEnd(held, th.todo[..1][1..]);
  }

  lemma OneAlone(sys: System, i: nat, kept: set<Lock>) returns (order: seq<nat>)
    requires i < |sys| && sys[i].todo != [] && Unhindered(sys, i, 1) && OpOk(kept, sys[i].held, sys[i].todo[0])
    ensures Schedule(sys, order) && After(sys, order) == sys[i := Advanced(sys[i], 1)]
  {
    var th := sys[i];
    AdvancedOne(th);
    assert CanStep(sys, i);
    var once := Take(sys, i);
    OneScheduled(sys, i);
    order := [i];
    if once[i].queued {
      assert CanStep(once, i);
      OneScheduled(once, i);
      SchedulesCompose(sys, [i], [i]);
      order := [i] + [i];
    }
  }

  lemma OneScheduled(sys: System, i: nat)
    requires i < |sys| && CanStep(sys, i)
    ensures Schedule(sys, [i]) && After(sys, [i]) == Take(sys, i)
  {
    assert [i][1..] == [];
    assert Schedule(Take(sys, i), []);
  }

  /** What keeps a system from being run to its end: a thread keeps a lock that another one acquires. */
  predicate Clash(sys: System, gone: nat, waiter: nat, lock: Lock) {
    && gone < |sys| && waiter < |sys| && gone != waiter
    && lock in Keeps(sys[gone]) && HeldAtEnd(sys[gone].held, sys[gone].todo)[lock] == Write
    && Uses(sys[waiter], lock)
  }

  /** The first operation that acquires one of the locks that the end of another thread holds. */
  function FirstUse(todo: seq<Op>, locks: set<Lock>): (n: nat)
    requires exists op :: op in todo && op.Acquire? && op.lock in locks
    ensures n < |todo| && todo[n].Acquire? && todo[n].lock in locks
    ensures forall k :: 0 <= k < n && todo[k].Acquire? ==> todo[k].lock !in locks
  {
    if todo[0].Acquire? && todo[0].lock in locks then 0 else 1 + FirstUse(todo[1..], locks)
  }

  /**
   A clash can strand a thread: run the one that keeps the lock to its end, then the other up
   to where it asks for a lock that is gone. No schedule brings it any further.
   */
  lemma ClashStrands(sys: System, gone: nat, waiter: nat, lock: Lock) returns (order: seq<nat>)
    requires Initial(sys) && Clash(sys, gone, waiter, lock)
    requires forall k :: k in Keeps(sys[gone]) ==> HeldAtEnd(map[], sys[gone].todo)[k] == Write
    ensures Schedule(sys, order) && Stranded(After(sys, order), waiter)
  {
    var th, kept := sys[waiter], Keeps(sys[gone]);
    var whole := |sys[gone].todo|;
    assert sys[gone].todo[..whole] == sys[gone].todo;
    var first := RunsAlone(sys, gone, whole, kept);
    var mid := After(sys, first);
    assert mid[gone] == Thread(HeldAtEnd(map[], sys[gone].todo), [], false);
    var n := FirstUse(th.todo, kept);
    var second := RunsAlone(mid, waiter, n, Keeps(th));
    SchedulesCompose(sys, first, second);
    order := first + second;
    var end := After(sys, order);
    assert end[gone] == mid[gone] && end[waiter].todo == th.todo[n..] && !end[waiter].queued;
    forall more | Schedule(end, more)
      ensures |After(end, more)| == |end| && After(end, more)[waiter] == end[waiter]
    {
      LostLockBlocks(end, more, gone, waiter, th.todo[n].lock);
    }
  }

  lemma StrandedCannotFinish(sys: System, i: nat)
    requires Stranded(sys, i)
    ensures !CanFinish(sys)
  {
  }

  /** What threads keep, they keep as writers. */
  predicate KeptForWriting(sys: System) {
    forall i, lock :: 0 <= i < |sys| && lock in Keeps(sys[i]) ==> HeldAtEnd(sys[i].held, sys[i].todo)[lock] == Write
  }

  /**
   The exact condition. Threads that start on such paths can be taken to their ends from
   every state of every schedule if and only if no thread uses a lock that another one keeps.
   */
  lemma NeverStuckExactly(sys: System)
    requires Initial(sys) && KeptForWriting(sys)
    ensures NeverStuck(sys) <==> KeptAlone(sys)
  {
    if KeptAlone(sys) {
      forall order | Schedule(sys, order)
        ensures CanFinish(After(sys, order))
      {
        AfterIsOk(sys, order);
        var more := OkSystemsFinish(After(sys, order));
      }
    } else {
      var gone, waiter, lock :| 0 <= gone < |sys| && 0 <= waiter < |sys| && gone != waiter
                                && lock in Keeps(sys[gone]) && Uses(sys[waiter], lock);
      var order := ClashStrands(sys, gone, waiter, lock);
      StrandedCannotFinish(After(sys, order), waiter);
    }
  }
}
