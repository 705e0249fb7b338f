/**
 The difficulty controller: once a second it takes the handshakes counted since the last
 tick, raises the difficulty at once, and lowers it only after a cooldown since the last
 raise. The cooldown is a parameter, in the clock's unit.
 */
module Traffic {

  const DIFFICULTY_6_THRESHOLD := 20
  const DIFFICULTY_7_THRESHOLD := 100

  function Target(rps: nat): int {
    if rps > DIFFICULTY_7_THRESHOLD then 7 else if rps > DIFFICULTY_6_THRESHOLD then 6 else 5
  }

  datatype Controller = Controller(handshakes: nat, difficulty: int, lastUpped: int)

  datatype Event = Handshake | Tick(now: int)

  function Next(c: Controller, e: Event, cooldown: int): Controller {
    match e
    case Handshake => c.(handshakes := c.handshakes + 1)
    case Tick(now) =>
      var target := Target(c.handshakes);
      if target > c.difficulty then Controller(0, target, now)
      else if target < c.difficulty && now - c.lastUpped > cooldown then Controller(0, target, c.lastUpped)
      else c.(handshakes := 0)
  }

  /** The relay starts at difficulty 5; LastUpped holds whatever its zero time reads as. */
  function Run(events: seq<Event>, zeroTime: int, cooldown: int): Controller {
    if events == [] then Controller(0, 5, zeroTime)
    else Next(Run(events[..|events| - 1], zeroTime, cooldown), events[|events| - 1], cooldown)
  }

  class TrafficMonitor {
    var handshakeCounter: nat
    var currentDifficulty: int
    var lastUpped: int
    const cooldown: int

    ghost function State(): Controller
      reads this
    {
      Controller(handshakeCounter, currentDifficulty, lastUpped)
    }

    constructor (zeroTime: int, cooldown: int)
      ensures State() == Run([], zeroTime, cooldown) && this.cooldown == cooldown
    {
      handshakeCounter, currentDifficulty, lastUpped := 0, 5, zeroTime;
      this.cooldown := cooldown;
    }

    /** HandleCreatePath, once the proof of work was accepted. */
    method CountHandshake()
      modifies this
      ensures State() == Next(old(State()), Handshake, cooldown)
    {
      handshakeCounter := handshakeCounter + 1;
    }

    /** One tick of MonitorTraffic. */
    method MonitorTick(now: int)
      modifies this
      ensures State() == Next(old(State()), Tick(now), cooldown)
    {
      var rps := handshakeCounter;
      handshakeCounter := 0;
      var targetDiff := 5;
      if rps > DIFFICULTY_7_THRESHOLD {
        targetDiff := 7;
      } else if rps > DIFFICULTY_6_THRESHOLD {
        targetDiff := 6;
      }
      var current := currentDifficulty;
      if targetDiff > current {
        currentDifficulty := targetDiff;
        lastUpped := now;
      } else if targetDiff < current {
        if now - lastUpped > cooldown {
          currentDifficulty := targetDiff;
        }
      }
    }
  }

  // ---- The closed form over a trace ----

  /** The number of handshakes after the last tick of a trace: what the next tick will see. */
  function Recent(events: seq<Event>): nat {
    if events == [] || events[|events| - 1].Tick? then 0 else 1 + Recent(events[..|events| - 1])
  }

  predicate IsTick(events: seq<Event>, i: int) {
    0 <= i < |events| && events[i].Tick?
  }

  /** The target of the tick at i: it depends on the handshakes since the tick before, and on nothing else. */
  function TargetAt(events: seq<Event>, i: int): int
    requires IsTick(events, i)
  {
    Target(Recent(events[..i]))
  }

  function LevelAfter(events: seq<Event>, n: nat, zeroTime: int, cooldown: int): int
    requires n <= |events|
  {
    Run(events[..n], zeroTime, cooldown).difficulty
  }

  /** The tick at i raises: its target exceeds the level before it. */
  predicate RaisesAt(events: seq<Event>, i: int, zeroTime: int, cooldown: int) {
    IsTick(events, i) && TargetAt(events, i) > LevelAfter(events, i, zeroTime, cooldown)
  }

  /** The position of the latest tick before n, or -1. */
  function LatestTick(events: seq<Event>, n: nat): (k: int)
    requires n <= |events|
    ensures -1 <= k < n && (k >= 0 ==> events[k].Tick?)
    ensures forall i :: k < i < n ==> events[i].Handshake?
  {
    if n == 0 then -1 else if events[n - 1].Tick? then n - 1 else LatestTick(events, n - 1)
  }

  /** The position of the last raise before n, or -1. */
  function LastRaise(events: seq<Event>, n: nat, zeroTime: int, cooldown: int): (j: int)
    requires n <= |events|
    ensures -1 <= j < n && (j >= 0 ==> RaisesAt(events, j, zeroTime, cooldown))
    ensures forall i :: j < i < n ==> !RaisesAt(events, i, zeroTime, cooldown)
  {
    if n == 0 then -1
    else if RaisesAt(events, n - 1, zeroTime, cooldown) then n - 1
    else LastRaise(events, n - 1, zeroTime, cooldown)
  }

  predicate Monotone(events: seq<Event>) {
    forall i, j :: 0 <= i < j < |events| && events[i].Tick? && events[j].Tick? ==> events[i].now <= events[j].now
  }

  lemma {:induction false} HandshakesAreRecent(events: seq<Event>, zeroTime: int, cooldown: int)
    ensures Run(events, zeroTime, cooldown).handshakes == Recent(events)
  {
    if events != [] {
      HandshakesAreRecent(events[..|events| - 1], zeroTime, cooldown);
    }
  }

  lemma RunStep(events: seq<Event>, n: nat, zeroTime: int, cooldown: int)
    requires n < |events|
    ensures Run(events[..n + 1], zeroTime, cooldown) == Next(Run(events[..n], zeroTime, cooldown), events[n], cooldown)
    ensures Run(events[..n], zeroTime, cooldown).handshakes == Recent(events[..n])
  {
    assert events[..n + 1][..n] == events[..n];
    HandshakesAreRecent(events[..n], zeroTime, cooldown);
  }

  /**
   The level that the trace itself explains: the last raise's target while its cooldown lasts,
   then the latest tick's; 5 before any raise.
   */
  function ExplainedLevel(events: seq<Event>, n: nat, zeroTime: int, cooldown: int): int
    requires n <= |events|
  {
    var j, k := LastRaise(events, n, zeroTime, cooldown), LatestTick(events, n);
    if j < 0 || k < 0 then 5
    else if k == j || events[k].now - events[j].now <= cooldown then TargetAt(events, j)
    else TargetAt(events, k)
  }

  /** The closed form of the controller, at every point of every trace with a clock that does not run backwards. */
  lemma {:induction false} LevelIsExplained(events: seq<Event>, n: nat, zeroTime: int, cooldown: int)
    requires Monotone(events) && n <= |events|
    ensures LevelAfter(events, n, zeroTime, cooldown) == ExplainedLevel(events, n, zeroTime, cooldown)
    ensures LastRaise(events, n, zeroTime, cooldown) >= 0 ==>
              && LatestTick(events, n) >= LastRaise(events, n, zeroTime, cooldown)
              && Run(events[..n], zeroTime, cooldown).lastUpped == events[LastRaise(events, n, zeroTime, cooldown)].now
  {
    if n > 0 {
      LevelIsExplained(events, n - 1, zeroTime, cooldown);
      RunStep(events, n - 1, zeroTime, cooldown);
    }
  }

  /** No tick between the last raise and n exceeds the raise's target, while the raise's cooldown lasts. */
  lemma NoneExceedsRaise(events: seq<Event>, i: nat, n: nat, zeroTime: int, cooldown: int)
    requires Monotone(events) && n <= |events| && IsTick(events, i) && i < n
    requires var j := LastRaise(events, n, zeroTime, cooldown); 0 <= j < i && events[i].now - events[j].now <= cooldown
    ensures TargetAt(events, i) <= TargetAt(events, LastRaise(events, n, zeroTime, cooldown))
  {
    var j := LastRaise(events, n, zeroTime, cooldown);
    SinceRaise(events, j, i, n, zeroTime, cooldown);
    LevelIsExplained(events, i, zeroTime, cooldown);
    assert !RaisesAt(events, i, zeroTime, cooldown);
    var k := LatestTick(events, i);
    assert k >= j && (k == j || events[k].now <= events[i].now);
  }

  /**
   After each tick the level is one of 5, 6 and 7, never below the tick's own target, and
   never below the target of any tick since the last raise that lies within its cooldown.
   */
  lemma LevelCoversDemand(events: seq<Event>, k: nat, zeroTime: int, cooldown: int)
    requires Monotone(events) && IsTick(events, k)
    ensures var level, j := LevelAfter(events, k + 1, zeroTime, cooldown), LastRaise(events, k + 1, zeroTime, cooldown);
            && level in {5, 6, 7} && TargetAt(events, k) <= level
            && (j >= 0 && (k == j || events[k].now - events[j].now <= cooldown) ==>
                  forall i :: j <= i <= k && IsTick(events, i) ==> TargetAt(events, i) <= level)
  {
    LevelIsExplained(events, k + 1, zeroTime, cooldown);
    LevelIsExplained(events, k, zeroTime, cooldown);
    var j := LastRaise(events, k + 1, zeroTime, cooldown);
    forall i | j < i <= k && j >= 0 && IsTick(events, i) && events[k].now - events[j].now <= cooldown
      ensures TargetAt(events, i) <= TargetAt(events, j)
    {
      NoneExceedsRaise(events, i, k + 1, zeroTime, cooldown);
    }
  }

  /** Between a raise and the next one, the last raise stays the same. */
  lemma {:induction false} SinceRaise(events: seq<Event>, j: int, i: nat, n: nat, zeroTime: int, cooldown: int)
    requires 0 <= j < i <= n <= |events| && LastRaise(events, n, zeroTime, cooldown) == j
    ensures LastRaise(events, i, zeroTime, cooldown) == j
  {
    if i < n {
      SinceRaise(events, j, i, n - 1, zeroTime, cooldown);
    }
  }

  // ---- The same by the handshakes themselves ----

  /** The handshakes that the tick at i saw: those after the tick before it. */
  function SeenAt(events: seq<Event>, i: int): nat
    requires IsTick(events, i)
  {
    Recent(events[..i])
  }

  /** More handshakes never mean less difficulty. */
  lemma TargetIsMonotone(rps: nat, more: nat)
    requires rps <= more
    ensures 5 <= Target(rps) <= Target(more) <= 7
    ensures (Target(rps) >= 6 <==> rps > 20) && (Target(rps) == 7 <==> rps > 100)
  {
  }

  /** The level changes at ticks only, and never by more than the handshakes seen justify. */
  lemma LevelStep(events: seq<Event>, k: nat, zeroTime: int, cooldown: int)
    requires k < |events|
    ensures var before, after :=
            LevelAfter(events, k, zeroTime, cooldown), LevelAfter(events, k + 1, zeroTime, cooldown);
            if events[k].Handshake? then after == before
            else after == before || after == TargetAt(events, k)
  {
    RunStep(events, k, zeroTime, cooldown);
  }

  lemma {:induction false} LevelIsInRange(events: seq<Event>, n: nat, zeroTime: int, cooldown: int)
    requires n <= |events|
    ensures 5 <= LevelAfter(events, n, zeroTime, cooldown) <= 7
  {
    if n > 0 {
      LevelIsInRange(events, n - 1, zeroTime, cooldown);
      LevelStep(events, n - 1, zeroTime, cooldown);
    }
  }

  /**
   What the handshakes of the last second do to the level, on every trace: more than 20 give
   at least 6 and more than 100 give 7, at once; and the level rises above 5 only at a tick
   that saw more than 20, and to 7 only at one that saw more than 100.
   */
  lemma HandshakesDecideLevel(events: seq<Event>, k: nat, zeroTime: int, cooldown: int)
    requires IsTick(events, k)
    ensures var before, after :=
            LevelAfter(events, k, zeroTime, cooldown), LevelAfter(events, k + 1, zeroTime, cooldown);
            && 5 <= after <= 7
            && (SeenAt(events, k) > 20 ==> after >= 6)
            && (SeenAt(events, k) > 100 ==> after == 7)
            && (after > before ==> SeenAt(events, k) > 20)
            && (after == 7 && before < 7 ==> SeenAt(events, k) > 100)
  {
    RunStep(events, k, zeroTime, cooldown);
    TargetIsMonotone(SeenAt(events, k), SeenAt(events, k));
    LevelIsInRange(events, k, zeroTime, cooldown);
    LevelIsInRange(events, k + 1, zeroTime, cooldown);
  }
}
