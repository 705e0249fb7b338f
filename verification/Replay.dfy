/**
 Replay exclusion over runs. Requests verify a token at one instant and reach the replay
 table at a later one, while the purge loop forgets expired entries. Time is in nanoseconds;
 a token verifies strictly before its expiry (section 4.1.4 of RFC 7519), and an entry is
 forgotten once the clock's whole seconds exceed it.
 */
module Replay {
  import opened ProofOfWork

  const SECOND: int := 1_000_000_000

  /** A request whose token verified and which has not reached the table yet. */
  datatype Pending = Pending(claims: Claims, verified: int)

  datatype Table = Table(now: int, pending: multiset<Pending>, used: map<string, int>, passed: seq<Claims>)

  datatype Event =
    | Verify(claims: Claims, at: int)
    | Reach(request: Pending, at: int)
    | Purge(at: int)

  const EMPTY := Table(0, multiset{}, map[], [])

  /** The clock does not run backwards, and a request reaches the table at most delay after it verified. */
  predicate Possible(t: Table, e: Event, delay: int) {
    && t.now <= e.at
    && (e.Verify? ==> e.at < e.claims.exp * SECOND)
    && (e.Reach? ==> e.request in t.pending && e.at - e.request.verified <= delay)
  }

  function Next(t: Table, e: Event): Table {
    match e
    case Verify(claims, at) => t.(now := at, pending := t.pending + multiset{Pending(claims, at)})
    case Reach(request, at) =>
      var (replay, used) := Admit(t.used, request.claims.salt, request.claims.exp);
      t.(now := at, pending := t.pending - multiset{request}, used := used,
        passed := if replay then t.passed else t.passed + [request.claims])
    case Purge(at) => t.(now := at, used := Purged(t.used, at / SECOND))
  }

  predicate PossibleRun(t: Table, run: seq<Event>, delay: int)
    decreases |run|
  {
    run == [] || (Possible(t, run[0], delay) && PossibleRun(Next(t, run[0]), run[1..], delay))
  }

  function Final(t: Table, run: seq<Event>): Table
    decreases |run|
  {
    if run == [] then t else Final(Next(t, run[0]), run[1..])
  }

  predicate NoneTwice(passed: seq<Claims>) {
    forall i, j :: 0 <= i < j < |passed| ==> passed[i] != passed[j]
  }

  /** A token that passed is on the table under its own expiry until a full second after it expired. */
  ghost predicate Remembered(t: Table, c: Claims) {
    (c.salt in t.used && t.used[c.salt] == c.exp) || t.now >= (c.exp + 1) * SECOND
  }

  ghost predicate TableOk(t: Table) {
    && NoneTwice(t.passed)
    && (forall c :: c in t.passed ==> Remembered(t, c))
    && (forall p :: p in t.pending ==> p.verified < p.claims.exp * SECOND)
  }

  lemma StepKeepsTable(t: Table, e: Event, delay: int)
    requires TableOk(t) && Possible(t, e, delay) && delay <= SECOND
    ensures TableOk(Next(t, e))
  {
    var t' := Next(t, e);
    match e
    case Verify(_, _) =>
    case Reach(request, at) =>
      var c := request.claims;
      assert at < (c.exp + 1) * SECOND;
      if c.salt !in t.used {
        assert c !in t.passed;
        forall d | d in t'.passed ensures Remembered(t', d) {
          assert d == c || Remembered(t, d);
        }
      }
    case Purge(at) =>
      forall c | c in t'.passed ensures Remembered(t', c) {
        assert Remembered(t, c);
      }
  }

  lemma {:induction false} RunKeepsTable(t: Table, run: seq<Event>, delay: int)
    requires TableOk(t) && PossibleRun(t, run, delay) && delay <= SECOND
    ensures TableOk(Final(t, run))
    decreases |run|
  {
    if run != [] {
      StepKeepsTable(t, run[0], delay);
      RunKeepsTable(Next(t, run[0]), run[1..], delay);
    }
  }

  /**
   No token passes the replay gate twice in any run in which requests take at most delay from
   verification to the gate.
   */
  ghost predicate ReplayExcluded(delay: int) {
    forall run :: PossibleRun(EMPTY, run, delay) ==> NoneTwice(Final(EMPTY, run).passed)
  }

  const CLAIMS := Claims("salt", 5, 1)
  const EARLY := Pending(CLAIMS, SECOND - 1)

  /** A token verifies twice just before it expires; its entry is purged between the two visits to the gate. */
  const SLOW_RUN: seq<Event> := [
    Verify(CLAIMS, SECOND - 1), Verify(CLAIMS, SECOND - 1), Reach(EARLY, SECOND - 1),
    Purge(2 * SECOND), Reach(EARLY, 2 * SECOND)]

  lemma RunUnfolds(t: Table, e: Event, rest: seq<Event>, delay: int)
    ensures PossibleRun(t, [e] + rest, delay) <==> Possible(t, e, delay) && PossibleRun(Next(t, e), rest, delay)
    ensures Final(t, [e] + rest) == Final(Next(t, e), rest)
  {
    assert ([e] + rest)[1..] == rest;
  }

  lemma SlowRunPassesTwice(delay: int)
    requires delay > SECOND
    ensures PossibleRun(EMPTY, SLOW_RUN, delay) && Final(EMPTY, SLOW_RUN).passed == [CLAIMS, CLAIMS]
  {
    var run := SLOW_RUN;
    var t1 := Next(EMPTY, run[0]);
    var t2 := Next(t1, run[1]);
    var t3 := Next(t2, run[2]);
    var t4 := Next(t3, run[3]);
    assert t3.used == map["salt" := 1] && t4.used == map[];
    RunUnfolds(t4, run[4], [], delay);
    RunUnfolds(t3, run[3], [run[4]], delay);
    RunUnfolds(t2, run[2], [run[3], run[4]], delay);
    RunUnfolds(t1, run[1], [run[2], run[3], run[4]], delay);
    RunUnfolds(EMPTY, run[0], [run[1], run[2], run[3], run[4]], delay);
    assert [run[4]] == [run[4]] + [];
    assert [run[3], run[4]] == [run[3]] + [run[4]];
    assert [run[2], run[3], run[4]] == [run[2]] + [run[3], run[4]];
    assert [run[1], run[2], run[3], run[4]] == [run[1]] + [run[2], run[3], run[4]];
    assert run == [run[0]] + [run[1], run[2], run[3], run[4]];
  }

  /** Replay exclusion holds for every run exactly when no request takes more than a second to reach the gate. */
  lemma ReplayExcludedWithinASecond(delay: int)
    ensures ReplayExcluded(delay) <==> delay <= 1_000_000_000
  {
    if delay <= SECOND {
      forall run | PossibleRun(EMPTY, run, delay)
        ensures NoneTwice(Final(EMPTY, run).passed)
      {
        RunKeepsTable(EMPTY, run, delay);
      }
    } else {
      SlowRunPassesTwice(delay);
      assert Final(EMPTY, SLOW_RUN).passed[0] == Final(EMPTY, SLOW_RUN).passed[1];
    }
  }
}
