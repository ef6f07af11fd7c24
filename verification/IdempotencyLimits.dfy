/** When the idempotency protocol's assumptions hold, and what happens when one of them does not. */
module IdempotencyLimits {
  import opened Wrappers
  import opened MemoryTable
  import opened Idempotency

  // ----- short runs are undisturbed -----------------------------------------------------------

  /** The event falls before anything claimed or stored since `t0` expires, and closes no connection. */
  predicate Brief(e: Event, t0: int, ttlMs: int) {
    match e
    case Arrive(_, ttl) => ttl >= ttlMs
    case Advance(_, at) => t0 <= at < t0 + ttlMs
    case Tick(at) => t0 <= at < t0 + ttlMs
    case Answer(_, _) => true
    case Close(_) => false
  }

  predicate KeepsApart(e: Event, key: Key) {
    e.Arrive? ==> Apart(e.key, key)
  }

  /** Every row and every request outlives `end`. */
  ghost predicate Lasting(w: World, ttlMs: int, end: int) {
    && (forall e :: e in w.rows ==> e.value.expiresAt >= end)
    && (forall c :: c in w.clients ==> c.ttlMs >= ttlMs)
  }

  lemma {:induction false} PutMembers(rows: Rows, key: Key, row: Row)
    ensures forall e :: e in Put(rows, key, row) ==> e in rows || e == Entry(key, row)
  {
    if rows != [] {
      PutMembers(rows[1..], key, row);
    }
  }

  lemma {:induction false} RemoveMembers(rows: Rows, key: Key)
    ensures forall e :: e in Remove(rows, key) ==> e in rows
  {
    if rows != [] {
      RemoveMembers(rows[1..], key);
    }
  }

  lemma LastingSweep(w: World, ttlMs: int, end: int, at: int, max: nat)
    requires Lasting(w, ttlMs, end) && 0 <= at < end && |w.rows| <= max
    ensures Swept(w.rows, at, max) == w.rows
  {
    SweepIdle(w.rows, EXPIRES_AT, at, max);
  }

  lemma RowsStepLasts(rows: Rows, c: Client, at: int, end: int, max: nat)
    requires forall e :: e in rows ==> e.value.expiresAt >= end
    requires at + c.ttlMs >= end && Swept(rows, at, max) == rows
    ensures forall e :: e in RowsStep(rows, c, at, max) ==> e.value.expiresAt >= end
    ensures |RowsStep(rows, c, at, max)| <= |rows| + 1
  {
    RemoveMembers(rows, c.key);
    RemoveMembers(rows, LockKey(c.key));
    PutMembers(rows, LockKey(c.key), Row(0, None, at + c.ttlMs));
    if c.phase.Settling? {
      var r := Recorded(c.phase.answer);
      var row := Row(r.status, r.body, at + c.ttlMs);
      PutMembers(rows, c.key, row);
      RemoveMembers(Put(rows, c.key, row), LockKey(c.key));
    }
  }

  lemma {:induction false} BriefFrom(w: World, es: seq<Event>, t0: int, ttlMs: int, key: Key, max: nat)
    requires t0 >= 0 && Lasting(w, ttlMs, t0 + ttlMs) && |w.rows| + |es| <= max
    requires forall e :: e in es ==> Brief(e, t0, ttlMs) && KeepsApart(e, key)
    ensures UndisturbedRun(w, es, key, max)
    decreases |es|
  {
    if es != [] {
      assert Brief(es[0], t0, ttlMs) && KeepsApart(es[0], key);
      var next := Step(w, es[0], max);
      if es[0].Advance? || es[0].Tick? {
        LastingSweep(w, ttlMs, t0 + ttlMs, es[0].at, max);
      }
      if es[0].Advance? && es[0].who < |w.clients| {
        RowsStepLasts(w.rows, w.clients[es[0].who], es[0].at, t0 + ttlMs, max);
      }
      BriefFrom(next, es[1..], t0, ttlMs, key, max);
    }
  }

  /** Nothing disturbs a key in a run that ends before the shortest lifetime does, has no more events
      than the table has room, closes no connection early and uses no key that is another's lock. */
  lemma BriefRunUndisturbed(es: seq<Event>, t0: int, ttlMs: int, key: Key, max: nat)
    requires t0 >= 0 && |es| <= max
    requires forall e :: e in es ==> Brief(e, t0, ttlMs) && KeepsApart(e, key)
    ensures UndisturbedRun(START, es, key, max)
  {
    BriefFrom(START, es, t0, ttlMs, key, max);
  }

  // ----- each assumption is needed ------------------------------------------------------------

  lemma {:induction false} RunSnoc(w: World, es: seq<Event>, e: Event, max: nat)
    ensures Run(w, es + [e], max) == Step(Run(w, es, max), e, max)
    decreases |es|
  {
    if es == [] {
      assert (es + [e])[1..] == [];
    } else {
      assert (es + [e])[1..] == es[1..] + [e];
      RunSnoc(Step(w, es[0], max), es[1..], e, max);
    }
  }

  const OK_200 := Response(200, Some("ok"))
  const FAILED := Response(500, None)

  function LockRow(key: Key, expiresAt: int): Entry<Row> {
    Entry(LockKey(key), Row(0, None, expiresAt))
  }

  lemma {:induction false} PutNew(rows: Rows, key: Key, row: Row)
    requires Lookup(rows, key).None?
    ensures Put(rows, key, row) == rows + [Entry(key, row)]
  {
    if rows != [] {
      PutNew(rows[1..], key, row);
    }
  }

  /** A request that arrives, finds nothing and claims the lock. */
  function Starts(w: World, key: Key, ttlMs: int, at: int): seq<Event> {
    [Arrive(key, ttlMs)] + [Advance(|w.clients|, at)] + [Advance(|w.clients|, at)]
  }

  lemma StartsHandler(w: World, key: Key, ttlMs: int, at: int, max: nat)
    requires Swept(w.rows, at, max) == w.rows
    requires Lookup(w.rows, key).None? && Lookup(w.rows, LockKey(key)).None?
    ensures Run(w, Starts(w, key, ttlMs, at), max)
         == World(w.rows + [LockRow(key, at + ttlMs)], w.clients + [Client(key, ttlMs, Running)])
  {
    var arrive, advance := Arrive(key, ttlMs), Advance(|w.clients|, at);
    PutNew(w.rows, LockKey(key), Row(0, None, at + ttlMs));
    RunSnoc(w, [], arrive, max);
    assert [] + [arrive] == [arrive];
    RunSnoc(w, [arrive], advance, max);
    RunSnoc(w, [arrive] + [advance], advance, max);
  }

  lemma {:induction false} RunAppends(w: World, es: seq<Event>, more: seq<Event>, max: nat)
    ensures Run(w, es + more, max) == Run(Run(w, es, max), more, max)
    decreases |es|
  {
    if es == [] {
      assert es + more == more;
    } else {
      assert (es + more)[1..] == es[1..] + more;
      RunAppends(Step(w, es[0], max), es[1..], more, max);
    }
  }

  /** A request of the key whose handler starts at `at`, and a second one. */
  function TwoRequests(key: Key, ttlMs: int, at: int): seq<Event> {
    Starts(START, key, ttlMs, at) + [Arrive(key, ttlMs)]
  }

  lemma TwoRequestsRun(key: Key, ttlMs: int, at: int, max: nat)
    ensures Run(START, TwoRequests(key, ttlMs, at), max)
         == World([LockRow(key, at + ttlMs)], [Client(key, ttlMs, Running), Client(key, ttlMs, Arrived)])
  {
    StartsHandler(START, key, ttlMs, at, max);
    RunSnoc(START, Starts(START, key, ttlMs, at), Arrive(key, ttlMs), max);
  }

  /** When a connection closes early its lock is given up while its handler still runs, so a second
      handler of the same key can start beside it. */
  lemma EarlyCloseRunsTwo(key: Key, ttlMs: int, at: int, max: nat)
    ensures var es := TwoRequests(key, ttlMs, at) + [Close(0)] + [Advance(1, at)] + [Advance(1, at)];
            Run(START, es, max).clients == [Client(key, ttlMs, Running), Client(key, ttlMs, Running)]
  {
    var es := TwoRequests(key, ttlMs, at);
    var advance := Advance(1, at);
    LocksDiffer(key, key);
    TwoRequestsRun(key, ttlMs, at, max);
    RunSnoc(START, es, Close(0), max);
    assert Run(START, es + [Close(0)], max) == World([], [Client(key, ttlMs, Running), Client(key, ttlMs, Arrived)]);
    RunSnoc(START, es + [Close(0)], advance, max);
    assert Run(START, es + [Close(0)] + [advance], max)
      == World([], [Client(key, ttlMs, Running), Client(key, ttlMs, Missed)]);
    RunSnoc(START, es + [Close(0)] + [advance], advance, max);
  }

  /** So can one when a handler runs for the lock's whole lifetime. */
  lemma ExpiredLockRunsTwo(key: Key, ttlMs: int, at: int, max: nat)
    requires ttlMs > 0 && at >= 0
    ensures var es := TwoRequests(key, ttlMs, at) + [Advance(1, at + ttlMs)] + [Advance(1, at + ttlMs)];
            Run(START, es, max).clients == [Client(key, ttlMs, Running), Client(key, ttlMs, Running)]
  {
    var es := TwoRequests(key, ttlMs, at);
    var advance := Advance(1, at + ttlMs);
    LocksDiffer(key, key);
    TwoRequestsRun(key, ttlMs, at, max);
    RunSnoc(START, es, advance, max);
    assert Swept([LockRow(key, at + ttlMs)], at + ttlMs, max) == [];
    assert Run(START, es + [advance], max) == World([], [Client(key, ttlMs, Running), Client(key, ttlMs, Missed)]);
    RunSnoc(START, es + [advance], advance, max);
  }

  // ----- keys that name another key's lock ----------------------------------------------------

  /** The world with a handler of `LockKey(key)` in flight beside one of `key`: the second one's lock
      lies in the row that the first one's answer goes to. */
  function BothRunning(key: Key, ttlMs: int, at: int): World {
    World([LockRow(LockKey(key), at + ttlMs), LockRow(key, at + ttlMs)],
          [Client(LockKey(key), ttlMs, Running), Client(key, ttlMs, Running)])
  }

  /** The first one's answer is stored, then cleared by the second one's failure. */
  function AnswerAndClear(at: int): seq<Event> {
    [Answer(0, OK_200)] + [Advance(0, at)] + [Answer(1, FAILED)] + [Advance(1, at)]
  }

  function Cleared(key: Key, ttlMs: int): World {
    World([], [Client(LockKey(key), ttlMs, Settled(OK_200)), Client(key, ttlMs, Settled(FAILED))])
  }

  function AliasedRun(key: Key, ttlMs: int, at: int): seq<Event> {
    var one := World([LockRow(LockKey(key), at + ttlMs)], [Client(LockKey(key), ttlMs, Running)]);
    Starts(START, LockKey(key), ttlMs, at)
    + Starts(one, key, ttlMs, at)
    + AnswerAndClear(at)
    + Starts(Cleared(key, ttlMs), LockKey(key), ttlMs, at)
  }

  lemma LongerLock(key: Key)
    ensures |LockKey(key)| == |key| + 5
  {
  }

  lemma AnswerIsCleared(key: Key, ttlMs: int, at: int, max: nat)
    requires ttlMs > 0 && at >= 0 && max >= 2
    ensures Run(BothRunning(key, ttlMs, at), AnswerAndClear(at), max) == Cleared(key, ttlMs)
  {
    var w := BothRunning(key, ttlMs, at);
    var k2 := LockKey(key);
    LongerLock(key);
    LongerLock(k2);
    SweepIdle(w.rows, EXPIRES_AT, at, max);
    var done := [Entry(k2, Row(200, Some("ok"), at + ttlMs))];
    assert Put(w.rows, k2, done[0].value) == [w.rows[0]] + done;
    var answered := World(done, [Client(k2, ttlMs, Settled(OK_200)), Client(key, ttlMs, Running)]);
    RunSnoc(w, [], Answer(0, OK_200), max);
    assert [] + [Answer(0, OK_200)] == [Answer(0, OK_200)];
    RunSnoc(w, [Answer(0, OK_200)], Advance(0, at), max);
    assert Run(w, [Answer(0, OK_200)] + [Advance(0, at)], max) == answered;
    RunSnoc(w, [Answer(0, OK_200)] + [Advance(0, at)], Answer(1, FAILED), max);
    RunSnoc(w, [Answer(0, OK_200)] + [Advance(0, at)] + [Answer(1, FAILED)], Advance(1, at), max);
  }

  /** A handler of the key answered below 500, and another of its handlers is in flight. */
  ghost predicate RunsAgain(w: World, key: Key) {
    exists i, j :: 0 <= i < |w.clients| && 0 <= j < |w.clients| && w.clients[i].key == key
                   && w.clients[i].phase.Settled? && w.clients[i].phase.answer.status < 500
                   && InFlight(w.clients[j], key)
  }

  lemma BothStart(key: Key, ttlMs: int, at: int, max: nat)
    requires ttlMs > 0 && at >= 0 && max >= 2
    ensures var one := World([LockRow(LockKey(key), at + ttlMs)], [Client(LockKey(key), ttlMs, Running)]);
            Run(Run(START, Starts(START, LockKey(key), ttlMs, at), max), Starts(one, key, ttlMs, at), max)
              == BothRunning(key, ttlMs, at)
  {
    var k2 := LockKey(key);
    LongerLock(key);
    LongerLock(k2);
    var one := World([LockRow(k2, at + ttlMs)], [Client(k2, ttlMs, Running)]);
    StartsHandler(START, k2, ttlMs, at, max);
    SweepIdle(one.rows, EXPIRES_AT, at, max);
    StartsHandler(one, key, ttlMs, at, max);
    assert START.rows + one.rows == one.rows && START.clients + one.clients == one.clients;
  }

  lemma RunFourParts(w: World, a: seq<Event>, b: seq<Event>, c: seq<Event>, d: seq<Event>, max: nat)
    ensures Run(w, a + b + c + d, max) == Run(Run(Run(Run(w, a, max), b, max), c, max), d, max)
  {
    RunAppends(w, a, b, max);
    RunAppends(w, a + b, c, max);
    RunAppends(w, a + b + c, d, max);
  }

  lemma AliasedRunWorld(key: Key, ttlMs: int, at: int, max: nat)
    requires ttlMs > 0 && at >= 0 && max >= 2
    ensures Run(START, AliasedRun(key, ttlMs, at), max)
         == World([LockRow(LockKey(key), at + ttlMs)],
                  Cleared(key, ttlMs).clients + [Client(LockKey(key), ttlMs, Running)])
  {
    var k2 := LockKey(key);
    var one := World([LockRow(k2, at + ttlMs)], [Client(k2, ttlMs, Running)]);
    RunFourParts(START, Starts(START, k2, ttlMs, at), Starts(one, key, ttlMs, at), AnswerAndClear(at),
                 Starts(Cleared(key, ttlMs), k2, ttlMs, at), max);
    BothStart(key, ttlMs, at, max);
    AnswerIsCleared(key, ttlMs, at, max);
    StartsHandler(Cleared(key, ttlMs), k2, ttlMs, at, max);
  }

  lemma AliasedRunsAgain(key: Key, ttlMs: int, at: int, max: nat)
    requires ttlMs > 0 && at >= 0 && max >= 2
    ensures RunsAgain(Run(START, AliasedRun(key, ttlMs, at), max), LockKey(key))
  {
    AliasedRunWorld(key, ttlMs, at, max);
    var cs := Run(START, AliasedRun(key, ttlMs, at), max).clients;
    assert InFlight(cs[2], LockKey(key)) && cs[0] == Client(LockKey(key), ttlMs, Settled(OK_200));
  }

  ghost predicate OnKeys(es: seq<Event>, a: Key, b: Key, t0: int, ttlMs: int) {
    forall e :: e in es ==> Brief(e, t0, ttlMs) && (e.Arrive? ==> e.key == a || e.key == b)
  }

  lemma AliasedOnKeys(key: Key, ttlMs: int, at: int)
    requires ttlMs > 0
    ensures OnKeys(AliasedRun(key, ttlMs, at), key, LockKey(key), at, ttlMs)
    ensures |AliasedRun(key, ttlMs, at)| == 13
  {
  }

  lemma ApartRunsOnce(es: seq<Event>, a: Key, b: Key, t0: int, ttlMs: int, max: nat)
    requires t0 >= 0 && |es| <= max && OnKeys(es, a, b, t0, ttlMs) && Apart(a, b)
    ensures !RunsAgain(Run(START, es, max), a)
  {
    LocksDiffer(a, a);
    BriefRunUndisturbed(es, t0, ttlMs, a, max);
    RunKeepsWorld(START, es, a, max);
  }

  /** No brief run with requests of these two keys runs a handler again after an answer. */
  ghost predicate SafeTogether(a: Key, b: Key, t0: int, ttlMs: int, max: nat) {
    forall es :: |es| <= max && OnKeys(es, a, b, t0, ttlMs)
                 ==> !RunsAgain(Run(START, es, max), a) && !RunsAgain(Run(START, es, max), b)
  }

  lemma AliasedUnsafe(a: Key, b: Key, key: Key, t0: int, ttlMs: int, max: nat)
    requires t0 >= 0 && ttlMs > 0 && max >= 100
    requires (key == a && b == LockKey(a)) || (key == b && a == LockKey(b))
    ensures !SafeTogether(a, b, t0, ttlMs, max)
  {
    var es := AliasedRun(key, ttlMs, t0);
    AliasedOnKeys(key, ttlMs, t0);
    AliasedRunsAgain(key, ttlMs, t0, max);
    assert |es| <= max && OnKeys(es, a, b, t0, ttlMs);
  }

  /** Two keys are safe together exactly when neither names the other's lock. */
  lemma SafeExactlyWhenApart(a: Key, b: Key, t0: int, ttlMs: int, max: nat)
    requires t0 >= 0 && ttlMs > 0 && max >= 100
    ensures SafeTogether(a, b, t0, ttlMs, max) <==> Apart(a, b)
  {
    if Apart(a, b) {
      forall es | |es| <= max && OnKeys(es, a, b, t0, ttlMs)
        ensures !RunsAgain(Run(START, es, max), a) && !RunsAgain(Run(START, es, max), b)
      {
        ApartRunsOnce(es, a, b, t0, ttlMs, max);
        ApartRunsOnce(es, b, a, t0, ttlMs, max);
      }
    } else {
      AliasedUnsafe(a, b, if b == LockKey(a) then a else b, t0, ttlMs, max);
    }
  }
}
