/** How much of a run it takes before a second handler of one key can start. */
module IdempotencyBudget {
  import opened Wrappers
  import opened MemoryTable
  import opened Idempotency
  import opened IdempotencyLimits

  // ----- what a run is allowed ----------------------------------------------------------------

  /** Runs of so many events within so many milliseconds, that may close connections early or not. */
  datatype Budget = Budget(events: nat, spanMs: nat, closes: bool)

  predicate Within(e: Event, key: Key, t0: int, ttlMs: int, b: Budget) {
    match e
    case Arrive(k, ttl) => ttl >= ttlMs && Apart(k, key)
    case Advance(_, at) => t0 <= at <= t0 + b.spanMs
    case Tick(at) => t0 <= at <= t0 + b.spanMs
    case Answer(_, _) => true
    case Close(_) => b.closes
  }

  ghost predicate Affordable(es: seq<Event>, key: Key, t0: int, ttlMs: int, b: Budget) {
    |es| <= b.events && forall e :: e in es ==> Within(e, key, t0, ttlMs, b)
  }

  ghost predicate OneHandler(cs: seq<Client>, key: Key) {
    forall i: nat, j: nat :: i < |cs| && j < |cs| && InFlight(cs[i], key) && InFlight(cs[j], key) ==> i == j
  }

  /** No run within the budget has two handlers of the key in flight. */
  ghost predicate OneHandlerAlways(key: Key, t0: int, ttlMs: int, b: Budget, max: nat) {
    forall es :: Affordable(es, key, t0, ttlMs, b) ==> OneHandler(Run(START, es, max).clients, key)
  }

  // ----- what the phases cost -----------------------------------------------------------------

  /** How many events it takes a request at least to get there. */
  function Cost(p: Phase): nat {
    match p
    case Arrived => 1
    case Missed => 2
    case Rereading => 3
    case Running => 3
    case Settling(_) => 4
    case Settled(_) => 5
    case Replied(_) => 2
    case Refused => 3
  }

  function Costs(cs: seq<Client>): nat {
    if cs == [] then 0 else Cost(cs[0].phase) + Costs(cs[1..])
  }

  /** It has started its handler. */
  predicate Started(p: Phase) {
    p.Running? || p.Settling? || p.Settled?
  }

  function Starters(cs: seq<Client>): nat {
    if cs == [] then 0 else (if Started(cs[0].phase) then 1 else 0) + Starters(cs[1..])
  }

  function Closes(es: seq<Event>): nat {
    if es == [] then 0 else (if es[0].Close? then 1 else 0) + Closes(es[1..])
  }

  lemma {:induction false} CostsUpdate(cs: seq<Client>, i: nat, c: Client)
    requires i < |cs|
    ensures Costs(cs[i := c]) == Costs(cs) - Cost(cs[i].phase) + Cost(c.phase)
    ensures Starters(cs[i := c])
         == Starters(cs) - (if Started(cs[i].phase) then 1 else 0) + (if Started(c.phase) then 1 else 0)
  {
    if i == 0 {
      assert cs[i := c][1..] == cs[1..];
    } else {
      assert cs[i := c][1..] == cs[1..][i - 1 := c];
      CostsUpdate(cs[1..], i - 1, c);
    }
  }

  lemma {:induction false} CostsAppend(cs: seq<Client>, c: Client)
    ensures Costs(cs + [c]) == Costs(cs) + Cost(c.phase)
    ensures Starters(cs + [c]) == Starters(cs) + if Started(c.phase) then 1 else 0
  {
    if cs == [] {
      assert (cs + [c])[1..] == [];
    } else {
      assert (cs + [c])[1..] == cs[1..] + [c];
      CostsAppend(cs[1..], c);
    }
  }

  lemma {:induction false} StartersCost(cs: seq<Client>)
    ensures 3 * Starters(cs) <= Costs(cs)
  {
    if cs != [] {
      StartersCost(cs[1..]);
    }
  }

  /** An event adds at most one to the costs, a close nothing; nobody un-starts, and one handler starts
      at most. */
  lemma StepCosts(w: World, e: Event, max: nat)
    ensures var cs := Step(w, e, max).clients;
            && Costs(cs) + (if e.Close? then 1 else 0) <= Costs(w.clients) + 1
            && Starters(w.clients) <= Starters(cs)
  {
    match e
    case Arrive(k, ttlMs) => CostsAppend(w.clients, Client(k, ttlMs, Arrived));
    case Advance(who, at) =>
      if who < |w.clients| {
        var c := w.clients[who];
        CostsUpdate(w.clients, who, c.(phase := PhaseStep(w.rows, c, at, max)));
      }
    case Answer(who, r) =>
      if who < |w.clients| {
        CostsUpdate(w.clients, who, w.clients[who].(phase := Settling(r)));
      }
    case _ =>
  }

  lemma {:induction false} RunCosts(w: World, es: seq<Event>, max: nat)
    ensures Costs(Run(w, es, max).clients) + Closes(es) <= Costs(w.clients) + |es|
    decreases |es|
  {
    if es != [] {
      StepCosts(w, es[0], max);
      RunCosts(Step(w, es[0], max), es[1..], max);
    }
  }

  lemma {:induction false} AmongStarters(cs: seq<Client>, i: nat)
    requires i < |cs| && Started(cs[i].phase)
    ensures Starters(cs) >= 1
  {
    if i > 0 {
      AmongStarters(cs[1..], i - 1);
    }
  }

  lemma {:induction false} TwoStarters(cs: seq<Client>, i: nat, j: nat)
    requires i < j < |cs| && Started(cs[i].phase) && Started(cs[j].phase)
    ensures Starters(cs) >= 2
  {
    if i == 0 {
      AmongStarters(cs[1..], j - 1);
    } else {
      TwoStarters(cs[1..], i - 1, j - 1);
    }
  }

  /** Two handlers in flight have taken six events, closes apart. */
  lemma TwoHandlersCost(es: seq<Event>, key: Key, max: nat)
    requires !OneHandler(Run(START, es, max).clients, key)
    ensures Closes(es) + 6 <= |es| && Starters(Run(START, es, max).clients) >= 2
  {
    var cs := Run(START, es, max).clients;
    var i: nat, j: nat :| i < |cs| && j < |cs| && InFlight(cs[i], key) && InFlight(cs[j], key) && i != j;
    TwoStarters(cs, if i < j then i else j, if i < j then j else i);
    StartersCost(cs);
    RunCosts(START, es, max);
  }

  // ----- every row has a handler behind it ----------------------------------------------------

  /** The row a request may have left in the table: its lock while its handler is in flight, its answer then. */
  function OwnedKey(c: Client): Key {
    if c.phase.Settled? then c.key else LockKey(c.key)
  }

  function OwnedKeys(cs: seq<Client>): (r: seq<Key>)
    ensures |r| == Starters(cs)
  {
    if cs == [] then []
    else (if Started(cs[0].phase) then [OwnedKey(cs[0])] else []) + OwnedKeys(cs[1..])
  }

  lemma {:induction false} OwnedBy(cs: seq<Client>, i: nat)
    requires i < |cs| && Started(cs[i].phase)
    ensures OwnedKey(cs[i]) in OwnedKeys(cs)
  {
    if i > 0 {
      OwnedBy(cs[1..], i - 1);
    }
  }

  ghost predicate Owned(rows: Rows, cs: seq<Client>) {
    forall e :: e in rows ==> exists i :: 0 <= i < |cs| && Started(cs[i].phase) && OwnedKey(cs[i]) == e.key
  }

  lemma {:induction false} Pigeons(rows: Rows, holes: seq<Key>)
    requires DistinctKeys(rows) && forall e :: e in rows ==> e.key in holes
    ensures |rows| <= |holes|
  {
    if rows != [] {
      assert rows[0] in rows;
      var i :| 0 <= i < |holes| && holes[i] == rows[0].key;
      var others := holes[..i] + holes[i + 1..];
      forall e | e in rows[1..] ensures e.key in others {
        var k :| 0 < k < |rows| && rows[k] == e;
        assert rows[k] in rows && rows[k].key != rows[0].key;
        var h :| 0 <= h < |holes| && holes[h] == e.key;
        assert h < i ==> others[h] == e.key;
        assert h > i ==> others[h - 1] == e.key;
      }
      Pigeons(rows[1..], others);
    }
  }

  lemma OwnedRowsFew(rows: Rows, cs: seq<Client>)
    requires DistinctKeys(rows) && Owned(rows, cs)
    ensures |rows| <= Starters(cs)
  {
    forall e | e in rows ensures e.key in OwnedKeys(cs) {
      var i :| 0 <= i < |cs| && Started(cs[i].phase) && OwnedKey(cs[i]) == e.key;
      OwnedBy(cs, i);
    }
    Pigeons(rows, OwnedKeys(cs));
  }

  /** One request's step: every row left is the request's own now, or was another's. */
  lemma OwnedAfter(rows: Rows, cs: seq<Client>, who: nat, c: Client, after: Rows)
    requires who < |cs| && Owned(rows, cs)
    requires forall e :: e in after ==>
               || (Started(c.phase) && e.key == OwnedKey(c))
               || (e in rows && !(Started(cs[who].phase) && e.key == OwnedKey(cs[who])))
    ensures Owned(after, cs[who := c])
  {
    var next := cs[who := c];
    forall e | e in after ensures exists i :: 0 <= i < |next| && Started(next[i].phase) && OwnedKey(next[i]) == e.key {
      if Started(c.phase) && e.key == OwnedKey(c) {
        assert next[who] == c;
      } else {
        var i :| 0 <= i < |cs| && Started(cs[i].phase) && OwnedKey(cs[i]) == e.key;
        assert next[i] == cs[i];
      }
    }
  }

  lemma StoredRows(rows: Rows, key: Key, ttlMs: int, r: Response, at: int)
    requires DistinctKeys(rows)
    ensures forall e :: e in StoreOn(rows, key, ttlMs, r, at) ==> e.key == key || (e in rows && e.key != LockKey(key))
  {
    var row := Row(r.status, r.body, at + ttlMs);
    PutMembers(rows, key, row);
    PutKeys(rows, key, row);
    RemoveIsUpdate(Put(rows, key, row), LockKey(key), LockKey(key));
  }

  lemma ClearedRows(rows: Rows, key: Key)
    requires DistinctKeys(rows)
    ensures forall e :: e in ClearRows(rows, key) ==> e in rows && e.key != LockKey(key)
  {
    RemoveIsUpdate(rows, LockKey(key), LockKey(key));
  }

  lemma ClaimedRows(rows: Rows, key: Key, ttlMs: int, at: int)
    ensures forall e :: e in ClaimOn(rows, key, ttlMs, at) ==>
              e in rows || (Claims(rows, key, at).Claimed? && e.key == LockKey(key))
  {
    PutMembers(rows, LockKey(key), Row(0, None, at + ttlMs));
  }

  lemma ReadKeeps(rows: Rows, key: Key, at: int)
    ensures forall e :: e in ReadFrom(rows, key, at) ==> e in rows
  {
    RemoveMembers(rows, key);
  }

  /** The rows after a request's step that swept nothing away. */
  lemma StepRows(rows: Rows, c: Client, at: int, max: nat)
    requires DistinctKeys(rows) && Swept(rows, at, max) == rows
    ensures var next := c.(phase := PhaseStep(rows, c, at, max));
            forall e :: e in RowsStep(rows, c, at, max) ==>
              || (Started(next.phase) && e.key == OwnedKey(next))
              || (e in rows && !(Started(c.phase) && e.key == OwnedKey(c)))
  {
    match c.phase
    case Arrived => ReadKeeps(rows, c.key, at);
    case Missed => ClaimedRows(rows, c.key, c.ttlMs, at);
    case Rereading => ReadKeeps(rows, c.key, at);
    case Settling(r) =>
      if r.status < 500 {
        StoredRows(rows, c.key, c.ttlMs, Recorded(r), at);
      } else {
        ClearedRows(rows, c.key);
      }
    case _ =>
  }

  // ----- runs that cannot evict a lock --------------------------------------------------------

  /** Nothing has disturbed the key, and every row has a handler behind it and lasts. */
  ghost predicate Good(w: World, key: Key, t0: int, ttlMs: int) {
    WorldOk(w, key) && Owned(w.rows, w.clients) && Lasting(w, ttlMs, t0 + ttlMs)
  }

  /** The table has been full; a second handler took one request more. */
  ghost predicate Crowded(cs: seq<Client>, key: Key, max: nat) {
    Starters(cs) >= max + 1 && (OneHandler(cs, key) || Starters(cs) >= max + 2)
  }

  /** A client whose handler is in flight after an event had one before, or the event started it. */
  lemma FlightBefore(w: World, e: Event, key: Key, max: nat, k: nat)
    requires k < |Step(w, e, max).clients| && InFlight(Step(w, e, max).clients[k], key)
    ensures (k < |w.clients| && InFlight(w.clients[k], key))
            || Starters(Step(w, e, max).clients) >= Starters(w.clients) + 1
  {
    var cs, after := w.clients, Step(w, e, max).clients;
    match e
    case Advance(who, at) =>
      if who < |cs| {
        CostsUpdate(cs, who, after[who]);
      }
    case _ =>
  }

  /** A second handler of the key comes with a request that starts one. */
  lemma StepStarts(w: World, e: Event, key: Key, max: nat)
    requires OneHandler(w.clients, key) && !OneHandler(Step(w, e, max).clients, key)
    ensures Starters(Step(w, e, max).clients) >= Starters(w.clients) + 1
  {
    var after := Step(w, e, max).clients;
    var i: nat, j: nat :| i < |after| && j < |after| && InFlight(after[i], key) && InFlight(after[j], key) && i != j;
    FlightBefore(w, e, key, max, i);
    FlightBefore(w, e, key, max, j);
  }

  lemma CrowdedStep(w: World, e: Event, key: Key, max: nat)
    requires Starters(w.clients) >= max + 1 && (OneHandler(w.clients, key) || Starters(w.clients) >= max + 2)
    ensures Crowded(Step(w, e, max).clients, key, max)
  {
    StepCosts(w, e, max);
    if OneHandler(w.clients, key) && !OneHandler(Step(w, e, max).clients, key) {
      StepStarts(w, e, key, max);
    }
  }

  lemma GoodIsOne(w: World, key: Key, t0: int, ttlMs: int)
    requires Good(w, key, t0, ttlMs)
    ensures OneHandler(w.clients, key) && |w.rows| <= Starters(w.clients)
  {
    OwnedRowsFew(w.rows, w.clients);
  }

  lemma OwnedMore(rows: Rows, cs: seq<Client>, c: Client)
    requires Owned(rows, cs)
    ensures Owned(rows, cs + [c])
  {
    forall e | e in rows
      ensures exists i :: 0 <= i < |cs + [c]| && Started((cs + [c])[i].phase) && OwnedKey((cs + [c])[i]) == e.key
    {
      var i :| 0 <= i < |cs| && Started(cs[i].phase) && OwnedKey(cs[i]) == e.key;
      assert (cs + [c])[i] == cs[i];
    }
  }

  lemma StepOwned(w: World, e: Event, max: nat)
    requires DistinctKeys(w.rows) && Owned(w.rows, w.clients) && !e.Close?
    requires e.Advance? || e.Tick? ==> Swept(w.rows, e.at, max) == w.rows
    ensures Owned(Step(w, e, max).rows, Step(w, e, max).clients)
  {
    match e
    case Arrive(k, ttl) => OwnedMore(w.rows, w.clients, Client(k, ttl, Arrived));
    case Advance(who, at) =>
      if who < |w.clients| {
        var c := w.clients[who];
        StepRows(w.rows, c, at, max);
        OwnedAfter(w.rows, w.clients, who, c.(phase := PhaseStep(w.rows, c, at, max)), RowsStep(w.rows, c, at, max));
      }
    case Answer(who, r) =>
      if who < |w.clients| && w.clients[who].phase.Running? {
        OwnedAfter(w.rows, w.clients, who, w.clients[who].(phase := Settling(r)), w.rows);
      }
    case Tick(_) =>
  }

  lemma StepLasts(w: World, e: Event, key: Key, t0: int, ttlMs: int, b: Budget, max: nat)
    requires Lasting(w, ttlMs, t0 + ttlMs) && Within(e, key, t0, ttlMs, b) && !e.Close? && t0 >= 0
    requires e.Advance? || e.Tick? ==> Swept(w.rows, e.at, max) == w.rows
    ensures Lasting(Step(w, e, max), ttlMs, t0 + ttlMs)
  {
    if e.Advance? && e.who < |w.clients| {
      var c := w.clients[e.who];
      assert c in w.clients;
      RowsStepLasts(w.rows, c, e.at, t0 + ttlMs, max);
    }
  }

  /** An event leaves the key undisturbed, or the table was full. */
  lemma GoodStep(w: World, e: Event, key: Key, t0: int, ttlMs: int, b: Budget, max: nat)
    requires Good(w, key, t0, ttlMs) && Within(e, key, t0, ttlMs, b) && !e.Close? && t0 >= 0 && b.spanMs < ttlMs
    ensures Good(Step(w, e, max), key, t0, ttlMs) || Crowded(Step(w, e, max).clients, key, max)
  {
    GoodIsOne(w, key, t0, ttlMs);
    if |w.rows| > max {
      CrowdedStep(w, e, key, max);
    } else {
      if e.Advance? || e.Tick? {
        LastingSweep(w, ttlMs, t0 + ttlMs, e.at, max);
      }
      StepKeepsWorld(w, e, key, max);
      StepOwned(w, e, max);
      StepLasts(w, e, key, t0, ttlMs, b, max);
    }
  }

  lemma {:induction false} RunStaysGood(w: World, es: seq<Event>, key: Key, t0: int, ttlMs: int, b: Budget, max: nat)
    requires Good(w, key, t0, ttlMs) || Crowded(w.clients, key, max)
    requires forall e :: e in es ==> Within(e, key, t0, ttlMs, b) && !e.Close?
    requires t0 >= 0 && b.spanMs < ttlMs
    ensures var end := Run(w, es, max); Good(end, key, t0, ttlMs) || Crowded(end.clients, key, max)
    decreases |es|
  {
    if es != [] {
      if Good(w, key, t0, ttlMs) {
        GoodStep(w, es[0], key, t0, ttlMs, b, max);
      } else {
        CrowdedStep(w, es[0], key, max);
      }
      RunStaysGood(Step(w, es[0], max), es[1..], key, t0, ttlMs, b, max);
    }
  }

  /** A second handler in a short run that closes nothing: the table was filled first. */
  lemma TightRun(es: seq<Event>, key: Key, t0: int, ttlMs: int, b: Budget, max: nat)
    requires Affordable(es, key, t0, ttlMs, b) && t0 >= 0 && b.spanMs < ttlMs
    requires forall e :: e in es ==> !e.Close?
    requires !OneHandler(Run(START, es, max).clients, key)
    ensures |es| >= 3 * (max + 2)
  {
    RunStaysGood(START, es, key, t0, ttlMs, b, max);
    if Good(Run(START, es, max), key, t0, ttlMs) {
      GoodIsOne(Run(START, es, max), key, t0, ttlMs);
    }
    StartersCost(Run(START, es, max).clients);
    RunCosts(START, es, max);
  }

  // ----- filling the table --------------------------------------------------------------------

  /** Keys longer than the given one, each longer than the last. */
  function FillerKey(key: Key, i: nat): Key {
    seq(|key| + 6 + i, _ => 'x')
  }

  lemma FillerKeyApart(key: Key, i: nat)
    ensures Apart(FillerKey(key, i), key)
    ensures forall k: Key :: FillerKey(key, i) != LockKey(k)
    ensures LockKey(FillerKey(key, i)) != LockKey(key)
    ensures forall j: nat :: j != i ==> LockKey(FillerKey(key, i)) != LockKey(FillerKey(key, j))
  {
    LongerLock(key);
    LongerLock(FillerKey(key, i));
    forall k: Key ensures FillerKey(key, i) != LockKey(k) {
      LongerLock(k);
      assert LockKey(k)[|k| + 4] == 'k';
    }
    forall j: nat | j != i ensures LockKey(FillerKey(key, i)) != LockKey(FillerKey(key, j)) {
      LongerLock(FillerKey(key, j));
    }
  }

  /** A handler of the key and n of other keys in flight, and a run there. */
  function FillWorld(key: Key, ttlMs: int, at: int, n: nat): World {
    if n == 0 then World([LockRow(key, at + ttlMs)], [Client(key, ttlMs, Running)])
    else
      var w := FillWorld(key, ttlMs, at, n - 1);
      World(w.rows + [LockRow(FillerKey(key, n - 1), at + ttlMs)],
            w.clients + [Client(FillerKey(key, n - 1), ttlMs, Running)])
  }

  function FillEvents(key: Key, ttlMs: int, at: int, n: nat): seq<Event> {
    if n == 0 then Starts(START, key, ttlMs, at)
    else
      FillEvents(key, ttlMs, at, n - 1)
      + Starts(FillWorld(key, ttlMs, at, n - 1), FillerKey(key, n - 1), ttlMs, at)
  }

  lemma {:induction false} FillWorldIs(key: Key, ttlMs: int, at: int, n: nat)
    ensures var w := FillWorld(key, ttlMs, at, n);
            && |w.rows| == n + 1 && |w.clients| == n + 1
            && w.rows[0] == LockRow(key, at + ttlMs) && w.clients[0] == Client(key, ttlMs, Running)
            && (forall e :: e in w.rows ==> e.value.expiresAt == at + ttlMs)
            && (forall k :: 1 <= k <= n ==> w.rows[k].key == LockKey(FillerKey(key, k - 1)))
  {
    if n > 0 {
      FillWorldIs(key, ttlMs, at, n - 1);
    }
  }

  /** Nothing in the table stands in the way of the next filler. */
  lemma FillerIsNew(key: Key, ttlMs: int, at: int, n: nat)
    ensures var w := FillWorld(key, ttlMs, at, n);
            Lookup(w.rows, FillerKey(key, n)).None? && Lookup(w.rows, LockKey(FillerKey(key, n))).None?
  {
    var w := FillWorld(key, ttlMs, at, n);
    FillWorldIs(key, ttlMs, at, n);
    FillerKeyApart(key, n);
    forall e | e in w.rows ensures e.key != FillerKey(key, n) && e.key != LockKey(FillerKey(key, n)) {
      var k :| 0 <= k < |w.rows| && w.rows[k] == e;
    }
  }

  lemma FillStarts(key: Key, ttlMs: int, at: int, n: nat, max: nat)
    requires n < max && at >= 0 && ttlMs > 0
    ensures var w := FillWorld(key, ttlMs, at, n);
            Run(w, Starts(w, FillerKey(key, n), ttlMs, at), max) == FillWorld(key, ttlMs, at, n + 1)
  {
    var w := FillWorld(key, ttlMs, at, n);
    FillWorldIs(key, ttlMs, at, n);
    FillerIsNew(key, ttlMs, at, n);
    SweepIdle(w.rows, EXPIRES_AT, at, max);
    StartsHandler(w, FillerKey(key, n), ttlMs, at, max);
  }

  lemma FillBegins(key: Key, ttlMs: int, at: int, max: nat)
    ensures Run(START, FillEvents(key, ttlMs, at, 0), max) == FillWorld(key, ttlMs, at, 0)
  {
    StartsHandler(START, key, ttlMs, at, max);
    assert START.rows + [LockRow(key, at + ttlMs)] == [LockRow(key, at + ttlMs)];
    assert START.clients + [Client(key, ttlMs, Running)] == [Client(key, ttlMs, Running)];
  }

  ghost predicate Reaches(es: seq<Event>, w: World, max: nat) {
    Run(START, es, max) == w
  }

  lemma ReachesFurther(es: seq<Event>, w: World, more: seq<Event>, end: World, max: nat)
    requires Reaches(es, w, max) && Run(w, more, max) == end
    ensures Reaches(es + more, end, max)
  {
    RunAppends(START, es, more, max);
  }

  lemma FillNext(key: Key, ttlMs: int, at: int, n: nat, max: nat)
    requires n < max && at >= 0 && ttlMs > 0
    requires Reaches(FillEvents(key, ttlMs, at, n), FillWorld(key, ttlMs, at, n), max)
    ensures Reaches(FillEvents(key, ttlMs, at, n + 1), FillWorld(key, ttlMs, at, n + 1), max)
  {
    var w := FillWorld(key, ttlMs, at, n);
    var more := Starts(w, FillerKey(key, n), ttlMs, at);
    FillStarts(key, ttlMs, at, n, max);
    ReachesFurther(FillEvents(key, ttlMs, at, n), w, more, FillWorld(key, ttlMs, at, n + 1), max);
    assert FillEvents(key, ttlMs, at, n + 1) == FillEvents(key, ttlMs, at, n) + more;
  }

  lemma {:induction false} FillRuns(key: Key, ttlMs: int, at: int, n: nat, max: nat)
    requires n <= max && at >= 0 && ttlMs > 0
    ensures Reaches(FillEvents(key, ttlMs, at, n), FillWorld(key, ttlMs, at, n), max)
  {
    if n == 0 {
      FillBegins(key, ttlMs, at, max);
    } else {
      FillRuns(key, ttlMs, at, n - 1, max);
      FillNext(key, ttlMs, at, n - 1, max);
    }
  }

  lemma {:induction false} FillAffordable(key: Key, ttlMs: int, at: int, n: nat, b: Budget)
    ensures |FillEvents(key, ttlMs, at, n)| == 3 * (n + 1)
    ensures forall e :: e in FillEvents(key, ttlMs, at, n) ==> Within(e, key, at, ttlMs, b)
  {
    LocksDiffer(key, key);
    if n > 0 {
      FillAffordable(key, ttlMs, at, n - 1, b);
      FillerKeyApart(key, n - 1);
    }
  }

  /** Once the table is over its bound, a second request of the key has its lock evicted and starts. */
  function EvictingRun(key: Key, ttlMs: int, at: int, max: nat): seq<Event> {
    FillEvents(key, ttlMs, at, max) + Starts(FillWorld(key, ttlMs, at, max), key, ttlMs, at)
  }

  lemma SweepEvictsFirst(rows: Rows, at: int, max: nat)
    requires |rows| == max + 1 && rows[0].key != "" && forall e :: e in rows ==> !Expired(e.value.expiresAt, at)
    ensures Swept(rows, at, max) == rows[1..] && Swept(rows[1..], at, max) == rows[1..]
  {
    LiveOfFresh(rows, EXPIRES_AT, at);
    SweepIdle(rows[1..], EXPIRES_AT, at, max);
  }

  lemma EvictedIsGone(key: Key, ttlMs: int, at: int, max: nat)
    ensures var rows := FillWorld(key, ttlMs, at, max).rows;
            |rows| == max + 1 && Lookup(rows[1..], key).None? && Lookup(rows[1..], LockKey(key)).None?
  {
    var rows := FillWorld(key, ttlMs, at, max).rows;
    FillWorldIs(key, ttlMs, at, max);
    forall e | e in rows[1..] ensures e.key != key && e.key != LockKey(key) {
      var k :| 1 <= k < |rows| && rows[k] == e;
      FillerKeyApart(key, k - 1);
      LongerLock(FillerKey(key, k - 1));
    }
  }

  lemma StartsOnEvicted(w: World, key: Key, ttlMs: int, at: int, max: nat)
    requires |w.rows| == max + 1 && Swept(w.rows, at, max) == w.rows[1..] && Swept(w.rows[1..], at, max) == w.rows[1..]
    requires Lookup(w.rows[1..], key).None? && Lookup(w.rows[1..], LockKey(key)).None?
    ensures Run(w, Starts(w, key, ttlMs, at), max).clients == w.clients + [Client(key, ttlMs, Running)]
  {
    var arrive, advance := Arrive(key, ttlMs), Advance(|w.clients|, at);
    RunSnoc(w, [], arrive, max);
    assert [] + [arrive] == [arrive];
    RunSnoc(w, [arrive], advance, max);
    assert Run(w, [arrive] + [advance], max) == World(w.rows[1..], w.clients + [Client(key, ttlMs, Missed)]);
    RunSnoc(w, [arrive] + [advance], advance, max);
  }

  lemma EvictedLockRunsTwo(key: Key, ttlMs: int, at: int, max: nat)
    requires ttlMs > 0 && at >= 0
    ensures !OneHandler(Run(START, EvictingRun(key, ttlMs, at, max), max).clients, key)
  {
    var w := FillWorld(key, ttlMs, at, max);
    FillRuns(key, ttlMs, at, max, max);
    FillWorldIs(key, ttlMs, at, max);
    LongerLock(key);
    SweepEvictsFirst(w.rows, at, max);
    EvictedIsGone(key, ttlMs, at, max);
    StartsOnEvicted(w, key, ttlMs, at, max);
    RunAppends(START, FillEvents(key, ttlMs, at, max), Starts(w, key, ttlMs, at), max);
    var cs := w.clients + [Client(key, ttlMs, Running)];
    assert InFlight(cs[0], key) && InFlight(cs[max + 1], key);
  }

  // ----- the theorem --------------------------------------------------------------------------

  /** What a second handler takes: an early close and seven events, the lock's lifetime and six, or as
      many as fill the table with locks and start two. */
  predicate Suffices(b: Budget, ttlMs: int, max: nat) {
    || (b.closes && b.events >= 7)
    || (b.spanMs >= ttlMs && b.events >= 6)
    || b.events >= 3 * (max + 2)
  }

  lemma BudgetRunsTwo(key: Key, t0: int, ttlMs: int, b: Budget, max: nat) returns (es: seq<Event>)
    requires t0 >= 0 && ttlMs > 0 && Suffices(b, ttlMs, max)
    ensures Affordable(es, key, t0, ttlMs, b) && !OneHandler(Run(START, es, max).clients, key)
  {
    LocksDiffer(key, key);
    if b.closes && b.events >= 7 {
      es := TwoRequests(key, ttlMs, t0) + [Close(0)] + [Advance(1, t0)] + [Advance(1, t0)];
      EarlyCloseRunsTwo(key, ttlMs, t0, max);
      assert InFlight(Run(START, es, max).clients[0], key) && InFlight(Run(START, es, max).clients[1], key);
    } else if b.spanMs >= ttlMs && b.events >= 6 {
      es := TwoRequests(key, ttlMs, t0) + [Advance(1, t0 + ttlMs)] + [Advance(1, t0 + ttlMs)];
      ExpiredLockRunsTwo(key, ttlMs, t0, max);
      assert InFlight(Run(START, es, max).clients[0], key) && InFlight(Run(START, es, max).clients[1], key);
    } else {
      es := EvictingRun(key, ttlMs, t0, max);
      FillAffordable(key, ttlMs, t0, max, b);
      EvictedLockRunsTwo(key, ttlMs, t0, max);
    }
  }

  lemma {:induction false} ClosesFound(es: seq<Event>)
    ensures Closes(es) == 0 ==> forall e :: e in es ==> !e.Close?
    ensures (forall e :: e in es ==> !e.Close?) ==> Closes(es) == 0
  {
    if es != [] {
      ClosesFound(es[1..]);
      assert es[0] in es && forall e :: e in es ==> e == es[0] || e in es[1..];
    }
  }

  /** Among runs whose other keys are apart from it, no key ever has two handlers in flight exactly when
      the runs are too small for each of the three ways. */
  lemma OneHandlerExactly(key: Key, t0: int, ttlMs: int, b: Budget, max: nat)
    requires t0 >= 0 && ttlMs > 0
    ensures OneHandlerAlways(key, t0, ttlMs, b, max) <==> !Suffices(b, ttlMs, max)
  {
    if Suffices(b, ttlMs, max) {
      var es := BudgetRunsTwo(key, t0, ttlMs, b, max);
    } else {
      forall es | Affordable(es, key, t0, ttlMs, b) ensures OneHandler(Run(START, es, max).clients, key) {
        if !OneHandler(Run(START, es, max).clients, key) {
          TwoHandlersCost(es, key, max);
          ClosesFound(es);
          TightRun(es, key, t0, ttlMs, b, max);
        }
      }
    }
  }
}
