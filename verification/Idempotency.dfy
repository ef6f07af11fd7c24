/** The idempotency middleware in memory: many requests, each a small state machine, taking turns
    between awaits on one table that holds both the stored responses and the locks. */
module Idempotency {
  import opened Wrappers
  import opened MemoryTable

  /** A JSON body; None is null. */
  type Body = Option<string>

  datatype Response = Response(status: int, body: Body)
  datatype Row = Row(status: int, body: Body, expiresAt: int)
  datatype Claim = Claimed | Replay | InProgress

  type Rows = seq<Entry<Row>>

  const EXPIRES_AT: Row -> int := (r: Row) => r.expiresAt

  function LockKey(key: Key): Key {
    key + ":lock"
  }

  // ----- the four operations on the table -----------------------------------------------------

  function Swept(rows: Rows, now: int, max: nat): Rows {
    Sweep(rows, EXPIRES_AT, now, max)
  }

  /** The row of a key that is still valid at `now`. */
  function Valid(rows: Rows, key: Key, now: int): Option<Row> {
    var row := Lookup(rows, key);
    if row.None? || row.value.expiresAt <= now then None else row
  }

  function AsResponse(row: Option<Row>): Option<Response> {
    if row.None? then None else Some(Response(row.value.status, row.value.body))
  }

  // each on the rows its own sweep has left

  function ReadFrom(swept: Rows, key: Key, now: int): Rows {
    if Lookup(swept, key).Some? && Valid(swept, key, now).None? then Remove(swept, key) else swept
  }

  function Claims(swept: Rows, key: Key, now: int): Claim {
    if Valid(swept, key, now).Some? then Replay
    else if Valid(swept, LockKey(key), now).Some? then InProgress
    else Claimed
  }

  function ClaimOn(swept: Rows, key: Key, ttlMs: int, now: int): Rows {
    if Claims(swept, key, now).Claimed? then Put(swept, LockKey(key), Row(0, None, now + ttlMs)) else swept
  }

  function StoreOn(swept: Rows, key: Key, ttlMs: int, r: Response, now: int): Rows {
    Remove(Put(swept, key, Row(r.status, r.body, now + ttlMs)), LockKey(key))
  }

  function ReadResult(rows: Rows, key: Key, now: int, max: nat): Option<Response> {
    AsResponse(Valid(Swept(rows, now, max), key, now))
  }

  function ReadRows(rows: Rows, key: Key, now: int, max: nat): Rows {
    ReadFrom(Swept(rows, now, max), key, now)
  }

  function ClaimResult(rows: Rows, key: Key, now: int, max: nat): Claim {
    Claims(Swept(rows, now, max), key, now)
  }

  function ClaimRows(rows: Rows, key: Key, ttlMs: int, now: int, max: nat): Rows {
    ClaimOn(Swept(rows, now, max), key, ttlMs, now)
  }

  function StoreRows(rows: Rows, key: Key, ttlMs: int, r: Response, now: int, max: nat): Rows {
    StoreOn(Swept(rows, now, max), key, ttlMs, r, now)
  }

  function ClearRows(rows: Rows, key: Key): Rows {
    Remove(rows, LockKey(key))
  }

  class Responses {
    const table: Table<Row>
    const maxEntries: nat

    constructor (maxEntries: nat)
      ensures table.entries == [] && this.maxEntries == maxEntries && fresh(table)
    {
      this.maxEntries := maxEntries;
      table := new Table();
    }

    /** readIdempotentResponse */
    method Read(key: Key, now: int) returns (r: Option<Response>)
      requires DistinctKeys(table.entries)
      modifies table
      ensures r == ReadResult(old(table.entries), key, now, maxEntries)
      ensures table.entries == ReadRows(old(table.entries), key, now, maxEntries)
    {
      table.SweepOut(EXPIRES_AT, now, maxEntries);
      var row := Lookup(table.entries, key);
      if row.None? || row.value.expiresAt <= now {
        if row.Some? {
          table.Delete(key);
        }
        return None;
      }
      return Some(Response(row.value.status, row.value.body));
    }

    /** claimIdempotencyLock */
    method ClaimLock(key: Key, ttlMs: int, now: int) returns (c: Claim)
      requires DistinctKeys(table.entries)
      modifies table
      ensures c == ClaimResult(old(table.entries), key, now, maxEntries)
      ensures table.entries == ClaimRows(old(table.entries), key, ttlMs, now, maxEntries)
    {
      table.SweepOut(EXPIRES_AT, now, maxEntries);
      var existing := Lookup(table.entries, key);
      if existing.Some? && existing.value.expiresAt > now {
        return Replay;
      }
      var lock := Lookup(table.entries, LockKey(key));
      if lock.Some? && lock.value.expiresAt > now {
        return InProgress;
      }
      table.entries := Put(table.entries, LockKey(key), Row(0, None, now + ttlMs));
      return Claimed;
    }

    /** storeIdempotentResponse */
    method Store(key: Key, ttlMs: int, r: Response, now: int)
      requires DistinctKeys(table.entries)
      modifies table
      ensures table.entries == StoreRows(old(table.entries), key, ttlMs, r, now, maxEntries)
    {
      table.SweepOut(EXPIRES_AT, now, maxEntries);
      table.entries := Put(table.entries, key, Row(r.status, r.body, now + ttlMs));
      table.Delete(LockKey(key));
    }

    /** clearIdempotencyLock */
    method Clear(key: Key)
      modifies table
      ensures table.entries == ClearRows(old(table.entries), key)
    {
      table.Delete(LockKey(key));
    }
  }

  // ----- requests -----------------------------------------------------------------------------

  /** Where a request is between two awaits. */
  datatype Phase =
    | Arrived                    // about to look for a stored response
    | Missed                     // found none, about to claim the lock
    | Rereading                  // was told to replay, about to look again
    | Running                    // its handler runs
    | Settling(answer: Response) // has answered, the store or the clear is still to come
    | Settled(answer: Response)
    | Replied(reply: Response)   // got the stored response
    | Refused                    // got 409

  datatype Client = Client(key: Key, ttlMs: int, phase: Phase)
  datatype World = World(rows: Rows, clients: seq<Client>)

  datatype Event =
    | Arrive(key: Key, ttlMs: int)
    | Advance(who: nat, at: int)
    | Answer(who: nat, response: Response)
    | Close(who: nat) // the connection closes before the handler has answered
    | Tick(at: int)   // the periodic sweep

  /** A status of 0 is stored as 200. */
  function Recorded(r: Response): Response {
    if r.status == 0 then Response(200, r.body) else r
  }

  /** The table after a request's next atomic step. */
  function RowsStep(rows: Rows, c: Client, at: int, max: nat): Rows {
    match c.phase
    case Arrived => ReadRows(rows, c.key, at, max)
    case Missed => ClaimRows(rows, c.key, c.ttlMs, at, max)
    case Rereading => ReadRows(rows, c.key, at, max)
    case Settling(r) =>
      if r.status < 500 then StoreRows(rows, c.key, c.ttlMs, Recorded(r), at, max) else ClearRows(rows, c.key)
    case _ => rows
  }

  /** Where the request is then. A replay that finds no response after all runs the handler. */
  function PhaseStep(rows: Rows, c: Client, at: int, max: nat): Phase {
    var read := ReadResult(rows, c.key, at, max);
    match c.phase
    case Arrived => if read.Some? then Replied(read.value) else Missed
    case Missed =>
      (match ClaimResult(rows, c.key, at, max)
       case Claimed => Running
       case Replay => Rereading
       case InProgress => Refused)
    case Rereading => if read.Some? then Replied(read.value) else Running
    case Settling(r) => Settled(r)
    case _ => c.phase
  }

  function Step(w: World, e: Event, max: nat): World {
    match e
    case Arrive(key, ttlMs) => w.(clients := w.clients + [Client(key, ttlMs, Arrived)])
    case Tick(at) => w.(rows := Swept(w.rows, at, max))
    case Advance(who, at) =>
      if who >= |w.clients| then w
      else
        var c := w.clients[who];
        World(RowsStep(w.rows, c, at, max), w.clients[who := c.(phase := PhaseStep(w.rows, c, at, max))])
    case Answer(who, r) =>
      if who >= |w.clients| || !w.clients[who].phase.Running? then w
      else w.(clients := w.clients[who := w.clients[who].(phase := Settling(r))])
    case Close(who) =>
      if who >= |w.clients| || !w.clients[who].phase.Running? then w
      else w.(rows := ClearRows(w.rows, w.clients[who].key))
  }

  function Run(w: World, es: seq<Event>, max: nat): World
    decreases |es|
  {
    if es == [] then w else Run(Step(w, es[0], max), es[1..], max)
  }

  const START := World([], [])

  // ----- one key ------------------------------------------------------------------------------

  /** What the table says about a key. */
  datatype Slot = Slot(done: Option<Response>, locked: bool)

  function SlotOf(rows: Rows, key: Key): Slot {
    Slot(AsResponse(Lookup(rows, key)), Lookup(rows, LockKey(key)).Some?)
  }

  predicate InFlight(c: Client, key: Key) {
    c.key == key && (c.phase.Running? || c.phase.Settling?)
  }

  /** The request's handler answered below 500 and the answer is stored. */
  predicate Answered(c: Client, key: Key, r: Response) {
    c.key == key && c.phase.Settled? && c.phase.answer.status < 500 && Recorded(c.phase.answer) == r
  }

  /** The protocol's invariant for a key. */
  ghost predicate Consistent(slot: Slot, clients: seq<Client>, key: Key) {
    && (forall i: nat, j: nat ::
          i < |clients| && j < |clients| && InFlight(clients[i], key) && InFlight(clients[j], key) ==> i == j)
    && (forall i :: 0 <= i < |clients| && InFlight(clients[i], key) ==> slot.locked && slot.done.None?)
    && (slot.locked ==> exists i :: 0 <= i < |clients| && InFlight(clients[i], key))
    && (slot.done.Some? ==> exists i :: 0 <= i < |clients| && Answered(clients[i], key, slot.done.value))
    && (forall i :: 0 <= i < |clients| && clients[i].key == key ==> PhaseFits(clients[i].phase, slot))
  }

  predicate PhaseFits(p: Phase, slot: Slot) {
    match p
    case Rereading => slot.done.Some?
    case Replied(r) => slot.done == Some(r)
    case Settled(r) => r.status < 500 ==> slot.done == Some(Recorded(r))
    case _ => true
  }

  /** A key's rows outlive the sweep at a time and are valid then. */
  predicate Kept(rows: Rows, key: Key, at: int, max: nat) {
    Lookup(Swept(rows, at, max), key) == Lookup(rows, key)
    && (Lookup(rows, key).Some? ==> Lookup(rows, key).value.expiresAt > at)
  }

  predicate Calm(rows: Rows, key: Key, at: int, max: nat) {
    Kept(rows, key, at, max) && Kept(rows, LockKey(key), at, max)
  }

  /** Neither key is the name of the other's lock. */
  predicate Apart(a: Key, b: Key) {
    a != LockKey(b) && b != LockKey(a)
  }

  lemma LocksDiffer(a: Key, b: Key)
    ensures LockKey(a) == LockKey(b) ==> a == b
    ensures Apart(a, a)
  {
    assert LockKey(a)[..|a|] == a && LockKey(b)[..|b|] == b;
    assert |LockKey(a)| == |a| + 5 && |LockKey(b)| == |b| + 5;
  }

  // what each operation does to the slot of the key it is given, and of another key

  lemma SweepSlot(rows: Rows, key: Key, at: int, max: nat)
    requires DistinctKeys(rows) && Calm(rows, key, at, max)
    ensures SlotOf(Swept(rows, at, max), key) == SlotOf(rows, key)
    ensures DistinctKeys(Swept(rows, at, max))
  {
    SweepKeeps(rows, EXPIRES_AT, at, max, key);
  }

  lemma PutSlot(rows: Rows, k: Key, row: Row, key: Key)
    requires DistinctKeys(rows)
    ensures DistinctKeys(Put(rows, k, row))
    ensures SlotOf(Put(rows, k, row), key)
         == Slot(if k == key then Some(Response(row.status, row.body)) else SlotOf(rows, key).done,
                 k == LockKey(key) || SlotOf(rows, key).locked)
  {
    PutKeys(rows, k, row);
    PutIsUpdate(rows, k, row, key);
    PutIsUpdate(rows, k, row, LockKey(key));
  }

  lemma RemoveSlot(rows: Rows, k: Key, key: Key)
    requires DistinctKeys(rows)
    ensures DistinctKeys(Remove(rows, k))
    ensures SlotOf(Remove(rows, k), key)
         == Slot(if k == key then None else SlotOf(rows, key).done, k != LockKey(key) && SlotOf(rows, key).locked)
  {
    RemoveIsUpdate(rows, k, key);
    RemoveIsUpdate(rows, k, LockKey(key));
  }

  /** The next slot of a key whose request takes a step. */
  function SlotStep(slot: Slot, p: Phase): Slot {
    match p
    case Missed => if slot.done.None? then slot.(locked := true) else slot
    case Settling(r) => if r.status < 500 then Slot(Some(Recorded(r)), false) else slot.(locked := false)
    case _ => slot
  }

  /** And the request's next phase. */
  function SlotPhase(slot: Slot, p: Phase): Phase {
    match p
    case Arrived => if slot.done.Some? then Replied(slot.done.value) else Missed
    case Missed => if slot.done.Some? then Rereading else if slot.locked then Refused else Running
    case Rereading => if slot.done.Some? then Replied(slot.done.value) else Running
    case Settling(r) => Settled(r)
    case _ => p
  }

  /** A request's step, as the key `key` sees it: its own requests step its slot, others leave it. */
  predicate SeenBy(rows: Rows, c: Client, after: Rows, p: Phase, key: Key) {
    if c.key == key then SlotOf(after, key) == SlotStep(SlotOf(rows, key), c.phase)
      && p == SlotPhase(SlotOf(rows, key), c.phase)
    else SlotOf(after, key) == SlotOf(rows, key)
  }

  lemma ReadSlot(swept: Rows, k: Key, now: int, key: Key)
    requires DistinctKeys(swept) && Apart(k, key)
    requires forall row :: Lookup(swept, key) == Some(row) ==> row.expiresAt > now
    ensures DistinctKeys(ReadFrom(swept, k, now)) && SlotOf(ReadFrom(swept, k, now), key) == SlotOf(swept, key)
  {
    RemoveSlot(swept, k, key);
  }

  lemma ClaimSlot(swept: Rows, k: Key, ttlMs: int, now: int, key: Key)
    requires DistinctKeys(swept) && Apart(k, key)
    ensures DistinctKeys(ClaimOn(swept, k, ttlMs, now))
    ensures SlotOf(ClaimOn(swept, k, ttlMs, now), key)
         == if k == key && Claims(swept, k, now).Claimed? then SlotOf(swept, key).(locked := true)
            else SlotOf(swept, key)
  {
    LocksDiffer(k, key);
    PutSlot(swept, LockKey(k), Row(0, None, now + ttlMs), key);
  }

  lemma StoreSlot(swept: Rows, k: Key, ttlMs: int, r: Response, now: int, key: Key)
    requires DistinctKeys(swept) && Apart(k, key)
    ensures DistinctKeys(StoreOn(swept, k, ttlMs, r, now))
    ensures SlotOf(StoreOn(swept, k, ttlMs, r, now), key)
         == if k == key then Slot(Some(r), false) else SlotOf(swept, key)
  {
    LocksDiffer(k, key);
    var row := Row(r.status, r.body, now + ttlMs);
    PutSlot(swept, k, row, key);
    RemoveSlot(Put(swept, k, row), LockKey(k), key);
  }

  lemma ClearSlot(rows: Rows, k: Key, key: Key)
    requires DistinctKeys(rows) && Apart(k, key)
    ensures DistinctKeys(ClearRows(rows, k))
    ensures SlotOf(ClearRows(rows, k), key)
         == if k == key then SlotOf(rows, key).(locked := false) else SlotOf(rows, key)
  {
    LocksDiffer(k, key);
    RemoveSlot(rows, LockKey(k), key);
  }

  /** What a calm sweep leaves to read and to claim. */
  lemma ResultsOf(rows: Rows, key: Key, at: int, max: nat)
    requires Calm(rows, key, at, max)
    ensures ReadResult(rows, key, at, max) == SlotOf(rows, key).done
    ensures ClaimResult(rows, key, at, max)
         == if SlotOf(rows, key).done.Some? then Replay else if SlotOf(rows, key).locked then InProgress else Claimed
  {
  }

  lemma RowsStepSlot(rows: Rows, c: Client, key: Key, at: int, max: nat)
    requires DistinctKeys(rows) && Calm(rows, key, at, max) && Apart(c.key, key)
    ensures DistinctKeys(RowsStep(rows, c, at, max))
    ensures SeenBy(rows, c, RowsStep(rows, c, at, max), PhaseStep(rows, c, at, max), key)
  {
    ResultsOf(rows, key, at, max);
    SweepSlot(rows, key, at, max);
    var swept := Swept(rows, at, max);
    match c.phase
    case Arrived => ReadSlot(swept, c.key, at, key);
    case Missed => ClaimSlot(swept, c.key, c.ttlMs, at, key);
    case Rereading => ReadSlot(swept, c.key, at, key);
    case Settling(r) =>
      if r.status < 500 {
        StoreSlot(swept, c.key, c.ttlMs, Recorded(r), at, key);
      } else {
        ClearSlot(rows, c.key, key);
      }
    case _ =>
  }

  // ----- the invariant ------------------------------------------------------------------------

  /** An event leaves a key alone unless it is a step of the protocol for it: nothing of the key
      expires or is evicted, no connection of the key closes early, no key aliases its lock. */
  predicate Undisturbed(w: World, e: Event, key: Key, max: nat) {
    match e
    case Arrive(k, _) => Apart(k, key)
    case Answer(_, _) => true
    case Tick(at) => Calm(w.rows, key, at, max)
    case Advance(_, at) => Calm(w.rows, key, at, max)
    case Close(who) => who < |w.clients| && w.clients[who].phase.Running? ==> w.clients[who].key != key
  }

  predicate UndisturbedRun(w: World, es: seq<Event>, key: Key, max: nat)
    decreases |es|
  {
    es == [] || (Undisturbed(w, es[0], key, max) && UndisturbedRun(Step(w, es[0], max), es[1..], key, max))
  }

  ghost predicate WorldOk(w: World, key: Key) {
    && DistinctKeys(w.rows)
    && (forall c :: c in w.clients ==> Apart(c.key, key))
    && Consistent(SlotOf(w.rows, key), w.clients, key)
  }

  /** A step of one of the key's requests, on the slot alone. */
  lemma SlotStepKeeps(slot: Slot, clients: seq<Client>, who: nat, key: Key)
    requires who < |clients| && clients[who].key == key && Consistent(slot, clients, key)
    ensures var c := clients[who];
            Consistent(SlotStep(slot, c.phase), clients[who := c.(phase := SlotPhase(slot, c.phase))], key)
  {
    var c := clients[who];
    var after := clients[who := c.(phase := SlotPhase(slot, c.phase))];
    var next := SlotStep(slot, c.phase);
    forall i | 0 <= i < |after| && i != who ensures after[i] == clients[i] {}
    if next.locked {
      if slot.locked {
        var i :| 0 <= i < |clients| && InFlight(clients[i], key);
        assert InFlight(after[i], key);
      } else {
        assert InFlight(after[who], key);
      }
    }
    if next.done.Some? {
      if slot.done.Some? {
        var i :| 0 <= i < |clients| && Answered(clients[i], key, slot.done.value);
        assert Answered(after[i], key, slot.done.value);
      } else {
        assert Answered(after[who], key, next.done.value);
      }
    }
  }

  lemma OthersKeep(slot: Slot, clients: seq<Client>, who: nat, p: Phase, key: Key)
    requires who < |clients| && Consistent(slot, clients, key)
    requires clients[who].key != key || (clients[who].phase.Running? && p.Settling?)
    ensures Consistent(slot, clients[who := clients[who].(phase := p)], key)
  {
    var after := clients[who := clients[who].(phase := p)];
    forall i | 0 <= i < |after| && i != who ensures after[i] == clients[i] {}
    if slot.locked {
      var i :| 0 <= i < |clients| && InFlight(clients[i], key);
      assert InFlight(after[i], key);
    }
    if slot.done.Some? {
      var i :| 0 <= i < |clients| && Answered(clients[i], key, slot.done.value);
      assert Answered(after[i], key, slot.done.value);
    }
  }

  lemma ArrivalKeeps(slot: Slot, clients: seq<Client>, c: Client, key: Key)
    requires Consistent(slot, clients, key) && c.phase.Arrived?
    ensures Consistent(slot, clients + [c], key)
  {
    if slot.locked {
      var i :| 0 <= i < |clients| && InFlight(clients[i], key);
      assert InFlight((clients + [c])[i], key);
    }
    if slot.done.Some? {
      var i :| 0 <= i < |clients| && Answered(clients[i], key, slot.done.value);
      assert Answered((clients + [c])[i], key, slot.done.value);
    }
  }

  /** Every event keeps the invariant. */
  lemma StepKeepsWorld(w: World, e: Event, key: Key, max: nat)
    requires WorldOk(w, key) && Undisturbed(w, e, key, max)
    ensures WorldOk(Step(w, e, max), key)
  {
    match e
    case Arrive(k, ttlMs) => ArrivalKeeps(SlotOf(w.rows, key), w.clients, Client(k, ttlMs, Arrived), key);
    case Tick(at) => SweepSlot(w.rows, key, at, max);
    case Answer(who, r) =>
      if who < |w.clients| && w.clients[who].phase.Running? {
        OthersKeep(SlotOf(w.rows, key), w.clients, who, Settling(r), key);
      }
    case Close(who) =>
      if who < |w.clients| && w.clients[who].phase.Running? {
        ClearSlot(w.rows, w.clients[who].key, key);
      }
    case Advance(who, at) =>
      if who < |w.clients| {
        var c := w.clients[who];
        RowsStepSlot(w.rows, c, key, at, max);
        if c.key == key {
          SlotStepKeeps(SlotOf(w.rows, key), w.clients, who, key);
        } else {
          OthersKeep(SlotOf(w.rows, key), w.clients, who, PhaseStep(w.rows, c, at, max), key);
        }
      }
  }

  lemma {:induction false} RunKeepsWorld(w: World, es: seq<Event>, key: Key, max: nat)
    requires WorldOk(w, key) && UndisturbedRun(w, es, key, max)
    ensures WorldOk(Run(w, es, max), key)
    decreases |es|
  {
    if es != [] {
      StepKeepsWorld(w, es[0], key, max);
      RunKeepsWorld(Step(w, es[0], max), es[1..], key, max);
    }
  }

  // ----- the theorems -------------------------------------------------------------------------

  /** At most one handler is in flight for a key, and only while no answer is stored for it. */
  lemma AtMostOneHandler(es: seq<Event>, key: Key, max: nat)
    requires UndisturbedRun(START, es, key, max)
    ensures var cs := Run(START, es, max).clients;
            forall i, j :: (0 <= i < |cs| && 0 <= j < |cs| && InFlight(cs[i], key) && InFlight(cs[j], key)) ==> i == j
    ensures var w := Run(START, es, max);
            (exists i :: 0 <= i < |w.clients| && InFlight(w.clients[i], key)) <==> SlotOf(w.rows, key).locked
  {
    RunKeepsWorld(START, es, key, max);
  }

  /** Whatever was replied for the key is the stored answer of one of its handlers. */
  lemma RepliesAreAnswers(es: seq<Event>, key: Key, max: nat, i: nat)
    requires UndisturbedRun(START, es, key, max)
    requires var cs := Run(START, es, max).clients; i < |cs| && cs[i].key == key && cs[i].phase.Replied?
    ensures var cs := Run(START, es, max).clients; exists j :: 0 <= j < |cs| && Answered(cs[j], key, cs[i].phase.reply)
  {
    RunKeepsWorld(START, es, key, max);
  }

  /** The phases open to a request once an answer is stored for its key. */
  predicate Awaits(p: Phase, r: Response) {
    p.Arrived? || p.Missed? || p.Rereading? || p == Replied(r)
  }

  /** Requests of the key that await the answer `r`, or are new, await it still. */
  ghost predicate StillAwaits(before: seq<Client>, after: seq<Client>, key: Key, r: Response) {
    && |before| <= |after|
    && (forall i :: 0 <= i < |before| ==> after[i].key == before[i].key)
    && (forall i ::
          (0 <= i < |after| && after[i].key == key && (i < |before| ==> Awaits(before[i].phase, r))) ==>
            Awaits(after[i].phase, r))
  }

  lemma StoredStep(w: World, e: Event, key: Key, max: nat)
    requires WorldOk(w, key) && Undisturbed(w, e, key, max)
    requires SlotOf(w.rows, key).done.Some?
    ensures SlotOf(Step(w, e, max).rows, key).done == SlotOf(w.rows, key).done
    ensures StillAwaits(w.clients, Step(w, e, max).clients, key, SlotOf(w.rows, key).done.value)
  {
    match e
    case Arrive(k, ttlMs) =>
    case Tick(at) => SweepSlot(w.rows, key, at, max);
    case Answer(who, r) =>
    case Close(who) =>
      if who < |w.clients| && w.clients[who].phase.Running? {
        ClearSlot(w.rows, w.clients[who].key, key);
      }
    case Advance(who, at) =>
      if who < |w.clients| {
        RowsStepSlot(w.rows, w.clients[who], key, at, max);
      }
  }

  /** Once an answer is stored it stays, and every request of the key that is undecided or still to
      come can only get that answer: none runs the handler, none is refused. */
  lemma {:induction false} StoredForGood(w: World, es: seq<Event>, key: Key, max: nat)
    requires WorldOk(w, key) && UndisturbedRun(w, es, key, max)
    requires SlotOf(w.rows, key).done.Some?
    ensures SlotOf(Run(w, es, max).rows, key).done == SlotOf(w.rows, key).done
    ensures StillAwaits(w.clients, Run(w, es, max).clients, key, SlotOf(w.rows, key).done.value)
    decreases |es|
  {
    if es != [] {
      StepKeepsWorld(w, es[0], key, max);
      StoredStep(w, es[0], key, max);
      StoredForGood(Step(w, es[0], max), es[1..], key, max);
    }
  }

  /** A request that arrives after an answer is stored gets it in one step. */
  lemma LateRequestIsAnswered(w: World, who: nat, at: int, key: Key, max: nat)
    requires WorldOk(w, key) && SlotOf(w.rows, key).done.Some?
    requires who < |w.clients| && w.clients[who].key == key && w.clients[who].phase.Arrived?
    requires Undisturbed(w, Advance(who, at), key, max)
    ensures Step(w, Advance(who, at), max).clients[who].phase == Replied(SlotOf(w.rows, key).done.value)
  {
    RowsStepSlot(w.rows, w.clients[who], key, at, max);
  }

  /** Once a handler has answered below 500 and the answer is stored, no handler of the key runs
      again in any longer run, every reply is that answer, and no later request is refused. */
  lemma AnsweredOnce(es: seq<Event>, more: seq<Event>, who: nat, key: Key, max: nat)
    requires UndisturbedRun(START, es, key, max) && UndisturbedRun(Run(START, es, max), more, key, max)
    requires var cs := Run(START, es, max).clients;
             who < |cs| && cs[who].key == key && cs[who].phase.Settled? && cs[who].phase.answer.status < 500
    ensures var cs := Run(START, es, max).clients;
            var after := Run(Run(START, es, max), more, max).clients;
            var r := Recorded(cs[who].phase.answer);
            && StillAwaits(cs, after, key, r)
            && (forall i :: 0 <= i < |after| ==> !InFlight(after[i], key))
            && (forall i ::
                  (0 <= i < |after| && after[i].key == key && after[i].phase.Replied?) ==> after[i].phase.reply == r)
  {
    RunKeepsWorld(START, es, key, max);
    RunKeepsWorld(Run(START, es, max), more, key, max);
    StoredForGood(Run(START, es, max), more, key, max);
  }
}
