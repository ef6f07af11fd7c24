/** The fixed-window rate limiter in memory. */
module RateLimit {
  import opened Wrappers
  import opened FixedPoint
  import opened MemoryTable

  datatype Window = Window(count: int, resetAt: int)

  type Rows = seq<Entry<Window>>

  const RESET_AT: Window -> int := (w: Window) => w.resetAt

  /** The window a hit at `now` leaves for its key, from the one it finds. */
  function NextWindow(existing: Option<Window>, windowMs: int, now: int): Window {
    if existing.None? || existing.value.resetAt <= now then Window(1, now + windowMs)
    else Window(existing.value.count + 1, existing.value.resetAt)
  }

  function WindowAfter(rows: Rows, key: Key, windowMs: int, now: int, maxEntries: nat): Window {
    NextWindow(Lookup(Sweep(rows, RESET_AT, now, maxEntries), key), windowMs, now)
  }

  /** incrementRateLimit without the external store: the table after a hit. */
  function RowsAfter(rows: Rows, key: Key, windowMs: int, now: int, maxEntries: nat): Rows {
    Put(Sweep(rows, RESET_AT, now, maxEntries), key, WindowAfter(rows, key, windowMs, now, maxEntries))
  }

  class Limiter {
    const table: Table<Window>
    const maxEntries: nat

    constructor (maxEntries: nat)
      ensures table.entries == [] && this.maxEntries == maxEntries && fresh(table)
    {
      this.maxEntries := maxEntries;
      table := new Table();
    }

    /** incrementRateLimit: the counter of an open window is incremented, else a window starts. */
    method Increment(key: Key, windowMs: int, now: int) returns (w: Window)
      requires DistinctKeys(table.entries)
      modifies table
      ensures w == WindowAfter(old(table.entries), key, windowMs, now, maxEntries)
      ensures table.entries == RowsAfter(old(table.entries), key, windowMs, now, maxEntries)
      ensures DistinctKeys(table.entries)
    {
      SweepKeeps(table.entries, RESET_AT, now, maxEntries, key);
      table.SweepOut(RESET_AT, now, maxEntries);
      var existing := Lookup(table.entries, key);
      if existing.None? || existing.value.resetAt <= now {
        w := Window(1, now + windowMs);
      } else {
        w := Window(existing.value.count + 1, existing.value.resetAt);
      }
      PutKeys(table.entries, key, w);
      table.entries := Put(table.entries, key, w);
    }

    /** rateLimitMiddleware's decision */
    method Admit(key: Key, windowMs: int, max: int, now: int) returns (admitted: bool)
      requires DistinctKeys(table.entries)
      modifies table
      ensures admitted <==> WindowAfter(old(table.entries), key, windowMs, now, maxEntries).count <= max
      ensures table.entries == RowsAfter(old(table.entries), key, windowMs, now, maxEntries)
      ensures DistinctKeys(table.entries)
    {
      var w := Increment(key, windowMs, now);
      admitted := w.count <= max;
    }
  }

  // ----- runs ---------------------------------------------------------------------------------

  /** A request that is counted, or the periodic sweep. */
  datatype Event = Hit(key: Key, windowMs: int, at: int) | Tick(at: int)

  function Step(rows: Rows, e: Event, maxEntries: nat): Rows {
    match e
    case Hit(key, windowMs, at) => RowsAfter(rows, key, windowMs, at, maxEntries)
    case Tick(at) => Sweep(rows, RESET_AT, at, maxEntries)
  }

  function Run(es: seq<Event>, maxEntries: nat): Rows {
    if es == [] then [] else Step(Run(es[..|es| - 1], maxEntries), es[|es| - 1], maxEntries)
  }

  predicate NamedKeys(es: seq<Event>) {
    forall e :: e in es && e.Hit? ==> e.key != ""
  }

  lemma {:induction false} RunKeys(es: seq<Event>, maxEntries: nat)
    requires NamedKeys(es)
    ensures DistinctKeys(Run(es, maxEntries)) && forall r :: r in Run(es, maxEntries) ==> r.key != ""
  {
    if es != [] {
      var rows := Run(es[..|es| - 1], maxEntries);
      RunKeys(es[..|es| - 1], maxEntries);
      var e := es[|es| - 1];
      assert e in es;
      SweepKeeps(rows, RESET_AT, e.at, maxEntries, "");
      if e.Hit? {
        PutKeys(Sweep(rows, RESET_AT, e.at, maxEntries), e.key, WindowAfter(rows, e.key, e.windowMs, e.at, maxEntries));
      }
    }
  }

  /** The table never holds more than one row over its bound. */
  lemma TableBounded(es: seq<Event>, maxEntries: nat)
    requires NamedKeys(es)
    ensures |Run(es, maxEntries)| <= maxEntries + 1
  {
    if es != [] {
      var rows := Run(es[..|es| - 1], maxEntries);
      RunKeys(es[..|es| - 1], maxEntries);
      var e := es[|es| - 1];
      SweepKeeps(rows, RESET_AT, e.at, maxEntries, "");
      assert forall r :: r in Live(rows, RESET_AT, e.at) ==> r in rows;
      assert |Sweep(rows, RESET_AT, e.at, maxEntries)| <= maxEntries;
    }
  }

  /** The clock does not run backwards, the key's windows all have one length, and no sweep throws
      out a row of the key before it expires. */
  ghost predicate Regular(es: seq<Event>, key: Key, windowMs: int, maxEntries: nat) {
    es == [] ||
    (var init := es[..|es| - 1];
     var e := es[|es| - 1];
     var rows := Run(init, maxEntries);
     && Regular(init, key, windowMs, maxEntries)
     && 0 <= e.at && (init != [] ==> init[|init| - 1].at <= e.at)
     && (e.Hit? && e.key == key ==> e.windowMs == windowMs)
     && (Lookup(Live(rows, RESET_AT, e.at), key).Some? ==> Lookup(Sweep(rows, RESET_AT, e.at, maxEntries), key).Some?))
  }

  /** One window of a key: when it started and how many hits it admitted. */
  datatype Span = Span(start: int, admitted: int)

  /** The key's row after a run. */
  function RowOf(es: seq<Event>, key: Key, maxEntries: nat): Option<Window> {
    Lookup(Run(es, maxEntries), key)
  }

  predicate IsHit(e: Event, key: Key) {
    e.Hit? && e.key == key
  }

  /** The run ends with an admitted hit of the key: the count it left is within the limit. */
  predicate EndsAdmitted(es: seq<Event>, key: Key, max: int, maxEntries: nat) {
    es != [] && IsHit(es[|es| - 1], key) && RowOf(es, key, maxEntries).Some?
      && RowOf(es, key, maxEntries).value.count <= max
  }

  /** No window of the row is still open at a time. */
  predicate Closed(row: Option<Window>, at: int) {
    row.None? || row.value.resetAt <= at
  }

  /** A hit starts a new window, or is counted in the last one. */
  function Counted(ss: seq<Span>, opens: bool, at: int, admitted: bool): seq<Span> {
    var n := if admitted then 1 else 0;
    if ss == [] || opens then ss + [Span(at, n)]
    else ss[..|ss| - 1] + [ss[|ss| - 1].(admitted := ss[|ss| - 1].admitted + n)]
  }

  /** The windows of a key over a run, oldest first. */
  function Spans(es: seq<Event>, key: Key, max: int, maxEntries: nat): seq<Span> {
    if es == [] then []
    else
      var init := es[..|es| - 1];
      var e := es[|es| - 1];
      var before := Spans(init, key, max, maxEntries);
      if !IsHit(e, key) then before
      else Counted(before, Closed(RowOf(init, key, maxEntries), e.at), e.at, EndsAdmitted(es, key, max, maxEntries))
  }

  ghost predicate Separated(ss: seq<Span>, windowMs: int) {
    forall i, j :: 0 <= i < j < |ss| ==> ss[i].start + windowMs <= ss[j].start
  }

  /** What the key's row says about its last window. */
  predicate RowMatches(row: Option<Window>, ss: seq<Span>, windowMs: int, max: int, lastAt: int) {
    match row
    case Some(w) => ss != [] && w.resetAt == ss[|ss| - 1].start + windowMs && w.count >= 1
                    && ss[|ss| - 1].admitted == Min(w.count, max) && ss[|ss| - 1].start <= lastAt
    case None => ss != [] ==> ss[|ss| - 1].start + windowMs <= lastAt
  }

  function LastAt(es: seq<Event>): int {
    if es == [] then 0 else es[|es| - 1].at
  }

  ghost predicate SpansOk(ss: seq<Span>, windowMs: int, max: int) {
    Separated(ss, windowMs) && forall i :: 0 <= i < |ss| ==> Min(1, max) <= ss[i].admitted <= max && 0 <= ss[i].start
  }

  /** The key's row after any event, from its row before. */
  function RowStep(row: Option<Window>, hit: bool, windowMs: int, at: int): Option<Window> {
    var open := row.Some? && row.value.resetAt > at;
    if !hit then (if open then row else None)
    else if open then Some(Window(row.value.count + 1, row.value.resetAt))
    else Some(Window(1, at + windowMs))
  }

  /** A hit on the row a sweep leaves is a hit on the row it finds. */
  lemma NextIsRowStep(row: Option<Window>, windowMs: int, at: int)
    ensures Some(NextWindow(RowStep(row, false, 0, at), windowMs, at)) == RowStep(row, true, windowMs, at)
  {
  }

  lemma HitRow(rows: Rows, key: Key, windowMs: int, at: int, maxEntries: nat)
    requires Lookup(Sweep(rows, RESET_AT, at, maxEntries), key) == RowStep(Lookup(rows, key), false, 0, at)
    ensures Lookup(RowsAfter(rows, key, windowMs, at, maxEntries), key)
         == RowStep(Lookup(rows, key), true, windowMs, at)
  {
    PutIsUpdate(Sweep(rows, RESET_AT, at, maxEntries), key, WindowAfter(rows, key, windowMs, at, maxEntries), key);
    NextIsRowStep(Lookup(rows, key), windowMs, at);
  }

  lemma OtherHitRow(rows: Rows, other: Key, key: Key, windowMs: int, at: int, maxEntries: nat)
    requires other != key
    ensures Lookup(RowsAfter(rows, other, windowMs, at, maxEntries), key)
         == Lookup(Sweep(rows, RESET_AT, at, maxEntries), key)
  {
    PutIsUpdate(Sweep(rows, RESET_AT, at, maxEntries), other, WindowAfter(rows, other, windowMs, at, maxEntries), key);
  }

  lemma StepRow(rows: Rows, e: Event, key: Key, windowMs: int, maxEntries: nat)
    requires DistinctKeys(rows) && (Lookup(rows, key).Some? ==> Lookup(rows, key).value.resetAt > 0)
    requires Lookup(Live(rows, RESET_AT, e.at), key).Some?
             ==> Lookup(Sweep(rows, RESET_AT, e.at, maxEntries), key).Some?
    requires IsHit(e, key) ==> e.windowMs == windowMs
    ensures Lookup(Step(rows, e, maxEntries), key) == RowStep(Lookup(rows, key), IsHit(e, key), windowMs, e.at)
  {
    SweptRow(rows, key, e.at, maxEntries);
    if IsHit(e, key) {
      HitRow(rows, key, windowMs, e.at, maxEntries);
    } else if e.Hit? {
      OtherHitRow(rows, e.key, key, e.windowMs, e.at, maxEntries);
    }
  }

  lemma RowFollows(es: seq<Event>, key: Key, windowMs: int, maxEntries: nat)
    requires es != [] && NamedKeys(es) && Regular(es, key, windowMs, maxEntries)
    requires var row := RowOf(es[..|es| - 1], key, maxEntries); row.Some? ==> row.value.resetAt > 0
    ensures RowOf(es, key, maxEntries)
         == RowStep(RowOf(es[..|es| - 1], key, maxEntries), IsHit(es[|es| - 1], key), windowMs, es[|es| - 1].at)
  {
    RunKeys(es[..|es| - 1], maxEntries);
    StepRow(Run(es[..|es| - 1], maxEntries), es[|es| - 1], key, windowMs, maxEntries);
  }

  lemma SweptRow(rows: Rows, key: Key, at: int, maxEntries: nat)
    requires DistinctKeys(rows) && (Lookup(rows, key).Some? ==> Lookup(rows, key).value.resetAt > 0)
    requires Lookup(Live(rows, RESET_AT, at), key).Some? ==> Lookup(Sweep(rows, RESET_AT, at, maxEntries), key).Some?
    ensures Lookup(Sweep(rows, RESET_AT, at, maxEntries), key) == RowStep(Lookup(rows, key), false, 0, at)
  {
    LiveKeeps(rows, RESET_AT, at, key);
    SweepKeeps(rows, RESET_AT, at, maxEntries, key);
  }

  /** The run's last hit is admitted exactly when the middleware lets it through. */
  lemma AdmittedIsDecision(es: seq<Event>, key: Key, max: int, maxEntries: nat)
    requires es != [] && IsHit(es[|es| - 1], key)
    ensures var e := es[|es| - 1];
            EndsAdmitted(es, key, max, maxEntries)
            <==> WindowAfter(Run(es[..|es| - 1], maxEntries), key, e.windowMs, e.at, maxEntries).count <= max
  {
    var rows := Run(es[..|es| - 1], maxEntries);
    var e := es[|es| - 1];
    PutIsUpdate(Sweep(rows, RESET_AT, e.at, maxEntries), key, WindowAfter(rows, key, e.windowMs, e.at, maxEntries),
                key);
  }

  /** A hit counted in the window that is open. */
  lemma OpenHitKeepsSpans(w: Window, ss: seq<Span>, windowMs: int, max: int, lastAt: int, at: int)
    requires SpansOk(ss, windowMs, max) && RowMatches(Some(w), ss, windowMs, max, lastAt)
    requires windowMs > 0 && max >= 0 && 0 <= lastAt <= at < w.resetAt
    ensures var counted := Counted(ss, false, at, w.count + 1 <= max);
            && SpansOk(counted, windowMs, max)
            && RowMatches(Some(Window(w.count + 1, w.resetAt)), counted, windowMs, max, at)
            && counted[|counted| - 1].start <= at < counted[|counted| - 1].start + windowMs
  {
    var counted := Counted(ss, false, at, w.count + 1 <= max);
    forall i | 0 <= i < |counted|
      ensures counted[i].start == ss[i].start && Min(1, max) <= counted[i].admitted <= max
    {
    }
  }

  /** A hit that starts a window, after the last one of the key has ended. */
  lemma FirstHitKeepsSpans(ss: seq<Span>, windowMs: int, max: int, at: int)
    requires SpansOk(ss, windowMs, max) && (ss != [] ==> ss[|ss| - 1].start + windowMs <= at)
    requires windowMs > 0 && max >= 0 && 0 <= at
    ensures var counted := Counted(ss, true, at, 1 <= max);
            && SpansOk(counted, windowMs, max)
            && RowMatches(Some(Window(1, at + windowMs)), counted, windowMs, max, at)
            && counted[|counted| - 1].start == at
  {
    var counted := Counted(ss, true, at, 1 <= max);
    forall i | 0 <= i < |ss| ensures counted[i] == ss[i] && ss[i].start + windowMs <= at {
    }
  }

  /** One event, on the windows and the row alone. */
  lemma HitKeepsSpans(row: Option<Window>, ss: seq<Span>, windowMs: int, max: int, lastAt: int, at: int)
    requires SpansOk(ss, windowMs, max) && RowMatches(row, ss, windowMs, max, lastAt)
    requires windowMs > 0 && max >= 0 && 0 <= lastAt <= at
    ensures var after := RowStep(row, true, windowMs, at);
            var counted := Counted(ss, Closed(row, at), at, after.value.count <= max);
            && SpansOk(counted, windowMs, max)
            && RowMatches(after, counted, windowMs, max, at)
            && counted[|counted| - 1].start <= at < counted[|counted| - 1].start + windowMs
    ensures RowMatches(RowStep(row, false, windowMs, at), ss, windowMs, max, at)
  {
    if Closed(row, at) {
      FirstHitKeepsSpans(ss, windowMs, max, at);
    } else {
      OpenHitKeepsSpans(row.value, ss, windowMs, max, lastAt, at);
    }
  }

  lemma {:induction false} RunKeepsSpans(es: seq<Event>, key: Key, windowMs: int, max: int, maxEntries: nat)
    requires NamedKeys(es) && Regular(es, key, windowMs, maxEntries) && windowMs > 0 && max >= 0
    ensures LastAt(es) >= 0
    ensures SpansOk(Spans(es, key, max, maxEntries), windowMs, max)
    ensures RowMatches(RowOf(es, key, maxEntries), Spans(es, key, max, maxEntries), windowMs, max, LastAt(es))
  {
    if es != [] {
      var init := es[..|es| - 1];
      RunKeepsSpans(init, key, windowMs, max, maxEntries);
      RowFollows(es, key, windowMs, maxEntries);
      HitKeepsSpans(RowOf(init, key, maxEntries), Spans(init, key, max, maxEntries), windowMs, max, LastAt(init),
                    es[|es| - 1].at);
    }
  }

  /** How many hits of the key with a time in [from, from + windowMs) were admitted. */
  function AdmittedFrom(es: seq<Event>, key: Key, from: int, windowMs: int, max: int, maxEntries: nat): nat {
    if es == [] then 0
    else
      AdmittedFrom(es[..|es| - 1], key, from, windowMs, max, maxEntries)
      + if EndsAdmitted(es, key, max, maxEntries) && from <= es[|es| - 1].at < from + windowMs then 1 else 0
  }

  predicate Overlaps(s: Span, from: int, windowMs: int) {
    from - windowMs < s.start < from + windowMs
  }

  /** The most a window's admitted hits can be inside an interval: its first hit is at its start. */
  function Share(s: Span, from: int, windowMs: int): int {
    if !Overlaps(s, from, windowMs) then 0
    else if s.start < from then Max(s.admitted - 1, 0)
    else s.admitted
  }

  /** Hits in an interval admitted by the windows that overlap it. */
  function AdmittedBySpans(ss: seq<Span>, from: int, windowMs: int): int {
    if ss == [] then 0
    else AdmittedBySpans(ss[..|ss| - 1], from, windowMs) + Share(ss[|ss| - 1], from, windowMs)
  }

  /** A hit inside its window adds to the windows that overlap any interval it lies in. */
  lemma CountedCounts(ss: seq<Span>, opens: bool, at: int, admitted: bool, from: int, windowMs: int)
    requires windowMs > 0 && (ss != [] && admitted ==> ss[|ss| - 1].admitted >= 1)
    requires var c := Counted(ss, opens, at, admitted); c[|c| - 1].start <= at < c[|c| - 1].start + windowMs
    ensures AdmittedBySpans(Counted(ss, opens, at, admitted), from, windowMs)
         >= AdmittedBySpans(ss, from, windowMs) + if admitted && from <= at < from + windowMs then 1 else 0
  {
    var c := Counted(ss, opens, at, admitted);
    if ss == [] || opens {
      assert c[..|c| - 1] == ss;
    } else {
      assert c[..|c| - 1] == ss[..|ss| - 1];
    }
  }

  /** One hit of a key whose row and windows agree. */
  lemma HitCounts(row: Option<Window>, ss: seq<Span>, windowMs: int, max: int, lastAt: int, at: int, from: int)
    requires SpansOk(ss, windowMs, max) && RowMatches(row, ss, windowMs, max, lastAt) && windowMs > 0 && max >= 0
    requires 0 <= lastAt <= at
    ensures var admitted := RowStep(row, true, windowMs, at).value.count <= max;
            AdmittedBySpans(Counted(ss, Closed(row, at), at, admitted), from, windowMs)
            >= AdmittedBySpans(ss, from, windowMs) + if admitted && from <= at < from + windowMs then 1 else 0
  {
    HitKeepsSpans(row, ss, windowMs, max, lastAt, at);
    CountedCounts(ss, Closed(row, at), at, RowStep(row, true, windowMs, at).value.count <= max, from, windowMs);
  }

  /** Every admitted hit in the interval is counted by a window that overlaps it. */
  lemma {:induction false} SpansCountHits(es: seq<Event>, key: Key, from: int, windowMs: int, max: int, maxEntries: nat)
    requires NamedKeys(es) && Regular(es, key, windowMs, maxEntries) && windowMs > 0 && max >= 0
    ensures AdmittedFrom(es, key, from, windowMs, max, maxEntries)
         <= AdmittedBySpans(Spans(es, key, max, maxEntries), from, windowMs)
  {
    if es != [] {
      var init := es[..|es| - 1];
      SpansCountHits(init, key, from, windowMs, max, maxEntries);
      RunKeepsSpans(init, key, windowMs, max, maxEntries);
      RowFollows(es, key, windowMs, maxEntries);
      HitCounts(RowOf(init, key, maxEntries), Spans(init, key, max, maxEntries), windowMs, max, LastAt(init),
                es[|es| - 1].at, from);
    }
  }

  /** Windows that all start before the interval: only the last can reach into it. */
  lemma {:induction false} EarlierSpans(ss: seq<Span>, from: int, windowMs: int, max: int)
    requires windowMs > 0 && max >= 0 && SpansOk(ss, windowMs, max)
    requires ss != [] ==> ss[|ss| - 1].start < from
    ensures AdmittedBySpans(ss, from, windowMs) <= Max(max - 1, 0)
    ensures ss != [] && ss[|ss| - 1].start <= from - windowMs ==> AdmittedBySpans(ss, from, windowMs) == 0
  {
    if |ss| > 1 {
      EarlierSpans(ss[..|ss| - 1], from, windowMs, max);
    }
  }

  lemma {:induction false} AtMostTwoSpans(ss: seq<Span>, from: int, windowMs: int, max: int)
    requires windowMs > 0 && max >= 0 && SpansOk(ss, windowMs, max)
    ensures AdmittedBySpans(ss, from, windowMs) <= Max(2 * max - 1, 0)
  {
    if ss != [] {
      if ss[|ss| - 1].start < from + windowMs {
        EarlierSpans(ss[..|ss| - 1], from, windowMs, max);
      } else {
        AtMostTwoSpans(ss[..|ss| - 1], from, windowMs, max);
      }
    }
  }

  /** Any half-open interval one window long admits fewer than twice the limit,
      wherever it lies: a hit that opens one window is too early to share an interval with the next. */
  lemma SlidingBound(es: seq<Event>, key: Key, from: int, windowMs: int, max: int, maxEntries: nat)
    requires NamedKeys(es) && Regular(es, key, windowMs, maxEntries) && windowMs > 0 && max >= 0
    ensures AdmittedFrom(es, key, from, windowMs, max, maxEntries) <= Max(2 * max - 1, 0)
  {
    SpansCountHits(es, key, from, windowMs, max, maxEntries);
    RunKeepsSpans(es, key, windowMs, max, maxEntries);
    AtMostTwoSpans(Spans(es, key, max, maxEntries), from, windowMs, max);
  }

  /** A hit is refused only while a window that already admitted the whole limit is open. */
  lemma RefusedWhenFull(es: seq<Event>, key: Key, windowMs: int, max: int, maxEntries: nat)
    requires es != [] && IsHit(es[|es| - 1], key)
    requires NamedKeys(es) && Regular(es, key, windowMs, maxEntries) && windowMs > 0 && max >= 0
    ensures var ss := Spans(es, key, max, maxEntries);
            var at := es[|es| - 1].at;
            && ss != [] && ss[|ss| - 1].start <= at < ss[|ss| - 1].start + windowMs
            && (!EndsAdmitted(es, key, max, maxEntries) ==> ss[|ss| - 1].admitted == max)
  {
    var init := es[..|es| - 1];
    RunKeepsSpans(init, key, windowMs, max, maxEntries);
    RunKeepsSpans(es, key, windowMs, max, maxEntries);
    RowFollows(es, key, windowMs, maxEntries);
    HitKeepsSpans(RowOf(init, key, maxEntries), Spans(init, key, max, maxEntries), windowMs, max, LastAt(init),
                  es[|es| - 1].at);
  }

  /** The bound is reached: with a limit of two, three hits are admitted within one window's length. */
  lemma SlidingBoundReached(key: Key)
    ensures var es := [Hit(key, 10, 1), Hit(key, 10, 10), Hit(key, 10, 11), Hit(key, 10, 12)];
            AdmittedFrom(es, key, 10, 10, 2, 100) == 3
  {
    var e1, e2, e3, e4 := Hit(key, 10, 1), Hit(key, 10, 10), Hit(key, 10, 11), Hit(key, 10, 12);
    var two, three, four := [e1, e2], [e1, e2, e3], [e1, e2, e3, e4];
    assert two[..1] == [e1] && three[..2] == two && four[..3] == three;
    assert Run([e1], 100) == [Entry(key, Window(1, 11))];
    assert Run(two, 100) == [Entry(key, Window(2, 11))];
    assert Run(three, 100) == [Entry(key, Window(1, 21))];
    assert Run(four, 100) == [Entry(key, Window(2, 21))];
    assert AdmittedFrom([e1], key, 10, 10, 2, 100) == 0;
    assert AdmittedFrom(two, key, 10, 10, 2, 100) == 1;
    assert AdmittedFrom(three, key, 10, 10, 2, 100) == 2;
  }
}
