/** Collecting a window of candles backwards, one request of at most 200 at a time. */
module CandlePaging {
  datatype Candle = Candle(ts: int, open: real, high: real, low: real, close: real)

  const LIMIT := 200
  const MAX_ROUNDS := 80
  const MAX_REQUEST_MS := 90 * 24 * 60 * 60 * 1000

  ghost predicate Ascending(s: seq<Candle>) {
    forall i, j :: 0 <= i < j < |s| ==> s[i].ts < s[j].ts
  }

  /** The candles of a market between two times, both included. */
  function Range(market: seq<Candle>, from: int, to: int): seq<Candle> {
    if market == [] then []
    else if from <= market[0].ts <= to then [market[0]] + Range(market[1..], from, to)
    else Range(market[1..], from, to)
  }

  /** How many candles that many full batches hold. */
  function Served(rounds: nat): nat {
    200 * rounds
  }

  /** The last n of a list in time order. */
  function Newest(n: nat, s: seq<Candle>): seq<Candle> {
    if |s| <= n then s else s[|s| - n..]
  }

  /** What the exchange answers: the newest candles of the range, in time order. */
  function Batch(market: seq<Candle>, from: int, to: int): seq<Candle> {
    Newest(LIMIT, Range(market, from, to))
  }

  datatype Window = Window(bitget: bool, from: int, to: int, maxBars: nat)

  function Max(a: int, b: int): int {
    if a < b then b else a
  }

  function MaxBars(minBars: int): nat {
    Max(Max(minBars, 1200) + 200, 5000)
  }

  /** historicalCandleRequestStartMs */
  function RequestStart(w: Window, cursorEnd: int): int {
    if !w.bitget then w.from else Max(w.from, cursorEnd - MAX_REQUEST_MS)
  }

  /** Why the paging stopped; everything from `cut` on has been collected. */
  datatype Stop =
    | ReachedStart(cut: int) // a batch began at the start of the window
    | NoMore(cut: int)       // a request came back empty
    | Cursor(cut: int)       // the next request would end at the start of the window or before
    | Full(cut: int)         // enough bars
    | Rounds(cut: int, full: nat, pairs: nat) // enough requests: how many were full, and what the others covered

  // ----- ranges -------------------------------------------------------------------------------

  lemma {:induction false} RangeMembers(market: seq<Candle>, from: int, to: int)
    ensures forall c :: c in Range(market, from, to) <==> c in market && from <= c.ts <= to
  {
    if market != [] {
      RangeMembers(market[1..], from, to);
    }
  }

  lemma {:induction false} RangeAscends(market: seq<Candle>, from: int, to: int)
    requires Ascending(market)
    ensures Ascending(Range(market, from, to))
  {
    if market != [] {
      RangeAscends(market[1..], from, to);
      RangeMembers(market[1..], from, to);
      var rest := Range(market[1..], from, to);
      forall j | 0 <= j < |rest| ensures rest[j].ts > market[0].ts {
        assert rest[j] in market[1..];
      }
    }
  }

  lemma {:induction false} EmptyRange(market: seq<Candle>, from: int, to: int)
    requires forall c :: c in market ==> !(from <= c.ts <= to)
    ensures Range(market, from, to) == []
  {
    if market != [] {
      EmptyRange(market[1..], from, to);
    }
  }

  lemma HeadIsEarliest(market: seq<Candle>)
    requires Ascending(market) && market != []
    ensures Ascending(market[1..]) && forall c :: c in market[1..] ==> c.ts > market[0].ts
  {
  }

  /** One candle in front: up to `mid` it belongs to the first part, after it the first part is empty. */
  lemma RangeStep(market: seq<Candle>, from: int, mid: int, to: int)
    requires market != [] && from - 1 <= mid <= to
    requires Range(market[1..], from, to) == Range(market[1..], from, mid) + Range(market[1..], mid + 1, to)
    requires market[0].ts > mid ==> Range(market[1..], from, mid) == []
    ensures Range(market, from, to) == Range(market, from, mid) + Range(market, mid + 1, to)
  {
    var c, first, second := market[0], Range(market[1..], from, mid), Range(market[1..], mid + 1, to);
    if c.ts < from || c.ts > to {
      assert Range(market, from, mid) == first && Range(market, mid + 1, to) == second;
    } else if c.ts <= mid {
      assert Range(market, from, mid) == [c] + first && Range(market, mid + 1, to) == second;
      assert [c] + (first + second) == ([c] + first) + second;
    } else {
      assert Range(market, from, mid) == [] && Range(market, mid + 1, to) == [c] + second;
    }
  }

  lemma {:induction false} RangeSplits(market: seq<Candle>, from: int, mid: int, to: int)
    requires Ascending(market) && from - 1 <= mid <= to
    ensures Range(market, from, to) == Range(market, from, mid) + Range(market, mid + 1, to)
  {
    if market != [] {
      HeadIsEarliest(market);
      RangeSplits(market[1..], from, mid, to);
      if market[0].ts > mid {
        EmptyRange(market[1..], from, mid);
      }
      RangeStep(market, from, mid, to);
    }
  }

  /** The end of a range, from any of its candles on, is a range. */
  lemma TailIsRange(market: seq<Candle>, from: int, to: int, k: nat)
    requires Ascending(market) && k < |Range(market, from, to)|
    ensures var s := Range(market, from, to); s[k..] == Range(market, s[k].ts, to)
  {
    var s := Range(market, from, to);
    RangeMembers(market, from, to);
    assert s[k] in s;
    RangeMembers(market, from, s[k].ts - 1);
    RangeMembers(market, s[k].ts, to);
    RangeSplits(market, from, s[k].ts - 1, to);
    RangeAscends(market, from, to);
    CutAt(Range(market, from, s[k].ts - 1), Range(market, s[k].ts, to), k);
  }

  lemma MemberAt(p: seq<Candle>, q: seq<Candle>, i: nat)
    requires i < |p + q|
    ensures if i < |p| then (p + q)[i] in p else (p + q)[i] in q
  {
  }

  lemma CutAt(p: seq<Candle>, q: seq<Candle>, k: nat)
    requires Ascending(p + q) && k < |p + q|
    requires (forall c :: c in p ==> c.ts < (p + q)[k].ts) && (forall c :: c in q ==> c.ts >= (p + q)[k].ts)
    ensures (p + q)[k..] == q
  {
    MemberAt(p, q, k);
    if |p| < |p + q| {
      MemberAt(p, q, |p|);
    }
  }

  /** A batch is everything the market has from its first candle to the cursor. */
  lemma BatchIsRange(market: seq<Candle>, from: int, to: int)
    requires Ascending(market) && Batch(market, from, to) != []
    ensures var b := Batch(market, from, to);
            && from <= b[0].ts <= to
            && b == Range(market, b[0].ts, to)
  {
    var s := Range(market, from, to);
    var b := Batch(market, from, to);
    RangeMembers(market, from, to);
    assert b[0] in s;
    TailIsRange(market, from, to, |s| - |b|);
  }

  // ----- collecting ---------------------------------------------------------------------------

  /** Map.set keyed by time: a known time keeps its place, a new one goes last. */
  function Upsert(rows: seq<Candle>, c: Candle): seq<Candle> {
    if rows == [] then [c]
    else if rows[0].ts == c.ts then [c] + rows[1..]
    else [rows[0]] + Upsert(rows[1..], c)
  }

  lemma {:induction false} UpsertNew(rows: seq<Candle>, c: Candle)
    requires forall r :: r in rows ==> r.ts != c.ts
    ensures Upsert(rows, c) == rows + [c]
  {
    if rows != [] {
      UpsertNew(rows[1..], c);
    }
  }

  function InsertByTime(c: Candle, s: seq<Candle>): (r: seq<Candle>)
    ensures multiset(r) == multiset(s) + multiset{c}
  {
    if s == [] then [c]
    else if c.ts < s[0].ts then [c] + s
    else
      assert s == [s[0]] + s[1..];
      [s[0]] + InsertByTime(c, s[1..])
  }

  function SortByTime(s: seq<Candle>): (r: seq<Candle>)
    ensures multiset(r) == multiset(s)
  {
    if s == [] then []
    else
      assert s == [s[0]] + s[1..];
      InsertByTime(s[0], SortByTime(s[1..]))
  }

  lemma {:induction false} InsertAscends(c: Candle, s: seq<Candle>)
    requires Ascending(s) && forall x :: x in s ==> x.ts != c.ts
    ensures Ascending(InsertByTime(c, s))
  {
    if s != [] && c.ts > s[0].ts {
      InsertAscends(c, s[1..]);
      var r := InsertByTime(c, s[1..]);
      forall j | 0 <= j < |r| ensures s[0].ts < r[j].ts {
        assert r[j] in multiset(r);
        assert r[j] == c || r[j] in s[1..];
      }
    }
  }

  ghost predicate DistinctTimes(s: seq<Candle>) {
    forall i, j :: 0 <= i < j < |s| ==> s[i].ts != s[j].ts
  }

  lemma {:induction false} SortAscends(s: seq<Candle>)
    requires DistinctTimes(s)
    ensures Ascending(SortByTime(s))
  {
    if s != [] {
      SortAscends(s[1..]);
      forall x | x in SortByTime(s[1..]) ensures x.ts != s[0].ts {
        assert x in multiset(SortByTime(s[1..]));
        assert x in s[1..];
      }
      InsertAscends(s[0], SortByTime(s[1..]));
    }
  }

  lemma FirstIsLeast(a: seq<Candle>, b: seq<Candle>)
    requires Ascending(a) && Ascending(b) && multiset(a) == multiset(b) && a != []
    ensures b != [] && a[0] == b[0]
  {
    assert |multiset(a)| == |multiset(b)|;
    assert a[0] in multiset(b) && b[0] in multiset(a);
    var i :| 0 <= i < |b| && b[i] == a[0];
    var j :| 0 <= j < |a| && a[j] == b[0];
  }

  /** Only one list in time order holds the same candles. */
  lemma {:induction false} SeriesUnique(a: seq<Candle>, b: seq<Candle>)
    requires Ascending(a) && Ascending(b) && multiset(a) == multiset(b)
    ensures a == b
  {
    if a != [] {
      FirstIsLeast(a, b);
      SameLater(a, b);
      SeriesUnique(a[1..], b[1..]);
    } else {
      assert |multiset(a)| == |multiset(b)|;
    }
  }

  lemma SameLater(a: seq<Candle>, b: seq<Candle>)
    requires a != [] && b != [] && a[0] == b[0] && multiset(a) == multiset(b)
    ensures multiset(a[1..]) == multiset(b[1..])
  {
    assert a == [a[0]] + a[1..] && b == [b[0]] + b[1..];
    assert multiset(a[1..]) == multiset(a) - multiset{a[0]};
    assert multiset(b[1..]) == multiset(b) - multiset{b[0]};
  }

  // ----- the loop -----------------------------------------------------------------------------

  /** What has been collected when everything from `cut` on has been. */
  ghost predicate Collected(rows: seq<Candle>, market: seq<Candle>, cut: int, to: int) {
    multiset(rows) == multiset(Range(market, cut, to)) && DistinctTimes(rows) && |rows| == |Range(market, cut, to)|
  }

  lemma DistinctAppend(rows: seq<Candle>, batch: seq<Candle>)
    requires DistinctTimes(rows) && Ascending(batch)
    requires forall a, b :: a in rows && b in batch ==> b.ts < a.ts
    ensures DistinctTimes(rows + batch)
  {
  }

  lemma SumCollected(rows: seq<Candle>, batch: seq<Candle>, kept: seq<Candle>, all: seq<Candle>)
    requires multiset(rows) == multiset(kept) && |rows| == |kept| && all == batch + kept
    ensures multiset(rows + batch) == multiset(all) && |rows + batch| == |all|
  {
    assert multiset(rows + batch) == multiset(rows) + multiset(batch);
    assert multiset(batch + kept) == multiset(batch) + multiset(kept);
  }

  lemma AppendCollected(rows: seq<Candle>, batch: seq<Candle>, market: seq<Candle>, cursorEnd: int, to: int)
    requires Ascending(market) && cursorEnd <= to && batch != []
    requires Collected(rows, market, cursorEnd + 1, to)
    requires batch[0].ts <= cursorEnd && batch == Range(market, batch[0].ts, cursorEnd)
    ensures Collected(rows + batch, market, batch[0].ts, to)
    ensures Ascending(batch) && forall a, b :: a in rows && b in batch ==> b.ts < a.ts
  {
    RangeSplits(market, batch[0].ts, cursorEnd, to);
    RangeAscends(market, batch[0].ts, cursorEnd);
    RangeMembers(market, batch[0].ts, cursorEnd);
    NewTimes(rows, market, cursorEnd + 1, to);
    DistinctAppend(rows, batch);
    SumCollected(rows, batch, Range(market, cursorEnd + 1, to), Range(market, batch[0].ts, to));
  }

  lemma NewTimes(rows: seq<Candle>, market: seq<Candle>, cut: int, to: int)
    requires Collected(rows, market, cut, to)
    ensures forall c :: c in rows ==> cut <= c.ts <= to
  {
    forall c | c in rows ensures cut <= c.ts <= to {
      assert c in multiset(rows);
      RangeMembers(market, cut, to);
    }
  }

  lemma SortedCollected(rows: seq<Candle>, market: seq<Candle>, cut: int, to: int)
    requires Ascending(market) && Collected(rows, market, cut, to)
    ensures SortByTime(rows) == Range(market, cut, to)
  {
    SortAscends(rows);
    RangeAscends(market, cut, to);
    SeriesUnique(SortByTime(rows), Range(market, cut, to));
  }

  /** The candles of a batch that lie in the window are set, each at its time. */
  method SetAll(rows: seq<Candle>, batch: seq<Candle>, from: int, to: int) returns (r: seq<Candle>)
    requires Ascending(batch) && forall a, b :: a in rows && b in batch ==> b.ts < a.ts
    requires forall b :: b in batch ==> from <= b.ts <= to
    ensures r == rows + batch
  {
    r := rows;
    for i := 0 to |batch|
      invariant r == rows + batch[..i]
    {
      if from <= batch[i].ts <= to {
        SetsNew(rows, batch, i);
        r := Upsert(r, batch[i]);
      }
    }
    assert batch[..|batch|] == batch;
  }

  lemma SetsNew(rows: seq<Candle>, batch: seq<Candle>, i: nat)
    requires Ascending(batch) && (forall a, b :: a in rows && b in batch ==> b.ts < a.ts) && i < |batch|
    ensures Upsert(rows + batch[..i], batch[i]) == rows + batch[..i + 1]
  {
    var before := rows + batch[..i];
    assert batch[i] in batch;
    UpsertNew(before, batch[i]);
    assert before + [batch[i]] == rows + batch[..i + 1];
  }

  predicate NoneIn(market: seq<Candle>, from: int, to: int) {
    forall c :: c in market ==> !(from <= c.ts <= to)
  }

  predicate HasTime(market: seq<Candle>, ts: int) {
    exists c :: c in market && c.ts == ts
  }

  /** The time that many spans of 90 days take. */
  function Covered(pairs: nat): int {
    7776000000 * pairs
  }

  /** How the requests so far were spent. A full one brought 200 candles. One that was not full has seen
      all of its 90 days, so the next one finds nothing before their start: two such requests move the
      cursor by 90 days. `pending` is such a request, from `anchor`, that waits for its second. */
  datatype Pace = Pace(full: nat, partial: nat, pairs: nat, pending: bool, anchor: int)

  ghost predicate PaceOk(pace: Pace, market: seq<Candle>, w: Window, bars: nat, cursorEnd: int, rounds: nat) {
    && pace.full + pace.partial == rounds
    && Served(pace.full) <= bars
    && pace.partial <= 2 * pace.pairs + (if pace.pending then 1 else 0)
    && (if pace.pending
        then cursorEnd <= pace.anchor && Covered(pace.pairs) <= w.to - pace.anchor
             && NoneIn(market, Max(w.from, pace.anchor - MAX_REQUEST_MS), cursorEnd)
        else Covered(pace.pairs) <= w.to - cursorEnd)
  }

  /** The pace after a batch that starts at `first`. */
  function PaceStep(pace: Pace, full: bool, cursorEnd: int): Pace {
    var counted := if full then pace.(full := pace.full + 1) else pace.(partial := pace.partial + 1);
    if pace.pending then counted.(pending := false, pairs := pace.pairs + 1)
    else if full then counted
    else counted.(pending := true, anchor := cursorEnd)
  }

  lemma PaceKept(pace: Pace, market: seq<Candle>, w: Window, bars: nat, cursorEnd: int, rounds: nat, batch: seq<Candle>)
    requires Ascending(market) && PaceOk(pace, market, w, bars, cursorEnd, rounds) && w.from < cursorEnd <= w.to
    requires batch == Batch(market, RequestStart(w, cursorEnd), cursorEnd) && batch != []
    ensures PaceOk(PaceStep(pace, |batch| == LIMIT, cursorEnd), market, w, bars + |batch|, batch[0].ts - 1, rounds + 1)
  {
    BatchInWindow(market, w, cursorEnd, batch);
    assert batch[0] in batch;
  }

  /** The loop's state. An exchange other than Bitget has filled every batch so far, or has no more. */
  ghost predicate Paged(byTs: seq<Candle>, market: seq<Candle>, w: Window, cursorEnd: int, rounds: nat, pace: Pace) {
    && cursorEnd <= w.to
    && Collected(byTs, market, cursorEnd + 1, w.to)
    && (cursorEnd == w.to || (w.from <= cursorEnd && HasTime(market, cursorEnd + 1)))
    && (w.bitget || |byTs| == Served(rounds) || NoneIn(market, w.from, cursorEnd))
    && PaceOk(pace, market, w, |byTs|, cursorEnd, rounds)
  }

  /** What is known when paging has stopped. */
  ghost predicate Stopped(stop: Stop, r: seq<Candle>, market: seq<Candle>, w: Window) {
    && r == Range(market, stop.cut, w.to)
    && stop.cut <= w.to + 1
    && (stop.cut == w.to + 1 || (w.from <= stop.cut && HasTime(market, stop.cut)))
    && match stop
       case ReachedStart(cut) => cut == w.from
       case NoMore(cut) => w.from < cut - 1 && NoneIn(market, RequestStart(w, cut - 1), cut - 1)
       case Cursor(cut) => cut - 1 <= w.from
       case Full(_) => |r| >= w.maxBars
       case Rounds(cut, full, pairs) =>
         && w.from < cut - 1
         && MAX_ROUNDS <= full + 2 * pairs + 1 && Served(full) <= |r| && Covered(pairs) <= w.to - (cut - 1)
         && (w.bitget || |r| == Served(MAX_ROUNDS) || NoneIn(market, w.from, cut - 1))
  }

  lemma BatchInWindow(market: seq<Candle>, w: Window, cursorEnd: int, batch: seq<Candle>)
    requires Ascending(market) && w.from < cursorEnd <= w.to
    requires batch == Batch(market, RequestStart(w, cursorEnd), cursorEnd) && batch != []
    ensures forall b :: b in batch ==> w.from <= b.ts <= w.to
    ensures batch[0].ts <= cursorEnd && batch == Range(market, batch[0].ts, cursorEnd)
    ensures HasTime(market, batch[0].ts)
    ensures |batch| <= LIMIT
    ensures |batch| == LIMIT || NoneIn(market, RequestStart(w, cursorEnd), batch[0].ts - 1)
  {
    var start := RequestStart(w, cursorEnd);
    BatchIsRange(market, start, cursorEnd);
    RangeMembers(market, batch[0].ts, cursorEnd);
    assert batch[0] in batch;
    if |batch| != LIMIT {
      RangeSplits(market, start, batch[0].ts - 1, cursorEnd);
      RangeMembers(market, start, batch[0].ts - 1);
    }
  }

  lemma BatchIsOlder(byTs: seq<Candle>, market: seq<Candle>, w: Window, cursorEnd: int, batch: seq<Candle>)
    requires Ascending(market) && w.from < cursorEnd <= w.to && Collected(byTs, market, cursorEnd + 1, w.to)
    requires batch == Batch(market, RequestStart(w, cursorEnd), cursorEnd) && batch != []
    ensures Ascending(batch) && forall a, b :: a in byTs && b in batch ==> b.ts < a.ts
    ensures forall b :: b in batch ==> w.from <= b.ts <= w.to
  {
    BatchInWindow(market, w, cursorEnd, batch);
    AppendCollected(byTs, batch, market, cursorEnd, w.to);
  }

  lemma PagedStep(byTs: seq<Candle>, market: seq<Candle>, w: Window, cursorEnd: int, rounds: nat, pace: Pace,
                  batch: seq<Candle>)
    requires Ascending(market) && Paged(byTs, market, w, cursorEnd, rounds, pace) && cursorEnd > w.from
    requires batch == Batch(market, RequestStart(w, cursorEnd), cursorEnd) && batch != []
    ensures batch[0].ts <= w.from ==> Stopped(ReachedStart(batch[0].ts), SortByTime(byTs + batch), market, w)
    ensures batch[0].ts > w.from ==>
              Paged(byTs + batch, market, w, batch[0].ts - 1, rounds + 1, PaceStep(pace, |batch| == LIMIT, cursorEnd))
  {
    BatchInWindow(market, w, cursorEnd, batch);
    AppendCollected(byTs, batch, market, cursorEnd, w.to);
    SortedCollected(byTs + batch, market, batch[0].ts, w.to);
    PaceKept(pace, market, w, |byTs|, cursorEnd, rounds, batch);
    assert batch[0] in batch;
  }

  lemma PagedRunsDry(byTs: seq<Candle>, market: seq<Candle>, w: Window, cursorEnd: int, rounds: nat, pace: Pace)
    requires Ascending(market) && Paged(byTs, market, w, cursorEnd, rounds, pace) && cursorEnd > w.from
    requires Batch(market, RequestStart(w, cursorEnd), cursorEnd) == []
    ensures Stopped(NoMore(cursorEnd + 1), SortByTime(byTs), market, w)
  {
    SortedCollected(byTs, market, cursorEnd + 1, w.to);
    RangeMembers(market, RequestStart(w, cursorEnd), cursorEnd);
  }

  /** Which of the loop's three conditions failed. */
  function Ended(bars: nat, w: Window, cursorEnd: int, pace: Pace): Stop {
    if cursorEnd <= w.from then Cursor(cursorEnd + 1)
    else if bars >= w.maxBars then Full(cursorEnd + 1)
    else Rounds(cursorEnd + 1, pace.full, pace.pairs)
  }

  lemma EndedStopped(r: seq<Candle>, market: seq<Candle>, w: Window, cursorEnd: int, rounds: nat, pace: Pace)
    requires cursorEnd <= w.to && r == Range(market, cursorEnd + 1, w.to)
    requires cursorEnd == w.to || (w.from <= cursorEnd && HasTime(market, cursorEnd + 1))
    requires w.bitget || |r| == Served(rounds) || NoneIn(market, w.from, cursorEnd)
    requires PaceOk(pace, market, w, |r|, cursorEnd, rounds)
    requires cursorEnd <= w.from || |r| >= w.maxBars || rounds == MAX_ROUNDS
    ensures Stopped(Ended(|r|, w, cursorEnd, pace), r, market, w)
  {
  }

  lemma PagedEnds(byTs: seq<Candle>, market: seq<Candle>, w: Window, cursorEnd: int, rounds: nat, pace: Pace)
    requires Ascending(market) && Paged(byTs, market, w, cursorEnd, rounds, pace)
    requires cursorEnd <= w.from || |byTs| >= w.maxBars || rounds == MAX_ROUNDS
    ensures Stopped(Ended(|byTs|, w, cursorEnd, pace), SortByTime(byTs), market, w)
  {
    SortedCollected(byTs, market, cursorEnd + 1, w.to);
    EndedStopped(SortByTime(byTs), market, w, cursorEnd, rounds, pace);
  }

  /** Everything a batch that brought candles decides. */
  lemma PagedBatch(byTs: seq<Candle>, market: seq<Candle>, w: Window, cursorEnd: int, rounds: nat, pace: Pace,
                   batch: seq<Candle>)
    requires Ascending(market) && Paged(byTs, market, w, cursorEnd, rounds, pace) && cursorEnd > w.from
    requires batch == Batch(market, RequestStart(w, cursorEnd), cursorEnd) && batch != []
    ensures Ascending(batch) && forall a, b :: a in byTs && b in batch ==> b.ts < a.ts
    ensures forall b :: b in batch ==> w.from <= b.ts <= w.to
    ensures batch[0].ts <= w.from ==> Stopped(ReachedStart(batch[0].ts), SortByTime(byTs + batch), market, w)
    ensures batch[0].ts > w.from ==>
              Paged(byTs + batch, market, w, batch[0].ts - 1, rounds + 1, PaceStep(pace, |batch| == LIMIT, cursorEnd))
  {
    BatchIsOlder(byTs, market, w, cursorEnd, batch);
    PagedStep(byTs, market, w, cursorEnd, rounds, pace, batch);
  }

  /** One request of the loop that brought candles: they are set, and the cursor moves before the first. */
  method TakeBatch(byTs: seq<Candle>, ghost market: seq<Candle>, w: Window, cursorEnd: int, ghost rounds: nat,
                   ghost pace: Pace, batch: seq<Candle>)
    returns (r: seq<Candle>, firstTs: int, nextEnd: int, ghost next: Pace)
    requires Ascending(market) && Paged(byTs, market, w, cursorEnd, rounds, pace) && cursorEnd > w.from
    requires batch == Batch(market, RequestStart(w, cursorEnd), cursorEnd) && batch != []
    ensures firstTs <= w.from ==> Stopped(ReachedStart(firstTs), SortByTime(r), market, w)
    ensures firstTs > w.from ==> Paged(r, market, w, nextEnd, rounds + 1, next)
    ensures firstTs == batch[0].ts && nextEnd == firstTs - 1
  {
    PagedBatch(byTs, market, w, cursorEnd, rounds, pace, batch);
    r := SetAll(byTs, batch, w.from, w.to);
    firstTs := batch[0].ts;
    nextEnd := firstTs - 1;
    next := PaceStep(pace, |batch| == LIMIT, cursorEnd);
  }

  const AT_START := Pace(0, 0, 0, false, 0)

  /** The first request's oldest candle lies a millisecond after the start of the window. */
  predicate BeginsAfterStart(market: seq<Candle>, w: Window) {
    var batch := Batch(market, RequestStart(w, w.to), w.to);
    w.from < w.to && w.maxBars > 0 && batch != [] && batch[0].ts == w.from + 1
  }

  /** The loop of fetchHistoricalCandles, and its final sort. */
  method PageBack(market: seq<Candle>, w: Window) returns (r: seq<Candle>, ghost stop: Stop)
    requires Ascending(market)
    ensures Stopped(stop, r, market, w)
    ensures BeginsAfterStart(market, w) ==> stop == Cursor(w.from + 1)
  {
    var byTs: seq<Candle>, cursorEnd, rounds := [], w.to, 0;
    ghost var pace := AT_START;
    ghost var first := Batch(market, RequestStart(w, w.to), w.to);
    ghost var begins := BeginsAfterStart(market, w);
    EmptyRange(market, w.to + 1, w.to);
    while cursorEnd > w.from && |byTs| < w.maxBars && rounds < MAX_ROUNDS
      invariant 0 <= rounds <= MAX_ROUNDS
      invariant Paged(byTs, market, w, cursorEnd, rounds, pace)
      invariant rounds == 0 ==> cursorEnd == w.to && byTs == []
      invariant rounds > 0 && begins ==> cursorEnd == w.from
      decreases MAX_ROUNDS - rounds
    {
      var batch := Batch(market, RequestStart(w, cursorEnd), cursorEnd);
      assert rounds == 0 ==> batch == first;
      if batch == [] {
        PagedRunsDry(byTs, market, w, cursorEnd, rounds, pace);
        return SortByTime(byTs), NoMore(cursorEnd + 1);
      }
      var firstTs;
      byTs, firstTs, cursorEnd, pace := TakeBatch(byTs, market, w, cursorEnd, rounds, pace, batch);
      if firstTs <= w.from {
        return SortByTime(byTs), ReachedStart(firstTs);
      }
      rounds := rounds + 1;
    }
    PagedEnds(byTs, market, w, cursorEnd, rounds, pace);
    return SortByTime(byTs), Ended(|byTs|, w, cursorEnd, pace);
  }

  // ----- what the stop means ------------------------------------------------------------------

  /** The result is always a part of the window without gaps or repeats that ends where the window ends. */
  lemma SuffixOfWindow(stop: Stop, r: seq<Candle>, market: seq<Candle>, w: Window)
    requires Ascending(market) && Stopped(stop, r, market, w)
    ensures Ascending(r) && r == Newest(|r|, Range(market, w.from, w.to))
    ensures |r| <= |Range(market, w.from, w.to)|
  {
    RangeAscends(market, stop.cut, w.to);
    if stop.cut == w.to + 1 {
      EmptyRange(market, stop.cut, w.to);
    } else {
      RangeSplits(market, w.from, stop.cut - 1, w.to);
    }
  }

  /** fetchHistoricalCandles, against an exchange that answers a request with the newest candles of it. */
  method FetchHistorical(market: seq<Candle>, bitget: bool, from: int, to: int, minBars: int)
    returns (r: seq<Candle>, ghost stop: Stop)
    requires Ascending(market)
    ensures Stopped(stop, r, market, Window(bitget, from, to, MaxBars(minBars)))
    ensures Ascending(r) && r == Newest(|r|, Range(market, from, to))
    ensures BeginsAfterStart(market, Window(bitget, from, to, MaxBars(minBars))) ==> r == Range(market, from + 1, to)
  {
    var w := Window(bitget, from, to, MaxBars(minBars));
    r, stop := PageBack(market, w);
    SuffixOfWindow(stop, r, market, w);
  }

  lemma NothingEarlier(market: seq<Candle>, from: int, cut: int, to: int)
    requires Ascending(market) && from <= cut <= to + 1 && NoneIn(market, from, cut - 1)
    ensures Range(market, from, to) == Range(market, cut, to)
  {
    RangeSplits(market, from, cut - 1, to);
    EmptyRange(market, from, cut - 1);
  }

  /** It is the whole window when a batch reached the start, or when a request of the whole rest came
      back empty; a Bitget request that came back empty leaves out only what lies across a gap of more
      than 90 days. */
  lemma StoppedComplete(stop: Stop, r: seq<Candle>, market: seq<Candle>, w: Window)
    requires Ascending(market) && Stopped(stop, r, market, w)
    ensures stop.ReachedStart? || (stop.NoMore? && !w.bitget) ==> r == Range(market, w.from, w.to)
    ensures stop.NoMore? ==>
              forall c :: c in market && w.from <= c.ts < stop.cut ==> c.ts < stop.cut - 1 - MAX_REQUEST_MS
  {
    if stop.NoMore? && !w.bitget {
      NothingEarlier(market, w.from, stop.cut, w.to);
    }
  }

  /** On exchanges other than Bitget, a window with fewer candles than the bar bound and the request
      bound allow is complete, but for a candle exactly at its start when the next one follows a
      millisecond later. */
  lemma SmallWindowComplete(stop: Stop, r: seq<Candle>, market: seq<Candle>, w: Window)
    requires Ascending(market) && Stopped(stop, r, market, w) && !w.bitget && w.from < w.to
    requires |Range(market, w.from, w.to)| < w.maxBars && |Range(market, w.from, w.to)| < Served(MAX_ROUNDS)
    ensures r == Range(market, w.from, w.to) || (r == Range(market, w.from + 1, w.to) && HasTime(market, w.from + 1))
  {
    SuffixOfWindow(stop, r, market, w);
    StoppedComplete(stop, r, market, w);
    if stop.Rounds? {
      NothingEarlier(market, w.from, stop.cut, w.to);
    }
  }

  /** Candles at least two milliseconds apart: then it is complete. */
  lemma SpacedWindowComplete(stop: Stop, r: seq<Candle>, market: seq<Candle>, w: Window)
    requires Ascending(market) && Stopped(stop, r, market, w) && !w.bitget && w.from < w.to
    requires |Range(market, w.from, w.to)| < w.maxBars && |Range(market, w.from, w.to)| < Served(MAX_ROUNDS)
    requires forall a, b :: a in market && b in market && a.ts < b.ts ==> a.ts + 2 <= b.ts
    ensures r == Range(market, w.from, w.to)
  {
    SmallWindowComplete(stop, r, market, w);
    if HasTime(market, w.from + 1) {
      RangeSplits(market, w.from, w.from, w.to);
      RangeMembers(market, w.from, w.from);
      EmptyRange(market, w.from, w.from);
    }
  }

  // ----- Bitget -------------------------------------------------------------------------------

  /** No two neighbouring candles of the window, nor its last one and its end, lie more than 90 days apart. */
  ghost predicate NoLongGap(market: seq<Candle>, w: Window) {
    forall c :: c in market && w.from <= c.ts <= w.to ==>
      w.to - c.ts <= MAX_REQUEST_MS || exists d :: d in market && c.ts < d.ts <= c.ts + MAX_REQUEST_MS
  }

  /** After the last candle of a range the market has none in it. */
  lemma LastOfRange(market: seq<Candle>, from: int, to: int)
    requires Ascending(market) && Range(market, from, to) != []
    ensures var s := Range(market, from, to);
            var last := s[|s| - 1];
            last in market && from <= last.ts <= to && forall d :: d in market && d.ts > last.ts ==> d.ts > to
  {
    var s := Range(market, from, to);
    RangeMembers(market, from, to);
    RangeAscends(market, from, to);
    assert s[|s| - 1] in s;
    forall d | d in s ensures d.ts <= s[|s| - 1].ts {
      var k :| 0 <= k < |s| && s[k] == d;
    }
  }

  /** With no long gap, nothing is left before the cut of a request that came back empty. */
  lemma NothingAcrossGap(stop: Stop, r: seq<Candle>, market: seq<Candle>, w: Window)
    requires Ascending(market) && Stopped(stop, r, market, w) && NoLongGap(market, w) && stop.NoMore?
    ensures NoneIn(market, w.from, stop.cut - 1)
  {
    RangeMembers(market, w.from, stop.cut - 1);
    StoppedComplete(stop, r, market, w);
    if Range(market, w.from, stop.cut - 1) != [] {
      LastOfRange(market, w.from, stop.cut - 1);
    }
  }

  /** The requests suffice: 200 candles for a full one, 90 days for every two others. */
  predicate EnoughRounds(bars: nat, w: Window) {
    bars / 200 + 2 * ((w.to - w.from) / 7776000000) + 1 < MAX_ROUNDS
  }

  /** A window, on Bitget as elsewhere, without a gap over 90 days, with fewer candles than the bar
      bound and few enough of them and of days for the requests, is complete, but for a candle at its
      start when the next one follows a millisecond later. */
  lemma GaplessWindowComplete(stop: Stop, r: seq<Candle>, market: seq<Candle>, w: Window)
    requires Ascending(market) && Stopped(stop, r, market, w) && w.from < w.to && NoLongGap(market, w)
    requires |Range(market, w.from, w.to)| < w.maxBars && EnoughRounds(|Range(market, w.from, w.to)|, w)
    ensures r == Range(market, w.from, w.to) || (r == Range(market, w.from + 1, w.to) && HasTime(market, w.from + 1))
  {
    SuffixOfWindow(stop, r, market, w);
    RoundsSuffice(stop, r, market, w);
    match stop
    case ReachedStart(_) => StoppedComplete(stop, r, market, w);
    case NoMore(cut) =>
      NothingAcrossGap(stop, r, market, w);
      NothingEarlier(market, w.from, cut, w.to);
    case Cursor(_) => CursorMissesOne(stop, r, market, w);
    case _ =>
  }

  /** When the cursor reaches the start, only a candle at the start itself can be missing. */
  lemma CursorMissesOne(stop: Stop, r: seq<Candle>, market: seq<Candle>, w: Window)
    requires Stopped(stop, r, market, w) && stop.Cursor? && w.from < w.to
    ensures r == Range(market, w.from, w.to) || (r == Range(market, w.from + 1, w.to) && HasTime(market, w.from + 1))
  {
  }

  lemma RoundsSuffice(stop: Stop, r: seq<Candle>, market: seq<Candle>, w: Window)
    requires Stopped(stop, r, market, w) && w.from < w.to && |r| <= |Range(market, w.from, w.to)|
    requires EnoughRounds(|Range(market, w.from, w.to)|, w)
    ensures !stop.Rounds?
  {
    if stop.Rounds? {
      BudgetSpent(stop.full, stop.pairs, |Range(market, w.from, w.to)|, w);
    }
  }

  lemma BudgetSpent(full: nat, pairs: nat, bars: nat, w: Window)
    requires Served(full) <= bars && Covered(pairs) <= w.to - w.from && EnoughRounds(bars, w)
    ensures full + 2 * pairs + 1 < MAX_ROUNDS
  {
    assert full <= bars / 200 && pairs <= (w.to - w.from) / 7776000000;
  }

  /** Five years of daily candles, for example, take no more than the 80 requests. */
  lemma FiveYearsComplete(stop: Stop, r: seq<Candle>, market: seq<Candle>, w: Window)
    requires Ascending(market) && Stopped(stop, r, market, w) && NoLongGap(market, w)
    requires w.from < w.to <= w.from + 1825 * 24 * 60 * 60 * 1000
    requires |Range(market, w.from, w.to)| <= 1826 < w.maxBars
    ensures r == Range(market, w.from, w.to) || (r == Range(market, w.from + 1, w.to) && HasTime(market, w.from + 1))
  {
    assert (w.to - w.from) / 7776000000 <= 20;
    GaplessWindowComplete(stop, r, market, w);
  }

  // ----- the candle at the start --------------------------------------------------------------

  /** Such a window lacks its first candle exactly when everything from a millisecond after its start on
      was collected and the paging stopped there. */
  lemma StartMissedExactly(stop: Stop, r: seq<Candle>, market: seq<Candle>, w: Window)
    requires Ascending(market) && Stopped(stop, r, market, w) && w.from < w.to
    requires r == Range(market, w.from, w.to) || (r == Range(market, w.from + 1, w.to) && HasTime(market, w.from + 1))
    ensures r != Range(market, w.from, w.to) <==> stop.cut == w.from + 1 && HasTime(market, w.from)
  {
    RangeSplits(market, w.from, w.from, w.to);
    RangeMembers(market, w.from, w.from);
    RangeMembers(market, w.from + 1, w.to);
    RangeMembers(market, stop.cut, w.to);
    if !HasTime(market, w.from) {
      EmptyRange(market, w.from, w.from);
    }
  }

  /** Two hundred and one candles, a millisecond apart. */
  function Consecutive(from: int): (market: seq<Candle>)
    ensures |market| == 201 && forall i :: 0 <= i < 201 ==> market[i].ts == from + i
  {
    seq(201, i requires 0 <= i < 201 => Candle(from + i, 0.0, 0.0, 0.0, 0.0))
  }

  lemma {:induction false} WholeRange(market: seq<Candle>, from: int, to: int)
    requires forall c :: c in market ==> from <= c.ts <= to
    ensures Range(market, from, to) == market
  {
    if market != [] {
      WholeRange(market[1..], from, to);
    }
  }

  /** Their first one is at the start of the window, and the first request brings all others: the loop
      leaves it out. */
  lemma StartIsMissed(from: int, bitget: bool, maxBars: nat)
    requires maxBars > 0
    ensures var w := Window(bitget, from, from + 200, maxBars);
            Ascending(Consecutive(from)) && HasTime(Consecutive(from), from) && BeginsAfterStart(Consecutive(from), w)
  {
    var market := Consecutive(from);
    assert market[0] in market && market[0].ts == from;
    WholeRange(market, from, from + 200);
    assert Newest(LIMIT, market)[0] == market[1];
  }
}
