/** The in-memory tables of apps/api/src/trafficControl.ts: maps that remember insertion order, and
    the sweep that drops expired rows and then the oldest ones. */
module MemoryTable {
  import opened Wrappers

  type Key = string

  datatype Entry<V> = Entry(key: Key, value: V)

  ghost predicate DistinctKeys<V>(es: seq<Entry<V>>) {
    forall i, j :: 0 <= i < j < |es| ==> es[i].key != es[j].key
  }

  function Lookup<V>(es: seq<Entry<V>>, key: Key): (r: Option<V>)
    ensures r.Some? ==> Entry(key, r.value) in es
    ensures r.None? ==> forall e :: e in es ==> e.key != key
  {
    if es == [] then None
    else if es[0].key == key then Some(es[0].value)
    else Lookup(es[1..], key)
  }

  /** Setting a key keeps its place, or appends it. */
  function Put<V>(es: seq<Entry<V>>, key: Key, value: V): (r: seq<Entry<V>>)
    ensures |es| <= |r| <= |es| + 1
  {
    if es == [] then [Entry(key, value)]
    else if es[0].key == key then [Entry(key, value)] + es[1..]
    else [es[0]] + Put(es[1..], key, value)
  }

  function Remove<V>(es: seq<Entry<V>>, key: Key): (r: seq<Entry<V>>)
    ensures |r| <= |es|
  {
    if es == [] then []
    else if es[0].key == key then es[1..]
    else [es[0]] + Remove(es[1..], key)
  }

  /** A row without an expiry time never expires. */
  predicate Expired(at: int, now: int) {
    at != 0 && at <= now
  }

  function Live<V>(es: seq<Entry<V>>, expiry: V -> int, now: int): (r: seq<Entry<V>>)
    ensures |r| <= |es|
    ensures forall e :: e in r ==> e in es
  {
    if es == [] then []
    else if Expired(expiry(es[0].value), now) then Live(es[1..], expiry, now)
    else [es[0]] + Live(es[1..], expiry, now)
  }

  /** Drops the oldest rows until at most `max` are left; an empty key would stop it. */
  function Evict<V>(es: seq<Entry<V>>, max: nat): (r: seq<Entry<V>>)
    ensures |es| <= max ==> r == es
    ensures (forall e :: e in es ==> e.key != "") ==> |r| <= max
    ensures |r| <= |es|
  {
    if |es| <= max || es[0].key == "" then es else Evict(es[1..], max)
  }

  /** sweepMemoryMap */
  function Sweep<V>(es: seq<Entry<V>>, expiry: V -> int, now: int, max: nat): seq<Entry<V>> {
    Evict(Live(es, expiry, now), max)
  }

  // ----- the table laws -----------------------------------------------------------------------

  lemma {:induction false} PutIsUpdate<V>(es: seq<Entry<V>>, key: Key, value: V, other: Key)
    ensures Lookup(Put(es, key, value), other) == if other == key then Some(value) else Lookup(es, other)
  {
    if es != [] {
      PutIsUpdate(es[1..], key, value, other);
      if es[0].key == key {
        assert ([Entry(key, value)] + es[1..])[1..] == es[1..];
      } else {
        assert Put(es, key, value)[1..] == Put(es[1..], key, value);
      }
    }
  }

  lemma {:induction false} PutKeys<V>(es: seq<Entry<V>>, key: Key, value: V)
    ensures forall e :: e in Put(es, key, value) ==> e.key == key || exists d :: d in es && d.key == e.key
    ensures DistinctKeys(es) ==> DistinctKeys(Put(es, key, value))
  {
    if es != [] && es[0].key != key {
      PutKeys(es[1..], key, value);
      var r := Put(es[1..], key, value);
      if DistinctKeys(es) {
        forall j | 0 <= j < |r| ensures r[j].key != es[0].key {
          if r[j].key != key {
            var d :| d in es[1..] && d.key == r[j].key;
          }
        }
      }
    }
  }

  lemma {:induction false} RemoveIsUpdate<V>(es: seq<Entry<V>>, key: Key, other: Key)
    requires DistinctKeys(es)
    ensures DistinctKeys(Remove(es, key))
    ensures forall e :: e in Remove(es, key) ==> e in es
    ensures Lookup(Remove(es, key), other) == if other == key then None else Lookup(es, other)
  {
    if es != [] {
      RemoveIsUpdate(es[1..], key, other);
      if es[0].key == key {
        forall e | e in es[1..] ensures e.key != key {
          var i :| 1 <= i < |es| && es[i] == e;
        }
      } else {
        var r := Remove(es[1..], key);
        assert ([es[0]] + r)[1..] == r;
        forall j | 0 <= j < |r| ensures r[j].key != es[0].key {
          assert r[j] in es[1..];
        }
      }
    }
  }

  lemma {:induction false} LiveKeeps<V>(es: seq<Entry<V>>, expiry: V -> int, now: int, key: Key)
    requires DistinctKeys(es)
    ensures DistinctKeys(Live(es, expiry, now))
    ensures Lookup(Live(es, expiry, now), key)
         == if Lookup(es, key).Some? && Expired(expiry(Lookup(es, key).value), now) then None else Lookup(es, key)
  {
    if es != [] {
      LiveKeeps(es[1..], expiry, now, key);
      var r := Live(es[1..], expiry, now);
      forall e | e in es[1..] ensures e.key != es[0].key {
        var i :| 1 <= i < |es| && es[i] == e;
      }
      if Expired(expiry(es[0].value), now) {
        if es[0].key == key {
          assert Lookup(es[1..], key).None?;
        }
      } else {
        assert ([es[0]] + r)[1..] == r;
        assert forall j :: 0 <= j < |r| ==> r[j] in es[1..];
      }
    }
  }

  lemma {:induction false} EvictKeeps<V>(es: seq<Entry<V>>, max: nat)
    requires DistinctKeys(es)
    ensures DistinctKeys(Evict(es, max))
    ensures forall e :: e in Evict(es, max) ==> e in es
    decreases |es|
  {
    if |es| > max && es[0].key != "" {
      EvictKeeps(es[1..], max);
    }
  }

  lemma {:induction false} LookupMember<V>(es: seq<Entry<V>>, e: Entry<V>)
    requires DistinctKeys(es) && e in es
    ensures Lookup(es, e.key) == Some(e.value)
  {
    if es[0] != e {
      var i :| 0 <= i < |es| && es[i] == e;
      LookupMember(es[1..], e);
    }
  }

  lemma {:induction false} LiveOfFresh<V>(es: seq<Entry<V>>, expiry: V -> int, now: int)
    requires forall e :: e in es ==> !Expired(expiry(e.value), now)
    ensures Live(es, expiry, now) == es
  {
    if es != [] {
      LiveOfFresh(es[1..], expiry, now);
    }
  }

  /** A sweep of a small table in which nothing has expired does nothing. */
  lemma SweepIdle<V>(es: seq<Entry<V>>, expiry: V -> int, now: int, max: nat)
    requires forall e :: e in es ==> !Expired(expiry(e.value), now)
    requires |es| <= max
    ensures Sweep(es, expiry, now, max) == es
  {
    LiveOfFresh(es, expiry, now);
  }

  /** What a sweep may change for one key: the row is still there, or it had expired, or it was evicted. */
  lemma SweepKeeps<V>(es: seq<Entry<V>>, expiry: V -> int, now: int, max: nat, key: Key)
    requires DistinctKeys(es)
    ensures var r := Sweep(es, expiry, now, max);
            && DistinctKeys(r)
            && (forall e :: e in r ==> e in es && !Expired(expiry(e.value), now))
            && (Lookup(r, key).Some? ==> Lookup(r, key) == Lookup(es, key))
  {
    LiveKeeps(es, expiry, now, key);
    var live := Live(es, expiry, now);
    EvictKeeps(live, max);
    var r := Sweep(es, expiry, now, max);
    LiveIsFresh(es, expiry, now);
    if Lookup(r, key).Some? {
      LookupMember(live, Entry(key, Lookup(r, key).value));
    }
  }

  lemma {:induction false} LiveIsFresh<V>(es: seq<Entry<V>>, expiry: V -> int, now: int)
    ensures forall e :: e in Live(es, expiry, now) ==> !Expired(expiry(e.value), now)
  {
    if es != [] {
      LiveIsFresh(es[1..], expiry, now);
    }
  }

  // ----- the loops of sweepMemoryMap ----------------------------------------------------------

  lemma {:induction false} LiveConcat<V>(a: seq<Entry<V>>, b: seq<Entry<V>>, expiry: V -> int, now: int)
    ensures Live(a + b, expiry, now) == Live(a, expiry, now) + Live(b, expiry, now)
  {
    if a == [] {
      assert a + b == b;
    } else {
      assert (a + b)[1..] == a[1..] + b;
      LiveConcat(a[1..], b, expiry, now);
    }
  }

  lemma {:induction false} RemoveMiddle<V>(a: seq<Entry<V>>, e: Entry<V>, b: seq<Entry<V>>)
    requires forall x :: x in a ==> x.key != e.key
    ensures Remove(a + [e] + b, e.key) == a + b
  {
    if a == [] {
      assert a + [e] + b == [e] + b;
      assert a + b == b;
    } else {
      assert (a + [e] + b)[1..] == a[1..] + [e] + b;
      RemoveMiddle(a[1..], e, b);
      assert [a[0]] + (a[1..] + b) == a + b;
    }
  }

  /** One visit of the sweeping loop, to a row between those visited and those to come. */
  lemma SweepVisit<V>(visited: seq<Entry<V>>, e: Entry<V>, rest: seq<Entry<V>>, expiry: V -> int, now: int)
    requires forall x :: x in visited ==> x.key != e.key
    ensures var before := Live(visited, expiry, now) + [e] + rest;
            (if Expired(expiry(e.value), now) then Remove(before, e.key) else before)
              == Live(visited + [e], expiry, now) + rest
  {
    LiveConcat(visited, [e], expiry, now);
    assert [e][1..] == [];
    RemoveMiddle(Live(visited, expiry, now), e, rest);
  }

  lemma Around<V>(rows: seq<Entry<V>>, i: nat, before: seq<Entry<V>>)
    requires DistinctKeys(rows) && i < |rows|
    ensures before + rows[i..] == before + [rows[i]] + rows[i + 1..]
    ensures rows[..i + 1] == rows[..i] + [rows[i]]
    ensures forall x :: x in rows[..i] ==> x.key != rows[i].key
  {
  }

  class Table<V> {
    var entries: seq<Entry<V>>

    constructor ()
      ensures entries == []
    {
      entries := [];
    }

    method Delete(key: Key)
      modifies this
      ensures entries == Remove(old(entries), key)
    {
      entries := Remove(entries, key);
    }

    /** sweepMemoryMap: every row is visited once while expired ones are deleted, then the oldest go. */
    method SweepOut(expiry: V -> int, now: int, max: nat)
      requires DistinctKeys(entries)
      modifies this
      ensures entries == Sweep(old(entries), expiry, now, max)
    {
      var rows := entries;
      for i := 0 to |rows|
        invariant entries == Live(rows[..i], expiry, now) + rows[i..]
      {
        Around(rows, i, Live(rows[..i], expiry, now));
        SweepVisit(rows[..i], rows[i], rows[i + 1..], expiry, now);
        if Expired(expiry(rows[i].value), now) {
          Delete(rows[i].key);
        }
      }
      assert rows[..|rows|] == rows;
      assert entries == Live(rows, expiry, now);
      ghost var live := entries;
      while |entries| > max
        invariant Evict(entries, max) == Evict(live, max)
        decreases |entries|
      {
        var oldest := entries[0].key;
        if oldest == "" {
          break;
        }
        Delete(oldest);
      }
    }
  }
}
