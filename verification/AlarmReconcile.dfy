/** Alarm reconciliation: which safety events have no alarm. Times are in one integer unit. */
module AlarmReconcile {
  import opened Sorting

  datatype Key = Key(sn: string, code: string, ts: int)

  datatype Pair = Pair(sn: string, code: string)

  function PairOf(k: Key): Pair {
    Pair(k.sn, k.code)
  }

  /** An alarm time covers an event time: at most ttl before it, at most tol after it. */
  predicate CoversTime(a: int, ev: int, ttl: nat, tol: nat) {
    ev - ttl <= a <= ev + tol
  }

  /** The definition of covered: some key of the same device and code at a covering time. */
  predicate Covered(ks: seq<Key>, ev: Key, ttl: nat, tol: nat) {
    exists k :: k in ks && PairOf(k) == PairOf(ev) && CoversTime(k.ts, ev.ts, ttl, tol)
  }

  predicate Earlier(a: int, b: int) {
    a <= b
  }

  predicate EarlierKey(a: Key, b: Key) {
    a.ts <= b.ts
  }

  /** sort.Search for the first time >= lo, then one comparison with hi. */
  method CoveredIn(list: seq<int>, lo: int, hi: int) returns (found: bool)
    requires Sorted(list, Earlier)
    ensures found <==> exists t :: t in list && lo <= t <= hi
  {
    var i, j := 0, |list|;
    while i < j
      invariant 0 <= i <= j <= |list|
      invariant forall k :: 0 <= k < i ==> list[k] < lo
      invariant forall k :: j <= k < |list| ==> list[k] >= lo
    {
      var h := (i + j) / 2;
      if list[h] < lo {
        forall k | 0 <= k <= h ensures list[k] < lo {
          assert k == h || Earlier(list[k], list[h]);
        }
        i := h + 1;
      } else {
        forall k | h <= k < |list| ensures list[k] >= lo {
          assert k == h || Earlier(list[h], list[k]);
        }
        j := h;
      }
    }
    found := i < |list| && list[i] <= hi;
    if found {
      assert list[i] in list;
    } else {
      forall t | t in list ensures !(lo <= t <= hi) {
        var k :| 0 <= k < |list| && list[k] == t;
        assert k <= i || Earlier(list[i], list[k]);
      }
    }
  }

  /** times[p] lists, in order, the times of the keys of pair p. */
  ghost predicate Indexes(times: map<Pair, seq<int>>, ks: seq<Key>) {
    && (forall p :: p in times ==> Sorted(times[p], Earlier))
    && (forall p, t :: p in times && t in times[p] ==> Key(p.sn, p.code, t) in ks)
    && (forall k :: k in ks ==> PairOf(k) in times && k.ts in times[PairOf(k)])
  }

  lemma FoundCovers(times: map<Pair, seq<int>>, ks: seq<Key>, ev: Key, ttl: nat, tol: nat)
    requires Indexes(times, ks) && PairOf(ev) in times
    requires exists t :: t in times[PairOf(ev)] && ev.ts - ttl <= t <= ev.ts + tol
    ensures Covered(ks, ev, ttl, tol)
  {
    var t :| t in times[PairOf(ev)] && ev.ts - ttl <= t <= ev.ts + tol;
    TimeOfKey(times, ks, PairOf(ev), t);
  }

  lemma TimeOfKey(times: map<Pair, seq<int>>, ks: seq<Key>, p: Pair, t: int)
    requires Indexes(times, ks) && p in times && t in times[p]
    ensures Key(p.sn, p.code, t) in ks && PairOf(Key(p.sn, p.code, t)) == p
  {
  }

  method CoveredByIndex(times: map<Pair, seq<int>>, ghost ks: seq<Key>, ev: Key, ttl: nat, tol: nat) returns (found: bool)
    requires Indexes(times, ks)
    ensures found <==> Covered(ks, ev, ttl, tol)
  {
    var p := PairOf(ev);
    found := false;
    if p in times {
      found := CoveredIn(times[p], ev.ts - ttl, ev.ts + tol);
      if found {
        FoundCovers(times, ks, ev, ttl, tol);
      }
    }
  }

  method GroupAlarms(alarms: seq<Key>) returns (times: map<Pair, seq<int>>)
    ensures Indexes(times, alarms)
  {
    var raw: map<Pair, seq<int>> := map[];
    for i := 0 to |alarms|
      invariant forall p, t :: p in raw && t in raw[p] ==> Key(p.sn, p.code, t) in alarms
      invariant forall k :: 0 <= k < i ==> PairOf(alarms[k]) in raw && alarms[k].ts in raw[PairOf(alarms[k])]
    {
      var p := PairOf(alarms[i]);
      assert alarms[i] == Key(p.sn, p.code, alarms[i].ts);
      raw := raw[p := (if p in raw then raw[p] else []) + [alarms[i].ts]];
    }
    times := map p | p in raw :: Sort(raw[p], Earlier);
    forall p | p in times ensures Sorted(times[p], Earlier) && forall t :: t in times[p] <==> t in raw[p] {
      SortSorts(raw[p], Earlier);
    }
  }

  /** The greedy choice over events in time order: emit an event that neither an alarm nor an
      already emitted event covers. */
  function Greedy(evs: seq<Key>, alarms: seq<Key>, ttl: nat, tol: nat): seq<Key> {
    if evs == [] then []
    else
      var out := Greedy(evs[..|evs| - 1], alarms, ttl, tol);
      var ev := evs[|evs| - 1];
      if Covered(alarms, ev, ttl, tol) || Covered(out, ev, ttl, tol) then out else out + [ev]
  }

  function Missing(events: seq<Key>, alarms: seq<Key>, ttl: nat, tol: int): seq<Key> {
    Greedy(Sort(events, EarlierKey), alarms, ttl, if tol < 0 then 0 else tol)
  }

  method ComputeMissing(events: seq<Key>, alarms: seq<Key>, ttl: nat, tolerance: int) returns (out: seq<Key>)
    ensures out == Missing(events, alarms, ttl, tolerance)
  {
    var tol: nat := if tolerance < 0 then 0 else tolerance;
    var byPair := GroupAlarms(alarms);
    var evs := Sort(events, EarlierKey);
    SortSorts(events, EarlierKey);
    out := Scan(evs, byPair, alarms, ttl, tol);
  }

  /** The greedy loop over events in time order. */
  method Scan(evs: seq<Key>, byPair: map<Pair, seq<int>>, ghost alarms: seq<Key>, ttl: nat, tol: nat) returns (out: seq<Key>)
    requires Sorted(evs, EarlierKey) && Indexes(byPair, alarms)
    ensures out == Greedy(evs, alarms, ttl, tol)
  {
    out := [];
    var emitted: map<Pair, seq<int>> := map[];
    for i := 0 to |evs|
      invariant out == Greedy(evs[..i], alarms, ttl, tol)
      invariant Indexes(emitted, out)
      invariant forall k :: k in out ==> k in evs[..i]
    {
      assert evs[..i + 1] == evs[..i] + [evs[i]];
      var ev := evs[i];
      var byAlarm := CoveredByIndex(byPair, alarms, ev, ttl, tol);
      var byEmitted := CoveredByIndex(emitted, out, ev, ttl, tol);
      GreedyAppend(evs[..i], ev, alarms, ttl, tol);
      if byAlarm || byEmitted {
        continue;
      }
      EmittedBelow(evs, i, emitted, out);
      IndexAppend(emitted, out, ev);
      var p := PairOf(ev);
      emitted := emitted[p := (if p in emitted then emitted[p] else []) + [ev.ts]];
      out := out + [ev];
    }
    assert evs[..|evs|] == evs;
  }

  lemma GreedyAppend(evs: seq<Key>, ev: Key, alarms: seq<Key>, ttl: nat, tol: nat)
    ensures var out := Greedy(evs, alarms, ttl, tol);
            Greedy(evs + [ev], alarms, ttl, tol) ==
            if Covered(alarms, ev, ttl, tol) || Covered(out, ev, ttl, tol) then out else out + [ev]
  {
    assert (evs + [ev])[..|evs|] == evs;
  }

  lemma EmittedBelow(evs: seq<Key>, i: nat, times: map<Pair, seq<int>>, out: seq<Key>)
    requires i < |evs| && Sorted(evs, EarlierKey) && Indexes(times, out)
    requires forall k :: k in out ==> k in evs[..i]
    ensures forall p, t :: p in times && t in times[p] ==> t <= evs[i].ts
  {
    forall p, t | p in times && t in times[p] ensures t <= evs[i].ts {
      var k := Key(p.sn, p.code, t);
      assert k in out;
      var j :| 0 <= j < i && evs[j] == k;
      assert EarlierKey(evs[j], evs[i]);
    }
  }

  lemma TimesAppend(list: seq<int>, t: int)
    requires Sorted(list, Earlier) && forall x :: x in list ==> x <= t
    ensures Sorted(list + [t], Earlier)
  {
    forall i | 0 <= i < |list| ensures list[i] <= t {
      assert list[i] in list;
    }
  }

  lemma IndexAppend(times: map<Pair, seq<int>>, ks: seq<Key>, ev: Key)
    requires Indexes(times, ks)
    requires forall p, t :: p in times && t in times[p] ==> t <= ev.ts
    ensures var p := PairOf(ev);
            Indexes(times[p := (if p in times then times[p] else []) + [ev.ts]], ks + [ev])
  {
    var p := PairOf(ev);
    var more := times[p := (if p in times then times[p] else []) + [ev.ts]];
    assert ev == Key(p.sn, p.code, ev.ts) && ev in ks + [ev];
    TimesAppend(if p in times then times[p] else [], ev.ts);
    forall k | k in ks + [ev] ensures PairOf(k) in more && k.ts in more[PairOf(k)] {
      if k in ks {
        assert k.ts in times[PairOf(k)];
      } else {
        assert ev.ts in more[p];
      }
    }
    forall q, t | q in more && t in more[q] ensures Key(q.sn, q.code, t) in ks + [ev] {
      if q in times && t in times[q] {
        assert Key(q.sn, q.code, t) in ks;
      } else {
        assert q == p && t == ev.ts;
      }
    }
  }
}
