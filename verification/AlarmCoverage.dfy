/** The naive reading of the result: coverage, separation, stability and minimality. */
module AlarmCoverage {
  import opened Sorting
  import opened AlarmReconcile

  lemma CoveredMore(ks: seq<Key>, more: seq<Key>, ev: Key, ttl: nat, tol: nat)
    requires forall k :: k in ks ==> k in more
    requires Covered(ks, ev, ttl, tol)
    ensures Covered(more, ev, ttl, tol)
  {
    var k :| k in ks && PairOf(k) == PairOf(ev) && CoversTime(k.ts, ev.ts, ttl, tol);
    assert k in more;
  }

  /** Every emitted key is an input event; every input event is covered by an alarm or an emitted key. */
  lemma {:induction false} GreedyCovers(evs: seq<Key>, alarms: seq<Key>, ttl: nat, tol: nat)
    ensures var out := Greedy(evs, alarms, ttl, tol);
            && (forall k :: k in out ==> k in evs && !Covered(alarms, k, ttl, tol))
            && (forall ev :: ev in evs ==> Covered(alarms, ev, ttl, tol) || Covered(out, ev, ttl, tol))
  {
    if evs != [] {
      var init, last := evs[..|evs| - 1], evs[|evs| - 1];
      GreedyCovers(init, alarms, ttl, tol);
      var before, out := Greedy(init, alarms, ttl, tol), Greedy(evs, alarms, ttl, tol);
      forall ev | ev in evs ensures Covered(alarms, ev, ttl, tol) || Covered(out, ev, ttl, tol) {
        if ev in init {
          if !Covered(alarms, ev, ttl, tol) {
            CoveredMore(before, out, ev, ttl, tol);
          }
        } else {
          assert ev == last;
          if !Covered(alarms, ev, ttl, tol) && !Covered(before, ev, ttl, tol) {
            assert last in out && CoversTime(last.ts, last.ts, ttl, tol);
          }
        }
      }
    }
  }

  ghost predicate Apart(out: seq<Key>, ttl: nat) {
    forall i, j :: 0 <= i < j < |out| && PairOf(out[i]) == PairOf(out[j]) ==> out[i].ts + ttl < out[j].ts
  }

  lemma LastIsLatest(evs: seq<Key>)
    requires evs != [] && Sorted(evs, EarlierKey)
    ensures Sorted(evs[..|evs| - 1], EarlierKey)
    ensures forall k :: k in evs[..|evs| - 1] ==> k.ts <= evs[|evs| - 1].ts
  {
    var init := evs[..|evs| - 1];
    forall i, j | 0 <= i < j < |init| ensures EarlierKey(init[i], init[j]) {
      assert EarlierKey(evs[i], evs[j]);
    }
    forall k | k in init ensures k.ts <= evs[|evs| - 1].ts {
      var i :| 0 <= i < |init| && init[i] == k;
      assert EarlierKey(evs[i], evs[|evs| - 1]);
    }
  }

  /** Emitted keys of one device and code are more than ttl apart, in time order. */
  lemma {:induction false} GreedyApart(evs: seq<Key>, alarms: seq<Key>, ttl: nat, tol: nat)
    requires Sorted(evs, EarlierKey)
    ensures Apart(Greedy(evs, alarms, ttl, tol), ttl)
    ensures Sorted(Greedy(evs, alarms, ttl, tol), EarlierKey)
  {
    if evs != [] {
      var init, last := evs[..|evs| - 1], evs[|evs| - 1];
      GreedyApart(init, alarms, ttl, tol);
      GreedyCovers(init, alarms, ttl, tol);
      var before := Greedy(init, alarms, ttl, tol);
      LastIsLatest(evs);
      forall k | k in before ensures k.ts <= last.ts {
        assert k in init;
      }
      if !Covered(alarms, last, ttl, tol) && !Covered(before, last, ttl, tol) {
        UncoveredIsApart(before, last, ttl, tol);
      }
    }
  }

  lemma UncoveredIsApart(before: seq<Key>, last: Key, ttl: nat, tol: nat)
    requires Apart(before, ttl) && Sorted(before, EarlierKey) && !Covered(before, last, ttl, tol)
    requires forall k :: k in before ==> k.ts <= last.ts
    ensures Apart(before + [last], ttl) && Sorted(before + [last], EarlierKey)
  {
    forall i | 0 <= i < |before|
      ensures before[i].ts <= last.ts && (PairOf(before[i]) == PairOf(last) ==> before[i].ts + ttl < last.ts)
    {
      assert before[i] in before;
    }
  }

  /** The result against the naive definition: complete, necessary, separated. */
  lemma MissingIsRight(events: seq<Key>, alarms: seq<Key>, ttl: nat, tol: nat)
    ensures var out := Missing(events, alarms, ttl, tol);
            && (forall ev :: ev in events ==> Covered(alarms + out, ev, ttl, tol))
            && (forall k :: k in out ==> k in events && !Covered(alarms, k, ttl, tol))
            && Apart(out, ttl)
            && Sorted(out, EarlierKey)
  {
    var evs, out := Sort(events, EarlierKey), Missing(events, alarms, ttl, tol);
    SortSorts(events, EarlierKey);
    GreedyCovers(evs, alarms, ttl, tol);
    GreedyApart(evs, alarms, ttl, tol);
    forall ev | ev in events ensures Covered(alarms + out, ev, ttl, tol) {
      assert ev in evs;
      if Covered(alarms, ev, ttl, tol) {
        CoveredMore(alarms, alarms + out, ev, ttl, tol);
      } else {
        CoveredMore(out, alarms + out, ev, ttl, tol);
      }
    }
  }

  lemma {:induction false} GreedyNothing(evs: seq<Key>, alarms: seq<Key>, ttl: nat, tol: nat)
    requires forall ev :: ev in evs ==> Covered(alarms, ev, ttl, tol)
    ensures Greedy(evs, alarms, ttl, tol) == []
  {
    if evs != [] {
      GreedyNothing(evs[..|evs| - 1], alarms, ttl, tol);
    }
  }

  /** A second run, with the first run's output recorded as alarms, finds nothing. */
  lemma SecondRunEmpty(events: seq<Key>, alarms: seq<Key>, ttl: nat, tol: nat)
    ensures Missing(events, alarms + Missing(events, alarms, ttl, tol), ttl, tol) == []
  {
    var out := Missing(events, alarms, ttl, tol);
    MissingIsRight(events, alarms, ttl, tol);
    SortSorts(events, EarlierKey);
    GreedyNothing(Sort(events, EarlierKey), alarms + out, ttl, tol);
  }

  /** extra completes the coverage: with it, every event is covered. */
  ghost predicate Completes(events: seq<Key>, alarms: seq<Key>, extra: set<Key>, ttl: nat, tol: nat) {
    forall ev :: ev in events ==>
      Covered(alarms, ev, ttl, tol) || exists k :: k in extra && PairOf(k) == PairOf(ev) && CoversTime(k.ts, ev.ts, ttl, tol)
  }

  ghost predicate CoveredFrom(extra: set<Key>, ev: Key, ttl: nat) {
    exists k :: k in extra && PairOf(k) == PairOf(ev) && CoversTime(k.ts, ev.ts, ttl, 0)
  }

  /** Distinct emitted keys need distinct covering keys when the tolerance is zero. */
  lemma {:induction false} OneCoverEach(out: seq<Key>, extra: set<Key>, ttl: nat)
    requires Apart(out, ttl)
    requires forall i :: 0 <= i < |out| ==> CoveredFrom(extra, out[i], ttl)
    ensures |out| <= |extra|
    decreases |out|
  {
    if out != [] {
      var m := |out| - 1;
      var last := out[m];
      assert CoveredFrom(extra, out[m], ttl);
      var k :| k in extra && PairOf(k) == PairOf(last) && CoversTime(k.ts, last.ts, ttl, 0);
      forall i | 0 <= i < m ensures CoveredFrom(extra - {k}, out[i], ttl) {
        assert CoveredFrom(extra, out[i], ttl);
        var j :| j in extra && PairOf(j) == PairOf(out[i]) && CoversTime(j.ts, out[i].ts, ttl, 0);
        assert j in extra - {k};
      }
      OneCoverEach(out[..m], extra - {k}, ttl);
    }
  }

  /** With zero tolerance no smaller set of keys completes the coverage. */
  lemma MissingIsMinimal(events: seq<Key>, alarms: seq<Key>, extra: set<Key>, ttl: nat)
    requires Completes(events, alarms, extra, ttl, 0)
    ensures |Missing(events, alarms, ttl, 0)| <= |extra|
  {
    var out := Missing(events, alarms, ttl, 0);
    MissingIsRight(events, alarms, ttl, 0);
    forall i | 0 <= i < |out| ensures CoveredFrom(extra, out[i], ttl) {
      assert out[i] in out;
    }
    OneCoverEach(out, extra, ttl);
  }

  lemma SortedTriple(a: Key, b: Key, c: Key)
    requires a.ts <= b.ts <= c.ts
    ensures Sort([a, b, c], EarlierKey) == [a, b, c]
  {
    assert [a, b, c][1..] == [b, c] && [b, c][1..] == [c] && [c][1..] == [];
    assert Sort([c], EarlierKey) == [c];
    assert Sort([b, c], EarlierKey) == [b, c];
  }

  /** With a positive tolerance one later event can do the work of two emitted ones. */
  lemma ToleranceBreaksMinimality(ttl: nat, tol: nat)
    requires tol > 0
    ensures var events := [Key("A", "TILT", 0), Key("A", "TILT", 1), Key("A", "TILT", ttl + 1)];
            && Completes(events, [], {events[1]}, ttl, tol)
            && |Missing(events, [], ttl, tol)| == 2
  {
    var first, middle, last := Key("A", "TILT", 0), Key("A", "TILT", 1), Key("A", "TILT", ttl + 1);
    var events := [first, middle, last];
    SortedTriple(first, middle, last);
    assert PairOf(first) == PairOf(middle) == PairOf(last);
    assert events[..2] == [first, middle] && [first, middle][..1] == [first] && [first][..0] == [];
    assert Greedy([first], [], ttl, tol) == [first];
    if ttl == 0 {
      assert Greedy([first, middle], [], ttl, tol) == [first, middle];
      assert middle in [first, middle] && CoversTime(middle.ts, last.ts, ttl, tol);
    } else {
      assert first in [first] && CoversTime(first.ts, middle.ts, ttl, tol);
      assert Greedy([first, middle], [], ttl, tol) == [first];
    }
  }

  /** Covered: the same device and code, at most ttl earlier and at most tol later. */
  lemma CoveredMeans(ks: seq<Key>, ev: Key, ttl: nat, tol: nat)
    ensures Covered(ks, ev, ttl, tol)
       <==> exists i :: 0 <= i < |ks| && ks[i].sn == ev.sn && ks[i].code == ev.code
                        && ev.ts <= ks[i].ts + ttl && ks[i].ts <= ev.ts + tol
  {
    if Covered(ks, ev, ttl, tol) {
      var k :| k in ks && PairOf(k) == PairOf(ev) && CoversTime(k.ts, ev.ts, ttl, tol);
      var i :| 0 <= i < |ks| && ks[i] == k;
    }
    if i :| 0 <= i < |ks| && ks[i].sn == ev.sn && ks[i].code == ev.code && ev.ts <= ks[i].ts + ttl && ks[i].ts <= ev.ts + tol {
      assert ks[i] in ks && PairOf(ks[i]) == PairOf(ev) && CoversTime(ks[i].ts, ev.ts, ttl, tol);
    }
  }

  /** A negative tolerance counts as none. */
  lemma NegativeTolerance(events: seq<Key>, alarms: seq<Key>, ttl: nat, tol: int)
    requires tol < 0
    ensures Missing(events, alarms, ttl, tol) == Missing(events, alarms, ttl, 0)
  {
  }
}
