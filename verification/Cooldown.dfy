/** The after-the-fact check of reminder cooldowns. */
module Cooldown {
  import opened Basics
  import opened Sorting

  /** A reminder row; at is absent for the ones that were suppressed or deferred. */
  datatype Sent = Sent(id: int, sn: string, part: string, level: int, at: Option<int>)

  datatype Key = Key(sn: string, part: string)

  datatype Violation = Violation(key: Key, prevId: int, id: int, prevAt: int, at: int)

  function KeyOf(r: Sent): Key {
    Key(r.sn, r.part)
  }

  function At(r: Sent): int {
    if r.at.Some? then r.at.value else 0
  }

  function GroupOf(k: Key): Sent -> bool {
    (r: Sent) => r.at.Some? && KeyOf(r) == k
  }

  predicate Earlier(a: Sent, b: Sent) {
    At(a) < At(b) || (At(a) == At(b) && a.id <= b.id)
  }

  predicate StringLeq(a: string, b: string) {
    a == "" || (b != "" && (a[0] < b[0] || (a[0] == b[0] && StringLeq(a[1..], b[1..]))))
  }

  predicate KeyLeq(a: Key, b: Key) {
    if a.sn != b.sn then StringLeq(a.sn, b.sn) else StringLeq(a.part, b.part)
  }

  /** The keys of sent rows, each once. */
  function Keys(rows: seq<Sent>): seq<Key> {
    if rows == [] then []
    else
      var ks, r := Keys(rows[..|rows| - 1]), rows[|rows| - 1];
      if r.at.Some? && KeyOf(r) !in ks then ks + [KeyOf(r)] else ks
  }

  function Adjacent(g: seq<Sent>, cooldown: int): seq<Violation> {
    if |g| < 2 then []
    else
      var a, b := g[|g| - 2], g[|g| - 1];
      Adjacent(g[..|g| - 1], cooldown)
      + if At(b) - At(a) < cooldown then [Violation(KeyOf(b), a.id, b.id, At(a), At(b))] else []
  }

  function ByKeys(ks: seq<Key>, rows: seq<Sent>, cooldown: int): seq<Violation> {
    if ks == [] then []
    else ByKeys(ks[..|ks| - 1], rows, cooldown) + Adjacent(Sort(Filter(rows, GroupOf(ks[|ks| - 1])), Earlier), cooldown)
  }

  function Violations(rows: seq<Sent>, cooldown: int): seq<Violation> {
    if cooldown <= 0 then [] else ByKeys(Sort(Keys(rows), KeyLeq), rows, cooldown)
  }

  lemma {:induction false} KeysMembers(rows: seq<Sent>, k: Key)
    ensures k in Keys(rows) <==> Filter(rows, GroupOf(k)) != []
  {
    if rows != [] {
      KeysMembers(rows[..|rows| - 1], k);
    }
  }

  method GroupRows(rows: seq<Sent>) returns (groups: map<Key, seq<Sent>>, keys: seq<Key>)
    ensures keys == Keys(rows)
    ensures forall k :: k in groups <==> k in keys
    ensures forall k :: k in groups ==> groups[k] == Filter(rows, GroupOf(k))
  {
    groups, keys := map[], [];
    for i := 0 to |rows|
      invariant keys == Keys(rows[..i])
      invariant forall k :: k in groups <==> k in keys
      invariant forall k :: k in groups ==> groups[k] == Filter(rows[..i], GroupOf(k))
    {
      assert rows[..i + 1][..i] == rows[..i];
      var r := rows[i];
      if r.at.Some? {
        var k := KeyOf(r);
        KeysMembers(rows[..i], k);
        if k in groups {
          groups := groups[k := groups[k] + [r]];
        } else {
          groups := groups[k := [r]];
          keys := keys + [k];
        }
      }
    }
    assert rows[..|rows|] == rows;
  }

  method ScanGroup(g: seq<Sent>, cooldown: int) returns (out: seq<Violation>)
    ensures out == Adjacent(g, cooldown)
  {
    out := [];
    if g == [] {
      return;
    }
    for i := 1 to |g|
      invariant out == Adjacent(g[..i], cooldown)
    {
      assert g[..i + 1][..i] == g[..i];
      if At(g[i]) - At(g[i - 1]) < cooldown {
        out := out + [Violation(KeyOf(g[i]), g[i - 1].id, g[i].id, At(g[i - 1]), At(g[i]))];
      }
    }
    assert g[..|g|] == g;
  }

  method ScanKeys(keys: seq<Key>, groups: map<Key, seq<Sent>>, ghost rows: seq<Sent>, cooldown: int) returns (out: seq<Violation>)
    requires forall k :: k in keys ==> k in groups && groups[k] == Filter(rows, GroupOf(k))
    ensures out == ByKeys(keys, rows, cooldown)
  {
    out := [];
    for i := 0 to |keys|
      invariant out == ByKeys(keys[..i], rows, cooldown)
    {
      assert keys[..i + 1][..i] == keys[..i];
      var more := ScanGroup(Sort(groups[keys[i]], Earlier), cooldown);
      out := out + more;
    }
    assert keys[..|keys|] == keys;
  }

  method CooldownViolations(rows: seq<Sent>, cooldown: int) returns (out: seq<Violation>)
    ensures out == Violations(rows, cooldown)
  {
    if cooldown <= 0 {
      return [];
    }
    var groups, keys := GroupRows(rows);
    SortSorts(keys, KeyLeq);
    out := ScanKeys(Sort(keys, KeyLeq), groups, rows, cooldown);
  }

  // ---- the check is exact

  predicate Apart(a: Sent, b: Sent, cooldown: int) {
    At(b) - At(a) >= cooldown || At(a) - At(b) >= cooldown
  }

  /** Every two sent reminders of one (sn, part) are at least a cooldown apart. */
  ghost predicate AllApart(rows: seq<Sent>, cooldown: int) {
    forall i, j :: 0 <= i < j < |rows| ==> NotTooClose(rows[i], rows[j], cooldown)
  }

  predicate NotTooClose(a: Sent, b: Sent, cooldown: int) {
    a.sn == b.sn && a.part == b.part && a.at.Some? && b.at.Some? ==>
      b.at.value >= a.at.value + cooldown || a.at.value >= b.at.value + cooldown
  }

  ghost predicate Spaced(g: seq<Sent>, cooldown: int) {
    forall i, j :: 0 <= i < j < |g| ==> Apart(g[i], g[j], cooldown)
  }

  ghost predicate SpacedBag(m: multiset<Sent>, cooldown: int) {
    && (forall x :: m[x] <= 1)
    && (forall x, y :: x in m && y in m && x != y ==> Apart(x, y, cooldown))
  }

  lemma SpacedSnoc(g: seq<Sent>, cooldown: int)
    requires g != []
    ensures var init, last := g[..|g| - 1], g[|g| - 1];
            Spaced(g, cooldown) <==> Spaced(init, cooldown) && forall y :: y in init ==> Apart(y, last, cooldown)
  {
    var init, last := g[..|g| - 1], g[|g| - 1];
    if Spaced(init, cooldown) && forall y :: y in init ==> Apart(y, last, cooldown) {
      forall i, j | 0 <= i < j < |g| ensures Apart(g[i], g[j], cooldown) {
        assert g[i] == init[i] && g[i] in init;
        if j < |init| {
          assert g[j] == init[j];
        }
      }
    }
    if Spaced(g, cooldown) {
      forall y | y in init ensures Apart(y, last, cooldown) {
        var i :| 0 <= i < |init| && init[i] == y;
        assert g[i] == y;
      }
      forall i, j | 0 <= i < j < |init| ensures Apart(init[i], init[j], cooldown) {
        assert init[i] == g[i] && init[j] == g[j];
      }
    }
  }

  lemma BagSnoc(m: multiset<Sent>, last: Sent, cooldown: int)
    requires cooldown > 0
    ensures SpacedBag(m + multiset{last}, cooldown) <==> SpacedBag(m, cooldown) && forall y :: y in m ==> Apart(y, last, cooldown)
  {
    var n := m + multiset{last};
    if SpacedBag(n, cooldown) {
      forall y | y in m ensures Apart(y, last, cooldown) {
        assert y in n && n[y] <= 1 && last in n;
      }
      forall x ensures m[x] <= 1 {
        assert n[x] <= 1;
      }
      forall x, y | x in m && y in m && x != y ensures Apart(x, y, cooldown) {
        assert x in n && y in n;
      }
    }
    if SpacedBag(m, cooldown) && forall y :: y in m ==> Apart(y, last, cooldown) {
      assert last !in m;
      forall x ensures n[x] <= 1 {
        assert m[x] <= 1;
      }
    }
  }

  /** Spacing does not depend on order. */
  lemma {:induction false} SpacedIsBag(g: seq<Sent>, cooldown: int)
    requires cooldown > 0
    ensures Spaced(g, cooldown) <==> SpacedBag(multiset(g), cooldown)
  {
    if g == [] {
      assert multiset(g) == multiset{};
    } else {
      var init, last := g[..|g| - 1], g[|g| - 1];
      assert g == init + [last];
      assert multiset(g) == multiset(init) + multiset{last};
      SpacedIsBag(init, cooldown);
      SpacedSnoc(g, cooldown);
      BagSnoc(multiset(init), last, cooldown);
      assert forall y :: y in init <==> y in multiset(init);
    }
  }

  lemma {:induction false} AdjacentExact(g: seq<Sent>, cooldown: int)
    requires cooldown > 0 && Sorted(g, Earlier)
    ensures Adjacent(g, cooldown) == [] <==> Spaced(g, cooldown)
  {
    if |g| >= 2 {
      var init, last := g[..|g| - 1], g[|g| - 1];
      forall i, j | 0 <= i < j < |init| ensures Earlier(init[i], init[j]) {
        assert Earlier(g[i], g[j]);
      }
      AdjacentExact(init, cooldown);
      SpacedSnoc(g, cooldown);
      assert init[|init| - 1] == g[|g| - 2] && Earlier(g[|g| - 2], last);
      forall y | y in init ensures At(y) <= At(g[|g| - 2]) {
        var i :| 0 <= i < |init| && init[i] == y;
        assert i == |g| - 2 || Earlier(g[i], g[|g| - 2]);
      }
    }
  }

  lemma EarlierOrders()
    ensures TotalPreorder(Earlier)
  {
  }

  lemma GroupExact(rows: seq<Sent>, k: Key, cooldown: int)
    requires cooldown > 0
    ensures Adjacent(Sort(Filter(rows, GroupOf(k)), Earlier), cooldown) == [] <==> Spaced(Filter(rows, GroupOf(k)), cooldown)
  {
    var g := Filter(rows, GroupOf(k));
    EarlierOrders();
    SortSorts(g, Earlier);
    AdjacentExact(Sort(g, Earlier), cooldown);
    SpacedIsBag(g, cooldown);
    SpacedIsBag(Sort(g, Earlier), cooldown);
  }

  lemma {:induction false} ByKeysExact(ks: seq<Key>, rows: seq<Sent>, cooldown: int)
    requires cooldown > 0
    ensures ByKeys(ks, rows, cooldown) == [] <==> forall k :: k in ks ==> Spaced(Filter(rows, GroupOf(k)), cooldown)
  {
    if ks != [] {
      var init, last := ks[..|ks| - 1], ks[|ks| - 1];
      ByKeysExact(init, rows, cooldown);
      GroupExact(rows, last, cooldown);
      assert ks == init + [last];
    }
  }

  ghost predicate KeyApart(rows: seq<Sent>, k: Key, cooldown: int) {
    forall i, j :: 0 <= i < j < |rows| && GroupOf(k)(rows[i]) && GroupOf(k)(rows[j]) ==> Apart(rows[i], rows[j], cooldown)
  }

  lemma {:induction false} FilterSpaced(rows: seq<Sent>, k: Key, cooldown: int)
    ensures Spaced(Filter(rows, GroupOf(k)), cooldown) <==> KeyApart(rows, k, cooldown)
  {
    if rows != [] {
      var n := |rows| - 1;
      var init, last := rows[..n], rows[n];
      var f := GroupOf(k);
      FilterSpaced(init, k, cooldown);
      FilterMembers(init, f);
      if f(last) {
        assert Filter(rows, f)[..|Filter(rows, f)| - 1] == Filter(init, f);
        SpacedSnoc(Filter(rows, f), cooldown);
      }
      KeyApartSnoc(rows, k, cooldown);
    }
  }

  lemma KeyApartSnoc(rows: seq<Sent>, k: Key, cooldown: int)
    requires rows != []
    ensures var init, last := rows[..|rows| - 1], rows[|rows| - 1];
            KeyApart(rows, k, cooldown) <==>
              KeyApart(init, k, cooldown)
              && (GroupOf(k)(last) ==> forall y :: y in init && GroupOf(k)(y) ==> Apart(y, last, cooldown))
  {
    var init, last := rows[..|rows| - 1], rows[|rows| - 1];
    var f := GroupOf(k);
    if KeyApart(init, k, cooldown) && (f(last) ==> forall y :: y in init && f(y) ==> Apart(y, last, cooldown)) {
      forall i, j | 0 <= i < j < |rows| && f(rows[i]) && f(rows[j]) ensures Apart(rows[i], rows[j], cooldown) {
        assert rows[i] == init[i] && init[i] in init;
        if j < |init| {
          assert rows[j] == init[j];
        }
      }
    }
    if KeyApart(rows, k, cooldown) {
      forall i, j | 0 <= i < j < |init| && f(init[i]) && f(init[j]) ensures Apart(init[i], init[j], cooldown) {
        assert rows[i] == init[i] && rows[j] == init[j];
      }
      forall y | y in init && f(y) && f(last) ensures Apart(y, last, cooldown) {
        var i :| 0 <= i < |init| && init[i] == y;
        assert rows[i] == y;
      }
    }
  }

  /** The check reports nothing exactly when every two sent reminders of one (sn, part) are at least a
      cooldown apart (or the cooldown is switched off). */
  lemma ViolationsExact(rows: seq<Sent>, cooldown: int)
    ensures Violations(rows, cooldown) == [] <==> cooldown <= 0 || AllApart(rows, cooldown)
  {
    if cooldown > 0 {
      SortSorts(Keys(rows), KeyLeq);
      ByKeysExact(Sort(Keys(rows), KeyLeq), rows, cooldown);
      forall k ensures Spaced(Filter(rows, GroupOf(k)), cooldown) <==> KeyApart(rows, k, cooldown) {
        FilterSpaced(rows, k, cooldown);
      }
      forall k | k !in Keys(rows) ensures Spaced(Filter(rows, GroupOf(k)), cooldown) {
        KeysMembers(rows, k);
      }
      AllApartByKey(rows, cooldown);
    }
  }

  lemma AllApartByKey(rows: seq<Sent>, cooldown: int)
    ensures AllApart(rows, cooldown) <==> forall k :: KeyApart(rows, k, cooldown)
  {
    if forall k :: KeyApart(rows, k, cooldown) {
      forall i, j | 0 <= i < j < |rows| ensures NotTooClose(rows[i], rows[j], cooldown) {
        var k := Key(rows[i].sn, rows[i].part);
        assert KeyApart(rows, k, cooldown);
        assert rows[i].at.Some? ==> GroupOf(k)(rows[i]);
        assert rows[j].at.Some? && rows[j].sn == rows[i].sn && rows[j].part == rows[i].part ==> GroupOf(k)(rows[j]);
      }
    }
    if AllApart(rows, cooldown) {
      forall k, i, j | 0 <= i < j < |rows| && GroupOf(k)(rows[i]) && GroupOf(k)(rows[j])
        ensures Apart(rows[i], rows[j], cooldown)
      {
        assert NotTooClose(rows[i], rows[j], cooldown);
      }
    }
  }

  // ---- what is reported

  /** Two sent reminders of one (sn, part), in time order, less than a cooldown apart. */
  ghost predicate TooClose(rows: seq<Sent>, a: Sent, b: Sent, cooldown: int) {
    && a in rows && b in rows && a.at.Some? && b.at.Some? && a.sn == b.sn && a.part == b.part
    && a.at.value <= b.at.value < a.at.value + cooldown
  }

  ghost predicate Reports(v: Violation, a: Sent, b: Sent) {
    && v.key.sn == b.sn && v.key.part == b.part && v.prevId == a.id && v.id == b.id
    && Some(v.prevAt) == a.at && Some(v.at) == b.at
  }

  lemma {:induction false} AdjacentReports(g: seq<Sent>, rows: seq<Sent>, cooldown: int, v: Violation)
    requires Sorted(g, Earlier) && v in Adjacent(g, cooldown)
    requires forall x :: x in g ==> x in rows && x.at.Some? && KeyOf(x) == KeyOf(g[0])
    ensures exists a, b :: TooClose(rows, a, b, cooldown) && Reports(v, a, b)
  {
    if |g| >= 2 {
      var n := |g| - 1;
      if v in Adjacent(g[..n], cooldown) {
        assert Sorted(g[..n], Earlier) by {
          forall i, j | 0 <= i < j < n ensures Earlier(g[..n][i], g[..n][j]) {
            assert Earlier(g[i], g[j]);
          }
        }
        AdjacentReports(g[..n], rows, cooldown, v);
      } else {
        var a, b := g[n - 1], g[n];
        assert a in g && b in g && Earlier(a, b);
        assert TooClose(rows, a, b, cooldown) && Reports(v, a, b);
      }
    }
  }

  lemma {:induction false} ByKeysReports(ks: seq<Key>, rows: seq<Sent>, cooldown: int, v: Violation)
    requires v in ByKeys(ks, rows, cooldown)
    ensures exists a, b :: TooClose(rows, a, b, cooldown) && Reports(v, a, b)
  {
    if ks != [] {
      var n := |ks| - 1;
      if v in ByKeys(ks[..n], rows, cooldown) {
        ByKeysReports(ks[..n], rows, cooldown, v);
      } else {
        var g := Filter(rows, GroupOf(ks[n]));
        EarlierOrders();
        SortSorts(g, Earlier);
        FilterMembers(rows, GroupOf(ks[n]));
        var sorted := Sort(g, Earlier);
        forall x | x in sorted ensures x in rows && x.at.Some? && KeyOf(x) == KeyOf(sorted[0]) {
          assert sorted[0] in sorted;
        }
        AdjacentReports(sorted, rows, cooldown, v);
      }
    }
  }

  /** Whatever is reported is there, with its ids and times. */
  lemma ViolationsReport(rows: seq<Sent>, cooldown: int, v: Violation)
    requires v in Violations(rows, cooldown)
    ensures exists a, b :: TooClose(rows, a, b, cooldown) && Reports(v, a, b)
  {
    ByKeysReports(Sort(Keys(rows), KeyLeq), rows, cooldown, v);
  }

  lemma {:induction false} AdjacentAll(g: seq<Sent>, cooldown: int, i: nat)
    requires 0 < i < |g| && At(g[i]) - At(g[i - 1]) < cooldown
    ensures Violation(KeyOf(g[i]), g[i - 1].id, g[i].id, At(g[i - 1]), At(g[i])) in Adjacent(g, cooldown)
  {
    if i < |g| - 1 {
      AdjacentAll(g[..|g| - 1], cooldown, i);
    }
  }

  lemma {:induction false} ByKeysAll(ks: seq<Key>, rows: seq<Sent>, cooldown: int, k: Key, v: Violation)
    requires k in ks && v in Adjacent(Sort(Filter(rows, GroupOf(k)), Earlier), cooldown)
    ensures v in ByKeys(ks, rows, cooldown)
  {
    var n := |ks| - 1;
    if k != ks[n] {
      assert k in ks[..n];
      ByKeysAll(ks[..n], rows, cooldown, k, v);
    }
  }

  /** Every two neighbours in time of one (sn, part) that are too close are reported. */
  lemma EveryCloseNeighbour(rows: seq<Sent>, cooldown: int, k: Key, i: nat)
    requires cooldown > 0
    requires var g := Sort(Filter(rows, GroupOf(k)), Earlier);
             0 < i < |g| && g[i].at.Some? && g[i - 1].at.Some? && g[i].at.value < g[i - 1].at.value + cooldown
    ensures var g := Sort(Filter(rows, GroupOf(k)), Earlier);
            Violation(k, g[i - 1].id, g[i].id, g[i - 1].at.value, g[i].at.value) in Violations(rows, cooldown)
  {
    var group := Filter(rows, GroupOf(k));
    var g := Sort(group, Earlier);
    SortSorts(group, Earlier);
    SortSorts(Keys(rows), KeyLeq);
    FilterMembers(rows, GroupOf(k));
    KeysMembers(rows, k);
    assert g[i] in g;
    AdjacentAll(g, cooldown, i);
    ByKeysAll(Sort(Keys(rows), KeyLeq), rows, cooldown, k, Violation(k, g[i - 1].id, g[i].id, At(g[i - 1]), At(g[i])));
  }

  // ---- the order of the report

  /** Strings are ordered by their first difference, and a prefix comes first. */
  lemma {:induction false} StringLeqMeans(a: string, b: string, k: nat)
    requires k <= |a| && k <= |b| && a[..k] == b[..k]
    ensures k == |a| ==> StringLeq(a, b)
    ensures k == |b| < |a| ==> !StringLeq(a, b)
    ensures k < |a| && k < |b| && a[k] < b[k] ==> StringLeq(a, b) && !StringLeq(b, a)
  {
    if k > 0 {
      assert a[0] == a[..k][0] && b[0] == b[..k][0];
      assert a[1..][..k - 1] == a[..k][1..] && b[1..][..k - 1] == b[..k][1..];
      StringLeqMeans(a[1..], b[1..], k - 1);
    }
  }

  lemma {:induction false} StringLeqTotal(a: string, b: string)
    ensures StringLeq(a, b) || StringLeq(b, a)
    ensures StringLeq(a, b) && StringLeq(b, a) ==> a == b
  {
    if a != "" && b != "" {
      StringLeqTotal(a[1..], b[1..]);
      assert a == [a[0]] + a[1..] && b == [b[0]] + b[1..];
    }
  }

  lemma {:induction false} StringLeqTrans(a: string, b: string, c: string)
    requires StringLeq(a, b) && StringLeq(b, c)
    ensures StringLeq(a, c)
  {
    if a != "" {
      if a[0] == b[0] == c[0] {
        StringLeqTrans(a[1..], b[1..], c[1..]);
      }
    }
  }

  lemma KeysTotal()
    ensures TotalPreorder(KeyLeq)
  {
    forall a, b ensures KeyLeq(a, b) || KeyLeq(b, a) {
      StringLeqTotal(a.sn, b.sn);
      StringLeqTotal(a.part, b.part);
    }
    forall a, b, c | KeyLeq(a, b) && KeyLeq(b, c) ensures KeyLeq(a, c) {
      KeyLeqTrans(a, b, c);
    }
  }

  lemma KeyLeqTrans(a: Key, b: Key, c: Key)
    requires KeyLeq(a, b) && KeyLeq(b, c)
    ensures KeyLeq(a, c)
  {
    if a.sn == b.sn == c.sn {
      StringLeqTrans(a.part, b.part, c.part);
    } else if a.sn != b.sn && b.sn != c.sn {
      StringLeqTrans(a.sn, b.sn, c.sn);
      StringLeqTotal(a.sn, b.sn);
    }
  }

  /** By serial number first, then by part. */
  predicate InReportOrder(a: Key, b: Key) {
    (a.sn != b.sn && StringLeq(a.sn, b.sn)) || (a.sn == b.sn && StringLeq(a.part, b.part))
  }

  lemma {:induction false} AdjacentKey(g: seq<Sent>, cooldown: int, k: Key)
    requires forall r :: r in g ==> KeyOf(r) == k
    ensures forall v :: v in Adjacent(g, cooldown) ==> v.key == k
  {
    if |g| >= 2 {
      AdjacentKey(g[..|g| - 1], cooldown, k);
      assert g[|g| - 1] in g;
    }
  }

  lemma {:induction false} ByKeysOrder(ks: seq<Key>, rows: seq<Sent>, cooldown: int)
    requires Sorted(ks, KeyLeq)
    ensures forall v :: v in ByKeys(ks, rows, cooldown) ==> v.key in ks
    ensures forall i, j :: 0 <= i < j < |ByKeys(ks, rows, cooldown)| ==>
              InReportOrder(ByKeys(ks, rows, cooldown)[i].key, ByKeys(ks, rows, cooldown)[j].key)
  {
    if ks != [] {
      var n := |ks| - 1;
      var g := Sort(Filter(rows, GroupOf(ks[n])), Earlier);
      FilterMembers(rows, GroupOf(ks[n]));
      SortSorts(Filter(rows, GroupOf(ks[n])), Earlier);
      AdjacentKey(g, cooldown, ks[n]);
      PrefixSorted(ks, n);
      ByKeysOrder(ks[..n], rows, cooldown);
      OneKeyMore(ks, ByKeys(ks[..n], rows, cooldown), Adjacent(g, cooldown));
    }
  }

  lemma PrefixSorted(ks: seq<Key>, n: nat)
    requires Sorted(ks, KeyLeq) && n <= |ks|
    ensures Sorted(ks[..n], KeyLeq)
  {
    forall i, j | 0 <= i < j < n ensures KeyLeq(ks[..n][i], ks[..n][j]) {
      assert KeyLeq(ks[i], ks[j]);
    }
  }

  lemma OneKeyMore(ks: seq<Key>, out: seq<Violation>, more: seq<Violation>)
    requires ks != [] && Sorted(ks, KeyLeq)
    requires forall v :: v in out ==> v.key in ks[..|ks| - 1]
    requires forall v :: v in more ==> v.key == ks[|ks| - 1]
    requires forall i, j :: 0 <= i < j < |out| ==> InReportOrder(out[i].key, out[j].key)
    ensures forall i, j :: 0 <= i < j < |out + more| ==> InReportOrder((out + more)[i].key, (out + more)[j].key)
    ensures forall v :: v in out + more ==> v.key in ks
  {
    var n := |ks| - 1;
    var last := ks[n];
    StringLeqTotal(last.part, last.part);
    forall i | 0 <= i < |out| ensures InReportOrder(out[i].key, last) {
      assert out[i] in out;
      var k :| 0 <= k < n && ks[k] == out[i].key;
      assert KeyLeq(ks[k], ks[n]);
    }
    forall j | 0 <= j < |more| ensures more[j].key == last {
      assert more[j] in more;
    }
  }

  /** Violations are reported by serial number, and for one serial number by part. */
  lemma ViolationsOrdered(rows: seq<Sent>, cooldown: int, i: nat, j: nat)
    requires i < j < |Violations(rows, cooldown)|
    ensures InReportOrder(Violations(rows, cooldown)[i].key, Violations(rows, cooldown)[j].key)
  {
    KeysTotal();
    SortSorts(Keys(rows), KeyLeq);
    ByKeysOrder(Sort(Keys(rows), KeyLeq), rows, cooldown);
  }
}
