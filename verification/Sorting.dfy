/** The effect of Go's sort package on a comparison, as a stable insertion sort on values. */
module Sorting {

  ghost predicate TotalPreorder<T(!new)>(leq: (T, T) -> bool) {
    && (forall a, b :: leq(a, b) || leq(b, a))
    && (forall a, b, c :: leq(a, b) && leq(b, c) ==> leq(a, c))
  }

  ghost predicate Sorted<T>(s: seq<T>, leq: (T, T) -> bool) {
    forall i, j :: 0 <= i < j < |s| ==> leq(s[i], s[j])
  }

  function Insert<T>(x: T, s: seq<T>, leq: (T, T) -> bool): seq<T> {
    if s == [] || leq(x, s[0]) then [x] + s else [s[0]] + Insert(x, s[1..], leq)
  }

  function Sort<T>(s: seq<T>, leq: (T, T) -> bool): seq<T> {
    if s == [] then [] else Insert(s[0], Sort(s[1..], leq), leq)
  }

  lemma {:induction false} InsertKeeps<T(!new)>(x: T, s: seq<T>, leq: (T, T) -> bool)
    ensures multiset(Insert(x, s, leq)) == multiset(s) + multiset{x}
    ensures |Insert(x, s, leq)| == |s| + 1
    ensures TotalPreorder(leq) && Sorted(s, leq) ==> Sorted(Insert(x, s, leq), leq)
  {
    if s == [] || leq(x, s[0]) {
    } else {
      InsertKeeps(x, s[1..], leq);
      assert s == [s[0]] + s[1..];
      var t := Insert(x, s[1..], leq);
      if TotalPreorder(leq) && Sorted(s, leq) {
        forall y | y in t ensures leq(s[0], y) {
          assert y in multiset(t);
          if y != x {
            assert y in multiset(s[1..]);
          }
        }
      }
    }
  }

  lemma SameMembers<T>(s: seq<T>, t: seq<T>)
    requires multiset(s) == multiset(t)
    ensures forall x :: x in s <==> x in t
  {
    forall x ensures x in s <==> x in t {
      assert x in s <==> x in multiset(s);
      assert x in t <==> x in multiset(t);
    }
  }

  lemma {:induction false} SortPermutes<T(!new)>(s: seq<T>, leq: (T, T) -> bool)
    ensures multiset(Sort(s, leq)) == multiset(s)
    ensures |Sort(s, leq)| == |s|
    ensures TotalPreorder(leq) ==> Sorted(Sort(s, leq), leq)
  {
    if s != [] {
      SortPermutes(s[1..], leq);
      InsertKeeps(s[0], Sort(s[1..], leq), leq);
      assert s == [s[0]] + s[1..];
    }
  }

  /** Sorting permutes its input and puts it in order. */
  lemma SortSorts<T(!new)>(s: seq<T>, leq: (T, T) -> bool)
    ensures multiset(Sort(s, leq)) == multiset(s)
    ensures |Sort(s, leq)| == |s|
    ensures forall x :: x in Sort(s, leq) <==> x in s
    ensures TotalPreorder(leq) ==> Sorted(Sort(s, leq), leq)
  {
    SortPermutes(s, leq);
    SameMembers(Sort(s, leq), s);
  }
}
