/** Types and sequence facts shared by the models of the individual services. */
module Basics {

  datatype Option<+T> = None | Some(value: T)

  datatype Error = BadParam | Denied | NotFound | Conflict

  datatype Result<+T> = Ok(value: T) | Err(error: Error)

  /** The elements of s that satisfy f, in their order. */
  function Filter<T>(s: seq<T>, f: T -> bool): seq<T> {
    if s == [] then []
    else
      var init := Filter(s[..|s| - 1], f);
      if f(s[|s| - 1]) then init + [s[|s| - 1]] else init
  }

  lemma {:induction false} FilterMembers<T>(s: seq<T>, f: T -> bool)
    ensures forall x :: x in Filter(s, f) <==> x in s && f(x)
  {
    if s != [] {
      FilterMembers(s[..|s| - 1], f);
      assert s == s[..|s| - 1] + [s[|s| - 1]];
    }
  }

  lemma {:induction false} FilterSame<T>(s: seq<T>, f: T -> bool, g: T -> bool)
    requires forall x :: x in s ==> f(x) == g(x)
    ensures Filter(s, f) == Filter(s, g)
  {
    if s != [] {
      FilterSame(s[..|s| - 1], f, g);
    }
  }

  lemma {:induction false} FilterAll<T>(s: seq<T>, f: T -> bool)
    requires forall x :: x in s ==> f(x)
    ensures Filter(s, f) == s
  {
    if s != [] {
      FilterAll(s[..|s| - 1], f);
      assert s == s[..|s| - 1] + [s[|s| - 1]];
    }
  }

  lemma {:induction false} FilterNone<T>(s: seq<T>, f: T -> bool)
    requires forall x :: x in s ==> !f(x)
    ensures Filter(s, f) == []
  {
    if s != [] {
      FilterNone(s[..|s| - 1], f);
    }
  }

  lemma {:induction false} FilterAppend<T>(s: seq<T>, t: seq<T>, f: T -> bool)
    ensures Filter(s + t, f) == Filter(s, f) + Filter(t, f)
  {
    if t == [] {
      assert s + t == s;
    } else {
      var last := |t| - 1;
      assert (s + t)[..|s + t| - 1] == s + t[..last];
      FilterAppend(s, t[..last], f);
    }
  }

  lemma {:induction false} FilterFilter<T>(s: seq<T>, f: T -> bool, g: T -> bool, both: T -> bool)
    requires forall x :: both(x) == (f(x) && g(x))
    ensures Filter(Filter(s, f), g) == Filter(s, both)
  {
    if s != [] {
      var init := s[..|s| - 1];
      FilterFilter(init, f, g, both);
      if f(s[|s| - 1]) {
        assert Filter(s, f)[..|Filter(s, f)| - 1] == Filter(init, f);
      }
    }
  }

  // ---- division

  lemma Multiple(m: nat, d: int)
    ensures d >= 1 ==> m * d >= m
    ensures d <= -1 ==> m * d + m <= 0
  {
    if d >= 1 {
      assert m * d == m + m * (d - 1);
    } else if d <= -1 {
      assert m * d + m == m * (d + 1);
    }
  }

  lemma QuotientIs(n: nat, m: nat, q: nat, r: nat)
    requires n == m * q + r && r < m
    ensures n / m == q
  {
    Multiple(m, n / m - q);
    assert m * (n / m) + n % m == n;
    assert m * (n / m - q) == m * (n / m) - m * q;
  }

  lemma Combine(a: nat, b: nat, p: nat, q: nat, r: nat, t: nat)
    requires r < b && t < a && p == a * b
    ensures a * (q * b + r) + t == p * q + (a * r + t)
    ensures a * r + t < p
  {
    Multiple(a, b - r);
    assert a * (b - r) == a * b - a * r;
    assert a * (q * b + r) == a * (q * b) + a * r;
    assert a * (q * b) == (a * b) * q;
  }

  /** Dividing by a, which leaves m and t, and then by b is dividing by their product p. */
  lemma DivideTwice(n: nat, a: nat, b: nat, p: nat, m: nat, t: nat)
    requires n == a * m + t && t < a && b > 0 && p > 0 && p == a * b
    ensures m / b == n / p
  {
    Combine(a, b, p, m / b, m % b, t);
    assert m == m / b * b + m % b;
    QuotientIs(n, p, m / b, a * (m % b) + t);
  }
}
