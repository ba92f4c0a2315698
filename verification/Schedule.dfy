/** Lock schedules. Local time is a day number and a minute of the day; day d is weekday d % 7. */
module Schedule {
  import opened Basics

  const DAY := 1440

  /** Minutes of a parsed clock time; "24:00" is 1440. */
  type Minute = m: int | 0 <= m <= 1440

  /** The two times of a window; None when the text does not parse. */
  datatype Window = Window(start: Option<Minute>, end: Option<Minute>)

  datatype Override = Override(day: int, windows: seq<Window>)

  datatype Policy = Policy(weekly: map<int, seq<Window>>, overrides: seq<Override>)

  function WeeklyOn(p: Policy, day: int): seq<Window> {
    if day % 7 in p.weekly then p.weekly[day % 7] else []
  }

  function OverrideOn(os: seq<Override>, day: int): Option<seq<Window>> {
    if os == [] then None
    else if os[0].day == day then Some(os[0].windows)
    else OverrideOn(os[1..], day)
  }

  /** The windows of one day: the first override of that date, else the weekly table. */
  function WindowsFor(p: Policy, day: int): seq<Window> {
    var o := OverrideOn(p.overrides, day);
    if o.Some? then o.value else WeeklyOn(p, day)
  }

  predicate Enabled(p: Policy) {
    (exists k :: k in p.weekly && p.weekly[k] != []) || p.overrides != []
  }

  /** A policy is in force as soon as some weekday has a window or some date has windows of its own, even none. */
  lemma EnabledMeans(p: Policy)
    ensures !Enabled(p) <==> |p.overrides| == 0 && forall d :: d in p.weekly ==> |p.weekly[d]| == 0
  {
  }

  /** The windows of a date are those of its first override, and without one those of its weekday. */
  lemma {:induction false} WindowsExact(p: Policy, day: int)
    ensures (forall i :: 0 <= i < |p.overrides| && p.overrides[i].day == day
                         && (forall k :: 0 <= k < i ==> p.overrides[k].day != day)
               ==> WindowsFor(p, day) == p.overrides[i].windows)
    ensures (forall i :: 0 <= i < |p.overrides| ==> p.overrides[i].day != day) ==>
              WindowsFor(p, day) == if day % 7 in p.weekly then p.weekly[day % 7] else []
  {
    OverrideFirst(p.overrides, day);
  }

  lemma {:induction false} OverrideFirst(os: seq<Override>, day: int)
    ensures OverrideOn(os, day).None? <==> forall i :: 0 <= i < |os| ==> os[i].day != day
    ensures forall i :: 0 <= i < |os| && os[i].day == day && (forall k :: 0 <= k < i ==> os[k].day != day)
              ==> OverrideOn(os, day) == Some(os[i].windows)
  {
    if os != [] && os[0].day != day {
      OverrideFirst(os[1..], day);
      forall i | 0 <= i < |os| && os[i].day == day && (forall k :: 0 <= k < i ==> os[k].day != day)
        ensures OverrideOn(os, day) == Some(os[i].windows)
      {
        assert os[1..][i - 1] == os[i];
        assert forall k :: 0 <= k < i - 1 ==> os[1..][k].day != day;
      }
      if OverrideOn(os[1..], day).None? {
        forall i | 0 <= i < |os| ensures os[i].day != day {
          assert i > 0 ==> os[1..][i - 1] == os[i];
        }
      }
    }
  }

  /** The interval a window of the given day stands for, in absolute minutes: past midnight
      when the end lies before the start, empty when both are equal or one does not parse. */
  predicate Covers(w: Window, day: int, t: int) {
    && w.start.Some? && w.end.Some?
    && w.start.value != w.end.value
    && day * DAY + w.start.value <= t
    && t < (if w.end.value > w.start.value then day else day + 1) * DAY + w.end.value
  }

  /** A window covers its day from its start up to its end, without the end; one that ends before it starts
      runs to midnight and on to its end the next day; an empty or unreadable one covers nothing. */
  lemma CoversMeans(w: Window, day: int, minute: int)
    requires 0 <= minute < 1440
    ensures w.start.None? || w.end.None? ==> !Covers(w, day, 1440 * day + minute)
    ensures w.start.Some? && w.end.Some? ==>
              var s, e := w.start.value, w.end.value;
              && (Covers(w, day, 1440 * day + minute) <==> (s < e && s <= minute < e) || (e < s && s <= minute))
              && (Covers(w, day, 1440 * (day + 1) + minute) <==> e < s && minute < e)
  {
  }

  /** The minute lies in the union, over all days, of that day's intervals. */
  ghost predicate InSomeWindow(p: Policy, t: int) {
    exists day: int, i: int :: CoveredBy(p, day, i, t)
  }

  predicate CoveredBy(p: Policy, day: int, i: int, t: int) {
    0 <= i < |WindowsFor(p, day)| && Covers(WindowsFor(p, day)[i], day, t)
  }

  ghost predicate Locks(p: Policy, t: int) {
    Enabled(p) && !InSomeWindow(p, t)
  }

  /** No day other than today and yesterday can cover a minute of today. */
  lemma OnlyTwoDays(w: Window, d: int, day: int, minute: int)
    requires 0 <= minute < DAY && Covers(w, d, day * DAY + minute)
    ensures d == day || (d == day - 1 && w.end.value < w.start.value && minute < w.end.value)
  {
  }

  lemma OnlyTwoDaysCover(p: Policy, d: int, i: int, day: int, minute: int)
    requires 0 <= minute < DAY && CoveredBy(p, d, i, day * DAY + minute)
    ensures d == day || d == day - 1
  {
    OnlyTwoDays(WindowsFor(p, d)[i], d, day, minute);
  }

  method ComputeWindowsFor(p: Policy, day: int) returns (ws: seq<Window>)
    ensures ws == WindowsFor(p, day)
  {
    for i := 0 to |p.overrides|
      invariant OverrideOn(p.overrides, day) == OverrideOn(p.overrides[i..], day)
    {
      if p.overrides[i].day == day {
        return p.overrides[i].windows;
      }
    }
    return WeeklyOn(p, day);
  }

  /** Looking at today's and yesterday's windows only decides the union over all days. */
  method AllowedAt(p: Policy, day: int, minute: int) returns (allowed: bool)
    requires 0 <= minute < DAY
    ensures allowed <==> InSomeWindow(p, day * DAY + minute)
  {
    ghost var t := day * DAY + minute;
    var today := ComputeWindowsFor(p, day);
    for i := 0 to |today|
      invariant forall k :: 0 <= k < i ==> !CoveredBy(p, day, k, t)
    {
      var w := today[i];
      if w.start.None? || w.end.None? {
        continue;
      }
      var s, e := w.start.value, w.end.value;
      if e > s {
        if minute >= s && minute < e {
          assert CoveredBy(p, day, i, t);
          return true;
        }
      } else if e < s {
        if minute >= s {
          assert CoveredBy(p, day, i, t);
          return true;
        }
      }
    }
    var eve := day - 1;
    var yesterday := ComputeWindowsFor(p, eve);
    for i := 0 to |yesterday|
      invariant forall k :: 0 <= k < i ==> !CoveredBy(p, eve, k, t)
    {
      var w := yesterday[i];
      if w.start.None? || w.end.None? || w.end.value >= w.start.value {
        continue;
      }
      if minute < w.end.value {
        assert CoveredBy(p, eve, i, t);
        return true;
      }
    }
    forall d: int, i: int ensures !CoveredBy(p, d, i, t) {
      if CoveredBy(p, d, i, t) {
        OnlyTwoDaysCover(p, d, i, day, minute);
      }
    }
    return false;
  }

  method ShouldLock(p: Policy, day: int, minute: int) returns (lock: bool)
    requires 0 <= minute < DAY
    ensures lock <==> Locks(p, day * DAY + minute)
  {
    if !Enabled(p) {
      return false;
    }
    var allowed := AllowedAt(p, day, minute);
    return !allowed;
  }
}
