/** What the reminder decisions and the writes of a batch say, in plain terms. */
module ReminderMeaning {
  import opened Basics
  import opened HealthScore
  import opened Cooldown
  import opened HealthBatch

  /** The score went from above the level to it or below, and the level has not been sent. */
  predicate Due(prev: real, now: real, sent: seq<int>, level: int) {
    prev > level as real && now <= level as real && level !in sent
  }

  predicate LowestDue(prev: real, now: real, sent: seq<int>, level: int) {
    && level in {20, 50, 80} && Due(prev, now, sent, level)
    && (level > 20 ==> !Due(prev, now, sent, 20))
    && (level > 50 ==> !Due(prev, now, sent, 50))
  }

  /** A cooldown of the configured seconds, or seven days, runs since the last reminder. */
  predicate Cooling(lastSent: Option<int>, clock: int, cooldown: int) {
    lastSent.Some? && clock < lastSent.value + if cooldown > 0 then cooldown else 604_800
  }

  /** Nothing goes out exactly when none of the levels 80, 50 and 20 is due. */
  lemma QuietExact(prev: real, now: real, sent: seq<int>, last: Option<int>, work: int, optout: bool, clock: int, cooldown: int)
    ensures Decide(prev, now, sent, last, work, optout, clock, cooldown) == NoReminder
       <==> !Due(prev, now, sent, 80) && !Due(prev, now, sent, 50) && !Due(prev, now, sent, 20)
  {
    assert forall l :: Crosses(prev, now, sent, l) <==> l in {20, 50, 80} && Due(prev, now, sent, l);
  }

  /** The lowest level due goes out unless the user opted out, it is too early, or the device is at work. */
  lemma SendExact(prev: real, now: real, sent: seq<int>, last: Option<int>, work: int, optout: bool, clock: int, cooldown: int,
                  level: int)
    requires LowestDue(prev, now, sent, level)
    ensures var d := Decide(prev, now, sent, last, work, optout, clock, cooldown);
            && (d == Suppressed(level, true) <==> optout)
            && (d == Suppressed(level, false) <==> !optout && Cooling(last, clock, cooldown))
            && (d == Deferred(level) <==> !optout && !Cooling(last, clock, cooldown) && work in {1, 2})
            && (d == Send(level) <==> !optout && !Cooling(last, clock, cooldown) && work !in {1, 2})
  {
    assert forall l :: Crosses(prev, now, sent, l) <==> l in {20, 50, 80} && Due(prev, now, sent, l);
  }

  /** The columns round to the nearest step, halves up. */
  lemma RoundsToNearest(x: real, scale: real)
    requires scale > 0.0
    ensures exists n: int :: IsStep(n, Quantize(x, scale), scale) && x * scale - 0.5 < n as real <= x * scale + 0.5
  {
    var n := (x * scale + 0.5).Floor;
    assert n as real / scale * scale == n as real;
    assert IsStep(n, Quantize(x, scale), scale);
  }

  predicate IsStep(n: int, q: real, scale: real) {
    q * scale == n as real
  }

  /** The row written: two decimals for the score, three for the hours, and the level sent, if any. */
  predicate RowFor(row: Record, scored: Record, level: Option<int>) {
    && row.health == Quantize(scored.health, 100.0) && row.used == Quantize(scored.used, 1000.0)
    && (row.lastHours.Some? <==> scored.lastHours.Some?)
    && (row.lastHours.Some? ==> row.lastHours.value == Quantize(scored.lastHours.value, 1000.0))
    && row.lastTs == scored.lastTs && row.model == scored.model
    && row.levels == scored.levels + if level.Some? then [level.value] else []
  }

  predicate OnlyDevice(w: World, post: World, sn: string) {
    && post.rows.Keys == w.rows.Keys + {sn}
    && forall s :: s in w.rows && s != sn ==> post.rows[s] == w.rows[s]
  }

  predicate LogKept(w: World, post: World) {
    |w.log| <= |post.log| <= |w.log| + 1 && post.log[..|w.log|] == w.log
  }

  /** The reminder row: what was decided, and the time only when it was sent. */
  predicate EntryFor(e: Entry, id: int, sn: string, d: Decision, now: int, swaps: nat) {
    && e.row.id == id && e.row.sn == sn && e.row.part == "module" && e.swaps == swaps
    && match d
       case NoReminder => false
       case Send(level) => e.row.level == level && e.row.at == Some(now)
       case Suppressed(level, _) => e.row.level == level && e.row.at == None
       case Deferred(level) => e.row.level == level && e.row.at == None
  }

  /** A commit writes the device's row and counts its swap; a reminder row follows unless none is due or its
      insert fails. A failing write leaves everything as it was. */
  lemma CommitMeans(w: World, job: Job, o: Outcome, now: int, cooldown: int, d: Decision)
    requires o.Write?
    requires d == Decide(o.prevHealth, o.row.health, o.row.levels, LastSent(w.log, job.sn), job.workState, job.optout, now, cooldown)
    ensures var post := Commit(w, job, o, now, cooldown);
            var swaps := (if job.sn in w.swaps then w.swaps[job.sn] else 0) + if o.swapped then 1 else 0;
            if job.writeFails then post == w
            else
              && OnlyDevice(w, post, job.sn) && RowFor(post.rows[job.sn], o.row, if d.Send? then Some(d.level) else None)
              && post.swaps == (if o.swapped then w.swaps[job.sn := swaps] else w.swaps)
              && LogKept(w, post)
              && (|post.log| == |w.log| <==> d == NoReminder || job.insertFails)
              && (|post.log| > |w.log| ==> EntryFor(post.log[|w.log|], |w.log| + 1, job.sn, d, now, swaps))
  {
  }

  /** A batch stops before it writes anything exactly when more than that share of the devices with new data
      had to be skipped. */
  lemma FuseExact(os: seq<Outcome>, ratio: real)
    ensures var skipped, written := |SkipsAt(os)|, |WritesAt(os)|;
            Fused(os, ratio) <==> skipped > 0 && skipped as real > ratio * (skipped + written) as real
  {
    CountsAt(os);
    var s, t := Skips(os), Skips(os) + WritesIn(os);
    if t > 0 {
      RatioAsProduct(s as real, t as real, ratio);
    }
  }

  lemma RatioAsProduct(s: real, t: real, ratio: real)
    requires t > 0.0
    ensures s / t > ratio <==> s > ratio * t
  {
    assert s / t * t == s;
    if s / t > ratio {
      assert (s / t - ratio) * t > 0.0;
    } else {
      assert (ratio - s / t) * t >= 0.0;
    }
  }

  function SkipsAt(os: seq<Outcome>): set<int> {
    set i | 0 <= i < |os| && os[i].Skip?
  }

  function WritesAt(os: seq<Outcome>): set<int> {
    set i | 0 <= i < |os| && os[i].Write?
  }

  lemma {:induction false} CountsAt(os: seq<Outcome>)
    ensures Skips(os) == |SkipsAt(os)| && WritesIn(os) == |WritesAt(os)|
  {
    if os != [] {
      var n := |os| - 1;
      var init := os[..n];
      CountsAt(init);
      assert SkipsAt(os) == SkipsAt(init) + if os[n].Skip? then {n} else {};
      assert WritesAt(os) == WritesAt(init) + if os[n].Write? then {n} else {};
    }
  }
}
