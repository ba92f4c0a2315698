/** The hourly batch over all devices: score, fuse, write, remind. */
module HealthBatch {
  import opened Basics
  import opened HealthScore
  import opened Cooldown

  const DEFAULT_COOLDOWN := 7 * 86400
  const LEVELS := [80, 50, 20]

  // ---- which level, and whether it goes out

  predicate Crosses(prev: real, now: real, sent: seq<int>, level: int) {
    level in LEVELS && prev > level as real >= now && level !in sent
  }

  method LowestCrossed(prev: real, now: real, sent: seq<int>) returns (level: int)
    ensures level == Lowest(prev, now, sent)
  {
    level := 0;
    var i := 0;
    while i < |LEVELS|
      invariant 0 <= i <= 3
      invariant level == 0 || Crosses(prev, now, sent, level)
      invariant forall k :: 0 <= k < i && Crosses(prev, now, sent, LEVELS[k]) ==> 0 < level <= LEVELS[k]
    {
      if prev > LEVELS[i] as real >= now && LEVELS[i] !in sent {
        level := LEVELS[i];
      }
      i := i + 1;
    }
  }

  /** The lowest level crossed and not sent yet; 0 when there is none. */
  function Lowest(prev: real, now: real, sent: seq<int>): (level: int)
    ensures level == 0 || Crosses(prev, now, sent, level)
    ensures forall l :: Crosses(prev, now, sent, l) ==> 0 < level <= l
  {
    if Crosses(prev, now, sent, 20) then 20
    else if Crosses(prev, now, sent, 50) then 50
    else if Crosses(prev, now, sent, 80) then 80
    else 0
  }

  datatype Decision = NoReminder | Send(level: int) | Suppressed(level: int, optout: bool) | Deferred(level: int)

  function Decide(prev: real, now: real, sent: seq<int>, lastSent: Option<int>, workState: int, optout: bool,
                  clock: int, cooldown: int): Decision
  {
    var level := Lowest(prev, now, sent);
    var cd := if cooldown <= 0 then DEFAULT_COOLDOWN else cooldown;
    if level == 0 then NoReminder
    else if optout then Suppressed(level, true)
    else if lastSent.Some? && clock - lastSent.value < cd then Suppressed(level, false)
    else if workState == 1 || workState == 2 then Deferred(level)
    else Send(level)
  }

  method DecideReminder(prev: real, now: real, sent: seq<int>, lastSent: Option<int>, workState: int, optout: bool,
                        clock: int, cooldown: int)
    returns (d: Decision)
    ensures d == Decide(prev, now, sent, lastSent, workState, optout, clock, cooldown)
  {
    var level := LowestCrossed(prev, now, sent);
    if level == 0 {
      return NoReminder;
    }
    if optout {
      return Suppressed(level, true);
    }
    var cd := cooldown;
    if cd <= 0 {
      cd := DEFAULT_COOLDOWN;
    }
    if lastSent.Some? && clock - lastSent.value < cd {
      return Suppressed(level, false);
    }
    if workState == 1 || workState == 2 {
      return Deferred(level);
    }
    return Send(level);
  }

  // ---- the tables and the batch

  /** A health_reminder row, and how many swaps its device had had. */
  datatype Entry = Entry(row: Sent, swaps: nat)

  datatype World = World(rows: map<string, Record>, swaps: map<string, nat>, log: seq<Entry>)

  const EMPTY := World(map[], map[], [])

  datatype Job = Job(sn: string, inp: Input, workState: int, optout: bool, writeFails: bool, insertFails: bool)

  function RowOf(w: World, sn: string): Option<Record> {
    if sn in w.rows then Some(w.rows[sn]) else None
  }

  function SwapsOf(w: World, sn: string): nat {
    if sn in w.swaps then w.swaps[sn] else 0
  }

  /** max(sent_at) over the device's reminders. */
  function LastSent(log: seq<Entry>, sn: string): (r: Option<int>)
    ensures forall e :: e in log && e.row.sn == sn && e.row.at.Some? ==> r.Some? && e.row.at.value <= r.value
    ensures r.Some? ==> exists e :: e in log && e.row.sn == sn && e.row.at == r
  {
    if log == [] then None
    else
      var before, e := LastSent(log[..|log| - 1], sn), log[|log| - 1].row;
      if e.sn == sn && e.at.Some? && (before.None? || e.at.value >= before.value) then e.at else before
  }

  function DecisionFor(w: World, job: Job, o: Outcome, now: int, cooldown: int): Decision
    requires o.Write?
  {
    Decide(o.prevHealth, o.row.health, o.row.levels, LastSent(w.log, job.sn), job.workState, job.optout, now, cooldown)
  }

  function LevelOf(d: Decision): int
    requires !d.NoReminder?
  {
    match d
    case Send(l) => l
    case Suppressed(l, _) => l
    case Deferred(l) => l
  }

  function NewRow(o: Outcome, d: Decision): Record
    requires o.Write?
  {
    Stored(WithSent(o.row, if d.Send? then Some(d.level) else None), Numeric)
  }

  function NewEntry(w: World, sn: string, o: Outcome, d: Decision, now: int): Entry
    requires o.Write? && !d.NoReminder?
  {
    Entry(Sent(|w.log| + 1, sn, "module", LevelOf(d), if d.Send? then Some(now) else None),
          SwapsOf(w, sn) + if o.swapped then 1 else 0)
  }

  /** commit: one transaction for the row (and the swap), then the reminder row. */
  function Commit(w: World, job: Job, o: Outcome, now: int, cooldown: int): World
    requires o.Write?
  {
    if job.writeFails then w
    else
      var d := DecisionFor(w, job, o, now, cooldown);
      World(w.rows[job.sn := NewRow(o, d)],
            if o.swapped then w.swaps[job.sn := SwapsOf(w, job.sn) + 1] else w.swaps,
            if d.NoReminder? || job.insertFails then w.log else w.log + [NewEntry(w, job.sn, o, d, now)])
  }

  function Outcomes(w: World, jobs: seq<Job>): seq<Outcome> {
    seq(|jobs|, i requires 0 <= i < |jobs| => Score(RowOf(w, jobs[i].sn), jobs[i].inp))
  }

  function Skips(os: seq<Outcome>): nat {
    if os == [] then 0 else Skips(os[..|os| - 1]) + if os[|os| - 1].Skip? then 1 else 0
  }

  function WritesIn(os: seq<Outcome>): nat {
    if os == [] then 0 else WritesIn(os[..|os| - 1]) + if os[|os| - 1].Write? then 1 else 0
  }

  predicate ShouldFuse(skipped: nat, total: nat, ratio: real) {
    total > 0 && skipped > 0 && skipped as real / total as real > ratio
  }

  predicate Fused(os: seq<Outcome>, ratio: real) {
    ShouldFuse(Skips(os), Skips(os) + WritesIn(os), ratio)
  }

  function CommitAll(w: World, jobs: seq<Job>, os: seq<Outcome>, now: int, cooldown: int): World
    requires |jobs| == |os|
  {
    if jobs == [] then w
    else
      var k := |jobs| - 1;
      var before := CommitAll(w, jobs[..k], os[..k], now, cooldown);
      if os[k].Write? then Commit(before, jobs[k], os[k], now, cooldown) else before
  }

  function Batch(w: World, jobs: seq<Job>, now: int, ratio: real, cooldown: int): World {
    var os := Outcomes(w, jobs);
    if Fused(os, ratio) then w else CommitAll(w, jobs, os, now, cooldown)
  }

  class Service {
    var rows: map<string, Record>
    var swaps: map<string, nat>
    var log: seq<Entry>
    const ratio: real
    const cooldown: int

    function State(): World
      reads this
    {
      World(rows, swaps, log)
    }

    constructor (ratio: real, cooldown: int)
      ensures State() == EMPTY && this.ratio == ratio && this.cooldown == cooldown
    {
      rows, swaps, log := map[], map[], [];
      this.ratio, this.cooldown := ratio, cooldown;
    }

    method CommitOne(job: Job, o: Outcome, now: int)
      requires o.Write?
      modifies this
      ensures State() == Commit(old(State()), job, o, now, cooldown)
    {
      var last := LastSent(log, job.sn);
      var d := DecideReminder(o.prevHealth, o.row.health, o.row.levels, last, job.workState, job.optout, now, cooldown);
      if job.writeFails {
        return;
      }
      var entry := if d.NoReminder? then [] else [NewEntry(State(), job.sn, o, d, now)];
      rows := rows[job.sn := NewRow(o, d)];
      if o.swapped {
        swaps := swaps[job.sn := (if job.sn in swaps then swaps[job.sn] else 0) + 1];
      }
      if job.insertFails {
        return;
      }
      log := log + entry;
    }

    method ScoreAll(jobs: seq<Job>) returns (os: seq<Outcome>, skipped: nat, total: nat)
      ensures os == Outcomes(State(), jobs)
      ensures skipped == Skips(os) && total == Skips(os) + WritesIn(os)
    {
      os, skipped, total := [], 0, 0;
      for i := 0 to |jobs|
        invariant os == Outcomes(State(), jobs)[..i]
        invariant skipped == Skips(os) && total == Skips(os) + WritesIn(os)
      {
        var sn := jobs[i].sn;
        var o := ScoreDevice(if sn in rows then Some(rows[sn]) else None, jobs[i].inp);
        assert (os + [o])[..|os|] == os;
        os := os + [o];
        if o.Skip? {
          skipped := skipped + 1;
        }
        if !o.Unchanged? {
          total := total + 1;
        }
      }
    }

    method CommitJobs(jobs: seq<Job>, os: seq<Outcome>, now: int)
      requires |jobs| == |os|
      modifies this
      ensures State() == CommitAll(old(State()), jobs, os, now, cooldown)
    {
      for i := 0 to |jobs|
        invariant State() == CommitAll(old(State()), jobs[..i], os[..i], now, cooldown)
      {
        assert jobs[..i + 1][..i] == jobs[..i] && os[..i + 1][..i] == os[..i];
        if os[i].Write? {
          CommitOne(jobs[i], os[i], now);
        }
      }
      assert jobs[..|jobs|] == jobs && os[..|jobs|] == os;
    }

    method RunOnce(jobs: seq<Job>, now: int) returns (fused: bool)
      modifies this
      ensures State() == Batch(old(State()), jobs, now, ratio, cooldown)
      ensures fused <==> Fused(Outcomes(old(State()), jobs), ratio)
    {
      var os, skipped, total := ScoreAll(jobs);
      if total > 0 && skipped > 0 && skipped as real / total as real > ratio {
        return true;
      }
      CommitJobs(jobs, os, now);
      return false;
    }
  }

  // ---- every device is on its own

  ghost predicate Distinct(jobs: seq<Job>) {
    forall i, j :: 0 <= i < j < |jobs| ==> jobs[i].sn != jobs[j].sn
  }

  lemma {:induction false} UntouchedRow(w: World, jobs: seq<Job>, os: seq<Outcome>, now: int, cooldown: int, sn: string)
    requires |jobs| == |os| && forall j :: 0 <= j < |jobs| ==> jobs[j].sn != sn
    ensures RowOf(CommitAll(w, jobs, os, now, cooldown), sn) == RowOf(w, sn)
    ensures SwapsOf(CommitAll(w, jobs, os, now, cooldown), sn) == SwapsOf(w, sn)
  {
    if jobs != [] {
      var k := |jobs| - 1;
      forall j | 0 <= j < k ensures jobs[..k][j].sn != sn {
        assert jobs[..k][j] == jobs[j];
      }
      UntouchedRow(w, jobs[..k], os[..k], now, cooldown, sn);
    }
  }

  /** The job's device went through one scoring round, with what the reminder added. */
  ghost predicate IsRound(w: World, post: World, job: Job, lost: bool, sent: Option<int>) {
    RowOf(post, job.sn) == Kept(RowOf(w, job.sn), Score(RowOf(w, job.sn), job.inp), lost, sent, Numeric)
  }

  ghost predicate SomeRound(w: World, post: World, job: Job, lost: bool) {
    exists sent :: IsRound(w, post, job, lost, sent)
  }

  lemma CommitIsRound(before: World, w: World, job: Job, now: int, cooldown: int)
    requires RowOf(before, job.sn) == RowOf(w, job.sn)
    ensures var o := Score(RowOf(w, job.sn), job.inp);
            SomeRound(w, if o.Write? then Commit(before, job, o, now, cooldown) else before, job, job.writeFails)
  {
    var o := Score(RowOf(w, job.sn), job.inp);
    if o.Write? {
      var d := DecisionFor(before, job, o, now, cooldown);
      assert IsRound(w, Commit(before, job, o, now, cooldown), job, job.writeFails, if d.Send? then Some(d.level) else None);
    } else {
      assert IsRound(w, before, job, job.writeFails, None);
    }
  }

  lemma {:induction false} CommittedRow(w: World, jobs: seq<Job>, k: nat, i: nat, now: int, cooldown: int)
    requires Distinct(jobs) && i < k <= |jobs|
    ensures SomeRound(w, CommitAll(w, jobs[..k], Outcomes(w, jobs)[..k], now, cooldown), jobs[i], jobs[i].writeFails)
  {
    var os := Outcomes(w, jobs);
    assert jobs[..k][..k - 1] == jobs[..k - 1] && os[..k][..k - 1] == os[..k - 1];
    var before := CommitAll(w, jobs[..k - 1], os[..k - 1], now, cooldown);
    var post := CommitAll(w, jobs[..k], os[..k], now, cooldown);
    if i < k - 1 {
      CommittedRow(w, jobs, k - 1, i, now, cooldown);
      var sent :| IsRound(w, before, jobs[i], jobs[i].writeFails, sent);
      assert RowOf(post, jobs[i].sn) == RowOf(before, jobs[i].sn);
      assert IsRound(w, post, jobs[i], jobs[i].writeFails, sent);
    } else {
      UntouchedRow(w, jobs[..k - 1], os[..k - 1], now, cooldown, jobs[i].sn);
      CommitIsRound(before, w, jobs[i], now, cooldown);
    }
  }

  /** A batch does to each of its devices one scoring round, lost when the batch fuses or the write fails. */
  lemma BatchIsOneRoundEach(w: World, jobs: seq<Job>, i: nat, now: int, ratio: real, cooldown: int)
    requires Distinct(jobs) && i < |jobs|
    ensures SomeRound(w, Batch(w, jobs, now, ratio, cooldown), jobs[i], Fused(Outcomes(w, jobs), ratio) || jobs[i].writeFails)
  {
    if Fused(Outcomes(w, jobs), ratio) {
      assert IsRound(w, w, jobs[i], true, None);
    } else {
      CommittedRow(w, jobs, |jobs|, i, now, cooldown);
      assert jobs[..|jobs|] == jobs && Outcomes(w, jobs)[..|jobs|] == Outcomes(w, jobs);
    }
  }

  // ---- invariants of the reminder log

  ghost predicate EntryOk(w: World, clock: int, e: Entry) {
    e.row.at.Some? ==>
      && e.row.level in LEVELS && e.row.at.value <= clock
      && e.row.sn in w.rows && e.swaps <= SwapsOf(w, e.row.sn)
      && (e.swaps == SwapsOf(w, e.row.sn) ==> w.rows[e.row.sn].health <= e.row.level as real)
  }

  /** a before b in the log: far enough apart, and a lower level within one module's life. */
  predicate PairOk(a: Entry, b: Entry, cooldown: int) {
    a.row.at.Some? && b.row.at.Some? && a.row.sn == b.row.sn ==>
      && b.row.at.value - a.row.at.value >= cooldown
      && (a.swaps == b.swaps ==> b.row.level < a.row.level)
  }

  ghost predicate Inv(w: World, clock: int, cooldown: int) {
    && (forall sn :: sn in w.rows ==> Held(Some(w.rows[sn]), Numeric))
    && (forall e :: e in w.log ==> e.row.part == "module" && EntryOk(w, clock, e))
    && (forall i, j :: 0 <= i < j < |w.log| ==> PairOk(w.log[i], w.log[j], cooldown))
  }

  lemma NewRowHeld(rec: Option<Record>, inp: Input, d: Decision)
    requires Held(rec, Numeric) && Score(rec, inp).Write?
    ensures var o := Score(rec, inp);
            && Held(Some(NewRow(o, d)), Numeric)
            && (forall l :: l in LEVELS && o.row.health <= l as real ==> NewRow(o, d).health <= l as real)
            && (!o.swapped && rec.Some? ==> NewRow(o, d).health <= rec.value.health && o.prevHealth == rec.value.health)
  {
    var o := Score(rec, inp);
    var v := o.row.health;
    RoundTwice(v);
    RoundKeepsOrder(0.0, v, 100.0);
    RoundKeepsOrder(v, 100.0, 100.0);
    if !o.swapped && rec.Some? {
      RoundKeepsOrder(v, rec.value.health, 100.0);
    }
    forall l | l in LEVELS && v <= l as real ensures Quantize(v, 100.0) <= l as real {
      LevelOnGrid(l);
      RoundKeepsOrder(v, l as real, 100.0);
    }
  }

  lemma LevelOnGrid(l: int)
    ensures OnGrid(l as real, 100.0)
  {
    var n := 100 * l;
    assert (l as real * 100.0 + 0.5).Floor == n;
  }

  lemma OldEntryOk(w: World, job: Job, now: int, cooldown: int, clock: int, e: Entry)
    requires Held(RowOf(w, job.sn), Numeric) && EntryOk(w, clock, e) && clock <= now
    requires Score(RowOf(w, job.sn), job.inp).Write?
    ensures EntryOk(Commit(w, job, Score(RowOf(w, job.sn), job.inp), now, cooldown), now, e)
  {
    var o := Score(RowOf(w, job.sn), job.inp);
    NewRowHeld(RowOf(w, job.sn), job.inp, DecisionFor(w, job, o, now, cooldown));
  }

  lemma NewEntryOk(w: World, job: Job, now: int, cooldown: int)
    requires Held(RowOf(w, job.sn), Numeric)
    requires Score(RowOf(w, job.sn), job.inp).Write? && !job.writeFails
    requires !DecisionFor(w, job, Score(RowOf(w, job.sn), job.inp), now, cooldown).NoReminder?
    ensures var o := Score(RowOf(w, job.sn), job.inp);
            EntryOk(Commit(w, job, o, now, cooldown), now, NewEntry(w, job.sn, o, DecisionFor(w, job, o, now, cooldown), now))
  {
    var o := Score(RowOf(w, job.sn), job.inp);
    NewRowHeld(RowOf(w, job.sn), job.inp, DecisionFor(w, job, o, now, cooldown));
  }

  lemma NewPairOk(w: World, job: Job, now: int, cooldown: int, clock: int, e: Entry)
    requires Held(RowOf(w, job.sn), Numeric) && cooldown > 0 && e in w.log && EntryOk(w, clock, e)
    requires Score(RowOf(w, job.sn), job.inp).Write?
    requires !DecisionFor(w, job, Score(RowOf(w, job.sn), job.inp), now, cooldown).NoReminder?
    ensures var o := Score(RowOf(w, job.sn), job.inp);
            PairOk(e, NewEntry(w, job.sn, o, DecisionFor(w, job, o, now, cooldown), now), cooldown)
  {
    var o := Score(RowOf(w, job.sn), job.inp);
    NewRowHeld(RowOf(w, job.sn), job.inp, DecisionFor(w, job, o, now, cooldown));
  }

  lemma CommitKeeps(w: World, job: Job, now: int, cooldown: int, clock: int)
    requires Inv(w, clock, cooldown) && clock <= now && cooldown > 0
    requires Score(RowOf(w, job.sn), job.inp).Write?
    ensures Inv(Commit(w, job, Score(RowOf(w, job.sn), job.inp), now, cooldown), now, cooldown)
  {
    var o := Score(RowOf(w, job.sn), job.inp);
    var d := DecisionFor(w, job, o, now, cooldown);
    var post := Commit(w, job, o, now, cooldown);
    NewRowHeld(RowOf(w, job.sn), job.inp, d);
    forall e | e in post.log ensures e.row.part == "module" && EntryOk(post, now, e) {
      if e in w.log {
        OldEntryOk(w, job, now, cooldown, clock, e);
      } else {
        NewEntryOk(w, job, now, cooldown);
      }
    }
    forall i, j | 0 <= i < j < |post.log| ensures PairOk(post.log[i], post.log[j], cooldown) {
      assert post.log[i] == w.log[i];
      if j == |w.log| {
        NewPairOk(w, job, now, cooldown, clock, w.log[i]);
      } else {
        assert post.log[j] == w.log[j];
      }
    }
  }

  lemma {:induction false} CommitAllKeeps(w: World, jobs: seq<Job>, k: nat, now: int, cooldown: int, clock: int)
    requires Inv(w, clock, cooldown) && clock <= now && cooldown > 0 && Distinct(jobs) && k <= |jobs|
    ensures Inv(CommitAll(w, jobs[..k], Outcomes(w, jobs)[..k], now, cooldown), now, cooldown)
  {
    var os := Outcomes(w, jobs);
    if k > 0 {
      assert jobs[..k][..k - 1] == jobs[..k - 1] && os[..k][..k - 1] == os[..k - 1];
      CommitAllKeeps(w, jobs, k - 1, now, cooldown, clock);
      var before := CommitAll(w, jobs[..k - 1], os[..k - 1], now, cooldown);
      UntouchedRow(w, jobs[..k - 1], os[..k - 1], now, cooldown, jobs[k - 1].sn);
      if os[k - 1].Write? {
        CommitKeeps(before, jobs[k - 1], now, cooldown, now);
      }
    } else {
      LaterClock(w, clock, now, cooldown);
    }
  }

  lemma LaterClock(w: World, clock: int, now: int, cooldown: int)
    requires Inv(w, clock, cooldown) && clock <= now
    ensures Inv(w, now, cooldown)
  {
  }

  // ---- runs

  /** aborted: a table could not be read, so nothing was written. */
  datatype Hour = Hour(jobs: seq<Job>, now: int, aborted: bool)

  function HourStep(w: World, h: Hour, ratio: real, cooldown: int): World {
    if h.aborted then w else Batch(w, h.jobs, h.now, ratio, cooldown)
  }

  function RunHours(hs: seq<Hour>, ratio: real, cooldown: int): World {
    if hs == [] then EMPTY else HourStep(RunHours(hs[..|hs| - 1], ratio, cooldown), hs[|hs| - 1], ratio, cooldown)
  }

  ghost predicate ClockForward(hs: seq<Hour>) {
    && (forall i, j :: 0 <= i < j < |hs| ==> hs[i].now <= hs[j].now)
    && (forall h :: h in hs ==> Distinct(h.jobs))
  }

  lemma {:induction false} RunInv(hs: seq<Hour>, ratio: real, cooldown: int)
    requires ClockForward(hs) && cooldown > 0 && hs != []
    ensures Inv(RunHours(hs, ratio, cooldown), hs[|hs| - 1].now, cooldown)
  {
    var k := |hs| - 1;
    var h := hs[k];
    var before := RunHours(hs[..k], ratio, cooldown);
    if k > 0 {
      RunInv(hs[..k], ratio, cooldown);
      LaterClock(before, hs[k - 1].now, h.now, cooldown);
    }
    CommitAllKeeps(before, h.jobs, |h.jobs|, h.now, cooldown, h.now);
    assert h.jobs[..|h.jobs|] == h.jobs && Outcomes(before, h.jobs)[..|h.jobs|] == Outcomes(before, h.jobs);
  }

  function RowsOf(log: seq<Entry>): seq<Sent> {
    seq(|log|, i requires 0 <= i < |log| => log[i].row)
  }

  /** Over every sequence of batches with a clock that does not go back, whatever fuses, fails or is
      recomputed, the cooldown check finds nothing. */
  lemma RemindersSpaced(hs: seq<Hour>, ratio: real, cooldown: int)
    requires ClockForward(hs) && cooldown > 0
    ensures Violations(RowsOf(RunHours(hs, ratio, cooldown).log), cooldown) == []
  {
    var log := RunHours(hs, ratio, cooldown).log;
    var rows := RowsOf(log);
    if hs != [] {
      RunInv(hs, ratio, cooldown);
    }
    forall i, j | 0 <= i < j < |rows| ensures NotTooClose(rows[i], rows[j], cooldown) {
      assert PairOk(log[i], log[j], cooldown);
    }
    ViolationsExact(rows, cooldown);
  }

  ghost predicate SameLife(a: Entry, b: Entry) {
    a.row.at.Some? && b.row.at.Some? && a.row.sn == b.row.sn && a.swaps == b.swaps
  }

  ghost predicate FallingLevels(log: seq<Entry>) {
    forall i, j :: 0 <= i < j < |log| && SameLife(log[i], log[j]) ==> log[j].row.level < log[i].row.level
  }

  /** Between two swaps of a device each reminder has a lower level than the one before, so no level
      goes out twice. */
  lemma LevelsFall(hs: seq<Hour>, ratio: real, cooldown: int)
    requires ClockForward(hs) && cooldown > 0
    ensures FallingLevels(RunHours(hs, ratio, cooldown).log)
  {
    var log := RunHours(hs, ratio, cooldown).log;
    if hs != [] {
      RunInv(hs, ratio, cooldown);
      forall i, j | 0 <= i < j < |log| && SameLife(log[i], log[j]) ensures log[j].row.level < log[i].row.level {
        assert PairOk(log[i], log[j], cooldown);
      }
    }
  }

  /** At most three reminders go out between two swaps of a device. */
  lemma AtMostThree(hs: seq<Hour>, ratio: real, cooldown: int, i: nat, j: nat, k: nat, l: nat)
    requires ClockForward(hs) && cooldown > 0 && i < j < k < l < |RunHours(hs, ratio, cooldown).log|
    ensures var log := RunHours(hs, ratio, cooldown).log;
            !(SameLife(log[i], log[j]) && SameLife(log[j], log[k]) && SameLife(log[k], log[l]))
  {
    var log := RunHours(hs, ratio, cooldown).log;
    LevelsFall(hs, ratio, cooldown);
    if hs != [] {
      RunInv(hs, ratio, cooldown);
      assert EntryOk(RunHours(hs, ratio, cooldown), hs[|hs| - 1].now, log[i]) by {
        assert log[i] in log;
      }
      assert EntryOk(RunHours(hs, ratio, cooldown), hs[|hs| - 1].now, log[l]) by {
        assert log[l] in log;
      }
    }
  }

  /** An hour whose tables cannot be read changes nothing; any other gives each of its devices one scoring
      round, lost when the batch fuses or that device's write fails. */
  lemma HourIsRounds(w: World, h: Hour, i: nat, ratio: real, cooldown: int)
    requires Distinct(h.jobs) && i < |h.jobs|
    ensures h.aborted ==> HourStep(w, h, ratio, cooldown) == w
    ensures !h.aborted ==>
              SomeRound(w, HourStep(w, h, ratio, cooldown), h.jobs[i], Fused(Outcomes(w, h.jobs), ratio) || h.jobs[i].writeFails)
  {
    if !h.aborted {
      BatchIsOneRoundEach(w, h.jobs, i, h.now, ratio, cooldown);
    }
  }
}
