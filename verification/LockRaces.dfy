/** Reconcile passes and unlocks interleaved statement by statement: each device's read and its merge
    are two steps, and any unlock or other pass may come between them. */
module LockRaces {
  import opened Basics
  import opened LockReconcile

  /** A device between a pass's read and its merge: what was read and decided, and the end of the
      last unlock since the read that no other pass has cleared. */
  datatype Turn = Turn(sn: string, should: bool, seen: Desired, patch: Patch, renewed: Option<int>)

  /** A pass works with the clock reading it began with. */
  datatype Pass = Pass(now: int, turn: Option<Turn>)

  datatype World = World(clock: int, rows: Rows, passes: map<int, Pass>)

  datatype Step =
    | Tick(d: nat)
    | Begin(p: int)
    | Read(p: int, sn: string, should: bool)
    | Write(p: int, ok: bool)
    | Unlock(sn: string, expires: int)

  const START := World(0, map[], map[])

  predicate InTurn(w: World, p: int) {
    p in w.passes && w.passes[p].turn.Some?
  }

  function TurnOf(w: World, p: int): Turn
    requires InTurn(w, p)
  {
    w.passes[p].turn.value
  }

  function Note(pass: Pass, sn: string, renewed: Option<int>): Pass {
    if pass.turn.Some? && pass.turn.value.sn == sn then pass.(turn := Some(pass.turn.value.(renewed := renewed))) else pass
  }

  function NoteAll(passes: map<int, Pass>, sn: string, renewed: Option<int>): map<int, Pass> {
    map p | p in passes :: Note(passes[p], sn, renewed)
  }

  function ReadStep(w: World, p: int, sn: string, should: bool): World {
    if p !in w.passes || w.passes[p].turn.Some? then w
    else
      var seen := Get(w.rows, sn);
      var patch := ReconcileLock(should, seen, w.passes[p].now);
      if patch.None? then w
      else w.(passes := w.passes[p := w.passes[p].(turn := Some(Turn(sn, should, seen, patch.value, None)))])
  }

  function WriteStep(w: World, p: int, ok: bool): World {
    if !InTurn(w, p) then w
    else
      var t := TurnOf(w, p);
      var done := w.passes[p := w.passes[p].(turn := None)];
      if !ok then w.(passes := done)
      else World(w.clock, Upsert(w.rows, t.sn, t.patch), if t.patch.expiry.Clear? then NoteAll(done, t.sn, None) else done)
  }

  function Take(w: World, s: Step): World {
    match s
    case Tick(d) => w.(clock := w.clock + d)
    case Begin(p) => w.(passes := w.passes[p := Pass(w.clock, None)])
    case Read(p, sn, should) => ReadStep(w, p, sn, should)
    case Write(p, ok) => WriteStep(w, p, ok)
    case Unlock(sn, expires) =>
      w.(rows := Upsert(w.rows, sn, Patch(false, Until(expires))), passes := NoteAll(w.passes, sn, Some(expires)))
  }

  function Run(steps: seq<Step>): World {
    if steps == [] then START else Take(Run(steps[..|steps| - 1]), steps[|steps| - 1])
  }

  /** A read decides on the row as it stands, with the clock of its pass, and writes nothing. */
  lemma ReadMeans(w: World, p: int, sn: string, should: bool, seen: Desired, patch: Option<Patch>)
    requires p in w.passes && w.passes[p].turn.None?
    requires seen == if sn in w.rows then Desired(w.rows[sn].lock, w.rows[sn].expires) else Desired(None, None)
    requires patch == ReconcileLock(should, seen, w.passes[p].now)
    ensures patch == None ==> ReadStep(w, p, sn, should) == w
    ensures patch != None ==>
              ReadStep(w, p, sn, should)
              == World(w.clock, w.rows, w.passes[p := Pass(w.passes[p].now, Some(Turn(sn, should, seen, patch.value, None)))])
  {
  }

  /** A merge writes the patch decided at the read to the row as it is now, and ends the turn; no other pass
      moves, but a merge that clears the end clears it from what other turns of the device remember. */
  lemma WriteMeans(w: World, p: int, ok: bool)
    requires p in w.passes && w.passes[p].turn.Some?
    ensures var t := w.passes[p].turn.value;
            var post := WriteStep(w, p, ok);
            && post.clock == w.clock && post.rows == (if ok then Upsert(w.rows, t.sn, t.patch) else w.rows)
            && post.passes.Keys == w.passes.Keys && post.passes[p] == Pass(w.passes[p].now, None)
            && (forall q :: q in w.passes && q != p ==>
                  post.passes[q] == Remembers(w.passes[q], t.sn, None, ok && t.patch.expiry == Clear))
  {
  }

  function Remembers(pass: Pass, sn: string, end: Option<int>, changed: bool): Pass {
    match pass.turn
    case Some(t) => if changed && t.sn == sn then Pass(pass.now, Some(Turn(t.sn, t.should, t.seen, t.patch, end))) else pass
    case None => pass
  }

  /** An unlock writes its row at once and is remembered by every turn of its device. */
  lemma UnlockMeans(w: World, sn: string, end: int)
    ensures var post := Take(w, Unlock(sn, end));
            && post.clock == w.clock && post.rows == Upsert(w.rows, sn, Patch(false, Until(end)))
            && post.passes.Keys == w.passes.Keys
            && (forall q :: q in w.passes ==> post.passes[q] == Remembers(w.passes[q], sn, Some(end), true))
  {
  }

  // ---- what a turn knows

  ghost predicate TurnOk(w: World, now: int, t: Turn) {
    && ReconcileLock(t.should, t.seen, now) == Some(t.patch)
    && (if t.renewed.Some? then Get(w.rows, t.sn).expires == t.renewed
        else Get(w.rows, t.sn).expires == None || Get(w.rows, t.sn).expires == t.seen.expires)
  }

  ghost predicate PassOk(w: World, pass: Pass) {
    pass.now <= w.clock && (pass.turn.Some? ==> TurnOk(w, pass.now, pass.turn.value))
  }

  ghost predicate Inv(w: World) {
    forall p :: p in w.passes ==> PassOk(w, w.passes[p])
  }

  lemma WriteKeeps(w: World, p: int)
    requires Inv(w) && InTurn(w, p)
    ensures Inv(WriteStep(w, p, true))
  {
    var t := TurnOf(w, p);
    var post := WriteStep(w, p, true);
    UpsertLeaves(w.rows, t.sn, t.patch);
    assert PassOk(w, w.passes[p]);
    forall q | q in post.passes ensures PassOk(post, post.passes[q]) {
      assert PassOk(w, w.passes[q]);
    }
  }

  lemma UnlockKeeps(w: World, sn: string, expires: int)
    requires Inv(w)
    ensures Inv(Take(w, Unlock(sn, expires)))
  {
    var post := Take(w, Unlock(sn, expires));
    UpsertLeaves(w.rows, sn, Patch(false, Until(expires)));
    forall q | q in post.passes ensures PassOk(post, post.passes[q]) {
      assert PassOk(w, w.passes[q]);
    }
  }

  lemma StepKeeps(w: World, s: Step)
    requires Inv(w)
    ensures Inv(Take(w, s))
  {
    match s
    case Unlock(sn, expires) => UnlockKeeps(w, sn, expires);
    case Write(p, ok) => if ok && InTurn(w, p) { WriteKeeps(w, p); } else { OldPasses(w, Take(w, s), p); }
    case Read(p, sn, should) => OldPasses(w, Take(w, s), p);
    case Begin(p) => OldPasses(w, Take(w, s), p);
    case Tick(_) => OldPasses(w, Take(w, s), 0);
  }

  lemma OldPasses(w: World, post: World, p: int)
    requires Inv(w) && post.rows == w.rows && w.clock <= post.clock
    requires forall q :: q in post.passes && q != p ==> q in w.passes && post.passes[q] == w.passes[q]
    requires p in post.passes ==>
               || (p in w.passes && post.passes[p] == w.passes[p])
               || (p in w.passes && post.passes[p] == w.passes[p].(turn := None))
               || PassOk(post, post.passes[p])
    ensures Inv(post)
  {
    forall q | q in post.passes ensures PassOk(post, post.passes[q]) {
      if q in w.passes {
        assert PassOk(w, w.passes[q]);
      }
    }
  }

  lemma {:induction false} RunInv(steps: seq<Step>)
    ensures Inv(Run(steps))
  {
    if steps != [] {
      RunInv(steps[..|steps| - 1]);
      StepKeeps(Run(steps[..|steps| - 1]), steps[|steps| - 1]);
    }
  }

  // ---- when a live unlock is overridden

  /** A merge that changes the lock fields of a device under a live unlock. */
  predicate Overrides(w: World, s: Step) {
    && s.Write? && s.ok && InTurn(w, s.p)
    && var t := TurnOf(w, s.p);
       LiveUnlock(Get(w.rows, t.sn), w.clock) && Merge(Get(w.rows, t.sn), t.patch) != Get(w.rows, t.sn)
  }

  /** A merge after an unlock that came since the read and has not ended, whose patch clears the end
      or sets the other lock value. */
  predicate Races(w: World, s: Step) {
    && s.Write? && s.ok && InTurn(w, s.p)
    && var t := TurnOf(w, s.p);
       && t.renewed.Some? && w.clock < t.renewed.value
       && (t.patch.expiry.Clear? || Get(w.rows, t.sn).lock != Some(t.patch.lock))
  }

  lemma OverrideIsRace(w: World, s: Step)
    requires Inv(w)
    ensures Overrides(w, s) <==> Races(w, s)
  {
    if s.Write? && InTurn(w, s.p) {
      assert PassOk(w, w.passes[s.p]);
    }
  }

  /** Over every interleaving, a live unlock is overridden exactly when an unlock that has not ended
      falls between a device's read and its merge, and the merge says something else. */
  lemma OverrideExact(steps: seq<Step>)
    ensures (exists n :: 0 <= n < |steps| && Overrides(Run(steps[..n]), steps[n])) <==>
            (exists n :: 0 <= n < |steps| && Races(Run(steps[..n]), steps[n]))
  {
    forall n | 0 <= n < |steps| ensures Overrides(Run(steps[..n]), steps[n]) <==> Races(Run(steps[..n]), steps[n]) {
      RunInv(steps[..n]);
      OverrideIsRace(Run(steps[..n]), steps[n]);
    }
  }

  /** An unlock of sn ending at e, at position m of the run, while pass p is between read and merge. */
  predicate UnlockDuringTurn(steps: seq<Step>, m: nat, p: int, sn: string, e: int) {
    m < |steps| && steps[m] == Unlock(sn, e) && InTurn(Run(steps[..m]), p) && TurnOf(Run(steps[..m]), p).sn == sn
  }

  /** What renewed records is an unlock of the same device that fell into this turn. */
  lemma {:induction false} RenewedIsUnlock(steps: seq<Step>, p: int)
    requires InTurn(Run(steps), p) && TurnOf(Run(steps), p).renewed.Some?
    ensures var t := TurnOf(Run(steps), p);
            exists m: nat :: UnlockDuringTurn(steps, m, p, t.sn, t.renewed.value)
  {
    var k := |steps| - 1;
    var t := TurnOf(Run(steps), p);
    var before := Run(steps[..k]);
    if steps[k] == Unlock(t.sn, t.renewed.value) {
      assert UnlockDuringTurn(steps, k, p, t.sn, t.renewed.value);
    } else {
      assert InTurn(before, p) && TurnOf(before, p) == t;
      RenewedIsUnlock(steps[..k], p);
      var m: nat :| UnlockDuringTurn(steps[..k], m, p, t.sn, t.renewed.value);
      assert steps[..k][..m] == steps[..m];
      assert UnlockDuringTurn(steps, m, p, t.sn, t.renewed.value);
    }
  }

  /** At its scheduled value, with no unlock running; an end that is over may still stand. */
  predicate Settled(d: Desired, should: bool, clock: int) {
    d.lock == Some(should) && !LiveUnlock(d, clock)
  }

  /** Every turn that overrides nothing reaches the device's goal, whatever happened to other devices or
      in other passes in between: at its read when there is nothing to write, and otherwise at its merge.
      An unlock that came in between and still runs is left as it is. After one that has ended, the
      device is at its scheduled value, with the old end gone if and only if the patch clears it. */
  lemma TurnReachesGoal(steps: seq<Step>, s: Step)
    ensures var w, post := Run(steps), Take(Run(steps), s);
            && (s.Read? && s.p in w.passes && !InTurn(w, s.p) && !InTurn(post, s.p) ==>
                  Get(post.rows, s.sn) == Goal(s.should, Get(post.rows, s.sn), w.passes[s.p].now))
            && (s.Write? && InTurn(w, s.p) && !Races(w, s) ==> TurnEnds(w, post, s.p, s.ok))
  {
    RunInv(steps);
    var w := Run(steps);
    if s.Write? && s.p in w.passes {
      assert PassOk(w, w.passes[s.p]);
    }
  }

  predicate TurnEnds(w: World, post: World, p: int, ok: bool)
    requires InTurn(w, p)
  {
    var t := TurnOf(w, p);
    var before, after := Get(w.rows, t.sn), Get(post.rows, t.sn);
    if !ok then post.rows == w.rows
    else if t.renewed.None? then !LiveUnlock(before, w.clock) && after == Goal(t.should, before, w.passes[p].now)
    else if w.clock < t.renewed.value then after == before == Goal(t.should, before, w.passes[p].now)
    else Settled(after, t.should, w.clock) && (after.expires.None? <==> t.patch.expiry.Clear?)
  }

  // ---- the races, and what they leave behind

  lemma RunAppend(steps: seq<Step>, s: Step)
    ensures Run(steps + [s]) == Take(Run(steps), s)
  {
    assert (steps + [s])[..|steps|] == steps;
  }

  /** No pass repairs a device that a race left locked with a live end, before that end. */
  lemma LockedUntilEnd(e: int, should: bool, now: int)
    ensures ReconcileLock(should, Desired(Some(true), Some(e)), now).None? <==> now < e
  {
  }

  /** An unlock between read and merge: the device is locked again, and stays so until the unlock ends. */
  lemma UnlockLost(sn: string, e: int)
    requires e > 0
    ensures var steps := [Begin(1), Read(1, sn, true), Unlock(sn, e), Write(1, true)];
            && Run(steps).clock < e
            && Get(Run(steps).rows, sn) == Desired(Some(true), Some(e))
            && Races(Run(steps[..3]), steps[3])
  {
    var s1, s2 := [Begin(1)], [Begin(1), Read(1, sn, true)];
    var s3 := [Begin(1), Read(1, sn, true), Unlock(sn, e)];
    var s4 := [Begin(1), Read(1, sn, true), Unlock(sn, e), Write(1, true)];
    assert s1 == [] + [Begin(1)] && s2 == s1 + [Read(1, sn, true)] && s3 == s2 + [Unlock(sn, e)] && s4 == s3 + [Write(1, true)];
    RunAppend([], Begin(1));
    RunAppend(s1, Read(1, sn, true));
    assert InTurn(Run(s2), 1) && TurnOf(Run(s2), 1) == Turn(sn, true, Desired(None, None), Patch(true, Keep), None);
    RunAppend(s2, Unlock(sn, e));
    assert InTurn(Run(s3), 1) && TurnOf(Run(s3), 1).renewed == Some(e) && Get(Run(s3).rows, sn) == Desired(Some(false), Some(e));
    RunAppend(s3, Write(1, true));
    assert s4[..3] == s3;
  }

  /** A renewal between the read of an ended unlock and its merge: the new end is erased. */
  lemma RenewalErased(sn: string, e: int, d: nat, later: int)
    requires 0 <= e <= d < later
    ensures var steps := [Unlock(sn, e), Tick(d), Begin(1), Read(1, sn, true), Unlock(sn, later), Write(1, true)];
            && Get(Run(steps[..5]).rows, sn) == Desired(Some(false), Some(later))
            && Get(Run(steps).rows, sn) == Desired(Some(true), None)
  {
    var s1, s2 := [Unlock(sn, e)], [Unlock(sn, e), Tick(d)];
    var s3 := [Unlock(sn, e), Tick(d), Begin(1)];
    var s4 := [Unlock(sn, e), Tick(d), Begin(1), Read(1, sn, true)];
    var s5 := [Unlock(sn, e), Tick(d), Begin(1), Read(1, sn, true), Unlock(sn, later)];
    var s6 := [Unlock(sn, e), Tick(d), Begin(1), Read(1, sn, true), Unlock(sn, later), Write(1, true)];
    assert s1 == [] + [Unlock(sn, e)] && s2 == s1 + [Tick(d)] && s3 == s2 + [Begin(1)];
    assert s4 == s3 + [Read(1, sn, true)] && s5 == s4 + [Unlock(sn, later)] && s6 == s5 + [Write(1, true)] && s6[..5] == s5;
    RunAppend([], Unlock(sn, e));
    RunAppend(s1, Tick(d));
    RunAppend(s2, Begin(1));
    assert Get(Run(s3).rows, sn) == Desired(Some(false), Some(e)) && Run(s3).passes == map[1 := Pass(d, None)];
    RunAppend(s3, Read(1, sn, true));
    assert InTurn(Run(s4), 1) && TurnOf(Run(s4), 1).patch == Patch(true, Clear);
    RunAppend(s4, Unlock(sn, later));
    assert InTurn(Run(s5), 1) && TurnOf(Run(s5), 1).patch == Patch(true, Clear);
    RunAppend(s5, Write(1, true));
  }
}
