/** What holds after every interleaving of reports, sweeps, dispatches, pauses and resumes. */
module OtaCounters {
  import opened OtaBatch

  // ---- an account of terminal transitions that looks only at task rows

  /** The tasks of a batch that one step moved into a terminal state of the given kind. */
  function Turned(pre: Db, post: Db, id: int, good: bool): set<string> {
    set k | k in pre.tasks && k in post.tasks && k.0 == id && !IsTerminal(pre.tasks[k].status)
            && IsTerminal(post.tasks[k].status) && (post.tasks[k].status == Success) == good :: k.1
  }

  /** How many tasks turned terminal while their batch was running or paused. */
  function CountedTurns(db: Db, cfg: Config, actions: seq<Action>, id: int, good: bool): nat {
    if actions == [] then 0
    else
      var pre := Run(db, cfg, actions[..|actions| - 1]);
      CountedTurns(db, cfg, actions[..|actions| - 1], id, good) +
      (if id in pre.batches && Counting(pre.batches[id].status)
       then |Turned(pre, Step(pre, cfg, actions[|actions| - 1]), id, good)| else 0)
  }

  /** How often one task turned terminal. */
  function TimesTurned(db: Db, cfg: Config, actions: seq<Action>, k: (int, string)): nat {
    if actions == [] then 0
    else
      var pre := Run(db, cfg, actions[..|actions| - 1]);
      var post := Step(pre, cfg, actions[|actions| - 1]);
      TimesTurned(db, cfg, actions[..|actions| - 1], k) +
      (if k.1 in Turned(pre, post, k.0, true) + Turned(pre, post, k.0, false) then 1 else 0)
  }

  ghost predicate WellFormed(db: Db) {
    forall k :: k in db.tasks ==> k.0 in db.batches
  }

  // ---- single steps

  lemma ApplyTurns(db: Db, cfg: Config, c: PhaseChange, id: int, good: bool)
    ensures Turned(db, ApplyPhase(db, cfg, c), id, good) ==
            if TaskMatches(db, c) && c.batch == id && IsTerminal(c.phase) && (c.phase == Success) == good then {c.sn} else {}
  {
  }

  lemma QuietTurns(pre: Db, post: Db, id: int, good: bool)
    requires forall k :: k in pre.tasks && k in post.tasks && IsTerminal(post.tasks[k].status) ==> post.tasks[k] == pre.tasks[k]
    ensures Turned(pre, post, id, good) == {}
  {
  }

  lemma CreateTasks(db: Db, id: int, sns: set<string>, threshold: real)
    ensures forall k :: k in db.tasks ==> k in Create(db, id, sns, threshold).tasks
                                          && Create(db, id, sns, threshold).tasks[k] == db.tasks[k]
    ensures forall k :: k in Create(db, id, sns, threshold).tasks ==> k in db.tasks || k.0 == id
  {
  }

  /** A terminal row is never written again. */
  lemma TerminalStays(db: Db, cfg: Config, a: Action, k: (int, string))
    requires k in db.tasks && IsTerminal(db.tasks[k].status)
    ensures k in Step(db, cfg, a).tasks && Step(db, cfg, a).tasks[k] == db.tasks[k]
  {
    match a
    case CreateBatch(id, sns, threshold) => CreateTasks(db, id, sns, threshold);
    case _ =>
  }

  lemma KeyStays(db: Db, cfg: Config, a: Action)
    requires WellFormed(db)
    ensures WellFormed(Step(db, cfg, a))
    ensures forall k :: k in db.tasks ==> k in Step(db, cfg, a).tasks
    ensures forall id :: id in db.batches ==> id in Step(db, cfg, a).batches
  {
    match a
    case CreateBatch(id, sns, threshold) => CreateTasks(db, id, sns, threshold);
    case _ =>
  }

  /** How the counters of a batch move between two states. */
  ghost predicate CountsTurns(pre: Db, post: Db, id: int)
    requires id in pre.batches
  {
    var counting := Counting(pre.batches[id].status);
    && id in post.batches
    && post.batches[id].ok == pre.batches[id].ok + (if counting then |Turned(pre, post, id, true)| else 0)
    && post.batches[id].fail == pre.batches[id].fail + (if counting then |Turned(pre, post, id, false)| else 0)
  }

  lemma ApplyCounts(db: Db, cfg: Config, c: PhaseChange, id: int)
    requires id in db.batches
    ensures CountsTurns(db, ApplyPhase(db, cfg, c), id)
  {
    ApplyTurns(db, cfg, c, id, true);
    ApplyTurns(db, cfg, c, id, false);
  }

  lemma QuietCounts(pre: Db, post: Db, id: int)
    requires id in pre.batches && id in post.batches
    requires post.batches[id].ok == pre.batches[id].ok && post.batches[id].fail == pre.batches[id].fail
    requires forall k :: k in pre.tasks && k in post.tasks && IsTerminal(post.tasks[k].status) ==> post.tasks[k] == pre.tasks[k]
    ensures CountsTurns(pre, post, id)
  {
    QuietTurns(pre, post, id, true);
    QuietTurns(pre, post, id, false);
  }

  /** What one step adds to a batch's counters is what its task rows show. */
  lemma StepCounts(db: Db, cfg: Config, a: Action, id: int)
    requires id in db.batches
    ensures CountsTurns(db, Step(db, cfg, a), id)
  {
    match a
    case Report(b, sn, phase) =>
      if phase == Pending {
        QuietCounts(db, db, id);
      } else {
        ApplyCounts(db, cfg, ReportChange(b, sn, phase), id);
      }
    case SweepOne(b, sn, older) =>
      if older <= 0 {
        QuietCounts(db, db, id);
      } else {
        ApplyCounts(db, cfg, StaleChange(b, sn, older), id);
      }
    case CreateBatch(b, sns, threshold) =>
      CreateTasks(db, b, sns, threshold);
      QuietCounts(db, Step(db, cfg, a), id);
    case _ => QuietCounts(db, Step(db, cfg, a), id);
  }

  // ---- runs

  lemma {:induction false} RunWellFormed(cfg: Config, actions: seq<Action>)
    ensures WellFormed(Run(EMPTY, cfg, actions))
  {
    if actions != [] {
      RunWellFormed(cfg, actions[..|actions| - 1]);
      KeyStays(Run(EMPTY, cfg, actions[..|actions| - 1]), cfg, actions[|actions| - 1]);
    }
  }

  /** The counters equal the tasks that became terminal while the batch was running or paused. */
  lemma {:induction false} CountersMatchTasks(cfg: Config, actions: seq<Action>, id: int)
    ensures var db := Run(EMPTY, cfg, actions);
            if id in db.batches
            then db.batches[id].ok == CountedTurns(EMPTY, cfg, actions, id, true)
                 && db.batches[id].fail == CountedTurns(EMPTY, cfg, actions, id, false)
            else CountedTurns(EMPTY, cfg, actions, id, true) == 0 == CountedTurns(EMPTY, cfg, actions, id, false)
  {
    if actions != [] {
      var init, last := actions[..|actions| - 1], actions[|actions| - 1];
      var pre := Run(EMPTY, cfg, init);
      CountersMatchTasks(cfg, init, id);
      RunWellFormed(cfg, init);
      if id in pre.batches {
        StepCounts(pre, cfg, last, id);
      }
    }
  }

  /** A terminal task keeps its whole row for the rest of every run. */
  lemma {:induction false} TerminalForever(db: Db, cfg: Config, actions: seq<Action>, k: (int, string))
    requires k in db.tasks && IsTerminal(db.tasks[k].status)
    ensures k in Run(db, cfg, actions).tasks && Run(db, cfg, actions).tasks[k] == db.tasks[k]
  {
    if actions != [] {
      TerminalForever(db, cfg, actions[..|actions| - 1], k);
      TerminalStays(Run(db, cfg, actions[..|actions| - 1]), cfg, actions[|actions| - 1], k);
    }
  }

  predicate Ended(db: Db, k: (int, string)) {
    k in db.tasks && IsTerminal(db.tasks[k].status)
  }

  /** A step turns a task terminal exactly when the task ends in it. */
  lemma StepTurns(db: Db, cfg: Config, a: Action, k: (int, string))
    requires WellFormed(db)
    ensures var post := Step(db, cfg, a);
            && (Ended(db, k) ==> Ended(post, k))
            && (k.1 in Turned(db, post, k.0, true) + Turned(db, post, k.0, false) <==> Ended(post, k) && !Ended(db, k))
  {
    KeyStays(db, cfg, a);
    if Ended(db, k) {
      TerminalStays(db, cfg, a, k);
    }
    TurnedIff(db, Step(db, cfg, a), k);
    if k !in db.tasks {
      NewTasksPending(db, cfg, a, k);
    }
  }

  /** Each task turns terminal at most once, and exactly once if it ends up terminal. */
  lemma {:induction false} TurnedOnce(cfg: Config, actions: seq<Action>, k: (int, string))
    ensures TimesTurned(EMPTY, cfg, actions, k) == if Ended(Run(EMPTY, cfg, actions), k) then 1 else 0
  {
    if actions != [] {
      var init, last := actions[..|actions| - 1], actions[|actions| - 1];
      TurnedOnce(cfg, init, k);
      RunWellFormed(cfg, init);
      StepTurns(Run(EMPTY, cfg, init), cfg, last, k);
    }
  }

  lemma TurnedIff(pre: Db, post: Db, k: (int, string))
    ensures k.1 in Turned(pre, post, k.0, true) + Turned(pre, post, k.0, false) <==>
            k in pre.tasks && k in post.tasks && !IsTerminal(pre.tasks[k].status) && IsTerminal(post.tasks[k].status)
  {
    assert k == (k.0, k.1);
  }

  lemma NewTasksPending(pre: Db, cfg: Config, a: Action, k: (int, string))
    requires k !in pre.tasks
    ensures k in Step(pre, cfg, a).tasks ==> Step(pre, cfg, a).tasks[k].status == Pending
  {
  }

  // ---- the fuse

  ghost predicate RunsPastFuse(db: Db, cfg: Config, id: int) {
    id in db.batches && db.batches[id].status == Running && FuseDue(db.batches[id], cfg)
  }

  /** The step is a resume that puts a batch back to running although its fuse is due. */
  ghost predicate ResumesPastFuse(db: Db, cfg: Config, a: Action, id: int) {
    && a == Resume(id) && id in db.batches && db.batches[id].status in {Paused, Fused}
    && FuseDue(db.batches[id], cfg)
  }

  lemma StepFuse(db: Db, cfg: Config, a: Action, id: int)
    requires !RunsPastFuse(db, cfg, id)
    ensures RunsPastFuse(Step(db, cfg, a), cfg, id) <==> ResumesPastFuse(db, cfg, a, id)
  {
  }

  /** A batch is never running with its fuse due exactly when nobody resumed it in that condition. */
  lemma {:induction false} FuseExact(cfg: Config, actions: seq<Action>, id: int)
    ensures (forall n :: 0 <= n <= |actions| ==> !RunsPastFuse(Run(EMPTY, cfg, actions[..n]), cfg, id)) <==>
            (forall n :: 0 <= n < |actions| ==> !ResumesPastFuse(Run(EMPTY, cfg, actions[..n]), cfg, actions[n], id))
  {
    if forall n :: 0 <= n <= |actions| ==> !RunsPastFuse(Run(EMPTY, cfg, actions[..n]), cfg, id) {
      forall n | 0 <= n < |actions| ensures !ResumesPastFuse(Run(EMPTY, cfg, actions[..n]), cfg, actions[n], id) {
        assert actions[..n + 1][..n] == actions[..n];
        StepFuse(Run(EMPTY, cfg, actions[..n]), cfg, actions[n], id);
        assert !RunsPastFuse(Run(EMPTY, cfg, actions[..n + 1]), cfg, id);
      }
    }
    if forall n :: 0 <= n < |actions| ==> !ResumesPastFuse(Run(EMPTY, cfg, actions[..n]), cfg, actions[n], id) {
      forall n | 0 <= n <= |actions| ensures !RunsPastFuse(Run(EMPTY, cfg, actions[..n]), cfg, id) {
        NoBadResume(cfg, actions, id, n);
      }
    }
  }

  lemma {:induction false} NoBadResume(cfg: Config, actions: seq<Action>, id: int, n: nat)
    requires n <= |actions|
    requires forall m :: 0 <= m < |actions| ==> !ResumesPastFuse(Run(EMPTY, cfg, actions[..m]), cfg, actions[m], id)
    ensures !RunsPastFuse(Run(EMPTY, cfg, actions[..n]), cfg, id)
  {
    if n > 0 {
      NoBadResume(cfg, actions, id, n - 1);
      assert actions[..n][..n - 1] == actions[..n - 1];
      StepFuse(Run(EMPTY, cfg, actions[..n - 1]), cfg, actions[n - 1], id);
    }
  }

  /** Too few samples, or no more failures than the threshold's share; and fewer than a positive limit. */
  predicate WithinLimits(b: Batch, cfg: Config) {
    && (b.ok + b.fail < cfg.minSamples || b.ok + b.fail == 0 || b.fail as real <= b.threshold * (b.ok + b.fail) as real)
    && (cfg.minAbsFail <= 0 || b.fail < cfg.minAbsFail)
  }

  /** A batch that is never paused or resumed never runs past its fuse,
      and its failures never exceed a positive absolute limit. */
  lemma {:induction false} NeverPausedNeverExceeds(cfg: Config, actions: seq<Action>, id: int)
    requires Pause(id) !in actions && Resume(id) !in actions
    ensures var db := Run(EMPTY, cfg, actions);
            id in db.batches ==>
              && db.batches[id].status != Paused
              && !RunsPastFuse(db, cfg, id)
              && (cfg.minAbsFail > 0 ==> db.batches[id].fail <= cfg.minAbsFail)
  {
    if actions != [] {
      var init, last := actions[..|actions| - 1], actions[|actions| - 1];
      assert last in actions && forall a :: a in init ==> a in actions;
      NeverPausedNeverExceeds(cfg, init, id);
      StepFuse(Run(EMPTY, cfg, init), cfg, last, id);
    }
  }

  /** So it never runs with enough samples and more failures than its threshold allows. */
  lemma UnpausedWithinLimits(cfg: Config, actions: seq<Action>, id: int)
    requires Pause(id) !in actions && Resume(id) !in actions
    ensures var db := Run(EMPTY, cfg, actions);
            id in db.batches && db.batches[id].status == Running ==> WithinLimits(db.batches[id], cfg)
  {
    NeverPausedNeverExceeds(cfg, actions, id);
    var db := Run(EMPTY, cfg, actions);
    if id in db.batches {
      var b := db.batches[id];
      FuseMeans(b.ok, b.fail, b.threshold, cfg.minSamples, cfg.minAbsFail);
    }
  }

  /** Resuming a fused batch leaves it running with the fuse due, until the next terminal report. */
  lemma ResumedPastFuse()
    ensures var cfg := Config(50, 1);
            var actions := [CreateBatch(1, {"A"}, 0.02), Report(1, "A", Failed), Resume(1)];
            RunsPastFuse(Run(EMPTY, cfg, actions), cfg, 1)
  {
    var cfg := Config(50, 1);
    var create, report := CreateBatch(1, {"A"}, 0.02), Report(1, "A", Failed);
    RunAppend(EMPTY, cfg, [], create);
    RunAppend(EMPTY, cfg, [create], report);
    RunAppend(EMPTY, cfg, [create, report], Resume(1));
    assert (1, "A") in Run(EMPTY, cfg, [create]).tasks;
  }

  lemma RunAppend(db: Db, cfg: Config, actions: seq<Action>, a: Action)
    ensures Run(db, cfg, actions + [a]) == Step(Run(db, cfg, actions), cfg, a)
  {
    assert (actions + [a])[..|actions|] == actions;
  }
}
