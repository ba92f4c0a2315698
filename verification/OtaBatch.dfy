/** OTA batches: task phases, transactional counters and the failure fuse. */
module OtaBatch {
  import opened Basics

  datatype TaskStatus = Pending | Notified | Downloading | Verifying | Success | Failed | RolledBack

  datatype BatchStatus = Running | Paused | Fused | Completed

  datatype Task = Task(status: TaskStatus, retry: nat, updatedAt: int)

  datatype Batch = Batch(status: BatchStatus, ok: nat, fail: nat, threshold: real)

  /** The two tables and the database clock. */
  datatype Db = Db(now: int, batches: map<int, Batch>, tasks: map<(int, string), Task>)

  datatype Config = Config(minSamples: int, minAbsFail: int)

  /** One request to change a task: a device report, or the stale sweeper with staleFor > 0. */
  datatype PhaseChange = PhaseChange(batch: int, sn: string, phase: TaskStatus, retryInc: nat, staleFor: int)

  datatype Outcome = Ignored | Updated | Terminal | TripFuse

  predicate IsTerminal(s: TaskStatus) {
    s in {Success, Failed, RolledBack}
  }

  // ---- fuse.go

  predicate ShouldFuse(ok: int, fail: int, threshold: real, minSamples: int) {
    if ok < 0 || fail < 0 then false
    else
      var samples := ok + fail;
      if samples < minSamples || samples == 0 then false
      else fail as real / samples as real > threshold
  }

  predicate ShouldFuseAbs(ok: int, fail: int, threshold: real, minSamples: int, minAbsFail: int) {
    if ok < 0 || fail < 0 then false
    else if minAbsFail > 0 && fail >= minAbsFail then true
    else ShouldFuse(ok, fail, threshold, minSamples)
  }

  lemma RatioAsProduct(part: real, whole: real, t: real)
    requires whole > 0.0
    ensures part / whole > t <==> part > t * whole
  {
    var q := part / whole;
    assert q * whole == part;
    if q > t {
      assert (q - t) * whole > 0.0;
    } else {
      assert (t - q) * whole >= 0.0;
    }
  }

  /** The ratio fuse: enough samples, at least one, and more failures than the threshold's share of them. */
  lemma FuseMeans(ok: int, fail: int, threshold: real, minSamples: int, minAbsFail: int)
    ensures ShouldFuse(ok, fail, threshold, minSamples) <==>
              0 <= ok && 0 <= fail && ok + fail >= minSamples && ok + fail >= 1 && fail as real > threshold * (ok + fail) as real
    ensures ShouldFuseAbs(ok, fail, threshold, minSamples, minAbsFail) <==>
              0 <= ok && 0 <= fail
              && (  (minAbsFail > 0 && fail >= minAbsFail)
                 || (ok + fail >= minSamples && ok + fail >= 1 && fail as real > threshold * (ok + fail) as real))
  {
    if ok + fail >= 1 {
      RatioAsProduct(fail as real, (ok + fail) as real, threshold);
    }
  }

  predicate FuseDue(b: Batch, cfg: Config) {
    ShouldFuseAbs(b.ok, b.fail, b.threshold, cfg.minSamples, cfg.minAbsFail)
  }

  // ---- applyPhase, as one transaction

  predicate Counting(s: BatchStatus) {
    s == Running || s == Paused
  }

  /** The conditional UPDATE on the task row matches. */
  predicate TaskMatches(db: Db, c: PhaseChange) {
    && (c.batch, c.sn) in db.tasks
    && !IsTerminal(db.tasks[(c.batch, c.sn)].status)
    && (c.staleFor <= 0 || db.tasks[(c.batch, c.sn)].updatedAt < db.now - c.staleFor)
  }

  /** A report changes a task that has not ended; a sweep only one that has not moved for longer than asked. */
  lemma TaskMatchesMeans(db: Db, c: PhaseChange)
    ensures TaskMatches(db, c) <==>
              && (c.batch, c.sn) in db.tasks
              && var t := db.tasks[(c.batch, c.sn)];
                 t.status != Success && t.status != Failed && t.status != RolledBack
                 && (c.staleFor > 0 ==> db.now > t.updatedAt + c.staleFor)
  {
  }

  function MoveTask(db: Db, c: PhaseChange): Db
    requires TaskMatches(db, c)
  {
    var t := db.tasks[(c.batch, c.sn)];
    db.(tasks := db.tasks[(c.batch, c.sn) := Task(c.phase, t.retry + c.retryInc, db.now)])
  }

  function Count(b: Batch, phase: TaskStatus): Batch {
    if phase == Success then b.(ok := b.ok + 1) else b.(fail := b.fail + 1)
  }

  function CountAndFuse(b: Batch, phase: TaskStatus, cfg: Config): Batch {
    var counted := Count(b, phase);
    if counted.status == Running && FuseDue(counted, cfg) then counted.(status := Fused) else counted
  }

  /** A terminal change adds one to its counter, and trips the fuse of a running batch exactly when it is due then. */
  lemma CountMeans(b: Batch, phase: TaskStatus, cfg: Config)
    ensures var post := CountAndFuse(b, phase, cfg);
            && post.ok == b.ok + (if phase == Success then 1 else 0) && post.fail == b.fail + (if phase == Success then 0 else 1)
            && post.threshold == b.threshold
            && (b.status != Running ==> post.status == b.status)
            && (b.status == Running ==>
                  post.status == if ShouldFuseAbs(post.ok, post.fail, b.threshold, cfg.minSamples, cfg.minAbsFail) then Fused else Running)
  {
  }

  function ApplyPhase(db: Db, cfg: Config, c: PhaseChange): Db {
    if !TaskMatches(db, c) then db
    else
      var moved := MoveTask(db, c);
      if IsTerminal(c.phase) && c.batch in db.batches && Counting(db.batches[c.batch].status)
      then moved.(batches := db.batches[c.batch := CountAndFuse(db.batches[c.batch], c.phase, cfg)])
      else moved
  }

  function OutcomeOf(db: Db, cfg: Config, c: PhaseChange): Outcome {
    if !TaskMatches(db, c) then Ignored
    else if !IsTerminal(c.phase) then Updated
    else if c.batch in db.batches && Counting(db.batches[c.batch].status)
            && CountAndFuse(db.batches[c.batch], c.phase, cfg).status == Fused
    then TripFuse
    else Terminal
  }

  // ---- the other statements

  function SetStatus(db: Db, id: int, from: set<BatchStatus>, to: BatchStatus): Db {
    if id in db.batches && db.batches[id].status in from
    then db.(batches := db.batches[id := db.batches[id].(status := to)])
    else db
  }

  /** The dispatcher's UPDATE ... SET status='notified' WHERE status='pending'. */
  function Notify(db: Db, id: int, sn: string): Db {
    if (id, sn) in db.tasks && db.tasks[(id, sn)].status == Pending
    then db.(tasks := db.tasks[(id, sn) := db.tasks[(id, sn)].(status := Notified, updatedAt := db.now)])
    else db
  }

  function NewTasks(db: Db, id: int, sns: set<string>): map<(int, string), Task> {
    map sn | sn in sns :: (id, sn) := Task(Pending, 0, db.now)
  }

  function Create(db: Db, id: int, sns: set<string>, threshold: real): Db {
    if id in db.batches then db
    else db.(batches := db.batches[id := Batch(Running, 0, 0, threshold)], tasks := NewTasks(db, id, sns) + db.tasks)
  }

  datatype Action =
    | CreateBatch(id: int, sns: set<string>, threshold: real)
    | Report(id: int, sn: string, phase: TaskStatus)
    | SweepOne(id: int, sn: string, olderThan: int)
    | Dispatch(id: int, sn: string)
    | Pause(id: int)
    | Resume(id: int)
    | Complete(id: int)
    | Tick(seconds: nat)

  function ReportChange(id: int, sn: string, phase: TaskStatus): PhaseChange {
    PhaseChange(id, sn, phase, if phase == Failed then 1 else 0, 0)
  }

  function StaleChange(id: int, sn: string, olderThan: int): PhaseChange {
    PhaseChange(id, sn, Failed, 0, olderThan)
  }

  function Step(db: Db, cfg: Config, a: Action): Db {
    match a
    case CreateBatch(id, sns, threshold) => Create(db, id, sns, threshold)
    case Report(id, sn, phase) => if phase == Pending then db else ApplyPhase(db, cfg, ReportChange(id, sn, phase))
    case SweepOne(id, sn, olderThan) => if olderThan <= 0 then db else ApplyPhase(db, cfg, StaleChange(id, sn, olderThan))
    case Dispatch(id, sn) => Notify(db, id, sn)
    case Pause(id) => SetStatus(db, id, {Running}, Paused)
    case Resume(id) => SetStatus(db, id, {Paused, Fused}, Running)
    case Complete(id) => SetStatus(db, id, {Running, Paused}, Completed)
    case Tick(seconds) => db.(now := db.now + seconds)
  }

  function Run(db: Db, cfg: Config, actions: seq<Action>): Db {
    if actions == [] then db else Step(Run(db, cfg, actions[..|actions| - 1]), cfg, actions[|actions| - 1])
  }

  const EMPTY := Db(0, map[], map[])

  // ---- the rows as they are updated in place

  class Store {
    var now: int
    var batches: map<int, Batch>
    var tasks: map<(int, string), Task>
    const cfg: Config

    function State(): Db
      reads this
    {
      Db(now, batches, tasks)
    }

    constructor (cfg: Config)
      ensures State() == EMPTY && this.cfg == cfg
    {
      this.cfg := cfg;
      now, batches, tasks := 0, map[], map[];
    }

    method Apply(c: PhaseChange) returns (out: Outcome)
      modifies this
      ensures State() == ApplyPhase(old(State()), cfg, c)
      ensures out == OutcomeOf(old(State()), cfg, c)
    {
      var key := (c.batch, c.sn);
      if key !in tasks || IsTerminal(tasks[key].status) {
        return Ignored;
      }
      if c.staleFor > 0 && tasks[key].updatedAt >= now - c.staleFor {
        return Ignored;
      }
      tasks := tasks[key := Task(c.phase, tasks[key].retry + c.retryInc, now)];
      if !IsTerminal(c.phase) {
        return Updated;
      }
      var okInc, failInc := 0, 0;
      if c.phase == Success {
        okInc := 1;
      } else {
        failInc := 1;
      }
      if c.batch !in batches || !Counting(batches[c.batch].status) {
        return Terminal;
      }
      var b := batches[c.batch];
      b := b.(ok := b.ok + okInc, fail := b.fail + failInc);
      out := Terminal;
      if b.status == Running && ShouldFuseAbs(b.ok, b.fail, b.threshold, cfg.minSamples, cfg.minAbsFail) {
        b := b.(status := Fused);
        out := TripFuse;
      }
      batches := batches[c.batch := b];
    }

    /** The transaction of one selected key, when those before it have been swept since start. */
    method FailStale(keys: seq<(int, string)>, i: nat, olderThan: int, ghost start: Db) returns (ended: bool)
      requires olderThan > 0 && i < |keys| && Selected(start, olderThan, keys)
      requires IsSwept(start, State(), cfg, keys[..i], olderThan)
      modifies this
      ensures IsSwept(start, State(), cfg, keys[..i + 1], olderThan) && ended
    {
      SweepOneMore(start, State(), cfg, olderThan, keys, i);
      var out := Apply(StaleChange(keys[i].0, keys[i].1, olderThan));
      return out == Terminal || out == TripFuse;
    }

    /** One sweep with no other writer at work: the keys the query returned are failed in turn, each in
        its own transaction, up to the first transaction that cannot be carried out (errorAt). */
    method SweepStale(keys: seq<(int, string)>, olderThan: int, errorAt: Option<nat>) returns (n: nat, failed: bool)
      requires olderThan > 0 ==> Selected(State(), olderThan, keys)
      modifies this
      ensures olderThan <= 0 ==> n == 0 && !failed && State() == old(State())
      ensures olderThan > 0 ==> n == SweptUpTo(keys, errorAt) && (failed <==> n < |keys|)
      ensures olderThan > 0 ==> IsSwept(old(State()), State(), cfg, keys[..n], olderThan)
    {
      n, failed := 0, false;
      if olderThan <= 0 {
        return;
      }
      for i := 0 to |keys|
        invariant n == i
        invariant errorAt.Some? ==> i <= errorAt.value
        invariant IsSwept(old(State()), State(), cfg, keys[..i], olderThan)
      {
        if errorAt == Some(i) {
          failed := true;
          return;
        }
        var ended := FailStale(keys, i, olderThan, old(State()));
        if ended {
          n := n + 1;
        }
      }
      assert keys[..|keys|] == keys;
    }
  }

  /** The statement's WHERE clause on one row. */
  predicate IsStale(t: Task, now: int, olderThan: int) {
    olderThan > 0 && t.status in {Notified, Downloading, Verifying} && t.updatedAt < now - olderThan
  }

  function StaleKeys(db: Db, olderThan: int): set<(int, string)> {
    set k | k in db.tasks && IsStale(db.tasks[k], db.now, olderThan)
  }

  /** Stale: told of the batch, not ended, and not moved for longer than asked. */
  lemma StaleMeans(db: Db, olderThan: int, k: (int, string))
    ensures k in StaleKeys(db, olderThan) <==>
              && olderThan > 0 && k in db.tasks && db.now > db.tasks[k].updatedAt + olderThan
              && (db.tasks[k].status == Notified || db.tasks[k].status == Downloading || db.tasks[k].status == Verifying)
  {
  }

  const SWEEP_LIMIT := 1000

  /** What the query may return: stale keys, each once, oldest first, and all of them up to the limit. */
  ghost predicate Selected(db: Db, olderThan: int, keys: seq<(int, string)>) {
    && (forall k :: k in keys ==> k in StaleKeys(db, olderThan))
    && (forall i, j :: 0 <= i < j < |keys| ==> keys[i] != keys[j])
    && (forall i, j :: 0 <= i < j < |keys| && keys[i] in db.tasks && keys[j] in db.tasks ==>
          db.tasks[keys[i]].updatedAt <= db.tasks[keys[j]].updatedAt)
    && (forall k, s :: k in keys && k in db.tasks && s in StaleKeys(db, olderThan) && s !in keys ==>
          db.tasks[k].updatedAt <= db.tasks[s].updatedAt)
    && |keys| == if |StaleKeys(db, olderThan)| < SWEEP_LIMIT then |StaleKeys(db, olderThan)| else SWEEP_LIMIT
  }

  function SweptUpTo(keys: seq<(int, string)>, errorAt: Option<nat>): nat {
    if errorAt.Some? && errorAt.value < |keys| then errorAt.value else |keys|
  }

  /** The task table once the keys have been failed: their retry counts stay, all other rows stay whole. */
  function Swept(db: Db, keys: seq<(int, string)>): map<(int, string), Task> {
    map k | k in db.tasks :: if k in keys then Task(Failed, db.tasks[k].retry, db.now) else db.tasks[k]
  }

  /** The sweep is a run of the keys' own transactions, and fails exactly those tasks. */
  ghost predicate IsSwept(pre: Db, post: Db, cfg: Config, keys: seq<(int, string)>, olderThan: int) {
    && post == Run(pre, cfg, SweepActions(keys, olderThan))
    && post.now == pre.now
    && post.tasks == Swept(pre, keys)
  }

  /** A selected key that has not had its turn still satisfies the transaction's own conditions. */
  lemma SelectedMatches(start: Db, db: Db, olderThan: int, keys: seq<(int, string)>, i: nat)
    requires olderThan > 0 && i < |keys| && Selected(start, olderThan, keys)
    requires db.now == start.now && db.tasks == Swept(start, keys[..i])
    ensures TaskMatches(db, StaleChange(keys[i].0, keys[i].1, olderThan))
    ensures Swept(start, keys[..i + 1]) == db.tasks[keys[i] := Task(Failed, db.tasks[keys[i]].retry, db.now)]
  {
    assert keys[i] in keys && keys[i] in StaleKeys(start, olderThan);
    assert keys[i] !in keys[..i];
    assert keys[..i + 1] == keys[..i] + [keys[i]];
  }

  lemma SweepOneMore(start: Db, db: Db, cfg: Config, olderThan: int, keys: seq<(int, string)>, i: nat)
    requires olderThan > 0 && i < |keys| && Selected(start, olderThan, keys)
    requires IsSwept(start, db, cfg, keys[..i], olderThan)
    ensures var c := StaleChange(keys[i].0, keys[i].1, olderThan);
            IsSwept(start, ApplyPhase(db, cfg, c), cfg, keys[..i + 1], olderThan) && OutcomeOf(db, cfg, c) in {Terminal, TripFuse}
  {
    SelectedMatches(start, db, olderThan, keys, i);
    assert SweepActions(keys[..i + 1], olderThan)[..i] == SweepActions(keys[..i], olderThan);
  }

  /** A sweep leaves no stale task behind, or it has failed as many of the oldest as its limit allows. */
  lemma SweepClears(pre: Db, post: Db, cfg: Config, keys: seq<(int, string)>, olderThan: int)
    requires olderThan > 0 && Selected(pre, olderThan, keys) && IsSwept(pre, post, cfg, keys, olderThan)
    ensures StaleKeys(post, olderThan) == StaleKeys(pre, olderThan) - KeySet(keys)
    ensures StaleKeys(post, olderThan) == {} || |keys| == SWEEP_LIMIT
  {
    assert forall k :: k in StaleKeys(post, olderThan) <==> k in StaleKeys(pre, olderThan) && k !in keys;
    KeySetSize(keys);
    if |keys| == |StaleKeys(pre, olderThan)| {
      SameSize(KeySet(keys), StaleKeys(pre, olderThan));
    }
  }

  function KeySet(keys: seq<(int, string)>): set<(int, string)> {
    set k | k in keys
  }

  lemma {:induction false} KeySetSize(keys: seq<(int, string)>)
    requires forall i, j :: 0 <= i < j < |keys| ==> keys[i] != keys[j]
    ensures |KeySet(keys)| == |keys|
  {
    if keys != [] {
      var init := keys[..|keys| - 1];
      KeySetSize(init);
      assert KeySet(keys) == KeySet(init) + {keys[|keys| - 1]};
    }
  }

  lemma {:induction false} SameSize(a: set<(int, string)>, b: set<(int, string)>)
    requires a <= b && |a| == |b|
    ensures a == b
  {
    if x :| x in a {
      SameSize(a - {x}, b - {x});
    }
  }

  function SweepActions(keys: seq<(int, string)>, olderThan: int): seq<Action> {
    seq(|keys|, i requires 0 <= i < |keys| => SweepOne(keys[i].0, keys[i].1, olderThan))
  }

  // ---- the statements, column by column

  predicate OtherTasksKept(db: Db, post: Db, id: int, sn: string) {
    post.tasks.Keys == db.tasks.Keys && forall k :: k in db.tasks && k != (id, sn) ==> post.tasks[k] == db.tasks[k]
  }

  predicate OtherBatchesKept(db: Db, post: Db, id: int) {
    post.batches.Keys == db.batches.Keys && forall b :: b in db.batches && b != id ==> post.batches[b] == db.batches[b]
  }

  /** A change that applies gives the task its phase, its retries and the time; a final phase counts in a batch
      that is running or paused, and in no other. Nothing else changes. */
  lemma ApplyMeans(db: Db, cfg: Config, c: PhaseChange)
    requires (c.batch, c.sn) in db.tasks && db.tasks[(c.batch, c.sn)].status !in {Success, Failed, RolledBack}
    requires c.staleFor > 0 ==> db.now > db.tasks[(c.batch, c.sn)].updatedAt + c.staleFor
    ensures var post := ApplyPhase(db, cfg, c);
            var ends := c.phase in {Success, Failed, RolledBack};
            var t := db.tasks[(c.batch, c.sn)];
            && post.now == db.now && OtherTasksKept(db, post, c.batch, c.sn) && OtherBatchesKept(db, post, c.batch)
            && post.tasks[(c.batch, c.sn)] == Task(c.phase, t.retry + c.retryInc, db.now)
            && (c.batch in db.batches ==>
                  post.batches[c.batch] == if ends && db.batches[c.batch].status in {Running, Paused}
                                           then CountAndFuse(db.batches[c.batch], c.phase, cfg)
                                           else db.batches[c.batch])
  {
  }

  /** A change that does not apply changes nothing and is ignored; otherwise the answer says whether the task
      has ended, and whether that has tripped the fuse. */
  lemma OutcomeMeans(db: Db, cfg: Config, c: PhaseChange)
    ensures OutcomeOf(db, cfg, c) == Ignored <==> !TaskMatches(db, c)
    ensures !TaskMatches(db, c) ==> ApplyPhase(db, cfg, c) == db
    ensures TaskMatches(db, c) && c.phase !in {Success, Failed, RolledBack} ==> OutcomeOf(db, cfg, c) == Updated
    ensures TaskMatches(db, c) && c.phase in {Success, Failed, RolledBack} ==>
              (OutcomeOf(db, cfg, c) == TripFuse <==>
               && c.batch in db.batches && db.batches[c.batch].status == Running
               && ApplyPhase(db, cfg, c).batches[c.batch].status == Fused)
  {
  }

  /** The console moves a batch: pause, resume after a pause or the fuse, complete. */
  lemma ConsoleMeans(db: Db, cfg: Config, id: int)
    requires id in db.batches
    ensures var s := db.batches[id].status;
            && Step(db, cfg, Pause(id)) == WithStatus(db, id, if s == Running then Paused else s)
            && Step(db, cfg, Resume(id)) == WithStatus(db, id, if s == Paused || s == Fused then Running else s)
            && Step(db, cfg, Complete(id)) == WithStatus(db, id, if s == Running || s == Paused then Completed else s)
  {
    assert db.batches[id := db.batches[id]] == db.batches;
  }

  function WithStatus(db: Db, id: int, s: BatchStatus): Db
    requires id in db.batches
  {
    var b := db.batches[id];
    Db(db.now, db.batches[id := Batch(s, b.ok, b.fail, b.threshold)], db.tasks)
  }

  /** Only a pending task is notified, and a report that claims pending does nothing. */
  lemma NotifyMeans(db: Db, cfg: Config, id: int, sn: string)
    ensures Step(db, cfg, Report(id, sn, Pending)) == db
    ensures (id, sn) !in db.tasks ==> Step(db, cfg, Dispatch(id, sn)) == db
    ensures (id, sn) in db.tasks && db.tasks[(id, sn)].status != Pending ==> Step(db, cfg, Dispatch(id, sn)) == db
    ensures (id, sn) in db.tasks && db.tasks[(id, sn)].status == Pending ==>
              Step(db, cfg, Dispatch(id, sn))
              == Db(db.now, db.batches, db.tasks[(id, sn) := Task(Notified, db.tasks[(id, sn)].retry, db.now)])
  {
  }

  /** A new batch runs with empty counters, and each of its devices gets one pending task. */
  lemma CreateMeans(db: Db, id: int, sns: set<string>, threshold: real, k: (int, string))
    requires id !in db.batches
    ensures var post := Create(db, id, sns, threshold);
            && post.now == db.now && post.batches == db.batches[id := Batch(Running, 0, 0, threshold)]
            && (k in db.tasks ==> k in post.tasks && post.tasks[k] == db.tasks[k])
            && (k !in db.tasks ==> (k in post.tasks <==> k.0 == id && k.1 in sns))
            && (k !in db.tasks && k in post.tasks ==> post.tasks[k] == Task(Pending, 0, db.now))
  {
  }

  /** A failed report costs one retry; a sweep and any other report none. */
  lemma RetriesMean(db: Db, cfg: Config, id: int, sn: string, phase: TaskStatus, olderThan: int)
    requires phase != Pending
    ensures Step(db, cfg, Report(id, sn, phase))
         == ApplyPhase(db, cfg, PhaseChange(id, sn, phase, if phase == Failed then 1 else 0, 0))
    ensures olderThan > 0 ==>
              Step(db, cfg, SweepOne(id, sn, olderThan)) == ApplyPhase(db, cfg, PhaseChange(id, sn, Failed, 0, olderThan))
  {
  }
}
