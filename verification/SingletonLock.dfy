/** Singleton election by a session-level advisory lock, for one lock name and many replicas. */
module SingletonLock {
  import opened Basics

  /** A connection: its replica, whether it rests in that replica's pool, whether the client side
      is usable, and how often its server session holds the lock. */
  datatype Conn = Conn(replica: int, pooled: bool, alive: bool, locks: nat)

  datatype Cluster = Cluster(conns: map<int, Conn>, guards: map<int, int>, running: set<int>)

  datatype Ping = Answers | Interrupted | Broken

  datatype Unlock = Unlocked | UnlockFails | ContextDone

  const EMPTY := Cluster(map[], map[], {})

  predicate Held(s: Cluster, r: int) {
    r in s.guards
  }

  // ---- what single database or pool operations do

  /** The pool opens a connection. */
  function Open(s: Cluster, r: int, c: int): Cluster {
    if c in s.conns then s else s.(conns := s.conns[c := Conn(r, true, true, 0)])
  }

  /** A connection is lost; nobody has noticed yet. */
  function Kill(s: Cluster, c: int): Cluster {
    if c in s.conns then s.(conns := s.conns[c := s.conns[c].(alive := false)]) else s
  }

  /** The server ends the session of a connection that is gone, and with it the locks. */
  function Reap(s: Cluster, c: int): Cluster {
    if c in s.conns && !s.conns[c].alive then s.(conns := s.conns[c := s.conns[c].(locks := 0)]) else s
  }

  /** pg_try_advisory_lock answers yes: no other session holds the lock (a holder may stack it). */
  predicate Grants(s: Cluster, c: int) {
    forall d :: d in s.conns && d != c ==> s.conns[d].locks == 0
  }

  predicate CanAcquire(s: Cluster, r: int, c: int) {
    c in s.conns && s.conns[c].replica == r && s.conns[c].pooled && s.conns[c].alive
  }

  /** Take a pooled connection and try the lock; without it the connection goes back. */
  function TryLock(s: Cluster, r: int, c: int): Cluster {
    if Held(s, r) || !CanAcquire(s, r, c) || !Grants(s, c) then s
    else Cluster(s.conns[c := s.conns[c].(pooled := false, locks := s.conns[c].locks + 1)], s.guards[r := c], s.running)
  }

  /** The try-lock query itself fails, with or without the lock taken, and the connection is released:
      the pool drops it when the failure closed it, and keeps it otherwise. */
  function TryLockFails(s: Cluster, r: int, c: int, took: bool, closes: bool): Cluster {
    if Held(s, r) || !CanAcquire(s, r, c) then s
    else
      var locks := s.conns[c].locks + if took && Grants(s, c) then 1 else 0;
      s.(conns := s.conns[c := Conn(r, !closes, !closes, locks)])
  }

  /** Close the guard's connection instead of returning it: its lock goes when the server reaps it. */
  function Drop(s: Cluster, r: int): Cluster {
    if !Held(s, r) || s.guards[r] !in s.conns then s
    else Cluster(s.conns[s.guards[r] := s.conns[s.guards[r]].(alive := false)], s.guards - {r}, s.running)
  }

  /** pg_advisory_unlock, then back to the pool. */
  function UnlockAndReturn(s: Cluster, r: int): Cluster {
    if !Held(s, r) || s.guards[r] !in s.conns then s
    else
      var c := s.conns[s.guards[r]];
      if !c.alive then Drop(s, r)
      else Cluster(s.conns[s.guards[r] := c.(pooled := true, locks := if c.locks > 0 then c.locks - 1 else 0)], s.guards - {r}, s.running)
  }

  function ReleaseStep(s: Cluster, r: int, u: Unlock): Cluster {
    match u
    case Unlocked => UnlockAndReturn(s, r)
    case UnlockFails => Drop(s, r)
    case ContextDone => Drop(s, r)
  }

  datatype Query = Answered | QueryFails(took: bool, closes: bool)

  /** Ensure, given whether the context is done, what the ping says, which connection the pool hands
      out (none when acquiring fails) and how the try-lock query goes. */
  function EnsureStep(s: Cluster, r: int, cancelled: bool, ping: Ping, c: Option<int>, q: Query): Cluster {
    if cancelled then s
    else if Held(s, r) && ping != Broken then s
    else
      var dropped := if Held(s, r) then Drop(s, r) else s;
      if c.None? then dropped
      else if q.Answered? then TryLock(dropped, r, c.value)
      else TryLockFails(dropped, r, c.value, q.took, q.closes)
  }

  /** A release that the server confirms gives the connection back without the lock; any other release
      closes the connection. The guard is empty afterwards, and no other connection or guard is touched. */
  lemma ReleaseMeans(s: Cluster, r: int, u: Unlock)
    requires Held(s, r) && s.guards[r] in s.conns
    ensures var c := s.guards[r];
            var post := ReleaseStep(s, r, u);
            && !Held(post, r) && post.running == s.running
            && (forall q :: q != r ==> (q in post.guards <==> q in s.guards) && (q in s.guards ==> post.guards[q] == s.guards[q]))
            && post.conns.Keys == s.conns.Keys && (forall d :: d in s.conns && d != c ==> post.conns[d] == s.conns[d])
            && (u == Unlocked && s.conns[c].alive && s.conns[c].locks > 0 ==>
                  post.conns[c] == Conn(s.conns[c].replica, true, true, s.conns[c].locks - 1))
            && (u != Unlocked || !s.conns[c].alive ==>
                  !post.conns[c].alive && post.conns[c].pooled == s.conns[c].pooled && post.conns[c].locks == s.conns[c].locks)
  {
  }

  /** No session other than that of c holds the lock. */
  predicate FreeFor(s: Cluster, c: int) {
    forall d :: d in s.conns && s.conns[d].locks > 0 ==> d == c
  }

  ghost predicate OthersSame(s: Cluster, post: Cluster, r: int, c: int) {
    && post.running == s.running && post.conns.Keys == s.conns.Keys
    && (forall d :: d in s.conns && d != c ==> post.conns[d] == s.conns[d])
    && (forall q :: q != r ==> (q in post.guards <==> q in s.guards) && (q in s.guards ==> post.guards[q] == s.guards[q]))
  }

  /** An empty guard that gets a connection of its own pool and an answer holds the lock afterwards if and only
      if no other session does; otherwise nothing has changed. */
  lemma TryMeans(s: Cluster, r: int, c: int)
    requires r !in s.guards && c in s.conns && s.conns[c] == Conn(r, true, true, s.conns[c].locks)
    ensures var post := TryLock(s, r, c);
            && (FreeFor(s, c) ==>
                  && OthersSame(s, post, r, c) && r in post.guards && post.guards[r] == c
                  && post.conns[c] == Conn(r, false, true, s.conns[c].locks + 1))
            && (!FreeFor(s, c) ==> post == s)
  {
  }

  /** When the query fails the guard stays empty, and the connection goes back with whatever lock it took,
      unless the failure closed it. */
  lemma TryFailsMeans(s: Cluster, r: int, c: int, took: bool, closes: bool)
    requires r !in s.guards && c in s.conns && s.conns[c] == Conn(r, true, true, s.conns[c].locks)
    ensures var post := TryLockFails(s, r, c, took, closes);
            && OthersSame(s, post, r, c) && r !in post.guards
            && post.conns[c].locks == s.conns[c].locks + (if took && FreeFor(s, c) then 1 else 0)
            && post.conns[c].replica == r && (closes <==> !post.conns[c].pooled) && (closes <==> !post.conns[c].alive)
  {
  }

  /** A guard that holds a connection keeps it unless the ping says it is broken; then it is closed before
      a new one is tried. Nothing happens once the context is done. */
  lemma EnsureMeans(s: Cluster, r: int, cancelled: bool, ping: Ping, c: Option<int>, q: Query)
    ensures var post := EnsureStep(s, r, cancelled, ping, c, q);
            var emptied := if r in s.guards then ReleaseStep(s, r, UnlockFails) else s;
            if cancelled || (r in s.guards && (ping == Answers || ping == Interrupted)) then post == s
            else match c
                 case None => post == emptied
                 case Some(conn) => post == if q == Answered then TryLock(emptied, r, conn)
                                            else TryLockFails(emptied, r, conn, q.took, q.closes)
  {
  }

  // ---- the guards as they change in place

  class Runtime {
    var conns: map<int, Conn>
    var guards: map<int, int>
    var running: set<int>

    function State(): Cluster
      reads this
    {
      Cluster(conns, guards, running)
    }

    constructor ()
      ensures State() == EMPTY
    {
      conns, guards, running := map[], map[], {};
    }

    method CloseConn(r: int)
      requires r in guards && guards[r] in conns
      modifies this
      ensures State() == Drop(old(State()), r)
    {
      conns := conns[guards[r] := conns[guards[r]].(alive := false)];
      guards := guards - {r};
    }

    /** held says whether the guard holds a connection; failed, whether there is an error: the context
        done, the ping interrupted, no connection to be had, or a failed query. */
    method Ensure(r: int, cancelled: bool, ping: Ping, c: Option<int>, q: Query) returns (held: bool, failed: bool)
      requires forall x :: x in guards ==> guards[x] in conns && !conns[guards[x]].pooled
      requires c.Some? ==> CanAcquire(State(), r, c.value)
      modifies this
      ensures State() == EnsureStep(old(State()), r, cancelled, ping, c, q)
      ensures held <==> r in guards
      ensures failed <==>
                cancelled || if r in old(guards) && ping != Broken then ping == Interrupted else c.None? || q.QueryFails?
    {
      if cancelled {
        return r in guards, true;
      }
      if r in guards {
        if ping != Broken {
          return true, ping == Interrupted;
        }
        CloseConn(r);
      }
      if c.None? {
        return false, true;
      }
      var conn := conns[c.value];
      if q.QueryFails? {
        var locks := conn.locks + if q.took && Grants(State(), c.value) then 1 else 0;
        conns := conns[c.value := Conn(r, !q.closes, !q.closes, locks)];
        return false, true;
      }
      if !Grants(State(), c.value) {
        return false, false;
      }
      conns := conns[c.value := conn.(pooled := false, locks := conn.locks + 1)];
      guards := guards[r := c.value];
      return true, false;
    }

    method Release(r: int, u: Unlock)
      requires forall x :: x in guards ==> guards[x] in conns
      modifies this
      ensures State() == ReleaseStep(old(State()), r, u)
    {
      if r !in guards {
        return;
      }
      if u == ContextDone || u == UnlockFails || !conns[guards[r]].alive {
        CloseConn(r);
        return;
      }
      var c := conns[guards[r]];
      conns := conns[guards[r] := c.(pooled := true, locks := if c.locks > 0 then c.locks - 1 else 0)];
      guards := guards - {r};
    }
  }

  // ---- runs: replicas act between rounds, the environment at any time

  datatype Action =
    | OpenConn(r: int, c: int)
    | KillConn(c: int)
    | ReapConn(c: int)
    | DoTryLock(r: int, c: int)
    | DoTryLockFails(r: int, c: int, took: bool, closes: bool)
    | DoDrop(r: int)
    | DoRelease(r: int, u: Unlock)
    | BeginRound(r: int)
    | EndRound(r: int)

  /** A guard is used by one loop, so its operations happen only outside that loop's round. */
  function Step(s: Cluster, a: Action): Cluster {
    match a
    case OpenConn(r, c) => Open(s, r, c)
    case KillConn(c) => Kill(s, c)
    case ReapConn(c) => Reap(s, c)
    case DoTryLock(r, c) => if r in s.running then s else TryLock(s, r, c)
    case DoTryLockFails(r, c, took, closes) => if r in s.running then s else TryLockFails(s, r, c, took, closes)
    case DoDrop(r) => if r in s.running then s else Drop(s, r)
    case DoRelease(r, u) => if r in s.running then s else ReleaseStep(s, r, u)
    case BeginRound(r) => if Held(s, r) then s.(running := s.running + {r}) else s
    case EndRound(r) => s.(running := s.running - {r})
  }

  function Run(actions: seq<Action>): Cluster {
    if actions == [] then EMPTY else Step(Run(actions[..|actions| - 1]), actions[|actions| - 1])
  }

  /** At most one session carries the lock; a guard's live connection carries it. */
  ghost predicate Inv(s: Cluster) {
    && (forall c, d :: c in s.conns && d in s.conns && s.conns[c].locks > 0 && s.conns[d].locks > 0 ==> c == d)
    && (forall r :: r in s.guards ==> GuardOk(s, r))
    && (forall r :: r in s.running ==> r in s.guards)
  }

  ghost predicate GuardOk(s: Cluster, r: int)
    requires r in s.guards
  {
    var c := s.guards[r];
    && c in s.conns && s.conns[c].replica == r && !s.conns[c].pooled
    && (s.conns[c].alive ==> s.conns[c].locks > 0)
  }

  lemma TryLockKeepsInv(s: Cluster, r: int, c: int)
    requires Inv(s)
    ensures Inv(TryLock(s, r, c))
  {
    if !Held(s, r) && CanAcquire(s, r, c) && Grants(s, c) {
      var post := TryLock(s, r, c);
      forall x | x in post.guards ensures GuardOk(post, x) {
        if x != r {
          assert GuardOk(s, x);
        }
      }
    }
  }

  lemma TryLockFailsKeepsInv(s: Cluster, r: int, c: int, took: bool, closes: bool)
    requires Inv(s)
    ensures Inv(TryLockFails(s, r, c, took, closes))
  {
    var post := TryLockFails(s, r, c, took, closes);
    forall x | x in post.guards ensures GuardOk(post, x) {
      assert GuardOk(s, x);
    }
  }

  lemma DropKeepsInv(s: Cluster, r: int)
    requires Inv(s) && r !in s.running
    ensures Inv(Drop(s, r))
  {
    var post := Drop(s, r);
    forall x | x in post.guards ensures GuardOk(post, x) {
      assert GuardOk(s, x);
    }
  }

  lemma UnlockKeepsInv(s: Cluster, r: int)
    requires Inv(s) && r !in s.running
    ensures Inv(UnlockAndReturn(s, r))
  {
    if Held(s, r) {
      assert GuardOk(s, r);
      if s.conns[s.guards[r]].alive {
        var post := UnlockAndReturn(s, r);
        forall x | x in post.guards ensures GuardOk(post, x) {
          assert GuardOk(s, x);
        }
      } else {
        DropKeepsInv(s, r);
      }
    }
  }

  lemma EnvironmentKeepsInv(s: Cluster, a: Action)
    requires Inv(s) && (a.OpenConn? || a.KillConn? || a.ReapConn? || a.BeginRound? || a.EndRound?)
    ensures Inv(Step(s, a))
  {
    var post := Step(s, a);
    forall x | x in post.guards ensures GuardOk(post, x) {
      assert GuardOk(s, x);
    }
  }

  lemma {:induction false} RunInv(actions: seq<Action>)
    ensures Inv(Run(actions))
  {
    if actions != [] {
      var s, a := Run(actions[..|actions| - 1]), actions[|actions| - 1];
      RunInv(actions[..|actions| - 1]);
      match a
      case DoTryLock(r, c) => TryLockKeepsInv(s, r, c);
      case DoTryLockFails(r, c, took, closes) => TryLockFailsKeepsInv(s, r, c, took, closes);
      case DoDrop(r) => if r !in s.running { DropKeepsInv(s, r); }
      case DoRelease(r, u) => if r !in s.running { UnlockKeepsInv(s, r); DropKeepsInv(s, r); }
      case _ => EnvironmentKeepsInv(s, a);
    }
  }

  // ---- the pool

  ghost predicate PoolClean(s: Cluster) {
    forall c :: c in s.conns && s.conns[c].pooled ==> s.conns[c].locks == 0
  }

  /** A failed try-lock query that took the lock and left its connection open for the pool. */
  predicate Leaks(s: Cluster, a: Action) {
    && a.DoTryLockFails? && a.took && !a.closes
    && a.r !in s.running && !Held(s, a.r) && CanAcquire(s, a.r, a.c) && Grants(s, a.c)
  }

  ghost predicate NoStack(s: Cluster) {
    forall c :: c in s.conns ==> s.conns[c].locks <= 1
  }

  lemma StepClean(s: Cluster, a: Action)
    requires Inv(s) && PoolClean(s) && NoStack(s)
    ensures PoolClean(Step(s, a)) <==> !Leaks(s, a)
    ensures NoStack(Step(s, a))
  {
    if Leaks(s, a) {
      assert Step(s, a).conns[a.c].pooled && Step(s, a).conns[a.c].locks == 1;
    } else if a.DoRelease? && Held(s, a.r) {
      assert GuardOk(s, a.r);
    }
  }

  ghost predicate AlwaysClean(actions: seq<Action>) {
    forall n :: 0 <= n <= |actions| ==> PoolClean(Run(actions[..n]))
  }

  ghost predicate NeverLeaks(actions: seq<Action>) {
    forall n :: 0 <= n < |actions| ==> !Leaks(Run(actions[..n]), actions[n])
  }

  lemma PrefixRun(actions: seq<Action>, m: nat, n: nat)
    requires n <= m <= |actions|
    ensures Run(actions[..m][..n]) == Run(actions[..n])
  {
    assert actions[..m][..n] == actions[..n];
  }

  lemma CleanInit(actions: seq<Action>, m: nat)
    requires m <= |actions| && AlwaysClean(actions)
    ensures AlwaysClean(actions[..m])
  {
    forall n | 0 <= n <= m ensures PoolClean(Run(actions[..m][..n])) {
      PrefixRun(actions, m, n);
      assert PoolClean(Run(actions[..n]));
    }
  }

  lemma CleanSnoc(actions: seq<Action>)
    requires actions != [] && AlwaysClean(actions[..|actions| - 1]) && PoolClean(Run(actions))
    ensures AlwaysClean(actions)
  {
    var m := |actions| - 1;
    forall n | 0 <= n <= |actions| ensures PoolClean(Run(actions[..n])) {
      if n <= m {
        PrefixRun(actions, m, n);
        assert PoolClean(Run(actions[..m][..n]));
      } else {
        assert actions[..n] == actions;
      }
    }
  }

  lemma LeaksSnoc(actions: seq<Action>)
    requires actions != []
    ensures var m := |actions| - 1;
            NeverLeaks(actions) <==> NeverLeaks(actions[..m]) && !Leaks(Run(actions[..m]), actions[m])
  {
    var init := actions[..|actions| - 1];
    forall n | 0 <= n < |init| ensures Leaks(Run(init[..n]), init[n]) == Leaks(Run(actions[..n]), actions[n]) {
      assert init[..n] == actions[..n];
    }
  }

  lemma CleanNow(actions: seq<Action>)
    requires AlwaysClean(actions)
    ensures PoolClean(Run(actions))
  {
    assert actions[..|actions|] == actions;
    assert PoolClean(Run(actions[..|actions|]));
  }

  lemma LastClean(s: Cluster, a: Action, post: Cluster)
    requires post == Step(s, a) && Inv(s) && PoolClean(s) && NoStack(s)
    ensures PoolClean(post) <==> !Leaks(s, a)
  {
    StepClean(s, a);
  }

  lemma LastUnstacked(s: Cluster, a: Action, post: Cluster)
    requires post == Step(s, a) && Inv(s) && PoolClean(s) && NoStack(s)
    ensures NoStack(post)
  {
    StepClean(s, a);
  }

  lemma LastStep(actions: seq<Action>)
    requires actions != [] && PoolClean(Run(actions[..|actions| - 1])) && NoStack(Run(actions[..|actions| - 1]))
    ensures PoolClean(Run(actions)) <==> !Leaks(Run(actions[..|actions| - 1]), actions[|actions| - 1])
    ensures NoStack(Run(actions))
  {
    var s, a := Run(actions[..|actions| - 1]), actions[|actions| - 1];
    RunInv(actions[..|actions| - 1]);
    LastClean(s, a, Run(actions));
    LastUnstacked(s, a, Run(actions));
  }

  lemma CleanBoth(actions: seq<Action>)
    requires actions != []
    ensures AlwaysClean(actions) <==> AlwaysClean(actions[..|actions| - 1]) && PoolClean(Run(actions))
  {
    if AlwaysClean(actions) {
      CleanNow(actions);
      CleanInit(actions, |actions| - 1);
    }
    if AlwaysClean(actions[..|actions| - 1]) && PoolClean(Run(actions)) {
      CleanSnoc(actions);
    }
  }

  /** Over every run, no connection resting in a pool ever carries the lock exactly when no failed
      try-lock query leaves a locked connection open. */
  lemma {:induction false} PoolIsClean(actions: seq<Action>)
    ensures AlwaysClean(actions) <==> NeverLeaks(actions)
    ensures AlwaysClean(actions) ==> NoStack(Run(actions))
  {
    if actions == [] {
      assert actions[..0] == [];
    } else {
      var init := actions[..|actions| - 1];
      PoolIsClean(init);
      LeaksSnoc(actions);
      CleanBoth(actions);
      if AlwaysClean(init) {
        CleanNow(init);
        LastStep(actions);
      }
    }
  }

  /** A leaked lock shuts out every other session until its connection is used again or dies. */
  lemma LeakBlocks(s: Cluster, a: Action, r: int, c: int)
    requires Leaks(s, a) && c != a.c
    ensures TryLock(Step(s, a), r, c) == Step(s, a)
  {
    assert a.c in Step(s, a).conns && Step(s, a).conns[a.c].locks > 0;
  }

  /** At most one guard holds the lock over a live connection. */
  lemma OneLiveGuard(actions: seq<Action>, q: int, r: int)
    requires var s := Run(actions);
             && q in s.guards && s.guards[q] in s.conns && s.conns[s.guards[q]].alive
             && r in s.guards && s.guards[r] in s.conns && s.conns[s.guards[r]].alive
    ensures q == r
  {
    var s := Run(actions);
    RunInv(actions);
    assert GuardOk(s, q) && GuardOk(s, r);
  }

  /** Two replicas are never in the round together while both connections are alive. */
  lemma NoTwoRunners(actions: seq<Action>, q: int, r: int)
    requires q != r && q in Run(actions).running && r in Run(actions).running
    ensures var s := Run(actions);
            && q in s.guards && s.guards[q] in s.conns && r in s.guards && s.guards[r] in s.conns
            && (!s.conns[s.guards[q]].alive || !s.conns[s.guards[r]].alive)
  {
    var s := Run(actions);
    RunInv(actions);
    assert GuardOk(s, q) && GuardOk(s, r);
    if s.conns[s.guards[q]].alive && s.conns[s.guards[r]].alive {
      OneLiveGuard(actions, q, r);
    }
  }

  /** After a confirmed release over a live connection nobody holds the lock, and the next replica that
      tries gets it at once. */
  lemma ReleaseFrees(actions: seq<Action>, r: int, q: int, c: int)
    requires NeverLeaks(actions)
    requires var s := Run(actions); Held(s, r) && s.guards[r] in s.conns && s.conns[s.guards[r]].alive
    ensures var post := ReleaseStep(Run(actions), r, Unlocked);
            && (forall d :: d in post.conns ==> post.conns[d].locks == 0)
            && (CanAcquire(post, q, c) && !Held(post, q) ==> var won := TryLock(post, q, c); Held(won, q) && won.guards[q] == c)
  {
    var s := Run(actions);
    RunInv(actions);
    PoolIsClean(actions);
    assert GuardOk(s, r);
    ReleaseMeans(s, r, Unlocked);
  }

  lemma RunAppend(actions: seq<Action>, a: Action)
    ensures Run(actions + [a]) == Step(Run(actions), a)
  {
    assert (actions + [a])[..|actions|] == actions;
  }

  /** When the runner's connection is lost mid-round, a second replica can start its own round. */
  lemma OverlapAfterLoss()
    ensures exists actions :: 1 in Run(actions).running && 2 in Run(actions).running
  {
    var a0: seq<Action> := [];
    var a1, a2 := a0 + [OpenConn(1, 10)], a0 + [OpenConn(1, 10)] + [OpenConn(2, 20)];
    var a3 := a2 + [DoTryLock(1, 10)];
    var a4 := a3 + [BeginRound(1)];
    var a5 := a4 + [KillConn(10)];
    var a6 := a5 + [ReapConn(10)];
    var a7 := a6 + [DoTryLock(2, 20)];
    var a8 := a7 + [BeginRound(2)];
    RunAppend(a0, OpenConn(1, 10));
    RunAppend(a1, OpenConn(2, 20));
    RunAppend(a2, DoTryLock(1, 10));
    assert Run(a2).conns == map[10 := Conn(1, true, true, 0), 20 := Conn(2, true, true, 0)];
    assert Grants(Run(a2), 10);
    RunAppend(a3, BeginRound(1));
    RunAppend(a4, KillConn(10));
    RunAppend(a5, ReapConn(10));
    RunAppend(a6, DoTryLock(2, 20));
    assert Grants(Run(a6), 20);
    RunAppend(a7, BeginRound(2));
    assert 1 in Run(a8).running && 2 in Run(a8).running;
  }
}
