/** Several scheduler replicas over one table, with teachers, expiry, slow sends and crashes. */
module FleetDispatch {
  import opened Basics
  import opened FleetQueue

  /** Where a worker stands between claim and confirm; the token is the index of its claim. */
  datatype Pc = Idle | Claimed(token: nat) | Sent(token: nat, accepted: bool)

  datatype ClaimEntry = ClaimEntry(item: int, sn: string)

  /** claims and jobs are the histories of won claims and of job_start calls (by token). */
  datatype World = World(now: int, items: Items, workers: map<int, Pc>,
                         claims: seq<ClaimEntry>, jobs: seq<nat>, cmds: nat, reapprovals: multiset<int>)

  datatype Action =
    | Submit(id: int, queue: int, org: int, user: int)
    | Member(id: int, from: Status, to: Status, who: Caller)
    | TryClaim(w: int, id: int, sn: string)
    | JobStart(w: int, accepted: bool)
    | Finish(w: int)
    | Crash(w: int)
    | ExpireAll(approvedTTL: int, dispatchedTTL: int)
    | Tick(seconds: nat)

  const START := World(0, map[], map[], [], [], 0, multiset{})

  function PcOf(s: World, w: int): Pc {
    if w in s.workers then s.workers[w] else Idle
  }

  function SubmitStep(s: World, id: int, queue: int, org: int, user: int): World {
    if id in s.items then s
    else s.(items := s.items[id := Item(org, user, Submitted, queue, None, None, 0, s.now, None, None)])
  }

  /** A member acts on the row as it read it; the update requires that the status still holds. */
  function MemberStep(s: World, id: int, from: Status, to: Status, who: Caller): World {
    if who.role == System || id !in s.items || !MayMove(s.items[id], who, from, to) || s.items[id].status != from then s
    else s.(items := SetStatus(s.items, id, from, to, s.now),
            reapprovals := if from == NeedsTeacher && to == Approved then s.reapprovals + multiset{id} else s.reapprovals)
  }

  function ClaimStep(s: World, w: int, id: int, sn: string): World {
    if PcOf(s, w) != Idle || !CanClaim(s.items, id, sn) then s
    else s.(items := Claim(s.items, id, sn, Token(|s.claims|), s.now),
            workers := s.workers[w := Claimed(|s.claims|)],
            claims := s.claims + [ClaimEntry(id, sn)])
  }

  function JobStep(s: World, w: int, accepted: bool): World {
    match PcOf(s, w)
    case Claimed(t) => s.(workers := s.workers[w := Sent(t, accepted)], jobs := s.jobs + [t])
    case _ => s
  }

  function FinishStep(s: World, maxRetry: int, w: int): World {
    match PcOf(s, w)
    case Sent(t, accepted) =>
      if t >= |s.claims| then s
      else
        var id := s.claims[t].item;
        if accepted then s.(items := Confirm(s.items, id, Token(t), Cmd(s.cmds)), workers := s.workers[w := Idle], cmds := s.cmds + 1)
        else s.(items := Revert(s.items, id, Token(t), maxRetry), workers := s.workers[w := Idle])
    case _ => s
  }

  function Step(s: World, maxRetry: int, a: Action): World {
    match a
    case Submit(id, queue, org, user) => SubmitStep(s, id, queue, org, user)
    case Member(id, from, to, who) => MemberStep(s, id, from, to, who)
    case TryClaim(w, id, sn) => ClaimStep(s, w, id, sn)
    case JobStart(w, accepted) => JobStep(s, w, accepted)
    case Finish(w) => FinishStep(s, maxRetry, w)
    case Crash(w) => s.(workers := s.workers[w := Idle])
    case ExpireAll(approvedTTL, dispatchedTTL) => s.(items := Expire(s.items, approvedTTL, dispatchedTTL, s.now))
    case Tick(seconds) => s.(now := s.now + seconds)
  }

  function Run(maxRetry: int, actions: seq<Action>): World {
    if actions == [] then START else Step(Run(maxRetry, actions[..|actions| - 1]), maxRetry, actions[|actions| - 1])
  }

  // ---- the steps are the statements

  /** How often a teacher has approved the item again, counted from the statuses alone. */
  function Reapprovals(maxRetry: int, actions: seq<Action>, id: int): nat {
    if actions == [] then 0
    else
      var pre, post := Run(maxRetry, actions[..|actions| - 1]).items, Run(maxRetry, actions).items;
      Reapprovals(maxRetry, actions[..|actions| - 1], id)
      + if id in pre && id in post && pre[id].status == NeedsTeacher && post[id].status == Approved then 1 else 0
  }

  lemma {:induction false} ReapprovalsCounted(maxRetry: int, actions: seq<Action>, id: int)
    ensures Run(maxRetry, actions).reapprovals[id] == Reapprovals(maxRetry, actions, id)
  {
    if actions != [] {
      ReapprovalsCounted(maxRetry, actions[..|actions| - 1], id);
    }
  }

  /** A lone worker's claim, job start and finish are the round that DispatchQueue describes. */
  lemma RoundIsSteps(s: World, maxRetry: int, w: int, id: int, sn: string, accepted: bool)
    requires PcOf(s, w) == Idle && CanClaim(s.items, id, sn)
    ensures var s3 := Step(Step(Step(s, maxRetry, TryClaim(w, id, sn)), maxRetry, JobStart(w, accepted)), maxRetry, Finish(w));
            && PcOf(s3, w) == Idle && s3.claims == s.claims + [ClaimEntry(id, sn)] && s3.jobs == s.jobs + [|s.claims|]
            && s3.items == s.items[id :=
                 if accepted then s.items[id].(status := Dispatched, sn := Some(sn), ref := Some(Cmd(s.cmds)), dispatchedAt := Some(s.now))
                 else s.items[id].(status := if s.items[id].retry + 1 >= maxRetry then NeedsTeacher else Approved,
                                   retry := s.items[id].retry + 1, sn := None, ref := None, dispatchedAt := None)]
  {
    var s1 := ClaimStep(s, w, id, sn);
    assert PcOf(s1, w) == Claimed(|s.claims|);
    var s2 := JobStep(s1, w, accepted);
    assert PcOf(s2, w) == Sent(|s.claims|, accepted) && s2.claims[|s.claims|] == ClaimEntry(id, sn);
  }

  /** A member's step is SetItemStatus on a row read in the given status: allowed, and not overtaken. */
  lemma MemberIsStep(s: World, maxRetry: int, id: int, from: Status, to: Status, who: Caller)
    requires who.role != System
    ensures var post := Step(s, maxRetry, Member(id, from, to, who));
            if id in s.items && s.items[id].status == from && MayMove(s.items[id], who, from, to)
            then post.items == SetStatus(s.items, id, from, to, s.now) else post == s
  {
  }

  // ---- invariants

  /** Tokens in hand are won claims; only a claimed token is still unsent; nobody shares one. */
  ghost predicate WorkersOk(s: World) {
    && (forall w :: PcOf(s, w).Claimed? || PcOf(s, w).Sent? ==> PcOf(s, w).token < |s.claims|)
    && (forall w :: PcOf(s, w).Claimed? ==> PcOf(s, w).token !in s.jobs)
    && (forall v, w :: v != w && PcOf(s, v) != Idle && PcOf(s, w) != Idle ==> PcOf(s, v).token != PcOf(s, w).token)
  }

  /** Every job_start belongs to a won claim, and no claim sends twice. */
  ghost predicate JobsOk(s: World) {
    && (forall i :: 0 <= i < |s.jobs| ==> s.jobs[i] < |s.claims|)
    && (forall i, j :: 0 <= i < j < |s.jobs| ==> s.jobs[i] != s.jobs[j])
  }

  ghost predicate OneActivePerDevice(items: Items) {
    forall j, k :: (j in items && k in items && j != k && IsActive(items[j].status) && IsActive(items[k].status)
                    && items[j].sn.Some?) ==> items[j].sn != items[k].sn
  }

  /** Token t is the newest claim of the item. */
  ghost predicate IsLastClaim(s: World, id: int, t: nat) {
    && t < |s.claims| && s.claims[t].item == id
    && forall u :: t < u < |s.claims| ==> s.claims[u].item != id
  }

  /** A dispatched row that still carries a token carries the token of its newest claim. */
  ghost predicate RefsOk(s: World) {
    forall id :: id in s.items && s.items[id].status == Dispatched && s.items[id].ref.Some? && s.items[id].ref.value.Token?
                 ==> IsLastClaim(s, id, s.items[id].ref.value.n)
  }

  function ClaimsOf(s: World, id: int): set<nat> {
    set t | 0 <= t < |s.claims| && s.claims[t].item == id
  }

  function JobsOf(s: World, id: int): set<nat> {
    set t | t in s.jobs && t < |s.claims| && s.claims[t].item == id
  }

  /** How many claims an item has had, by status. */
  ghost predicate ClaimBound(it: Item, claims: nat, reapproved: nat, maxRetry: int) {
    && claims <= maxRetry + reapproved
    && (it.status == Submitted ==> claims == it.retry == 0)
    && (it.status == Approved ==> claims == it.retry < maxRetry + reapproved)
    && (it.status == NeedsTeacher ==> claims == it.retry)
    && (it.status == Dispatched ==> claims == it.retry + 1)
    && it.status != Running
  }

  ghost predicate BoundsOk(s: World, maxRetry: int) {
    && (forall id :: id in s.items ==> ClaimBound(s.items[id], |ClaimsOf(s, id)|, s.reapprovals[id], maxRetry))
    && (forall t :: 0 <= t < |s.claims| ==> s.claims[t].item in s.items)
  }

  // ---- single steps

  /** A terminal item is never written again. */
  lemma TerminalStays(s: World, maxRetry: int, a: Action, id: int)
    requires id in s.items && IsTerminal(s.items[id].status)
    ensures id in Step(s, maxRetry, a).items && Step(s, maxRetry, a).items[id] == s.items[id]
  {
  }

  /** A status change is an edge of the table, or the two edges back through approved. */
  ghost predicate TablePath(from: Status, to: Status) {
    || from == to
    || Edge(from, to)
    || (Edge(from, Approved) && Edge(Approved, to) && from == Dispatched && to == NeedsTeacher)
  }

  lemma StepFollowsTable(s: World, maxRetry: int, a: Action, id: int)
    requires id in s.items
    ensures id in Step(s, maxRetry, a).items
    ensures TablePath(s.items[id].status, Step(s, maxRetry, a).items[id].status)
  {
  }

  function Actor(a: Action): Option<int> {
    match a
    case TryClaim(w, _, _) => Some(w)
    case JobStart(w, _) => Some(w)
    case Finish(w) => Some(w)
    case Crash(w) => Some(w)
    case _ => None
  }

  lemma OthersStandStill(s: World, maxRetry: int, a: Action)
    ensures forall w :: Actor(a) != Some(w) ==> PcOf(Step(s, maxRetry, a), w) == PcOf(s, w)
  {
  }

  /** The step of the acting worker: it stays, goes idle, wins the next token, or sends its own. */
  lemma ActorMoves(s: World, maxRetry: int, a: Action, w: int)
    requires Actor(a) == Some(w)
    ensures var post := Step(s, maxRetry, a);
            || (PcOf(post, w) == PcOf(s, w) && post.jobs == s.jobs && post.claims == s.claims)
            || (PcOf(post, w) == Idle && post.jobs == s.jobs && post.claims == s.claims)
            || (PcOf(s, w) == Idle && PcOf(post, w) == Claimed(|s.claims|) && post.jobs == s.jobs && |post.claims| == |s.claims| + 1)
            || (PcOf(s, w).Claimed? && PcOf(post, w).Sent? && PcOf(post, w).token == PcOf(s, w).token
                && post.jobs == s.jobs + [PcOf(s, w).token] && post.claims == s.claims)
  {
  }

  lemma StepKeepsWorkers(s: World, maxRetry: int, a: Action)
    requires WorkersOk(s) && JobsOk(s)
    ensures WorkersOk(Step(s, maxRetry, a))
  {
    OthersStandStill(s, maxRetry, a);
    if Actor(a).Some? {
      ActorMoves(s, maxRetry, a, Actor(a).value);
    }
  }

  lemma StepKeepsJobs(s: World, maxRetry: int, a: Action)
    requires WorkersOk(s) && JobsOk(s)
    ensures JobsOk(Step(s, maxRetry, a))
  {
  }

  lemma StepKeepsExclusive(s: World, maxRetry: int, a: Action)
    requires OneActivePerDevice(s.items)
    ensures OneActivePerDevice(Step(s, maxRetry, a).items)
  {
    match a
    case TryClaim(w, id, sn) =>
      if PcOf(s, w) == Idle && CanClaim(s.items, id, sn) {
        assert forall k :: k in s.items && IsActive(s.items[k].status) ==> s.items[k].sn != Some(sn);
      }
    case _ =>
  }

  lemma StepKeepsRefs(s: World, maxRetry: int, a: Action)
    requires RefsOk(s) && BoundsOk(s, maxRetry)
    ensures RefsOk(Step(s, maxRetry, a))
  {
    var post := Step(s, maxRetry, a);
    forall id | id in post.items && post.items[id].status == Dispatched && post.items[id].ref.Some? && post.items[id].ref.value.Token?
      ensures IsLastClaim(post, id, post.items[id].ref.value.n)
    {
      StepRef(s, maxRetry, a, id);
    }
  }

  lemma StepRef(s: World, maxRetry: int, a: Action, id: int)
    requires RefsOk(s) && BoundsOk(s, maxRetry)
    requires var post := Step(s, maxRetry, a);
             id in post.items && post.items[id].status == Dispatched && post.items[id].ref.Some? && post.items[id].ref.value.Token?
    ensures IsLastClaim(Step(s, maxRetry, a), id, Step(s, maxRetry, a).items[id].ref.value.n)
  {
    if a.TryClaim? {
      if PcOf(s, a.w) == Idle && CanClaim(s.items, a.id, a.sn) && id != a.id {
        assert IsLastClaim(s, id, s.items[id].ref.value.n);
      }
    } else {
      RefKept(s, maxRetry, a, id);
    }
  }

  /** Only a claim puts a token into a row or makes it dispatched. */
  lemma RefKept(s: World, maxRetry: int, a: Action, id: int)
    requires !a.TryClaim? && BoundsOk(s, maxRetry)
    requires var post := Step(s, maxRetry, a);
             id in post.items && post.items[id].status == Dispatched && post.items[id].ref.Some? && post.items[id].ref.value.Token?
    ensures var post := Step(s, maxRetry, a);
            id in s.items && s.items[id].status == Dispatched && s.items[id].ref == post.items[id].ref && post.claims == s.claims
  {
  }

  // ---- the retry bound

  lemma ClaimGrows(s: World, w: int, id: int, sn: string, other: int)
    requires PcOf(s, w) == Idle && CanClaim(s.items, id, sn)
    ensures ClaimsOf(ClaimStep(s, w, id, sn), other) == ClaimsOf(s, other) + if other == id then {|s.claims|} else {}
    ensures |ClaimsOf(ClaimStep(s, w, id, sn), other)| == |ClaimsOf(s, other)| + if other == id then 1 else 0
  {
    var post := ClaimStep(s, w, id, sn);
    forall t ensures t in ClaimsOf(post, other) <==> t in ClaimsOf(s, other) || (other == id && t == |s.claims|) {
    }
    assert |s.claims| !in ClaimsOf(s, other);
  }

  lemma SameClaims(s: World, post: World, id: int)
    requires post.claims == s.claims
    ensures ClaimsOf(post, id) == ClaimsOf(s, id)
  {
  }

  lemma FreshHasNoClaims(s: World, maxRetry: int, id: int)
    requires BoundsOk(s, maxRetry) && id !in s.items
    ensures ClaimsOf(s, id) == {}
  {
  }

  lemma StepBound(s: World, maxRetry: int, a: Action, id: int)
    requires maxRetry >= 1 && BoundsOk(s, maxRetry) && id in Step(s, maxRetry, a).items
    ensures var post := Step(s, maxRetry, a);
            ClaimBound(post.items[id], |ClaimsOf(post, id)|, post.reapprovals[id], maxRetry)
  {
    var post := Step(s, maxRetry, a);
    if id !in s.items {
      FreshHasNoClaims(s, maxRetry, id);
    }
    if a.TryClaim? {
      if PcOf(s, a.w) == Idle && CanClaim(s.items, a.id, a.sn) {
        ClaimGrows(s, a.w, a.id, a.sn, id);
      }
    } else {
      SameClaims(s, post, id);
      if id in s.items {
        MoveBound(s, maxRetry, a, id, |ClaimsOf(s, id)|);
      }
    }
  }

  /** Every other step keeps the bound: no claim is added, and the row moves as the bound allows. */
  lemma MoveBound(s: World, maxRetry: int, a: Action, id: int, claims: nat)
    requires maxRetry >= 1 && !a.TryClaim? && id in s.items && ClaimBound(s.items[id], claims, s.reapprovals[id], maxRetry)
    ensures var post := Step(s, maxRetry, a);
            id in post.items && ClaimBound(post.items[id], claims, post.reapprovals[id], maxRetry)
  {
  }

  lemma StepKeepsBounds(s: World, maxRetry: int, a: Action)
    requires maxRetry >= 1 && BoundsOk(s, maxRetry)
    ensures BoundsOk(Step(s, maxRetry, a), maxRetry)
  {
    var post := Step(s, maxRetry, a);
    forall id | id in post.items
      ensures ClaimBound(post.items[id], |ClaimsOf(post, id)|, post.reapprovals[id], maxRetry)
    {
      StepBound(s, maxRetry, a, id);
    }
  }

  // ---- runs

  ghost predicate Safe(s: World, maxRetry: int) {
    && WorkersOk(s) && JobsOk(s) && OneActivePerDevice(s.items) && RefsOk(s) && BoundsOk(s, maxRetry)
  }

  lemma {:induction false} RunSafe(maxRetry: int, actions: seq<Action>)
    requires maxRetry >= 1
    ensures Safe(Run(maxRetry, actions), maxRetry)
  {
    if actions != [] {
      var pre, a := Run(maxRetry, actions[..|actions| - 1]), actions[|actions| - 1];
      RunSafe(maxRetry, actions[..|actions| - 1]);
      StepKeepsWorkers(pre, maxRetry, a);
      StepKeepsJobs(pre, maxRetry, a);
      StepKeepsExclusive(pre, maxRetry, a);
      StepKeepsRefs(pre, maxRetry, a);
      StepKeepsBounds(pre, maxRetry, a);
    }
  }

  /** Over every interleaving, each job_start has its own winning claim and no device has two active items. */
  lemma JobStartsAreClaims(maxRetry: int, actions: seq<Action>)
    requires maxRetry >= 1
    ensures var s := Run(maxRetry, actions);
            && (forall i :: 0 <= i < |s.jobs| ==> s.jobs[i] < |s.claims|)
            && (forall i, j :: 0 <= i < j < |s.jobs| ==> s.jobs[i] != s.jobs[j])
            && OneActivePerDevice(s.items)
  {
    RunSafe(maxRetry, actions);
  }

  /** An item is started at most MaxRetry times, plus once for each time a teacher approved it again. */
  lemma JobStartsBounded(maxRetry: int, actions: seq<Action>, id: int)
    requires maxRetry >= 1
    ensures var s := Run(maxRetry, actions);
            |JobsOf(s, id)| <= maxRetry + Reapprovals(maxRetry, actions, id)
  {
    var s := Run(maxRetry, actions);
    RunSafe(maxRetry, actions);
    ReapprovalsCounted(maxRetry, actions, id);
    JobsWithinClaims(s, id);
    if id !in s.items {
      FreshHasNoClaims(s, maxRetry, id);
    }
  }

  lemma JobsWithinClaims(s: World, id: int)
    ensures |JobsOf(s, id)| <= |ClaimsOf(s, id)|
  {
    assert JobsOf(s, id) <= ClaimsOf(s, id);
    SubsetSize(JobsOf(s, id), ClaimsOf(s, id));
  }

  lemma {:induction false} SubsetSize(a: set<nat>, b: set<nat>)
    requires a <= b
    ensures |a| <= |b|
    decreases a
  {
    if x :| x in a {
      SubsetSize(a - {x}, b - {x});
    }
  }

  /** A worker whose claim is no longer the item's newest, or whose item has left dispatched,
      changes no item when it confirms or reverts. */
  lemma StaleTokenChangesNothing(maxRetry: int, actions: seq<Action>, w: int)
    requires maxRetry >= 1
    ensures var s := Run(maxRetry, actions);
            PcOf(s, w).Sent? ==>
              && PcOf(s, w).token < |s.claims|
              && (var id := s.claims[PcOf(s, w).token].item;
                  (!IsLastClaim(s, id, PcOf(s, w).token) || id !in s.items || s.items[id].status != Dispatched) ==>
                    FinishStep(s, maxRetry, w).items == s.items)
  {
    RunSafe(maxRetry, actions);
  }

  /** Once terminal, an item keeps its whole row for the rest of the run. */
  lemma {:induction false} TerminalForever(maxRetry: int, actions: seq<Action>, n: nat, id: int)
    requires n <= |actions|
    requires var s := Run(maxRetry, actions[..n]); id in s.items && IsTerminal(s.items[id].status)
    ensures id in Run(maxRetry, actions).items
    ensures Run(maxRetry, actions).items[id] == Run(maxRetry, actions[..n]).items[id]
    decreases |actions|
  {
    if n == |actions| {
      assert actions[..n] == actions;
    } else {
      var init := actions[..|actions| - 1];
      assert init[..n] == actions[..n];
      TerminalForever(maxRetry, init, n, id);
      TerminalStays(Run(maxRetry, init), maxRetry, actions[|actions| - 1], id);
    }
  }
}
