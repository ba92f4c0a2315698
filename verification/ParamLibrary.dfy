/** The versioned parameter library: profiles with a lifetime in versions, releases that
    append a version, rollback by re-publishing, and clients that follow by delta or snapshot.
    Tables are values; a transaction is one function of the whole library. */
module ParamLibrary {
  import opened Basics
  import opened Sorting

  const FORCE_FULL_BEHIND := 20

  datatype Params = Params(power: Option<real>, speed: Option<real>, rest: string)

  /** What a profile says, without identity, lifetime and sign-off. */
  datatype Content = Content(moduleModel: string, materialId: string, params: Params, source: string,
                             sampleCount: int, confidence: Option<real>)

  datatype Profile = Profile(id: int, content: Content, added: int, removed: Option<int>, approvedBy: string)

  datatype Release = Release(version: int, pct: int, createdBy: string, approvedBy: string, rolledBackFrom: Option<int>)

  datatype Plan = Plan(createdBy: string, approvedBy: string, rolloutPct: int,
                       added: seq<Profile>, removeIds: seq<int>, rolledBackFrom: Option<int>)

  datatype Library = Library(profiles: seq<Profile>, releases: seq<Release>,
                             snapshots: map<int, seq<Profile>>, nextId: int, materials: set<string>)

  // ---- pure decisions

  predicate IsEffective(p: Profile, v: int) {
    p.added <= v && (p.removed.None? || p.removed.value > v)
  }

  function EffAt(v: int): Profile -> bool {
    p => IsEffective(p, v)
  }

  function EffectiveAt(ps: seq<Profile>, v: int): seq<Profile> {
    Filter(ps, EffAt(v))
  }

  /** A profile as a client compares it: without the version that retired it. */
  function Strip(p: Profile): Profile {
    p.(removed := None)
  }

  /** The effective set of version v. */
  function View(ps: seq<Profile>, v: int): set<Profile> {
    set p | p in ps && IsEffective(p, v) :: Strip(p)
  }

  function StripAll(ps: seq<Profile>): set<Profile> {
    set p | p in ps :: Strip(p)
  }

  function Latest(rs: seq<Release>): int {
    if rs == [] then 0
    else
      var m := Latest(rs[..|rs| - 1]);
      if rs[|rs| - 1].version > m then rs[|rs| - 1].version else m
  }

  predicate InRollout(bucket: Option<real>, pct: int) {
    if pct >= 100 then true
    else if bucket.None? || pct <= 0 then false
    else bucket.value < pct as real / 100.0
  }

  // ---- loops of model.go

  method ComputeEffectiveAt(ps: seq<Profile>, v: int) returns (out: seq<Profile>)
    ensures out == EffectiveAt(ps, v)
  {
    out := [];
    for i := 0 to |ps|
      invariant out == EffectiveAt(ps[..i], v)
    {
      assert ps[..i + 1][..i] == ps[..i];
      if IsEffective(ps[i], v) {
        out := out + [ps[i]];
      }
    }
    assert ps[..|ps|] == ps;
  }

  predicate Leaves(p: Profile, since: int, to: int) {
    IsEffective(p, since) && !IsEffective(p, to)
  }

  predicate Joins(p: Profile, since: int, to: int) {
    !IsEffective(p, since) && IsEffective(p, to)
  }

  function LeavesAt(since: int, to: int): Profile -> bool {
    p => Leaves(p, since, to)
  }

  function JoinsAt(since: int, to: int): Profile -> bool {
    p => Joins(p, since, to)
  }

  function NotAmong(ids: set<int>): Profile -> bool {
    (p: Profile) => p.id !in ids
  }

  function AtMost(a: int, b: int): bool {
    a <= b
  }

  function IdsOf(ps: seq<Profile>): seq<int> {
    seq(|ps|, i requires 0 <= i < |ps| => ps[i].id)
  }

  function Ascending(ids: seq<int>): seq<int> {
    Sort(ids, AtMost)
  }

  function DeltaRemoved(ps: seq<Profile>, since: int, to: int): seq<int> {
    Ascending(IdsOf(Filter(ps, LeavesAt(since, to))))
  }

  function DeltaAdded(ps: seq<Profile>, since: int, to: int): seq<Profile> {
    Filter(ps, JoinsAt(since, to))
  }

  method ComputeDelta(ps: seq<Profile>, since: int, to: int) returns (removed: seq<int>, added: seq<Profile>)
    ensures removed == DeltaRemoved(ps, since, to)
    ensures added == DeltaAdded(ps, since, to)
  {
    removed, added := [], [];
    for i := 0 to |ps|
      invariant removed == IdsOf(Filter(ps[..i], LeavesAt(since, to)))
      invariant added == DeltaAdded(ps[..i], since, to)
    {
      assert ps[..i + 1][..i] == ps[..i];
      var was, now := IsEffective(ps[i], since), IsEffective(ps[i], to);
      if was && !now {
        removed := removed + [ps[i].id];
      } else if !was && now {
        added := added + [ps[i]];
      }
    }
    assert ps[..|ps|] == ps;
    removed := Ascending(removed);
  }

  function Readd(p: Profile): Profile {
    p.(id := 0, removed := None)
  }

  function ReaddAll(ps: seq<Profile>): seq<Profile> {
    seq(|ps|, i requires 0 <= i < |ps| => Readd(ps[i]))
  }

  function Ids(ps: seq<Profile>): set<int> {
    set p | p in ps :: p.id
  }

  function PlanRemoved(current: seq<Profile>, target: seq<Profile>): seq<int> {
    Ascending(IdsOf(Filter(current, NotAmong(Ids(target)))))
  }

  function PlanReadded(current: seq<Profile>, target: seq<Profile>): seq<Profile> {
    ReaddAll(Filter(target, NotAmong(Ids(current))))
  }

  method ComputeRollbackPlan(current: seq<Profile>, target: seq<Profile>)
    returns (toRemove: seq<int>, toReadd: seq<Profile>)
    ensures toRemove == PlanRemoved(current, target)
    ensures toReadd == PlanReadded(current, target)
  {
    var cur, tgt := {}, {};
    for i := 0 to |current|
      invariant cur == Ids(current[..i])
    {
      cur := cur + {current[i].id};
    }
    for i := 0 to |target|
      invariant tgt == Ids(target[..i])
    {
      tgt := tgt + {target[i].id};
    }
    assert current[..|current|] == current && target[..|target|] == target;
    toRemove, toReadd := [], [];
    for i := 0 to |current|
      invariant toRemove == IdsOf(Filter(current[..i], NotAmong(tgt)))
    {
      assert current[..i + 1][..i] == current[..i];
      if current[i].id !in tgt {
        toRemove := toRemove + [current[i].id];
      }
    }
    for i := 0 to |target|
      invariant toReadd == ReaddAll(Filter(target[..i], NotAmong(cur)))
    {
      assert target[..i + 1][..i] == target[..i];
      if target[i].id !in cur {
        toReadd := toReadd + [Readd(target[i])];
      }
    }
    toRemove := Ascending(toRemove);
  }

  /** r is the newest release that the bucket may see. */
  ghost predicate IsNewestVisible(rs: seq<Release>, bucket: Option<real>, r: Option<Release>) {
    match r
    case None => forall x :: x in rs ==> !InRollout(bucket, x.pct)
    case Some(y) =>
      && y in rs && InRollout(bucket, y.pct)
      && forall x :: x in rs && InRollout(bucket, x.pct) ==> x.version <= y.version
  }

  predicate NewerFirst(a: Release, b: Release) {
    a.version >= b.version
  }

  method VisibleVersion(rs: seq<Release>, bucket: Option<real>) returns (r: Option<Release>)
    ensures IsNewestVisible(rs, bucket, r)
  {
    var sorted := Sort(rs, NewerFirst);
    SortSorts(rs, NewerFirst);
    for i := 0 to |sorted|
      invariant forall k :: 0 <= k < i ==> !InRollout(bucket, sorted[k].pct)
    {
      if InRollout(bucket, sorted[i].pct) {
        forall x | x in rs && InRollout(bucket, x.pct) ensures x.version <= sorted[i].version {
          assert x in sorted;
          var k :| 0 <= k < |sorted| && sorted[k] == x;
          if i < k {
            assert NewerFirst(sorted[i], sorted[k]);
          }
        }
        assert sorted[i] in sorted;
        return Some(sorted[i]);
      }
    }
    return None;
  }

  /** The same choice over releases kept in version order. */
  function Visible(rs: seq<Release>, bucket: Option<real>): Option<Release> {
    if rs == [] then None
    else if InRollout(bucket, rs[|rs| - 1].pct) then Some(rs[|rs| - 1])
    else Visible(rs[..|rs| - 1], bucket)
  }

  // ---- the publish transaction

  /** ck_profile_source, ck_profile_params and the material foreign key. */
  predicate Legal(c: Content, materials: set<string>) {
    && c.source in {"official", "recommended"}
    && c.materialId in materials
    && c.params.power.Some? && 0.0 <= c.params.power.value <= 100.0
    && c.params.speed.Some? && c.params.speed.value > 0.0
  }

  predicate Matches(p: Profile, id: int) {
    p.id == id && p.removed.None?
  }

  /** UPDATE param_profile SET version_removed = v WHERE id = id AND version_removed IS NULL */
  function RetireRow(ps: seq<Profile>, id: int, v: int): seq<Profile> {
    seq(|ps|, i requires 0 <= i < |ps| => if Matches(ps[i], id) then ps[i].(removed := Some(v)) else ps[i])
  }

  /** Retire every listed id; an id that retires no row aborts the transaction. */
  function RetireAll(ps: seq<Profile>, ids: seq<int>, v: int): Option<seq<Profile>> {
    if ids == [] then Some(ps)
    else
      var r := RetireAll(ps, ids[..|ids| - 1], v);
      if r.Some? && exists p :: p in r.value && Matches(p, ids[|ids| - 1])
      then Some(RetireRow(r.value, ids[|ids| - 1], v))
      else None
  }

  /** The row a draft becomes: default source, fallback sign-off, fresh identity. */
  function NewRow(d: Profile, id: int, v: int, approvedBy: string): Profile {
    Profile(id, d.content.(source := if d.content.source == "" then "official" else d.content.source), v, None,
            if d.approvedBy != "" then d.approvedBy else approvedBy)
  }

  function NewRows(ds: seq<Profile>, firstId: int, v: int, approvedBy: string): seq<Profile> {
    seq(|ds|, i requires 0 <= i < |ds| => NewRow(ds[i], firstId + i, v, approvedBy))
  }

  predicate AllLegal(rows: seq<Profile>, materials: set<string>) {
    forall i :: 0 <= i < |rows| ==> Legal(rows[i].content, materials)
  }

  function Rollout(plan: Plan): int {
    if plan.rolloutPct <= 0 then 100 else plan.rolloutPct
  }

  /** The new rows, the release and the snapshot written before the commit. */
  function Commit(lib: Library, plan: Plan, all: seq<Profile>): Library {
    var v := Latest(lib.releases) + 1;
    Library(all, lib.releases + [Release(v, Rollout(plan), plan.createdBy, plan.approvedBy, plan.rolledBackFrom)],
            lib.snapshots[v := EffectiveAt(all, v)], lib.nextId + |plan.added|, lib.materials)
  }

  function PublishTx(lib: Library, plan: Plan): Result<Library> {
    var v := Latest(lib.releases) + 1;
    if plan.approvedBy == "" || plan.approvedBy == plan.createdBy then Err(Denied)
    else if Rollout(plan) > 100 then Err(BadParam)
    else
      var retired := RetireAll(lib.profiles, plan.removeIds, v);
      var rows := NewRows(plan.added, lib.nextId, v, plan.approvedBy);
      if retired.None? || !AllLegal(rows, lib.materials) then Err(BadParam)
      else Ok(Commit(lib, plan, retired.value + rows))
  }

  /** Rollback: the difference between the latest release read and the target, over the profiles read. */
  function RollbackPlanFrom(rs: seq<Release>, ps: seq<Profile>, to: int, createdBy: string, approvedBy: string): Plan {
    var current := EffectiveAt(ps, Latest(rs));
    var target := EffectiveAt(ps, to);
    Plan(createdBy, approvedBy, 100, PlanReadded(current, target), PlanRemoved(current, target), Some(to))
  }

  /** The statements of a rollback in turn: releases, profiles, then the publish transaction on lib. */
  function RollbackOver(rs: seq<Release>, ps: seq<Profile>, lib: Library, to: int, createdBy: string, approvedBy: string)
    : Result<Library>
  {
    if createdBy == "" || to <= 0 then Err(BadParam)
    else if !exists r :: r in rs && r.version == to then Err(NotFound)
    else PublishTx(lib, RollbackPlanFrom(rs, ps, to, createdBy, approvedBy))
  }

  function RollbackPlanOf(lib: Library, to: int, createdBy: string, approvedBy: string): Plan {
    RollbackPlanFrom(lib.releases, lib.profiles, to, createdBy, approvedBy)
  }

  function RollbackTx(lib: Library, to: int, createdBy: string, approvedBy: string): Result<Library> {
    RollbackOver(lib.releases, lib.profiles, lib, to, createdBy, approvedBy)
  }

  /** Every library that publishes can produce. */
  ghost predicate Inv(lib: Library) {
    && (forall i :: 0 <= i < |lib.releases| ==> lib.releases[i].version == i + 1)
    && (forall i, j :: 0 <= i < j < |lib.profiles| ==> lib.profiles[i].id < lib.profiles[j].id)
    && (forall p :: p in lib.profiles ==> RowOk(lib, p))
    && (forall v :: v in lib.snapshots <==> 1 <= v <= |lib.releases|)
    && (forall v :: v in lib.snapshots ==> StripAll(lib.snapshots[v]) == View(lib.profiles, v))
  }

  ghost predicate RowOk(lib: Library, p: Profile) {
    && p.id < lib.nextId
    && 1 <= p.added <= |lib.releases|
    && (p.removed.Some? ==> p.added < p.removed.value <= |lib.releases|)
    && Legal(p.content, lib.materials)
  }
}
