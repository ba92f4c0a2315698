/** Rollback: a publish of the difference to an earlier version, planned on what was read before. */
module ParamRollback {
  import opened Basics
  import opened Sorting
  import opened ParamLibrary
  import opened ParamHistory

  // ---- contents

  function ContentSeq(ps: seq<Profile>): seq<Content> {
    seq(|ps|, i requires 0 <= i < |ps| => ps[i].content)
  }

  function ContentsOf(ps: seq<Profile>): multiset<Content> {
    multiset(ContentSeq(ps))
  }

  lemma ContentsAppend(a: seq<Profile>, b: seq<Profile>)
    ensures ContentsOf(a + b) == ContentsOf(a) + ContentsOf(b)
  {
    assert ContentSeq(a + b) == ContentSeq(a) + ContentSeq(b);
  }

  lemma {:induction false} ContentsSplit(ps: seq<Profile>, f: Profile -> bool, g: Profile -> bool, h: Profile -> bool)
    requires forall p :: p in ps ==> f(p) == (g(p) || h(p)) && !(g(p) && h(p))
    ensures ContentsOf(Filter(ps, f)) == ContentsOf(Filter(ps, g)) + ContentsOf(Filter(ps, h))
  {
    if ps != [] {
      var last := ps[|ps| - 1];
      var init := ps[..|ps| - 1];
      ContentsSplit(init, f, g, h);
      ContentsAppend(Filter(init, f), [last]);
      ContentsAppend(Filter(init, g), [last]);
      ContentsAppend(Filter(init, h), [last]);
    }
  }

  /** Rows at the same positions with the same contents and the same verdicts. */
  lemma {:induction false} ContentsPointwise(ps: seq<Profile>, qs: seq<Profile>, f: Profile -> bool, g: Profile -> bool)
    requires |ps| == |qs|
    requires forall i :: 0 <= i < |ps| ==> ps[i].content == qs[i].content && f(ps[i]) == g(qs[i])
    ensures ContentsOf(Filter(ps, f)) == ContentsOf(Filter(qs, g))
  {
    if ps != [] {
      var m := |ps| - 1;
      ContentsPointwise(ps[..m], qs[..m], f, g);
      ContentsAppend(Filter(ps[..m], f), [ps[m]]);
      ContentsAppend(Filter(qs[..m], g), [qs[m]]);
      assert ContentsOf([ps[m]]) == ContentsOf([qs[m]]) by {
        assert ContentSeq([ps[m]]) == ContentSeq([qs[m]]);
      }
    }
  }

  // ---- the plan

  /** The two halves of a plan, over the rows read. */
  lemma PlanShape(lib: Library, now: int, to: int)
    requires Inv(lib)
    ensures PlanRemoved(EffectiveAt(lib.profiles, now), EffectiveAt(lib.profiles, to))
         == Ascending(IdsOf(Filter(lib.profiles, LeavesAt(now, to))))
    ensures PlanReadded(EffectiveAt(lib.profiles, now), EffectiveAt(lib.profiles, to))
         == ReaddAll(Filter(lib.profiles, JoinsAt(now, to)))
  {
    var current, target := EffectiveAt(lib.profiles, now), EffectiveAt(lib.profiles, to);
    forall p | p in lib.profiles
      ensures (p.id in Ids(target) <==> IsEffective(p, to)) && (p.id in Ids(current) <==> IsEffective(p, now))
    {
      IdInEffective(lib, p, to);
      IdInEffective(lib, p, now);
    }
    var eNow, eTo := EffAt(now), EffAt(to);
    var notT, notC := NotAmong(Ids(target)), NotAmong(Ids(current));
    var outNow, outTo := (p: Profile) => eNow(p) && notT(p), (p: Profile) => eTo(p) && notC(p);
    FilterFilter(lib.profiles, eNow, notT, outNow);
    FilterFilter(lib.profiles, eTo, notC, outTo);
    FilterSame(lib.profiles, outNow, LeavesAt(now, to));
    FilterSame(lib.profiles, outTo, JoinsAt(now, to));
  }

  /** Rows at the same positions with the same verdicts and the same image leave the same images. */
  lemma {:induction false} ImagesPointwise<T>(ps: seq<Profile>, qs: seq<Profile>,
                                              f: Profile -> bool, g: Profile -> bool, h: Profile -> T)
    requires |ps| == |qs|
    requires forall i :: 0 <= i < |ps| ==> f(ps[i]) == g(qs[i]) && h(ps[i]) == h(qs[i])
    ensures |Filter(ps, f)| == |Filter(qs, g)|
    ensures forall i :: 0 <= i < |Filter(ps, f)| ==> h(Filter(ps, f)[i]) == h(Filter(qs, g)[i])
  {
    if ps != [] {
      ImagesPointwise(ps[..|ps| - 1], qs[..|ps| - 1], f, g, h);
    }
  }

  /** Rows added later are no part of an earlier version. */
  lemma OnlyOldRows(a: Library, b: Library, f: Profile -> bool)
    requires Extends(a, b)
    requires forall p: Profile :: p.added > |a.releases| ==> !f(p)
    ensures Filter(b.profiles, f) == Filter(b.profiles[..|a.profiles|], f)
  {
    var n := |a.profiles|;
    assert b.profiles == b.profiles[..n] + b.profiles[n..];
    FilterAppend(b.profiles[..n], b.profiles[n..], f);
    FilterNone(b.profiles[n..], f);
  }

  lemma SameVerdicts(a: Library, b: Library, i: nat, v: int)
    requires Extends(a, b) && i < |a.profiles| && v <= |a.releases|
    ensures IsEffective(a.profiles[i], v) == IsEffective(b.profiles[i], v)
    ensures a.profiles[i].id == b.profiles[i].id && Readd(a.profiles[i]) == Readd(b.profiles[i])
  {
    assert RowLater(a.profiles[i], b.profiles[i], |a.releases|);
  }

  function IdOf(p: Profile): int {
    p.id
  }

  /** A publish between reading the releases and reading the profiles does not change the plan. */
  lemma PlanStable(a: Library, b: Library, to: int, createdBy: string, approvedBy: string)
    requires Inv(a) && Inv(b) && Extends(a, b) && to <= |a.releases|
    ensures RollbackPlanFrom(a.releases, b.profiles, to, createdBy, approvedBy) == RollbackPlanOf(a, to, createdBy, approvedBy)
  {
    LatestOf(a);
    var now := |a.releases|;
    var olds := b.profiles[..|a.profiles|];
    var leaves, joins := LeavesAt(now, to), JoinsAt(now, to);
    PlanShape(a, now, to);
    PlanShape(b, now, to);
    OnlyOldRows(a, b, leaves);
    OnlyOldRows(a, b, joins);
    forall i | 0 <= i < |a.profiles|
      ensures leaves(a.profiles[i]) == leaves(olds[i]) && joins(a.profiles[i]) == joins(olds[i])
      ensures IdOf(a.profiles[i]) == IdOf(olds[i]) && Readd(a.profiles[i]) == Readd(olds[i])
    {
      SameVerdicts(a, b, i, now);
      SameVerdicts(a, b, i, to);
    }
    ImagesPointwise(a.profiles, olds, leaves, leaves, IdOf);
    ImagesPointwise(a.profiles, olds, joins, joins, Readd);
    assert IdsOf(Filter(a.profiles, leaves)) == IdsOf(Filter(olds, leaves));
    assert ReaddAll(Filter(a.profiles, joins)) == ReaddAll(Filter(olds, joins));
  }

  // ---- the ids to retire

  lemma {:induction false} CountOnce<T>(s: seq<T>, x: T)
    requires forall i, j :: 0 <= i < j < |s| ==> s[i] != s[j]
    ensures multiset(s)[x] <= 1
  {
    if s != [] {
      CountOnce(s[1..], x);
      assert s == [s[0]] + s[1..];
      assert s[0] !in s[1..];
    }
  }

  lemma OnceIsDistinct<T>(s: seq<T>)
    requires forall x :: multiset(s)[x] <= 1
    ensures forall i, j :: 0 <= i < j < |s| ==> s[i] != s[j]
  {
    forall i, j | 0 <= i < j < |s| ensures s[i] != s[j] {
      assert s == s[..j] + [s[j]] + s[j + 1..];
      assert s[i] in s[..j];
      assert multiset(s)[s[j]] >= multiset(s[..j])[s[j]] + 1;
    }
  }

  lemma SortKeepsDistinct(ids: seq<int>)
    requires forall i, j :: 0 <= i < j < |ids| ==> ids[i] != ids[j]
    ensures forall i, j :: 0 <= i < j < |Ascending(ids)| ==> Ascending(ids)[i] != Ascending(ids)[j]
    ensures forall k :: k in Ascending(ids) <==> k in ids
  {
    SortSorts(ids, AtMost);
    forall x ensures multiset(Ascending(ids))[x] <= 1 {
      CountOnce(ids, x);
    }
    OnceIsDistinct(Ascending(ids));
  }

  ghost predicate OrderedById(ps: seq<Profile>) {
    forall i, j :: 0 <= i < j < |ps| ==> ps[i].id < ps[j].id
  }

  lemma {:induction false} FilterKeepsOrder(ps: seq<Profile>, f: Profile -> bool)
    requires OrderedById(ps)
    ensures OrderedById(Filter(ps, f))
  {
    if ps != [] {
      var init, last := ps[..|ps| - 1], ps[|ps| - 1];
      FilterKeepsOrder(init, f);
      FilterMembers(init, f);
      var qs := Filter(init, f);
      forall i | 0 <= i < |qs| ensures qs[i].id < last.id {
        assert qs[i] in init;
        var k :| 0 <= k < |init| && init[k] == qs[i];
        assert ps[k].id < ps[|ps| - 1].id;
      }
    }
  }

  /** The ids to retire: distinct, and exactly those of the rows that leave. */
  lemma LeavingIds(lib: Library, to: int)
    requires Inv(lib)
    ensures var ids := RollbackPlanOf(lib, to, "", "").removeIds;
            && (forall i, j :: 0 <= i < j < |ids| ==> ids[i] != ids[j])
            && (forall k :: k in ids <==> exists p :: p in lib.profiles && p.id == k && Leaves(p, |lib.releases|, to))
  {
    LatestOf(lib);
    PlanShape(lib, |lib.releases|, to);
    var f := LeavesAt(|lib.releases|, to);
    var rows := Filter(lib.profiles, f);
    FilterKeepsOrder(lib.profiles, f);
    FilterMembers(lib.profiles, f);
    SortKeepsDistinct(IdsOf(rows));
    forall k ensures k in IdsOf(rows) <==> exists p :: p in lib.profiles && p.id == k && Leaves(p, |lib.releases|, to) {
      if k in IdsOf(rows) {
        var i :| 0 <= i < |rows| && IdsOf(rows)[i] == k;
        assert rows[i] in rows;
      }
      if exists p :: p in lib.profiles && p.id == k && Leaves(p, |lib.releases|, to) {
        var p :| p in lib.profiles && p.id == k && Leaves(p, |lib.releases|, to);
        assert p in rows;
        var i :| 0 <= i < |rows| && rows[i] == p;
        assert IdsOf(rows)[i] == k;
      }
    }
  }

  ghost predicate StillLive(lib: Library, id: int) {
    exists p :: p in lib.profiles && Matches(p, id)
  }

  /** Retiring succeeds only when every id names a live row to begin with. */
  lemma {:induction false} RetireAllNeeds(ps: seq<Profile>, ids: seq<int>, v: int)
    requires RetireAll(ps, ids, v).Some?
    ensures forall k :: k in ids ==> exists p :: p in ps && Matches(p, k)
  {
    if ids != [] {
      var last := |ids| - 1;
      RetireAllNeeds(ps, ids[..last], v);
      RetireAllEffect(ps, ids[..last], v);
      var qs := RetireAll(ps, ids[..last], v).value;
      var q :| q in qs && Matches(q, ids[last]);
      var i :| 0 <= i < |qs| && qs[i] == q;
      assert ps[i] in ps && Matches(ps[i], ids[last]);
      assert ids == ids[..last] + [ids[last]];
    }
  }

  lemma LegalSource(c: Content, materials: set<string>)
    requires Legal(c, materials)
    ensures c.source != ""
  {
    assert |c.source| > 0;
  }

  /** Re-added rows carry the stored content unchanged, so the table accepts them again. */
  lemma ReaddedRows(lib: Library, to: int, firstId: int, v: int, approvedBy: string)
    requires Inv(lib)
    ensures var rows := NewRows(RollbackPlanOf(lib, to, "", "").added, firstId, v, approvedBy);
            AllLegal(rows, lib.materials) && ContentsOf(rows) == ContentsOf(Filter(lib.profiles, JoinsAt(|lib.releases|, to)))
  {
    LatestOf(lib);
    PlanShape(lib, |lib.releases|, to);
    var f := JoinsAt(|lib.releases|, to);
    var back := Filter(lib.profiles, f);
    var rows := NewRows(RollbackPlanOf(lib, to, "", "").added, firstId, v, approvedBy);
    FilterMembers(lib.profiles, f);
    forall i | 0 <= i < |back| ensures rows[i].content == back[i].content && Legal(back[i].content, lib.materials) {
      assert back[i] in back;
      assert RowOk(lib, back[i]);
      LegalSource(back[i].content, lib.materials);
    }
    assert ContentSeq(rows) == ContentSeq(back);
  }

  // ---- acceptance

  lemma AcceptedIds(c: Library, ids: seq<int>)
    requires forall i, j :: 0 <= i < j < |ids| ==> ids[i] != ids[j]
    ensures RetireAll(c.profiles, ids, |c.releases| + 1).Some? <==> forall k :: k in ids ==> StillLive(c, k)
  {
    if RetireAll(c.profiles, ids, |c.releases| + 1).Some? {
      RetireAllNeeds(c.profiles, ids, |c.releases| + 1);
    }
    if forall k :: k in ids ==> StillLive(c, k) {
      RetireAllAccepts(c.profiles, ids, |c.releases| + 1);
    }
  }

  lemma PlanAccepted(a: Library, c: Library, to: int, createdBy: string, approvedBy: string)
    requires Inv(a) && Inv(c) && c.materials == a.materials
    ensures var plan := RollbackPlanOf(a, to, createdBy, approvedBy);
            PublishTx(c, plan).Ok? <==>
              approvedBy != "" && approvedBy != createdBy && forall k :: k in plan.removeIds ==> StillLive(c, k)
  {
    var plan := RollbackPlanOf(a, to, createdBy, approvedBy);
    assert plan.removeIds == RollbackPlanOf(a, to, "", "").removeIds && plan.added == RollbackPlanOf(a, to, "", "").added;
    LatestOf(c);
    LeavingIds(a, to);
    ReaddedRows(a, to, c.nextId, |c.releases| + 1, approvedBy);
    AcceptedIds(c, plan.removeIds);
  }

  lemma LiveIds(a: Library, c: Library, to: int)
    requires Inv(a)
    ensures (forall k :: k in RollbackPlanOf(a, to, "", "").removeIds ==> StillLive(c, k))
       <==> (forall p :: p in a.profiles && Leaves(p, |a.releases|, to) ==> StillLive(c, p.id))
  {
    var ids := RollbackPlanOf(a, to, "", "").removeIds;
    LeavingIds(a, to);
    if forall p :: p in a.profiles && Leaves(p, |a.releases|, to) ==> StillLive(c, p.id) {
      forall k | k in ids ensures StillLive(c, k) {
        var p :| p in a.profiles && p.id == k && Leaves(p, |a.releases|, to);
      }
    }
  }

  /** A rollback whose releases were read at a, profiles at b, and whose transaction runs at c is
      accepted exactly when a second person signs it and nobody has retired a planned row in between. */
  lemma RollbackAccepted(a: Library, b: Library, c: Library, to: int, createdBy: string, approvedBy: string)
    requires Inv(a) && Inv(b) && Inv(c) && Extends(a, b) && Extends(b, c)
    requires 1 <= to <= |a.releases| && createdBy != ""
    ensures RollbackOver(a.releases, b.profiles, c, to, createdBy, approvedBy).Ok?
       <==> approvedBy != "" && approvedBy != createdBy
            && forall p :: p in a.profiles && Leaves(p, |a.releases|, to) ==> StillLive(c, p.id)
  {
    PlanStable(a, b, to, createdBy, approvedBy);
    assert a.releases[to - 1] in a.releases && a.releases[to - 1].version == to;
    PlanAccepted(a, c, to, createdBy, approvedBy);
    LiveIds(a, c, to);
    assert RollbackPlanOf(a, to, createdBy, approvedBy).removeIds == RollbackPlanOf(a, to, "", "").removeIds;
  }

  // ---- restoring

  function LiveBut(ids: seq<int>): Profile -> bool {
    (p: Profile) => p.removed.None? && p.id !in ids
  }

  lemma OldRowsContents(c: Library, plan: Plan, post: Library)
    requires Inv(c) && Published(c, plan, post)
    ensures ContentsOf(Filter(post.profiles[..|c.profiles|], EffAt(|c.releases| + 1)))
         == ContentsOf(Filter(c.profiles, LiveBut(plan.removeIds)))
  {
    var n := |c.profiles|;
    var olds := post.profiles[..n];
    var e, live := EffAt(|c.releases| + 1), LiveBut(plan.removeIds);
    forall i | 0 <= i < n ensures olds[i].content == c.profiles[i].content && e(olds[i]) == live(c.profiles[i]) {
      RowOrigin(c, plan, post, i);
    }
    ContentsPointwise(olds, c.profiles, e, live);
  }

  lemma NewRowsEffective(ds: seq<Profile>, firstId: int, v: int, approvedBy: string)
    ensures Filter(NewRows(ds, firstId, v, approvedBy), EffAt(v)) == NewRows(ds, firstId, v, approvedBy)
  {
    FilterAll(NewRows(ds, firstId, v, approvedBy), EffAt(v));
  }

  lemma NewRowsLast(c: Library, plan: Plan, post: Library)
    requires Published(c, plan, post)
    ensures post.profiles[|c.profiles|..] == NewRows(plan.added, c.nextId, |c.releases| + 1, plan.approvedBy)
  {
    SameTail(post.profiles, |c.profiles|, NewRows(plan.added, c.nextId, |c.releases| + 1, plan.approvedBy));
  }

  /** What a publish leaves effective: the live rows it does not retire, and its new rows. */
  lemma PublishedContents(c: Library, plan: Plan, post: Library)
    requires Inv(c) && Published(c, plan, post)
    ensures ContentsOf(EffectiveAt(post.profiles, |c.releases| + 1))
         == ContentsOf(Filter(c.profiles, LiveBut(plan.removeIds)))
            + ContentsOf(NewRows(plan.added, c.nextId, |c.releases| + 1, plan.approvedBy))
  {
    var n, v := |c.profiles|, |c.releases| + 1;
    var rows := NewRows(plan.added, c.nextId, v, plan.approvedBy);
    OldRowsContents(c, plan, post);
    NewRowsLast(c, plan, post);
    NewRowsEffective(plan.added, c.nextId, v, plan.approvedBy);
    EffectiveSplit(post.profiles, n, v);
  }

  lemma EffectiveSplit(ps: seq<Profile>, n: nat, v: int)
    requires n <= |ps|
    ensures ContentsOf(EffectiveAt(ps, v)) == ContentsOf(Filter(ps[..n], EffAt(v))) + ContentsOf(Filter(ps[n..], EffAt(v)))
  {
    assert ps == ps[..n] + ps[n..];
    FilterAppend(ps[..n], ps[n..], EffAt(v));
    ContentsAppend(Filter(ps[..n], EffAt(v)), Filter(ps[n..], EffAt(v)));
  }

  lemma SameTail<T>(s: seq<T>, n: nat, t: seq<T>)
    requires |s| == n + |t| && forall i :: 0 <= i < |t| ==> s[n + i] == t[i]
    ensures s[n..] == t
  {
  }

  /** The target is what the plan leaves of the latest version, and what it adds again. */
  lemma TargetContents(a: Library, to: int)
    requires Inv(a) && to <= |a.releases|
    ensures ContentsOf(EffectiveAt(a.profiles, to))
         == ContentsOf(Filter(a.profiles, LiveBut(RollbackPlanOf(a, to, "", "").removeIds)))
            + ContentsOf(Filter(a.profiles, JoinsAt(|a.releases|, to)))
  {
    var now := |a.releases|;
    var ids := RollbackPlanOf(a, to, "", "").removeIds;
    var both := (p: Profile) => IsEffective(p, now) && IsEffective(p, to);
    LeavingIds(a, to);
    forall p | p in a.profiles ensures both(p) == LiveBut(ids)(p) {
      assert RowOk(a, p);
      if p.id in ids {
        var q :| q in a.profiles && q.id == p.id && Leaves(q, now, to);
        UniqueId(a, p, q);
      }
    }
    FilterSame(a.profiles, both, LiveBut(ids));
    ContentsSplit(a.profiles, EffAt(to), both, JoinsAt(now, to));
  }

  function LatestContents(lib: Library): multiset<Content> {
    ContentsOf(EffectiveAt(lib.profiles, Latest(lib.releases)))
  }

  /** The library's latest version has the contents of version to of library a, with multiplicity. */
  ghost predicate Restored(post: Library, a: Library, to: int) {
    LatestContents(post) == ContentsOf(EffectiveAt(a.profiles, to))
  }

  /** The live rows outside ids have the same contents in both libraries, with multiplicity. */
  ghost predicate Undisturbed(a: Library, c: Library, ids: seq<int>) {
    ContentsOf(Filter(c.profiles, LiveBut(ids))) == ContentsOf(Filter(a.profiles, LiveBut(ids)))
  }

  /** What the publish of a's plan on c leaves effective: c's rows outside the plan, and a's joining rows. */
  lemma PlanLeaves(a: Library, c: Library, to: int, createdBy: string, approvedBy: string)
    requires Inv(a) && Inv(c) && PublishTx(c, RollbackPlanOf(a, to, createdBy, approvedBy)).Ok?
    ensures LatestContents(PublishTx(c, RollbackPlanOf(a, to, createdBy, approvedBy)).value)
         == ContentsOf(Filter(c.profiles, LiveBut(RollbackPlanOf(a, to, "", "").removeIds)))
            + ContentsOf(Filter(a.profiles, JoinsAt(|a.releases|, to)))
  {
    var plan := RollbackPlanOf(a, to, createdBy, approvedBy);
    var post := PublishTx(c, plan).value;
    LatestOf(c);
    PublishTxMeans(c, plan);
    PublishKeepsInv(c, plan, post);
    LatestOf(post);
    PublishedContents(c, plan, post);
    ReaddedRows(a, to, c.nextId, |c.releases| + 1, plan.approvedBy);
  }

  /** An accepted rollback restores the target's contents exactly when the publishes since its reads
      have left the contents of the rows outside its plan as they were. */
  lemma RollbackRestores(a: Library, b: Library, c: Library, to: int, createdBy: string, approvedBy: string)
    requires Inv(a) && Inv(b) && Inv(c) && Extends(a, b) && Extends(b, c) && 1 <= to <= |a.releases|
    requires RollbackOver(a.releases, b.profiles, c, to, createdBy, approvedBy).Ok?
    ensures Restored(RollbackOver(a.releases, b.profiles, c, to, createdBy, approvedBy).value, a, to)
       <==> Undisturbed(a, c, RollbackPlanOf(a, to, createdBy, approvedBy).removeIds)
  {
    var ids := RollbackPlanOf(a, to, "", "").removeIds;
    PlanStable(a, b, to, createdBy, approvedBy);
    PlanLeaves(a, c, to, createdBy, approvedBy);
    TargetContents(a, to);
    Cancel(ContentsOf(Filter(c.profiles, LiveBut(ids))), ContentsOf(Filter(a.profiles, LiveBut(ids))),
           ContentsOf(Filter(a.profiles, JoinsAt(|a.releases|, to))));
    assert RollbackPlanOf(a, to, createdBy, approvedBy).removeIds == ids;
  }

  lemma Cancel<T>(x: multiset<T>, y: multiset<T>, z: multiset<T>)
    ensures x + z == y + z <==> x == y
  {
    if x + z == y + z {
      forall e ensures x[e] == y[e] {
        assert (x + z)[e] == (y + z)[e];
      }
    }
  }

  /** Serialised rollbacks, whatever the target came from: accepted when a second person signs, and
      the new version has the target's contents. */
  lemma SerialRollback(lib: Library, to: int, createdBy: string, approvedBy: string)
    requires Inv(lib) && 1 <= to <= |lib.releases| && createdBy != ""
    ensures RollbackTx(lib, to, createdBy, approvedBy).Ok? <==> approvedBy != "" && approvedBy != createdBy
    ensures RollbackTx(lib, to, createdBy, approvedBy).Ok? ==> Restored(RollbackTx(lib, to, createdBy, approvedBy).value, lib, to)
  {
    ExtendsSelf(lib);
    RollbackAccepted(lib, lib, lib, to, createdBy, approvedBy);
    forall p | p in lib.profiles && Leaves(p, |lib.releases|, to) ensures StillLive(lib, p.id) {
      assert RowOk(lib, p) && Matches(p, p.id);
    }
    if RollbackTx(lib, to, createdBy, approvedBy).Ok? {
      RollbackRestores(lib, lib, lib, to, createdBy, approvedBy);
    }
  }

  /** A publish in between that only adds is not undone: the rollback is accepted, and misses the target. */
  lemma AdditionSurvives(a: Library, plan: Plan, c: Library, to: int, createdBy: string, approvedBy: string)
    requires Inv(a) && Published(a, plan, c) && plan.removeIds == [] && plan.added != []
    requires 1 <= to <= |a.releases| && createdBy != "" && approvedBy != "" && approvedBy != createdBy
    ensures RollbackOver(a.releases, a.profiles, c, to, createdBy, approvedBy).Ok?
    ensures !Restored(RollbackOver(a.releases, a.profiles, c, to, createdBy, approvedBy).value, a, to)
  {
    PublishKeepsInv(a, plan, c);
    PublishedExtends(a, plan, c);
    ExtendsSelf(a);
    AdditionKeepsLive(a, plan, c, to);
    RollbackAccepted(a, a, c, to, createdBy, approvedBy);
    RollbackRestores(a, a, c, to, createdBy, approvedBy);
    LeavingIds(a, to);
    assert RollbackPlanOf(a, to, createdBy, approvedBy).removeIds == RollbackPlanOf(a, to, "", "").removeIds;
    KnownIds(a, to);
    MoreLive(a, plan, c, RollbackPlanOf(a, to, "", "").removeIds);
  }

  lemma AdditionKeepsLive(a: Library, plan: Plan, c: Library, to: int)
    requires Inv(a) && Published(a, plan, c) && plan.removeIds == []
    ensures forall p :: p in a.profiles && Leaves(p, |a.releases|, to) ==> StillLive(c, p.id)
  {
    forall p | p in a.profiles && Leaves(p, |a.releases|, to) ensures StillLive(c, p.id) {
      var i :| 0 <= i < |a.profiles| && a.profiles[i] == p;
      RowOrigin(a, plan, c, i);
      assert c.profiles[i] in c.profiles && Matches(c.profiles[i], p.id);
    }
  }

  lemma KnownIds(a: Library, to: int)
    requires Inv(a)
    ensures forall k :: k in RollbackPlanOf(a, to, "", "").removeIds ==> k < a.nextId
  {
    LeavingIds(a, to);
    forall k | k in RollbackPlanOf(a, to, "", "").removeIds ensures k < a.nextId {
      var p :| p in a.profiles && p.id == k && Leaves(p, |a.releases|, to);
      assert RowOk(a, p);
    }
  }

  lemma MoreLive(a: Library, plan: Plan, c: Library, ids: seq<int>)
    requires Inv(a) && Published(a, plan, c) && plan.removeIds == [] && plan.added != []
    requires forall k :: k in ids ==> k < a.nextId
    ensures ContentsOf(Filter(c.profiles, LiveBut(ids))) != ContentsOf(Filter(a.profiles, LiveBut(ids)))
  {
    var n, f := |a.profiles|, LiveBut(ids);
    assert c.profiles[..n] == a.profiles;
    assert c.profiles == a.profiles + c.profiles[n..];
    forall p | p in c.profiles[n..] ensures f(p) {
      var i :| 0 <= i < |c.profiles[n..]| && c.profiles[n..][i] == p;
      RowOrigin(a, plan, c, n + i);
    }
    FilterAppend(a.profiles, c.profiles[n..], f);
    FilterAll(c.profiles[n..], f);
    assert |ContentsOf(Filter(c.profiles, f))| == |Filter(c.profiles, f)|;
    assert |ContentsOf(Filter(a.profiles, f))| == |Filter(a.profiles, f)|;
  }
}
