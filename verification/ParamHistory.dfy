/** What the publish transaction keeps: history, identities, snapshots; what rollback restores;
    and what every client holds after any run. */
module ParamHistory {
  import opened Basics
  import opened Sorting
  import opened ParamLibrary

  // ---- the effect of retiring

  lemma {:induction false} LatestIsCount(lib: Library, n: nat)
    requires Inv(lib) && n <= |lib.releases|
    ensures Latest(lib.releases[..n]) == n
  {
    if n > 0 {
      LatestIsCount(lib, n - 1);
      assert lib.releases[..n][..n - 1] == lib.releases[..n - 1];
    }
  }

  lemma LatestOf(lib: Library)
    requires Inv(lib)
    ensures Latest(lib.releases) == |lib.releases|
  {
    LatestIsCount(lib, |lib.releases|);
    assert lib.releases[..|lib.releases|] == lib.releases;
  }

  /** RetireAll touches exactly the live rows whose ids are listed. */
  lemma {:induction false} RetireAllEffect(ps: seq<Profile>, ids: seq<int>, v: int)
    requires RetireAll(ps, ids, v).Some?
    ensures var qs := RetireAll(ps, ids, v).value;
            && |qs| == |ps|
            && forall i :: 0 <= i < |ps| ==>
                 qs[i] == if ps[i].id in ids && ps[i].removed.None? then ps[i].(removed := Some(v)) else ps[i]
  {
    if ids != [] {
      var last := |ids| - 1;
      RetireAllEffect(ps, ids[..last], v);
      assert forall k :: k in ids <==> k in ids[..last] || k == ids[last] by {
        assert ids == ids[..last] + [ids[last]];
      }
    }
  }

  /** It succeeds when the ids are distinct and each names a live row. */
  lemma {:induction false} RetireAllAccepts(ps: seq<Profile>, ids: seq<int>, v: int)
    requires forall i, j :: 0 <= i < j < |ids| ==> ids[i] != ids[j]
    requires forall k :: k in ids ==> exists p :: p in ps && Matches(p, k)
    ensures RetireAll(ps, ids, v).Some?
  {
    if ids != [] {
      var last := |ids| - 1;
      assert forall k :: k in ids[..last] ==> k in ids;
      RetireAllAccepts(ps, ids[..last], v);
      RetireAllEffect(ps, ids[..last], v);
      var qs := RetireAll(ps, ids[..last], v).value;
      assert ids[last] !in ids[..last];
      assert ids[last] in ids;
      var p :| p in ps && Matches(p, ids[last]);
      var i :| 0 <= i < |ps| && ps[i] == p;
      assert qs[i] == p && qs[i] in qs;
    }
  }

  /** A successful publish: old rows, some newly retired, then fresh ones; one more release and snapshot. */
  ghost predicate Published(lib: Library, plan: Plan, post: Library) {
    var n, v := |lib.profiles|, |lib.releases| + 1;
    && |post.profiles| == n + |plan.added|
    && (forall i :: 0 <= i < n ==> post.profiles[i] == AfterPublish(lib.profiles[i], plan, v))
    && (forall i :: 0 <= i < |plan.added| ==>
          && post.profiles[n + i] == NewRow(plan.added[i], lib.nextId + i, v, plan.approvedBy)
          && Legal(post.profiles[n + i].content, lib.materials))
    && |post.releases| == v && post.releases[..v - 1] == lib.releases && post.releases[v - 1].version == v
    && post.snapshots == lib.snapshots[v := EffectiveAt(post.profiles, v)]
    && post.nextId == lib.nextId + |plan.added|
    && post.materials == lib.materials
  }

  function AfterPublish(p: Profile, plan: Plan, v: int): Profile {
    if p.id in plan.removeIds && p.removed.None? then p.(removed := Some(v)) else p
  }

  lemma PublishTxMeans(lib: Library, plan: Plan)
    requires Latest(lib.releases) == |lib.releases| && PublishTx(lib, plan).Ok?
    ensures Published(lib, plan, PublishTx(lib, plan).value)
  {
    var v := |lib.releases| + 1;
    RetireAllEffect(lib.profiles, plan.removeIds, v);
    var rows := NewRows(plan.added, lib.nextId, v, plan.approvedBy);
    CommitMeans(lib, plan, RetireAll(lib.profiles, plan.removeIds, v).value, rows);
  }

  lemma CommitMeans(lib: Library, plan: Plan, old': seq<Profile>, rows: seq<Profile>)
    requires Latest(lib.releases) == |lib.releases|
    requires |old'| == |lib.profiles|
    requires forall i :: 0 <= i < |old'| ==> old'[i] == AfterPublish(lib.profiles[i], plan, |lib.releases| + 1)
    requires rows == NewRows(plan.added, lib.nextId, |lib.releases| + 1, plan.approvedBy)
    requires AllLegal(rows, lib.materials)
    ensures Published(lib, plan, Commit(lib, plan, old' + rows))
  {
    var post := Commit(lib, plan, old' + rows);
    var n, n' := |lib.profiles|, |lib.releases| + 1;
    assert post.releases[..|lib.releases|] == lib.releases;
    forall i | 0 <= i < |plan.added|
      ensures post.profiles[n + i] == NewRow(plan.added[i], lib.nextId + i, n', plan.approvedBy)
      ensures Legal(post.profiles[n + i].content, lib.materials)
    {
      assert post.profiles[n + i] == rows[i];
    }
  }

  /** Where a row of the new library comes from. */
  lemma RowOrigin(lib: Library, plan: Plan, post: Library, i: nat)
    requires Inv(lib) && Published(lib, plan, post) && i < |post.profiles|
    ensures i < |lib.profiles| ==>
              RowOk(lib, lib.profiles[i]) && post.profiles[i] == AfterPublish(lib.profiles[i], plan, |lib.releases| + 1)
    ensures |lib.profiles| <= i ==>
              && post.profiles[i] == NewRow(plan.added[i - |lib.profiles|], lib.nextId + (i - |lib.profiles|), |lib.releases| + 1, plan.approvedBy)
              && Legal(post.profiles[i].content, lib.materials)
  {
    if i < |lib.profiles| {
      assert lib.profiles[i] in lib.profiles;
    } else {
      assert post.profiles[|lib.profiles| + (i - |lib.profiles|)] == post.profiles[i];
    }
  }

  lemma ViewGrows(lib: Library, plan: Plan, post: Library, v: int, q: Profile)
    requires Inv(lib) && Published(lib, plan, post) && v <= |lib.releases|
    requires q in View(lib.profiles, v)
    ensures q in View(post.profiles, v)
  {
    var p :| p in lib.profiles && IsEffective(p, v) && Strip(p) == q;
    var i :| 0 <= i < |lib.profiles| && lib.profiles[i] == p;
    RowOrigin(lib, plan, post, i);
    assert post.profiles[i] in post.profiles;
  }

  lemma ViewShrinks(lib: Library, plan: Plan, post: Library, v: int, q: Profile)
    requires Inv(lib) && Published(lib, plan, post) && v <= |lib.releases|
    requires q in View(post.profiles, v)
    ensures q in View(lib.profiles, v)
  {
    var p :| p in post.profiles && IsEffective(p, v) && Strip(p) == q;
    var i :| 0 <= i < |post.profiles| && post.profiles[i] == p;
    RowOrigin(lib, plan, post, i);
    assert lib.profiles[i] in lib.profiles;
  }

  /** No publish changes the effective set of an earlier version. */
  lemma HistoryImmutable(lib: Library, plan: Plan, post: Library, v: int)
    requires Inv(lib) && Published(lib, plan, post) && v <= |lib.releases|
    ensures View(post.profiles, v) == View(lib.profiles, v)
  {
    forall q ensures q in View(post.profiles, v) <==> q in View(lib.profiles, v) {
      if q in View(lib.profiles, v) { ViewGrows(lib, plan, post, v, q); }
      if q in View(post.profiles, v) { ViewShrinks(lib, plan, post, v, q); }
    }
  }

  lemma RowsStayOk(lib: Library, plan: Plan, post: Library)
    requires Inv(lib) && Published(lib, plan, post)
    ensures forall p :: p in post.profiles ==> RowOk(post, p)
  {
    forall p | p in post.profiles ensures RowOk(post, p) {
      var i :| 0 <= i < |post.profiles| && post.profiles[i] == p;
      RowOrigin(lib, plan, post, i);
    }
  }

  lemma IdsStayOrdered(lib: Library, plan: Plan, post: Library)
    requires Inv(lib) && Published(lib, plan, post)
    ensures forall i, j :: 0 <= i < j < |post.profiles| ==> post.profiles[i].id < post.profiles[j].id
  {
    forall i, j | 0 <= i < j < |post.profiles| ensures post.profiles[i].id < post.profiles[j].id {
      RowOrigin(lib, plan, post, i);
      RowOrigin(lib, plan, post, j);
    }
  }

  lemma ViewOfEffective(ps: seq<Profile>, v: int)
    ensures StripAll(EffectiveAt(ps, v)) == View(ps, v)
  {
    FilterMembers(ps, EffAt(v));
  }

  lemma SnapshotsStay(lib: Library, plan: Plan, post: Library)
    requires Inv(lib) && Published(lib, plan, post)
    ensures forall v :: v in post.snapshots <==> 1 <= v <= |post.releases|
    ensures forall v :: v in post.snapshots ==> StripAll(post.snapshots[v]) == View(post.profiles, v)
  {
    ViewOfEffective(post.profiles, |lib.releases| + 1);
    forall v | v in post.snapshots ensures StripAll(post.snapshots[v]) == View(post.profiles, v) {
      if v <= |lib.releases| {
        HistoryImmutable(lib, plan, post, v);
      }
    }
  }

  lemma VersionsStay(lib: Library, plan: Plan, post: Library)
    requires Inv(lib) && Published(lib, plan, post)
    ensures forall i :: 0 <= i < |post.releases| ==> post.releases[i].version == i + 1
  {
    forall i | 0 <= i < |post.releases| ensures post.releases[i].version == i + 1 {
      if i < |lib.releases| {
        assert post.releases[..|lib.releases|][i] == lib.releases[i];
      }
    }
  }

  /** Every library a run of publishes can reach satisfies Inv. */
  lemma PublishKeepsInv(lib: Library, plan: Plan, post: Library)
    requires Inv(lib) && Published(lib, plan, post)
    ensures Inv(post)
  {
    RowsStayOk(lib, plan, post);
    IdsStayOrdered(lib, plan, post);
    SnapshotsStay(lib, plan, post);
    VersionsStay(lib, plan, post);
  }

  // ---- the baseline that Publish infers

  function MaxMark(ps: seq<Profile>): int {
    if ps == [] then 0
    else
      var m := MaxMark(ps[..|ps| - 1]);
      var p := ps[|ps| - 1];
      var m1 := if p.added > m then p.added else m;
      if p.removed.Some? && p.removed.value > m1 then p.removed.value else m1
  }

  method InferBaseline(ps: seq<Profile>) returns (cur: int)
    ensures cur == MaxMark(ps)
  {
    cur := 0;
    for i := 0 to |ps|
      invariant cur == MaxMark(ps[..i])
    {
      assert ps[..i + 1][..i] == ps[..i];
      if ps[i].added > cur {
        cur := ps[i].added;
      }
      if ps[i].removed.Some? && ps[i].removed.value > cur {
        cur := ps[i].removed.value;
      }
    }
    assert ps[..|ps|] == ps;
  }

  lemma {:induction false} MaxMarkBounds(ps: seq<Profile>, limit: int)
    requires 0 <= limit
    requires forall p :: p in ps ==> p.added <= limit && (p.removed.Some? ==> p.removed.value <= limit)
    ensures MaxMark(ps) <= limit
    ensures forall p :: p in ps ==> p.added <= MaxMark(ps) && (p.removed.Some? ==> p.removed.value <= MaxMark(ps))
  {
    if ps != [] {
      MaxMarkBounds(ps[..|ps| - 1], limit);
      assert ps == ps[..|ps| - 1] + [ps[|ps| - 1]];
    }
  }

  /** The version inferred from the profile marks has the latest release's effective set. */
  lemma BaselineIsLatest(lib: Library)
    requires Inv(lib)
    ensures EffectiveAt(lib.profiles, MaxMark(lib.profiles)) == EffectiveAt(lib.profiles, Latest(lib.releases))
  {
    LatestOf(lib);
    assert forall p :: p in lib.profiles ==> RowOk(lib, p);
    MaxMarkBounds(lib.profiles, |lib.releases|);
    FilterSame(lib.profiles, EffAt(MaxMark(lib.profiles)),
               EffAt(Latest(lib.releases)));
  }

  // ---- libraries further on

  lemma UniqueId(lib: Library, p: Profile, q: Profile)
    requires Inv(lib) && p in lib.profiles && q in lib.profiles && p.id == q.id
    ensures p == q
  {
    var i :| 0 <= i < |lib.profiles| && lib.profiles[i] == p;
    var j :| 0 <= j < |lib.profiles| && lib.profiles[j] == q;
    assert i == j;
  }

  /** An id is in an effective set exactly when its row is effective there. */
  lemma IdInEffective(lib: Library, p: Profile, v: int)
    requires Inv(lib) && p in lib.profiles
    ensures p.id in Ids(EffectiveAt(lib.profiles, v)) <==> IsEffective(p, v)
  {
    FilterMembers(lib.profiles, EffAt(v));
    if p.id in Ids(EffectiveAt(lib.profiles, v)) {
      var q :| q in EffectiveAt(lib.profiles, v) && q.id == p.id;
      UniqueId(lib, p, q);
    }
  }

  /** Later only by publishes: old rows at their places, at most retired since; new rows added since. */
  ghost predicate Extends(a: Library, b: Library) {
    && |a.profiles| <= |b.profiles| && |a.releases| <= |b.releases|
    && b.releases[..|a.releases|] == a.releases && b.materials == a.materials
    && (forall i :: 0 <= i < |a.profiles| ==> RowLater(a.profiles[i], b.profiles[i], |a.releases|))
    && (forall i :: |a.profiles| <= i < |b.profiles| ==> b.profiles[i].added > |a.releases|)
  }

  predicate RowLater(p: Profile, q: Profile, since: int) {
    q == p || (p.removed.None? && q.removed.Some? && q.removed.value > since && q == p.(removed := q.removed))
  }

  lemma ExtendsSelf(a: Library)
    ensures Extends(a, a)
  {
  }

  lemma PublishedExtends(a: Library, plan: Plan, b: Library)
    requires Inv(a) && Published(a, plan, b)
    ensures Extends(a, b)
  {
    forall i | 0 <= i < |b.profiles|
      ensures i < |a.profiles| ==> RowLater(a.profiles[i], b.profiles[i], |a.releases|)
      ensures |a.profiles| <= i ==> b.profiles[i].added > |a.releases|
    {
      RowOrigin(a, plan, b, i);
    }
  }

  lemma ExtendsOn(a: Library, b: Library, c: Library)
    requires Extends(a, b) && Extends(b, c)
    ensures Extends(a, c)
  {
    forall i | 0 <= i < |a.profiles| ensures RowLater(a.profiles[i], c.profiles[i], |a.releases|) {
      assert RowLater(a.profiles[i], b.profiles[i], |a.releases|) && RowLater(b.profiles[i], c.profiles[i], |b.releases|);
    }
    forall i | |a.profiles| <= i < |c.profiles| ensures c.profiles[i].added > |a.releases| {
      if i < |b.profiles| {
        assert RowLater(b.profiles[i], c.profiles[i], |b.releases|);
      }
    }
    assert c.releases[..|a.releases|] == c.releases[..|b.releases|][..|a.releases|];
  }

  /** What a run of publish requests leaves; refused ones change nothing. */
  function PublishAll(lib: Library, plans: seq<Plan>): Library {
    if plans == [] then lib
    else
      var before := PublishAll(lib, plans[..|plans| - 1]);
      var r := PublishTx(before, plans[|plans| - 1]);
      if r.Ok? then r.value else before
  }

  /** Every run of publishes leads to a library further on. */
  lemma {:induction false} RunExtends(lib: Library, plans: seq<Plan>)
    requires Inv(lib)
    ensures Inv(PublishAll(lib, plans)) && Extends(lib, PublishAll(lib, plans))
  {
    if plans == [] {
      ExtendsSelf(lib);
    } else {
      var before, plan := PublishAll(lib, plans[..|plans| - 1]), plans[|plans| - 1];
      RunExtends(lib, plans[..|plans| - 1]);
      LatestOf(before);
      if PublishTx(before, plan).Ok? {
        PublishTxMeans(before, plan);
        PublishKeepsInv(before, plan, PublishTx(before, plan).value);
        PublishedExtends(before, plan, PublishTx(before, plan).value);
        ExtendsOn(lib, before, PublishTx(before, plan).value);
      }
    }
  }

  /** A version that was out when the releases were read has the same effective set ever after. */
  lemma ViewStays(a: Library, b: Library, v: int)
    requires Extends(a, b) && v <= |a.releases|
    ensures View(b.profiles, v) == View(a.profiles, v)
  {
    forall q ensures q in View(b.profiles, v) <==> q in View(a.profiles, v) {
      if q in View(a.profiles, v) {
        var p :| p in a.profiles && IsEffective(p, v) && Strip(p) == q;
        var i :| 0 <= i < |a.profiles| && a.profiles[i] == p;
        assert RowLater(p, b.profiles[i], |a.releases|) && b.profiles[i] in b.profiles;
      }
      if q in View(b.profiles, v) {
        var p :| p in b.profiles && IsEffective(p, v) && Strip(p) == q;
        var i :| 0 <= i < |b.profiles| && b.profiles[i] == p;
        assert i < |a.profiles|;
        assert RowLater(a.profiles[i], p, |a.releases|) && a.profiles[i] in a.profiles;
      }
    }
  }
}
