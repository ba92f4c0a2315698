/** What a publish records, when it is accepted, and whom a partial rollout reaches. */
module ParamRollout {
  import opened Basics
  import opened ParamLibrary
  import opened ParamHistory
  import opened ParamRollback
  import opened ParamClients

  // ---- acceptance

  /** What the table's constraints ask of a draft; a missing source becomes the default one. */
  predicate Acceptable(d: Profile, materials: set<string>) {
    && (d.content.source == "" || d.content.source == "official" || d.content.source == "recommended")
    && d.content.materialId in materials
    && d.content.params.power.Some? && 0.0 <= d.content.params.power.value <= 100.0
    && d.content.params.speed.Some? && 0.0 < d.content.params.speed.value
  }

  /** Each id is listed once and names a row that no version has retired. */
  ghost predicate AllRetirable(ps: seq<Profile>, ids: seq<int>) {
    && (forall i, j :: 0 <= i < j < |ids| ==> ids[i] != ids[j])
    && (forall k :: k in ids ==> exists p :: p in ps && p.id == k && p.removed.None?)
  }

  lemma {:induction false} RetiredOnce(ps: seq<Profile>, ids: seq<int>, v: int)
    requires RetireAll(ps, ids, v).Some?
    ensures forall i, j :: 0 <= i < j < |ids| ==> ids[i] != ids[j]
  {
    if ids != [] {
      var last := |ids| - 1;
      RetiredOnce(ps, ids[..last], v);
      RetireAllEffect(ps, ids[..last], v);
      var qs := RetireAll(ps, ids[..last], v).value;
      var q :| q in qs && Matches(q, ids[last]);
      var n :| 0 <= n < |qs| && qs[n] == q;
      assert ps[n].id == ids[last] && ids[last] !in ids[..last];
      forall i, j | 0 <= i < j < |ids| ensures ids[i] != ids[j] {
        assert ids[i] == ids[..last][i];
        assert j < last ==> ids[j] == ids[..last][j];
      }
    }
  }

  lemma RetireAllExact(ps: seq<Profile>, ids: seq<int>, v: int)
    ensures RetireAll(ps, ids, v).Some? <==> AllRetirable(ps, ids)
  {
    if RetireAll(ps, ids, v).Some? {
      RetiredOnce(ps, ids, v);
      RetireAllNeeds(ps, ids, v);
    }
    if AllRetirable(ps, ids) {
      forall k | k in ids ensures exists p :: p in ps && Matches(p, k) {
        var p :| p in ps && p.id == k && p.removed.None?;
        assert Matches(p, k);
      }
      RetireAllAccepts(ps, ids, v);
    }
  }

  lemma DraftsLegal(ds: seq<Profile>, firstId: int, v: int, approvedBy: string, materials: set<string>)
    ensures AllLegal(NewRows(ds, firstId, v, approvedBy), materials) <==> forall d :: d in ds ==> Acceptable(d, materials)
  {
    var rows := NewRows(ds, firstId, v, approvedBy);
    forall i | 0 <= i < |ds| ensures Legal(rows[i].content, materials) <==> Acceptable(ds[i], materials) {
    }
    if AllLegal(rows, materials) {
      forall d | d in ds ensures Acceptable(d, materials) {
        var i :| 0 <= i < |ds| && ds[i] == d;
        assert Legal(rows[i].content, materials);
      }
    }
  }

  /** A publish is accepted exactly when a second person signs it, it reaches at most everybody, each
      row it retires is there once and live, and each row it adds satisfies the table's constraints. */
  lemma PublishAccepted(lib: Library, plan: Plan)
    ensures PublishTx(lib, plan).Ok? <==>
              && plan.approvedBy != "" && plan.approvedBy != plan.createdBy && plan.rolloutPct <= 100
              && AllRetirable(lib.profiles, plan.removeIds)
              && forall d :: d in plan.added ==> Acceptable(d, lib.materials)
  {
    var v := Latest(lib.releases) + 1;
    RetireAllExact(lib.profiles, plan.removeIds, v);
    DraftsLegal(plan.added, lib.nextId, v, plan.approvedBy, lib.materials);
  }

  // ---- what is recorded

  /** The row of a draft: its content, with the default source; signed by the draft's signer or the plan's. */
  predicate RowOfDraft(row: Profile, d: Profile, plan: Plan, version: int) {
    && row.content.moduleModel == d.content.moduleModel && row.content.materialId == d.content.materialId
    && row.content.params == d.content.params && row.content.sampleCount == d.content.sampleCount
    && row.content.confidence == d.content.confidence
    && (d.content.source == "" ==> row.content.source == "official")
    && (d.content.source != "" ==> row.content.source == d.content.source)
    && (d.approvedBy == "" ==> row.approvedBy == plan.approvedBy)
    && (d.approvedBy != "" ==> row.approvedBy == d.approvedBy)
    && row.added == version && row.removed == None
  }

  /** The release of a plan: no percentage, or one below 1, means everybody. */
  predicate ReleaseOfPlan(r: Release, plan: Plan, version: int) {
    && r.version == version
    && (plan.rolloutPct <= 0 ==> r.pct == 100)
    && (plan.rolloutPct >= 1 ==> r.pct == plan.rolloutPct)
    && r.createdBy == plan.createdBy && r.approvedBy == plan.approvedBy && r.rolledBackFrom == plan.rolledBackFrom
  }

  /** A publish appends the plan's release and one row for each of its drafts, with new ids in order. */
  lemma PublishRecords(lib: Library, plan: Plan)
    requires Inv(lib) && PublishTx(lib, plan).Ok?
    ensures var post := PublishTx(lib, plan).value;
            && |post.releases| == |lib.releases| + 1 && post.releases[..|lib.releases|] == lib.releases
            && ReleaseOfPlan(post.releases[|lib.releases|], plan, |lib.releases| + 1)
            && |post.profiles| == |lib.profiles| + |plan.added|
            && forall i :: 0 <= i < |plan.added| ==>
                 && post.profiles[|lib.profiles| + i].id == lib.nextId + i
                 && RowOfDraft(post.profiles[|lib.profiles| + i], plan.added[i], plan, |lib.releases| + 1)
  {
    LatestOf(lib);
    PublishTxMeans(lib, plan);
  }

  /** A rollback is a release of its own: for everybody, and naming the version it goes back to. */
  lemma RollbackRecords(lib: Library, to: int, createdBy: string, approvedBy: string)
    requires Inv(lib) && RollbackTx(lib, to, createdBy, approvedBy).Ok?
    ensures var post := RollbackTx(lib, to, createdBy, approvedBy).value;
            && |post.releases| == |lib.releases| + 1
            && post.releases[|lib.releases|] == Release(|lib.releases| + 1, 100, createdBy, approvedBy, Some(to))
  {
    PublishRecords(lib, RollbackPlanOf(lib, to, createdBy, approvedBy));
  }

  // ---- whom it reaches

  /** A rollout reaches a device whose place in [0, 1) lies in the given percent; a device whose place is
      not known is reached by full rollouts only. */
  predicate Reaches(plan: Plan, bucket: Option<real>) {
    || plan.rolloutPct <= 0 || plan.rolloutPct >= 100
    || (bucket.Some? && bucket.value * 100.0 < plan.rolloutPct as real)
  }

  lemma PercentOf(x: real, pct: int)
    ensures x < pct as real / 100.0 <==> x * 100.0 < pct as real
  {
  }

  /** After a publish exactly the devices it reaches see the new version; all others see what they saw. */
  lemma RolloutExact(lib: Library, plan: Plan, bucket: Option<real>)
    requires Inv(lib) && PublishTx(lib, plan).Ok?
    ensures var post := PublishTx(lib, plan).value;
            if Reaches(plan, bucket) then Visible(post.releases, bucket) == Some(post.releases[|lib.releases|])
            else Visible(post.releases, bucket) == Visible(lib.releases, bucket)
  {
    PublishRecords(lib, plan);
    PublishAccepted(lib, plan);
    if bucket.Some? {
      PercentOf(bucket.value, plan.rolloutPct);
    }
  }

  /** So a client outside the rollout that syncs after it ends with the version it had without it. */
  lemma OutsideRolloutKeepsVersion(lib: Library, plan: Plan, c: Client)
    requires Inv(lib) && PublishTx(lib, plan).Ok? && ClientOk(lib, c) && !Reaches(plan, c.bucket)
    ensures var post := PublishTx(lib, plan).value;
            SyncClient(post.releases, post, c) == SyncClient(lib.releases, lib, c)
  {
    LatestOf(lib);
    PublishTxMeans(lib, plan);
    var post := PublishTx(lib, plan).value;
    PublishKeepsInv(lib, plan, post);
    PublishKeepsClient(lib, plan, post, c);
    RolloutExact(lib, plan, c.bucket);
    SyncIsExact(lib.releases, lib, c);
    SyncIsExact(post.releases, post, c);
    var a, b := SyncClient(lib.releases, lib, c), SyncClient(post.releases, post, c);
    if Visible(lib.releases, c.bucket).Some? {
      VisibleInRange(lib.releases, c.bucket);
      HistoryImmutable(lib, plan, post, a.version);
    }
  }

  /** And a client inside it ends with the new version. */
  lemma InsideRolloutAdvances(lib: Library, plan: Plan, c: Client)
    requires Inv(lib) && PublishTx(lib, plan).Ok? && ClientOk(lib, c) && Reaches(plan, c.bucket)
    ensures var post := PublishTx(lib, plan).value;
            SyncClient(post.releases, post, c).version == |lib.releases| + 1
  {
    LatestOf(lib);
    PublishTxMeans(lib, plan);
    var post := PublishTx(lib, plan).value;
    PublishKeepsInv(lib, plan, post);
    PublishKeepsClient(lib, plan, post, c);
    RolloutExact(lib, plan, c.bucket);
    PublishRecords(lib, plan);
    SyncIsExact(post.releases, post, c);
  }

  /** A delta spans at most 20 versions; a client further behind gets the snapshot, one ahead of what it
      may see is refused, and a version below 0 counts as 0. */
  lemma DeltaOrSnapshot(rs: seq<Release>, lib: Library, since: int, bucket: Option<real>)
    requires Visible(rs, bucket).Some? && Visible(rs, bucket).value.version >= 0
    ensures var to := Visible(rs, bucket).value.version;
            var r := ServeDelta(rs, lib, since, bucket);
            && (r == Err(BadParam) <==> since > to)
            && (r == Ok(Full(to)) <==> (since >= 0 && to >= since + 21) || (since < 0 && to >= 21))
            && (r.Ok? && r.value.Increment? <==> since <= to && (if since >= 0 then to <= since + 20 else to <= 20))
            && (r.Ok? ==> r.value.version == to)
  {
  }

  // ---- what is refused

  /** A rollback without an author or a version is malformed, and one to a version that was never out is not found. */
  lemma RollbackRefused(rs: seq<Release>, ps: seq<Profile>, lib: Library, to: int, createdBy: string, approvedBy: string)
    ensures |createdBy| == 0 || to < 1 ==> RollbackOver(rs, ps, lib, to, createdBy, approvedBy) == Err(BadParam)
    ensures |createdBy| > 0 && to >= 1 && (forall i :: 0 <= i < |rs| ==> rs[i].version != to) ==>
              RollbackOver(rs, ps, lib, to, createdBy, approvedBy) == Err(NotFound)
  {
  }

  /** A publish without a second person is denied, before anything else is looked at. */
  lemma PublishDenied(lib: Library, plan: Plan)
    ensures PublishTx(lib, plan) == Err(Denied) <==> |plan.approvedBy| == 0 || plan.approvedBy == plan.createdBy
  {
  }
}
