/** Delta and snapshot sync, and what every client holds in every run. */
module ParamClients {
  import opened Basics
  import opened Sorting
  import opened ParamLibrary
  import opened ParamHistory

  datatype Client = Client(bucket: Option<real>, version: int, held: set<Profile>)

  datatype Reply = Full(version: int) | Increment(version: int, removed: seq<int>, added: seq<Profile>)

  /** looked: the releases a client's request has read, before it reads profiles or a snapshot. */
  datatype World = World(lib: Library, clients: map<int, Client>, looked: map<int, seq<Release>>)

  datatype Action =
    | Publish(plan: Plan)
    | Rollback(to: int, createdBy: string, approvedBy: string)
    | Join(who: int, bucket: Option<real>)
    | Look(who: int)
    | Fetch(who: int)

  /** Service.Delta over the releases read first and the library read after: negative since counts as
      0, ahead is refused, far behind gets the snapshot. */
  function ServeDelta(rs: seq<Release>, lib: Library, since0: int, bucket: Option<real>): Result<Reply> {
    var visible := Visible(rs, bucket);
    var since := if since0 < 0 then 0 else since0;
    if visible.None? then Err(NotFound)
    else
      var to := visible.value.version;
      if since > to then Err(BadParam)
      else if to - since > FORCE_FULL_BEHIND then Ok(Full(to))
      else Ok(Increment(to, DeltaRemoved(lib.profiles, since, to), DeltaAdded(lib.profiles, since, to)))
  }

  /** Removals first, then additions. */
  function ApplyDelta(held: set<Profile>, removed: seq<int>, added: seq<Profile>): set<Profile> {
    (set p | p in held && p.id !in removed) + StripAll(added)
  }

  function ApplyReply(lib: Library, c: Client, r: Reply): Client {
    match r
    case Full(v) => c.(version := v, held := if v in lib.snapshots then StripAll(lib.snapshots[v]) else c.held)
    case Increment(v, removed, added) => c.(version := v, held := ApplyDelta(c.held, removed, added))
  }

  function SyncClient(rs: seq<Release>, lib: Library, c: Client): Client {
    var r := ServeDelta(rs, lib, c.version, c.bucket);
    if r.Ok? then ApplyReply(lib, c, r.value) else c
  }

  function WithLib(w: World, r: Result<Library>): World {
    if r.Ok? then w.(lib := r.value) else w
  }

  function Step(w: World, a: Action): World {
    match a
    case Publish(plan) => WithLib(w, PublishTx(w.lib, plan))
    case Rollback(to, who, signer) => WithLib(w, RollbackTx(w.lib, to, who, signer))
    case Join(who, bucket) => if who in w.clients then w else w.(clients := w.clients[who := Client(bucket, 0, {})])
    case Look(who) => if who in w.clients then w.(looked := w.looked[who := w.lib.releases]) else w
    case Fetch(who) =>
      if who in w.clients && who in w.looked
      then w.(clients := w.clients[who := SyncClient(w.looked[who], w.lib, w.clients[who])], looked := w.looked - {who})
      else w
  }

  function Run(w: World, actions: seq<Action>): World {
    if actions == [] then w else Step(Run(w, actions[..|actions| - 1]), actions[|actions| - 1])
  }

  function Empty(materials: set<string>): World {
    World(Library([], [], map[], 1, materials), map[], map[])
  }

  /** The releases let the client see its version or a later one. */
  ghost predicate Sees(rs: seq<Release>, c: Client) {
    c.version > 0 ==> exists v :: Visible(rs, c.bucket) == Some(v) && c.version <= v.version
  }

  ghost predicate ClientOk(lib: Library, c: Client) {
    0 <= c.version <= |lib.releases| && c.held == View(lib.profiles, c.version) && Sees(lib.releases, c)
  }

  ghost predicate LookOk(lib: Library, rs: seq<Release>, c: Client) {
    rs <= lib.releases && Sees(rs, c)
  }

  ghost predicate WorldOk(w: World) {
    && Inv(w.lib)
    && (forall who :: who in w.clients ==> ClientOk(w.lib, w.clients[who]))
    && (forall who :: who in w.looked ==> who in w.clients && LookOk(w.lib, w.looked[who], w.clients[who]))
  }

  // ---- the visible version

  /** The choice over ordered releases is the newest visible release. */
  lemma {:induction false} VisibleIsNewest(rs: seq<Release>, bucket: Option<real>)
    requires forall i, j :: 0 <= i < j < |rs| ==> rs[i].version < rs[j].version
    ensures IsNewestVisible(rs, bucket, Visible(rs, bucket))
  {
    if rs != [] {
      VisibleIsNewest(rs[..|rs| - 1], bucket);
      assert rs == rs[..|rs| - 1] + [rs[|rs| - 1]];
    }
  }

  lemma VisibleInRange(rs: seq<Release>, bucket: Option<real>)
    requires (forall i :: 0 <= i < |rs| ==> rs[i].version == i + 1) && Visible(rs, bucket).Some?
    ensures 1 <= Visible(rs, bucket).value.version <= |rs|
  {
    VisibleIsNewest(rs, bucket);
    var r := Visible(rs, bucket).value;
    var i :| 0 <= i < |rs| && rs[i] == r;
  }

  /** A fixed bucket's visible version never goes back as releases are added. */
  lemma {:induction false} VisibleMonotone(rs: seq<Release>, later: seq<Release>, bucket: Option<real>)
    requires rs <= later && (forall i :: 0 <= i < |later| ==> later[i].version == i + 1) && Visible(rs, bucket).Some?
    ensures Visible(later, bucket).Some?
    ensures Visible(rs, bucket).value.version <= Visible(later, bucket).value.version
  {
    if |rs| == |later| {
      assert rs == later;
    } else {
      var init := later[..|later| - 1];
      VisibleMonotone(rs, init, bucket);
      VisibleInRange(init, bucket);
    }
  }

  // ---- one sync

  lemma {:induction false} DeltaIds(ps: seq<Profile>, since: int, to: int, k: int)
    ensures k in DeltaRemoved(ps, since, to) <==> exists p :: p in ps && p.id == k && Leaves(p, since, to)
  {
    var rows := Filter(ps, LeavesAt(since, to));
    FilterMembers(ps, LeavesAt(since, to));
    SortSorts(IdsOf(rows), AtMost);
    if k in IdsOf(rows) {
      var i :| 0 <= i < |rows| && IdsOf(rows)[i] == k;
      assert rows[i] in rows;
    }
    if exists p :: p in ps && p.id == k && Leaves(p, since, to) {
      var p :| p in ps && p.id == k && Leaves(p, since, to);
      assert p in rows;
      var i :| 0 <= i < |rows| && rows[i] == p;
      assert IdsOf(rows)[i] == k;
    }
  }

  /** Applying a delta to the effective set of one version gives that of the other. */
  lemma DeltaRefinesView(lib: Library, since: int, to: int)
    requires Inv(lib)
    ensures ApplyDelta(View(lib.profiles, since), DeltaRemoved(lib.profiles, since, to), DeltaAdded(lib.profiles, since, to))
            == View(lib.profiles, to)
  {
    var ps := lib.profiles;
    var removed, added := DeltaRemoved(ps, since, to), DeltaAdded(ps, since, to);
    FilterMembers(ps, JoinsAt(since, to));
    forall q | q in View(ps, to) ensures q in ApplyDelta(View(ps, since), removed, added) {
      var p :| p in ps && IsEffective(p, to) && Strip(p) == q;
      if IsEffective(p, since) {
        DeltaIds(ps, since, to, p.id);
        if p.id in removed {
          var other :| other in ps && other.id == p.id && Leaves(other, since, to);
          UniqueId(lib, p, other);
          assert false;
        }
      } else {
        assert p in added;
      }
    }
    forall q | q in ApplyDelta(View(ps, since), removed, added) ensures q in View(ps, to) {
      if q in StripAll(added) {
        var p :| p in added && Strip(p) == q;
      } else {
        var p :| p in ps && IsEffective(p, since) && Strip(p) == q;
        DeltaIds(ps, since, to, p.id);
      }
    }
  }

  /** After a sync the client holds exactly the effective set of the version visible to it among the
      releases read, however many publishes came before the profiles or the snapshot were read;
      without a visible release the sync is refused as not found and nothing changes. */
  lemma SyncIsExact(rs: seq<Release>, lib: Library, c: Client)
    requires Inv(lib) && ClientOk(lib, c) && LookOk(lib, rs, c)
    ensures var visible := Visible(rs, c.bucket);
            var post := SyncClient(rs, lib, c);
            && ClientOk(lib, post) && post.bucket == c.bucket
            && (visible.Some? ==> ServeDelta(rs, lib, c.version, c.bucket).Ok?
                                  && post.version == visible.value.version && c.version <= post.version)
            && (visible.None? ==> ServeDelta(rs, lib, c.version, c.bucket) == Err(NotFound) && post == c)
  {
    var visible := Visible(rs, c.bucket);
    if visible.Some? {
      VisibleInRange(rs, c.bucket);
      VisibleMonotone(rs, lib.releases, c.bucket);
      DeltaRefinesView(lib, c.version, visible.value.version);
    }
  }

  lemma PublishKeepsClient(lib: Library, plan: Plan, post: Library, c: Client)
    requires Inv(lib) && Published(lib, plan, post) && ClientOk(lib, c)
    ensures ClientOk(post, c)
  {
    HistoryImmutable(lib, plan, post, c.version);
    PublishKeepsInv(lib, plan, post);
    if c.version > 0 {
      VisibleMonotone(lib.releases, post.releases, c.bucket);
    }
  }

  lemma PublishKeepsWorld(w: World, plan: Plan, post: Library)
    requires WorldOk(w) && Published(w.lib, plan, post)
    ensures WorldOk(w.(lib := post))
  {
    PublishKeepsInv(w.lib, plan, post);
    forall who | who in w.clients ensures ClientOk(post, w.clients[who]) {
      PublishKeepsClient(w.lib, plan, post, w.clients[who]);
    }
    forall who | who in w.looked ensures LookOk(post, w.looked[who], w.clients[who]) {
      assert LookOk(w.lib, w.looked[who], w.clients[who]);
    }
  }

  lemma FetchKeepsWorld(w: World, who: int)
    requires WorldOk(w) && who in w.clients && who in w.looked
    ensures WorldOk(Step(w, Fetch(who)))
  {
    var post := Step(w, Fetch(who));
    assert LookOk(w.lib, w.looked[who], w.clients[who]);
    SyncIsExact(w.looked[who], w.lib, w.clients[who]);
    forall x | x in post.looked ensures LookOk(post.lib, post.looked[x], post.clients[x]) {
      assert LookOk(w.lib, w.looked[x], w.clients[x]);
    }
  }

  lemma StepKeepsWorld(w: World, a: Action)
    requires WorldOk(w)
    ensures WorldOk(Step(w, a))
  {
    LatestOf(w.lib);
    match a
    case Publish(plan) =>
      if PublishTx(w.lib, plan).Ok? {
        PublishTxMeans(w.lib, plan);
        PublishKeepsWorld(w, plan, PublishTx(w.lib, plan).value);
      }
    case Rollback(to, who, signer) =>
      var plan := RollbackPlanOf(w.lib, to, who, signer);
      if RollbackTx(w.lib, to, who, signer).Ok? {
        PublishTxMeans(w.lib, plan);
        PublishKeepsWorld(w, plan, PublishTx(w.lib, plan).value);
      }
    case Join(who, bucket) => JoinKeepsWorld(w, who, bucket);
    case Look(who) => LookKeepsWorld(w, who);
    case Fetch(who) =>
      if who in w.clients && who in w.looked {
        FetchKeepsWorld(w, who);
      }
  }

  lemma LookKeepsWorld(w: World, who: int)
    requires WorldOk(w)
    ensures WorldOk(Step(w, Look(who)))
  {
    if who in w.clients {
      assert ClientOk(w.lib, w.clients[who]);
    }
  }

  lemma JoinKeepsWorld(w: World, who: int, bucket: Option<real>)
    requires WorldOk(w)
    ensures WorldOk(Step(w, Join(who, bucket)))
  {
    JoinOk(w.lib, Client(bucket, 0, {}));
  }

  lemma JoinOk(lib: Library, c: Client)
    requires Inv(lib) && c.version == 0 && c.held == {}
    ensures ClientOk(lib, c)
  {
    forall p | p in lib.profiles ensures !IsEffective(p, 0) {
      assert RowOk(lib, p);
    }
  }

  lemma {:induction false} RunOk(materials: set<string>, actions: seq<Action>)
    ensures WorldOk(Run(Empty(materials), actions))
  {
    if actions != [] {
      RunOk(materials, actions[..|actions| - 1]);
      StepKeepsWorld(Run(Empty(materials), actions[..|actions| - 1]), actions[|actions| - 1]);
    }
  }

  /** Over every run of publishes, rollbacks, joins and syncs, with publishes between a sync's reads,
      each client holds exactly the effective set of the version it last reached, and no sync is ever
      refused as ahead. */
  lemma ClientsAlwaysExact(materials: set<string>, actions: seq<Action>)
    ensures var w := Run(Empty(materials), actions);
            && (forall who :: who in w.clients ==> w.clients[who].held == View(w.lib.profiles, w.clients[who].version))
            && (forall who :: who in w.looked ==>
                  && who in w.clients
                  && ServeDelta(w.looked[who], w.lib, w.clients[who].version, w.clients[who].bucket) != Err(BadParam))
  {
    var w := Run(Empty(materials), actions);
    RunOk(materials, actions);
    forall who | who in w.clients ensures w.clients[who].held == View(w.lib.profiles, w.clients[who].version) {
      assert ClientOk(w.lib, w.clients[who]);
    }
    forall who | who in w.looked
      ensures ServeDelta(w.looked[who], w.lib, w.clients[who].version, w.clients[who].bucket) != Err(BadParam)
    {
      SyncIsExact(w.looked[who], w.lib, w.clients[who]);
    }
  }

  /** Nothing a later run does changes an already released version or takes a bucket back. */
  lemma {:induction false} RunKeepsHistory(w: World, actions: seq<Action>, v: int, bucket: Option<real>)
    requires WorldOk(w) && v <= |w.lib.releases|
    ensures var post := Run(w, actions);
            && WorldOk(post) && v <= |post.lib.releases|
            && View(post.lib.profiles, v) == View(w.lib.profiles, v)
            && (Visible(w.lib.releases, bucket).Some? ==>
                  && Visible(post.lib.releases, bucket).Some?
                  && Visible(w.lib.releases, bucket).value.version <= Visible(post.lib.releases, bucket).value.version)
  {
    if actions != [] {
      var init, last := actions[..|actions| - 1], actions[|actions| - 1];
      RunKeepsHistory(w, init, v, bucket);
      StepKeepsWorld(Run(w, init), last);
      StepKeepsHistory(Run(w, init), last, v, bucket);
    }
  }

  lemma StepKeepsHistory(w: World, a: Action, v: int, bucket: Option<real>)
    requires WorldOk(w) && v <= |w.lib.releases|
    ensures var post := Step(w, a);
            && v <= |post.lib.releases|
            && View(post.lib.profiles, v) == View(w.lib.profiles, v)
            && (Visible(w.lib.releases, bucket).Some? ==>
                  && Visible(post.lib.releases, bucket).Some?
                  && Visible(w.lib.releases, bucket).value.version <= Visible(post.lib.releases, bucket).value.version)
  {
    LatestOf(w.lib);
    match a
    case Publish(plan) => PublishKeepsHistory(w.lib, plan, v, bucket);
    case Rollback(to, who, signer) => PublishKeepsHistory(w.lib, RollbackPlanOf(w.lib, to, who, signer), v, bucket);
    case _ =>
  }

  lemma PublishKeepsHistory(lib: Library, plan: Plan, v: int, bucket: Option<real>)
    requires Inv(lib) && v <= |lib.releases|
    ensures var r := PublishTx(lib, plan);
            r.Ok? ==>
              && v <= |r.value.releases|
              && View(r.value.profiles, v) == View(lib.profiles, v)
              && (Visible(lib.releases, bucket).Some? ==>
                    && Visible(r.value.releases, bucket).Some?
                    && Visible(lib.releases, bucket).value.version <= Visible(r.value.releases, bucket).value.version)
  {
    LatestOf(lib);
    if PublishTx(lib, plan).Ok? {
      var post := PublishTx(lib, plan).value;
      PublishTxMeans(lib, plan);
      HistoryImmutable(lib, plan, post, v);
      if Visible(lib.releases, bucket).Some? {
        PublishKeepsInv(lib, plan, post);
        VisibleMonotone(lib.releases, post.releases, bucket);
      }
    }
  }
}
