/** The publish transaction as it mutates its tables, and the clients that follow it. */
module ParamStore {
  import opened Basics
  import opened ParamLibrary

  /** One product's rows. A failed publish leaves every field as it was. */
  class Store {
    var profiles: seq<Profile>
    var releases: seq<Release>
    var snapshots: map<int, seq<Profile>>
    var nextId: int
    var materials: set<string>

    function State(): Library
      reads this
    {
      Library(profiles, releases, snapshots, nextId, materials)
    }

    constructor (materials: set<string>)
      ensures State() == Library([], [], map[], 1, materials)
    {
      this.materials := materials;
      profiles, releases, snapshots, nextId := [], [], map[], 1;
    }

    method MaxVersion() returns (m: int)
      ensures m == Latest(releases)
    {
      m := 0;
      for i := 0 to |releases|
        invariant m == Latest(releases[..i])
      {
        assert releases[..i + 1][..i] == releases[..i];
        if releases[i].version > m {
          m := releases[i].version;
        }
      }
      assert releases[..|releases|] == releases;
    }

    /** The loop of conditional updates; None when one of them matches no row. */
    method Retire(ids: seq<int>, v: int) returns (r: Option<seq<Profile>>)
      ensures r == RetireAll(profiles, ids, v)
    {
      var rows := profiles;
      for i := 0 to |ids|
        invariant RetireAll(profiles, ids[..i], v) == Some(rows)
      {
        assert ids[..i + 1][..i] == ids[..i];
        if !exists p :: p in rows && Matches(p, ids[i]) {
          RetireFails(profiles, ids, i + 1, v);
          return None;
        }
        rows := RetireRow(rows, ids[i], v);
      }
      assert ids[..|ids|] == ids;
      return Some(rows);
    }

    method Insert(added: seq<Profile>, v: int, approvedBy: string) returns (rows: seq<Profile>)
      ensures rows == NewRows(added, nextId, v, approvedBy)
    {
      rows := [];
      for i := 0 to |added|
        invariant rows == NewRows(added[..i], nextId, v, approvedBy)
      {
        rows := rows + [NewRow(added[i], nextId + i, v, approvedBy)];
      }
      assert added[..|added|] == added;
    }

    method Publish(plan: Plan) returns (r: Result<int>)
      modifies this
      ensures PublishTx(old(State()), plan).Ok? ==>
                State() == PublishTx(old(State()), plan).value && r == Ok(Latest(old(releases)) + 1)
      ensures PublishTx(old(State()), plan).Err? ==>
                State() == old(State()) && r == Err(PublishTx(old(State()), plan).error)
    {
      var maxVer := MaxVersion();
      var v := maxVer + 1;
      var pct := Rollout(plan);
      if plan.approvedBy == "" || plan.approvedBy == plan.createdBy {
        return Err(Denied);
      }
      if pct > 100 {
        return Err(BadParam);
      }
      var retired := Retire(plan.removeIds, v);
      if retired.None? {
        return Err(BadParam);
      }
      var rows := Insert(plan.added, v, plan.approvedBy);
      if !AllLegal(rows, materials) {
        return Err(BadParam);
      }
      profiles := retired.value + rows;
      nextId := nextId + |plan.added|;
      var effective := ComputeEffectiveAt(profiles, v);
      snapshots := snapshots[v := effective];
      releases := releases + [Release(v, pct, plan.createdBy, plan.approvedBy, plan.rolledBackFrom)];
      return Ok(v);
    }
  }

  /** Once a prefix of the ids fails, the whole list fails. */
  lemma {:induction false} RetireFails(ps: seq<Profile>, ids: seq<int>, n: nat, v: int)
    requires n <= |ids| && RetireAll(ps, ids[..n], v).None?
    ensures RetireAll(ps, ids, v).None?
    decreases |ids| - n
  {
    if n == |ids| {
      assert ids[..n] == ids;
    } else {
      assert ids[..n + 1][..n] == ids[..n];
      RetireFails(ps, ids, n + 1, v);
    }
  }
}
