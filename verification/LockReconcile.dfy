/** The reconciler that brings every scheduled device's desired lock to its schedule. */
module LockReconcile {
  import opened Basics
  import opened Schedule

  /** The lock fields of a device's desired state. */
  datatype Desired = Desired(lock: Option<bool>, expires: Option<int>)

  datatype Expiry = Keep | Clear | Until(at: int)

  datatype Patch = Patch(lock: bool, expiry: Expiry)

  /** A shadow_desired row: the lock fields, whatever else is desired, and the version. */
  datatype Row = Row(lock: Option<bool>, expires: Option<int>, other: map<string, string>, version: nat)

  type Rows = map<string, Row>

  /** One site's policy, its local time now, and its devices. */
  datatype Site = Site(policy: Policy, day: int, minute: int, sns: seq<string>)

  function Get(m: Rows, sn: string): Desired {
    if sn in m then Desired(m[sn].lock, m[sn].expires) else Desired(None, None)
  }

  function OtherOf(m: Rows, sn: string): map<string, string> {
    if sn in m then m[sn].other else map[]
  }

  function VersionOf(m: Rows, sn: string): nat {
    if sn in m then m[sn].version else 0
  }

  function ReconcileLock(should: bool, d: Desired, now: int): Option<Patch> {
    if d.expires.Some? then
      if now < d.expires.value then None else Some(Patch(should, Clear))
    else if d.lock == Some(should) then None
    else Some(Patch(should, Keep))
  }

  function Merge(d: Desired, p: Patch): Desired {
    Desired(Some(p.lock), match p.expiry case Keep => d.expires case Clear => None case Until(at) => Some(at))
  }

  predicate LiveUnlock(d: Desired, now: int) {
    d.expires.Some? && now < d.expires.value
  }

  /** What the desired state must be after a pass. */
  function Goal(should: bool, d: Desired, now: int): Desired {
    if LiveUnlock(d, now) then d else Desired(Some(should), None)
  }

  /** The decision, by the end of an unlock and the lock that stand: nothing while the unlock runs, its end
      cleared once it is over, and without an end only what differs. */
  lemma ReconcileMeans(should: bool, lock: Option<bool>, end: int, now: int)
    ensures ReconcileLock(should, Desired(lock, Some(end)), now) == if end > now then None else Some(Patch(should, Clear))
    ensures ReconcileLock(should, Desired(lock, None), now) == if lock == Some(should) then None else Some(Patch(should, Keep))
  {
  }

  /** The goal: an unlock that still runs stands; else the schedule's value, with no end. */
  lemma GoalMeans(should: bool, lock: Option<bool>, end: int, now: int)
    ensures Goal(should, Desired(lock, Some(end)), now) == if end > now then Desired(lock, Some(end)) else Desired(Some(should), None)
    ensures Goal(should, Desired(lock, None), now) == Desired(Some(should), None)
  {
  }

  /** The upsert, column by column. */
  lemma UpsertMeans(m: Rows, sn: string, p: Patch)
    ensures var post := Upsert(m, sn, p);
            && post.Keys == m.Keys + {sn} && (forall x :: x in m && x != sn ==> post[x] == m[x])
            && post[sn].lock == Some(p.lock)
            && (p.expiry == Clear ==> post[sn].expires == None)
            && (forall at :: p.expiry == Until(at) ==> post[sn].expires == Some(at))
            && (p.expiry == Keep ==> post[sn].expires == if sn in m then m[sn].expires else None)
            && (sn in m ==> post[sn].other == m[sn].other && post[sn].version == m[sn].version + 1)
            && (sn !in m ==> |post[sn].other| == 0 && post[sn].version == 1)
  {
  }

  /** One merge of a patch: only this device's lock fields change, and its version goes up by one. */
  predicate Merged(pre: Rows, post: Rows, sn: string, p: Patch) {
    && Get(post, sn) == Merge(Get(pre, sn), p)
    && OtherOf(post, sn) == OtherOf(pre, sn)
    && VersionOf(post, sn) == VersionOf(pre, sn) + 1
    && post - {sn} == pre - {sn}
  }

  /** INSERT ... ON CONFLICT DO UPDATE SET desired = desired || patch, version = version + 1 */
  function Upsert(m: Rows, sn: string, p: Patch): (post: Rows)
    ensures Merged(m, post, sn, p)
  {
    var d := Merge(Get(m, sn), p);
    var post := m[sn := Row(d.lock, d.expires, OtherOf(m, sn), VersionOf(m, sn) + 1)];
    assert post - {sn} == m - {sn};
    post
  }

  /** device_org keys a device to one site: no serial number occurs twice over all sites. */
  ghost predicate OneSitePerDevice(sites: seq<Site>) {
    forall a, b, c, d :: (0 <= a < |sites| && 0 <= b < |sites[a].sns| && 0 <= c < |sites| && 0 <= d < |sites[c].sns|
                          && sites[a].sns[b] == sites[c].sns[d]) ==> a == c && b == d
  }

  predicate Before(a: int, b: int, i: int, j: int) {
    a < i || (a == i && b < j)
  }

  /** Every device at a position before (i, j) is at its goal, every other one as it was. */
  ghost predicate DoneUpTo(sites: seq<Site>, pre: Rows, post: Rows, broken: set<string>, now: int, i: int, j: int) {
    && (forall a, b :: 0 <= a < |sites| && 0 <= b < |sites[a].sns| ==>
          Get(post, sites[a].sns[b]) ==
          if Before(a, b, i, j) && sites[a].sns[b] !in broken
          then Goal(Locks(sites[a].policy, sites[a].day * DAY + sites[a].minute), Get(pre, sites[a].sns[b]), now)
          else Get(pre, sites[a].sns[b]))
    && (forall sn :: (forall a :: 0 <= a < |sites| ==> sn !in sites[a].sns) ==> Get(post, sn) == Get(pre, sn))
  }

  ghost predicate OthersKept(pre: Rows, post: Rows) {
    forall sn :: OtherOf(post, sn) == OtherOf(pre, sn)
  }

  class Store {
    var rows: Rows

    constructor ()
      ensures rows == map[]
    {
      rows := map[];
    }

    method MergeDesired(sn: string, p: Patch) returns (version: nat)
      modifies this
      ensures rows == Upsert(old(rows), sn, p)
      ensures version == VersionOf(rows, sn)
    {
      if sn !in rows {
        var expires := if p.expiry.Until? then Some(p.expiry.at) else None;
        rows := rows[sn := Row(Some(p.lock), expires, map[], 1)];
        return 1;
      }
      var row := rows[sn];
      var expires := row.expires;
      if p.expiry.Clear? {
        expires := None;
      } else if p.expiry.Until? {
        expires := Some(p.expiry.at);
      }
      rows := rows[sn := row.(lock := Some(p.lock), expires := expires, version := row.version + 1)];
      return row.version + 1;
    }

    /** A temporary unlock of a member device, capped by its organisation when that can be read;
        minutes <= 0 means the default. None when the device is not the organisation's. */
    method Unlock(sn: string, member: bool, minutes: int, defaultTTL: int, cap: Option<int>, now: int)
      returns (expires: Option<int>)
      modifies this
      ensures expires.Some? <==> member
      ensures !member ==> rows == old(rows)
      ensures member ==>
                && rows == Upsert(old(rows), sn, Patch(false, Until(expires.value)))
                && expires.value - now <= (if minutes > 0 then minutes else defaultTTL)
                && (cap.Some? && cap.value > 0 ==> expires.value - now <= cap.value)
                && (expires.value - now == (if minutes > 0 then minutes else defaultTTL)
                    || (cap.Some? && cap.value > 0 && expires.value - now == cap.value))
    {
      if !member {
        return None;
      }
      var ttl := defaultTTL;
      if minutes > 0 {
        ttl := minutes;
      }
      if cap.Some? && cap.value > 0 && ttl > cap.value {
        ttl := cap.value;
      }
      var _ := MergeDesired(sn, Patch(false, Until(now + ttl)));
      return Some(now + ttl);
    }

    /** One device: its read, and its merge when there is one; a broken device fails either and is skipped. */
    method ReconcileDevice(sn: string, should: bool, ok: bool, now: int) returns (merged: bool)
      modifies this
      ensures Reconciled(old(rows), rows, sn, should, ok, now)
      ensures merged <==> Get(rows, sn) != Get(old(rows), sn)
      ensures !merged ==> rows == old(rows)
    {
      var patch := ReconcileLock(should, Get(rows, sn), now);
      if patch.None? || !ok {
        return false;
      }
      UpsertLeaves(rows, sn, patch.value);
      var _ := MergeDesired(sn, patch.value);
      return true;
    }

    /** One pass with no other writer at work; a device in broken fails its read or its merge and is skipped. */
    method ReconcileOnce(sites: seq<Site>, broken: set<string>, now: int) returns (applied: nat)
      requires OneSitePerDevice(sites)
      requires forall s :: s in sites ==> 0 <= s.minute < DAY
      modifies this
      ensures DoneUpTo(sites, old(rows), rows, broken, now, |sites|, 0)
      ensures OthersKept(old(rows), rows)
      ensures applied == 0 ==> rows == old(rows)
      ensures applied > 0 ==> Touched(old(rows), rows, broken)
    {
      applied := 0;
      ghost var pre := rows;
      for i := 0 to |sites|
        invariant DoneUpTo(sites, pre, rows, broken, now, i, 0) && Account(pre, rows, broken, applied)
      {
        var site := sites[i];
        assert site in sites;
        var should := ShouldLock(site.policy, site.day, site.minute);
        for j := 0 to |site.sns|
          invariant DoneUpTo(sites, pre, rows, broken, now, i, j) && Account(pre, rows, broken, applied)
        {
          ghost var before := rows;
          var merged := ReconcileDevice(site.sns[j], should, site.sns[j] !in broken, now);
          AccountMore(sites, pre, before, rows, broken, now, i, j, should, applied, merged);
          Advance(sites, pre, before, rows, broken, now, i, j, should);
          if merged {
            applied := applied + 1;
          }
        }
        NextSite(sites, pre, rows, broken, now, i);
      }
    }

    /** A second pass at the same instant writes nothing. */
    method Twice(sites: seq<Site>, now: int) returns (second: nat)
      requires OneSitePerDevice(sites)
      requires forall s :: s in sites ==> 0 <= s.minute < DAY
      modifies this
      ensures second == 0
      ensures DoneUpTo(sites, old(rows), rows, {}, now, |sites|, 0)
    {
      ghost var pre := rows;
      var first := ReconcileOnce(sites, {}, now);
      ghost var mid := rows;
      second := ReconcileOnce(sites, {}, now);
      SecondPassQuiet(sites, pre, mid, rows, now);
    }
  }

  /** Some device that could be reached has a new desired lock. */
  ghost predicate Touched(pre: Rows, post: Rows, broken: set<string>) {
    exists sn :: sn !in broken && Get(post, sn) != Get(pre, sn)
  }

  /** What one device's turn leaves behind. */
  ghost predicate Reconciled(pre: Rows, post: Rows, sn: string, should: bool, ok: bool, now: int) {
    && (forall x :: x != sn ==> Get(post, x) == Get(pre, x))
    && Get(post, sn) == (if ok then Goal(should, Get(pre, sn), now) else Get(pre, sn))
    && OthersKept(pre, post)
  }

  ghost predicate Account(pre: Rows, post: Rows, broken: set<string>, applied: nat) {
    && OthersKept(pre, post)
    && (applied == 0 ==> post == pre)
    && (applied > 0 ==> Touched(pre, post, broken))
  }

  lemma AccountMore(sites: seq<Site>, pre: Rows, before: Rows, after: Rows, broken: set<string>, now: int,
                    i: int, j: int, should: bool, applied: nat, merged: bool)
    requires 0 <= i < |sites| && 0 <= j < |sites[i].sns| && DoneUpTo(sites, pre, before, broken, now, i, j)
    requires Account(pre, before, broken, applied)
    requires Reconciled(before, after, sites[i].sns[j], should, sites[i].sns[j] !in broken, now)
    requires merged <==> Get(after, sites[i].sns[j]) != Get(before, sites[i].sns[j])
    requires !merged ==> after == before
    ensures Account(pre, after, broken, applied + if merged then 1 else 0)
  {
    var sn := sites[i].sns[j];
    assert Get(before, sn) == Get(pre, sn);
    forall x ensures OtherOf(after, x) == OtherOf(pre, x) {
      assert OtherOf(before, x) == OtherOf(pre, x);
    }
    if merged {
      assert sn !in broken && Get(after, sn) != Get(pre, sn);
    }
  }

  lemma UpsertLeaves(m: Rows, sn: string, p: Patch)
    ensures forall x :: x != sn ==> Get(Upsert(m, sn, p), x) == Get(m, x)
    ensures forall x :: OtherOf(Upsert(m, sn, p), x) == OtherOf(m, x)
  {
  }

  lemma Advance(sites: seq<Site>, pre: Rows, before: Rows, after: Rows, broken: set<string>, now: int,
                i: int, j: int, should: bool)
    requires OneSitePerDevice(sites) && 0 <= i < |sites| && 0 <= j < |sites[i].sns|
    requires DoneUpTo(sites, pre, before, broken, now, i, j)
    requires should == Locks(sites[i].policy, sites[i].day * DAY + sites[i].minute)
    requires Reconciled(before, after, sites[i].sns[j], should, sites[i].sns[j] !in broken, now)
    ensures DoneUpTo(sites, pre, after, broken, now, i, j + 1)
  {
    var sn := sites[i].sns[j];
    forall a, b | 0 <= a < |sites| && 0 <= b < |sites[a].sns|
      ensures Get(after, sites[a].sns[b]) ==
              if Before(a, b, i, j + 1) && sites[a].sns[b] !in broken
              then Goal(Locks(sites[a].policy, sites[a].day * DAY + sites[a].minute), Get(pre, sites[a].sns[b]), now)
              else Get(pre, sites[a].sns[b])
    {
      if sites[a].sns[b] == sn {
        assert a == i && b == j;
      } else {
        assert Get(after, sites[a].sns[b]) == Get(before, sites[a].sns[b]);
      }
    }
    forall x | forall a :: 0 <= a < |sites| ==> x !in sites[a].sns ensures Get(after, x) == Get(pre, x) {
      assert x !in sites[i].sns;
    }
  }

  lemma NextSite(sites: seq<Site>, pre: Rows, post: Rows, broken: set<string>, now: int, i: int)
    requires 0 <= i < |sites| && DoneUpTo(sites, pre, post, broken, now, i, |sites[i].sns|)
    ensures DoneUpTo(sites, pre, post, broken, now, i + 1, 0)
  {
  }

  /** A goal is its own goal. */
  lemma SecondPassQuiet(sites: seq<Site>, pre: Rows, mid: Rows, post: Rows, now: int)
    requires DoneUpTo(sites, pre, mid, {}, now, |sites|, 0) && DoneUpTo(sites, mid, post, {}, now, |sites|, 0)
    ensures forall sn :: Get(post, sn) == Get(mid, sn)
  {
    forall sn ensures Get(post, sn) == Get(mid, sn) {
      if exists a :: 0 <= a < |sites| && sn in sites[a].sns {
        var a :| 0 <= a < |sites| && sn in sites[a].sns;
        var b :| 0 <= b < |sites[a].sns| && sites[a].sns[b] == sn;
        assert Before(a, b, |sites|, 0);
      }
    }
  }
}
