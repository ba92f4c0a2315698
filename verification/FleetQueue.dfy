/** The class queue: conditional updates on queue items, and several schedulers that claim,
    send, then confirm or revert. */
module FleetQueue {
  import opened Basics

  datatype Status = Submitted | Approved | Rejected | Canceled | Dispatched | Running | Done | Failed | Skipped | NeedsTeacher

  datatype Role = Admin | Teacher | Student | System

  /** A claim token, or the command id that replaces it; both are UUIDs and never meet. */
  datatype Ref = Token(n: nat) | Cmd(n: nat)

  datatype Item = Item(org: int, submitter: int, status: Status, queue: int, sn: Option<string>, ref: Option<Ref>,
                       retry: nat, submittedAt: int, approvedAt: Option<int>, dispatchedAt: Option<int>)

  datatype Reply = Moved | Unknown | Refused | Overtaken

  /** Who calls: a user of an organisation, in one role. */
  datatype Caller = Caller(org: int, user: int, role: Role)

  // ---- the transition table

  /** The roles that may take an item from one status to another. */
  function RolesFor(from: Status, to: Status): set<Role> {
    match (from, to)
    case (Submitted, Approved) => {Admin, Teacher}
    case (Submitted, Rejected) => {Admin, Teacher}
    case (Submitted, Canceled) => {Student, Teacher, Admin}
    case (Submitted, Skipped) => {System}
    case (Approved, Dispatched) => {System}
    case (Approved, Canceled) => {Student, Teacher, Admin}
    case (Approved, Skipped) => {System}
    case (Approved, NeedsTeacher) => {System}
    case (Dispatched, Running) => {System}
    case (Dispatched, Done) => {System}
    case (Dispatched, Failed) => {System}
    case (Dispatched, Skipped) => {System}
    case (Dispatched, Approved) => {System}
    case (Running, Done) => {System}
    case (Running, Failed) => {System}
    case (NeedsTeacher, Approved) => {Admin, Teacher}
    case (NeedsTeacher, Rejected) => {Admin, Teacher}
    case _ => {}
  }

  /** What each role may do: students cancel; teachers and administrators also approve and reject; all
      other moves are the system's, and nothing leaves a final status. */
  lemma RolesExact(from: Status, to: Status, role: Role)
    ensures role in RolesFor(from, to) <==>
            match role
            case Student => from in {Submitted, Approved} && to == Canceled
            case System =>
              || (from in {Submitted, Approved, Dispatched} && to == Skipped)
              || (from in {Dispatched, Running} && to in {Done, Failed})
              || (from == Approved && to in {Dispatched, NeedsTeacher})
              || (from == Dispatched && to in {Running, Approved})
            case _ =>
              || (from in {Submitted, Approved} && to == Canceled)
              || (from in {Submitted, NeedsTeacher} && to in {Approved, Rejected})
  {
  }

  predicate Edge(from: Status, to: Status) {
    RolesFor(from, to) != {}
  }

  /** The item is visible in the caller's organisation, is the caller's own if the caller is a student,
      and the table lets that role take it from one status to the other. */
  predicate MayMove(it: Item, who: Caller, from: Status, to: Status) {
    && it.org == who.org
    && (who.role == Student ==> it.submitter == who.user)
    && who.role in RolesFor(from, to)
  }

  predicate IsTerminal(s: Status) {
    s in {Rejected, Canceled, Done, Failed, Skipped}
  }

  predicate IsActive(s: Status) {
    s in {Dispatched, Running}
  }

  // ---- the statements, each on one snapshot of the table

  type Items = map<int, Item>

  function SetStatus(items: Items, id: int, from: Status, to: Status, now: int): Items {
    if id in items && items[id].status == from
    then items[id := items[id].(status := to, approvedAt := if to == Approved then Some(now) else items[id].approvedAt)]
    else items
  }

  /** uk_item_device_active: one active item per device. */
  predicate DeviceBusy(items: Items, sn: string) {
    exists k :: k in items && IsActive(items[k].status) && items[k].sn == Some(sn)
  }

  predicate CanClaim(items: Items, id: int, sn: string) {
    id in items && items[id].status == Approved && !DeviceBusy(items, sn)
  }

  function Claim(items: Items, id: int, sn: string, ref: Ref, now: int): Items {
    if CanClaim(items, id, sn)
    then items[id := items[id].(status := Dispatched, sn := Some(sn), ref := Some(ref), dispatchedAt := Some(now))]
    else items
  }

  predicate Holds(items: Items, id: int, ref: Ref) {
    id in items && items[id].ref == Some(ref) && items[id].status == Dispatched
  }

  function Confirm(items: Items, id: int, ref: Ref, cmd: Ref): Items {
    if Holds(items, id, ref) then items[id := items[id].(ref := Some(cmd))] else items
  }

  function Revert(items: Items, id: int, ref: Ref, maxRetry: int): Items {
    if Holds(items, id, ref)
    then items[id := items[id].(retry := items[id].retry + 1, sn := None, ref := None, dispatchedAt := None,
                                status := if items[id].retry + 1 >= maxRetry then NeedsTeacher else Approved)]
    else items
  }

  predicate Overdue(it: Item, approvedTTL: int, dispatchedTTL: int, now: int) {
    || (it.status == Approved && (if it.approvedAt.Some? then it.approvedAt.value else it.submittedAt) < now - approvedTTL)
    || (it.status == Dispatched && it.dispatchedAt.Some? && it.dispatchedAt.value < now - dispatchedTTL)
  }

  function Expire(items: Items, approvedTTL: int, dispatchedTTL: int, now: int): Items {
    map k | k in items :: if Overdue(items[k], approvedTTL, dispatchedTTL, now) then items[k].(status := Skipped) else items[k]
  }

  /** The first device that is idle and has no active item. */
  function FirstFree(devices: seq<string>, active: set<string>, idle: set<string>): Option<string> {
    if devices == [] then None
    else if devices[0] !in active && devices[0] in idle then Some(devices[0])
    else FirstFree(devices[1..], active, idle)
  }

  /** One row at most changes, and how. */
  ghost predicate OnlyRow(pre: Items, post: Items, id: int) {
    post.Keys == pre.Keys && forall k :: k in pre && k != id ==> post[k] == pre[k]
  }

  /** The status update finds the row only in the status read; approving notes the time. */
  lemma SetStatusMeans(items: Items, id: int, from: Status, to: Status, now: int)
    ensures var post := SetStatus(items, id, from, to, now);
            && OnlyRow(items, post, id)
            && (id in items && items[id].status != from ==> post[id] == items[id])
            && (id in items && items[id].status == from && to != Approved ==> post[id] == items[id].(status := to))
            && (id in items && items[id].status == from && to == Approved ==>
                  post[id] == items[id].(status := Approved, approvedAt := Some(now)))
  {
  }

  /** A claim takes an approved item for a device on which nothing is dispatched or running, and only then. */
  lemma ClaimMeans(items: Items, id: int, sn: string, ref: Ref, now: int)
    ensures CanClaim(items, id, sn) <==>
              && id in items && items[id].status == Approved
              && forall k :: k in items && items[k].sn == Some(sn) ==> items[k].status != Dispatched && items[k].status != Running
    ensures var post := Claim(items, id, sn, ref, now);
            if CanClaim(items, id, sn)
            then OnlyRow(items, post, id)
                 && post[id] == items[id].(status := Dispatched, sn := Some(sn), ref := Some(ref), dispatchedAt := Some(now))
            else post == items
  {
  }

  /** Only while the item is dispatched under this very token, the command id replaces it. */
  lemma ConfirmMeans(items: Items, id: int, token: Ref, cmd: Ref)
    ensures var post := Confirm(items, id, token, cmd);
            && OnlyRow(items, post, id)
            && (id in items ==> post[id] == if items[id].status == Dispatched && items[id].ref == Some(token)
                                            then items[id].(ref := Some(cmd)) else items[id])
  {
  }

  /** Only then, too, the item goes back with one more try, to a teacher once the tries are used up. */
  lemma RevertMeans(items: Items, id: int, token: Ref, maxRetry: int)
    ensures var post := Revert(items, id, token, maxRetry);
            && OnlyRow(items, post, id)
            && (id in items && !(items[id].status == Dispatched && items[id].ref == Some(token)) ==> post[id] == items[id])
            && (id in items && items[id].status == Dispatched && items[id].ref == Some(token) ==>
                  && post[id] == items[id].(status := post[id].status, retry := items[id].retry + 1,
                                            sn := None, ref := None, dispatchedAt := None)
                  && (post[id].status == Approved <==> items[id].retry + 1 < maxRetry)
                  && (post[id].status == NeedsTeacher <==> items[id].retry + 1 >= maxRetry))
  {
  }

  /** An approved item expires when it was approved (or, if that is not noted, handed in) more than the
      lifetime ago, a dispatched one when it was dispatched more than its lifetime ago; nothing else does. */
  lemma ExpireMeans(items: Items, approvedTTL: int, dispatchedTTL: int, now: int)
    ensures var post := Expire(items, approvedTTL, dispatchedTTL, now);
            && post.Keys == items.Keys
            && forall k :: k in items ==>
                 var it := items[k];
                 var overdue := || (it.status == Approved && it.approvedAt.Some? && now > it.approvedAt.value + approvedTTL)
                             || (it.status == Approved && it.approvedAt.None? && now > it.submittedAt + approvedTTL)
                             || (it.status == Dispatched && it.dispatchedAt.Some? && now > it.dispatchedAt.value + dispatchedTTL);
                 post[k] == if overdue then it.(status := Skipped) else it
  {
  }

  /** The caller belongs to the item's organisation, a student to the item itself, and has the role. */
  lemma MayMoveMeans(it: Item, who: Caller, from: Status, to: Status)
    ensures MayMove(it, who, from, to) <==>
              who.org == it.org && (who.role != Student || who.user == it.submitter) && who.role in RolesFor(from, to)
  {
  }

  /** A device that is idle and has no active item, with none such before it; or there is none at all. */
  ghost predicate IsFirstFree(devices: seq<string>, active: set<string>, idle: set<string>, r: Option<string>) {
    match r
    case None => forall sn :: sn in devices ==> sn in active || sn !in idle
    case Some(sn) =>
      && sn in idle && sn !in active
      && exists i :: 0 <= i < |devices| && devices[i] == sn && forall k :: 0 <= k < i ==> devices[k] in active || devices[k] !in idle
  }

  lemma {:induction false} FirstFreeFound(devices: seq<string>, active: set<string>, idle: set<string>)
    ensures IsFirstFree(devices, active, idle, FirstFree(devices, active, idle))
  {
    if devices != [] && (devices[0] in active || devices[0] !in idle) {
      var rest := devices[1..];
      FirstFreeFound(rest, active, idle);
      var r := FirstFree(rest, active, idle);
      if r.Some? {
        var i :| 0 <= i < |rest| && rest[i] == r.value && forall k :: 0 <= k < i ==> rest[k] in active || rest[k] !in idle;
        assert devices[i + 1] == r.value;
        forall k | 0 <= k < i + 1 ensures devices[k] in active || devices[k] !in idle {
          assert k > 0 ==> rest[k - 1] == devices[k];
        }
      } else {
        forall sn | sn in devices ensures sn in active || sn !in idle {
          assert sn == devices[0] || sn in rest;
        }
      }
    }
  }

  // ---- the table as it is updated in place

  class Store {
    var items: Items

    constructor ()
      ensures items == map[]
    {
      items := map[];
    }

    /** SetItemStatus: ownership and table are checked on the row as it was read, and the UPDATE requires
        that the status read still holds: otherwise there is a conflict. */
    method SetItemStatus(id: int, read: Option<Item>, who: Caller, to: Status, now: int) returns (r: Reply)
      modifies this
      ensures r == Unknown <==> read.None? || read.value.org != who.org
      ensures r == Refused <==> r != Unknown && !MayMove(read.value, who, read.value.status, to)
      ensures r == Overtaken <==> r != Unknown && r != Refused && (id !in old(items) || old(items)[id].status != read.value.status)
      ensures items == if r == Moved then SetStatus(old(items), id, read.value.status, to, now) else old(items)
    {
      if read.None? || read.value.org != who.org {
        return Unknown;
      }
      var it := read.value;
      if who.role == Student && it.submitter != who.user {
        return Refused;
      }
      if who.role !in RolesFor(it.status, to) {
        return Refused;
      }
      if id !in items || items[id].status != it.status {
        return Overtaken;
      }
      var row := items[id].(status := to);
      if to == Approved {
        row := row.(approvedAt := Some(now));
      }
      items := items[id := row];
      return Moved;
    }

    /** ClaimDispatch: no approved row means no claim, and so does a second active row for the device,
        which the unique index refuses. */
    method ClaimDispatch(id: int, sn: string, ref: Ref, now: int) returns (claimed: bool)
      modifies this
      ensures items == Claim(old(items), id, sn, ref, now)
      ensures claimed <==> CanClaim(old(items), id, sn)
    {
      if id !in items || items[id].status != Approved {
        return false;
      }
      if DeviceBusy(items, sn) {
        return false;
      }
      var it := items[id];
      items := items[id := it.(status := Dispatched, sn := Some(sn), ref := Some(ref), dispatchedAt := Some(now))];
      return true;
    }

    method ConfirmDispatch(id: int, ref: Ref, cmd: Ref)
      modifies this
      ensures items == Confirm(old(items), id, ref, cmd)
    {
      if Holds(items, id, ref) {
        items := items[id := items[id].(ref := Some(cmd))];
      }
    }

    method RevertDispatch(id: int, ref: Ref, maxRetry: int)
      modifies this
      ensures items == Revert(old(items), id, ref, maxRetry)
    {
      if Holds(items, id, ref) {
        var it := items[id];
        var status := if it.retry + 1 >= maxRetry then NeedsTeacher else Approved;
        items := items[id := it.(retry := it.retry + 1, sn := None, ref := None, dispatchedAt := None, status := status)];
      }
    }

    /** One queue's round by a lone scheduler: the first idle, inactive device is claimed, the job is
        sent, and the claim is confirmed with the reply or reverted when there is none. */
    method DispatchQueue(id: int, devices: seq<string>, active: set<string>, idle: set<string>,
                         ref: Ref, reply: Option<Ref>, maxRetry: int, now: int)
      returns (sent: bool)
      modifies this
      ensures IsFirstFree(devices, active, idle, FirstFree(devices, active, idle))
      ensures var sn := FirstFree(devices, active, idle);
              var won := sn.Some? && CanClaim(old(items), id, sn.value);
              && (sent <==> won && reply.Some?)
              && (!won ==> items == old(items))
              && (sent ==> items == old(items)[id := old(items)[id].(
                    status := Dispatched, sn := sn, ref := reply, dispatchedAt := Some(now))])
              && (won && !sent ==> items == old(items)[id := old(items)[id].(
                    status := if old(items)[id].retry + 1 >= maxRetry then NeedsTeacher else Approved,
                    retry := old(items)[id].retry + 1, sn := None, ref := None, dispatchedAt := None)])
    {
      FirstFreeFound(devices, active, idle);
      for i := 0 to |devices|
        invariant items == old(items)
        invariant FirstFree(devices, active, idle) == FirstFree(devices[i..], active, idle)
      {
        if devices[i] in active || devices[i] !in idle {
          continue;
        }
        assert FirstFree(devices[i..], active, idle) == Some(devices[i]);
        var claimed := ClaimDispatch(id, devices[i], ref, now);
        if !claimed {
          return false;
        }
        if reply.None? {
          RevertDispatch(id, ref, maxRetry);
          return false;
        }
        ConfirmDispatch(id, ref, reply.value);
        return true;
      }
      return false;
    }

    method ExpireItems(approvedTTL: int, dispatchedTTL: int, now: int) returns (n: nat)
      modifies this
      ensures items == Expire(old(items), approvedTTL, dispatchedTTL, now)
      ensures n == |set k | k in old(items) && old(items)[k].status != items[k].status|
    {
      ghost var before := items;
      var due := set k | k in items && Overdue(items[k], approvedTTL, dispatchedTTL, now);
      n := |due|;
      items := Expire(items, approvedTTL, dispatchedTTL, now);
      assert due == set k | k in before && before[k].status != items[k].status;
    }
  }
}
