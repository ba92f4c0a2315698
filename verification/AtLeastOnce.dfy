/** At-least-once processing: stream state, dedupe keys, held items and written data. */
module AtLeastOnce {

  type Key = (string, int)

  /** A message either does not parse or is identified by (sn, seq). */
  datatype Msg = Poison | Valid(key: Key)

  datatype Delivery = Pending | InFlight | Acked

  datatype Kind = Telemetry | Event | CmdAck | OtaProgress

  datatype Redis = Answers | Fails(keySet: bool)

  /** held: past dedupe, not yet written; stored: written, ack still to send;
      rejected: write failed and keys deleted, nak still to send. */
  datatype World = World(msgs: map<int, Msg>, at: map<int, Delivery>, keys: set<Key>, written: set<Key>,
                         held: set<int>, stored: set<int>, rejected: set<int>, dead: set<int>)

  datatype Action =
    | Publish(id: int, msg: Msg)
    | Deliver(id: int, redis: Redis, dlqOk: bool)
    | WriteBatch(ids: set<int>)
    | FailBatch(ids: set<int>, partial: set<Key>, keysDeleted: bool)
    | SendAck(id: int, arrives: bool)
    | SendNak(id: int)
    | Redeliver(id: int)
    | ExpireKey(key: Key)
    | Crash

  const EMPTY := World(map[], map[], {}, {}, {}, {}, {}, {})

  /** The fixed environment: what each key's message is, and whether a dead-letter stream is set up. */
  datatype Setup = Setup(kindOf: Key -> Kind, dlq: bool)

  predicate Tracked(env: Setup, k: Key) {
    env.kindOf(k) != OtaProgress
  }

  function KeysOf(w: World, ids: set<int>): set<Key> {
    set i | i in ids && i in w.msgs && w.msgs[i].Valid? :: w.msgs[i].key
  }

  function Ack(w: World, id: int): World {
    w.(at := w.at[id := Acked])
  }

  function Hold(w: World, id: int, setKey: bool): World
    requires id in w.msgs && w.msgs[id].Valid?
  {
    w.(at := w.at[id := InFlight], held := w.held + {id}, keys := if setKey then w.keys + {w.msgs[id].key} else w.keys)
  }

  /** process: parse, dedupe, hand over. */
  function Process(w: World, env: Setup, id: int, redis: Redis, dlqOk: bool): World {
    if id !in w.msgs || id !in w.at || w.at[id] != Pending then w
    else
      match w.msgs[id]
      case Poison =>
        if !env.dlq then Ack(w, id)
        else if dlqOk then Ack(w.(dead := w.dead + {id}), id)
        else w
      case Valid(k) =>
        if env.kindOf(k) == OtaProgress then Ack(w, id)
        else
          match redis
          case Fails(keySet) => Hold(w, id, keySet)
          case Answers => if k in w.keys then Ack(w, id) else Hold(w, id, true)
  }

  function Step(w: World, env: Setup, a: Action): World {
    match a
    case Publish(id, msg) =>
      if id in w.msgs || id in w.at then w else w.(msgs := w.msgs[id := msg], at := w.at[id := Pending])
    case Deliver(id, redis, dlqOk) => Process(w, env, id, redis, dlqOk)
    case WriteBatch(ids) =>
      if ids <= w.held then w.(written := w.written + KeysOf(w, ids), held := w.held - ids, stored := w.stored + ids) else w
    case FailBatch(ids, partial, keysDeleted) =>
      if ids <= w.held && partial <= KeysOf(w, ids)
      then w.(written := w.written + partial, held := w.held - ids, rejected := w.rejected + ids,
              keys := if keysDeleted then w.keys - KeysOf(w, ids) else w.keys)
      else w
    case SendAck(id, arrives) =>
      if id in w.stored then w.(stored := w.stored - {id}, at := if arrives then w.at[id := Acked] else w.at) else w
    case SendNak(id) =>
      if id in w.rejected
      then w.(rejected := w.rejected - {id}, at := if id in w.at && w.at[id] == InFlight then w.at[id := Pending] else w.at)
      else w
    case Redeliver(id) => if id in w.at && w.at[id] == InFlight then w.(at := w.at[id := Pending]) else w
    case ExpireKey(key) => w.(keys := w.keys - {key})
    case Crash =>
      w.(held := {}, stored := {}, rejected := {},
         at := map i | i in w.at :: if w.at[i] == InFlight then Pending else w.at[i])
  }

  function RunFrom(w: World, env: Setup, actions: seq<Action>): World {
    if actions == [] then w else Step(RunFrom(w, env, actions[..|actions| - 1]), env, actions[|actions| - 1])
  }

  function Run(env: Setup, actions: seq<Action>): World {
    RunFrom(EMPTY, env, actions)
  }

  /** process takes the message past dedupe: telemetry joins the batch, events and acks are written at once. */
  predicate Takes(w: World, env: Setup, id: int, redis: Redis) {
    && id in w.msgs && id in w.at && w.at[id] == Pending
    && w.msgs[id].Valid? && env.kindOf(w.msgs[id].key) != OtaProgress
    && (redis.Fails? || w.msgs[id].key !in w.keys)
  }

  predicate WritesAtOnce(env: Setup, k: Key) {
    env.kindOf(k) == Event || env.kindOf(k) == CmdAck
  }

  /** How a write ends: done, or failed after part of the batch, with or without deleting the keys. */
  datatype Outcome = Written(arrives: set<int>) | Failed(partial: set<Key>, keysDeleted: bool)

  /** flush and nakAll, action by action: one write, then the acks or naks of the batch in order. */
  function FlushActions(batch: seq<int>, o: Outcome): seq<Action> {
    var ids := set i | i in batch;
    match o
    case Written(arrives) =>
      [WriteBatch(ids)] + seq(|batch|, i requires 0 <= i < |batch| => SendAck(batch[i], batch[i] in arrives))
    case Failed(partial, keysDeleted) =>
      [FailBatch(ids, partial, keysDeleted)] + seq(|batch|, i requires 0 <= i < |batch| => SendNak(batch[i]))
  }

  function Handled(w: World, env: Setup, id: int, redis: Redis, dlqOk: bool, o: Outcome): World {
    var post := Process(w, env, id, redis, dlqOk);
    if Takes(w, env, id, redis) && WritesAtOnce(env, w.msgs[id].key) then RunFrom(post, env, FlushActions([id], o)) else post
  }

  /** The worker that consumes one stream; the fields of its world change message by message. */
  class Worker {
    const env: Setup
    var w: World

    constructor (env: Setup)
      ensures this.env == env && w == EMPTY
    {
      this.env := env;
      w := EMPTY;
    }

    method HandlePoison(id: int, dlqOk: bool)
      requires id in w.msgs && w.msgs[id] == Poison && id in w.at && w.at[id] == Pending
      modifies this
      ensures forall redis :: w == Process(old(w), env, id, redis, dlqOk)
    {
      if env.dlq {
        if !dlqOk {
          return;
        }
        w := w.(dead := w.dead + {id});
      }
      w := w.(at := w.at[id := Acked]);
    }

    method HandleMessage(id: int, redis: Redis, dlqOk: bool, o: Outcome)
      modifies this
      ensures w == Handled(old(w), env, id, redis, dlqOk, o)
    {
      if id !in w.msgs || id !in w.at || w.at[id] != Pending {
        return;
      }
      if w.msgs[id] == Poison {
        HandlePoison(id, dlqOk);
        return;
      }
      var k := w.msgs[id].key;
      if env.kindOf(k) == OtaProgress {
        w := w.(at := w.at[id := Acked]);
        return;
      }
      if redis == Answers && k in w.keys {
        w := w.(at := w.at[id := Acked]);
        return;
      }
      if redis == Answers || redis.keySet {
        w := w.(keys := w.keys + {k});
      }
      w := w.(at := w.at[id := InFlight], held := w.held + {id});
      if env.kindOf(k) == Event || env.kindOf(k) == CmdAck {
        Flush([id], o);
      }
    }

    method Flush(batch: seq<int>, o: Outcome)
      modifies this
      ensures w == if batch == [] then old(w) else RunFrom(old(w), env, FlushActions(batch, o))
    {
      if |batch| == 0 {
        return;
      }
      ghost var all := FlushActions(batch, o);
      ghost var start := w;
      assert all[..1][..0] == [] && all[..1][0] == all[0];
      var ids := set i | i in batch;
      w := Step(w, env, if o.Written? then WriteBatch(ids) else FailBatch(ids, o.partial, o.keysDeleted));
      for i := 0 to |batch|
        invariant w == RunFrom(start, env, all[..i + 1])
      {
        assert all[..i + 2][..i + 1] == all[..i + 1];
        w := Step(w, env, if o.Written? then SendAck(batch[i], batch[i] in o.arrives) else SendNak(batch[i]));
      }
      assert all[..|all|] == all;
    }
  }

  // ---- what a flush does to the messages of its batch

  function IdsOf(batch: seq<int>): set<int> {
    set i | i in batch
  }

  /** The write has been done and the first n messages of the batch acked, where the acks arrive. */
  ghost predicate AckedUpTo(w: World, post: World, batch: seq<int>, arrives: set<int>, n: nat)
    requires n <= |batch|
  {
    && post == w.(written := w.written + KeysOf(w, IdsOf(batch)), held := w.held - IdsOf(batch),
                  stored := w.stored + IdsOf(batch) - IdsOf(batch[..n]), at := post.at)
    && post.at.Keys == w.at.Keys
    && forall i :: i in w.at ==> post.at[i] == if i in batch[..n] && i in arrives then Acked else w.at[i]
  }

  /** The write has failed after part of the keys, and the first n messages have been given back. */
  ghost predicate NakedUpTo(w: World, post: World, batch: seq<int>, partial: set<Key>, keysDeleted: bool, n: nat)
    requires n <= |batch|
  {
    && post == w.(written := w.written + partial, held := w.held - IdsOf(batch),
                  keys := if keysDeleted then w.keys - KeysOf(w, IdsOf(batch)) else w.keys,
                  rejected := w.rejected + IdsOf(batch) - IdsOf(batch[..n]), at := post.at)
    && post.at.Keys == w.at.Keys
    && forall i :: i in w.at ==> post.at[i] == if i in batch[..n] && w.at[i] == InFlight then Pending else w.at[i]
  }

  lemma FlushPrefix(w: World, env: Setup, batch: seq<int>, o: Outcome, n: nat)
    requires 0 < n <= |batch|
    ensures RunFrom(w, env, FlushActions(batch, o)[..n + 1])
         == Step(RunFrom(w, env, FlushActions(batch, o)[..n]), env,
                 if o.Written? then SendAck(batch[n - 1], batch[n - 1] in o.arrives) else SendNak(batch[n - 1]))
  {
    var all := FlushActions(batch, o);
    assert all[..n + 1][..n] == all[..n] && all[..n + 1][n] == all[n];
  }

  lemma FlushFirst(w: World, env: Setup, batch: seq<int>, o: Outcome)
    ensures RunFrom(w, env, FlushActions(batch, o)[..1])
         == Step(w, env, if o.Written? then WriteBatch(IdsOf(batch)) else FailBatch(IdsOf(batch), o.partial, o.keysDeleted))
  {
    var all := FlushActions(batch, o);
    assert all[..1][..0] == [] && all[..1][0] == all[0];
  }

  lemma NextIds(batch: seq<int>, n: nat)
    requires 0 < n <= |batch|
    ensures batch[..n] == batch[..n - 1] + [batch[n - 1]] && IdsOf(batch[..n]) == IdsOf(batch[..n - 1]) + {batch[n - 1]}
    ensures batch[n - 1] in IdsOf(batch)
  {
  }

  lemma {:induction false} WrittenPrefix(w: World, env: Setup, batch: seq<int>, arrives: set<int>, n: nat)
    requires n <= |batch| && IdsOf(batch) <= w.held && forall i :: i in batch ==> i in w.at
    ensures AckedUpTo(w, RunFrom(w, env, FlushActions(batch, Written(arrives))[..n + 1]), batch, arrives, n)
  {
    if n == 0 {
      FlushFirst(w, env, batch, Written(arrives));
      assert IdsOf(batch[..0]) == {};
    } else {
      WrittenPrefix(w, env, batch, arrives, n - 1);
      FlushPrefix(w, env, batch, Written(arrives), n);
      NextIds(batch, n);
    }
  }

  lemma {:induction false} FailedPrefix(w: World, env: Setup, batch: seq<int>, partial: set<Key>, keysDeleted: bool, n: nat)
    requires n <= |batch| && IdsOf(batch) <= w.held && forall i :: i in batch ==> i in w.at
    requires partial <= KeysOf(w, IdsOf(batch))
    ensures NakedUpTo(w, RunFrom(w, env, FlushActions(batch, Failed(partial, keysDeleted))[..n + 1]), batch, partial, keysDeleted, n)
  {
    if n == 0 {
      FlushFirst(w, env, batch, Failed(partial, keysDeleted));
      assert IdsOf(batch[..0]) == {};
    } else {
      FailedPrefix(w, env, batch, partial, keysDeleted, n - 1);
      FlushPrefix(w, env, batch, Failed(partial, keysDeleted), n);
      NextIds(batch, n);
    }
  }

  /** After a successful flush the batch's data is written, and every message of it is acked whose ack
      arrives; after a failed one every message of it waits for delivery again, and its key is gone if it
      could be deleted. Nothing of the batch stays in the worker's hands, and no other message is touched. */
  lemma FlushExact(w: World, env: Setup, batch: seq<int>, o: Outcome)
    requires Sane(w, env) && forall i :: i in batch ==> i in w.held
    requires o.Failed? ==> o.partial <= KeysOf(w, IdsOf(batch))
    ensures var post := RunFrom(w, env, FlushActions(batch, o));
            && (forall i :: i in batch ==> i !in post.held && (o.Written? ==> i !in post.stored) && (o.Failed? ==> i !in post.rejected))
            && (forall i :: i in batch && i in w.msgs && w.msgs[i].Valid? ==>
                  && (o.Written? ==> w.msgs[i].key in post.written)
                  && (o.Failed? && o.keysDeleted ==> w.msgs[i].key !in post.keys))
            && (forall i :: i in batch && o.Written? && i in o.arrives ==> i in post.at && post.at[i] == Acked)
            && (forall i :: i in batch && o.Failed? && i in w.at && w.at[i] == InFlight ==> i in post.at && post.at[i] == Pending)
            && (forall i :: i !in batch && i in w.at ==> i in post.at && post.at[i] == w.at[i])
            && post.msgs == w.msgs && post.dead == w.dead
  {
    forall i | i in batch ensures i in w.at {
      assert InHand(w, i);
    }
    forall i | i in IdsOf(batch) ensures i in w.held {
      assert i in batch;
    }
    assert FlushActions(batch, o)[..|batch| + 1] == FlushActions(batch, o) && batch[..|batch|] == batch;
    match o
    case Written(arrives) => WrittenPrefix(w, env, batch, arrives, |batch|);
    case Failed(partial, keysDeleted) => FailedPrefix(w, env, batch, partial, keysDeleted, |batch|);
  }

  // ---- what every run keeps, whatever fails

  predicate HasKey(w: World, id: int, k: Key) {
    id in w.msgs && w.msgs[id] == Valid(k)
  }

  predicate UnAcked(w: World, id: int) {
    id in w.at && w.at[id] != Acked
  }

  /** Another message with this key is in flight or awaits (re)delivery. */
  ghost predicate StillComing(w: World, k: Key) {
    exists j :: HasKey(w, j, k) && UnAcked(w, j)
  }

  predicate InHand(w: World, j: int) {
    j in w.held || j in w.rejected || j in w.stored
  }

  ghost predicate Sane(w: World, env: Setup) {
    && (forall i :: i in w.at <==> i in w.msgs)
    && (forall j :: InHand(w, j) ==> j in w.msgs && w.msgs[j].Valid? && Tracked(env, w.msgs[j].key))
    && (forall j :: j in w.stored ==> w.msgs[j].key in w.written)
  }

  lemma StepSane(w: World, env: Setup, a: Action)
    requires Sane(w, env)
    ensures Sane(Step(w, env, a), env)
  {
    match a
    case WriteBatch(ids) =>
      if ids <= w.held {
        forall j | j in ids ensures w.msgs[j].key in KeysOf(w, ids) {
          assert InHand(w, j);
        }
        assert forall j :: InHand(Step(w, env, a), j) ==> InHand(w, j);
      }
    case FailBatch(ids, partial, keysDeleted) => assert forall j :: InHand(Step(w, env, a), j) ==> InHand(w, j);
    case Deliver(id, redis, dlqOk) => assert forall j :: InHand(Step(w, env, a), j) ==> InHand(w, j) || Takes(w, env, id, redis);
    case _ => assert forall j :: InHand(Step(w, env, a), j) ==> InHand(w, j);
  }

  lemma {:induction false} RunSane(env: Setup, actions: seq<Action>)
    ensures Sane(Run(env, actions), env)
  {
    if actions != [] {
      RunSane(env, actions[..|actions| - 1]);
      StepSane(Run(env, actions[..|actions| - 1]), env, actions[|actions| - 1]);
    }
  }

  /** Over every run, crashes and all: with a dead-letter stream, an acked unparsable message is in it. */
  lemma {:induction false} PoisonIsKept(env: Setup, actions: seq<Action>, id: int)
    requires env.dlq
    requires var w := Run(env, actions); id in w.msgs && w.msgs[id] == Poison && id in w.at && w.at[id] == Acked
    ensures id in Run(env, actions).dead
  {
    var k := |actions| - 1;
    var before := Run(env, actions[..k]);
    RunSane(env, actions[..k]);
    if id in before.msgs && before.at[id] == Acked {
      PoisonIsKept(env, actions[..k], id);
    }
  }

  // ---- exactly when a key is lost

  /** An acked message of k is written, or another un-acked message with its key is on the way. */
  ghost predicate KeptFor(w: World, k: Key) {
    forall id :: HasKey(w, id, k) && id in w.at && w.at[id] == Acked ==> k in w.written || StillComing(w, k)
  }

  /** The delivery of the last un-acked message of k, answered by its dedupe key before its data is written. */
  ghost predicate LosingDelivery(w: World, a: Action, k: Key) {
    && a.Deliver? && a.redis.Answers? && HasKey(w, a.id, k) && a.id in w.at && w.at[a.id] == Pending
    && k in w.keys && k !in w.written
    && forall j :: j != a.id && HasKey(w, j, k) ==> !UnAcked(w, j)
  }

  /** No ack of k, and nothing written or un-acked gets lost. */
  lemma NoAckKeeps(w: World, post: World, k: Key)
    requires KeptFor(w, k) && w.written <= post.written
    requires forall j :: HasKey(w, j, k) && UnAcked(w, j) ==> HasKey(post, j, k) && UnAcked(post, j)
    requires forall j :: HasKey(post, j, k) && j in post.at && post.at[j] == Acked ==> HasKey(w, j, k) && j in w.at && w.at[j] == Acked
    ensures KeptFor(post, k)
  {
    forall id | HasKey(post, id, k) && id in post.at && post.at[id] == Acked ensures k in post.written || StillComing(post, k) {
      if k !in w.written {
        var j :| HasKey(w, j, k) && UnAcked(w, j);
        assert HasKey(post, j, k) && UnAcked(post, j);
      }
    }
  }

  lemma DuplicateKept(w: World, id: int, k: Key, redis: Redis, dlqOk: bool)
    requires KeptFor(w, k) && HasKey(w, id, k) && id in w.at && w.at[id] == Pending && k in w.keys && redis.Answers?
    ensures KeptFor(Ack(w, id), k) <==> !LosingDelivery(w, Deliver(id, redis, dlqOk), k)
  {
    var post := Ack(w, id);
    if exists j :: j != id && HasKey(w, j, k) && UnAcked(w, j) {
      var j :| j != id && HasKey(w, j, k) && UnAcked(w, j);
      assert HasKey(post, j, k) && UnAcked(post, j);
    } else if k !in w.written {
      assert HasKey(post, id, k) && post.at[id] == Acked;
      forall j | HasKey(post, j, k) ensures !UnAcked(post, j) {
        assert HasKey(w, j, k);
      }
    }
  }

  lemma DeliverKept(w: World, env: Setup, id: int, redis: Redis, dlqOk: bool, k: Key)
    requires Sane(w, env) && Tracked(env, k) && KeptFor(w, k)
    ensures KeptFor(Process(w, env, id, redis, dlqOk), k) <==> !LosingDelivery(w, Deliver(id, redis, dlqOk), k)
  {
    if HasKey(w, id, k) && w.at[id] == Pending && redis.Answers? && k in w.keys {
      DuplicateKept(w, id, k, redis, dlqOk);
    } else {
      NoAckKeeps(w, Process(w, env, id, redis, dlqOk), k);
    }
  }

  lemma SendAckKept(w: World, env: Setup, id: int, arrives: bool, k: Key)
    requires Sane(w, env) && KeptFor(w, k)
    ensures KeptFor(Step(w, env, SendAck(id, arrives)), k)
  {
    if id in w.stored && HasKey(w, id, k) {
      assert k in w.written;
    } else {
      if id in w.stored {
        assert InHand(w, id);
      }
      NoAckKeeps(w, Step(w, env, SendAck(id, arrives)), k);
    }
  }

  lemma StepKept(w: World, env: Setup, a: Action, k: Key)
    requires Sane(w, env) && Tracked(env, k) && KeptFor(w, k)
    ensures KeptFor(Step(w, env, a), k) <==> !LosingDelivery(w, a, k)
  {
    match a
    case Deliver(id, redis, dlqOk) => DeliverKept(w, env, id, redis, dlqOk, k);
    case SendAck(id, arrives) => SendAckKept(w, env, id, arrives, k);
    case _ => NoAckKeeps(w, Step(w, env, a), k);
  }

  ghost predicate AlwaysKept(env: Setup, actions: seq<Action>, k: Key) {
    forall n :: 0 <= n <= |actions| ==> KeptFor(Run(env, actions[..n]), k)
  }

  ghost predicate NeverLoses(env: Setup, actions: seq<Action>, k: Key) {
    forall n :: 0 <= n < |actions| ==> !LosingDelivery(Run(env, actions[..n]), actions[n], k)
  }

  lemma KeptSnoc(env: Setup, actions: seq<Action>, k: Key)
    requires actions != []
    ensures AlwaysKept(env, actions, k) <==> AlwaysKept(env, actions[..|actions| - 1], k) && KeptFor(Run(env, actions), k)
  {
    var init := actions[..|actions| - 1];
    assert actions[..|actions|] == actions;
    forall n | 0 <= n <= |init| ensures Run(env, init[..n]) == Run(env, actions[..n]) {
      assert init[..n] == actions[..n];
    }
  }

  lemma LosesSnoc(env: Setup, actions: seq<Action>, k: Key)
    requires actions != []
    ensures var m := |actions| - 1;
            NeverLoses(env, actions, k) <==>
              NeverLoses(env, actions[..m], k) && !LosingDelivery(Run(env, actions[..m]), actions[m], k)
  {
    var init := actions[..|actions| - 1];
    forall n | 0 <= n < |init|
      ensures LosingDelivery(Run(env, init[..n]), init[n], k) == LosingDelivery(Run(env, actions[..n]), actions[n], k)
    {
      assert init[..n] == actions[..n];
    }
  }

  /** Over every run, crashes and all: a tracked key is lost at some point exactly when the last un-acked
      message of the key is answered as a duplicate before its data is written. */
  lemma {:induction false} LossExact(env: Setup, actions: seq<Action>, k: Key)
    requires Tracked(env, k)
    ensures AlwaysKept(env, actions, k) <==> NeverLoses(env, actions, k)
  {
    if actions == [] {
      assert actions[..0] == [];
    } else {
      var init := actions[..|actions| - 1];
      LossExact(env, init, k);
      KeptSnoc(env, actions, k);
      LosesSnoc(env, actions, k);
      RunSane(env, init);
      assert init[..|init|] == init;
      if KeptFor(Run(env, init), k) {
        StepKept(Run(env, init), env, actions[|init|], k);
      }
    }
  }

  // ---- a condition on the steps that concern a key

  /** No crash while a message of k is held unwritten, no failed delete of its key, no redelivery of
      a message of k that the worker still has and has not written. */
  ghost predicate SafeFor(w: World, a: Action, k: Key) {
    match a
    case Crash => forall j :: j in w.held && HasKey(w, j, k) ==> k in w.written
    case FailBatch(ids, partial, keysDeleted) =>
      ids <= w.held && partial <= KeysOf(w, ids) && k in KeysOf(w, ids) && !keysDeleted ==> k in w.written || k in partial
    case Redeliver(id) =>
      HasKey(w, id, k) && (id in w.held || id in w.rejected) && id in w.at && w.at[id] == InFlight ==> k in w.written
    case _ => true
  }

  ghost predicate HeldWitness(w: World, k: Key) {
    exists j :: j in w.held && HasKey(w, j, k)
  }

  /** A set key is written or still in the worker's hands; what is in its hands is in flight, or written. */
  ghost predicate KeyOk(w: World, k: Key) {
    && (k in w.keys ==> k in w.written || HeldWitness(w, k))
    && (forall j :: HasKey(w, j, k) && (j in w.held || j in w.rejected) ==> k in w.written || (j in w.at && w.at[j] == InFlight))
    && (forall j :: HasKey(w, j, k) && j in w.held && j in w.rejected ==> k in w.written)
  }

  lemma KeyOkStep(w: World, env: Setup, a: Action, k: Key)
    requires Sane(w, env) && Tracked(env, k) && KeyOk(w, k) && SafeFor(w, a, k)
    ensures KeyOk(Step(w, env, a), k)
  {
    var post := Step(w, env, a);
    if k in post.keys && k !in post.written {
      match a
      case Deliver(id, redis, _) =>
        if Takes(w, env, id, redis) && HasKey(w, id, k) {
          assert id in post.held && HasKey(post, id, k);
        } else {
          var j :| j in w.held && HasKey(w, j, k);
          assert j in post.held && HasKey(post, j, k);
        }
      case WriteBatch(ids) =>
        var j :| j in w.held && HasKey(w, j, k);
        assert ids <= w.held && j in ids ==> k in KeysOf(w, ids);
        assert j in post.held && HasKey(post, j, k);
      case FailBatch(ids, partial, keysDeleted) =>
        var j :| j in w.held && HasKey(w, j, k);
        assert ids <= w.held && j in ids ==> k in KeysOf(w, ids);
        assert j in post.held && HasKey(post, j, k);
      case Crash =>
      case _ =>
        var j :| j in w.held && HasKey(w, j, k);
        assert j in post.held && HasKey(post, j, k);
    }
    HandsOkStep(w, env, a, k);
  }

  lemma HandsOkStep(w: World, env: Setup, a: Action, k: Key)
    requires Sane(w, env) && Tracked(env, k) && KeyOk(w, k) && SafeFor(w, a, k)
    ensures var post := Step(w, env, a);
            && (forall j :: HasKey(post, j, k) && (j in post.held || j in post.rejected) ==>
                  k in post.written || (j in post.at && post.at[j] == InFlight))
            && (forall j :: HasKey(post, j, k) && j in post.held && j in post.rejected ==> k in post.written)
  {
    match a
    case Deliver(id, redis, _) =>
      if id in w.rejected || id in w.stored || id in w.held {
        assert InHand(w, id);
      }
    case SendAck(id, _) => assert id in w.stored ==> InHand(w, id);
    case Publish(id, _) => assert InHand(w, id) ==> id in w.msgs;
    case _ =>
  }

  ghost predicate SafeRun(env: Setup, actions: seq<Action>, k: Key) {
    forall n :: 0 <= n < |actions| ==> SafeFor(Run(env, actions[..n]), actions[n], k)
  }

  lemma {:induction false} KeyOkRun(env: Setup, actions: seq<Action>, k: Key)
    requires Tracked(env, k) && SafeRun(env, actions, k)
    ensures KeyOk(Run(env, actions), k)
  {
    if actions != [] {
      var init := actions[..|actions| - 1];
      forall n | 0 <= n < |init| ensures SafeFor(Run(env, init[..n]), init[n], k) {
        assert init[..n] == actions[..n];
      }
      KeyOkRun(env, init, k);
      RunSane(env, init);
      assert SafeFor(Run(env, actions[..|init|]), actions[|init|], k);
      KeyOkStep(Run(env, init), env, actions[|actions| - 1], k);
    }
  }

  /** Then no delivery loses k: at any time an acked telemetry, event or cmd_ack message of k is written,
      or another un-acked message with its key is on the way. */
  lemma AckedIsNeverLost(env: Setup, actions: seq<Action>, k: Key)
    requires Tracked(env, k) && SafeRun(env, actions, k)
    ensures KeptFor(Run(env, actions), k)
  {
    forall n | 0 <= n < |actions| ensures !LosingDelivery(Run(env, actions[..n]), actions[n], k) {
      var prefix := actions[..n];
      forall m | 0 <= m < n ensures SafeFor(Run(env, prefix[..m]), prefix[m], k) {
        assert prefix[..m] == actions[..m];
      }
      KeyOkRun(env, prefix, k);
    }
    LossExact(env, actions, k);
    assert actions[..|actions|] == actions;
  }

  /** Any step that is not safe for k does lose k, when id is its only message and has been taken: the
      next delivery of id is answered by the key, unless the key expires or the data is written first. */
  lemma UnsafeLoses(w: World, env: Setup, a: Action, k: Key, id: int, dlqOk: bool)
    requires Sane(w, env) && Tracked(env, k) && !SafeFor(w, a, k)
    requires HasKey(w, id, k) && id in w.at && w.at[id] == InFlight && k in w.keys && k !in w.written
    requires forall j :: HasKey(w, j, k) ==> j == id
    ensures var left := if a.FailBatch? then Step(Step(w, env, a), env, SendNak(id)) else Step(w, env, a);
            && LosingDelivery(left, Deliver(id, Answers, dlqOk), k)
            && !KeptFor(Step(left, env, Deliver(id, Answers, dlqOk)), k)
  {
    if a.FailBatch? {
      var i :| i in a.ids && i in w.msgs && w.msgs[i].Valid? && w.msgs[i].key == k;
      assert HasKey(w, i, k);
    }
    var left := if a.FailBatch? then Step(Step(w, env, a), env, SendNak(id)) else Step(w, env, a);
    var post := Step(left, env, Deliver(id, Answers, dlqOk));
    forall j | HasKey(left, j, k) || HasKey(post, j, k) ensures j == id {
      assert HasKey(w, j, k);
    }
    assert LosingDelivery(left, Deliver(id, Answers, dlqOk), k);
    assert HasKey(post, id, k) && post.at[id] == Acked && k !in post.written;
  }

  /** A lost key stays lost until its data is written after all or a new message with the key arrives. */
  lemma LostUntilWritten(w: World, env: Setup, a: Action, k: Key)
    requires !KeptFor(w, k) && k !in Step(w, env, a).written
    requires a.Publish? ==> a.msg != Valid(k)
    ensures !KeptFor(Step(w, env, a), k)
  {
    var post := Step(w, env, a);
    var id :| HasKey(w, id, k) && id in w.at && w.at[id] == Acked;
    assert HasKey(post, id, k) && id in post.at && post.at[id] == Acked;
    forall j | HasKey(post, j, k) ensures !UnAcked(post, j) {
      assert HasKey(w, j, k) && !UnAcked(w, j);
    }
  }

  // ---- the three ways, as runs from the start

  lemma RunAppend(env: Setup, actions: seq<Action>, a: Action)
    ensures Run(env, actions + [a]) == Step(Run(env, actions), env, a)
  {
    assert (actions + [a])[..|actions|] == actions;
  }

  function Telemetries(k: Key): Kind {
    Telemetry
  }

  const SETUP := Setup(Telemetries, true)
  const K: Key := ("A", 1)
  const ARRIVED := [Publish(1, Valid(K)), Deliver(1, Answers, true)]

  lemma ArrivedState()
    ensures Run(SETUP, ARRIVED) == World(map[1 := Valid(K)], map[1 := InFlight], {K}, {}, {1}, {}, {}, {})
  {
    RunAppend(SETUP, [], Publish(1, Valid(K)));
    RunAppend(SETUP, [Publish(1, Valid(K))], Deliver(1, Answers, true));
    var w := Run(SETUP, [Publish(1, Valid(K))]);
    assert [] + [Publish(1, Valid(K))] == [Publish(1, Valid(K))];
    assert w == World(map[1 := Valid(K)], map[1 := Pending], {}, {}, {}, {}, {}, {});
    assert [Publish(1, Valid(K))] + [Deliver(1, Answers, true)] == ARRIVED;
  }

  /** A crash between dedupe and write loses the message: its redelivery is taken for a duplicate. */
  lemma CrashLoses()
    ensures !KeptFor(Run(SETUP, ARRIVED + [Crash] + [Deliver(1, Answers, true)]), K)
  {
    ArrivedState();
    RunSane(SETUP, ARRIVED);
    assert HasKey(Run(SETUP, ARRIVED), 1, K);
    UnsafeLoses(Run(SETUP, ARRIVED), SETUP, Crash, K, 1, true);
    RunAppend(SETUP, ARRIVED, Crash);
    RunAppend(SETUP, ARRIVED + [Crash], Deliver(1, Answers, true));
  }

  /** So does a failed write whose dedupe key could not be deleted. */
  lemma FailedDeleteLoses()
    ensures !KeptFor(Run(SETUP, ARRIVED + [FailBatch({1}, {}, false)] + [SendNak(1)] + [Deliver(1, Answers, true)]), K)
  {
    ArrivedState();
    RunSane(SETUP, ARRIVED);
    var fail := FailBatch({1}, {}, false);
    assert HasKey(Run(SETUP, ARRIVED), 1, K) && K in KeysOf(Run(SETUP, ARRIVED), {1});
    UnsafeLoses(Run(SETUP, ARRIVED), SETUP, fail, K, 1, true);
    RunAppend(SETUP, ARRIVED, fail);
    RunAppend(SETUP, ARRIVED + [fail], SendNak(1));
    RunAppend(SETUP, ARRIVED + [fail] + [SendNak(1)], Deliver(1, Answers, true));
  }

  /** So does a redelivery while the first copy still waits to be written. */
  lemma RedeliveryLoses()
    ensures !KeptFor(Run(SETUP, ARRIVED + [Redeliver(1)] + [Deliver(1, Answers, true)]), K)
  {
    ArrivedState();
    RunSane(SETUP, ARRIVED);
    assert HasKey(Run(SETUP, ARRIVED), 1, K);
    UnsafeLoses(Run(SETUP, ARRIVED), SETUP, Redeliver(1), K, 1, true);
    RunAppend(SETUP, ARRIVED, Redeliver(1));
    RunAppend(SETUP, ARRIVED + [Redeliver(1)], Deliver(1, Answers, true));
  }

  // ---- one message

  function Marked(w: World, id: int, d: Delivery): World {
    World(w.msgs, w.at[id := d], w.keys, w.written, w.held, w.stored, w.rejected, w.dead)
  }

  /** What does not parse is acked without a dead-letter stream, and with one only when it arrived there. */
  lemma PoisonMeans(w: World, env: Setup, id: int, redis: Redis, dlqOk: bool)
    requires id in w.msgs && id in w.at && w.at[id] == Pending && w.msgs[id] == Poison
    ensures Process(w, env, id, redis, dlqOk)
         == if env.dlq && !dlqOk then w
            else Marked(if env.dlq then w.(dead := w.dead + {id}) else w, id, Acked)
  {
  }

  /** Anything else is acked unseen when it is only progress, or when its key is known and Redis says so;
      otherwise the worker takes it, and its key is set unless Redis failed before that. */
  lemma ProcessMeans(w: World, env: Setup, id: int, redis: Redis, dlqOk: bool, key: Key)
    requires id in w.msgs && id in w.at && w.at[id] == Pending && w.msgs[id] == Valid(key)
    ensures var post := Process(w, env, id, redis, dlqOk);
            var taken := Marked(w, id, InFlight).(held := w.held + {id});
            && (env.kindOf(key) == OtaProgress || (redis == Answers && key in w.keys) ==> post == Marked(w, id, Acked))
            && (env.kindOf(key) != OtaProgress && redis == Answers && key !in w.keys ==> post == taken.(keys := w.keys + {key}))
            && (env.kindOf(key) != OtaProgress && redis == Fails(true) ==> post == taken.(keys := w.keys + {key}))
            && (env.kindOf(key) != OtaProgress && redis == Fails(false) ==> post == taken)
  {
  }

  /** Only events and command acks that were taken are flushed at once, each alone. */
  lemma HandledMeans(w: World, env: Setup, id: int, redis: Redis, dlqOk: bool, o: Outcome)
    requires Sane(w, env) && forall i :: i in w.held ==> w.at[i] != Pending
    ensures var post := Process(w, env, id, redis, dlqOk);
            var done := Handled(w, env, id, redis, dlqOk, o);
            && (id !in w.held && id in post.held && env.kindOf(w.msgs[id].key) != Telemetry ==>
                  done == RunFrom(post, env, FlushActions([id], o)))
            && (id in w.held || id !in post.held || env.kindOf(w.msgs[id].key) == Telemetry ==> done == post)
  {
  }
}
