/** The bridge: windowed asynchronous publishing between concurrent callbacks and one ack loop. */
module Bridge {
  import opened Basics

  datatype Envelope = Envelope(id: int, telemetry: bool)

  /** A callback past the closed check holds the read lock; then it also holds a window slot. */
  datatype Pc = Waiting(env: Envelope) | HasSlot(env: Envelope)

  datatype Counters = Counters(received: nat, badTopic: nat, published: nat, failed: nat,
                               dropped: nat, buffered: nat, bufferErr: nat)

  datatype State = State(closed: bool, handlers: map<int, Pc>, acks: seq<Envelope>, awaiting: Option<Envelope>,
                         slots: nat, c: Counters)

  datatype Action =
    | Arrive(h: int, badTopic: bool, env: Envelope, bufferOk: bool)
    | TakeSlot(h: int)
    | PublishAsync(h: int, ok: bool, bufferOk: bool)
    | NextAck
    | Resolve(ok: bool, bufferOk: bool)
    | Close

  const START := State(false, map[], [], None, 0, Counters(0, 0, 0, 0, 0, 0, 0))

  function OnFailure(c: Counters, env: Envelope, bufferOk: bool): Counters {
    var f := c.(failed := c.failed + 1);
    if env.telemetry then f.(dropped := c.dropped + 1)
    else if bufferOk then f.(buffered := c.buffered + 1)
    else f.(bufferErr := c.bufferErr + 1)
  }

  /** A failure is counted once as such and once by its fate: telemetry dropped, anything else buffered,
      or lost when it cannot be buffered. */
  lemma FailureMeans(c: Counters, env: Envelope, bufferOk: bool)
    ensures var f := OnFailure(c, env, bufferOk);
            && f.failed == c.failed + 1 && f.received == c.received && f.badTopic == c.badTopic && f.published == c.published
            && f.dropped == c.dropped + (if env.telemetry then 1 else 0)
            && f.buffered == c.buffered + (if !env.telemetry && bufferOk then 1 else 0)
            && f.bufferErr == c.bufferErr + (if !env.telemetry && !bufferOk then 1 else 0)
  {
  }

  function ArriveStep(s: State, h: int, badTopic: bool, env: Envelope, bufferOk: bool): State {
    if h in s.handlers then s
    else
      var c := s.c.(received := s.c.received + 1);
      if badTopic then s.(c := c.(badTopic := c.badTopic + 1))
      else if s.closed then s.(c := OnFailure(c, env, bufferOk))
      else s.(c := c, handlers := s.handlers[h := Waiting(env)])
  }

  function SlotStep(s: State, window: nat, h: int): State {
    if h in s.handlers && s.handlers[h].Waiting? && s.slots < window
    then s.(slots := s.slots + 1, handlers := s.handlers[h := HasSlot(s.handlers[h].env)])
    else s
  }

  function PublishStep(s: State, h: int, ok: bool, bufferOk: bool): State {
    if h !in s.handlers || !s.handlers[h].HasSlot? then s
    else
      var env := s.handlers[h].env;
      var rest := s.(handlers := s.handlers - {h});
      if ok then rest.(acks := s.acks + [env])
      else rest.(slots := if s.slots > 0 then s.slots - 1 else 0, c := OnFailure(s.c, env, bufferOk))
  }

  function ResolveStep(s: State, ok: bool, bufferOk: bool): State {
    if s.awaiting.None? then s
    else
      var c := if ok then s.c.(published := s.c.published + 1) else OnFailure(s.c, s.awaiting.value, bufferOk);
      s.(awaiting := None, slots := if s.slots > 0 then s.slots - 1 else 0, c := c)
  }

  function Step(s: State, window: nat, a: Action): State {
    match a
    case Arrive(h, badTopic, env, bufferOk) => ArriveStep(s, h, badTopic, env, bufferOk)
    case TakeSlot(h) => SlotStep(s, window, h)
    case PublishAsync(h, ok, bufferOk) => PublishStep(s, h, ok, bufferOk)
    case NextAck => if s.awaiting.None? && s.acks != [] then s.(awaiting := Some(s.acks[0]), acks := s.acks[1..]) else s
    case Resolve(ok, bufferOk) => ResolveStep(s, ok, bufferOk)
    case Close => if s.handlers == map[] then s.(closed := true) else s
  }

  function Run(window: nat, actions: seq<Action>): State {
    if actions == [] then START else Step(Run(window, actions[..|actions| - 1]), window, actions[|actions| - 1])
  }

  /** The bridge as its callbacks, its ack loop and Close change it. */
  class Relay {
    const window: nat
    var closed: bool
    var handlers: map<int, Pc>
    var acks: seq<Envelope>
    var awaiting: Option<Envelope>
    var slots: nat
    var c: Counters

    function Now(): State
      reads this
    {
      State(closed, handlers, acks, awaiting, slots, c)
    }

    constructor (window: nat)
      ensures Now() == START && this.window == window
    {
      this.window := window;
      closed, handlers, acks, awaiting, slots := false, map[], [], None, 0;
      c := Counters(0, 0, 0, 0, 0, 0, 0);
    }

    method Fail(env: Envelope, bufferOk: bool)
      modifies `c
      ensures c == OnFailure(old(c), env, bufferOk)
    {
      c := c.(failed := c.failed + 1);
      if env.telemetry {
        c := c.(dropped := c.dropped + 1);
        return;
      }
      if !bufferOk {
        c := c.(bufferErr := c.bufferErr + 1);
        return;
      }
      c := c.(buffered := c.buffered + 1);
    }

    /** One callback; with the window full it stays blocked on the slot. */
    method Handle(h: int, badTopic: bool, env: Envelope, publishOk: bool, bufferOk: bool)
      requires h !in handlers
      modifies this
      ensures Now() == PublishStep(SlotStep(ArriveStep(old(Now()), h, badTopic, env, bufferOk), window, h), h, publishOk, bufferOk)
    {
      c := c.(received := c.received + 1);
      if badTopic {
        c := c.(badTopic := c.badTopic + 1);
        return;
      }
      if closed {
        Fail(env, bufferOk);
        return;
      }
      ghost var others := handlers;
      handlers := handlers[h := Waiting(env)];
      if slots >= window {
        return;
      }
      slots := slots + 1;
      handlers := handlers - {h};
      assert handlers == others == others[h := Waiting(env)][h := HasSlot(env)] - {h};
      if !publishOk {
        slots := slots - 1;
        Fail(env, bufferOk);
        return;
      }
      acks := acks + [env];
    }

    /** One round of the ack loop. */
    method AckOne(ok: bool, bufferOk: bool)
      modifies this
      ensures Now() == ResolveStep(Step(old(Now()), window, NextAck), ok, bufferOk)
    {
      if awaiting.None? {
        if acks == [] {
          return;
        }
        awaiting, acks := Some(acks[0]), acks[1..];
      }
      var env := awaiting.value;
      if ok {
        c := c.(published := c.published + 1);
      } else {
        Fail(env, bufferOk);
      }
      awaiting := None;
      slots := if slots > 0 then slots - 1 else 0;
    }

    /** Close, once the lock has been obtained: the channel is closed, and the ack loop works it off for
        as long as the timeout lets it, which is |answers| acknowledgements. */
    method CloseDown(answers: seq<Answer>) returns (idle: bool)
      requires handlers == map[]
      modifies this
      ensures Now() == if old(closed) then old(Now()) else Drain(Step(old(Now()), window, Close), window, answers)
      ensures idle <==> !old(closed) && |answers| >= Left(old(Now()))
      ensures idle ==> Left(Now()) == 0
    {
      if closed {
        return false;
      }
      closed := true;
      ghost var shut := Now();
      DrainLeft(shut, window, answers);
      for i := 0 to |answers|
        invariant Now() == Drain(shut, window, answers[..i])
      {
        if awaiting.None? && acks == [] {
          DrainLeft(shut, window, answers[..i]);
          DrainedStays(shut, window, answers, i);
          return true;
        }
        AckOne(answers[i].ok, answers[i].bufferOk);
        assert answers[..i + 1][..i] == answers[..i];
      }
      assert answers[..|answers|] == answers;
      return awaiting.None? && acks == [];
    }
  }

  /** Acknowledgements not yet resolved. */
  function Left(s: State): nat {
    |s.acks| + Awaiting(s)
  }

  /** How one acknowledgement comes out, and whether the disk takes its message if it failed. */
  datatype Answer = Answer(ok: bool, bufferOk: bool)

  /** The ack loop takes one acknowledgement after the other, until none is left. */
  function Drain(s: State, window: nat, answers: seq<Answer>): State {
    if answers == [] then s
    else
      var last := answers[|answers| - 1];
      Step(Step(Drain(s, window, answers[..|answers| - 1]), window, NextAck), window, Resolve(last.ok, last.bufferOk))
  }

  lemma {:induction false} DrainLeft(s: State, window: nat, answers: seq<Answer>)
    ensures Left(Drain(s, window, answers)) == if Left(s) > |answers| then Left(s) - |answers| else 0
  {
    if answers != [] {
      DrainLeft(s, window, answers[..|answers| - 1]);
    }
  }

  lemma {:induction false} DrainedStays(s: State, window: nat, answers: seq<Answer>, i: nat)
    requires i <= |answers|
    requires Left(Drain(s, window, answers[..i])) == 0
    ensures Drain(s, window, answers) == Drain(s, window, answers[..i])
    decreases |answers|
  {
    if i == |answers| {
      assert answers[..i] == answers;
    } else {
      var init := answers[..|answers| - 1];
      assert init[..i] == answers[..i];
      DrainedStays(s, window, init, i);
    }
  }

  function SlotHolders(s: State): set<int> {
    set h | h in s.handlers && s.handlers[h].HasSlot?
  }

  function Awaiting(s: State): nat {
    if s.awaiting.Some? then 1 else 0
  }

  function InFlight(s: State): nat {
    |s.handlers.Keys| + Left(s)
  }

  /** Every message is accounted for once, slots match their holders, and closing waits for callbacks. */
  ghost predicate Inv(s: State, window: nat) {
    && s.c.received == s.c.badTopic + s.c.published + s.c.failed + InFlight(s)
    && s.c.failed == s.c.dropped + s.c.buffered + s.c.bufferErr
    && s.slots == |SlotHolders(s)| + |s.acks| + Awaiting(s)
    && s.slots <= window
    && (s.closed ==> s.handlers == map[])
  }

  lemma ArriveKeeps(s: State, window: nat, h: int, badTopic: bool, env: Envelope, bufferOk: bool)
    requires Inv(s, window)
    ensures Inv(ArriveStep(s, h, badTopic, env, bufferOk), window)
  {
    var post := ArriveStep(s, h, badTopic, env, bufferOk);
    if h !in s.handlers && !badTopic && !s.closed {
      assert post.handlers.Keys == s.handlers.Keys + {h};
      assert SlotHolders(post) == SlotHolders(s);
    }
  }

  lemma SlotKeeps(s: State, window: nat, h: int)
    requires Inv(s, window)
    ensures Inv(SlotStep(s, window, h), window)
  {
    var post := SlotStep(s, window, h);
    if post != s {
      assert post.handlers.Keys == s.handlers.Keys;
      assert SlotHolders(post) == SlotHolders(s) + {h};
    }
  }

  lemma PublishKeeps(s: State, window: nat, h: int, ok: bool, bufferOk: bool)
    requires Inv(s, window)
    ensures Inv(PublishStep(s, h, ok, bufferOk), window)
  {
    var post := PublishStep(s, h, ok, bufferOk);
    if h in s.handlers && s.handlers[h].HasSlot? {
      assert h in SlotHolders(s);
      assert post.handlers.Keys == s.handlers.Keys - {h};
      assert SlotHolders(post) == SlotHolders(s) - {h};
    }
  }

  lemma StepKeeps(s: State, window: nat, a: Action)
    requires Inv(s, window)
    ensures Inv(Step(s, window, a), window)
  {
    match a
    case Arrive(h, badTopic, env, bufferOk) => ArriveKeeps(s, window, h, badTopic, env, bufferOk);
    case TakeSlot(h) => SlotKeeps(s, window, h);
    case PublishAsync(h, ok, bufferOk) => PublishKeeps(s, window, h, ok, bufferOk);
    case _ => assert SlotHolders(Step(s, window, a)) == SlotHolders(s);
  }

  lemma {:induction false} RunInv(window: nat, actions: seq<Action>)
    ensures Inv(Run(window, actions), window)
  {
    if actions != [] {
      RunInv(window, actions[..|actions| - 1]);
      StepKeeps(Run(window, actions[..|actions| - 1]), window, actions[|actions| - 1]);
    }
  }

  /** Conservation of messages and of failures, and the window bound, in every interleaving. */
  lemma Conservation(window: nat, actions: seq<Action>)
    ensures var s := Run(window, actions);
            && s.c.received == s.c.badTopic + s.c.published + s.c.failed + InFlight(s)
            && s.c.failed == s.c.dropped + s.c.buffered + s.c.bufferErr
            && |s.acks| + Awaiting(s) <= s.slots <= window
  {
    RunInv(window, actions);
  }

  lemma {:induction false} DrainKeeps(s: State, window: nat, answers: seq<Answer>)
    requires Inv(s, window)
    ensures Inv(Drain(s, window, answers), window)
    ensures Drain(s, window, answers).handlers == s.handlers
  {
    if answers != [] {
      var k := |answers| - 1;
      DrainKeeps(s, window, answers[..k]);
      var d := Drain(s, window, answers[..k]);
      StepKeeps(d, window, NextAck);
      StepKeeps(Step(d, window, NextAck), window, Resolve(answers[k].ok, answers[k].bufferOk));
    }
  }

  /** A close that waits long enough ends with every message ever received acknowledged, buffered or
      counted as lost, and with every window slot free. */
  lemma CloseSettlesAll(window: nat, actions: seq<Action>, answers: seq<Answer>)
    requires Run(window, actions).handlers == map[]
    requires |answers| >= Left(Run(window, actions))
    ensures var s := Drain(Step(Run(window, actions), window, Close), window, answers);
            && s.closed && s.slots == 0
            && s.c.received == s.c.badTopic + s.c.published + s.c.dropped + s.c.buffered + s.c.bufferErr
  {
    var s := Run(window, actions);
    RunInv(window, actions);
    StepKeeps(s, window, Close);
    DrainKeeps(Step(s, window, Close), window, answers);
    DrainLeft(Step(s, window, Close), window, answers);
    DrainCloses(Step(s, window, Close), window, answers);
    assert SlotHolders(Drain(Step(s, window, Close), window, answers)) == {};
  }

  lemma {:induction false} DrainCloses(s: State, window: nat, answers: seq<Answer>)
    ensures Drain(s, window, answers).closed == s.closed
  {
    if answers != [] {
      DrainCloses(s, window, answers[..|answers| - 1]);
    }
  }

  /** A callback about to send finds the ack channel open and with room. */
  lemma SendIsSafe(window: nat, actions: seq<Action>, h: int)
    requires h in Run(window, actions).handlers && Run(window, actions).handlers[h].HasSlot?
    ensures !Run(window, actions).closed
    ensures |Run(window, actions).acks| < window
  {
    var s := Run(window, actions);
    RunInv(window, actions);
    assert h in SlotHolders(s);
  }

  // ---- one callback and one acknowledgement, from end to end

  /** A callback counts its message and then does one of: refuse a bad topic, fail on a closed bridge, wait
      for a slot, hand its message to the ack loop with a slot, or fail and give the slot back. */
  lemma HandleMeans(s: State, window: nat, h: int, badTopic: bool, env: Envelope, publishOk: bool, bufferOk: bool)
    requires h !in s.handlers
    ensures var post := PublishStep(SlotStep(ArriveStep(s, h, badTopic, env, bufferOk), window, h), h, publishOk, bufferOk);
            var counted := s.c.(received := s.c.received + 1);
            if badTopic then post == s.(c := counted.(badTopic := s.c.badTopic + 1))
            else if s.closed then post == s.(c := OnFailure(counted, env, bufferOk))
            else if s.slots >= window then post == s.(c := counted, handlers := s.handlers[h := Waiting(env)])
            else if publishOk then post == s.(c := counted, slots := s.slots + 1, acks := s.acks + [env])
            else post == s.(c := OnFailure(counted, env, bufferOk))
  {
    assert s.handlers[h := Waiting(env)][h := HasSlot(env)] - {h} == s.handlers;
  }

  /** A callback that waited takes the slot as soon as there is one, and then sends its own message. */
  lemma WaitingMeans(s: State, window: nat, h: int, env: Envelope, publishOk: bool, bufferOk: bool)
    requires h in s.handlers && s.handlers[h] == Waiting(env)
    ensures var post := PublishStep(SlotStep(s, window, h), h, publishOk, bufferOk);
            var rest := s.(handlers := s.handlers - {h});
            if s.slots >= window then post == s
            else if publishOk then post == rest.(slots := s.slots + 1, acks := s.acks + [env])
            else post == rest.(c := OnFailure(s.c, env, bufferOk))
  {
    assert s.handlers[h := HasSlot(env)] - {h} == s.handlers - {h};
  }

  /** The ack loop resolves the oldest message first: published, or failed like any other; either way its slot
      is free again. */
  lemma AckMeans(s: State, window: nat, ok: bool, bufferOk: bool)
    ensures var queue := (if s.awaiting.Some? then [s.awaiting.value] else []) + s.acks;
            var post := ResolveStep(Step(s, window, NextAck), ok, bufferOk);
            if |queue| == 0 then post == s
            else
              && post.awaiting.None? && post.acks == queue[1..] && post.closed == s.closed && post.handlers == s.handlers
              && post.slots == (if s.slots > 0 then s.slots - 1 else 0)
              && post.c == if ok then s.c.(published := s.c.published + 1) else OnFailure(s.c, queue[0], bufferOk)
  {
  }
}
