/** Several engine processes over one Redis: event handlers, reconciles and timer rounds in every
    interleaving, with failing commands and crashes. */
module LinkageRuns {
  import opened Basics
  import opened LinkageRules
  import opened LinkageEngine

  /** An action that a handler or reconcile of process r decided, with the clock reading it works with. */
  datatype Decided = Decided(r: nat, action: Action, at: int)

  /** Where a process stands with a timer it has removed: its data fetched, its data deleted, allowed to
      go on, waiting to be put back, or past the vent key, with what was found there (whether the read
      failed, whether the key was alive) and whether the accessory was vented with a key since. Until it
      is allowed to go on, own is the data at the removal, and safe says that it was there to be read:
      nobody had deleted or rewritten it, and the read was answered. */
  datatype Hand = Popped(own: Meta, safe: bool) | Fetched(m: Meta, own: Meta, safe: bool) | Cleared(m: Meta, own: Meta, safe: bool)
                | Allowed(m: Meta) | Returning(m: Meta, due: int)
                | Ready(m: Meta, at: int, failed: bool, alive: bool, vented: bool)

  /** clears: accessories whose timer data a process deletes to finish a cancel; due: members that a
      timer round has read as due; hands: members that it has removed. */
  datatype World = World(net: Net, mems: map<nat, Mem>, decided: set<Decided>, clears: set<(nat, string)>,
                         due: set<(nat, string)>, hands: map<(nat, string), Hand>)

  const START := World(QUIET, map[], {}, {}, {}, map[])

  /** One command or one look at a process's memory each. A decided action or delete may run at any later
      time, and again; the commands of one firing timer follow one another. */
  datatype Step =
    | Tick(d: nat)
    | Deliver(r: nat, delivery: Delivery)
    | Reconcile(r: nat, p: Pairing, hostWork: Option<int>, seen: AccView, timerRead: bool, ps: seq<Pairing>, at: int,
                rules: map<string, int>, ttls: map<string, nat>)
    | Run(it: Decided, o: Call)
    | Unpair(r: nat, acc: string, o: Call)
    | Clear(r: nat, acc: string, o: Call)
    | Scan(r: nat, at: int)
    | Pop(r: nat, acc: string, o: Call)
    | Get(r: nat, acc: string, got: bool)
    | Del(r: nat, acc: string, o: Call)
    | Look(r: nat, acc: string)
    | Read(r: nat, acc: string, at: int, reading: Option<nat>)
    | Send(r: nat, acc: string, o: Call)
    | PutBack(r: nat, acc: string, o: Call)
    | Crash(r: nat)

  function MemOf(w: World, r: nat): Mem {
    if r in w.mems then w.mems[r] else BLANK
  }

  function EngOf(w: World, r: nat): Eng {
    Eng(MemOf(w, r), w.net)
  }

  function Became(w: World, r: nat, e: Eng): World {
    w.(net := e.net, mems := w.mems[r := e.mem])
  }

  function Decisions(r: nat, actions: seq<Action>, at: int): set<Decided> {
    set a | a in actions :: Decided(r, a, at)
  }

  predicate InHand(w: World, r: nat, acc: string) {
    (r, acc) in w.hands
  }

  function HandOf(w: World, r: nat, acc: string): Hand
    requires InHand(w, r, acc)
  {
    w.hands[(r, acc)]
  }

  function Moves(w: World, r: nat, acc: string, h: Hand): World {
    w.(hands := w.hands[(r, acc) := h])
  }

  function LetsGo(w: World, r: nat, acc: string): World {
    w.(hands := w.hands - {(r, acc)})
  }

  /** A vent with its key, as seen by timers between the vent key and the send. */
  function NoteVent(hands: map<(nat, string), Hand>, acc: string): map<(nat, string), Hand> {
    map k | k in hands :: if k.1 == acc && hands[k].Ready? then hands[k].(vented := true) else hands[k]
  }

  /** The accessory's timer data deleted or rewritten, as seen by timers that have yet to read it. */
  function NoteData(hands: map<(nat, string), Hand>, acc: string, o: Call): map<(nat, string), Hand> {
    map k | k in hands :: if k.1 == acc && o != NotDone && hands[k].Popped? then Popped(hands[k].own, false) else hands[k]
  }

  /** A cancel is the removal alone; its delete follows as a step of its own. */
  function RunStep(w: World, it: Decided, o: Call): World {
    if it !in w.decided then w
    else
      var post := Became(w, it.r, ApplyOne(EngOf(w, it.r), it.action, it.at, Fate(o, NotDone)));
      match it.action
      case SafetyVent(acc) => if o == NotDone then post else post.(hands := NoteVent(w.hands, acc))
      case ScheduleOff(acc, _, _) => post.(hands := NoteData(w.hands, acc, o))
      case CancelOff(acc) => if o == Done then post.(clears := w.clears + {(it.r, acc)}) else post
      case _ => post
  }

  function UnpairStep(w: World, r: nat, acc: string, o: Call): World {
    w.(net := RemoveTimer(w.net, acc, o), clears := if o == Done then w.clears + {(r, acc)} else w.clears)
  }

  function ClearStep(w: World, r: nat, acc: string, o: Call): World {
    if (r, acc) in w.clears then w.(net := DropMeta(w.net, acc, o), hands := NoteData(w.hands, acc, o)) else w
  }

  predicate CanPop(w: World, r: nat, acc: string) {
    (r, acc) in w.due && acc in w.net.timers && !InHand(w, r, acc)
  }

  function PopStep(w: World, r: nat, acc: string, o: Call): World {
    var read := w.(due := w.due - {(r, acc)});
    if !CanPop(w, r, acc) then read
    else
      var removed := read.(net := RemoveTimer(w.net, acc, o));
      if o == Done then Moves(removed, r, acc, Popped(Fetch(w.net, acc, true), true)) else removed
  }

  function GetStep(w: World, r: nat, acc: string, got: bool): World {
    if InHand(w, r, acc) && HandOf(w, r, acc).Popped?
    then Moves(w, r, acc, Fetched(Fetch(w.net, acc, got), HandOf(w, r, acc).own, HandOf(w, r, acc).safe && got))
    else w
  }

  function DelStep(w: World, r: nat, acc: string, o: Call): World {
    if !InHand(w, r, acc) || !HandOf(w, r, acc).Fetched? then w
    else
      var h := HandOf(w, r, acc);
      Moves(w.(net := DropMeta(w.net, acc, o), hands := NoteData(w.hands, acc, o)), r, acc, Cleared(h.m, h.own, h.safe))
  }

  function LookStep(w: World, cfg: Config, r: nat, acc: string): World {
    if !InHand(w, r, acc) || !HandOf(w, r, acc).Cleared? then w
    else if Stops(MemOf(w, r), cfg, HandOf(w, r, acc).m) then LetsGo(w, r, acc)
    else Moves(w, r, acc, Allowed(HandOf(w, r, acc).m))
  }

  function ReadStep(w: World, r: nat, acc: string, at: int, reading: Option<nat>): World {
    if !InHand(w, r, acc) || !HandOf(w, r, acc).Allowed? || (reading.Some? && !Answers(w.net, acc, reading.value)) then w
    else
      var m := HandOf(w, r, acc).m;
      Moves(w, r, acc, if reading.Some? && reading.value > 0 then Returning(m, at + reading.value * 1000)
                       else Ready(m, at, reading.None?, VentAlive(w.net, acc), false))
  }

  function SendStep(w: World, r: nat, acc: string, o: Call): World {
    if !InHand(w, r, acc) || !HandOf(w, r, acc).Ready? then w
    else
      var h := HandOf(w, r, acc);
      var sent := Became(w, r, Eng(SendMem(MemOf(w, r), acc, OFF, o), SendNet(w.net, acc, OFF, true, o)));
      if o == Done then LetsGo(sent, r, acc) else Moves(sent, r, acc, Returning(h.m, h.at + RETRY_WAIT))
  }

  function PutBackStep(w: World, r: nat, acc: string, o: Call): World {
    if !InHand(w, r, acc) || !HandOf(w, r, acc).Returning? then w
    else
      var h := HandOf(w, r, acc);
      LetsGo(w.(net := Put(w.net, acc, h.m, h.due, o), hands := NoteData(w.hands, acc, o)), r, acc)
  }

  function ReconcileStep(w: World, cfg: Config, s: Step): World
    requires s.Reconcile?
  {
    if !AllAnswer(w.net, s.ttls) then w
    else
      var v := ViewOf(MemOf(w, s.r), cfg, s.p.host, s.ps, s.at, s.rules, s.hostWork, s.ttls);
      var actions := ReconcileDecide(s.p, s.hostWork, s.seen, s.timerRead && s.p.acc in w.net.timers, v);
      w.(mems := w.mems[s.r := Seed(MemOf(w, s.r), s.p.host, s.hostWork)], decided := w.decided + Decisions(s.r, actions, s.at))
  }

  function Take(w: World, cfg: Config, s: Step): World {
    match s
    case Tick(d) => w.(net := w.net.(clock := w.net.clock + d))
    case Deliver(r, d) =>
      if !AllAnswer(w.net, d.ttls) then w
      else
        var o := HandleDecision(MemOf(w, r), cfg, d);
        w.(mems := w.mems[r := o.0], decided := w.decided + Decisions(r, o.1, d.at))
    case Reconcile(_, _, _, _, _, _, _, _, _) => ReconcileStep(w, cfg, s)
    case Run(it, o) => RunStep(w, it, o)
    case Unpair(r, acc, o) => UnpairStep(w, r, acc, o)
    case Clear(r, acc, o) => ClearStep(w, r, acc, o)
    case Scan(r, at) => w.(due := w.due + set acc | acc in w.net.timers && w.net.timers[acc] <= at / 1000 :: (r, acc))
    case Pop(r, acc, o) => PopStep(w, r, acc, o)
    case Get(r, acc, got) => GetStep(w, r, acc, got)
    case Del(r, acc, o) => DelStep(w, r, acc, o)
    case Look(r, acc) => LookStep(w, cfg, r, acc)
    case Read(r, acc, at, reading) => ReadStep(w, r, acc, at, reading)
    case Send(r, acc, o) => SendStep(w, r, acc, o)
    case PutBack(r, acc, o) => PutBackStep(w, r, acc, o)
    case Crash(r) =>
      World(w.net, w.mems - {r}, (set it | it in w.decided && it.r != r), (set k | k in w.clears && k.0 != r),
            (set k | k in w.due && k.0 != r), map k | k in w.hands && k.0 != r :: w.hands[k])
  }

  function TakeAll(w: World, cfg: Config, steps: seq<Step>): World {
    if steps == [] then w else Take(TakeAll(w, cfg, steps[..|steps| - 1]), cfg, steps[|steps| - 1])
  }

  // ---- what every run keeps

  predicate VentedUntil(n: Net, acc: string, until: int) {
    until <= n.clock + VENT_WINDOW && Vented(acc, until - VENT_WINDOW) in n.facts
  }

  /** Vent keys, bare vents and the vents in the record agree. */
  predicate FactOk(n: Net, f: Fact) {
    && f.at <= n.clock
    && (f.Vented? ==>
          || (f.acc in n.vent && f.at + VENT_WINDOW <= n.vent[f.acc])
          || (f.acc in n.bare && f.at + VENT_WINDOW <= n.bare[f.acc]))
    && (f.Power? && !f.want.on ==> f.byTimer)
  }

  ghost predicate NetOk(n: Net) {
    && (forall acc :: acc in n.vent ==> VentedUntil(n, acc, n.vent[acc]))
    && (forall acc :: acc in n.bare ==> VentedUntil(n, acc, n.bare[acc]))
    && (forall f :: f in n.facts ==> FactOk(n, f))
  }

  predicate DecidedOk(it: Decided) {
    && (it.action.SetDesired? ==> it.action.want.on)
    && (it.action.ScheduleOff? ==> MIN_DELAY <= it.action.delay <= MAX_DELAY)
  }

  /** Without a vent since the read, a live key was alive then, and a read that answered said it was
      within its last second. */
  predicate HandOk(n: Net, acc: string, h: Hand) {
    h.Ready? && VentAlive(n, acc) && !h.vented ==> h.alive && (h.failed || n.vent[acc] - n.clock < 1000)
  }

  ghost predicate WorldOk(w: World) {
    && NetOk(w.net)
    && (forall it :: it in w.decided ==> DecidedOk(it))
    && (forall k :: k in w.hands ==> HandOk(w.net, k.1, w.hands[k]))
  }

  predicate SameRecord(m: Net, n: Net) {
    m.vent == n.vent && m.bare == n.bare && m.facts == n.facts && m.clock <= n.clock
  }

  lemma SameRecordKeeps(m: Net, n: Net)
    requires NetOk(m) && SameRecord(m, n)
    ensures NetOk(n)
  {
    forall f | f in n.facts ensures FactOk(n, f) {
      assert FactOk(m, f);
    }
    forall acc | acc in n.vent ensures VentedUntil(n, acc, n.vent[acc]) {
      assert VentedUntil(m, acc, m.vent[acc]);
    }
    forall acc | acc in n.bare ensures VentedUntil(n, acc, n.bare[acc]) {
      assert VentedUntil(m, acc, m.bare[acc]);
    }
  }

  lemma RecordKeeps(n: Net, f: Fact)
    requires NetOk(n) && f.Power? && f.at == n.clock && (!f.want.on ==> f.byTimer)
    ensures NetOk(Record(n, f))
  {
    var post := Record(n, f);
    forall g | g in post.facts ensures FactOk(post, g) {
      assert g == f || FactOk(n, g);
    }
    forall acc | acc in post.vent ensures VentedUntil(post, acc, post.vent[acc]) {
      assert VentedUntil(n, acc, n.vent[acc]);
    }
    forall acc | acc in post.bare ensures VentedUntil(post, acc, post.bare[acc]) {
      assert VentedUntil(n, acc, n.bare[acc]);
    }
  }

  lemma VentKeeps(n: Net, acc: string, o: Call)
    requires NetOk(n)
    ensures NetOk(OpenVent(n, acc, o))
  {
    var post := OpenVent(n, acc, o);
    assert Vented(acc, n.clock) in post.facts;
    forall g | g in post.facts ensures FactOk(post, g) {
      assert g == Vented(acc, n.clock) || FactOk(n, g);
    }
    forall x | x in post.vent ensures VentedUntil(post, x, post.vent[x]) {
      assert x in n.vent ==> VentedUntil(n, x, n.vent[x]);
    }
    forall x | x in post.bare ensures VentedUntil(post, x, post.bare[x]) {
      assert x in n.bare ==> VentedUntil(n, x, n.bare[x]);
    }
  }

  lemma ApplyKeeps(e: Eng, a: Action, at: int, f: Fate, r: nat)
    requires NetOk(e.net) && DecidedOk(Decided(r, a, at))
    ensures NetOk(ApplyOne(e, a, at, f).net)
    ensures !(a.SafetyVent? && f.call != NotDone) ==> ApplyOne(e, a, at, f).net.vent == e.net.vent
    ensures ApplyOne(e, a, at, f).net.clock == e.net.clock
  {
    if a.SetDesired? {
      RecordKeeps(e.net, Power(a.acc, a.want, e.net.clock, false));
    } else if a.SafetyVent? {
      VentKeeps(e.net, a.acc, f.call);
    } else {
      SameRecordKeeps(e.net, ApplyOne(e, a, at, f).net);
    }
  }

  lemma RunKeeps(w: World, it: Decided, o: Call)
    requires WorldOk(w)
    ensures WorldOk(RunStep(w, it, o))
  {
    if it in w.decided {
      ApplyKeeps(EngOf(w, it.r), it.action, it.at, Fate(o, NotDone), it.r);
      var post := RunStep(w, it, o);
      forall k | k in post.hands ensures HandOk(post.net, k.1, post.hands[k]) {
        assert HandOk(w.net, k.1, w.hands[k]);
      }
    }
  }

  lemma ReadKeeps(w: World, r: nat, acc: string, at: int, reading: Option<nat>)
    requires WorldOk(w)
    ensures WorldOk(ReadStep(w, r, acc, at, reading))
  {
    var post := ReadStep(w, r, acc, at, reading);
    forall k | k in post.hands ensures HandOk(post.net, k.1, post.hands[k]) {
      assert HandOk(w.net, k.1, w.hands[k]);
    }
  }

  lemma SendKeeps(w: World, r: nat, acc: string, o: Call)
    requires WorldOk(w)
    ensures WorldOk(SendStep(w, r, acc, o))
  {
    if o != NotDone {
      RecordKeeps(w.net, Power(acc, OFF, w.net.clock, true));
    }
    var post := SendStep(w, r, acc, o);
    forall k | k in post.hands ensures HandOk(post.net, k.1, post.hands[k]) {
      assert k in w.hands && HandOk(w.net, k.1, w.hands[k]);
    }
  }

  lemma DecisionsOk(n: Net, m: Mem, cfg: Config, r: nat, d: Delivery)
    requires AllAnswer(n, d.ttls) && NetOk(n)
    ensures forall it :: it in Decisions(r, HandleDecision(m, cfg, d).1, d.at) ==> DecidedOk(it)
  {
    forall it | it in Decisions(r, HandleDecision(m, cfg, d).1, d.at) ensures DecidedOk(it) {
      if d.ps != [] {
        var v := ViewOf(m, cfg, d.ps[0].host, d.ps, d.at, d.rules, d.hostWork, d.ttls);
        var a := it.action;
        assert a in Decide(d.evt, d.ps, v);
        if a.SetDesired? {
          SetExact(d.evt, d.ps, v, a.acc, a.want);
        } else if a.ScheduleOff? {
          WindowsEndInTime(n, d.ttls, d.ps, d.at);
          DelaysInRange(d.evt, d.ps, v, a);
        }
      }
    }
  }

  lemma WindowsEndInTime(n: Net, ttls: map<string, nat>, ps: seq<Pairing>, at: int)
    requires AllAnswer(n, ttls) && NetOk(n)
    ensures forall acc :: acc in VentEnds(ttls, ps, at) ==> VentEnds(ttls, ps, at)[acc] <= at + VENT_WINDOW
  {
    forall acc | acc in VentEnds(ttls, ps, at) ensures VentEnds(ttls, ps, at)[acc] <= at + VENT_WINDOW {
      assert Answers(n, acc, ttls[acc]) && VentedUntil(n, acc, n.vent[acc]);
    }
  }

  /** A hand kept, or one that is not past the vent key. */
  predicate SameHand(w: World, k: (nat, string), h: Hand) {
    !h.Ready? || (k in w.hands && w.hands[k] == h)
  }

  lemma QuietKeeps(w: World, post: World)
    requires WorldOk(w) && SameRecord(w.net, post.net)
    requires forall it :: it in post.decided ==> it in w.decided || DecidedOk(it)
    requires forall k :: k in post.hands ==> SameHand(w, k, post.hands[k])
    ensures WorldOk(post)
  {
    SameRecordKeeps(w.net, post.net);
    forall k | k in post.hands ensures HandOk(post.net, k.1, post.hands[k]) {
      assert SameHand(w, k, post.hands[k]);
      if post.hands[k].Ready? {
        assert HandOk(w.net, k.1, w.hands[k]);
      }
    }
  }

  lemma DeliverKeeps(w: World, cfg: Config, r: nat, d: Delivery)
    requires WorldOk(w)
    ensures WorldOk(Take(w, cfg, Deliver(r, d)))
  {
    if AllAnswer(w.net, d.ttls) {
      DecisionsOk(w.net, MemOf(w, r), cfg, r, d);
    }
    QuietKeeps(w, Take(w, cfg, Deliver(r, d)));
  }

  lemma ReconcileKeeps(w: World, cfg: Config, s: Step)
    requires s.Reconcile? && WorldOk(w)
    ensures WorldOk(ReconcileStep(w, cfg, s))
  {
    QuietKeeps(w, ReconcileStep(w, cfg, s));
  }

  lemma PopKeeps(w: World, r: nat, acc: string, o: Call)
    requires WorldOk(w)
    ensures WorldOk(PopStep(w, r, acc, o))
  {
    QuietKeeps(w, PopStep(w, r, acc, o));
  }

  lemma DelKeeps(w: World, r: nat, acc: string, o: Call)
    requires WorldOk(w)
    ensures WorldOk(DelStep(w, r, acc, o))
  {
    QuietKeeps(w, DelStep(w, r, acc, o));
  }

  lemma LookKeeps(w: World, cfg: Config, r: nat, acc: string)
    requires WorldOk(w)
    ensures WorldOk(LookStep(w, cfg, r, acc))
  {
    QuietKeeps(w, LookStep(w, cfg, r, acc));
  }

  lemma PutBackKeeps(w: World, r: nat, acc: string, o: Call)
    requires WorldOk(w)
    ensures WorldOk(PutBackStep(w, r, acc, o))
  {
    QuietKeeps(w, PutBackStep(w, r, acc, o));
  }

  lemma OtherKeeps(w: World, cfg: Config, s: Step)
    requires WorldOk(w) && (s.Tick? || s.Unpair? || s.Clear? || s.Scan? || s.Get? || s.Crash?)
    ensures WorldOk(Take(w, cfg, s))
  {
    QuietKeeps(w, Take(w, cfg, s));
  }

  lemma TakeKeeps(w: World, cfg: Config, s: Step)
    requires WorldOk(w)
    ensures WorldOk(Take(w, cfg, s))
  {
    match s
    case Run(it, o) => RunKeeps(w, it, o);
    case Read(r, acc, at, reading) => ReadKeeps(w, r, acc, at, reading);
    case Send(r, acc, o) => SendKeeps(w, r, acc, o);
    case Deliver(r, d) => DeliverKeeps(w, cfg, r, d);
    case Reconcile(_, _, _, _, _, _, _, _, _) => ReconcileKeeps(w, cfg, s);
    case Pop(r, acc, o) => PopKeeps(w, r, acc, o);
    case Del(r, acc, o) => DelKeeps(w, r, acc, o);
    case Look(r, acc) => LookKeeps(w, cfg, r, acc);
    case PutBack(r, acc, o) => PutBackKeeps(w, r, acc, o);
    case _ => OtherKeeps(w, cfg, s);
  }

  lemma {:induction false} AlwaysOk(cfg: Config, steps: seq<Step>)
    ensures WorldOk(TakeAll(START, cfg, steps))
  {
    if steps != [] {
      AlwaysOk(cfg, steps[..|steps| - 1]);
      TakeKeeps(TakeAll(START, cfg, steps[..|steps| - 1]), cfg, steps[|steps| - 1]);
    }
  }

  /** Every power-off comes from a firing timer, and every decided delay is between one and ten minutes. */
  lemma OffsAreTimed(cfg: Config, steps: seq<Step>)
    ensures forall f :: f in TakeAll(START, cfg, steps).net.facts && f.Power? && !f.want.on ==> f.byTimer
    ensures forall it :: it in TakeAll(START, cfg, steps).decided && it.action.ScheduleOff? ==>
              MIN_DELAY <= it.action.delay <= MAX_DELAY
  {
    AlwaysOk(cfg, steps);
    forall f | f in TakeAll(START, cfg, steps).net.facts && f.Power? && !f.want.on ensures f.byTimer {
      assert FactOk(TakeAll(START, cfg, steps).net, f);
    }
  }

  // ---- the vent window

  /** A power-off after a vent of the same accessory comes at most slack before the window's end. */
  predicate KeepsVent(a: Fact, b: Fact, slack: nat) {
    a.Vented? && b.Power? && !b.want.on && b.acc == a.acc ==> b.at + slack >= a.at + VENT_WINDOW
  }

  ghost predicate AllKept(facts: seq<Fact>, slack: nat) {
    forall i, j :: 0 <= i < j < |facts| ==> KeepsVent(facts[i], facts[j], slack)
  }

  /** A vent without a key that has more than slack to run. */
  predicate BareOpen(n: Net, acc: string, slack: nat) {
    acc in n.bare && n.bare[acc] - n.clock > slack
  }

  /** A send that arrives more than slack before the end of a window: of a vent whose key could not be
      written, or of a live key, where the accessory was vented since the read, or the read let the
      live key pass because it failed or because the TTL said 0 in the key's last second. */
  predicate SendsIntoVent(w: World, s: Step, slack: nat) {
    && s.Send? && s.o != NotDone && InHand(w, s.r, s.acc) && HandOf(w, s.r, s.acc).Ready?
    && var h := HandOf(w, s.r, s.acc);
       || BareOpen(w.net, s.acc, slack)
       || (VentAlive(w.net, s.acc) && w.net.vent[s.acc] - w.net.clock > slack
           && (h.vented || (h.alive && (h.failed || slack < 999))))
  }

  lemma KeptSnoc(facts: seq<Fact>, f: Fact, slack: nat)
    ensures AllKept(facts + [f], slack) <==> AllKept(facts, slack) && forall g :: g in facts ==> KeepsVent(g, f, slack)
  {
    var post := facts + [f];
    if AllKept(post, slack) {
      forall i, j | 0 <= i < j < |facts| ensures KeepsVent(facts[i], facts[j], slack) {
        assert post[i] == facts[i] && post[j] == facts[j];
      }
      forall g | g in facts ensures KeepsVent(g, f, slack) {
        var i :| 0 <= i < |facts| && facts[i] == g;
        assert post[i] == g && post[|facts|] == f;
      }
    }
    if AllKept(facts, slack) && forall g :: g in facts ==> KeepsVent(g, f, slack) {
      forall i, j | 0 <= i < j < |post| ensures KeepsVent(post[i], post[j], slack) {
        assert post[i] == facts[i] && facts[i] in facts;
        if j < |facts| {
          assert post[j] == facts[j];
        }
      }
    }
  }

  /** A power-off is too early for some vent in the record exactly when a key or a bare vent says so. */
  lemma OffAgainstRecord(n: Net, acc: string, slack: nat)
    requires NetOk(n)
    ensures (forall g :: g in n.facts ==> KeepsVent(g, Power(acc, OFF, n.clock, true), slack))
       <==> !(VentAlive(n, acc) && n.vent[acc] - n.clock > slack) && !BareOpen(n, acc, slack)
  {
    var f := Power(acc, OFF, n.clock, true);
    if acc in n.vent {
      assert VentedUntil(n, acc, n.vent[acc]);
      assert KeepsVent(Vented(acc, n.vent[acc] - VENT_WINDOW), f, slack) <==> n.clock + slack >= n.vent[acc];
    }
    if acc in n.bare {
      assert VentedUntil(n, acc, n.bare[acc]);
      assert KeepsVent(Vented(acc, n.bare[acc] - VENT_WINDOW), f, slack) <==> n.clock + slack >= n.bare[acc];
    }
    forall g | g in n.facts && g.Vented? && g.acc == acc ensures FactOk(n, g) {
    }
  }

  lemma SendKept(w: World, r: nat, acc: string, o: Call, slack: nat)
    requires WorldOk(w) && InHand(w, r, acc) && HandOf(w, r, acc).Ready? && o != NotDone
    ensures AllKept(SendStep(w, r, acc, o).net.facts, slack)
       <==> AllKept(w.net.facts, slack) && !SendsIntoVent(w, Send(r, acc, o), slack)
  {
    KeptSnoc(w.net.facts, Power(acc, OFF, w.net.clock, true), slack);
    OffAgainstRecord(w.net, acc, slack);
    assert HandOk(w.net, acc, w.hands[(r, acc)]);
  }

  lemma RunKept(w: World, it: Decided, o: Call, slack: nat)
    requires WorldOk(w)
    ensures AllKept(RunStep(w, it, o).net.facts, slack) <==> AllKept(w.net.facts, slack)
  {
    if it in w.decided {
      assert DecidedOk(it);
      match it.action
      case SetDesired(acc, want) => KeptSnoc(w.net.facts, Power(acc, want, w.net.clock, false), slack);
      case SafetyVent(acc) => KeptSnoc(w.net.facts, Vented(acc, w.net.clock), slack);
      case _ =>
    }
  }

  lemma AnySendKept(w: World, r: nat, acc: string, o: Call, slack: nat)
    requires WorldOk(w)
    ensures AllKept(SendStep(w, r, acc, o).net.facts, slack)
       <==> AllKept(w.net.facts, slack) && !SendsIntoVent(w, Send(r, acc, o), slack)
  {
    if InHand(w, r, acc) && HandOf(w, r, acc).Ready? && o != NotDone {
      SendKept(w, r, acc, o, slack);
    } else {
      assert SendStep(w, r, acc, o).net.facts == w.net.facts;
    }
  }

  lemma NoFact(w: World, cfg: Config, s: Step)
    requires !s.Send? && !s.Run?
    ensures Take(w, cfg, s).net.facts == w.net.facts
  {
  }

  lemma StepKept(w: World, cfg: Config, s: Step, slack: nat)
    requires WorldOk(w)
    ensures AllKept(Take(w, cfg, s).net.facts, slack) <==> AllKept(w.net.facts, slack) && !SendsIntoVent(w, s, slack)
  {
    if s.Send? {
      AnySendKept(w, s.r, s.acc, s.o, slack);
    } else if s.Run? {
      RunKept(w, s.it, s.o, slack);
    } else {
      NoFact(w, cfg, s);
    }
  }

  ghost predicate NeverSendsIntoVent(cfg: Config, steps: seq<Step>, slack: nat) {
    forall n :: 0 <= n < |steps| ==> !SendsIntoVent(TakeAll(START, cfg, steps[..n]), steps[n], slack)
  }

  lemma NeverSnoc(cfg: Config, steps: seq<Step>, slack: nat)
    requires steps != []
    ensures var k := |steps| - 1;
            NeverSendsIntoVent(cfg, steps, slack) <==>
              NeverSendsIntoVent(cfg, steps[..k], slack) && !SendsIntoVent(TakeAll(START, cfg, steps[..k]), steps[k], slack)
  {
    var k := |steps| - 1;
    var init := steps[..k];
    forall n | 0 <= n < k
      ensures SendsIntoVent(TakeAll(START, cfg, steps[..n]), steps[n], slack)
           == SendsIntoVent(TakeAll(START, cfg, init[..n]), init[n], slack)
    {
      assert init[..n] == steps[..n];
    }
  }

  /** Over every interleaving of processes, events, timers, reconciles, failures and crashes: no
      power-off reaches an accessory in the ten minutes after a vent (less slack) exactly when no timer
      sends into a window whose key could not be written, that its read could not see or let pass, or
      that opened after the read. */
  lemma {:induction false} VentExact(cfg: Config, steps: seq<Step>, slack: nat)
    ensures AllKept(TakeAll(START, cfg, steps).net.facts, slack) <==> NeverSendsIntoVent(cfg, steps, slack)
  {
    if steps != [] {
      var init := steps[..|steps| - 1];
      VentExact(cfg, init, slack);
      AlwaysOk(cfg, init);
      StepKept(TakeAll(START, cfg, init), cfg, steps[|steps| - 1], slack);
      NeverSnoc(cfg, steps, slack);
    }
  }

  /** No read lost sight of a live key, no vent opened since the read, and no vent is without its key. */
  predicate SeesVents(w: World, s: Step) {
    s.Send? && InHand(w, s.r, s.acc) && HandOf(w, s.r, s.acc).Ready? ==>
      && !(s.acc in w.net.bare && w.net.clock < w.net.bare[s.acc])
      && !HandOf(w, s.r, s.acc).vented && !(HandOf(w, s.r, s.acc).failed && HandOf(w, s.r, s.acc).alive)
  }

  ghost predicate AlwaysSees(cfg: Config, steps: seq<Step>) {
    forall n :: 0 <= n < |steps| ==> SeesVents(TakeAll(START, cfg, steps[..n]), steps[n])
  }

  /** When that holds at every send, every power-off keeps its distance from every vent before it, up to
      the second that the TTL rounds. */
  lemma VentHolds(cfg: Config, steps: seq<Step>, i: nat, j: nat)
    requires AlwaysSees(cfg, steps)
    requires var facts := TakeAll(START, cfg, steps).net.facts;
             i < j < |facts| && facts[i].Vented? && facts[j].Power? && facts[j].acc == facts[i].acc && !facts[j].want.on
    ensures var facts := TakeAll(START, cfg, steps).net.facts;
            facts[j].at > facts[i].at + VENT_WINDOW - 1000
  {
    forall n | 0 <= n < |steps| ensures !SendsIntoVent(TakeAll(START, cfg, steps[..n]), steps[n], 999) {
      assert SeesVents(TakeAll(START, cfg, steps[..n]), steps[n]);
    }
    VentExact(cfg, steps, 999);
    var facts := TakeAll(START, cfg, steps).net.facts;
    assert KeepsVent(facts[i], facts[j], 999);
  }

  // ---- no scheduled off is lost, but by these steps

  /** An off of acc stands in Redis, or a process is dealing with it. */
  ghost predicate Waiting(w: World, acc: string) {
    acc in w.net.timers || exists r :: InHand(w, r, acc)
  }

  ghost predicate NobodyBut(w: World, acc: string, r: nat) {
    acc !in w.net.timers && forall q :: q != r ==> !InHand(w, q, acc)
  }

  ghost predicate NoHands(w: World, acc: string) {
    forall r :: !InHand(w, r, acc)
  }

  /** The step that ends an off when nobody else has one of acc: its timer cancelled or unpaired in
      Redis, or removed with the answer lost; suppressed or cancelled by a start; sent; not put back for
      the end of the window or for a retry; or lost with the process that had taken it. */
  ghost predicate EndsOff(w: World, cfg: Config, s: Step, acc: string) {
    match s
    case Run(it, o) => it in w.decided && it.action == CancelOff(acc) && o != NotDone && NoHands(w, acc)
    case Unpair(_, x, o) => x == acc && o != NotDone && NoHands(w, acc)
    case Pop(r, x, o) => x == acc && CanPop(w, r, acc) && o == Unanswered && NoHands(w, acc)
    case Look(r, x) =>
      && x == acc && InHand(w, r, acc) && HandOf(w, r, acc).Cleared? && Stops(MemOf(w, r), cfg, HandOf(w, r, acc).m)
      && NobodyBut(w, acc, r)
    case Send(r, x, o) => x == acc && InHand(w, r, acc) && HandOf(w, r, acc).Ready? && o == Done && NobodyBut(w, acc, r)
    case PutBack(r, x, o) => x == acc && InHand(w, r, acc) && HandOf(w, r, acc).Returning? && o == NotDone && NobodyBut(w, acc, r)
    case Crash(r) => NobodyBut(w, acc, r)
    case _ => false
  }

  /** Hands only added or moved, and the timer not removed. */
  lemma HandsKept(w: World, post: World, acc: string)
    requires Waiting(w, acc) && (acc in w.net.timers ==> acc in post.net.timers)
    requires forall k :: k in w.hands && k.1 == acc ==> k in post.hands
    ensures Waiting(post, acc)
  {
    if acc !in w.net.timers {
      var r :| InHand(w, r, acc);
      assert InHand(post, r, acc);
    }
  }

  /** One process lets go, and the timer is as it was. */
  lemma HandGone(w: World, post: World, r: nat, acc: string)
    requires post.hands.Keys == w.hands.Keys - {(r, acc)} && (acc in post.net.timers <==> acc in w.net.timers)
    ensures Waiting(post, acc) <==> !NobodyBut(w, acc, r)
  {
    forall q ensures InHand(post, q, acc) <==> q != r && InHand(w, q, acc) {
    }
  }

  lemma SendWaits(w: World, cfg: Config, r: nat, x: string, o: Call, acc: string)
    requires Waiting(w, acc)
    ensures Waiting(SendStep(w, r, x, o), acc) <==> !EndsOff(w, cfg, Send(r, x, o), acc)
  {
    var post := SendStep(w, r, x, o);
    if x == acc && InHand(w, r, x) && HandOf(w, r, x).Ready? && o == Done {
      HandGone(w, post, r, acc);
    } else {
      HandsKept(w, post, acc);
    }
  }

  lemma LookWaits(w: World, cfg: Config, r: nat, x: string, acc: string)
    requires Waiting(w, acc)
    ensures Waiting(LookStep(w, cfg, r, x), acc) <==> !EndsOff(w, cfg, Look(r, x), acc)
  {
    var post := LookStep(w, cfg, r, x);
    if x == acc && InHand(w, r, x) && HandOf(w, r, x).Cleared? && Stops(MemOf(w, r), cfg, HandOf(w, r, x).m) {
      HandGone(w, post, r, acc);
    } else {
      HandsKept(w, post, acc);
    }
  }

  lemma PutBackWaits(w: World, cfg: Config, r: nat, x: string, o: Call, acc: string)
    requires Waiting(w, acc)
    ensures Waiting(PutBackStep(w, r, x, o), acc) <==> !EndsOff(w, cfg, PutBack(r, x, o), acc)
  {
    var post := PutBackStep(w, r, x, o);
    if x == acc && InHand(w, r, x) && HandOf(w, r, x).Returning? {
      if o == NotDone {
        HandGone(w, post, r, acc);
      }
    } else {
      HandsKept(w, post, acc);
    }
  }

  lemma PopWaits(w: World, cfg: Config, r: nat, x: string, o: Call, acc: string)
    requires Waiting(w, acc)
    ensures Waiting(PopStep(w, r, x, o), acc) <==> !EndsOff(w, cfg, Pop(r, x, o), acc)
  {
    var post := PopStep(w, r, x, o);
    if x == acc && CanPop(w, r, x) && o != NotDone {
      if o == Done {
        assert InHand(post, r, acc);
      } else {
        assert post.hands == w.hands;
        TimerGone(w, post, acc, true);
      }
    } else {
      HandsKept(w, post, acc);
    }
  }

  lemma CrashWaits(w: World, cfg: Config, r: nat, acc: string)
    requires Waiting(w, acc)
    ensures Waiting(Take(w, cfg, Crash(r)), acc) <==> !EndsOff(w, cfg, Crash(r), acc)
  {
    var post := Take(w, cfg, Crash(r));
    forall q ensures InHand(post, q, acc) <==> q != r && InHand(w, q, acc) {
    }
  }

  /** All hands stay; the timer is removed, or nothing happens to it. */
  lemma TimerGone(w: World, post: World, acc: string, gone: bool)
    requires Waiting(w, acc) && post.hands.Keys == w.hands.Keys
    requires if gone then acc !in post.net.timers else acc in w.net.timers ==> acc in post.net.timers
    ensures Waiting(post, acc) <==> !(gone && NoHands(w, acc))
  {
    assert forall r :: InHand(post, r, acc) == InHand(w, r, acc);
  }

  predicate TakesNoTimer(s: Step) {
    s.Tick? || s.Deliver? || s.Reconcile? || s.Clear? || s.Scan? || s.Get? || s.Del? || s.Read?
  }

  lemma OtherWaits(w: World, cfg: Config, s: Step, acc: string)
    requires Waiting(w, acc) && TakesNoTimer(s)
    ensures Waiting(Take(w, cfg, s), acc) && !EndsOff(w, cfg, s, acc)
  {
    var post := Take(w, cfg, s);
    assert post.net.timers == w.net.timers && w.hands.Keys <= post.hands.Keys;
    HandsKept(w, post, acc);
  }

  lemma UnpairWaits(w: World, cfg: Config, r: nat, x: string, o: Call, acc: string)
    requires Waiting(w, acc)
    ensures Waiting(UnpairStep(w, r, x, o), acc) <==> !EndsOff(w, cfg, Unpair(r, x, o), acc)
  {
    TimerGone(w, UnpairStep(w, r, x, o), acc, x == acc && o != NotDone);
  }

  predicate Cancels(w: World, it: Decided, o: Call, acc: string) {
    it in w.decided && it.action == CancelOff(acc) && o != NotDone
  }

  lemma RunTimers(w: World, it: Decided, o: Call, acc: string)
    ensures RunStep(w, it, o).hands.Keys == w.hands.Keys
    ensures if Cancels(w, it, o, acc) then acc !in RunStep(w, it, o).net.timers
            else acc in w.net.timers ==> acc in RunStep(w, it, o).net.timers
  {
  }

  lemma RunWaits(w: World, cfg: Config, it: Decided, o: Call, acc: string)
    requires Waiting(w, acc)
    ensures Waiting(RunStep(w, it, o), acc) <==> !EndsOff(w, cfg, Run(it, o), acc)
  {
    RunTimers(w, it, o, acc);
    TimerGone(w, RunStep(w, it, o), acc, Cancels(w, it, o, acc));
  }

  lemma StepWaits(w: World, cfg: Config, s: Step, acc: string)
    requires Waiting(w, acc)
    ensures Waiting(Take(w, cfg, s), acc) <==> !EndsOff(w, cfg, s, acc)
  {
    match s
    case Send(r, x, o) => SendWaits(w, cfg, r, x, o, acc);
    case Look(r, x) => LookWaits(w, cfg, r, x, acc);
    case PutBack(r, x, o) => PutBackWaits(w, cfg, r, x, o, acc);
    case Pop(r, x, o) => PopWaits(w, cfg, r, x, o, acc);
    case Crash(r) => CrashWaits(w, cfg, r, acc);
    case Unpair(r, x, o) => UnpairWaits(w, cfg, r, x, o, acc);
    case Run(it, o) => RunWaits(w, cfg, it, o, acc);
    case _ => OtherWaits(w, cfg, s, acc);
  }

  /** acc has an off waiting after the first k steps; step k ends it. */
  ghost predicate WaitsAt(cfg: Config, steps: seq<Step>, k: nat, acc: string)
    requires k <= |steps|
  {
    Waiting(TakeAll(START, cfg, steps[..k]), acc)
  }

  ghost predicate EndsAt(cfg: Config, steps: seq<Step>, k: nat, acc: string)
    requires k < |steps|
  {
    EndsOff(TakeAll(START, cfg, steps[..k]), cfg, steps[k], acc)
  }

  ghost predicate StillWaits(cfg: Config, steps: seq<Step>, n: nat, acc: string) {
    forall k :: n <= k <= |steps| ==> WaitsAt(cfg, steps, k, acc)
  }

  ghost predicate NothingEnds(cfg: Config, steps: seq<Step>, n: nat, acc: string) {
    forall k :: n <= k < |steps| ==> !EndsAt(cfg, steps, k, acc)
  }

  lemma WaitsSnoc(cfg: Config, steps: seq<Step>, n: nat, acc: string)
    requires n < |steps|
    ensures StillWaits(cfg, steps, n, acc) <==>
            StillWaits(cfg, steps[..|steps| - 1], n, acc) && WaitsAt(cfg, steps, |steps|, acc)
  {
    var m, init := |steps| - 1, steps[..|steps| - 1];
    forall k | n <= k <= m ensures WaitsAt(cfg, steps, k, acc) == WaitsAt(cfg, init, k, acc) {
      assert init[..k] == steps[..k];
    }
  }

  lemma EndsSnoc(cfg: Config, steps: seq<Step>, n: nat, acc: string)
    requires n < |steps|
    ensures NothingEnds(cfg, steps, n, acc) <==>
            NothingEnds(cfg, steps[..|steps| - 1], n, acc) && !EndsAt(cfg, steps, |steps| - 1, acc)
  {
    var m, init := |steps| - 1, steps[..|steps| - 1];
    forall k | n <= k < m ensures EndsAt(cfg, steps, k, acc) == EndsAt(cfg, init, k, acc) {
      assert init[..k] == steps[..k];
    }
  }

  lemma LastWaits(cfg: Config, steps: seq<Step>, acc: string)
    requires steps != [] && WaitsAt(cfg, steps, |steps| - 1, acc)
    ensures WaitsAt(cfg, steps, |steps|, acc) <==> !EndsAt(cfg, steps, |steps| - 1, acc)
  {
    assert steps[..|steps|] == steps;
    StepWaits(TakeAll(START, cfg, steps[..|steps| - 1]), cfg, steps[|steps| - 1], acc);
  }

  /** Once scheduled, an off stands in Redis or is in some process's hands for as long as no step ends
      it; and each such step does end it. */
  lemma {:induction false} OffWaits(cfg: Config, steps: seq<Step>, n: nat, acc: string)
    requires n <= |steps| && WaitsAt(cfg, steps, n, acc)
    ensures StillWaits(cfg, steps, n, acc) <==> NothingEnds(cfg, steps, n, acc)
    decreases |steps|
  {
    if n < |steps| {
      var m, init := |steps| - 1, steps[..|steps| - 1];
      assert init[..n] == steps[..n] && init[..m] == steps[..m];
      OffWaits(cfg, init, n, acc);
      WaitsSnoc(cfg, steps, n, acc);
      EndsSnoc(cfg, steps, n, acc);
      if StillWaits(cfg, init, n, acc) {
        assert WaitsAt(cfg, init, m, acc);
        LastWaits(cfg, steps, acc);
      }
    }
  }

  // ---- a start that a firing timer does not see

  /** The firing timer goes on although its process knows a start of its host since it was scheduled. */
  predicate Misses(w: World, cfg: Config, s: Step) {
    && s.Look? && InHand(w, s.r, s.acc) && HandOf(w, s.r, s.acc).Cleared?
    && StartedSince(MemOf(w, s.r), HandOf(w, s.r, s.acc).own) && !Stops(MemOf(w, s.r), cfg, HandOf(w, s.r, s.acc).m)
  }

  /** The same, of a timer whose data was deleted, rewritten or not readable when it was asked for. */
  predicate LooksBlind(w: World, cfg: Config, s: Step) {
    Misses(w, cfg, s) && !HandOf(w, s.r, s.acc).safe
  }

  /** Data that is still there to be read, and data that was, is the timer's own. */
  predicate DataOk(n: Net, acc: string, h: Hand) {
    && (h.Popped? && h.safe ==> Fetch(n, acc, true) == h.own)
    && ((h.Fetched? || h.Cleared?) && h.safe ==> h.m == h.own)
  }

  ghost predicate AllData(w: World) {
    forall k :: k in w.hands ==> DataOk(w.net, k.1, w.hands[k])
  }

  /** Nothing happens to the data, and hands stay or are emptied. */
  lemma DataKept(w: World, post: World)
    requires AllData(w) && post.net.meta == w.net.meta
    requires forall k :: k in post.hands ==> (k in w.hands && w.hands[k] == post.hands[k]) || DataOk(post.net, k.1, post.hands[k])
    ensures AllData(post)
  {
    forall k | k in post.hands ensures DataOk(post.net, k.1, post.hands[k]) {
      if k in w.hands {
        assert DataOk(w.net, k.1, w.hands[k]);
      }
    }
  }

  /** One accessory's data changes, and the timers that have yet to read it are told. */
  lemma DataNoted(w: World, post: World, acc: string, o: Call, hands: map<(nat, string), Hand>)
    requires AllData(w) && hands == NoteData(w.hands, acc, o)
    requires forall x :: x != acc || o == NotDone ==> Fetch(post.net, x, true) == Fetch(w.net, x, true)
    requires forall k :: k in post.hands ==> (k in hands && hands[k] == post.hands[k]) || DataOk(post.net, k.1, post.hands[k])
    ensures AllData(post)
  {
    forall k | k in post.hands ensures DataOk(post.net, k.1, post.hands[k]) {
      if k in hands && hands[k] == post.hands[k] {
        assert DataOk(w.net, k.1, w.hands[k]);
      }
    }
  }

  lemma DelData(w: World, r: nat, acc: string, o: Call)
    requires AllData(w)
    ensures AllData(DelStep(w, r, acc, o))
  {
    if InHand(w, r, acc) && HandOf(w, r, acc).Fetched? {
      assert DataOk(w.net, acc, w.hands[(r, acc)]);
      DataNoted(w, DelStep(w, r, acc, o), acc, o, NoteData(w.hands, acc, o));
    }
  }

  lemma PutBackData(w: World, r: nat, acc: string, o: Call)
    requires AllData(w)
    ensures AllData(PutBackStep(w, r, acc, o))
  {
    if InHand(w, r, acc) && HandOf(w, r, acc).Returning? {
      DataNoted(w, PutBackStep(w, r, acc, o), acc, o, NoteData(w.hands, acc, o));
    }
  }

  lemma ClearData(w: World, r: nat, acc: string, o: Call)
    requires AllData(w)
    ensures AllData(ClearStep(w, r, acc, o))
  {
    if (r, acc) in w.clears {
      DataNoted(w, ClearStep(w, r, acc, o), acc, o, NoteData(w.hands, acc, o));
    }
  }

  lemma RunData(w: World, it: Decided, o: Call)
    requires AllData(w)
    ensures AllData(RunStep(w, it, o))
  {
    var post := RunStep(w, it, o);
    if it in w.decided && it.action.ScheduleOff? {
      DataNoted(w, post, it.action.acc, o, NoteData(w.hands, it.action.acc, o));
    } else if it in w.decided && it.action.SafetyVent? {
      forall k | k in post.hands ensures DataOk(post.net, k.1, post.hands[k]) {
        assert DataOk(w.net, k.1, w.hands[k]);
      }
    } else {
      DataKept(w, post);
    }
  }

  lemma GetData(w: World, r: nat, acc: string, got: bool)
    requires AllData(w)
    ensures AllData(GetStep(w, r, acc, got))
  {
    if InHand(w, r, acc) {
      assert DataOk(w.net, acc, w.hands[(r, acc)]);
    }
    DataKept(w, GetStep(w, r, acc, got));
  }

  lemma PlainData(w: World, cfg: Config, s: Step)
    requires AllData(w) && (s.Tick? || s.Deliver? || s.Reconcile? || s.Unpair? || s.Scan? || s.Crash?)
    ensures AllData(Take(w, cfg, s))
  {
    DataKept(w, Take(w, cfg, s));
  }

  lemma PopData(w: World, r: nat, acc: string, o: Call)
    requires AllData(w)
    ensures AllData(PopStep(w, r, acc, o))
  {
    DataKept(w, PopStep(w, r, acc, o));
  }

  lemma LookData(w: World, cfg: Config, r: nat, acc: string)
    requires AllData(w)
    ensures AllData(LookStep(w, cfg, r, acc))
  {
    DataKept(w, LookStep(w, cfg, r, acc));
  }

  lemma ReadData(w: World, r: nat, acc: string, at: int, reading: Option<nat>)
    requires AllData(w)
    ensures AllData(ReadStep(w, r, acc, at, reading))
  {
    DataKept(w, ReadStep(w, r, acc, at, reading));
  }

  lemma SendData(w: World, r: nat, acc: string, o: Call)
    requires AllData(w)
    ensures AllData(SendStep(w, r, acc, o))
  {
    DataKept(w, SendStep(w, r, acc, o));
  }

  lemma TakeData(w: World, cfg: Config, s: Step)
    requires AllData(w)
    ensures AllData(Take(w, cfg, s))
  {
    match s
    case Run(it, o) => RunData(w, it, o);
    case Clear(r, acc, o) => ClearData(w, r, acc, o);
    case Pop(r, acc, o) => PopData(w, r, acc, o);
    case Get(r, acc, got) => GetData(w, r, acc, got);
    case Del(r, acc, o) => DelData(w, r, acc, o);
    case Look(r, acc) => LookData(w, cfg, r, acc);
    case Read(r, acc, at, reading) => ReadData(w, r, acc, at, reading);
    case Send(r, acc, o) => SendData(w, r, acc, o);
    case PutBack(r, acc, o) => PutBackData(w, r, acc, o);
    case _ => PlainData(w, cfg, s);
  }

  lemma {:induction false} AlwaysData(cfg: Config, steps: seq<Step>)
    ensures AllData(TakeAll(START, cfg, steps))
  {
    if steps != [] {
      AlwaysData(cfg, steps[..|steps| - 1]);
      TakeData(TakeAll(START, cfg, steps[..|steps| - 1]), cfg, steps[|steps| - 1]);
    }
  }

  ghost predicate SeesStarts(cfg: Config, steps: seq<Step>) {
    forall n :: 0 <= n < |steps| ==> !Misses(TakeAll(START, cfg, steps[..n]), cfg, steps[n])
  }

  ghost predicate NeverBlind(cfg: Config, steps: seq<Step>) {
    forall n :: 0 <= n < |steps| ==> !LooksBlind(TakeAll(START, cfg, steps[..n]), cfg, steps[n])
  }

  /** Over every interleaving: no firing timer goes on after a start that its process knows exactly when
      none does so over data that was deleted, rewritten or unreadable when it was asked for. */
  lemma StartsExact(cfg: Config, steps: seq<Step>)
    ensures SeesStarts(cfg, steps) <==> NeverBlind(cfg, steps)
  {
    forall n | 0 <= n < |steps|
      ensures Misses(TakeAll(START, cfg, steps[..n]), cfg, steps[n]) <==> LooksBlind(TakeAll(START, cfg, steps[..n]), cfg, steps[n])
    {
      var w, s := TakeAll(START, cfg, steps[..n]), steps[n];
      AlwaysData(cfg, steps[..n]);
      if Misses(w, cfg, s) {
        assert DataOk(w.net, s.acc, w.hands[(s.r, s.acc)]);
      }
    }
  }

  // ---- runs in pieces

  lemma TakeAppend(w: World, cfg: Config, steps: seq<Step>, s: Step)
    ensures TakeAll(w, cfg, steps + [s]) == Take(TakeAll(w, cfg, steps), cfg, s)
  {
    assert (steps + [s])[..|steps|] == steps;
  }

  lemma {:induction false} TakeMore(w: World, cfg: Config, steps: seq<Step>, more: seq<Step>)
    ensures TakeAll(w, cfg, steps + more) == TakeAll(TakeAll(w, cfg, steps), cfg, more)
  {
    if more == [] {
      assert steps + more == steps;
    } else {
      var k := |more| - 1;
      assert (steps + more)[..|steps + more| - 1] == steps + more[..k];
      TakeMore(w, cfg, steps, more[..k]);
    }
  }

  lemma TakeTwo(w: World, cfg: Config, a: Step, b: Step)
    ensures TakeAll(w, cfg, [a, b]) == Take(Take(w, cfg, a), cfg, b)
  {
    assert [] + [a] == [a] && [a] + [b] == [a, b];
    TakeAppend(w, cfg, [], a);
    TakeAppend(w, cfg, [a], b);
  }

  lemma TakeThree(w: World, cfg: Config, a: Step, b: Step, c: Step)
    ensures TakeAll(w, cfg, [a, b, c]) == Take(Take(Take(w, cfg, a), cfg, b), cfg, c)
  {
    assert [] + [a] == [a] && [a] + [b] == [a, b] && [a, b] + [c] == [a, b, c];
    TakeAppend(w, cfg, [], a);
    TakeAppend(w, cfg, [a], b);
    TakeAppend(w, cfg, [a, b], c);
  }

  lemma TakeFour(w: World, cfg: Config, a: Step, b: Step, c: Step, d: Step)
    ensures TakeAll(w, cfg, [a, b, c, d]) == Take(Take(Take(Take(w, cfg, a), cfg, b), cfg, c), cfg, d)
  {
    assert [] + [a] == [a] && [a] + [b] == [a, b] && [a, b] + [c] == [a, b, c] && [a, b, c] + [d] == [a, b, c, d];
    TakeAppend(w, cfg, [], a);
    TakeAppend(w, cfg, [a], b);
    TakeAppend(w, cfg, [a, b], c);
    TakeAppend(w, cfg, [a, b, c], d);
  }

  // ---- the engine's own methods are among the interleavings

  /** One action's commands: a cancel that was answered is followed by its delete. */
  function ActionSteps(r: nat, a: Action, at: int, f: Fate): seq<Step> {
    [Run(Decided(r, a, at), f.call)] + if a.CancelOff? && f.call == Done then [Clear(r, a.acc, f.del)] else []
  }

  function RunSteps(r: nat, actions: seq<Action>, at: int, fate: nat -> Fate): seq<Step> {
    if actions == [] then []
    else RunSteps(r, actions[..|actions| - 1], at, fate) + ActionSteps(r, actions[|actions| - 1], at, fate(|actions| - 1))
  }

  lemma ActionIsSteps(w: World, cfg: Config, r: nat, a: Action, at: int, f: Fate)
    requires Decided(r, a, at) in w.decided
    ensures var post := TakeAll(w, cfg, ActionSteps(r, a, at, f));
            EngOf(post, r) == ApplyOne(EngOf(w, r), a, at, f) && post.decided == w.decided
  {
    var run := Run(Decided(r, a, at), f.call);
    assert [] + [run] == [run];
    TakeAppend(w, cfg, [], run);
    if a.CancelOff? && f.call == Done {
      TakeAppend(w, cfg, [run], Clear(r, a.acc, f.del));
    } else {
      assert ActionSteps(r, a, at, f) == [run];
    }
  }

  lemma {:induction false} ExecuteIsSteps(w: World, cfg: Config, r: nat, actions: seq<Action>, at: int, fate: nat -> Fate)
    requires forall a :: a in actions ==> Decided(r, a, at) in w.decided
    ensures var post := TakeAll(w, cfg, RunSteps(r, actions, at, fate));
            EngOf(post, r) == ApplyAll(EngOf(w, r), actions, at, fate) && post.decided == w.decided
  {
    if actions != [] {
      var k := |actions| - 1;
      ExecuteIsSteps(w, cfg, r, actions[..k], at, fate);
      var before := RunSteps(r, actions[..k], at, fate);
      TakeMore(w, cfg, before, ActionSteps(r, actions[k], at, fate(k)));
      ActionIsSteps(TakeAll(w, cfg, before), cfg, r, actions[k], at, fate(k));
    }
  }

  /** Handling a delivery in one go is a delivery step followed by its actions' commands in order. */
  lemma HandleIsSteps(w: World, cfg: Config, r: nat, d: Delivery, fate: nat -> Fate)
    requires AllAnswer(w.net, d.ttls)
    ensures var actions := HandleDecision(MemOf(w, r), cfg, d).1;
            EngOf(TakeAll(Take(w, cfg, Deliver(r, d)), cfg, RunSteps(r, actions, d.at, fate)), r) ==
            HandleAll(EngOf(w, r), cfg, d, fate)
  {
    var actions := HandleDecision(MemOf(w, r), cfg, d).1;
    ExecuteIsSteps(Take(w, cfg, Deliver(r, d)), cfg, r, actions, d.at, fate);
  }

  /** The commands of one firing timer; those that do not apply change nothing. */
  function FireSteps(r: nat, acc: string, at: int, c: Calls): seq<Step> {
    [Get(r, acc, c.got), Del(r, acc, c.del), Look(r, acc)] + Closing(r, acc, at, c)
  }

  lemma FireOpens(w: World, cfg: Config, r: nat, acc: string, c: Calls)
    requires InHand(w, r, acc) && HandOf(w, r, acc).Popped?
    ensures var post := TakeAll(w, cfg, [Get(r, acc, c.got), Del(r, acc, c.del), Look(r, acc)]);
            var meta := Fetch(w.net, acc, c.got);
            && post.mems == w.mems && post.net == DropMeta(w.net, acc, c.del)
            && if Stops(MemOf(w, r), cfg, meta) then !InHand(post, r, acc)
               else InHand(post, r, acc) && HandOf(post, r, acc) == Allowed(meta)
  {
    TakeThree(w, cfg, Get(r, acc, c.got), Del(r, acc, c.del), Look(r, acc));
    var w1 := GetStep(w, r, acc, c.got);
    assert InHand(w1, r, acc) && HandOf(w1, r, acc).Fetched? && HandOf(w1, r, acc).m == Fetch(w.net, acc, c.got);
    var w2 := DelStep(w1, r, acc, c.del);
    assert InHand(w2, r, acc) && HandOf(w2, r, acc).Cleared? && HandOf(w2, r, acc).m == Fetch(w.net, acc, c.got);
  }

  function Closing(r: nat, acc: string, at: int, c: Calls): seq<Step> {
    [Read(r, acc, at, c.reading), Send(r, acc, c.send), PutBack(r, acc, c.put)]
  }

  lemma ClosingIs(w: World, cfg: Config, r: nat, acc: string, at: int, c: Calls)
    ensures TakeAll(w, cfg, Closing(r, acc, at, c))
         == PutBackStep(SendStep(ReadStep(w, r, acc, at, c.reading), r, acc, c.send), r, acc, c.put)
  {
    TakeThree(w, cfg, Read(r, acc, at, c.reading), Send(r, acc, c.send), PutBack(r, acc, c.put));
  }

  lemma FireStopped(w: World, cfg: Config, r: nat, acc: string, at: int, c: Calls)
    requires !InHand(w, r, acc)
    ensures TakeAll(w, cfg, Closing(r, acc, at, c)) == w
  {
    ClosingIs(w, cfg, r, acc, at, c);
  }

  lemma FireInWindow(w: World, cfg: Config, r: nat, acc: string, at: int, c: Calls)
    requires InHand(w, r, acc) && HandOf(w, r, acc).Allowed?
    requires c.reading.Some? && c.reading.value > 0 && Answers(w.net, acc, c.reading.value)
    ensures var post := TakeAll(w, cfg, Closing(r, acc, at, c));
            && post.mems == w.mems && !InHand(post, r, acc)
            && post.net == Put(w.net, acc, HandOf(w, r, acc).m, at + c.reading.value * 1000, c.put)
  {
    ClosingIs(w, cfg, r, acc, at, c);
    var w1 := ReadStep(w, r, acc, at, c.reading);
    assert InHand(w1, r, acc) && HandOf(w1, r, acc) == Returning(HandOf(w, r, acc).m, at + c.reading.value * 1000);
    assert SendStep(w1, r, acc, c.send) == w1;
  }

  lemma ReadGoes(w: World, r: nat, acc: string, at: int, reading: Option<nat>)
    requires InHand(w, r, acc) && HandOf(w, r, acc).Allowed?
    requires reading.Some? ==> reading.value == 0 && Answers(w.net, acc, 0)
    ensures var post := ReadStep(w, r, acc, at, reading);
            && post.net == w.net && post.mems == w.mems && InHand(post, r, acc) && HandOf(post, r, acc).Ready?
            && HandOf(post, r, acc).m == HandOf(w, r, acc).m && HandOf(post, r, acc).at == at
  {
  }

  lemma SendThenPut(w: World, r: nat, acc: string, send: Call, put: Call)
    requires InHand(w, r, acc) && HandOf(w, r, acc).Ready?
    ensures var post := PutBackStep(SendStep(w, r, acc, send), r, acc, put);
            var sent := SendNet(w.net, acc, OFF, true, send);
            && MemOf(post, r) == SendMem(MemOf(w, r), acc, OFF, send) && !InHand(post, r, acc)
            && post.net == if send == Done then sent
                           else Put(sent, acc, HandOf(w, r, acc).m, HandOf(w, r, acc).at + RETRY_WAIT, put)
  {
    var h := HandOf(w, r, acc);
    var w1 := SendStep(w, r, acc, send);
    assert if send == Done then !InHand(w1, r, acc) else InHand(w1, r, acc) && HandOf(w1, r, acc) == Returning(h.m, h.at + RETRY_WAIT);
  }

  lemma FireSends(w: World, cfg: Config, r: nat, acc: string, at: int, c: Calls)
    requires InHand(w, r, acc) && HandOf(w, r, acc).Allowed?
    requires c.reading.Some? ==> c.reading.value == 0 && Answers(w.net, acc, 0)
    ensures var post := TakeAll(w, cfg, Closing(r, acc, at, c));
            var sent := SendNet(w.net, acc, OFF, true, c.send);
            && MemOf(post, r) == SendMem(MemOf(w, r), acc, OFF, c.send) && !InHand(post, r, acc)
            && post.net == if c.send == Done then sent else Put(sent, acc, HandOf(w, r, acc).m, at + RETRY_WAIT, c.put)
  {
    ClosingIs(w, cfg, r, acc, at, c);
    ReadGoes(w, r, acc, at, c.reading);
    SendThenPut(ReadStep(w, r, acc, at, c.reading), r, acc, c.send, c.put);
  }

  /** Firing in one go is these steps in order, and leaves the timer out of this process's hands. */
  lemma FireIsSteps(w: World, cfg: Config, r: nat, acc: string, at: int, c: Calls)
    requires InHand(w, r, acc) && HandOf(w, r, acc).Popped? && (c.reading.Some? ==> Answers(w.net, acc, c.reading.value))
    ensures var post := TakeAll(w, cfg, FireSteps(r, acc, at, c));
            EngOf(post, r) == FireOff(EngOf(w, r), cfg, acc, at, c) && !InHand(post, r, acc)
  {
    var first := [Get(r, acc, c.got), Del(r, acc, c.del), Look(r, acc)];
    TakeMore(w, cfg, first, Closing(r, acc, at, c));
    FireOpens(w, cfg, r, acc, c);
    var looked := TakeAll(w, cfg, first);
    if Stops(MemOf(w, r), cfg, Fetch(w.net, acc, c.got)) {
      FireStopped(looked, cfg, r, acc, at, c);
    } else if c.reading.Some? && c.reading.value > 0 {
      FireInWindow(looked, cfg, r, acc, at, c);
    } else {
      FireSends(looked, cfg, r, acc, at, c);
    }
  }
}
