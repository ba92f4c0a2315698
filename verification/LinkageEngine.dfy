/** One linkage engine process and the Redis state it shares: off-timers, their data, vent keys. */
module LinkageEngine {
  import opened Basics
  import opened LinkageRules

  const RETRY_WAIT := 10_000
  const OFF := Desired(false, 0)

  datatype Meta = Meta(host: string, at: int)

  /** What the engine did, at the clock it did it: opened a vent, sent a desired state. */
  datatype Fact = Vented(acc: string, at: int) | Power(acc: string, want: Desired, at: int, byTimer: bool)

  datatype Config = Config(allowOff: bool, stopOnFire: bool, defaultLevel: int)

  /** A process's own memory. */
  datatype Mem = Mem(prevWork: map<string, int>, lastStart: map<string, int>, current: map<string, Desired>)

  /** Redis and the outside: vent holds the expiry of each key, and an expired key counts as absent;
      bare holds the end of each accessory's last vent whose key could not be written; timers hold due
      times in whole seconds. */
  datatype Net = Net(clock: int, vent: map<string, int>, bare: map<string, int>, timers: map<string, int>,
                     meta: map<string, Meta>, facts: seq<Fact>)

  /** The fate of a command to Redis or to the device API: answered, or failed without or with its effect. */
  datatype Call = Done | NotDone | Unanswered

  /** The commands of one action; del is the second one of a cancel. */
  datatype Fate = Fate(call: Call, del: Call)

  /** The commands of one firing timer: GET and DEL of its data, TTL of the vent key, the send, and the
      write of the timer that is put back. */
  datatype Calls = Calls(got: bool, del: Call, reading: Option<nat>, send: Call, put: Call)

  datatype Eng = Eng(mem: Mem, net: Net)

  const BLANK := Mem(map[], map[], map[])
  const QUIET := Net(0, map[], map[], map[], map[], [])

  /** One delivery: the pairings, shadow and vent-key readings it works with, and its clock reading. */
  datatype Delivery = Delivery(
    evt: Event, ps: seq<Pairing>, fromAcc: bool, contextFails: bool, duplicate: bool,
    at: int, rules: map<string, int>, hostWork: Option<int>, ttls: map<string, nat>)

  predicate VentAlive(n: Net, acc: string) {
    acc in n.vent && n.clock < n.vent[acc]
  }

  /** TTL answers in whole seconds, rounded in some way; 0 stands for no key. */
  predicate Answers(n: Net, acc: string, ttl: nat) {
    if VentAlive(n, acc) then n.vent[acc] - n.clock - 1000 < ttl * 1000 < n.vent[acc] - n.clock + 1000 else ttl == 0
  }

  predicate AllAnswer(n: Net, ttls: map<string, nat>) {
    forall acc :: acc in ttls ==> Answers(n, acc, ttls[acc])
  }

  function VentEnds(ttls: map<string, nat>, ps: seq<Pairing>, at: int): map<string, int> {
    map acc | acc in ttls && IsPaired(ps, acc) && ttls[acc] > 0 :: at + ttls[acc] * 1000
  }

  /** The snapshot a decision works with. */
  function ViewOf(m: Mem, cfg: Config, host: string, ps: seq<Pairing>, at: int, rules: map<string, int>,
                  hostWork: Option<int>, ttls: map<string, nat>): View {
    View(at, cfg.allowOff, cfg.stopOnFire, if host in m.prevWork then Some(m.prevWork[host]) else hostWork,
         if host in m.lastStart then Some(m.lastStart[host]) else None,
         VentEnds(ttls, ps, at), m.current, hostWork, rules, cfg.defaultLevel)
  }

  /** The snapshot takes an unknown work state from the shadow, and remembers it. */
  function Seed(m: Mem, host: string, hostWork: Option<int>): Mem {
    if host !in m.prevWork && hostWork.Some? then m.(prevWork := m.prevWork[host := hostWork.value]) else m
  }

  function Remember(m: Mem, host: string, evt: Event): Mem {
    if evt.telemetry then m.(prevWork := m.prevWork[host := evt.workState]) else m
  }

  function AfterDecision(m: Mem, host: string, d: Delivery): Mem {
    var told := Remember(Seed(m, host, d.hostWork), host, d.evt);
    if !d.evt.telemetry && d.evt.code == "JOB_START" then told.(lastStart := told.lastStart[host := d.at]) else told
  }

  /** Handle up to the decision: the new memory and the actions to execute. */
  function HandleDecision(m: Mem, cfg: Config, d: Delivery): (Mem, seq<Action>) {
    if d.ps == [] then (Remember(m, d.evt.sn, d.evt), [])
    else
      var host := d.ps[0].host;
      if d.fromAcc && d.contextFails then (m, [])
      else if IsStale(d.evt.recvMs, d.at) then (Remember(m, host, d.evt), [])
      else if !d.evt.telemetry && d.duplicate then (m, [])
      else (AfterDecision(m, host, d), Decide(d.evt, d.ps, ViewOf(m, cfg, host, d.ps, d.at, d.rules, d.hostWork, d.ttls)))
  }

  function Schedule(n: Net, acc: string, m: Meta, due: int): Net {
    n.(timers := n.timers[acc := due / 1000], meta := n.meta[acc := m])
  }

  function Put(n: Net, acc: string, m: Meta, due: int, o: Call): Net {
    if o == NotDone then n else Schedule(n, acc, m, due)
  }

  function RemoveTimer(n: Net, acc: string, o: Call): Net {
    if o == NotDone then n else n.(timers := n.timers - {acc})
  }

  function DropMeta(n: Net, acc: string, o: Call): Net {
    if o == NotDone then n else n.(meta := n.meta - {acc})
  }

  /** CancelOff: the data goes only when the removal was answered. */
  function Cancel(n: Net, acc: string, o: Call, del: Call): Net {
    if o == Done then DropMeta(RemoveTimer(n, acc, o), acc, del) else RemoveTimer(n, acc, o)
  }

  function Record(n: Net, f: Fact): Net {
    n.(facts := n.facts + [f])
  }

  /** A safety vent: with its key, or bare when the key is not written. */
  function OpenVent(n: Net, acc: string, o: Call): Net {
    var until := n.clock + VENT_WINDOW;
    Record(if o == NotDone then n.(bare := n.bare[acc := until]) else n.(vent := n.vent[acc := until]), Vented(acc, n.clock))
  }

  function SendNet(n: Net, acc: string, want: Desired, byTimer: bool, o: Call): Net {
    if o == NotDone then n else Record(n, Power(acc, want, n.clock, byTimer))
  }

  function SendMem(m: Mem, acc: string, want: Desired, o: Call): Mem {
    if o == Done then m.(current := m.current[acc := want]) else m
  }

  /** Apply one action decided at clock reading at. */
  function ApplyOne(e: Eng, a: Action, at: int, f: Fate): Eng {
    match a
    case SetDesired(acc, want) => Eng(SendMem(e.mem, acc, want, f.call), SendNet(e.net, acc, want, false, f.call))
    case ScheduleOff(acc, host, delay) => e.(net := Put(e.net, acc, Meta(host, at), at + delay, f.call))
    case CancelOff(acc) => e.(net := Cancel(e.net, acc, f.call, f.del))
    case StopHost(_) => e
    case SafetyVent(acc) => e.(net := OpenVent(e.net, acc, f.call))
  }

  /** The timer's data, or none when it is gone or cannot be read. */
  function Fetch(n: Net, acc: string, got: bool): Meta {
    if got && acc in n.meta then n.meta[acc] else Meta("", 0)
  }

  /** A start at or after the scheduling cancels the off. */
  predicate StartedSince(m: Mem, meta: Meta) {
    meta.host in m.lastStart && m.lastStart[meta.host] >= meta.at
  }

  /** Whether a firing timer ends before it looks at the vent key. */
  predicate Stops(m: Mem, cfg: Config, meta: Meta) {
    !cfg.allowOff || StartedSince(m, meta)
  }

  function FireOff(e: Eng, cfg: Config, acc: string, at: int, c: Calls): Eng {
    var meta := Fetch(e.net, acc, c.got);
    var net := DropMeta(e.net, acc, c.del);
    if Stops(e.mem, cfg, meta) then e.(net := net)
    else if c.reading.Some? && c.reading.value > 0 then e.(net := Put(net, acc, meta, at + c.reading.value * 1000, c.put))
    else
      var sent := SendNet(net, acc, OFF, true, c.send);
      Eng(SendMem(e.mem, acc, OFF, c.send), if c.send == Done then sent else Put(sent, acc, meta, at + RETRY_WAIT, c.put))
  }

  function ApplyAll(e: Eng, actions: seq<Action>, at: int, fate: nat -> Fate): Eng {
    if actions == [] then e
    else ApplyOne(ApplyAll(e, actions[..|actions| - 1], at, fate), actions[|actions| - 1], at, fate(|actions| - 1))
  }

  function HandleAll(e: Eng, cfg: Config, d: Delivery, fate: nat -> Fate): Eng {
    var r := HandleDecision(e.mem, cfg, d);
    ApplyAll(e.(mem := r.0), r.1, d.at, fate)
  }

  class Engine {
    const cfg: Config
    var prevWork: map<string, int>
    var lastStart: map<string, int>
    var current: map<string, Desired>
    var clock: int
    var vent: map<string, int>
    var bare: map<string, int>
    var timers: map<string, int>
    var meta: map<string, Meta>
    var facts: seq<Fact>

    function Memory(): Mem
      reads this
    {
      Mem(prevWork, lastStart, current)
    }

    function State(): Eng
      reads this
    {
      Eng(Memory(), Net(clock, vent, bare, timers, meta, facts))
    }

    constructor (cfg: Config)
      ensures State() == Eng(BLANK, QUIET) && this.cfg == cfg
    {
      this.cfg := cfg;
      prevWork, lastStart, current := map[], map[], map[];
      clock, vent, bare, timers, meta, facts := 0, map[], map[], map[], map[], [];
    }

    method ScheduleOff(acc: string, m: Meta, due: int, o: Call)
      modifies `timers, `meta
      ensures State() == old(State()).(net := Put(old(State()).net, acc, m, due, o))
    {
      if o == NotDone {
        return;
      }
      timers := timers[acc := due / 1000];
      meta := meta[acc := m];
    }

    method CancelOff(acc: string, o: Call, del: Call) returns (removed: bool, failed: bool)
      modifies `timers, `meta
      ensures State() == old(State()).(net := Cancel(old(State()).net, acc, o, del))
      ensures removed <==> o == Done && acc in old(timers)
      ensures failed <==> o != Done
    {
      removed := acc in timers;
      if o != NotDone {
        timers := timers - {acc};
      }
      if o != Done {
        return false, true;
      }
      if del != NotDone {
        meta := meta - {acc};
      }
      failed := false;
    }

    method Apply(a: Action, at: int, f: Fate)
      modifies this
      ensures State() == ApplyOne(old(State()), a, at, f)
    {
      match a {
        case SetDesired(acc, want) =>
          if f.call != NotDone {
            facts := facts + [Power(acc, want, clock, false)];
          }
          if f.call == Done {
            current := current[acc := want];
          }
        case ScheduleOff(acc, host, delay) =>
          ScheduleOff(acc, Meta(host, at), at + delay, f.call);
        case CancelOff(acc) =>
          var _, _ := CancelOff(acc, f.call, f.del);
        case StopHost(_) =>
        case SafetyVent(acc) =>
          if f.call == NotDone {
            bare := bare[acc := clock + VENT_WINDOW];
          } else {
            vent := vent[acc := clock + VENT_WINDOW];
          }
          facts := facts + [Vented(acc, clock)];
      }
    }

    method Execute(actions: seq<Action>, at: int, fate: nat -> Fate)
      modifies this
      ensures State() == ApplyAll(old(State()), actions, at, fate)
    {
      for i := 0 to |actions|
        invariant State() == ApplyAll(old(State()), actions[..i], at, fate)
      {
        assert actions[..i + 1][..i] == actions[..i];
        Apply(actions[i], at, fate(i));
      }
      assert actions[..|actions|] == actions;
    }

    method RememberWorkState(host: string, evt: Event)
      modifies `prevWork
      ensures Memory() == Remember(old(Memory()), host, evt)
    {
      if evt.telemetry {
        prevWork := prevWork[host := evt.workState];
      }
    }

    method Handle(d: Delivery, fate: nat -> Fate)
      modifies this
      ensures State() == HandleAll(old(State()), cfg, d, fate)
    {
      if |d.ps| == 0 {
        RememberWorkState(d.evt.sn, d.evt);
        return;
      }
      var host := d.ps[0].host;
      if d.fromAcc && d.contextFails {
        return;
      }
      if IsStale(d.evt.recvMs, d.at) {
        RememberWorkState(host, d.evt);
        return;
      }
      if !d.evt.telemetry && d.duplicate {
        return;
      }
      var v := ViewOf(Memory(), cfg, host, d.ps, d.at, d.rules, d.hostWork, d.ttls);
      if host !in prevWork && d.hostWork.Some? {
        prevWork := prevWork[host := d.hostWork.value];
      }
      var actions := DecideActions(d.evt, d.ps, v);
      RememberWorkState(host, d.evt);
      if !d.evt.telemetry && d.evt.code == "JOB_START" {
        lastStart := lastStart[host := d.at];
      }
      Execute(actions, d.at, fate);
    }

    /** ZREM of the members found due, each once: only an answered removal makes this round the owner,
        and a removal whose answer is lost leaves the member to nobody. */
    method PopDue(members: seq<string>, replies: seq<Call>) returns (owned: seq<string>)
      requires |replies| == |members| && forall i, j :: 0 <= i < j < |members| ==> members[i] != members[j]
      modifies `timers
      ensures timers == old(timers) - Removed(members, replies, |members|)
      ensures forall i :: 0 <= i < |members| ==> (members[i] in owned <==> members[i] in old(timers) && replies[i] == Done)
      ensures forall m :: m in owned ==> m in members
    {
      owned := [];
      for i := 0 to |members|
        invariant timers == old(timers) - Removed(members, replies, i)
        invariant forall k :: 0 <= k < i ==> (members[k] in owned <==> members[k] in old(timers) && replies[k] == Done)
        invariant forall m :: m in owned ==> m in members[..i]
      {
        var had := members[i] in timers;
        assert members[i] !in Removed(members, replies, i);
        if replies[i] != NotDone {
          timers := timers - {members[i]};
        }
        if had && replies[i] == Done {
          owned := owned + [members[i]];
        }
      }
    }

    method Fire(acc: string, at: int, c: Calls)
      modifies this
      ensures State() == FireOff(old(State()), cfg, acc, at, c)
    {
      var m := Meta("", 0);
      if c.got && acc in meta {
        m := meta[acc];
      }
      if c.del != NotDone {
        meta := meta - {acc};
      }
      if !cfg.allowOff {
        return;
      }
      if m.host in lastStart && lastStart[m.host] >= m.at {
        return;
      }
      if c.reading.Some? && c.reading.value > 0 {
        ScheduleOff(acc, m, at + c.reading.value * 1000, c.put);
        return;
      }
      if c.send != NotDone {
        facts := facts + [Power(acc, OFF, clock, true)];
      }
      if c.send != Done {
        ScheduleOff(acc, m, at + RETRY_WAIT, c.put);
        return;
      }
      current := current[acc := OFF];
    }
  }

  /** The first n members whose removal has taken effect. */
  function Removed(members: seq<string>, replies: seq<Call>, n: nat): set<string>
    requires n <= |members| == |replies|
  {
    set i | 0 <= i < n && replies[i] != NotDone :: members[i]
  }

  // ---- what each step does to memory, Redis and the outside

  /** A desired state that may have reached the accessory is a fact; only an answered one is remembered. */
  lemma SetMeans(e: Eng, acc: string, want: Desired, at: int, f: Fate)
    ensures var post := ApplyOne(e, SetDesired(acc, want), at, f);
            && post.mem == Mem(e.mem.prevWork, e.mem.lastStart,
                               if f.call == Done then e.mem.current[acc := want] else e.mem.current)
            && post.net == Net(e.net.clock, e.net.vent, e.net.bare, e.net.timers, e.net.meta,
                               e.net.facts + if f.call == NotDone then [] else [Power(acc, want, e.net.clock, false)])
  {
  }

  /** An off is due in whole seconds, and its data says which host and when. */
  lemma ScheduleMeans(e: Eng, acc: string, host: string, delay: int, at: int, f: Fate)
    ensures ApplyOne(e, ScheduleOff(acc, host, delay), at, f)
         == if f.call == NotDone then e
            else Eng(e.mem, Net(e.net.clock, e.net.vent, e.net.bare, e.net.timers[acc := (at + delay) / 1000],
                                e.net.meta[acc := Meta(host, at)], e.net.facts))
  {
  }

  /** A cancelled off loses its timer, and its data when the removal was answered. */
  lemma CancelMeans(e: Eng, acc: string, at: int, f: Fate)
    ensures var post := ApplyOne(e, CancelOff(acc), at, f);
            && post.mem == e.mem
            && post.net == Net(e.net.clock, e.net.vent, e.net.bare,
                               if f.call == NotDone then e.net.timers else e.net.timers - {acc},
                               if f.call == Done && f.del != NotDone then e.net.meta - {acc} else e.net.meta, e.net.facts)
  {
  }

  /** A vent lasts ten minutes from now, with a key or, when that is not written, without. */
  lemma VentMeans(e: Eng, acc: string, at: int, f: Fate)
    ensures var post := ApplyOne(e, SafetyVent(acc), at, f);
            && post.mem == e.mem
            && post.net == Net(e.net.clock,
                               if f.call == NotDone then e.net.vent else e.net.vent[acc := e.net.clock + 600_000],
                               if f.call == NotDone then e.net.bare[acc := e.net.clock + 600_000] else e.net.bare,
                               e.net.timers, e.net.meta, e.net.facts + [Vented(acc, e.net.clock)])
  {
  }

  /** The data of a timer that fires is used up unless its removal failed. */
  function WithoutMeta(n: Net, acc: string, del: Call): Net {
    Net(n.clock, n.vent, n.bare, n.timers, if del == NotDone then n.meta else n.meta - {acc}, n.facts)
  }

  function TimerAgain(n: Net, acc: string, m: Meta, due: int, put: Call): Net {
    if put == NotDone then n else Net(n.clock, n.vent, n.bare, n.timers[acc := due / 1000], n.meta[acc := m], n.facts)
  }

  /** A timer ends when offs are not allowed, or when its host has started since it was scheduled. */
  lemma FireEnds(e: Eng, cfg: Config, acc: string, at: int, c: Calls, m: Meta)
    requires m == if c.got && acc in e.net.meta then e.net.meta[acc] else Meta("", 0)
    requires !cfg.allowOff || (m.host in e.mem.lastStart && m.at <= e.mem.lastStart[m.host])
    ensures FireOff(e, cfg, acc, at, c) == Eng(e.mem, WithoutMeta(e.net, acc, c.del))
  {
  }

  /** Otherwise a vent window puts it back for the window's end; else the accessory is switched off, and a
      send without an answer is tried again in ten seconds. */
  lemma FireGoesOn(e: Eng, cfg: Config, acc: string, at: int, c: Calls, m: Meta)
    requires m == if c.got && acc in e.net.meta then e.net.meta[acc] else Meta("", 0)
    requires cfg.allowOff && !(m.host in e.mem.lastStart && m.at <= e.mem.lastStart[m.host])
    ensures var n := WithoutMeta(e.net, acc, c.del);
            var sent := n.(facts := n.facts + [Power(acc, Desired(false, 0), n.clock, true)]);
            var post := FireOff(e, cfg, acc, at, c);
            && (c.reading.Some? && c.reading.value > 0 ==>
                  post == Eng(e.mem, TimerAgain(n, acc, m, at + 1000 * c.reading.value, c.put)))
            && ((c.reading.None? || c.reading.value == 0) ==>
                  && (c.send == Done ==>
                        post == Eng(Mem(e.mem.prevWork, e.mem.lastStart, e.mem.current[acc := Desired(false, 0)]), sent))
                  && (c.send == Unanswered ==> post == Eng(e.mem, TimerAgain(sent, acc, m, at + 10_000, c.put)))
                  && (c.send == NotDone ==> post == Eng(e.mem, TimerAgain(n, acc, m, at + 10_000, c.put))))
  {
  }

  /** An event of an unpaired device, or one that is out of date, is at most remembered; one without its
      pairings, or seen before, is not even that. */
  lemma HandleIgnores(m: Mem, cfg: Config, d: Delivery)
    ensures var told := Mem(m.prevWork[(if d.ps == [] then d.evt.sn else d.ps[0].host) := d.evt.workState], m.lastStart, m.current);
            var stale := d.evt.recvMs > 0 && d.at > d.evt.recvMs + 60_000;
            && (d.ps == [] ==> HandleDecision(m, cfg, d) == (if d.evt.telemetry then told else m, []))
            && (d.ps != [] && d.fromAcc && d.contextFails ==> HandleDecision(m, cfg, d) == (m, []))
            && (d.ps != [] && !(d.fromAcc && d.contextFails) && stale ==>
                  HandleDecision(m, cfg, d) == (if d.evt.telemetry then told else m, []))
            && (d.ps != [] && !(d.fromAcc && d.contextFails) && !stale && !d.evt.telemetry && d.duplicate ==>
                  HandleDecision(m, cfg, d) == (m, []))
  {
  }

  /** Any other event is decided on what was known before it, and then remembered: its work state, or, for a
      host not heard of before, the shadow's, and a job start. */
  lemma HandleDecides(m: Mem, cfg: Config, d: Delivery, host: string)
    requires d.ps != [] && host == d.ps[0].host && !(d.fromAcc && d.contextFails) && (d.evt.telemetry || !d.duplicate)
    requires d.evt.recvMs <= 0 || d.at <= d.evt.recvMs + 60_000
    ensures var post := HandleDecision(m, cfg, d);
            var start := !d.evt.telemetry && d.evt.code == "JOB_START";
            && post.0.lastStart == (if start then m.lastStart[host := d.at] else m.lastStart)
            && post.0.current == m.current
            && post.0.prevWork == (if d.evt.telemetry then m.prevWork[host := d.evt.workState]
                                   else if host !in m.prevWork && d.hostWork.Some? then m.prevWork[host := d.hostWork.value]
                                   else m.prevWork)
  {
    if d.evt.telemetry && host !in m.prevWork && d.hostWork.Some? {
      assert m.prevWork[host := d.hostWork.value][host := d.evt.workState] == m.prevWork[host := d.evt.workState];
    }
  }

  /** What it is decided on. */
  lemma HandleSees(m: Mem, cfg: Config, d: Delivery, host: string, v: View)
    requires d.ps != [] && host == d.ps[0].host && !(d.fromAcc && d.contextFails) && (d.evt.telemetry || !d.duplicate)
    requires d.evt.recvMs <= 0 || d.at <= d.evt.recvMs + 60_000
    requires v.now == d.at && v.allowOff == cfg.allowOff && v.stopOnFire == cfg.stopOnFire
    requires v.defaultLevel == cfg.defaultLevel && v.rules == d.rules && v.hostWork == d.hostWork && v.current == m.current
    requires v.prevWork == (if host in m.prevWork then Some(m.prevWork[host]) else d.hostWork)
    requires v.lastStart == (if host in m.lastStart then Some(m.lastStart[host]) else None)
    requires forall acc :: acc in v.ventUntil <==> acc in d.ttls && d.ttls[acc] > 0 && exists p :: p in d.ps && p.acc == acc
    requires forall acc :: acc in v.ventUntil ==> v.ventUntil[acc] == d.at + 1000 * d.ttls[acc]
    ensures HandleDecision(m, cfg, d).1 == Decide(d.evt, d.ps, v)
  {
    assert v.ventUntil == VentEnds(d.ttls, d.ps, d.at);
    assert v == ViewOf(m, cfg, host, d.ps, d.at, d.rules, d.hostWork, d.ttls);
  }

  /** Exactly the members whose removal was done, answered or not, are gone. */
  lemma RemovedMeans(members: seq<string>, replies: seq<Call>, i: nat)
    requires i < |members| == |replies| && forall j, k :: 0 <= j < k < |members| ==> members[j] != members[k]
    ensures members[i] in Removed(members, replies, |members|) <==> replies[i] == Done || replies[i] == Unanswered
    ensures forall m :: m in Removed(members, replies, |members|) ==> m in members
  {
  }
}
