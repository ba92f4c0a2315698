/** The rule table that turns a host or accessory event into accessory actions. All times
    are milliseconds. */
module LinkageRules {
  import opened Basics

  datatype Pairing = Pairing(host: string, acc: string, linkage: bool, offDelay: int)

  datatype Desired = Desired(on: bool, level: int)

  datatype Action =
    | SetDesired(acc: string, want: Desired)
    | ScheduleOff(acc: string, host: string, delay: int)
    | CancelOff(acc: string)
    | StopHost(host: string)
    | SafetyVent(acc: string)

  datatype Event = Event(sn: string, telemetry: bool, code: string, material: string, workState: int, recvMs: int)

  /** What the engine knows when it decides; work states and starts are those of the event's host. */
  datatype View = View(
    now: int, allowOff: bool, stopOnFire: bool, prevWork: Option<int>, lastStart: Option<int>,
    ventUntil: map<string, int>, current: map<string, Desired>, hostWork: Option<int>,
    rules: map<string, int>, defaultLevel: int)

  const VENT_WINDOW := 600_000
  const MIN_DELAY := 60_000
  const MAX_DELAY := 600_000
  const MAX_LEVEL := 4
  const START_DEBOUNCE := 10_000
  const MAX_AGE := 60_000
  const FIRE := "FIRE_SUPPRESSED"
  const SMOKE := "SMOKE_HIGH"

  predicate IsHostSafety(code: string) {
    code in ["FLAME_DETECTED", "OVER_TEMP", "TILT", "ESTOP", "WATER_FLOW"]
  }

  /** A legal level of the material, else the configured default when legal, else level 2. */
  function LevelFor(rules: map<string, int>, material: string, default: int): (level: int)
    ensures 1 <= level <= MAX_LEVEL
    ensures material in rules && 1 <= rules[material] <= MAX_LEVEL ==> level == rules[material]
    ensures !(material in rules && 1 <= rules[material] <= MAX_LEVEL) && 1 <= default <= MAX_LEVEL ==> level == default
    ensures !(material in rules && 1 <= rules[material] <= MAX_LEVEL) && !(1 <= default <= MAX_LEVEL) ==> level == 2
  {
    var def := if default < 1 || default > MAX_LEVEL then 2 else default;
    if material in rules && 1 <= rules[material] <= MAX_LEVEL then rules[material] else def
  }

  /** The legal delay nearest to the configured seconds. */
  function ClampOffDelay(sec: int): (d: int)
    ensures MIN_DELAY <= d <= MAX_DELAY
    ensures MIN_DELAY <= sec * 1000 <= MAX_DELAY ==> d == sec * 1000
    ensures sec * 1000 < MIN_DELAY ==> d == MIN_DELAY
    ensures sec * 1000 > MAX_DELAY ==> d == MAX_DELAY
  {
    var d := sec * 1000;
    if d < MIN_DELAY then MIN_DELAY else if d > MAX_DELAY then MAX_DELAY else d
  }

  predicate IsStale(recvMs: int, now: int) {
    recvMs > 0 && now - recvMs > MAX_AGE
  }

  predicate Venting(v: View, acc: string) {
    acc in v.ventUntil && v.now < v.ventUntil[acc]
  }

  predicate IsCurrent(v: View, acc: string, want: Desired) {
    acc in v.current && v.current[acc] == want
  }

  function SetUnless(v: View, acc: string, want: Desired): seq<Action> {
    if IsCurrent(v, acc, want) then [] else [SetDesired(acc, want)]
  }

  function StartOne(p: Pairing, v: View, level: int): seq<Action> {
    if !p.linkage then []
    else [CancelOff(p.acc)] + SetUnless(v, p.acc, Desired(true, if Venting(v, p.acc) then MAX_LEVEL else level))
  }

  function StartAll(ps: seq<Pairing>, v: View, level: int): seq<Action> {
    if ps == [] then [] else StartAll(ps[..|ps| - 1], v, level) + StartOne(ps[|ps| - 1], v, level)
  }

  function OffDelay(p: Pairing, v: View): int {
    var delay := ClampOffDelay(p.offDelay);
    if p.acc in v.ventUntil && v.ventUntil[p.acc] - v.now > delay then v.ventUntil[p.acc] - v.now else delay
  }

  function EndOne(p: Pairing, v: View): seq<Action> {
    if p.linkage && v.allowOff then [ScheduleOff(p.acc, p.host, OffDelay(p, v))] else []
  }

  function EndAll(ps: seq<Pairing>, v: View): seq<Action> {
    if ps == [] then [] else EndAll(ps[..|ps| - 1], v) + EndOne(ps[|ps| - 1], v)
  }

  function VentOne(acc: string, v: View): seq<Action> {
    [CancelOff(acc), SafetyVent(acc)] + SetUnless(v, acc, Desired(true, MAX_LEVEL))
  }

  /** Vent every accessory but the one that reported. */
  function VentAll(ps: seq<Pairing>, v: View, except: Option<string>): seq<Action> {
    if ps == [] then []
    else
      var p := ps[|ps| - 1];
      VentAll(ps[..|ps| - 1], v, except) + if except == Some(p.acc) then [] else VentOne(p.acc, v)
  }

  predicate IsPaired(ps: seq<Pairing>, acc: string) {
    exists p :: p in ps && p.acc == acc
  }

  predicate StopsHost(v: View) {
    v.stopOnFire && v.hostWork != Some(0)
  }

  function DecideTelemetry(evt: Event, ps: seq<Pairing>, v: View): seq<Action> {
    if v.prevWork.None? || v.prevWork.value == evt.workState then []
    else if evt.workState == 2 then
      if v.lastStart.Some? && v.now - v.lastStart.value < START_DEBOUNCE then []
      else StartAll(ps, v, LevelFor(v.rules, "", v.defaultLevel))
    else if evt.workState == 0 then EndAll(ps, v)
    else []
  }

  function Decide(evt: Event, ps: seq<Pairing>, v: View): seq<Action> {
    if ps == [] || IsStale(evt.recvMs, v.now) then []
    else if IsPaired(ps, evt.sn) then
      if evt.code == FIRE then
        (if StopsHost(v) then [StopHost(ps[0].host)] else []) + VentAll(ps, v, Some(evt.sn))
      else if evt.code == SMOKE then VentOne(evt.sn, v)
      else []
    else if !evt.telemetry && IsHostSafety(evt.code) then VentAll(ps, v, None)
    else if !evt.telemetry && evt.code == "JOB_START" then StartAll(ps, v, LevelFor(v.rules, evt.material, v.defaultLevel))
    else if evt.telemetry then DecideTelemetry(evt, ps, v)
    else if evt.code == "JOB_DONE" || evt.code == "JOB_FAIL" then EndAll(ps, v)
    else []
  }

  // ---- the loops

  method FindAcc(ps: seq<Pairing>, sn: string) returns (found: bool)
    ensures found <==> IsPaired(ps, sn)
  {
    for i := 0 to |ps|
      invariant forall k :: 0 <= k < i ==> ps[k].acc != sn
    {
      if ps[i].acc == sn {
        assert ps[i] in ps;
        return true;
      }
    }
    return false;
  }

  lemma StartSnoc(ps: seq<Pairing>, i: nat, v: View, level: int)
    requires i < |ps|
    ensures StartAll(ps[..i + 1], v, level) == StartAll(ps[..i], v, level) + StartOne(ps[i], v, level)
  {
    assert ps[..i + 1][..i] == ps[..i];
  }

  method StartActions(ps: seq<Pairing>, v: View, level: int) returns (out: seq<Action>)
    ensures out == StartAll(ps, v, level)
  {
    out := [];
    for i := 0 to |ps|
      invariant out == StartAll(ps[..i], v, level)
    {
      StartSnoc(ps, i, v, level);
      var p := ps[i];
      if !p.linkage {
        continue;
      }
      var lv := level;
      if p.acc in v.ventUntil && v.now < v.ventUntil[p.acc] {
        lv := MAX_LEVEL;
      }
      out := out + [CancelOff(p.acc)];
      var want := Desired(true, lv);
      if p.acc in v.current && v.current[p.acc] == want {
        continue;
      }
      out := out + [SetDesired(p.acc, want)];
    }
    assert ps[..|ps|] == ps;
  }

  lemma {:induction false} NothingWhenOffIsOff(ps: seq<Pairing>, v: View)
    requires !v.allowOff
    ensures EndAll(ps, v) == []
  {
    if ps != [] {
      NothingWhenOffIsOff(ps[..|ps| - 1], v);
    }
  }

  method EndActions(ps: seq<Pairing>, v: View) returns (out: seq<Action>)
    ensures out == EndAll(ps, v)
  {
    out := [];
    if !v.allowOff {
      NothingWhenOffIsOff(ps, v);
      return;
    }
    for i := 0 to |ps|
      invariant out == EndAll(ps[..i], v)
    {
      assert ps[..i + 1][..i] == ps[..i];
      var p := ps[i];
      if !p.linkage {
        continue;
      }
      var delay := ClampOffDelay(p.offDelay);
      if p.acc in v.ventUntil && v.ventUntil[p.acc] - v.now > delay {
        delay := v.ventUntil[p.acc] - v.now;
      }
      out := out + [ScheduleOff(p.acc, p.host, delay)];
    }
    assert ps[..|ps|] == ps;
  }

  method VentActions(ps: seq<Pairing>, v: View, except: Option<string>) returns (out: seq<Action>)
    ensures out == VentAll(ps, v, except)
  {
    out := [];
    for i := 0 to |ps|
      invariant out == VentAll(ps[..i], v, except)
    {
      assert ps[..i + 1][..i] == ps[..i];
      if except == Some(ps[i].acc) {
        continue;
      }
      out := out + VentOne(ps[i].acc, v);
    }
    assert ps[..|ps|] == ps;
  }

  method DecideActions(evt: Event, ps: seq<Pairing>, v: View) returns (out: seq<Action>)
    ensures out == Decide(evt, ps, v)
  {
    if |ps| == 0 || IsStale(evt.recvMs, v.now) {
      return [];
    }
    var fromAcc := FindAcc(ps, evt.sn);
    if fromAcc {
      if evt.code == FIRE {
        out := VentActions(ps, v, Some(evt.sn));
        if v.stopOnFire && v.hostWork != Some(0) {
          out := [StopHost(ps[0].host)] + out;
        } else {
          out := [] + out;
        }
        return;
      }
      return if evt.code == SMOKE then VentOne(evt.sn, v) else [];
    }
    if !evt.telemetry {
      if IsHostSafety(evt.code) {
        out := VentActions(ps, v, None);
      } else if evt.code == "JOB_START" {
        out := StartActions(ps, v, LevelFor(v.rules, evt.material, v.defaultLevel));
      } else if evt.code == "JOB_DONE" || evt.code == "JOB_FAIL" {
        out := EndActions(ps, v);
      } else {
        out := [];
      }
      return;
    }
    if v.prevWork.None? || v.prevWork.value == evt.workState {
      return [];
    }
    if evt.workState == 2 {
      if v.lastStart.Some? && v.now - v.lastStart.value < START_DEBOUNCE {
        return [];
      }
      out := StartActions(ps, v, LevelFor(v.rules, "", v.defaultLevel));
    } else if evt.workState == 0 {
      out := EndActions(ps, v);
    } else {
      out := [];
    }
  }

  // ---- what the table means

  lemma {:induction false} StartMembers(ps: seq<Pairing>, v: View, level: int, a: Action)
    ensures a in StartAll(ps, v, level) <==> exists p :: p in ps && a in StartOne(p, v, level)
  {
    if ps != [] {
      StartMembers(ps[..|ps| - 1], v, level, a);
      assert ps == ps[..|ps| - 1] + [ps[|ps| - 1]];
    }
  }

  lemma {:induction false} EndMembers(ps: seq<Pairing>, v: View, a: Action)
    ensures a in EndAll(ps, v) <==> exists p :: p in ps && a in EndOne(p, v)
  {
    if ps != [] {
      EndMembers(ps[..|ps| - 1], v, a);
      assert ps == ps[..|ps| - 1] + [ps[|ps| - 1]];
    }
  }

  lemma {:induction false} VentMembers(ps: seq<Pairing>, v: View, except: Option<string>, a: Action)
    ensures a in VentAll(ps, v, except) <==> exists p :: p in ps && except != Some(p.acc) && a in VentOne(p.acc, v)
  {
    if ps != [] {
      VentMembers(ps[..|ps| - 1], v, except, a);
      assert ps == ps[..|ps| - 1] + [ps[|ps| - 1]];
    }
  }

  /** The report reached the bridge at most a minute ago, or nobody knows when. */
  predicate Recent(evt: Event, v: View) {
    evt.recvMs <= 0 || v.now <= evt.recvMs + 60_000
  }

  predicate IsHostAlarm(code: string) {
    code == "FLAME_DETECTED" || code == "OVER_TEMP" || code == "TILT" || code == "ESTOP" || code == "WATER_FLOW"
  }

  /** An event of a host itself, which has accessories. */
  predicate OfHost(evt: Event, ps: seq<Pairing>, v: View) {
    ps != [] && Recent(evt, v) && forall p :: p in ps ==> p.acc != evt.sn
  }

  /** The level at which an event starts the linked accessories of its host: a job start, with the
      level of its material, or a change of the work state to working that no start of the last ten
      seconds has announced. */
  function Starts(evt: Event, ps: seq<Pairing>, v: View): Option<int> {
    if !OfHost(evt, ps, v) then None
    else if !evt.telemetry then
      if evt.code == "JOB_START" then Some(LevelFor(v.rules, evt.material, v.defaultLevel)) else None
    else if evt.workState == 2 && v.prevWork.Some? && v.prevWork.value != 2
            && (v.lastStart.None? || v.lastStart.value + 10_000 <= v.now)
    then Some(LevelFor(v.rules, "", v.defaultLevel))
    else None
  }

  predicate Ends(evt: Event, ps: seq<Pairing>, v: View) {
    && OfHost(evt, ps, v)
    && (if evt.telemetry then evt.workState == 0 && v.prevWork.Some? && v.prevWork.value != 0
        else evt.code == "JOB_DONE" || evt.code == "JOB_FAIL")
  }

  /** The accessories an event vents: the others on fire, the reporter on smoke, all on a host alarm. */
  predicate Vents(evt: Event, ps: seq<Pairing>, v: View, acc: string) {
    && IsPaired(ps, acc) && Recent(evt, v)
    && (if IsPaired(ps, evt.sn) then (evt.code == "FIRE_SUPPRESSED" && acc != evt.sn) || (evt.code == "SMOKE_HIGH" && acc == evt.sn)
        else !evt.telemetry && IsHostAlarm(evt.code))
  }

  lemma StartsOnly(ps: seq<Pairing>, v: View, level: int, a: Action)
    requires a.SafetyVent? || a.ScheduleOff?
    ensures a !in StartAll(ps, v, level) && (a.SafetyVent? ==> a !in EndAll(ps, v))
  {
    StartMembers(ps, v, level, a);
    EndMembers(ps, v, a);
  }

  lemma VentVents(ps: seq<Pairing>, v: View, except: Option<string>, acc: string)
    ensures SafetyVent(acc) in VentAll(ps, v, except) <==> IsPaired(ps, acc) && except != Some(acc)
  {
    VentMembers(ps, v, except, SafetyVent(acc));
  }

  lemma VentNeverOffs(ps: seq<Pairing>, v: View, except: Option<string>, a: Action)
    requires a.ScheduleOff?
    ensures a !in VentAll(ps, v, except)
  {
    VentMembers(ps, v, except, a);
  }

  /** A vent is opened for exactly the accessories the event vents, whether or not linkage is on. */
  lemma VentExact(evt: Event, ps: seq<Pairing>, v: View, acc: string)
    ensures SafetyVent(acc) in Decide(evt, ps, v) <==> Vents(evt, ps, v, acc)
  {
    if ps == [] || IsStale(evt.recvMs, v.now) {
      assert Decide(evt, ps, v) == [];
    } else if IsPaired(ps, evt.sn) {
      VentVents(ps, v, Some(evt.sn), acc);
    } else if !evt.telemetry && IsHostSafety(evt.code) {
      VentVents(ps, v, None, acc);
    } else {
      StartsOnly(ps, v, LevelFor(v.rules, evt.material, v.defaultLevel), SafetyVent(acc));
      StartsOnly(ps, v, LevelFor(v.rules, "", v.defaultLevel), SafetyVent(acc));
    }
  }

  lemma EndOffs(ps: seq<Pairing>, v: View, acc: string, host: string, delay: int)
    ensures ScheduleOff(acc, host, delay) in EndAll(ps, v)
       <==> v.allowOff && exists p :: p in ps && p.linkage && p.acc == acc && p.host == host && delay == OffDelay(p, v)
  {
    EndMembers(ps, v, ScheduleOff(acc, host, delay));
  }

  /** An off is scheduled exactly for the linked accessories of a host that stopped working, when offs
      are allowed, and never before the end of a vent window. */
  lemma OffExact(evt: Event, ps: seq<Pairing>, v: View, acc: string, host: string, delay: int)
    ensures ScheduleOff(acc, host, delay) in Decide(evt, ps, v)
       <==> v.allowOff && Ends(evt, ps, v)
            && exists p :: p in ps && p.linkage && p.acc == acc && p.host == host && delay == OffDelay(p, v)
    ensures ScheduleOff(acc, host, delay) in Decide(evt, ps, v) && acc in v.ventUntil ==> v.now + delay >= v.ventUntil[acc]
  {
    var a := ScheduleOff(acc, host, delay);
    EndOffs(ps, v, acc, host, delay);
    if ps == [] || IsStale(evt.recvMs, v.now) {
      assert Decide(evt, ps, v) == [];
    } else if IsPaired(ps, evt.sn) {
      VentNeverOffs(ps, v, Some(evt.sn), a);
    } else if Ends(evt, ps, v) {
      assert Decide(evt, ps, v) == EndAll(ps, v);
    } else {
      VentNeverOffs(ps, v, None, a);
      StartsOnly(ps, v, LevelFor(v.rules, evt.material, v.defaultLevel), a);
      StartsOnly(ps, v, LevelFor(v.rules, "", v.defaultLevel), a);
    }
  }

  predicate IsLinked(ps: seq<Pairing>, acc: string) {
    exists p :: p in ps && p.linkage && p.acc == acc
  }

  lemma StartSets(ps: seq<Pairing>, v: View, level: int, acc: string, want: Desired)
    ensures SetDesired(acc, want) in StartAll(ps, v, level)
       <==> !IsCurrent(v, acc, want) && IsLinked(ps, acc) && want == Desired(true, if Venting(v, acc) then MAX_LEVEL else level)
  {
    StartMembers(ps, v, level, SetDesired(acc, want));
  }

  lemma VentSets(ps: seq<Pairing>, v: View, except: Option<string>, acc: string, want: Desired)
    ensures SetDesired(acc, want) in VentAll(ps, v, except)
       <==> !IsCurrent(v, acc, want) && IsPaired(ps, acc) && except != Some(acc) && want == Desired(true, MAX_LEVEL)
  {
    VentMembers(ps, v, except, SetDesired(acc, want));
  }

  /** The actions for an event of a host itself. */
  lemma DecideOfHost(evt: Event, ps: seq<Pairing>, v: View)
    requires OfHost(evt, ps, v)
    ensures Starts(evt, ps, v).Some? ==> Decide(evt, ps, v) == StartAll(ps, v, Starts(evt, ps, v).value)
    ensures Starts(evt, ps, v).None? && !evt.telemetry && IsHostAlarm(evt.code) ==> Decide(evt, ps, v) == VentAll(ps, v, None)
    ensures Starts(evt, ps, v).None? && (evt.telemetry || !IsHostAlarm(evt.code)) ==>
              Decide(evt, ps, v) == [] || Decide(evt, ps, v) == EndAll(ps, v)
  {
  }

  lemma NotBoth(evt: Event, ps: seq<Pairing>, v: View, acc: string)
    ensures Starts(evt, ps, v).Some? ==> !Vents(evt, ps, v, acc)
  {
  }

  lemma SetDecided(evt: Event, ps: seq<Pairing>, v: View, acc: string, want: Desired)
    ensures SetDesired(acc, want) in Decide(evt, ps, v)
       <==> !IsCurrent(v, acc, want)
            && (  (Vents(evt, ps, v, acc) && want == Desired(true, MAX_LEVEL))
               || (Starts(evt, ps, v).Some? && IsLinked(ps, acc)
                   && want == Desired(true, if Venting(v, acc) then MAX_LEVEL else Starts(evt, ps, v).value)))
  {
    EndMembers(ps, v, SetDesired(acc, want));
    NotBoth(evt, ps, v, acc);
    if ps == [] || IsStale(evt.recvMs, v.now) {
      assert Decide(evt, ps, v) == [] && !Vents(evt, ps, v, acc);
    } else if IsPaired(ps, evt.sn) {
      VentSets(ps, v, Some(evt.sn), acc, want);
    } else {
      DecideOfHost(evt, ps, v);
      VentSets(ps, v, None, acc, want);
      if Starts(evt, ps, v).Some? {
        StartSets(ps, v, Starts(evt, ps, v).value, acc, want);
      }
    }
  }

  /** An accessory is set exactly when it is vented (level 4) or its linked host starts (level 4 inside
      a vent window), and it is not there yet; it is only ever switched on. */
  lemma SetExact(evt: Event, ps: seq<Pairing>, v: View, acc: string, want: Desired)
    ensures SetDesired(acc, want) in Decide(evt, ps, v)
       <==> !(acc in v.current && v.current[acc] == want)
            && (  (Vents(evt, ps, v, acc) && want == Desired(true, 4))
               || (Starts(evt, ps, v).Some? && IsLinked(ps, acc)
                   && want == Desired(true, if acc in v.ventUntil && v.now < v.ventUntil[acc] then 4 else Starts(evt, ps, v).value)))
  {
    SetDecided(evt, ps, v, acc, want);
  }

  lemma NeverStops(ps: seq<Pairing>, v: View, level: int, except: Option<string>, host: string)
    ensures StopHost(host) !in StartAll(ps, v, level) && StopHost(host) !in EndAll(ps, v) && StopHost(host) !in VentAll(ps, v, except)
  {
    StartMembers(ps, v, level, StopHost(host));
    EndMembers(ps, v, StopHost(host));
    VentMembers(ps, v, except, StopHost(host));
  }

  /** A host is stopped, before anything else is done, exactly when one of its accessories reports a
      fire, in a report not older than a minute, unless the host is known to be idle or stopping is off. */
  lemma StopExact(evt: Event, ps: seq<Pairing>, v: View, host: string)
    ensures StopHost(host) in Decide(evt, ps, v)
       <==> ps != [] && host == ps[0].host && IsPaired(ps, evt.sn) && evt.code == "FIRE_SUPPRESSED"
            && (evt.recvMs <= 0 || v.now <= evt.recvMs + 60_000) && v.stopOnFire && v.hostWork != Some(0)
    ensures StopHost(host) in Decide(evt, ps, v) ==> Decide(evt, ps, v)[0] == StopHost(host)
  {
    NeverStops(ps, v, LevelFor(v.rules, evt.material, v.defaultLevel), Some(evt.sn), host);
    NeverStops(ps, v, LevelFor(v.rules, "", v.defaultLevel), None, host);
  }

  lemma StartCancels(ps: seq<Pairing>, v: View, level: int, acc: string)
    ensures CancelOff(acc) in StartAll(ps, v, level) <==> IsLinked(ps, acc)
    ensures CancelOff(acc) !in EndAll(ps, v)
  {
    StartMembers(ps, v, level, CancelOff(acc));
    EndMembers(ps, v, CancelOff(acc));
  }

  lemma VentCancels(ps: seq<Pairing>, v: View, except: Option<string>, acc: string)
    ensures CancelOff(acc) in VentAll(ps, v, except) <==> IsPaired(ps, acc) && except != Some(acc)
  {
    VentMembers(ps, v, except, CancelOff(acc));
  }

  /** A waiting off is cancelled exactly for the accessories that are vented, and for the linked ones
      of a host that starts, whether or not they are on already. */
  lemma CancelExact(evt: Event, ps: seq<Pairing>, v: View, acc: string)
    ensures CancelOff(acc) in Decide(evt, ps, v)
       <==> Vents(evt, ps, v, acc) || (Starts(evt, ps, v).Some? && IsLinked(ps, acc))
  {
    NotBoth(evt, ps, v, acc);
    if ps == [] || IsStale(evt.recvMs, v.now) {
      assert Decide(evt, ps, v) == [] && !Vents(evt, ps, v, acc);
    } else if IsPaired(ps, evt.sn) {
      VentCancels(ps, v, Some(evt.sn), acc);
    } else {
      DecideOfHost(evt, ps, v);
      VentCancels(ps, v, None, acc);
      StartCancels(ps, v, if Starts(evt, ps, v).Some? then Starts(evt, ps, v).value else 0, acc);
    }
  }

  lemma PairedMeans(ps: seq<Pairing>, acc: string)
    ensures IsPaired(ps, acc) <==> exists i :: 0 <= i < |ps| && ps[i].acc == acc
  {
    if IsPaired(ps, acc) {
      var p :| p in ps && p.acc == acc;
      var i :| 0 <= i < |ps| && ps[i] == p;
    }
  }

  /** A delay is the pairing's seconds, at least one and at most ten minutes, or the rest of a vent window
      that lasts longer than that. */
  lemma OffDelayMeans(p: Pairing, v: View)
    ensures var own := if p.offDelay < 60 then 60_000 else if p.offDelay > 600 then 600_000 else 1000 * p.offDelay;
            && (p.acc !in v.ventUntil ==> OffDelay(p, v) == own)
            && (p.acc in v.ventUntil && v.ventUntil[p.acc] <= v.now + own ==> OffDelay(p, v) == own)
            && (p.acc in v.ventUntil && v.ventUntil[p.acc] > v.now + own ==> v.now + OffDelay(p, v) == v.ventUntil[p.acc])
  {
  }

  // ---- how often, and in which order

  function Target(a: Action): Option<string> {
    match a
    case SetDesired(acc, _) => Some(acc)
    case ScheduleOff(acc, _, _) => Some(acc)
    case CancelOff(acc) => Some(acc)
    case SafetyVent(acc) => Some(acc)
    case StopHost(_) => None
  }

  ghost predicate Once(out: seq<Action>) {
    forall i, j :: 0 <= i < j < |out| ==> out[i] != out[j]
  }

  ghost predicate PairedOnce(ps: seq<Pairing>) {
    forall i, j :: 0 <= i < j < |ps| ==> ps[i].acc != ps[j].acc
  }

  ghost predicate OnlyFor(out: seq<Action>, ps: seq<Pairing>) {
    forall a :: a in out ==> exists p :: p in ps && Target(a) == Some(p.acc)
  }

  /** Actions for one more accessory, all different, keep all of them different. */
  lemma OnceMore(ps: seq<Pairing>, out: seq<Action>, more: seq<Action>)
    requires ps != [] && PairedOnce(ps) && Once(out) && OnlyFor(out, ps[..|ps| - 1]) && Once(more)
    requires forall a :: a in more ==> Target(a) == Some(ps[|ps| - 1].acc)
    ensures Once(out + more) && OnlyFor(out + more, ps)
  {
    var n := |ps| - 1;
    forall i, j | 0 <= i < |out| && 0 <= j < |more| ensures out[i] != more[j] {
      assert out[i] in out && more[j] in more;
      var p :| p in ps[..n] && Target(out[i]) == Some(p.acc);
      var k :| 0 <= k < n && ps[k] == p;
    }
    forall a | a in out + more ensures exists p :: p in ps && Target(a) == Some(p.acc) {
      if a in out {
        var p :| p in ps[..n] && Target(a) == Some(p.acc);
        assert p in ps;
      } else {
        assert ps[n] in ps;
      }
    }
  }

  ghost predicate AllFor(out: seq<Action>, acc: string) {
    forall a :: a in out ==> Target(a) == Some(acc)
  }

  lemma OneEach(p: Pairing, v: View, level: int)
    ensures Once(StartOne(p, v, level)) && AllFor(StartOne(p, v, level), p.acc)
    ensures Once(EndOne(p, v)) && AllFor(EndOne(p, v), p.acc)
    ensures Once(VentOne(p.acc, v)) && AllFor(VentOne(p.acc, v), p.acc)
  {
  }

  lemma {:induction false} StartsOnce(ps: seq<Pairing>, v: View, level: int)
    requires PairedOnce(ps)
    ensures Once(StartAll(ps, v, level)) && OnlyFor(StartAll(ps, v, level), ps)
  {
    if ps != [] {
      var n := |ps| - 1;
      StartsOnce(ps[..n], v, level);
      OneEach(ps[n], v, level);
      OnceMore(ps, StartAll(ps[..n], v, level), StartOne(ps[n], v, level));
    }
  }

  lemma {:induction false} EndsOnce(ps: seq<Pairing>, v: View)
    requires PairedOnce(ps)
    ensures Once(EndAll(ps, v)) && OnlyFor(EndAll(ps, v), ps)
  {
    if ps != [] {
      var n := |ps| - 1;
      EndsOnce(ps[..n], v);
      OneEach(ps[n], v, 0);
      OnceMore(ps, EndAll(ps[..n], v), EndOne(ps[n], v));
    }
  }

  lemma {:induction false} VentsOnce(ps: seq<Pairing>, v: View, except: Option<string>)
    requires PairedOnce(ps)
    ensures Once(VentAll(ps, v, except)) && OnlyFor(VentAll(ps, v, except), ps)
  {
    if ps != [] {
      var n := |ps| - 1;
      VentsOnce(ps[..n], v, except);
      OneEach(ps[n], v, 0);
      OnceMore(ps, VentAll(ps[..n], v, except), if except == Some(ps[n].acc) then [] else VentOne(ps[n].acc, v));
    }
  }

  lemma StopFirst(host: string, out: seq<Action>, ps: seq<Pairing>)
    requires Once(out) && OnlyFor(out, ps)
    ensures Once([StopHost(host)] + out)
  {
    assert StopHost(host) !in out;
  }

  /** With every accessory paired once, no action is decided twice. */
  lemma DecidedOnce(evt: Event, ps: seq<Pairing>, v: View)
    requires PairedOnce(ps)
    ensures Once(Decide(evt, ps, v))
  {
    StartsOnce(ps, v, LevelFor(v.rules, evt.material, v.defaultLevel));
    StartsOnce(ps, v, LevelFor(v.rules, "", v.defaultLevel));
    EndsOnce(ps, v);
    VentsOnce(ps, v, Some(evt.sn));
    VentsOnce(ps, v, None);
    StopFirst(if ps == [] then "" else ps[0].host, VentAll(ps, v, Some(evt.sn)), ps);
  }

  /** A waiting off is cancelled before its accessory is vented or set, and the vent opens before the set. */
  ghost predicate InOrder(out: seq<Action>) {
    && (forall i, j :: 0 <= i < |out| && 0 <= j < |out| && out[i].CancelOff? && Target(out[j]) == Target(out[i]) ==> i <= j)
    && (forall i, j :: 0 <= i < |out| && 0 <= j < |out| && out[i].SafetyVent? && out[j].SetDesired? && Target(out[j]) == Target(out[i])
          ==> i < j)
  }

  lemma OrderMore(ps: seq<Pairing>, out: seq<Action>, more: seq<Action>)
    requires ps != [] && PairedOnce(ps) && InOrder(out) && OnlyFor(out, ps[..|ps| - 1]) && InOrder(more)
    requires forall a :: a in more ==> Target(a) == Some(ps[|ps| - 1].acc)
    ensures InOrder(out + more)
  {
    var n := |ps| - 1;
    forall i, j | 0 <= i < |out| && 0 <= j < |more| ensures Target(out[i]) != Target(more[j]) {
      assert out[i] in out && more[j] in more;
      var p :| p in ps[..n] && Target(out[i]) == Some(p.acc);
      var k :| 0 <= k < n && ps[k] == p;
    }
  }

  lemma OneInOrder(p: Pairing, v: View, level: int)
    ensures InOrder(StartOne(p, v, level)) && InOrder(EndOne(p, v)) && InOrder(VentOne(p.acc, v))
  {
  }

  lemma {:induction false} StartsInOrder(ps: seq<Pairing>, v: View, level: int)
    requires PairedOnce(ps)
    ensures InOrder(StartAll(ps, v, level))
  {
    if ps != [] {
      var n := |ps| - 1;
      StartsInOrder(ps[..n], v, level);
      StartsOnce(ps[..n], v, level);
      OneInOrder(ps[n], v, level);
      OneEach(ps[n], v, level);
      OrderMore(ps, StartAll(ps[..n], v, level), StartOne(ps[n], v, level));
    }
  }

  lemma {:induction false} EndsInOrder(ps: seq<Pairing>, v: View)
    requires PairedOnce(ps)
    ensures InOrder(EndAll(ps, v))
  {
    if ps != [] {
      var n := |ps| - 1;
      EndsInOrder(ps[..n], v);
      EndsOnce(ps[..n], v);
      OneInOrder(ps[n], v, 0);
      OneEach(ps[n], v, 0);
      OrderMore(ps, EndAll(ps[..n], v), EndOne(ps[n], v));
    }
  }

  lemma {:induction false} VentsInOrder(ps: seq<Pairing>, v: View, except: Option<string>)
    requires PairedOnce(ps)
    ensures InOrder(VentAll(ps, v, except))
  {
    if ps != [] {
      var n := |ps| - 1;
      VentsInOrder(ps[..n], v, except);
      VentsOnce(ps[..n], v, except);
      OneInOrder(ps[n], v, 0);
      OneEach(ps[n], v, 0);
      OrderMore(ps, VentAll(ps[..n], v, except), if except == Some(ps[n].acc) then [] else VentOne(ps[n].acc, v));
    }
  }

  lemma StoppedInOrder(host: string, out: seq<Action>)
    requires InOrder(out)
    ensures InOrder([StopHost(host)] + out)
  {
    var all := [StopHost(host)] + out;
    forall i | 0 < i < |all| ensures all[i] == out[i - 1] {
    }
  }

  /** For every accessory: cancel, then vent, then set. */
  lemma DecidedInOrder(evt: Event, ps: seq<Pairing>, v: View)
    requires PairedOnce(ps)
    ensures InOrder(Decide(evt, ps, v))
  {
    if ps != [] && IsPaired(ps, evt.sn) {
      VentsInOrder(ps, v, Some(evt.sn));
      StoppedInOrder(ps[0].host, VentAll(ps, v, Some(evt.sn)));
      OneInOrder(Pairing("", evt.sn, true, 0), v, 0);
    } else {
      StartsInOrder(ps, v, LevelFor(v.rules, evt.material, v.defaultLevel));
      StartsInOrder(ps, v, LevelFor(v.rules, "", v.defaultLevel));
      EndsInOrder(ps, v);
      VentsInOrder(ps, v, None);
    }
  }

  /** Every scheduled delay lies between one and ten minutes, when no window ends later than that. */
  lemma DelaysInRange(evt: Event, ps: seq<Pairing>, v: View, a: Action)
    requires forall acc :: acc in v.ventUntil ==> v.ventUntil[acc] <= v.now + VENT_WINDOW
    requires a in Decide(evt, ps, v) && a.ScheduleOff?
    ensures MIN_DELAY <= a.delay <= MAX_DELAY
  {
    OffExact(evt, ps, v, a.acc, a.host, a.delay);
  }

  // ---- reconcile

  datatype AccView = AccView(known: bool, on: bool, byCloud: bool)

  function ReconcileDecide(p: Pairing, hostWork: Option<int>, acc: AccView, hasTimer: bool, v: View): seq<Action> {
    if !p.linkage || !acc.known then []
    else if hostWork == Some(2) && !acc.on then [SetDesired(p.acc, Desired(true, LevelFor(v.rules, "", v.defaultLevel)))]
    else if hostWork == Some(0) && acc.on && acc.byCloud && !hasTimer && v.allowOff then
      [ScheduleOff(p.acc, p.host, ClampOffDelay(p.offDelay))]
    else []
  }

  /** Reconciling switches a linked accessory on when its host works and it is off, and lets the cloud's own
      switch-on run out when the host is idle and no timer waits; it does nothing else. */
  lemma ReconcileExact(p: Pairing, hostWork: Option<int>, acc: AccView, hasTimer: bool, v: View, a: Action)
    ensures a in ReconcileDecide(p, hostWork, acc, hasTimer, v)
       <==> p.linkage && acc.known
            && (  (hostWork == Some(2) && !acc.on && a == SetDesired(p.acc, Desired(true, LevelFor(v.rules, "", v.defaultLevel))))
               || (hostWork == Some(0) && acc.on && acc.byCloud && !hasTimer && v.allowOff
                   && a == ScheduleOff(p.acc, p.host, if p.offDelay < 60 then 60_000
                                                      else if p.offDelay > 600 then 600_000 else 1000 * p.offDelay)))
    ensures |ReconcileDecide(p, hostWork, acc, hasTimer, v)| <= 1
  {
  }
}
