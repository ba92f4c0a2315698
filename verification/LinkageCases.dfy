/** Concrete runs: power-offs inside a vent window, offs that get lost, a start that is not seen. */
module LinkageCases {
  import opened Basics
  import opened LinkageRules
  import opened LinkageEngine
  import opened LinkageRuns

  // ---- a job that ends, a minute later

  lemma EventDecided(w: World, cfg: Config, d: Delivery, a: Action)
    requires w.net == QUIET && w.mems == map[0 := BLANK] && d.ps != [] && !d.fromAcc && !d.duplicate && !d.evt.telemetry
    requires d.evt.code != "JOB_START" && d.evt.recvMs == 0 && d.hostWork.None? && d.ttls == map[]
    requires a in Decide(d.evt, d.ps, ViewOf(BLANK, cfg, d.ps[0].host, d.ps, d.at, d.rules, None, map[]))
    ensures var post := Take(w, cfg, Deliver(0, d));
            post.net == QUIET && post.mems == w.mems && Decided(0, a, d.at) in post.decided && w.decided <= post.decided
            && post.due == w.due && post.hands == w.hands
  {
    assert Decided(0, a, d.at) in Decisions(0, HandleDecision(BLANK, cfg, d).1, d.at);
  }

  function PairedWith(host: string, acc: string): Pairing {
    Pairing(host, acc, true, 60)
  }

  function Report(host: string, code: string, ps: seq<Pairing>): Delivery {
    Delivery(Event(host, false, code, "", 0, 0), ps, false, false, false, 0, map[], None, map[])
  }

  lemma JobEndDecides(acc: string, host: string, cfg: Config)
    requires acc != host && cfg.allowOff
    ensures var ps := [PairedWith(host, acc)];
            var v := ViewOf(BLANK, cfg, host, ps, 0, map[], None, map[]);
            && ScheduleOff(acc, host, 60_000) in Decide(Report(host, "JOB_DONE", ps).evt, ps, v)
            && SafetyVent(acc) in Decide(Report(host, "TILT", ps).evt, ps, v)
  {
    var ps := [PairedWith(host, acc)];
    var v := ViewOf(BLANK, cfg, host, ps, 0, map[], None, map[]);
    assert !IsPaired(ps, host) && ps[0] in ps && IsPaired(ps, acc);
    OffExact(Report(host, "JOB_DONE", ps).evt, ps, v, acc, host, 60_000);
    LinkageRules.VentExact(Report(host, "TILT", ps).evt, ps, v, acc);
  }

  /** The timer of acc is due and in nobody's hands; a vent of acc is decided but has not run. */
  ghost predicate DueOff(w: World, acc: string, host: string) {
    && w.net == Net(60_000, map[], map[], map[acc := 60], map[acc := Meta(host, 0)], [])
    && w.mems == map[0 := BLANK] && w.hands == map[] && (0, acc) in w.due && Decided(0, SafetyVent(acc), 0) in w.decided
  }

  /** A job that ends and a host alarm: both decisions are taken, neither has run. */
  lemma TwoDecisions(acc: string, host: string, cfg: Config) returns (steps: seq<Step>)
    requires acc != host && cfg.allowOff
    ensures var w := TakeAll(START, cfg, steps);
            && w.net == QUIET && w.mems == map[0 := BLANK] && w.due == {} && w.hands == map[]
            && Decided(0, ScheduleOff(acc, host, 60_000), 0) in w.decided && Decided(0, SafetyVent(acc), 0) in w.decided
    ensures forall s :: s in steps ==> s.Deliver?
  {
    var ps := [PairedWith(host, acc)];
    var idle, done, tilt := Report(host, "NONE", []), Report(host, "JOB_DONE", ps), Report(host, "TILT", ps);
    JobEndDecides(acc, host, cfg);
    var w1 := Take(START, cfg, Deliver(0, idle));
    assert w1 == START.(mems := map[0 := BLANK]);
    EventDecided(w1, cfg, done, ScheduleOff(acc, host, 60_000));
    EventDecided(Take(w1, cfg, Deliver(0, done)), cfg, tilt, SafetyVent(acc));
    steps := [Deliver(0, idle)] + [Deliver(0, done)] + [Deliver(0, tilt)];
    TakeAppend(START, cfg, [], Deliver(0, idle));
    assert [] + [Deliver(0, idle)] == [Deliver(0, idle)];
    TakeAppend(START, cfg, [Deliver(0, idle)], Deliver(0, done));
    TakeAppend(START, cfg, [Deliver(0, idle)] + [Deliver(0, done)], Deliver(0, tilt));
  }

  lemma ScheduledDue(w0: World, acc: string, host: string, cfg: Config)
    requires w0.net == QUIET && w0.mems == map[0 := BLANK] && w0.hands == map[]
    requires Decided(0, ScheduleOff(acc, host, 60_000), 0) in w0.decided && Decided(0, SafetyVent(acc), 0) in w0.decided
    ensures var w1 := Take(w0, cfg, Run(Decided(0, ScheduleOff(acc, host, 60_000), 0), Done));
            DueOff(Take(Take(w1, cfg, Tick(60_000)), cfg, Scan(0, 60_000)), acc, host)
  {
    var w1 := Take(w0, cfg, Run(Decided(0, ScheduleOff(acc, host, 60_000), 0), Done));
    assert w1.net == Net(0, map[], map[], map[acc := 60], map[acc := Meta(host, 0)], []) && w1.mems == map[0 := BLANK];
  }

  predicate Preparing(s: Step) {
    s.Deliver? || s.Tick? || s.Scan? || (s.Run? && s.it.action.ScheduleOff? && s.o == Done)
  }

  /** A minute later the timer is due. */
  lemma DueTimer(acc: string, host: string, cfg: Config) returns (steps: seq<Step>)
    requires acc != host && cfg.allowOff
    ensures DueOff(TakeAll(START, cfg, steps), acc, host)
    ensures forall s :: s in steps ==> Preparing(s)
  {
    steps := TwoDecisions(acc, host, cfg);
    ScheduledDue(TakeAll(START, cfg, steps), acc, host, cfg);
    var off := Run(Decided(0, ScheduleOff(acc, host, 60_000), 0), Done);
    TakeAppend(START, cfg, steps, off);
    TakeAppend(START, cfg, steps + [off], Tick(60_000));
    TakeAppend(START, cfg, steps + [off] + [Tick(60_000)], Scan(0, 60_000));
    steps := steps + [off] + [Tick(60_000)] + [Scan(0, 60_000)];
  }

  /** The first steps of a firing timer, without a failure. */
  function Opening(acc: string): seq<Step> {
    [Pop(0, acc, Done), Get(0, acc, true), Del(0, acc, Done), Look(0, acc)]
  }

  /** The only timer in hand, in process 0. */
  predicate Holds(w: World, acc: string, h: Hand) {
    w.hands == map[(0, acc) := h]
  }

  lemma PopGets(w: World, acc: string, m: Meta)
    requires w.hands == map[] && CanPop(w, 0, acc) && acc in w.net.meta && w.net.meta[acc] == m
    ensures var post := GetStep(PopStep(w, 0, acc, Done), 0, acc, true);
            && Holds(post, acc, Fetched(m, m, true))
            && post == w.(hands := post.hands, due := post.due, net := RemoveTimer(w.net, acc, Done))
  {
    var w1 := PopStep(w, 0, acc, Done);
    assert InHand(w1, 0, acc) && HandOf(w1, 0, acc) == Popped(m, true);
  }

  lemma DelLooks(w: World, acc: string, m: Meta, own: Meta, safe: bool, cfg: Config)
    requires Holds(w, acc, Fetched(m, own, safe)) && !Stops(MemOf(w, 0), cfg, m)
    ensures var post := LookStep(DelStep(w, 0, acc, Done), cfg, 0, acc);
            Holds(post, acc, Allowed(m)) && post == w.(hands := post.hands, net := DropMeta(w.net, acc, Done))
  {
    assert InHand(w, 0, acc) && HandOf(w, 0, acc) == Fetched(m, own, safe);
    var w1 := DelStep(w, 0, acc, Done);
    assert InHand(w1, 0, acc) && HandOf(w1, 0, acc) == Cleared(m, own, safe) && Holds(w1, acc, Cleared(m, own, safe));
  }

  lemma OpeningIs(w: World, cfg: Config, acc: string)
    ensures TakeAll(w, cfg, Opening(acc))
         == LookStep(DelStep(GetStep(PopStep(w, 0, acc, Done), 0, acc, true), 0, acc, Done), cfg, 0, acc)
  {
    TakeFour(w, cfg, Pop(0, acc, Done), Get(0, acc, true), Del(0, acc, Done), Look(0, acc));
  }

  lemma Opened(w: World, acc: string, host: string, cfg: Config)
    requires cfg.allowOff && DueOff(w, acc, host)
    ensures var post := TakeAll(w, cfg, Opening(acc));
            && post.net == Net(60_000, map[], map[], map[], map[], [])
            && Holds(post, acc, Allowed(Meta(host, 0))) && Decided(0, SafetyVent(acc), 0) in post.decided
  {
    OpeningIs(w, cfg, acc);
    PopGets(w, acc, Meta(host, 0));
    DelLooks(GetStep(PopStep(w, 0, acc, Done), 0, acc, true), acc, Meta(host, 0), Meta(host, 0), true, cfg);
  }

  /** A due timer, its opening, and what follows it. */
  lemma FullRun(acc: string, host: string, cfg: Config, more: seq<Step>) returns (steps: seq<Step>, w: World)
    requires acc != host && cfg.allowOff
    ensures TakeAll(START, cfg, steps) == TakeAll(w, cfg, more)
    ensures w.net == Net(60_000, map[], map[], map[], map[], []) && Holds(w, acc, Allowed(Meta(host, 0)))
    ensures Decided(0, SafetyVent(acc), 0) in w.decided
    ensures forall s :: s in steps ==> s in more || s in Opening(acc) || Preparing(s)
  {
    var due := DueTimer(acc, host, cfg);
    Opened(TakeAll(START, cfg, due), acc, host, cfg);
    TakeMore(START, cfg, due, Opening(acc));
    w := TakeAll(START, cfg, due + Opening(acc));
    TakeMore(START, cfg, due + Opening(acc), more);
    steps := due + Opening(acc) + more;
  }

  lemma VentRuns(w: World, acc: string, h: Hand, o: Call)
    requires Holds(w, acc, h) && Decided(0, SafetyVent(acc), 0) in w.decided
    ensures var post := RunStep(w, Decided(0, SafetyVent(acc), 0), o);
            && post.net == OpenVent(w.net, acc, o) && Holds(post, acc, if o != NotDone && h.Ready? then h.(vented := true) else h)
  {
  }

  lemma ReadRuns(w: World, acc: string, m: Meta, at: int, reading: Option<nat>)
    requires Holds(w, acc, Allowed(m)) && (reading.Some? ==> Answers(w.net, acc, reading.value))
    ensures var post := ReadStep(w, 0, acc, at, reading);
            && post.net == w.net && post.decided == w.decided
            && Holds(post, acc, if reading.Some? && reading.value > 0 then Returning(m, at + reading.value * 1000)
                                else Ready(m, at, reading.None?, VentAlive(w.net, acc), false))
  {
    assert InHand(w, 0, acc) && HandOf(w, 0, acc) == Allowed(m);
  }

  lemma SendRuns(w: World, acc: string, h: Hand, o: Call)
    requires Holds(w, acc, h) && h.Ready?
    ensures var post := SendStep(w, 0, acc, o);
            && post.net == SendNet(w.net, acc, OFF, true, o) && (o != Done ==> Holds(post, acc, Returning(h.m, h.at + RETRY_WAIT)))
  {
    assert InHand(w, 0, acc) && HandOf(w, 0, acc) == h;
  }

  lemma FailedRead(w: World, acc: string, m: Meta, cfg: Config)
    requires w.net == Net(60_000, map[], map[], map[], map[], []) && Holds(w, acc, Allowed(m))
    requires Decided(0, SafetyVent(acc), 0) in w.decided
    ensures var more := [Run(Decided(0, SafetyVent(acc), 0), Done), Read(0, acc, 60_000, None), Send(0, acc, Done)];
            TakeAll(w, cfg, more).net.facts == [Vented(acc, 60_000), Power(acc, OFF, 60_000, true)]
  {
    var vent, read, send := Run(Decided(0, SafetyVent(acc), 0), Done), Read(0, acc, 60_000, None), Send(0, acc, Done);
    TakeThree(w, cfg, vent, read, send);
    VentRuns(w, acc, Allowed(m), Done);
    var w1 := Take(w, cfg, vent);
    ReadRuns(w1, acc, m, 60_000, None);
    SendRuns(Take(w1, cfg, read), acc, Ready(m, 60_000, true, VentAlive(w1.net, acc), false), Done);
  }

  ghost predicate PowersOffInWindow(cfg: Config, steps: seq<Step>, acc: string) {
    TakeAll(START, cfg, steps).net.facts == [Vented(acc, 60_000), Power(acc, OFF, 60_000, true)]
  }

  /** A failed read of the vent key lets an off out inside the window. */
  lemma FailedReadBreaksVent(acc: string, host: string, cfg: Config)
    requires acc != host && cfg.allowOff
    ensures exists steps: seq<Step> :: PowersOffInWindow(cfg, steps, acc) && forall s: Step :: s in steps && s.Run? ==> s.o == Done
  {
    var more := [Run(Decided(0, SafetyVent(acc), 0), Done), Read(0, acc, 60_000, None), Send(0, acc, Done)];
    var steps, w := FullRun(acc, host, cfg, more);
    FailedRead(w, acc, Meta(host, 0), cfg);
    assert PowersOffInWindow(cfg, steps, acc);
  }

  lemma LateVent(w: World, acc: string, m: Meta, cfg: Config)
    requires w.net == Net(60_000, map[], map[], map[], map[], []) && Holds(w, acc, Allowed(m))
    requires Decided(0, SafetyVent(acc), 0) in w.decided
    ensures var more := [Read(0, acc, 60_000, Some(0)), Run(Decided(0, SafetyVent(acc), 0), Done), Send(0, acc, Done)];
            TakeAll(w, cfg, more).net.facts == [Vented(acc, 60_000), Power(acc, OFF, 60_000, true)]
  {
    var read, vent, send := Read(0, acc, 60_000, Some(0)), Run(Decided(0, SafetyVent(acc), 0), Done), Send(0, acc, Done);
    TakeThree(w, cfg, read, vent, send);
    ReadRuns(w, acc, m, 60_000, Some(0));
    var w1 := Take(w, cfg, read);
    VentRuns(w1, acc, Ready(m, 60_000, false, false, false), Done);
    SendRuns(Take(w1, cfg, vent), acc, Ready(m, 60_000, false, false, true), Done);
  }

  /** So does a vent that opens between the read and the send, although the read answered. */
  lemma VentAfterReadBreaks(acc: string, host: string, cfg: Config)
    requires acc != host && cfg.allowOff
    ensures exists steps: seq<Step> :: PowersOffInWindow(cfg, steps, acc) && forall s: Step :: s in steps && s.Read? ==> s.reading.Some?
  {
    var more := [Read(0, acc, 60_000, Some(0)), Run(Decided(0, SafetyVent(acc), 0), Done), Send(0, acc, Done)];
    var steps, w := FullRun(acc, host, cfg, more);
    LateVent(w, acc, Meta(host, 0), cfg);
    assert PowersOffInWindow(cfg, steps, acc);
  }

  lemma BareVent(w: World, acc: string, m: Meta, cfg: Config)
    requires w.net == Net(60_000, map[], map[], map[], map[], []) && Holds(w, acc, Allowed(m))
    requires Decided(0, SafetyVent(acc), 0) in w.decided
    ensures var more := [Run(Decided(0, SafetyVent(acc), 0), NotDone), Read(0, acc, 60_000, Some(0)), Send(0, acc, Done)];
            TakeAll(w, cfg, more).net.facts == [Vented(acc, 60_000), Power(acc, OFF, 60_000, true)]
  {
    var vent, read, send := Run(Decided(0, SafetyVent(acc), 0), NotDone), Read(0, acc, 60_000, Some(0)), Send(0, acc, Done);
    TakeThree(w, cfg, vent, read, send);
    VentRuns(w, acc, Allowed(m), NotDone);
    var w1 := Take(w, cfg, vent);
    ReadRuns(w1, acc, m, 60_000, Some(0));
    SendRuns(Take(w1, cfg, read), acc, Ready(m, 60_000, false, false, false), Done);
  }

  /** And a vent whose key could not be written is not seen at all. */
  lemma UnwrittenKeyBreaksVent(acc: string, host: string, cfg: Config)
    requires acc != host && cfg.allowOff
    ensures exists steps: seq<Step> :: PowersOffInWindow(cfg, steps, acc) && forall s: Step :: s in steps && s.Read? ==> s.reading.Some?
  {
    var more := [Run(Decided(0, SafetyVent(acc), 0), NotDone), Read(0, acc, 60_000, Some(0)), Send(0, acc, Done)];
    var steps, w := FullRun(acc, host, cfg, more);
    BareVent(w, acc, Meta(host, 0), cfg);
    assert PowersOffInWindow(cfg, steps, acc);
  }

  // ---- offs that get lost

  /** A run without cancels, unpairings and crashes after which the off is nowhere and nothing was sent off. */
  ghost predicate LosesOff(cfg: Config, steps: seq<Step>, acc: string) {
    && steps != [] && WaitsAt(cfg, steps, |steps| - 1, acc) && !WaitsAt(cfg, steps, |steps|, acc)
    && OnlyVents(TakeAll(START, cfg, steps)) && NobodyEnds(steps)
  }

  ghost predicate OnlyVents(w: World) {
    forall f :: f in w.net.facts ==> f.Vented?
  }

  ghost predicate NobodyEnds(steps: seq<Step>) {
    forall s :: s in steps ==> !s.Crash? && !s.Unpair? && (s.Run? ==> !s.it.action.CancelOff?)
  }

  lemma LosesLast(cfg: Config, steps: seq<Step>, s: Step, acc: string)
    requires NobodyEnds(steps) && !s.Crash? && !s.Unpair? && !s.Run?
    requires var w := TakeAll(START, cfg, steps);
             Waiting(w, acc) && !Waiting(Take(w, cfg, s), acc) && OnlyVents(Take(w, cfg, s))
    ensures LosesOff(cfg, steps + [s], acc)
  {
    var all := steps + [s];
    TakeAppend(START, cfg, steps, s);
    assert all[..|steps|] == steps && all[..|all|] == all;
  }

  /** Process 0 has the only off of acc, about to be put back, and sends nothing more. */
  ghost predicate OnlyReturning(w: World, acc: string) {
    && w.net.timers == map[] && (exists m, due :: Holds(w, acc, Returning(m, due)))
    && OnlyVents(w)
  }

  lemma NotPutBack(w: World, acc: string)
    requires OnlyReturning(w, acc)
    ensures Waiting(w, acc)
    ensures var post := PutBackStep(w, 0, acc, NotDone); !Waiting(post, acc) && post.net == w.net
  {
    assert InHand(w, 0, acc) && HandOf(w, 0, acc).Returning?;
    assert PutBackStep(w, 0, acc, NotDone).hands == map[];
  }

  lemma ReturningLost(cfg: Config, steps: seq<Step>, acc: string)
    requires OnlyReturning(TakeAll(START, cfg, steps), acc)
    requires NobodyEnds(steps)
    ensures LosesOff(cfg, steps + [PutBack(0, acc, NotDone)], acc)
  {
    NotPutBack(TakeAll(START, cfg, steps), acc);
    LosesLast(cfg, steps, PutBack(0, acc, NotDone), acc);
  }

  lemma WindowFound(w: World, acc: string, m: Meta, cfg: Config)
    requires w.net == Net(60_000, map[], map[], map[], map[], []) && Holds(w, acc, Allowed(m))
    requires Decided(0, SafetyVent(acc), 0) in w.decided
    ensures OnlyReturning(TakeAll(w, cfg, [Run(Decided(0, SafetyVent(acc), 0), Done), Read(0, acc, 60_000, Some(600))]), acc)
  {
    var vent, read := Run(Decided(0, SafetyVent(acc), 0), Done), Read(0, acc, 60_000, Some(600));
    TakeTwo(w, cfg, vent, read);
    VentRuns(w, acc, Allowed(m), Done);
    ReadRuns(Take(w, cfg, vent), acc, m, 60_000, Some(600));
  }

  /** Inside a vent window, an off whose timer cannot be put back is lost. */
  lemma LostAtWindow(acc: string, host: string, cfg: Config)
    requires acc != host && cfg.allowOff
    ensures exists steps: seq<Step> :: LosesOff(cfg, steps + [PutBack(0, acc, NotDone)], acc)
                            && forall s: Step :: s in steps && s.Send? ==> s.o == Done
  {
    var more := [Run(Decided(0, SafetyVent(acc), 0), Done), Read(0, acc, 60_000, Some(600))];
    var steps, w := FullRun(acc, host, cfg, more);
    WindowFound(w, acc, Meta(host, 0), cfg);
    ReturningLost(cfg, steps, acc);
  }

  lemma SendFailed(w: World, acc: string, m: Meta, cfg: Config)
    requires w.net == Net(60_000, map[], map[], map[], map[], []) && Holds(w, acc, Allowed(m))
    ensures OnlyReturning(TakeAll(w, cfg, [Read(0, acc, 60_000, Some(0)), Send(0, acc, NotDone)]), acc)
  {
    var read, send := Read(0, acc, 60_000, Some(0)), Send(0, acc, NotDone);
    TakeTwo(w, cfg, read, send);
    ReadRuns(w, acc, m, 60_000, Some(0));
    SendRuns(Take(w, cfg, read), acc, Ready(m, 60_000, false, false, false), NotDone);
  }

  /** So is an off that could not be sent and whose retry could not be written. */
  lemma LostAtRetry(acc: string, host: string, cfg: Config)
    requires acc != host && cfg.allowOff
    ensures exists steps: seq<Step> :: LosesOff(cfg, steps + [PutBack(0, acc, NotDone)], acc)
                            && forall s: Step :: s in steps && s.Run? ==> !s.it.action.SafetyVent?
  {
    var steps, w := FullRun(acc, host, cfg, [Read(0, acc, 60_000, Some(0)), Send(0, acc, NotDone)]);
    SendFailed(w, acc, Meta(host, 0), cfg);
    ReturningLost(cfg, steps, acc);
  }

  /** And an off whose removal from the set was not answered. */
  lemma LostAtPop(acc: string, host: string, cfg: Config)
    requires acc != host && cfg.allowOff
    ensures exists steps: seq<Step> :: LosesOff(cfg, steps + [Pop(0, acc, Unanswered)], acc)
  {
    var steps := DueTimer(acc, host, cfg);
    var w := TakeAll(START, cfg, steps);
    assert PopStep(w, 0, acc, Unanswered).net.timers == map[];
    LosesLast(cfg, steps, Pop(0, acc, Unanswered), acc);
  }

  // ---- a start that is not seen

  function StartReport(host: string, ps: seq<Pairing>): Delivery {
    Delivery(Event(host, false, "JOB_START", "", 0, 0), ps, false, false, false, 60_000, map[], None, map[])
  }

  lemma StartCancels(w: World, acc: string, host: string, cfg: Config)
    requires acc != host && MemOf(w, 0) == BLANK
    ensures var d := StartReport(host, [PairedWith(host, acc)]);
            var post := Take(w, cfg, Deliver(0, d));
            && Decided(0, CancelOff(acc), 60_000) in post.decided && post.hands == w.hands && post.net == w.net
            && MemOf(post, 0) == BLANK.(lastStart := map[host := 60_000])
  {
    var ps := [PairedWith(host, acc)];
    var d := StartReport(host, ps);
    var v := ViewOf(BLANK, cfg, host, ps, 60_000, map[], None, map[]);
    assert ps[..|ps| - 1] == [] && !IsPaired(ps, host);
    var level := LevelFor(v.rules, "", v.defaultLevel);
    assert StartAll(ps, v, level) == [] + StartOne(ps[0], v, level) && StartOne(ps[0], v, level)[0] == CancelOff(acc);
    assert CancelOff(acc) in HandleDecision(BLANK, cfg, d).1;
    assert Decided(0, CancelOff(acc), 60_000) in Decisions(0, HandleDecision(BLANK, cfg, d).1, d.at);
  }

  /** The cancel finds the timer gone and deletes its data all the same. */
  lemma CancelClears(w: World, acc: string, host: string)
    requires Holds(w, acc, Popped(Meta(host, 0), true)) && w.net == Net(60_000, map[], map[], map[], map[acc := Meta(host, 0)], [])
    requires Decided(0, CancelOff(acc), 60_000) in w.decided
    ensures var post := ClearStep(RunStep(w, Decided(0, CancelOff(acc), 60_000), Done), 0, acc, Done);
            && Holds(post, acc, Popped(Meta(host, 0), false)) && MemOf(post, 0) == MemOf(w, 0)
            && post.net == Net(60_000, map[], map[], map[], map[], [])
  {
    var ran := RunStep(w, Decided(0, CancelOff(acc), 60_000), Done);
    assert (0, acc) in ran.clears && Holds(ran, acc, Popped(Meta(host, 0), true)) && ran.net.meta == w.net.meta;
  }

  lemma GetsNothing(w: World, acc: string, host: string, cfg: Config)
    requires Holds(w, acc, Popped(Meta(host, 0), false)) && w.net == Net(60_000, map[], map[], map[], map[], [])
    requires cfg.allowOff && host != "" && MemOf(w, 0).lastStart == map[host := 60_000]
    ensures var post := LookStep(DelStep(GetStep(w, 0, acc, true), 0, acc, Done), cfg, 0, acc);
            Holds(post, acc, Allowed(Meta("", 0))) && post.net == w.net && MemOf(post, 0) == MemOf(w, 0)
  {
    assert InHand(w, 0, acc) && HandOf(w, 0, acc) == Popped(Meta(host, 0), false);
    var w1 := GetStep(w, 0, acc, true);
    assert Holds(w1, acc, Fetched(Meta("", 0), Meta(host, 0), false));
    DelLooks(w1, acc, Meta("", 0), Meta(host, 0), false, cfg);
  }

  lemma GoesOut(w: World, acc: string, m: Meta)
    requires Holds(w, acc, Allowed(m)) && w.net == Net(60_000, map[], map[], map[], map[], [])
    ensures var post := SendStep(ReadStep(w, 0, acc, 60_000, Some(0)), 0, acc, Done);
            post.net.facts == [Power(acc, OFF, 60_000, true)] && MemOf(post, 0).lastStart == MemOf(w, 0).lastStart
  {
    ReadRuns(w, acc, m, 60_000, Some(0));
    SendRuns(ReadStep(w, 0, acc, 60_000, Some(0)), acc, Ready(m, 60_000, false, false, false), Done);
  }

  function StartMeanwhile(acc: string, host: string): seq<Step> {
    [Pop(0, acc, Done), Deliver(0, StartReport(host, [PairedWith(host, acc)]))] +
    [Run(Decided(0, CancelOff(acc), 60_000), Done), Clear(0, acc, Done)]
  }

  function Asking(acc: string): seq<Step> {
    [Get(0, acc, true), Del(0, acc, Done), Look(0, acc)]
  }

  lemma AskingIs(w: World, cfg: Config, acc: string)
    ensures TakeAll(w, cfg, Asking(acc)) == LookStep(DelStep(GetStep(w, 0, acc, true), 0, acc, Done), cfg, 0, acc)
  {
    TakeThree(w, cfg, Get(0, acc, true), Del(0, acc, Done), Look(0, acc));
  }

  lemma GoingIs(w: World, cfg: Config, acc: string)
    ensures TakeAll(w, cfg, [Read(0, acc, 60_000, Some(0)), Send(0, acc, Done)])
         == SendStep(ReadStep(w, 0, acc, 60_000, Some(0)), 0, acc, Done)
  {
    TakeTwo(w, cfg, Read(0, acc, 60_000, Some(0)), Send(0, acc, Done));
  }

  lemma CancelIs(w: World, cfg: Config, acc: string)
    ensures TakeAll(w, cfg, [Run(Decided(0, CancelOff(acc), 60_000), Done), Clear(0, acc, Done)])
         == ClearStep(RunStep(w, Decided(0, CancelOff(acc), 60_000), Done), 0, acc, Done)
  {
    TakeTwo(w, cfg, Run(Decided(0, CancelOff(acc), 60_000), Done), Clear(0, acc, Done));
  }

  lemma PopThenStart(w: World, cfg: Config, acc: string, d: Delivery)
    ensures TakeAll(w, cfg, [Pop(0, acc, Done), Deliver(0, d)]) == Take(PopStep(w, 0, acc, Done), cfg, Deliver(0, d))
  {
    TakeTwo(w, cfg, Pop(0, acc, Done), Deliver(0, d));
  }

  lemma PopsOnly(w: World, acc: string, host: string)
    requires DueOff(w, acc, host)
    ensures var post := PopStep(w, 0, acc, Done);
            && Holds(post, acc, Popped(Meta(host, 0), true)) && MemOf(post, 0) == BLANK
            && post.net == Net(60_000, map[], map[], map[], map[acc := Meta(host, 0)], [])
  {
    assert CanPop(w, 0, acc);
  }

  /** The removal, the start, its cancel and the delete. */
  lemma StartedMeanwhile(w: World, acc: string, host: string, cfg: Config)
    requires acc != host && DueOff(w, acc, host)
    ensures var post := TakeAll(w, cfg, StartMeanwhile(acc, host));
            && Holds(post, acc, Popped(Meta(host, 0), false)) && post.net == Net(60_000, map[], map[], map[], map[], [])
            && MemOf(post, 0).lastStart == map[host := 60_000]
  {
    var d := StartReport(host, [PairedWith(host, acc)]);
    PopsOnly(w, acc, host);
    var w1 := PopStep(w, 0, acc, Done);
    PopThenStart(w, cfg, acc, d);
    StartCancels(w1, acc, host, cfg);
    var w2 := TakeAll(w, cfg, [Pop(0, acc, Done), Deliver(0, d)]);
    CancelClears(w2, acc, host);
    CancelIs(w2, cfg, acc);
    TakeMore(w, cfg, [Pop(0, acc, Done), Deliver(0, d)], [Run(Decided(0, CancelOff(acc), 60_000), Done), Clear(0, acc, Done)]);
  }

  lemma AsksAndSends(w: World, acc: string, host: string, cfg: Config)
    requires Holds(w, acc, Popped(Meta(host, 0), false)) && w.net == Net(60_000, map[], map[], map[], map[], [])
    requires cfg.allowOff && host != "" && MemOf(w, 0).lastStart == map[host := 60_000]
    ensures var post := TakeAll(TakeAll(w, cfg, Asking(acc)), cfg, [Read(0, acc, 60_000, Some(0)), Send(0, acc, Done)]);
            post.net.facts == [Power(acc, OFF, 60_000, true)] && MemOf(post, 0).lastStart == map[host := 60_000]
  {
    AskingIs(w, cfg, acc);
    GetsNothing(w, acc, host, cfg);
    var w1 := TakeAll(w, cfg, Asking(acc));
    GoingIs(w1, cfg, acc);
    GoesOut(w1, acc, Meta("", 0));
  }

  ghost predicate OffDespiteStart(w: World, acc: string, host: string) {
    w.net.facts == [Power(acc, OFF, 60_000, true)] && StartedSince(MemOf(w, 0), Meta(host, 0))
  }

  /** A job that starts after a timer's removal: the start's own cancel deletes the timer's data before
      the firing timer reads it, so the start is not seen and the accessory is switched off during the job. */
  lemma StartNotSeen(acc: string, host: string, cfg: Config)
    requires acc != host && host != "" && cfg.allowOff
    ensures exists steps: seq<Step> :: OffDespiteStart(TakeAll(START, cfg, steps), acc, host)
  {
    var due := DueTimer(acc, host, cfg);
    var goes := [Read(0, acc, 60_000, Some(0)), Send(0, acc, Done)];
    StartedMeanwhile(TakeAll(START, cfg, due), acc, host, cfg);
    AsksAndSends(TakeAll(TakeAll(START, cfg, due), cfg, StartMeanwhile(acc, host)), acc, host, cfg);
    ThreeParts(cfg, due, StartMeanwhile(acc, host), Asking(acc), goes);
    assert OffDespiteStart(TakeAll(START, cfg, due + StartMeanwhile(acc, host) + Asking(acc) + goes), acc, host);
  }

  lemma ThreeParts(cfg: Config, a: seq<Step>, b: seq<Step>, c: seq<Step>, d: seq<Step>)
    ensures TakeAll(START, cfg, a + b + c + d) == TakeAll(TakeAll(TakeAll(TakeAll(START, cfg, a), cfg, b), cfg, c), cfg, d)
  {
    TakeMore(START, cfg, a, b);
    TakeMore(START, cfg, a + b, c);
    TakeMore(START, cfg, a + b + c, d);
  }
}
