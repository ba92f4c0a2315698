/** The disk buffer: a main file, a file under replay, and what has been published. */
module DiskBuffer {
  import opened Basics

  /** One line of a buffer file: an envelope, or text that does not decode. */
  datatype Line = Good(env: int) | Bad

  datatype Publish = Accepted | Refused(reached: bool)

  /** A replay in progress: lines read, lines to write back, whether one failed, whether they are
      written back, and how often the envelope was published before it began. */
  datatype Replaying = Replaying(idx: nat, requeue: seq<Line>, failed: bool, requeued: bool, before: multiset<int>)

  /** buffered and published are histories: every successful append, every delivered envelope. */
  datatype Disk = Disk(main: seq<Line>, replay: Option<seq<Line>>, job: Option<Replaying>,
                       buffered: multiset<int>, published: multiset<int>)

  datatype Action =
    | Append(env: int, ok: bool)
    | Begin
    | ReadLine(publish: Publish, cancelled: bool)
    | Requeue(written: nat)
    | Remove(ok: bool)
    | Crash

  const EMPTY := Disk([], None, None, multiset{}, multiset{})

  function AppendStep(d: Disk, env: int, ok: bool): Disk {
    if ok then d.(main := d.main + [Good(env)], buffered := d.buffered + multiset{env}) else d
  }

  /** Rotate the main file unless an interrupted replay file is there already. */
  function BeginStep(d: Disk): Disk {
    if d.job.Some? then d
    else
      var rotated := if d.replay.None? && d.main != [] then d.(replay := Some(d.main), main := []) else d;
      if rotated.replay.None? then d
      else rotated.(job := Some(Replaying(0, [], false, false, d.published)))
  }

  function ReadStep(d: Disk, publish: Publish, cancelled: bool): Disk {
    if d.job.None? || d.replay.None? || d.job.value.idx >= |d.replay.value| || d.job.value.requeued then d
    else
      var q := d.job.value;
      var line := d.replay.value[q.idx];
      var next := q.(idx := q.idx + 1);
      if q.failed || cancelled then d.(job := Some(next.(requeue := q.requeue + [line])))
      else if line.Bad? then d.(job := Some(next))
      else
        match publish
        case Accepted => d.(job := Some(next), published := d.published + multiset{line.env})
        case Refused(reached) =>
          d.(job := Some(next.(requeue := q.requeue + [line], failed := true)),
             published := if reached then d.published + multiset{line.env} else d.published)
  }

  predicate AllRead(d: Disk) {
    d.job.Some? && d.replay.Some? && d.job.value.idx == |d.replay.value| && !d.job.value.requeued
  }

  /** Write back; a short write is an error that keeps the replay file. */
  function RequeueStep(d: Disk, written: nat): Disk {
    if !AllRead(d) then d
    else
      var q := d.job.value;
      if written >= |q.requeue| then d.(main := d.main + q.requeue, job := Some(q.(requeued := true)))
      else d.(main := d.main + q.requeue[..written], job := None)
  }

  function RemoveStep(d: Disk, ok: bool): Disk {
    if d.job.None? || !d.job.value.requeued then d
    else if ok then d.(replay := None, job := None)
    else d.(job := None)
  }

  function Step(d: Disk, a: Action): Disk {
    match a
    case Append(env, ok) => AppendStep(d, env, ok)
    case Begin => BeginStep(d)
    case ReadLine(publish, cancelled) => ReadStep(d, publish, cancelled)
    case Requeue(written) => RequeueStep(d, written)
    case Remove(ok) => RemoveStep(d, ok)
    case Crash => d.(job := None)
  }

  function RunFrom(d: Disk, actions: seq<Action>): Disk {
    if actions == [] then d else Step(RunFrom(d, actions[..|actions| - 1]), actions[|actions| - 1])
  }

  // ---- how often an envelope occurs

  function Count(lines: seq<Line>, env: int): nat {
    if lines == [] then 0
    else Count(lines[..|lines| - 1], env) + if lines[|lines| - 1] == Good(env) then 1 else 0
  }

  function OnDisk(d: Disk, env: int): nat {
    Count(d.main, env) + if d.replay.Some? then Count(d.replay.value, env) else 0
  }

  lemma {:induction false} CountAppend(a: seq<Line>, b: seq<Line>, env: int)
    ensures Count(a + b, env) == Count(a, env) + Count(b, env)
  {
    if b == [] {
      assert a + b == a;
    } else {
      assert (a + b)[..|a + b| - 1] == a + b[..|b| - 1];
      CountAppend(a, b[..|b| - 1], env);
    }
  }

  lemma CountNext(lines: seq<Line>, i: nat, env: int)
    requires i < |lines|
    ensures Count(lines[..i + 1], env) == Count(lines[..i], env) + if lines[i] == Good(env) then 1 else 0
  {
    assert lines[..i + 1][..i] == lines[..i];
  }

  /** Every copy of the envelope that was buffered is in a file or was published. */
  ghost predicate Conserved(d: Disk, env: int) {
    d.buffered[env] <= OnDisk(d, env) + d.published[env]
  }

  /** During a replay: what was read is published or will be written back. */
  ghost predicate Inv(d: Disk, env: int) {
    && Conserved(d, env)
    && (d.job.Some? ==> JobOk(d, d.job.value, env))
  }

  ghost predicate JobOk(d: Disk, q: Replaying, env: int) {
    && d.replay.Some? && q.idx <= |d.replay.value|
    && (!q.requeued ==>
          && d.buffered[env] <= OnDisk(d, env) + q.before[env]
          && q.before[env] + Count(d.replay.value[..q.idx], env) <= d.published[env] + Count(q.requeue, env))
    && (q.requeued ==> d.buffered[env] <= Count(d.main, env) + d.published[env])
  }

  lemma ReadKeeps(d: Disk, publish: Publish, cancelled: bool, env: int)
    requires Inv(d, env)
    ensures Inv(ReadStep(d, publish, cancelled), env)
  {
    if d.job.Some? && d.replay.Some? && d.job.value.idx < |d.replay.value| && !d.job.value.requeued {
      var q := d.job.value;
      CountNext(d.replay.value, q.idx, env);
      CountAppend(q.requeue, [d.replay.value[q.idx]], env);
    }
  }

  lemma RequeueKeeps(d: Disk, written: nat, env: int)
    requires Inv(d, env)
    ensures Inv(RequeueStep(d, written), env)
  {
    if AllRead(d) {
      var q := d.job.value;
      assert d.replay.value[..q.idx] == d.replay.value;
      CountAppend(d.main, q.requeue, env);
      if written < |q.requeue| {
        CountAppend(d.main, q.requeue[..written], env);
      }
    }
  }

  lemma StepKeeps(d: Disk, a: Action, env: int)
    requires Inv(d, env)
    ensures Inv(Step(d, a), env)
  {
    match a
    case Append(e, ok) => CountAppend(d.main, [Good(e)], env);
    case Begin =>
    case ReadLine(publish, cancelled) => ReadKeeps(d, publish, cancelled, env);
    case Requeue(written) => RequeueKeeps(d, written, env);
    case Remove(ok) =>
    case Crash =>
  }

  /** Through every sequence of appends, replays, failures and crashes, no buffered copy is lost. */
  lemma {:induction false} NothingLost(actions: seq<Action>, env: int)
    ensures Inv(RunFrom(EMPTY, actions), env)
    ensures Conserved(RunFrom(EMPTY, actions), env)
  {
    if actions != [] {
      NothingLost(actions[..|actions| - 1], env);
      StepKeeps(RunFrom(EMPTY, actions[..|actions| - 1]), actions[|actions| - 1], env);
    }
  }

  // ---- the files as the code changes them

  class Buffer {
    var d: Disk

    constructor ()
      ensures d == EMPTY
    {
      d := EMPTY;
    }

    method AppendEnvelope(env: int, ok: bool)
      modifies this
      ensures d == AppendStep(old(d), env, ok)
    {
      if ok {
        d := d.(main := d.main + [Good(env)], buffered := d.buffered + multiset{env});
      }
    }

    /** Rotate the main file, unless an interrupted replay has left its file. */
    method Rotate() returns (found: bool)
      requires d.job.None?
      modifies this
      ensures d == BeginStep(old(d)) && found == d.job.Some?
    {
      if d.replay.None? {
        if d.main == [] {
          return false;
        }
        d := d.(replay := Some(d.main), main := []);
      }
      d := d.(job := Some(Replaying(0, [], false, false, d.published)));
      return true;
    }

    method PublishLine(publish: Publish, cancelled: bool) returns (ok: bool)
      requires d.job.Some? && d.replay.Some? && d.job.value.idx < |d.replay.value| && !d.job.value.requeued
      modifies this
      ensures d == ReadStep(old(d), publish, cancelled)
      ensures ok ==> |d.published| == |old(d).published| + 1
    {
      var q := d.job.value;
      var line := d.replay.value[q.idx];
      q := q.(idx := q.idx + 1);
      ok := false;
      if q.failed || cancelled {
        q := q.(requeue := q.requeue + [line]);
      } else if line.Good? {
        if publish.Refused? {
          q := q.(requeue := q.requeue + [line], failed := true);
        }
        if publish == Accepted || publish.reached {
          d := d.(published := d.published + multiset{line.env});
        }
        ok := publish == Accepted;
      }
      d := d.(job := Some(q));
    }

    /** Write the unpublished lines back, and remove the file when all of them have been written. */
    method Finish(written: nat, removeOk: bool)
      requires AllRead(d)
      modifies this
      ensures d == RemoveStep(RequeueStep(old(d), written), removeOk)
    {
      var requeue := d.job.value.requeue;
      if written < |requeue| {
        d := d.(main := d.main + requeue[..written], job := None);
        return;
      }
      d := d.(main := d.main + requeue, job := None);
      if removeOk {
        d := d.(replay := None);
      }
    }

    method PublishLines(answers: seq<Publish>, stop: nat) returns (replayed: nat)
      requires d.job.Some? && d.replay.Some? && d.job.value.idx == 0 && !d.job.value.requeued && |answers| >= |d.replay.value|
      modifies this
      ensures d == ReadLines(old(d), answers, stop, |old(d).replay.value|) && AllRead(d)
      ensures |d.published| >= |old(d).published| + replayed
    {
      replayed := 0;
      ghost var begun := d;
      for i := 0 to |d.replay.value|
        invariant d == ReadLines(begun, answers, stop, i) && Reading(d, begun, i)
        invariant |d.published| >= |begun.published| + replayed
      {
        ReadsOn(d, begun, i, answers[i], i >= stop);
        var ok := PublishLine(answers[i], i >= stop);
        if ok {
          replayed := replayed + 1;
        }
      }
    }

    /** A whole replay with nobody else at work: answers gives the outcome of each publish by line,
        and from line stop on the context is cancelled. */
    method Replay(answers: seq<Publish>, stop: nat, written: nat, removeOk: bool) returns (replayed: nat)
      requires d.job.None? && |answers| >= LinesToReplay(d)
      modifies this
      ensures d == ReplayAll(old(d), answers, stop, written, removeOk)
      ensures |d.published| >= |old(d).published| + replayed
    {
      var found := Rotate();
      if !found {
        return 0;
      }
      replayed := PublishLines(answers, stop);
      Finish(written, removeOk);
    }
  }

  /** i lines of the replay file have been read. */
  predicate Reading(d: Disk, begun: Disk, i: nat) {
    d.job.Some? && d.replay == begun.replay && d.job.value.idx == i && !d.job.value.requeued
  }

  lemma ReadsOn(d: Disk, begun: Disk, i: nat, publish: Publish, cancelled: bool)
    requires Reading(d, begun, i) && d.replay.Some? && i < |d.replay.value|
    ensures Reading(ReadStep(d, publish, cancelled), begun, i + 1)
  {
  }

  /** How many lines a replay begun now would read. */
  function LinesToReplay(d: Disk): nat {
    if d.replay.Some? then |d.replay.value| else |d.main|
  }

  function ReadLines(d: Disk, answers: seq<Publish>, stop: nat, n: nat): Disk
    requires n <= |answers|
  {
    if n == 0 then d else ReadStep(ReadLines(d, answers, stop, n - 1), answers[n - 1], n - 1 >= stop)
  }

  function ReplayAll(d: Disk, answers: seq<Publish>, stop: nat, written: nat, removeOk: bool): Disk
    requires |answers| >= LinesToReplay(d)
  {
    var begun := BeginStep(d);
    if begun.job.None? then begun
    else RemoveStep(RequeueStep(ReadLines(begun, answers, stop, LinesToReplay(d)), written), removeOk)
  }

  lemma {:induction false} ReadLinesKeep(d: Disk, answers: seq<Publish>, stop: nat, n: nat, env: int)
    requires n <= |answers| && Inv(d, env)
    ensures Inv(ReadLines(d, answers, stop, n), env)
  {
    if n > 0 {
      ReadLinesKeep(d, answers, stop, n - 1, env);
      ReadKeeps(ReadLines(d, answers, stop, n - 1), answers[n - 1], n - 1 >= stop, env);
    }
  }

  /** Whatever the publishes answer, a replay loses no copy. */
  lemma ReplayConserves(d: Disk, answers: seq<Publish>, stop: nat, written: nat, removeOk: bool, env: int)
    requires d.job.None? && |answers| >= LinesToReplay(d) && Conserved(d, env)
    ensures Conserved(ReplayAll(d, answers, stop, written, removeOk), env)
  {
    var begun := BeginStep(d);
    BeginKeeps(d, env);
    if begun.job.Some? {
      ReadLinesKeep(begun, answers, stop, LinesToReplay(d), env);
      var read := ReadLines(begun, answers, stop, LinesToReplay(d));
      RequeueKeeps(read, written, env);
    }
  }

  lemma {:induction false} AcceptedReads(d: Disk, answers: seq<Publish>, stop: nat, n: nat, env: int)
    requires d.job.Some? && d.replay.Some? && d.job.value.idx == 0 && d.job.value.requeue == []
    requires !d.job.value.failed && !d.job.value.requeued
    requires n <= |answers| && n <= |d.replay.value| && n <= stop
    requires forall i :: 0 <= i < n ==> answers[i] == Accepted
    ensures var r := ReadLines(d, answers, stop, n);
            && r.job == Some(d.job.value.(idx := n)) && r.replay == d.replay && r.main == d.main
            && r.published[env] == d.published[env] + Count(d.replay.value[..n], env)
  {
    if n > 0 {
      AcceptedReads(d, answers, stop, n - 1, env);
      CountNext(d.replay.value, n - 1, env);
    } else {
      assert d.replay.value[..0] == [];
    }
  }

  /** With the stream up, a replay publishes exactly the lines of the file it took and removes it. */
  lemma ReplayDrains(d: Disk, answers: seq<Publish>, stop: nat, written: nat, env: int)
    requires d.job.None? && |answers| >= LinesToReplay(d) && stop >= LinesToReplay(d)
    requires forall i :: 0 <= i < LinesToReplay(d) ==> answers[i] == Accepted
    ensures var r := ReplayAll(d, answers, stop, written, true);
            && r.replay.None? && r.job.None?
            && r.main == (if d.replay.Some? then d.main else [])
            && r.published[env] == d.published[env] + Count(if d.replay.Some? then d.replay.value else d.main, env)
  {
    var begun := BeginStep(d);
    if begun.job.Some? {
      AcceptedReads(begun, answers, stop, LinesToReplay(d), env);
      assert begun.replay.value[..LinesToReplay(d)] == begun.replay.value;
    }
  }

  lemma BeginKeeps(d: Disk, env: int)
    requires d.job.None? && Conserved(d, env)
    ensures Inv(BeginStep(d), env)
  {
  }

  // ---- a replay that stops

  /** Line f could not be published: its publish is refused, or the context is done from there on. */
  predicate StopsAt(lines: seq<Line>, answers: seq<Publish>, stop: nat, f: nat) {
    && f < |lines| <= |answers|
    && (forall i :: 0 <= i < f ==> answers[i] == Accepted && i < stop)
    && (f == stop || (f < stop && lines[f] != Bad && answers[f] != Accepted))
  }

  /** Whether the refused publish of line f reached the stream all the same. */
  function Reached(lines: seq<Line>, answers: seq<Publish>, stop: nat, f: nat, env: int): nat
    requires StopsAt(lines, answers, stop, f)
  {
    if f < stop && answers[f] == Refused(true) && lines[f] == Good(env) then 1 else 0
  }

  /** n lines have been read, and those from f on are to be written back. */
  predicate Stopped(d: Disk, r: Disk, f: nat, n: nat, stop: nat) {
    && r.replay == d.replay && r.main == d.main && r.job.Some? && d.replay.Some? && f <= n <= |d.replay.value|
    && r.job.value.idx == n && !r.job.value.requeued && r.job.value.requeue == d.replay.value[f..n]
    && (r.job.value.failed || f == stop)
  }

  lemma StopRead(d: Disk, r: Disk, answers: seq<Publish>, stop: nat, f: nat, env: int)
    requires d.replay.Some? && StopsAt(d.replay.value, answers, stop, f)
    requires r.replay == d.replay && r.main == d.main && r.job.Some? && r.job.value.idx == f && r.job.value.requeue == []
    requires !r.job.value.failed && !r.job.value.requeued
    ensures var post := ReadStep(r, answers[f], f >= stop);
            Stopped(d, post, f, f + 1, stop)
            && post.published[env] == r.published[env] + Reached(d.replay.value, answers, stop, f, env)
  {
    assert d.replay.value[f..f + 1] == [] + [d.replay.value[f]];
  }

  lemma StoppedRead(d: Disk, r: Disk, publish: Publish, stop: nat, f: nat, n: nat)
    requires Stopped(d, r, f, n, stop) && n < |d.replay.value|
    ensures var post := ReadStep(r, publish, n >= stop);
            Stopped(d, post, f, n + 1, stop) && post.published == r.published
  {
    assert d.replay.value[f..n + 1] == d.replay.value[f..n] + [d.replay.value[n]];
  }

  lemma {:induction false} StoppedReads(d: Disk, answers: seq<Publish>, stop: nat, f: nat, n: nat, env: int)
    requires d.job.Some? && d.replay.Some? && d.job.value.idx == 0 && d.job.value.requeue == []
    requires !d.job.value.failed && !d.job.value.requeued
    requires StopsAt(d.replay.value, answers, stop, f) && f < n <= |d.replay.value|
    ensures var r := ReadLines(d, answers, stop, n);
            && Stopped(d, r, f, n, stop)
            && r.published[env] == d.published[env] + Count(d.replay.value[..f], env) + Reached(d.replay.value, answers, stop, f, env)
  {
    if n == f + 1 {
      AcceptedReads(d, answers, stop, f, env);
      StopRead(d, ReadLines(d, answers, stop, f), answers, stop, f, env);
    } else {
      StoppedReads(d, answers, stop, f, n - 1, env);
      StoppedRead(d, ReadLines(d, answers, stop, n - 1), answers[n - 1], stop, f, n - 1);
    }
  }

  /** A replay that has to stop publishes the lines before, and puts that line and all behind it back into
      the main file, in order. */
  lemma ReplayStops(d: Disk, answers: seq<Publish>, stop: nat, written: nat, f: nat, env: int)
    requires d.job.None? && |answers| >= LinesToReplay(d)
    requires var lines := if d.replay.Some? then d.replay.value else d.main;
             StopsAt(lines, answers, stop, f) && written >= |lines| - f
    ensures var lines := if d.replay.Some? then d.replay.value else d.main;
            var r := ReplayAll(d, answers, stop, written, true);
            && r.replay.None? && r.job.None?
            && r.main == (if d.replay.Some? then d.main else []) + lines[f..]
            && r.published[env] == d.published[env] + Count(lines[..f], env) + Reached(lines, answers, stop, f, env)
  {
    var begun := BeginStep(d);
    var lines := begun.replay.value;
    StoppedReads(begun, answers, stop, f, |lines|, env);
    assert lines[f..|lines|] == lines[f..];
  }

  /** A line is kept with its envelope when the append succeeds. */
  lemma AppendMeans(d: Disk, env: int, ok: bool)
    ensures AppendStep(d, env, ok).replay == d.replay && AppendStep(d, env, ok).published == d.published
    ensures ok ==> |AppendStep(d, env, ok).main| == |d.main| + 1 && AppendStep(d, env, ok).main[..|d.main|] == d.main
                   && AppendStep(d, env, ok).main[|d.main|] == Good(env)
    ensures !ok ==> AppendStep(d, env, ok) == d
  {
  }

  /** A replay takes an interrupted file first, and otherwise the main file as a whole. */
  lemma BeginMeans(d: Disk)
    requires d.job.None?
    ensures var post := BeginStep(d);
            && post.buffered == d.buffered && post.published == d.published
            && (d.replay.Some? ==> post.replay == d.replay && post.main == d.main && post.job.Some?)
            && (d.replay.None? && |d.main| > 0 ==> post.replay == Some(d.main) && |post.main| == 0 && post.job.Some?)
            && (d.replay.None? && |d.main| == 0 ==> post == d)
  {
  }

  /** A short write or a failed removal leaves the replay file for the next time. */
  lemma RequeueMeans(d: Disk, written: nat, removeOk: bool)
    requires AllRead(d)
    ensures var back := d.job.value.requeue;
            var post := RemoveStep(RequeueStep(d, written), removeOk);
            && post.job.None? && post.published == d.published && post.buffered == d.buffered
            && post.main == d.main + (if written < |back| then back[..written] else back)
            && post.replay == (if written < |back| || !removeOk then d.replay else None)
  {
  }
}
