/** The batching policy of the telemetry pipeline. */
module Batching {
  import opened Basics

  /** Full at Size, or due once the first item is Window old. */
  class Batcher<T> {
    const size: nat
    const window: nat
    var items: seq<T>
    var first: int

    constructor (size: int, window: int)
      ensures items == [] && first == 0
      ensures this.size == (if size <= 0 then 500 else size)
      ensures this.window == (if window <= 0 then 120 else window)
      ensures this.size > 0 && this.window > 0
    {
      this.size := if size <= 0 then 500 else size;
      this.window := if window <= 0 then 120 else window;
      items, first := [], 0;
    }

    method Add(item: T, now: int)
      modifies this
      ensures items == old(items) + [item]
      ensures first == if old(items) == [] then now else old(first)
    {
      if |items| == 0 {
        first := now;
      }
      items := items + [item];
    }

    predicate ShouldFlush(now: int)
      reads this
    {
      if |items| == 0 then false
      else if |items| >= size then true
      else now - first >= window
    }

    /** Waiting for the returned time, and no less, makes a non-empty batch due. */
    function TimeToFlush(now: int): (rem: int)
      reads this
      ensures items != [] ==> (rem == 0 <==> ShouldFlush(now))
      ensures items != [] ==> ShouldFlush(now + rem)
      ensures items != [] ==> forall t :: now <= t < now + rem ==> !ShouldFlush(t)
      ensures 0 <= rem
    {
      if |items| == 0 then window
      else if |items| >= size then 0
      else if window - (now - first) < 0 then 0
      else window - (now - first)
    }

    method Drain() returns (out: seq<T>)
      modifies this
      ensures out == old(items) && items == [] && first == 0
    {
      out := items;
      items, first := [], 0;
    }
  }

  /** What the loop's select sees: an item, or the timer. */
  datatype Input<T> = Arrive(item: T, now: int) | Timer(now: int)

  function Arrivals<T>(inputs: seq<Input<T>>): seq<T> {
    if inputs == [] then []
    else
      var last := inputs[|inputs| - 1];
      Arrivals(inputs[..|inputs| - 1]) + if last.Arrive? then [last.item] else []
  }

  function Concat<T>(batches: seq<seq<T>>): seq<T> {
    if batches == [] then [] else Concat(batches[..|batches| - 1]) + batches[|batches| - 1]
  }

  lemma ConcatAppend<T>(batches: seq<seq<T>>, b: seq<T>)
    ensures Concat(batches + [b]) == Concat(batches) + b
  {
    assert (batches + [b])[..|batches|] == batches;
  }

  /** The loop after some inputs: the batches cut so far, and the batch being filled since first. */
  datatype Filling<T> = Filling(batches: seq<seq<T>>, items: seq<T>, first: int)

  /** A batch is due at its size, or a window after its first item. */
  predicate Due<T>(items: seq<T>, first: int, now: int, size: nat, window: nat) {
    |items| > 0 && (|items| >= size || now >= first + window)
  }

  /** The batcher's own test is this one. */
  lemma FlushesWhenDue<T>(b: Batcher<T>, now: int)
    ensures b.ShouldFlush(now) <==> Due(b.items, b.first, now, b.size, b.window)
  {
  }

  function Cut<T>(f: Filling<T>, now: int, size: nat, window: nat): Filling<T> {
    if Due(f.items, f.first, now, size, window) then Filling(f.batches + [f.items], [], 0) else f
  }

  function Fill<T>(f: Filling<T>, i: Input<T>, size: nat, window: nat): Filling<T> {
    match i
    case Timer(now) => Cut(f, now, size, window)
    case Arrive(item, now) =>
      Cut(Filling(f.batches, f.items + [item], if f.items == [] then now else f.first), now, size, window)
  }

  function FillAll<T>(inputs: seq<Input<T>>, size: nat, window: nat): Filling<T> {
    if inputs == [] then Filling([], [], 0)
    else Fill(FillAll(inputs[..|inputs| - 1], size, window), inputs[|inputs| - 1], size, window)
  }

  lemma FillNext<T>(inputs: seq<Input<T>>, i: nat, size: nat, window: nat)
    requires i < |inputs|
    ensures FillAll(inputs[..i + 1], size, window) == Fill(FillAll(inputs[..i], size, window), inputs[i], size, window)
  {
    assert inputs[..i + 1][..i] == inputs[..i];
  }

  /** One turn of the loop: what the select saw, and a batch when one is due. */
  method Turn<T>(b: Batcher<T>, input: Input<T>, batches: seq<seq<T>>) returns (more: seq<seq<T>>)
    modifies b
    ensures Filling(more, b.items, b.first) == Fill(Filling(batches, old(b.items), old(b.first)), input, b.size, b.window)
  {
    more := batches;
    if input.Arrive? {
      b.Add(input.item, input.now);
    }
    if b.ShouldFlush(input.now) {
      var out := b.Drain();
      more := batches + [out];
    }
  }

  /** The batches concatenate to the input in order, none is empty, none exceeds the size, and each is cut
      when it is due; at the end the rest goes out. */
  method BatchLoop<T>(inputs: seq<Input<T>>, size: int, window: int) returns (batches: seq<seq<T>>)
    ensures Concat(batches) == Arrivals(inputs)
    ensures forall i :: 0 <= i < |batches| ==> 0 < |batches[i]| <= (if size <= 0 then 500 else size)
    ensures var f := FillAll(inputs, if size <= 0 then 500 else size, if window <= 0 then 120 else window);
            batches == if f.items == [] then f.batches else f.batches + [f.items]
  {
    var b := new Batcher<T>(size, window);
    batches := [];
    for i := 0 to |inputs|
      invariant fresh(b)
      invariant Filling(batches, b.items, b.first) == FillAll(inputs[..i], b.size, b.window)
    {
      FillNext(inputs, i, b.size, b.window);
      batches := Turn(b, inputs[i], batches);
    }
    assert inputs[..|inputs|] == inputs;
    FillKeeps(inputs, b.size, b.window);
    FillSizes(inputs, b.size, b.window);
    if b.items != [] {
      var out := b.Drain();
      ConcatAppend(batches, out);
      batches := batches + [out];
    }
  }

  /** When the items arrived. */
  function Times<T>(inputs: seq<Input<T>>): seq<int> {
    if inputs == [] then []
    else
      var last := inputs[|inputs| - 1];
      Times(inputs[..|inputs| - 1]) + if last.Arrive? then [last.now] else []
  }

  ghost predicate Conserves<T>(f: Filling<T>, arrivals: seq<T>, times: seq<int>) {
    && Concat(f.batches) + f.items == arrivals && |times| == |arrivals|
    && (f.items != [] ==> |Concat(f.batches)| < |times| && f.first == times[|Concat(f.batches)|])
  }

  lemma CutConserves<T>(f: Filling<T>, arrivals: seq<T>, times: seq<int>, now: int, size: nat, window: nat)
    requires Conserves(f, arrivals, times)
    ensures Conserves(Cut(f, now, size, window), arrivals, times)
  {
    ConcatAppend(f.batches, f.items);
  }

  lemma AddConserves<T>(f: Filling<T>, arrivals: seq<T>, times: seq<int>, item: T, now: int)
    requires Conserves(f, arrivals, times)
    ensures Conserves(Filling(f.batches, f.items + [item], if f.items == [] then now else f.first), arrivals + [item], times + [now])
  {
    assert Concat(f.batches) + (f.items + [item]) == arrivals + [item];
  }

  lemma {:induction false} FillKeeps<T>(inputs: seq<Input<T>>, size: nat, window: nat)
    ensures Conserves(FillAll(inputs, size, window), Arrivals(inputs), Times(inputs))
  {
    if inputs != [] {
      var n := |inputs| - 1;
      var before := FillAll(inputs[..n], size, window);
      FillKeeps(inputs[..n], size, window);
      match inputs[n]
      case Timer(now) => CutConserves(before, Arrivals(inputs), Times(inputs), now, size, window);
      case Arrive(item, now) =>
        AddConserves(before, Arrivals(inputs[..n]), Times(inputs[..n]), item, now);
        CutConserves(Filling(before.batches, before.items + [item], if before.items == [] then now else before.first),
                     Arrivals(inputs), Times(inputs), now, size, window);
    }
  }

  lemma {:induction false} FillSizes<T>(inputs: seq<Input<T>>, size: nat, window: nat)
    requires size > 0
    ensures var f := FillAll(inputs, size, window);
            |f.items| < size && forall k :: 0 <= k < |f.batches| ==> 0 < |f.batches[k]| <= size
  {
    if inputs != [] {
      FillSizes(inputs[..|inputs| - 1], size, window);
    }
  }

  /** No item waits in the loop once a batch is full, or a window after the first of those that wait came. */
  lemma NothingOverdue<T>(inputs: seq<Input<T>>, size: nat, window: nat)
    requires size > 0 && window > 0 && inputs != []
    ensures var f := FillAll(inputs, size, window);
            && |f.items| < size
            && (f.items != [] ==>
                  && |Concat(f.batches)| < |Times(inputs)|
                  && inputs[|inputs| - 1].now < Times(inputs)[|Concat(f.batches)|] + window)
  {
    FillKeeps(inputs, size, window);
    FillSizes(inputs, size, window);
  }

  /** Item number k of all that arrived came at time at. */
  predicate CameAt<T>(inputs: seq<Input<T>>, k: nat, at: int) {
    k < |Times(inputs)| && Times(inputs)[k] == at
  }

  lemma CutEarly<T>(f: Filling<T>, arrivals: seq<T>, times: seq<int>, now: int, size: nat, window: nat)
    requires Conserves(f, arrivals, times)
    ensures var post := Cut(f, now, size, window);
            post != f ==>
              && f.items != [] && post == Filling(f.batches + [f.items], [], 0)
              && (|f.items| >= size || now >= times[|Concat(f.batches)|] + window)
  {
  }

  /** A batch goes out only when it is full or its first item is a window old. */
  lemma NothingEarly<T>(inputs: seq<Input<T>>, size: nat, window: nat, before: Filling<T>, f: Filling<T>)
    requires size > 0 && inputs != [] && f == FillAll(inputs, size, window)
    requires before == FillAll(inputs[..|inputs| - 1], size, window) && f.batches != before.batches
    ensures |f.batches| == |before.batches| + 1 && f.batches[..|before.batches|] == before.batches && f.items == []
    ensures |f.batches[|before.batches|]| >= size
            || exists at :: CameAt(inputs, |Concat(before.batches)|, at) && inputs[|inputs| - 1].now >= at + window
  {
    var n := |inputs| - 1;
    FillKeeps(inputs[..n], size, window);
    var items, first := before.items, before.first;
    if inputs[n].Arrive? {
      AddConserves(before, Arrivals(inputs[..n]), Times(inputs[..n]), inputs[n].item, inputs[n].now);
      items, first := items + [inputs[n].item], if items == [] then inputs[n].now else first;
    }
    var filled := Filling(before.batches, items, first);
    CutEarly(filled, Arrivals(inputs), Times(inputs), inputs[n].now, size, window);
    assert CameAt(inputs, |Concat(before.batches)|, Times(inputs)[|Concat(before.batches)|]);
  }
}
