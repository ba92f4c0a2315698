/** What the health figures are worth: hours by power band, the score's formula, when a device is
    scored at all, and when a module counts as swapped. */
module HealthMeaning {
  import opened Basics
  import opened HealthScore

  // ---- hours

  /** The clipped step of the meter: none when it falls, at most one hour. */
  predicate IsStep(from: real, to: real, d: real) {
    && (to <= from ==> d == 0.0)
    && (from < to <= from + 1.0 ==> d == to - from)
    && (to > from + 1.0 ==> d == 1.0)
  }

  /** The bucket reports time shares of the three bands, which are not all zero. */
  predicate HasShares(b: Bucket) {
    (b.low.Some? || b.mid.Some? || b.high.Some?) && OrZero(b.low) + OrZero(b.mid) + OrZero(b.high) > 0.0
  }

  function Added(a: Acc, b: Bucket, cfg: Cfg): real {
    AddBucket(a, b, cfg).used - a.used
  }

  lemma OwnWeight(x: real, w: real)
    requires x > 0.0
    ensures x * w / x == w
  {
  }

  lemma ScaledStep(d: real, top: real, sum: real)
    requires sum > 0.0
    ensures d * (top / sum) * sum == d * top
  {
    var q := top / sum;
    assert q * sum == top;
    assert d * q * sum == d * (q * sum);
  }

  /** A bucket without a reading adds nothing; the first reading is only a baseline; the last reading is kept. */
  lemma BaselineExact(a: Acc, b: Bucket, cfg: Cfg)
    requires a.hours.None? || b.hours.None?
    ensures Added(a, b, cfg) == 0.0
    ensures AddBucket(a, b, cfg).hours == if b.hours.Some? then b.hours else a.hours
  {
  }

  /** An hour wholly in one band adds the step times that band's own weight. */
  lemma BandWeights(a: Acc, b: Bucket, cfg: Cfg, d: real)
    requires a.hours.Some? && b.hours.Some? && IsStep(a.hours.value, b.hours.value, d) && HasShares(b)
    ensures OrZero(b.mid) == OrZero(b.high) == 0.0 ==> Added(a, b, cfg) == d * cfg.wLow
    ensures OrZero(b.low) == OrZero(b.high) == 0.0 ==> Added(a, b, cfg) == d * cfg.wMid
    ensures OrZero(b.low) == OrZero(b.mid) == 0.0 ==> Added(a, b, cfg) == d * cfg.wHigh
    ensures AddBucket(a, b, cfg).hours == b.hours
  {
    var lo, mid, hi := OrZero(b.low), OrZero(b.mid), OrZero(b.high);
    assert Clip(b.hours.value - a.hours.value) == d;
    if mid == hi == 0.0 {
      OwnWeight(lo, cfg.wLow);
    }
    if lo == hi == 0.0 {
      OwnWeight(mid, cfg.wMid);
    }
    if lo == mid == 0.0 {
      OwnWeight(hi, cfg.wHigh);
    }
  }

  /** With mixed shares, the hours added times the sum of the shares are the step times the weighted shares. */
  lemma MixedWeights(a: Acc, b: Bucket, cfg: Cfg, d: real)
    requires a.hours.Some? && b.hours.Some? && IsStep(a.hours.value, b.hours.value, d) && HasShares(b)
    ensures Added(a, b, cfg) * (OrZero(b.low) + OrZero(b.mid) + OrZero(b.high))
         == d * (OrZero(b.low) * cfg.wLow + OrZero(b.mid) * cfg.wMid + OrZero(b.high) * cfg.wHigh)
  {
    assert Clip(b.hours.value - a.hours.value) == d;
    ScaledStep(d, WeightedSum(OrZero(b.low), OrZero(b.mid), OrZero(b.high), cfg), OrZero(b.low) + OrZero(b.mid) + OrZero(b.high));
  }

  /** Without shares the mean power picks the band, up to 50 W low and up to 80 W mid; without either the
      step counts as it is. */
  lemma PowerBands(a: Acc, b: Bucket, cfg: Cfg, d: real)
    requires a.hours.Some? && b.hours.Some? && IsStep(a.hours.value, b.hours.value, d) && !HasShares(b)
    ensures b.avgPower.None? ==> Added(a, b, cfg) == d
    ensures b.avgPower.Some? && b.avgPower.value <= 50.0 ==> Added(a, b, cfg) == d * cfg.wLow
    ensures b.avgPower.Some? && 50.0 < b.avgPower.value <= 80.0 ==> Added(a, b, cfg) == d * cfg.wMid
    ensures b.avgPower.Some? && b.avgPower.value > 80.0 ==> Added(a, b, cfg) == d * cfg.wHigh
    ensures AddBucket(a, b, cfg).hours == b.hours
  {
    assert Clip(b.hours.value - a.hours.value) == d;
    OwnWeight(1.0, cfg.wLow);
    OwnWeight(1.0, cfg.wMid);
    OwnWeight(1.0, cfg.wHigh);
  }

  // ---- the score

  /** What alarms cost: the penalty of each one, at most ten points, nothing for a negative count. */
  predicate IsCost(overtemp: int, cfg: Cfg, p: real) {
    if overtemp <= 0 then p == 0.0
    else if cfg.penalty * overtemp as real <= 10.0 then p == cfg.penalty * overtemp as real
    else p == 10.0
  }

  lemma Spent(used: real, rated: real)
    requires rated > 0.0
    ensures 100.0 * (1.0 - used / rated) * rated == 100.0 * (rated - used)
  {
    var q := used / rated;
    assert q * rated == used;
  }

  lemma Scales(x: real, y: real, c: real)
    requires c > 0.0
    ensures x < y <==> x * c < y * c
  {
    if x < y {
      assert (y - x) * c > 0.0;
    } else {
      assert (x - y) * c >= 0.0;
    }
  }

  /** The score is the unspent percentage of the rated hours less what alarms cost, held to 0 to 100. */
  lemma HealthFormula(used: real, overtemp: int, cfg: Cfg, p: real)
    requires cfg.rated > 0.0 && IsCost(overtemp, cfg, p)
    ensures var exact := 100.0 * (cfg.rated - used) - p * cfg.rated;
            && (0.0 <= exact <= 100.0 * cfg.rated ==> Health(used, overtemp, cfg) * cfg.rated == exact)
            && (exact < 0.0 ==> Health(used, overtemp, cfg) == 0.0)
            && (exact > 100.0 * cfg.rated ==> Health(used, overtemp, cfg) == 100.0)
  {
    assert Penalty(overtemp, cfg) == p;
    var h := Base(used, cfg) - p;
    Spent(used, cfg.rated);
    assert h * cfg.rated == 100.0 * (cfg.rated - used) - p * cfg.rated;
    Scales(h, 0.0, cfg.rated);
    Scales(100.0, h, cfg.rated);
  }

  // ---- when a device is scored, and what is written

  /** The hours of an hour past the row's last one. */
  predicate IsNew(rec: Option<Record>, b: Bucket) {
    rec.None? || rec.value.lastTs < b.ts
  }

  lemma {:induction false} SomeReading(bs: seq<Bucket>)
    ensures Readings(bs) != [] <==> exists b :: b in bs && b.hours.Some?
  {
    if bs != [] {
      SomeReading(bs[..|bs| - 1]);
      assert bs == bs[..|bs| - 1] + [bs[|bs| - 1]];
    }
  }

  /** A model: the reported one, or when that is empty the row's. */
  predicate IsModel(rec: Option<Record>, reported: Option<string>, model: string) {
    && reported.Some? && model != ""
    && (model == reported.value || (reported.value == "" && rec.Some? && model == rec.value.model))
  }

  /** A configuration with rated hours for the product of the first bucket and the model. */
  predicate IsSetUp(inp: Input, model: string) {
    && inp.bs != [] && inp.bs[0].productKey != "" && (inp.bs[0].productKey, model) in inp.cfgs
    && inp.cfgs[(inp.bs[0].productKey, model)].rated > 0.0
  }

  /** A score is written exactly when some new hour has a reading, the model is known and set up. */
  lemma WritesExact(rec: Option<Record>, inp: Input)
    ensures Score(rec, inp).Write? <==>
              && (exists b :: b in inp.bs && IsNew(rec, b) && b.hours.Some?)
              && (exists model :: IsModel(rec, inp.reported, model) && IsSetUp(inp, model))
    ensures Score(rec, inp).Unchanged? <==> forall b :: b in inp.bs ==> !IsNew(rec, b)
  {
    var news := Filter(inp.bs, Newer(rec));
    FilterMembers(inp.bs, Newer(rec));
    SomeReading(news);
    if news != [] {
      assert news[0] in news;
    }
    if inp.reported.Some? {
      var model := ModelOf(rec, inp.reported.value);
      if model != "" {
        assert IsModel(rec, inp.reported, model);
      }
    }
  }

  /** What a first row or a swap starts afresh, and what a further round carries on. */
  lemma WrittenRow(rec: Option<Record>, inp: Input, cfg: Cfg)
    requires var o := Score(rec, inp); o.Write? && cfg == inp.cfgs[(inp.bs[0].productKey, ModelOf(rec, inp.reported.value))]
    ensures var o := Score(rec, inp);
            var news := Filter(inp.bs, Newer(rec));
            var anew := rec.None? || o.swapped;
            var acc := Accumulate(if anew then Acc(0.0, None) else Acc(rec.value.used, rec.value.lastHours), news, cfg);
            var score := Health(acc.used, inp.overtemp, cfg);
            && o.row.used == acc.used && o.row.lastHours == acc.hours && o.row.lastTs == news[|news| - 1].ts
            && o.row.levels == (if anew then [] else rec.value.levels)
            && o.row.health == (if !anew && 0.0 <= rec.value.health < score then rec.value.health else score)
            && o.prevHealth == (if anew || rec.value.health < 0.0 then 101.0 else rec.value.health)
            && IsModel(rec, inp.reported, o.row.model)
  {
  }

  // ---- swaps

  /** A reading below a twentieth of the last one before. */
  predicate IsLow(hist: seq<real>, i: nat)
    requires i < |hist|
  {
    20.0 * hist[i] < hist[0]
  }

  ghost predicate LowTwice(hist: seq<real>) {
    exists i :: 1 <= i < |hist| - 1 && IsLow(hist, i) && IsLow(hist, i + 1)
  }

  ghost predicate LowOnce(hist: seq<real>) {
    exists i :: 1 <= i < |hist| && IsLow(hist, i)
  }

  lemma DropIsLow(hist: seq<real>)
    ensures forall i :: 0 <= i < |hist| ==> (Drop(hist, i) <==> IsLow(hist, i))
  {
  }

  /** A module counts as swapped when a different model is reported; when the module's own hours are less
      than half of a meter above 10 hours; when two readings in a row are low; or when one is low within a
      day of the user's mark: in this order of precedence. */
  ghost function SwapVerdict(prev: string, cur: string, hist: seq<real>, marked: Option<int>, own: Option<real>, now: int)
    : Option<SwapReason>
  {
    if prev != "" && cur != "" && prev != cur then Some(ModelChange)
    else if hist == [] || hist[0] <= 0.0 then None
    else if own.Some? && hist[0] > 10.0 && 2.0 * own.value < hist[0] then Some(ModuleHours)
    else if LowTwice(hist) then Some(HoursReset)
    else if marked.Some? && marked.value <= now <= marked.value + 86_400 && LowOnce(hist) then Some(UserMarked)
    else None
  }

  lemma SwapExact(prev: string, cur: string, hist: seq<real>, marked: Option<int>, own: Option<real>, now: int)
    ensures SwapSeen(prev, cur, hist, marked, own, now) == SwapVerdict(prev, cur, hist, marked, own, now)
  {
    DropIsLow(hist);
    if hist != [] {
      if TwoDrops(hist) {
        var i :| 1 <= i < |hist| - 1 && Drop(hist, i) && Drop(hist, i + 1);
        assert IsLow(hist, i) && IsLow(hist, i + 1);
      }
      if LowTwice(hist) {
        var i :| 1 <= i < |hist| - 1 && IsLow(hist, i) && IsLow(hist, i + 1);
        assert Drop(hist, i) && Drop(hist, i + 1);
      }
      if OneDrop(hist) {
        var i :| 1 <= i < |hist| && Drop(hist, i);
        assert IsLow(hist, i);
      }
      if LowOnce(hist) {
        var i :| 1 <= i < |hist| && IsLow(hist, i);
        assert Drop(hist, i);
      }
    }
  }

  /** A missing share counts as none. */
  lemma SharesMean(share: real)
    ensures OrZero(None) == 0.0 && OrZero(Some(share)) == share
  {
  }
}
