/** Laser module health: weighted hours accumulated bucket by bucket, and a score that only falls
    between module swaps. Floats are reals; times are seconds. */
module HealthScore {
  import opened Basics

  datatype Cfg = Cfg(rated: real, wLow: real, wMid: real, wHigh: real, penalty: real)

  datatype Bucket = Bucket(
    ts: int, productKey: string, hours: Option<real>,
    avgPower: Option<real>, low: Option<real>, mid: Option<real>, high: Option<real>)

  /** The row of a device: consumable_health and health_explain, which one transaction writes. */
  datatype Record = Record(
    health: real, used: real, lastTs: int, lastHours: Option<real>, model: string, levels: seq<int>)

  datatype SkipReason = ShadowError | MissingModel | MissingCfg | MissingHours

  datatype Outcome = Unchanged | Skip(reason: SkipReason) | Write(row: Record, prevHealth: real, swapped: bool)

  /** What one round sees of a device; reported is absent when the shadow cannot be read. */
  datatype Input = Input(bs: seq<Bucket>, reported: Option<string>, cfgs: map<(string, string), Cfg>, overtemp: int)

  const MAX_PENALTY := 10.0
  const RESET_RATIO := 0.05
  const MODULE_RATIO := 0.5
  const USER_MARK_WINDOW := 86400

  // ---- weighted hours

  function OrZero(x: Option<real>): real {
    if x.Some? then x.value else 0.0
  }

  function Shares(b: Bucket): (real, real, real) {
    var lo, mid, hi := OrZero(b.low), OrZero(b.mid), OrZero(b.high);
    if (b.low.Some? || b.mid.Some? || b.high.Some?) && lo + mid + hi > 0.0 then (lo, mid, hi)
    else if b.avgPower.None? then (0.0, 0.0, 0.0)
    else if b.avgPower.value <= 50.0 then (1.0, 0.0, 0.0)
    else if b.avgPower.value <= 80.0 then (0.0, 1.0, 0.0)
    else (0.0, 0.0, 1.0)
  }

  function WeightedSum(lo: real, mid: real, hi: real, cfg: Cfg): real {
    lo * cfg.wLow + mid * cfg.wMid + hi * cfg.wHigh
  }

  function Mean(lo: real, mid: real, hi: real, cfg: Cfg): real {
    if lo + mid + hi <= 0.0 then 1.0 else WeightedSum(lo, mid, hi, cfg) / (lo + mid + hi)
  }

  function Weight(b: Bucket, cfg: Cfg): real {
    var s := Shares(b);
    Mean(s.0, s.1, s.2, cfg)
  }

  /** At most one hour a bucket, and none when the meter fell. */
  function Clip(delta: real): real {
    if delta < 0.0 then 0.0 else if delta > 1.0 then 1.0 else delta
  }

  datatype Acc = Acc(used: real, hours: Option<real>)

  const START := Acc(0.0, None)

  /** One bucket of scoreDevice's loop: the first reading is only a baseline. */
  function AddBucket(a: Acc, b: Bucket, cfg: Cfg): Acc {
    if b.hours.None? then a
    else if a.hours.None? then Acc(a.used, b.hours)
    else Acc(a.used + Clip(b.hours.value - a.hours.value) * Weight(b, cfg), b.hours)
  }

  function Accumulate(a: Acc, bs: seq<Bucket>, cfg: Cfg): Acc {
    if bs == [] then a else AddBucket(Accumulate(a, bs[..|bs| - 1], cfg), bs[|bs| - 1], cfg)
  }

  lemma {:induction false} AccumulateAppend(a: Acc, s: seq<Bucket>, t: seq<Bucket>, cfg: Cfg)
    ensures Accumulate(a, s + t, cfg) == Accumulate(Accumulate(a, s, cfg), t, cfg)
  {
    if t == [] {
      assert s + t == s;
    } else {
      assert (s + t)[..|s + t| - 1] == s + t[..|t| - 1];
      AccumulateAppend(a, s, t[..|t| - 1], cfg);
    }
  }

  // ---- health

  function Clamp(v: real): real {
    if v < 0.0 then 0.0 else if v > 100.0 then 100.0 else v
  }

  function Penalty(overtemp: int, cfg: Cfg): real {
    var p := cfg.penalty * (if overtemp < 0 then 0 else overtemp) as real;
    if p < MAX_PENALTY then p else MAX_PENALTY
  }

  function Base(used: real, cfg: Cfg): real
    requires cfg.rated > 0.0
  {
    100.0 * (1.0 - used / cfg.rated)
  }

  function Health(used: real, overtemp: int, cfg: Cfg): real
    requires cfg.rated > 0.0
  {
    Clamp(Base(used, cfg) - Penalty(overtemp, cfg))
  }

  function Monotonic(prev: real, next: real, swapped: bool): real {
    if !swapped && prev >= 0.0 && next > prev then prev else next
  }

  lemma QuotientOrder(a: real, b: real, c: real)
    requires c > 0.0 && a <= b
    ensures a / c <= b / c
  {
  }

  lemma ProductOrder(p: real, m: real, n: real)
    requires p >= 0.0 && m <= n
    ensures p * m <= p * n
  {
  }

  lemma BaseFalls(used: real, more: real, cfg: Cfg)
    requires cfg.rated > 0.0 && used <= more
    ensures Base(more, cfg) <= Base(used, cfg)
  {
    QuotientOrder(used, more, cfg.rated);
  }

  lemma BaseEnds(cfg: Cfg)
    requires cfg.rated > 0.0
    ensures Base(0.0, cfg) == 100.0 && Base(cfg.rated, cfg) == 0.0
  {
  }

  lemma PenaltyRises(over: int, more: int, cfg: Cfg)
    requires cfg.penalty >= 0.0 && over <= more
    ensures 0.0 <= Penalty(over, cfg) <= Penalty(more, cfg) <= MAX_PENALTY
  {
    var m, n := if over < 0 then 0 else over, if more < 0 then 0 else more;
    ProductOrder(cfg.penalty, m as real, n as real);
    ProductOrder(cfg.penalty, 0.0, m as real);
  }

  /** A new module without alarms scores 100 and a used-up one 0; more hours or more over-temperature
      alarms never raise the score, and alarms alone cost at most ten points. */
  lemma HealthMeaning(used: real, more: real, over: int, overMore: int, cfg: Cfg)
    requires cfg.rated > 0.0 && cfg.penalty >= 0.0 && used <= more && over <= overMore
    ensures Health(more, overMore, cfg) <= Health(used, over, cfg)
    ensures Health(used, overMore, cfg) >= Health(used, 0, cfg) - MAX_PENALTY
    ensures Health(0.0, 0, cfg) == 100.0
    ensures used >= cfg.rated ==> Health(used, over, cfg) == 0.0
  {
    BaseFalls(used, more, cfg);
    BaseEnds(cfg);
    PenaltyRises(over, overMore, cfg);
    PenaltyRises(0, 0, cfg);
    if used >= cfg.rated {
      BaseFalls(cfg.rated, used, cfg);
    }
  }

  // ---- swaps

  datatype SwapReason = ModelChange | ModuleHours | HoursReset | UserMarked

  predicate Drop(hist: seq<real>, i: nat)
    requires 0 < |hist| && i < |hist|
  {
    hist[i] < RESET_RATIO * hist[0]
  }

  predicate TwoDrops(hist: seq<real>)
    requires 0 < |hist|
  {
    exists i :: 1 <= i < |hist| - 1 && Drop(hist, i) && Drop(hist, i + 1)
  }

  predicate OneDrop(hist: seq<real>)
    requires 0 < |hist|
  {
    exists i :: 1 <= i < |hist| && Drop(hist, i)
  }

  function SwapSeen(prevModel: string, curModel: string, hist: seq<real>, marked: Option<int>,
                    moduleHours: Option<real>, now: int): Option<SwapReason>
  {
    if prevModel != "" && curModel != "" && prevModel != curModel then Some(ModelChange)
    else if hist == [] then None
    else if moduleHours.Some? && hist[0] > 10.0 && moduleHours.value < MODULE_RATIO * hist[0] then Some(ModuleHours)
    else if hist[0] > 0.0 && TwoDrops(hist) then Some(HoursReset)
    else if marked.Some? && 0 <= now - marked.value <= USER_MARK_WINDOW && hist[0] > 0.0 && OneDrop(hist) then Some(UserMarked)
    else None
  }

  /** The counting loops find two drops in a row, and one drop, exactly when there are such. */
  method DetectSwap(prevModel: string, curModel: string, hist: seq<real>, marked: Option<int>, moduleHours: Option<real>, now: int)
    returns (reason: Option<SwapReason>)
    ensures reason == SwapSeen(prevModel, curModel, hist, marked, moduleHours, now)
  {
    if prevModel != "" && curModel != "" && prevModel != curModel {
      return Some(ModelChange);
    }
    var last := if hist == [] then 0.0 else hist[0];
    if moduleHours.Some? && last > 10.0 && moduleHours.value < MODULE_RATIO * last {
      return Some(ModuleHours);
    }
    if last > 0.0 {
      var drops := 0;
      for i := 1 to |hist|
        invariant 0 <= drops <= 1
        invariant drops == 1 <==> i > 1 && Drop(hist, i - 1)
        invariant forall k :: 1 <= k < i - 1 ==> !(Drop(hist, k) && Drop(hist, k + 1))
      {
        if hist[i] < RESET_RATIO * last {
          drops := drops + 1;
          if drops >= 2 {
            assert Drop(hist, i - 1) && Drop(hist, i - 1 + 1);
            return Some(HoursReset);
          }
        } else {
          drops := 0;
        }
      }
    }
    if marked.Some? && 0 <= now - marked.value <= USER_MARK_WINDOW && last > 0.0 {
      for i := 1 to |hist|
        invariant forall k :: 1 <= k < i ==> !Drop(hist, k)
      {
        if hist[i] < RESET_RATIO * last {
          assert Drop(hist, i);
          return Some(UserMarked);
        }
      }
    }
    return None;
  }

  // ---- one device in one round

  function Newer(rec: Option<Record>): Bucket -> bool {
    (b: Bucket) => rec.None? || b.ts > rec.value.lastTs
  }

  function Readings(bs: seq<Bucket>): seq<real> {
    if bs == [] then []
    else
      var b := bs[|bs| - 1];
      Readings(bs[..|bs| - 1]) + if b.hours.Some? then [b.hours.value] else []
  }

  function ModelOf(rec: Option<Record>, reported: string): string {
    if reported == "" && rec.Some? then rec.value.model else reported
  }

  function History(rec: Option<Record>, news: seq<Bucket>): seq<real> {
    (if rec.Some? && rec.value.lastHours.Some? then [rec.value.lastHours.value] else []) + Readings(news)
  }

  function Before(rec: Option<Record>, swapped: bool): Acc {
    if rec.None? || swapped then START else Acc(rec.value.used, rec.value.lastHours)
  }

  function PrevHealth(rec: Option<Record>, swapped: bool): real {
    if rec.None? || swapped then -1.0 else rec.value.health
  }

  function Swapped(rec: Option<Record>, model: string, news: seq<Bucket>): bool {
    SwapSeen(if rec.Some? then rec.value.model else "", model, History(rec, news), None, None, 0).Some?
  }

  function Scored(rec: Option<Record>, news: seq<Bucket>, model: string, cfg: Cfg, overtemp: int): Outcome
    requires news != [] && cfg.rated > 0.0
  {
    var swapped := Swapped(rec, model, news);
    var acc := Accumulate(Before(rec, swapped), news, cfg);
    var prev := PrevHealth(rec, swapped);
    Write(Record(Monotonic(prev, Health(acc.used, overtemp, cfg), swapped), acc.used, news[|news| - 1].ts, acc.hours, model,
                 if rec.None? || swapped then [] else rec.value.levels),
          if prev >= 0.0 then prev else 101.0,
          swapped)
  }

  function Score(rec: Option<Record>, inp: Input): Outcome {
    var news := Filter(inp.bs, Newer(rec));
    if news == [] then Unchanged
    else if inp.reported.None? then Skip(ShadowError)
    else
      var model := ModelOf(rec, inp.reported.value);
      if model == "" then Skip(MissingModel)
      else if inp.bs[0].productKey == "" || (inp.bs[0].productKey, model) !in inp.cfgs then Skip(MissingCfg)
      else if Readings(news) == [] then Skip(MissingHours)
      else if inp.cfgs[(inp.bs[0].productKey, model)].rated <= 0.0 then Skip(MissingCfg)
      else Scored(rec, news, model, inp.cfgs[(inp.bs[0].productKey, model)], inp.overtemp)
  }

  method CollectNew(rec: Option<Record>, bs: seq<Bucket>) returns (news: seq<Bucket>)
    ensures news == Filter(bs, Newer(rec))
  {
    news := [];
    for i := 0 to |bs|
      invariant news == Filter(bs[..i], Newer(rec))
    {
      assert bs[..i + 1][..i] == bs[..i];
      if rec.None? || bs[i].ts > rec.value.lastTs {
        news := news + [bs[i]];
      }
    }
    assert bs[..|bs|] == bs;
  }

  method CollectHistory(rec: Option<Record>, news: seq<Bucket>) returns (hist: seq<real>, valid: nat)
    ensures hist == History(rec, news) && valid == |Readings(news)|
  {
    hist := if rec.Some? && rec.value.lastHours.Some? then [rec.value.lastHours.value] else [];
    ghost var base := hist;
    valid := 0;
    for i := 0 to |news|
      invariant hist == base + Readings(news[..i]) && valid == |Readings(news[..i])|
    {
      assert news[..i + 1][..i] == news[..i];
      if news[i].hours.Some? {
        hist := hist + [news[i].hours.value];
        valid := valid + 1;
      }
    }
    assert news[..|news|] == news;
  }

  method SumBuckets(start: Acc, news: seq<Bucket>, cfg: Cfg) returns (used: real, hours: Option<real>)
    ensures Acc(used, hours) == Accumulate(start, news, cfg)
  {
    used, hours := start.used, start.hours;
    for i := 0 to |news|
      invariant Acc(used, hours) == Accumulate(start, news[..i], cfg)
    {
      assert news[..i + 1][..i] == news[..i];
      var b := news[i];
      if b.hours.Some? {
        if hours.Some? {
          used := used + Clip(b.hours.value - hours.value) * Weight(b, cfg);
        }
        hours := b.hours;
      }
    }
    assert news[..|news|] == news;
  }

  method ScoreDevice(rec: Option<Record>, inp: Input) returns (o: Outcome)
    ensures o == Score(rec, inp)
  {
    var news := CollectNew(rec, inp.bs);
    if news == [] {
      return Unchanged;
    }
    if inp.reported.None? {
      return Skip(ShadowError);
    }
    var model := inp.reported.value;
    if model == "" && rec.Some? {
      model := rec.value.model;
    }
    if model == "" {
      return Skip(MissingModel);
    }
    var productKey := inp.bs[0].productKey;
    if productKey == "" || (productKey, model) !in inp.cfgs {
      return Skip(MissingCfg);
    }
    var cfg := inp.cfgs[(productKey, model)];
    var hist, valid := CollectHistory(rec, news);
    if valid == 0 {
      return Skip(MissingHours);
    }
    var reason := DetectSwap(if rec.Some? then rec.value.model else "", model, hist, None, None, 0);
    var used, hours := SumBuckets(Before(rec, reason.Some?), news, cfg);
    if cfg.rated <= 0.0 {
      return Skip(MissingCfg);
    }
    var prev := PrevHealth(rec, reason.Some?);
    var value := Monotonic(prev, Health(used, inp.overtemp, cfg), reason.Some?);
    var row := Record(value, used, news[|news| - 1].ts, hours, model, if rec.None? || reason.Some? then [] else rec.value.levels);
    return Write(row, if prev >= 0.0 then prev else 101.0, reason.Some?);
  }

  // ---- storing, and runs over one device's history

  /** Columns keep either exact values or the decimals their NUMERIC types have. */
  datatype Columns = Exact | Numeric

  function Quantize(x: real, scale: real): real
    requires scale > 0.0
  {
    (x * scale + 0.5).Floor as real / scale
  }

  function Stored(row: Record, col: Columns): Record {
    if col.Exact? then row
    else row.(health := Quantize(row.health, 100.0), used := Quantize(row.used, 1000.0),
              lastHours := if row.lastHours.Some? then Some(Quantize(row.lastHours.value, 1000.0)) else None)
  }

  /** A round that reads buckets from..to of the history; lost when the batch fused or the write failed;
      sent is the level of a reminder that goes out with it. */
  datatype Round = Round(from: nat, to: nat, reported: Option<string>, cfgs: map<(string, string), Cfg>, overtemp: int,
                         lost: bool, sent: Option<int>)

  predicate Readable(h: seq<Bucket>, r: Round) {
    r.from <= r.to <= |h|
  }

  function InputOf(h: seq<Bucket>, r: Round): Input
    requires Readable(h, r)
  {
    Input(h[r.from..r.to], r.reported, r.cfgs, r.overtemp)
  }

  function WithSent(row: Record, sent: Option<int>): Record {
    if sent.Some? then row.(levels := row.levels + [sent.value]) else row
  }

  function Kept(rec: Option<Record>, o: Outcome, lost: bool, sent: Option<int>, col: Columns): Option<Record> {
    if o.Write? && !lost then Some(Stored(WithSent(o.row, sent), col)) else rec
  }

  function Step(h: seq<Bucket>, rec: Option<Record>, r: Round, col: Columns): Option<Record>
    requires Readable(h, r)
  {
    Kept(rec, Score(rec, InputOf(h, r)), r.lost, r.sent, col)
  }

  function Run(h: seq<Bucket>, rs: seq<Round>, col: Columns): Option<Record>
    requires forall r :: r in rs ==> Readable(h, r)
  {
    if rs == [] then None else Step(h, Run(h, rs[..|rs| - 1], col), rs[|rs| - 1], col)
  }

  ghost predicate InTimeOrder(h: seq<Bucket>) {
    forall i, j :: 0 <= i < j < |h| ==> h[i].ts < h[j].ts
  }

  /** The scan window does not cut off a bucket the device's row has not passed yet. */
  ghost predicate WindowCovers(h: seq<Bucket>, rec: Option<Record>, r: Round) {
    Readable(h, r) && forall i :: 0 <= i < r.from ==> PassedBy(rec, h[i])
  }

  predicate PassedBy(rec: Option<Record>, b: Bucket) {
    rec.Some? && b.ts <= rec.value.lastTs
  }

  ghost predicate OneCfg(r: Round, cfg: Cfg) {
    forall k :: k in r.cfgs ==> r.cfgs[k] == cfg
  }

  predicate SwapsAt(h: seq<Bucket>, rec: Option<Record>, r: Round)
    requires Readable(h, r)
  {
    var o := Score(rec, InputOf(h, r));
    rec.Some? && o.Write? && o.swapped
  }

  /** Every round covers what is new, has the same configuration, and finds no swap of an existing row. */
  ghost predicate Steady(h: seq<Bucket>, rs: seq<Round>, cfg: Cfg, col: Columns) {
    && (forall r :: r in rs ==> Readable(h, r))
    && (forall i :: 0 <= i < |rs| ==> SteadyAt(h, Run(h, rs[..i], col), rs[i], cfg))
  }

  ghost predicate SteadyAt(h: seq<Bucket>, rec: Option<Record>, r: Round, cfg: Cfg)
    requires Readable(h, r)
  {
    WindowCovers(h, rec, r) && OneCfg(r, cfg) && !SwapsAt(h, rec, r)
  }

  // ---- splitting a history into rounds

  /** rec has passed exactly the first n buckets. */
  ghost predicate Passed(h: seq<Bucket>, rec: Option<Record>, n: nat) {
    n <= |h| && if rec.None? then n == 0 else n > 0 && rec.value.lastTs == h[n - 1].ts
  }

  lemma NewOnes(h: seq<Bucket>, rec: Option<Record>, n: nat, from: nat, to: nat)
    requires InTimeOrder(h) && Passed(h, rec, n) && from <= n && from <= to <= |h|
    ensures Filter(h[from..to], Newer(rec)) == if n <= to then h[n..to] else []
  {
    var f := Newer(rec);
    if n <= to {
      assert h[from..to] == h[from..n] + h[n..to];
      FilterAppend(h[from..n], h[n..to], f);
      FilterNone(h[from..n], f);
      FilterAll(h[n..to], f);
    } else {
      FilterNone(h[from..to], f);
    }
  }

  lemma FromAtMost(h: seq<Bucket>, rec: Option<Record>, n: nat, r: Round)
    requires InTimeOrder(h) && Passed(h, rec, n) && WindowCovers(h, rec, r)
    ensures r.from <= n
  {
    if r.from > 0 {
      assert PassedBy(rec, h[r.from - 1]);
    }
  }

  lemma WriteOf(rec: Option<Record>, inp: Input, news: seq<Bucket>, cfg: Cfg)
    requires Filter(inp.bs, Newer(rec)) == news && Score(rec, inp).Write? && forall k :: k in inp.cfgs ==> inp.cfgs[k] == cfg
    ensures Wrote(rec, Score(rec, inp), news, cfg)
  {
  }

  predicate Wrote(rec: Option<Record>, o: Outcome, news: seq<Bucket>, cfg: Cfg) {
    && o.Write? && news != [] && Readings(news) != [] && o.row.lastTs == news[|news| - 1].ts
    && Acc(o.row.used, o.row.lastHours) == Accumulate(Before(rec, o.swapped), news, cfg)
  }

  function Since(h: seq<Bucket>, n: nat, to: nat): seq<Bucket>
    requires n <= |h| && to <= |h|
  {
    if n < to then h[n..to] else []
  }

  lemma NewSince(h: seq<Bucket>, rec: Option<Record>, n: nat, r: Round)
    requires InTimeOrder(h) && Passed(h, rec, n) && WindowCovers(h, rec, r)
    ensures Filter(InputOf(h, r).bs, Newer(rec)) == Since(h, n, r.to)
  {
    FromAtMost(h, rec, n, r);
    NewOnes(h, rec, n, r.from, r.to);
  }

  lemma WroteSince(h: seq<Bucket>, rec: Option<Record>, n: nat, to: nat, cfg: Cfg, o: Outcome)
    requires n <= |h| && to <= |h| && Wrote(rec, o, Since(h, n, to), cfg)
    ensures n < to && o.row.lastTs == h[to - 1].ts && Readings(h[n..to]) != []
    ensures !o.swapped || rec.None? ==> Acc(o.row.used, o.row.lastHours) == Accumulate(Before(rec, false), h[n..to], cfg)
  {
    assert Since(h, n, to)[|Since(h, n, to)| - 1] == h[to - 1];
  }

  /** What a round that writes has added, whatever its shadow, configuration and swap verdict. */
  lemma WriteMeans(h: seq<Bucket>, rec: Option<Record>, n: nat, r: Round, cfg: Cfg, o: Outcome)
    requires InTimeOrder(h) && Passed(h, rec, n) && WindowCovers(h, rec, r) && OneCfg(r, cfg)
    requires o == Score(rec, InputOf(h, r)) && o.Write?
    ensures n < r.to && o.row.lastTs == h[r.to - 1].ts && Readings(h[n..r.to]) != []
    ensures !o.swapped || rec.None? ==>
              Acc(o.row.used, o.row.lastHours) == Accumulate(Before(rec, false), h[n..r.to], cfg)
  {
    NewSince(h, rec, n, r);
    WriteOf(rec, InputOf(h, r), Since(h, n, r.to), cfg);
    WroteSince(h, rec, n, r.to, cfg, o);
  }

  /** The row holds what one pass over the buckets it has passed gives. */
  ghost predicate Tracks(h: seq<Bucket>, rec: Option<Record>, cfg: Cfg, n: nat) {
    Passed(h, rec, n) && Before(rec, false) == Accumulate(START, h[..n], cfg)
  }

  lemma StepWrites(h: seq<Bucket>, rec: Option<Record>, r: Round)
    requires Readable(h, r)
    ensures var o := Score(rec, InputOf(h, r));
            var next := Step(h, rec, r, Exact);
            if o.Write? && !r.lost
            then next.Some? && next.value.lastTs == o.row.lastTs && Before(next, false) == Acc(o.row.used, o.row.lastHours)
            else next == rec
  {
  }

  lemma Joined(h: seq<Bucket>, n: nat, m: nat, cfg: Cfg)
    requires n <= m <= |h|
    ensures Accumulate(Accumulate(START, h[..n], cfg), h[n..m], cfg) == Accumulate(START, h[..m], cfg)
  {
    assert h[..m] == h[..n] + h[n..m];
    AccumulateAppend(START, h[..n], h[n..m], cfg);
  }

  lemma StepTracks(h: seq<Bucket>, rec: Option<Record>, r: Round, cfg: Cfg, n: nat) returns (m: nat)
    requires InTimeOrder(h) && Tracks(h, rec, cfg, n) && Readable(h, r) && SteadyAt(h, rec, r, cfg)
    ensures Tracks(h, Step(h, rec, r, Exact), cfg, m)
  {
    m := n;
    StepWrites(h, rec, r);
    if Score(rec, InputOf(h, r)).Write? && !r.lost {
      WriteMeans(h, rec, n, r, cfg, Score(rec, InputOf(h, r)));
      m := r.to;
      Joined(h, n, m, cfg);
    }
  }

  lemma SteadyInit(h: seq<Bucket>, rs: seq<Round>, cfg: Cfg, col: Columns)
    requires rs != [] && Steady(h, rs, cfg, col)
    ensures Steady(h, rs[..|rs| - 1], cfg, col)
    ensures Readable(h, rs[|rs| - 1]) && SteadyAt(h, Run(h, rs[..|rs| - 1], col), rs[|rs| - 1], cfg)
  {
    var init := rs[..|rs| - 1];
    forall i | 0 <= i < |init| ensures SteadyAt(h, Run(h, init[..i], col), init[i], cfg) {
      assert init[..i] == rs[..i];
      assert SteadyAt(h, Run(h, rs[..i], col), rs[i], cfg);
    }
  }

  lemma {:induction false} RunTracks(h: seq<Bucket>, rs: seq<Round>, cfg: Cfg) returns (n: nat)
    requires InTimeOrder(h) && Steady(h, rs, cfg, Exact)
    ensures Tracks(h, Run(h, rs, Exact), cfg, n)
  {
    n := 0;
    if rs != [] {
      SteadyInit(h, rs, cfg, Exact);
      n := RunTracks(h, rs[..|rs| - 1], cfg);
      n := StepTracks(h, Run(h, rs[..|rs| - 1], Exact), rs[|rs| - 1], cfg, n);
    }
  }

  /** However a history is split into rounds, with rounds skipped, fused, failed or repeated at will,
      the row ends as one single round over the same buckets leaves it. */
  lemma SplitEqualsOnce(h: seq<Bucket>, rs: seq<Round>, once: Round, cfg: Cfg)
    requires InTimeOrder(h) && Steady(h, rs, cfg, Exact) && Run(h, rs, Exact).Some?
    requires Readable(h, once) && OneCfg(once, cfg) && once.from == 0 < once.to
    requires h[once.to - 1].ts == Run(h, rs, Exact).value.lastTs
    requires Score(None, InputOf(h, once)).Write?
    ensures var row := Score(None, InputOf(h, once)).row;
            row.used == Run(h, rs, Exact).value.used && row.lastHours == Run(h, rs, Exact).value.lastHours
  {
    var n := RunTracks(h, rs, cfg);
    SamePlace(h, n, once.to);
    OncePass(h, once, cfg);
  }

  lemma SamePlace(h: seq<Bucket>, n: nat, m: nat)
    requires InTimeOrder(h) && 0 < n <= |h| && 0 < m <= |h| && h[n - 1].ts == h[m - 1].ts
    ensures n == m
  {
  }

  lemma OncePass(h: seq<Bucket>, once: Round, cfg: Cfg)
    requires InTimeOrder(h) && Readable(h, once) && OneCfg(once, cfg) && once.from == 0 < once.to
    requires Score(None, InputOf(h, once)).Write?
    ensures var row := Score(None, InputOf(h, once)).row;
            Acc(row.used, row.lastHours) == Accumulate(START, h[..once.to], cfg)
  {
    WriteMeans(h, None, 0, once, cfg, Score(None, InputOf(h, once)));
    assert h[0..once.to] == h[..once.to];
  }

  /** Scoring the same or fewer buckets again changes nothing. */
  lemma RerunUnchanged(rec: Option<Record>, inp: Input, again: Input, sent: Option<int>, col: Columns)
    requires InTimeOrder(inp.bs) && Score(rec, inp).Write?
    requires forall b :: b in again.bs ==> b in inp.bs
    ensures Score(Some(Stored(WithSent(Score(rec, inp).row, sent), col)), again) == Unchanged
  {
    var news := Filter(inp.bs, Newer(rec));
    var next := Some(Stored(WithSent(Score(rec, inp).row, sent), col));
    var last := news[|news| - 1];
    FilterMembers(inp.bs, Newer(rec));
    assert last in news;
    forall b | b in inp.bs ensures b.ts <= last.ts {
      if Newer(rec)(b) {
        LastIsLatest(inp.bs, rec, b);
      }
    }
    FilterNone(again.bs, Newer(next));
  }

  lemma {:induction false} LastIsLatest(bs: seq<Bucket>, rec: Option<Record>, b: Bucket)
    requires InTimeOrder(bs) && b in bs && Newer(rec)(b)
    ensures Filter(bs, Newer(rec)) != []
    ensures b.ts <= Filter(bs, Newer(rec))[|Filter(bs, Newer(rec))| - 1].ts
  {
    var k := |bs| - 1;
    var i :| 0 <= i < |bs| && bs[i] == b;
    if i < k {
      assert bs[..k][i] == b;
      LastIsLatest(bs[..k], rec, b);
      assert b.ts < bs[k].ts;
    }
  }

  // ---- when no swap can be found

  ghost predicate MeterRises(h: seq<Bucket>) {
    forall i, j :: 0 <= i <= j < |h| && h[i].hours.Some? && h[j].hours.Some? ==> 0.0 <= h[i].hours.value <= h[j].hours.value
  }

  lemma {:induction false} LastReading(h: seq<Bucket>, n: nat, cfg: Cfg)
    requires n <= |h| && MeterRises(h)
    ensures var last := Accumulate(START, h[..n], cfg).hours;
            last.Some? ==> exists i :: 0 <= i < n && h[i].hours == last
  {
    if n > 0 {
      assert h[..n][..n - 1] == h[..n - 1];
      LastReading(h, n - 1, cfg);
    }
  }

  lemma {:induction false} ReadingsFrom(bs: seq<Bucket>, x: real)
    requires x in Readings(bs)
    ensures exists b :: b in bs && b.hours == Some(x)
  {
    var k := |bs| - 1;
    if bs[k].hours == Some(x) {
      assert bs[k] in bs;
    } else {
      ReadingsFrom(bs[..k], x);
      var b :| b in bs[..k] && b.hours == Some(x);
      assert b in bs;
    }
  }

  lemma NoDropSeen(h: seq<Bucket>, rec: Option<Record>, n: nat, to: nat, cfg: Cfg)
    requires rec.Some? && Tracks(h, rec, cfg, n) && n <= to <= |h| && MeterRises(h)
    ensures var hist := History(rec, h[n..to]);
            rec.value.lastHours.Some? ==> forall k :: 1 <= k < |hist| ==> hist[0] <= hist[k] && 0.0 <= hist[0]
  {
    var news := h[n..to];
    var hist := History(rec, news);
    if rec.value.lastHours.Some? {
      LastReading(h, n, cfg);
      var i :| 0 <= i < n && h[i].hours == rec.value.lastHours;
      forall k | 1 <= k < |hist| ensures hist[0] <= hist[k] && 0.0 <= hist[0] {
        assert hist[k] == Readings(news)[k - 1];
        ReadingsFrom(news, hist[k]);
        var b :| b in news && b.hours == Some(hist[k]);
        var j :| 0 <= j < |news| && news[j] == b;
        assert h[n + j] == b;
      }
    }
  }

  /** A device whose meter never falls and which always reports one model, or none, is never taken for
      swapped, however its history is split. */
  lemma RisingNeverSwaps(h: seq<Bucket>, rec: Option<Record>, r: Round, cfg: Cfg, n: nat)
    requires InTimeOrder(h) && MeterRises(h) && Tracks(h, rec, cfg, n) && WindowCovers(h, rec, r)
    requires rec.Some? ==> rec.value.lastHours.Some? && (r.reported.Some? ==> r.reported.value in ["", rec.value.model])
    ensures !SwapsAt(h, rec, r)
  {
    if rec.Some? && Score(rec, InputOf(h, r)).Write? {
      FromAtMost(h, rec, n, r);
      NewOnes(h, rec, n, r.from, r.to);
      NoDropSeen(h, rec, n, r.to, cfg);
      var hist := History(rec, h[n..r.to]);
      assert hist[0] > 0.0 ==> !TwoDrops(hist);
    }
  }

  lemma {:induction false} ReadingsGiveHours(a: Acc, bs: seq<Bucket>, cfg: Cfg)
    ensures a.hours.Some? || Readings(bs) != [] ==> Accumulate(a, bs, cfg).hours.Some?
  {
    if bs != [] {
      ReadingsGiveHours(a, bs[..|bs| - 1], cfg);
    }
  }

  ghost predicate OneModel(rec: Option<Record>, model: string) {
    rec.Some? ==> rec.value.model == model && rec.value.lastHours.Some?
  }

  lemma StepOneModel(h: seq<Bucket>, rec: Option<Record>, r: Round, model: string)
    requires Readable(h, r) && OneModel(rec, model) && (r.reported.Some? ==> r.reported.value in ["", model])
    ensures OneModel(Step(h, rec, r, Exact), model)
  {
    var o := Score(rec, InputOf(h, r));
    if o.Write? {
      var news := Filter(InputOf(h, r).bs, Newer(rec));
      ReadingsGiveHours(Before(rec, o.swapped), news, r.cfgs[(InputOf(h, r).bs[0].productKey, ModelOf(rec, r.reported.value))]);
    }
  }

  ghost predicate AllReadable(h: seq<Bucket>, rs: seq<Round>) {
    forall r :: r in rs ==> Readable(h, r)
  }

  /** Every round covers what is new to the row it finds. */
  ghost predicate AllCover(h: seq<Bucket>, rs: seq<Round>) {
    AllReadable(h, rs) && forall i :: 0 <= i < |rs| ==> WindowCovers(h, Run(h, rs[..i], Exact), rs[i])
  }

  ghost predicate OneSetup(r: Round, cfg: Cfg, model: string) {
    OneCfg(r, cfg) && (r.reported.Some? ==> r.reported.value in ["", model])
  }

  lemma CoverInit(h: seq<Bucket>, rs: seq<Round>)
    requires rs != [] && AllCover(h, rs)
    ensures AllCover(h, rs[..|rs| - 1])
    ensures WindowCovers(h, Run(h, rs[..|rs| - 1], Exact), rs[|rs| - 1])
  {
    var init := rs[..|rs| - 1];
    forall r | r in init ensures Readable(h, r) {
      assert r in rs;
    }
    forall i | 0 <= i < |init| ensures WindowCovers(h, Run(h, init[..i], Exact), init[i]) {
      assert init[..i] == rs[..i];
    }
  }

  lemma RisingStep(h: seq<Bucket>, rec: Option<Record>, r: Round, cfg: Cfg, model: string, n: nat)
    requires InTimeOrder(h) && MeterRises(h) && Tracks(h, rec, cfg, n) && WindowCovers(h, rec, r)
    requires OneModel(rec, model) && OneSetup(r, cfg, model)
    ensures SteadyAt(h, rec, r, cfg) && OneModel(Step(h, rec, r, Exact), model)
  {
    RisingNeverSwaps(h, rec, r, cfg, n);
    StepOneModel(h, rec, r, model);
  }

  /** So for such a device every split is steady, and SplitEqualsOnce applies to it. */
  lemma {:induction false} RisingIsSteady(h: seq<Bucket>, rs: seq<Round>, cfg: Cfg, model: string)
    requires InTimeOrder(h) && MeterRises(h) && AllCover(h, rs)
    requires forall r :: r in rs ==> OneSetup(r, cfg, model)
    ensures Steady(h, rs, cfg, Exact) && OneModel(Run(h, rs, Exact), model)
  {
    if rs != [] {
      var init, r := rs[..|rs| - 1], rs[|rs| - 1];
      CoverInit(h, rs);
      RisingIsSteady(h, init, cfg, model);
      var n := RunTracks(h, init, cfg);
      RisingStep(h, Run(h, init, Exact), r, cfg, model, n);
      SteadySnoc(h, rs, cfg);
    }
  }

  lemma SteadySnoc(h: seq<Bucket>, rs: seq<Round>, cfg: Cfg)
    requires rs != [] && forall r :: r in rs ==> Readable(h, r)
    requires Steady(h, rs[..|rs| - 1], cfg, Exact) && SteadyAt(h, Run(h, rs[..|rs| - 1], Exact), rs[|rs| - 1], cfg)
    ensures Steady(h, rs, cfg, Exact)
  {
    var init := rs[..|rs| - 1];
    forall i | 0 <= i < |rs| ensures SteadyAt(h, Run(h, rs[..i], Exact), rs[i], cfg) {
      if i < |init| {
        assert init[..i] == rs[..i] && init[i] == rs[i];
        assert SteadyAt(h, Run(h, init[..i], Exact), init[i], cfg);
      }
    }
  }

  /** Splitting can hide a reset: two low readings in one round are a swap, one in each of two rounds
      are not. */
  lemma SplitHidesReset(cfg: Cfg, key: string)
    requires cfg.rated > 0.0 && key != ""
    ensures var b := (ts, x) => Bucket(ts, key, Some(x), None, None, None, None);
            var cfgs := map[(key, "m") := cfg];
            var row := Record(90.0, 100.0, 0, Some(100.0), "m", []);
            var both := Score(Some(row), Input([b(1, 2.0), b(2, 2.5)], Some("m"), cfgs, 0));
            var first := Score(Some(row), Input([b(1, 2.0)], Some("m"), cfgs, 0));
            && both.Write? && both.swapped
            && first.Write? && !first.swapped
            && var second := Score(Some(first.row), Input([b(1, 2.0), b(2, 2.5)], Some("m"), cfgs, 0));
               second.Write? && !second.swapped
  {
    var b1, b2 := Bucket(1, key, Some(2.0), None, None, None, None), Bucket(2, key, Some(2.5), None, None, None, None);
    var row := Record(90.0, 100.0, 0, Some(100.0), "m", []);
    var cfgs := map[(key, "m") := cfg];
    OneNew(row, b1);
    TwoNew(row, b1, b2);
    var hist := History(Some(row), [b1, b2]);
    assert hist == [100.0, 2.0, 2.5];
    assert Drop(hist, 1) && Drop(hist, 1 + 1);
    assert History(Some(row), [b1]) == [100.0, 2.0];
    var first := Score(Some(row), Input([b1], Some("m"), cfgs, 0));
    assert first.Write? && first.row.lastTs == 1;
    assert [b1][..0] == [];
    assert first.row.lastHours == Some(2.0);
    OldThenNew(first.row, b1, b2);
    assert History(Some(first.row), [b2]) == [2.0, 2.5];
  }

  lemma OneNew(row: Record, b: Bucket)
    requires b.ts > row.lastTs && b.hours.Some?
    ensures Filter([b], Newer(Some(row))) == [b] && Readings([b]) == [b.hours.value]
  {
    assert [b][..0] == [];
  }

  lemma TwoNew(row: Record, b: Bucket, c: Bucket)
    requires b.ts > row.lastTs && c.ts > row.lastTs && b.hours.Some? && c.hours.Some?
    ensures Filter([b, c], Newer(Some(row))) == [b, c] && Readings([b, c]) == [b.hours.value, c.hours.value]
  {
    assert [b, c][..1] == [b];
    OneNew(row, b);
  }

  lemma OldThenNew(row: Record, b: Bucket, c: Bucket)
    requires b.ts <= row.lastTs < c.ts && c.hours.Some?
    ensures Filter([b, c], Newer(Some(row))) == [c] && Readings([c]) == [c.hours.value]
  {
    var f := Newer(Some(row));
    assert [b][..0] == [] && [c][..0] == [];
    assert Filter([b], f) == [];
    assert [b, c][..1] == [b];
  }

  // ---- the score only falls

  ghost predicate InRange(rec: Option<Record>) {
    rec.Some? ==> 0.0 <= rec.value.health <= 100.0
  }

  lemma RoundKeepsOrder(x: real, y: real, scale: real)
    requires scale > 0.0 && x <= y
    ensures Quantize(x, scale) <= Quantize(y, scale)
  {
    assert x * scale <= y * scale;
    assert (x * scale + 0.5).Floor <= (y * scale + 0.5).Floor;
    QuotientOrder((x * scale + 0.5).Floor as real, (y * scale + 0.5).Floor as real, scale);
  }

  /** A value that already has the column's decimals. */
  predicate OnGrid(x: real, scale: real)
    requires scale > 0.0
  {
    Quantize(x, scale) == x
  }

  lemma RoundTwice(x: real)
    ensures OnGrid(Quantize(x, 100.0), 100.0)
    ensures OnGrid(0.0, 100.0) && OnGrid(100.0, 100.0)
  {
    var n := (x * 100.0 + 0.5).Floor;
    assert Quantize(x, 100.0) * 100.0 == n as real;
    assert (n as real + 0.5).Floor == n;
  }

  /** What the health column holds: in range and, for the NUMERIC column, two decimals. */
  ghost predicate Held(rec: Option<Record>, col: Columns) {
    InRange(rec) && (rec.Some? && col.Numeric? ==> OnGrid(rec.value.health, 100.0))
  }

  lemma StepHeld(h: seq<Bucket>, rec: Option<Record>, r: Round, col: Columns)
    requires Readable(h, r) && Held(rec, col)
    ensures Held(Step(h, rec, r, col), col)
    ensures rec.Some? && !SwapsAt(h, rec, r) ==>
              Step(h, rec, r, col).Some? && Step(h, rec, r, col).value.health <= rec.value.health
  {
    var o := Score(rec, InputOf(h, r));
    if o.Write? && !r.lost && col.Numeric? {
      RoundTwice(o.row.health);
      RoundKeepsOrder(0.0, o.row.health, 100.0);
      RoundKeepsOrder(o.row.health, 100.0, 100.0);
      if rec.Some? && !o.swapped {
        RoundKeepsOrder(o.row.health, rec.value.health, 100.0);
      }
    }
  }

  /** From any reachable row on, over any rounds that find no swap, the stored score stays within
      [0, 100] and never rises. */
  lemma {:induction false} ScoreOnlyFalls(h: seq<Bucket>, rs: seq<Round>, k: nat, col: Columns)
    requires (forall r :: r in rs ==> Readable(h, r)) && k <= |rs|
    requires forall i :: k <= i < |rs| ==> !SwapsAt(h, Run(h, rs[..i], col), rs[i])
    ensures Held(Run(h, rs, col), col)
    ensures Run(h, rs[..k], col).Some? ==>
              Run(h, rs, col).Some? && Run(h, rs, col).value.health <= Run(h, rs[..k], col).value.health
    decreases |rs|
  {
    if k == |rs| {
      assert rs[..k] == rs;
      AlwaysHeld(h, rs, col);
    } else {
      var n := |rs| - 1;
      var init := rs[..n];
      forall i | k <= i < n ensures !SwapsAt(h, Run(h, init[..i], col), init[i]) {
        assert init[..i] == rs[..i];
      }
      assert init[..k] == rs[..k];
      ScoreOnlyFalls(h, init, k, col);
      StepHeld(h, Run(h, init, col), rs[n], col);
    }
  }

  lemma {:induction false} AlwaysHeld(h: seq<Bucket>, rs: seq<Round>, col: Columns)
    requires forall r :: r in rs ==> Readable(h, r)
    ensures Held(Run(h, rs, col), col)
  {
    if rs != [] {
      AlwaysHeld(h, rs[..|rs| - 1], col);
      StepHeld(h, Run(h, rs[..|rs| - 1], col), rs[|rs| - 1], col);
    }
  }

  // ---- NUMERIC columns: splitting costs at most a fixed amount a write

  function Abs(x: real): real {
    if x < 0.0 then -x else x
  }

  /** The ranges the configuration table and the hourly query keep; no weight is above 3. */
  predicate Sane(b: Bucket, cfg: Cfg) {
    && 0.0 <= cfg.wLow <= 3.0 && 0.0 <= cfg.wMid <= 3.0 && 0.0 <= cfg.wHigh <= 3.0
    && OrZero(b.low) >= 0.0 && OrZero(b.mid) >= 0.0 && OrZero(b.high) >= 0.0
  }

  lemma ProductBounded(x: real, w: real)
    requires x >= 0.0 && 0.0 <= w <= 3.0
    ensures 0.0 <= x * w <= x * 3.0
  {
  }

  lemma SumBounded(x: real, y: real, z: real, p: real, q: real, r: real)
    requires 0.0 <= p <= x * 3.0 && 0.0 <= q <= y * 3.0 && 0.0 <= r <= z * 3.0
    ensures 0.0 <= p + q + r <= (x + y + z) * 3.0
  {
  }

  lemma WeightedSumBounded(lo: real, mid: real, hi: real, cfg: Cfg)
    requires lo >= 0.0 && mid >= 0.0 && hi >= 0.0
    requires 0.0 <= cfg.wLow <= 3.0 && 0.0 <= cfg.wMid <= 3.0 && 0.0 <= cfg.wHigh <= 3.0
    ensures 0.0 <= WeightedSum(lo, mid, hi, cfg) <= (lo + mid + hi) * 3.0
  {
    ProductBounded(lo, cfg.wLow);
    ProductBounded(mid, cfg.wMid);
    ProductBounded(hi, cfg.wHigh);
    SumBounded(lo, mid, hi, lo * cfg.wLow, mid * cfg.wMid, hi * cfg.wHigh);
  }

  lemma MeanBounded(lo: real, mid: real, hi: real, cfg: Cfg)
    requires lo >= 0.0 && mid >= 0.0 && hi >= 0.0 && lo + mid + hi > 0.0
    requires 0.0 <= cfg.wLow <= 3.0 && 0.0 <= cfg.wMid <= 3.0 && 0.0 <= cfg.wHigh <= 3.0
    ensures 0.0 <= Mean(lo, mid, hi, cfg) <= 3.0
  {
    WeightedSumBounded(lo, mid, hi, cfg);
    QuotientBounded(WeightedSum(lo, mid, hi, cfg), lo + mid + hi);
  }

  lemma QuotientBounded(top: real, sum: real)
    requires sum > 0.0 && 0.0 <= top <= sum * 3.0
    ensures 0.0 <= top / sum <= 3.0
  {
    var q := top / sum;
    assert q * sum == top;
  }

  lemma WeightBounded(b: Bucket, cfg: Cfg)
    requires Sane(b, cfg)
    ensures 0.0 <= Weight(b, cfg) <= 3.0
  {
    var s := Shares(b);
    if s.0 + s.1 + s.2 > 0.0 {
      MeanBounded(s.0, s.1, s.2, cfg);
    }
  }

  lemma ProductsApart(x: real, y: real, w: real)
    requires 0.0 <= w <= 3.0
    ensures Abs(x * w - y * w) <= 3.0 * Abs(x - y)
  {
    var d := x - y;
    ProductBounded(Abs(d), w);
    if d >= 0.0 {
      assert x * w == y * w + d * w;
    } else {
      assert y * w == x * w + Abs(d) * w;
    }
  }

  function Gain(delta: real, b: Bucket, cfg: Cfg): real {
    Clip(delta) * Weight(b, cfg)
  }

  lemma GainsApart(x: real, y: real, b: Bucket, cfg: Cfg)
    requires Sane(b, cfg)
    ensures Abs(Gain(x, b, cfg) - Gain(y, b, cfg)) <= 3.0 * Abs(x - y)
  {
    WeightBounded(b, cfg);
    ClipsApart(x, y);
    ScaledApart(Clip(x), Clip(y), Weight(b, cfg), Gain(x, b, cfg), Gain(y, b, cfg), Abs(x - y));
  }

  lemma ClipsApart(x: real, y: real)
    ensures Abs(Clip(x) - Clip(y)) <= Abs(x - y)
  {
  }

  lemma ScaledApart(x: real, y: real, w: real, p: real, q: real, d: real)
    requires 0.0 <= w <= 3.0 && p == x * w && q == y * w && Abs(x - y) <= d
    ensures Abs(p - q) <= 3.0 * d
  {
    ProductsApart(x, y, w);
  }

  /** Two accumulators are close: how far apart in hours used, and in the last reading. */
  ghost predicate Close(a: Acc, b: Acc, e: real, d: real) {
    && a.hours.Some? == b.hours.Some?
    && Abs(a.used - b.used) <= e
    && (a.hours.Some? ==> Abs(a.hours.value - b.hours.value) <= d)
  }

  /** A difference in the last reading is paid once, at the next reading, and then forgotten. */
  lemma {:induction false} AccumulateClose(a: Acc, b: Acc, bs: seq<Bucket>, cfg: Cfg, e: real, d: real)
    requires Close(a, b, e, d) && e >= 0.0 && d >= 0.0 && forall x :: x in bs ==> Sane(x, cfg)
    ensures var p, q := Accumulate(a, bs, cfg), Accumulate(b, bs, cfg);
            if Readings(bs) == [] then p == a && q == b
            else Close(p, q, e + 3.0 * d, 0.0)
  {
    if bs != [] {
      var init, x := bs[..|bs| - 1], bs[|bs| - 1];
      AccumulateClose(a, b, init, cfg, e, d);
      AddClose(Accumulate(a, init, cfg), Accumulate(b, init, cfg), x, cfg,
               if Readings(init) == [] then e else e + 3.0 * d, if Readings(init) == [] then d else 0.0);
    }
  }

  lemma AddIs(a: Acc, x: Bucket, cfg: Cfg)
    requires x.hours.Some? && a.hours.Some?
    ensures AddBucket(a, x, cfg) == Acc(a.used + Gain(x.hours.value - a.hours.value, x, cfg), x.hours)
  {
  }

  lemma GainsClose(a: Acc, b: Acc, h: Option<real>, ga: real, gb: real, e: real, d: real)
    requires Close(a, b, e, d) && h.Some? && a.hours.Some?
    requires Abs(ga - gb) <= 3.0 * Abs((h.value - a.hours.value) - (h.value - b.hours.value))
    ensures Close(Acc(a.used + ga, h), Acc(b.used + gb, h), e + 3.0 * d, 0.0)
  {
  }

  lemma AddClose(a: Acc, b: Acc, x: Bucket, cfg: Cfg, e: real, d: real)
    requires Close(a, b, e, d) && d >= 0.0 && Sane(x, cfg)
    ensures if x.hours.None? then AddBucket(a, x, cfg) == a && AddBucket(b, x, cfg) == b
            else Close(AddBucket(a, x, cfg), AddBucket(b, x, cfg), e + 3.0 * d, 0.0)
  {
    if x.hours.Some? && a.hours.Some? {
      var p, q := x.hours.value - a.hours.value, x.hours.value - b.hours.value;
      GainsApart(p, q, x, cfg);
      GainsClose(a, b, x.hours, Gain(p, x, cfg), Gain(q, x, cfg), e, d);
      AddIs(a, x, cfg);
      AddIs(b, x, cfg);
    }
  }

  lemma QuantizeClose(x: real)
    ensures Abs(Quantize(x, 1000.0) - x) <= 0.0005
  {
    var n := (x * 1000.0 + 0.5).Floor;
    assert Quantize(x, 1000.0) * 1000.0 == n as real;
  }

  function Writes(h: seq<Bucket>, rs: seq<Round>, col: Columns): nat
    requires forall r :: r in rs ==> Readable(h, r)
  {
    if rs == [] then 0
    else
      var init := rs[..|rs| - 1];
      Writes(h, init, col) + if Score(Run(h, init, col), InputOf(h, rs[|rs| - 1])).Write? && !rs[|rs| - 1].lost then 1 else 0
  }

  /** At most one write a round, and none for a round that is lost. */
  lemma {:induction false} WritesCounted(h: seq<Bucket>, rs: seq<Round>, col: Columns)
    requires forall r :: r in rs ==> Readable(h, r)
    ensures Writes(h, rs, col) <= |rs|
    ensures (forall r :: r in rs ==> r.lost) ==> Writes(h, rs, col) == 0
  {
    if rs != [] {
      WritesCounted(h, rs[..|rs| - 1], col);
      assert rs[|rs| - 1] in rs;
    }
  }

  /** The row differs from one exact pass by at most 0.002 weighted hours a write. */
  ghost predicate Drifts(h: seq<Bucket>, rec: Option<Record>, cfg: Cfg, n: nat, writes: nat) {
    Passed(h, rec, n) && Close(Before(rec, false), Accumulate(START, h[..n], cfg), writes as real * 0.002, 0.0005)
  }

  lemma StoreClose(row: Record, exact: Acc, e: real, sent: Option<int>)
    requires Close(Acc(row.used, row.lastHours), exact, e, 0.0)
    ensures Close(Before(Some(Stored(WithSent(row, sent), Numeric)), false), exact, e + 0.0005, 0.0005)
  {
    QuantizeClose(row.used);
    if row.lastHours.Some? {
      QuantizeClose(row.lastHours.value);
    }
  }

  lemma WriteDrifts(h: seq<Bucket>, rec: Option<Record>, n: nat, m: nat, row: Record, cfg: Cfg, writes: nat, sent: Option<int>)
    requires Drifts(h, rec, cfg, n, writes) && n < m <= |h| && row.lastTs == h[m - 1].ts
    requires forall b :: b in h ==> Sane(b, cfg)
    requires Acc(row.used, row.lastHours) == Accumulate(Before(rec, false), h[n..m], cfg) && Readings(h[n..m]) != []
    ensures Drifts(h, Some(Stored(WithSent(row, sent), Numeric)), cfg, m, writes + 1)
  {
    Joined(h, n, m, cfg);
    var e := writes as real * 0.002;
    AccumulateClose(Before(rec, false), Accumulate(START, h[..n], cfg), h[n..m], cfg, e, 0.0005);
    StoreClose(row, Accumulate(START, h[..m], cfg), e + 3.0 * 0.0005, sent);
  }

  lemma StepDrifts(h: seq<Bucket>, rec: Option<Record>, r: Round, cfg: Cfg, n: nat, writes: nat) returns (m: nat)
    requires InTimeOrder(h) && Readable(h, r) && SteadyAt(h, rec, r, cfg) && Drifts(h, rec, cfg, n, writes)
    requires forall b :: b in h ==> Sane(b, cfg)
    ensures var wrote := Score(rec, InputOf(h, r)).Write? && !r.lost;
            Drifts(h, Step(h, rec, r, Numeric), cfg, m, writes + if wrote then 1 else 0)
  {
    m := n;
    if Score(rec, InputOf(h, r)).Write? && !r.lost {
      WriteMeans(h, rec, n, r, cfg, Score(rec, InputOf(h, r)));
      m := r.to;
      WriteDrifts(h, rec, n, m, Score(rec, InputOf(h, r)).row, cfg, writes, r.sent);
    }
  }

  lemma {:induction false} RunDrifts(h: seq<Bucket>, rs: seq<Round>, cfg: Cfg) returns (n: nat)
    requires InTimeOrder(h) && Steady(h, rs, cfg, Numeric) && forall b :: b in h ==> Sane(b, cfg)
    ensures Drifts(h, Run(h, rs, Numeric), cfg, n, Writes(h, rs, Numeric))
  {
    n := 0;
    if rs != [] {
      SteadyInit(h, rs, cfg, Numeric);
      n := RunDrifts(h, rs[..|rs| - 1], cfg);
      n := StepDrifts(h, Run(h, rs[..|rs| - 1], Numeric), rs[|rs| - 1], cfg, n, Writes(h, rs[..|rs| - 1], Numeric));
    }
  }

  /** With the columns' three decimals, splitting moves the used hours by at most 0.002 a write from
      what one exact round over the same buckets computes. */
  lemma SplitDriftBounded(h: seq<Bucket>, rs: seq<Round>, once: Round, o: Outcome, cfg: Cfg)
    requires InTimeOrder(h) && Steady(h, rs, cfg, Numeric) && Run(h, rs, Numeric).Some?
    requires forall b :: b in h ==> Sane(b, cfg)
    requires Readable(h, once) && OneCfg(once, cfg) && once.from == 0 < once.to
    requires h[once.to - 1].ts == Run(h, rs, Numeric).value.lastTs
    requires o == Score(None, InputOf(h, once)) && o.Write?
    ensures WithinDrift(Run(h, rs, Numeric), o.row, Writes(h, rs, Numeric))
  {
    var n := RunDrifts(h, rs, cfg);
    SamePlace(h, n, once.to);
    OncePass(h, once, cfg);
    DriftMeans(h, Run(h, rs, Numeric), cfg, n, Writes(h, rs, Numeric), o.row);
  }

  predicate WithinDrift(rec: Option<Record>, row: Record, writes: nat) {
    rec.Some? && Abs(rec.value.used - row.used) <= writes as real * 0.002
  }

  lemma DriftMeans(h: seq<Bucket>, rec: Option<Record>, cfg: Cfg, n: nat, writes: nat, row: Record)
    requires rec.Some? && Drifts(h, rec, cfg, n, writes)
    requires Acc(row.used, row.lastHours) == Accumulate(START, h[..n], cfg)
    ensures WithinDrift(rec, row, writes)
  {
  }

  lemma FloorIs(y: real, n: int)
    requires n as real <= y < n as real + 1.0
    ensures y.Floor == n
  {
  }

  lemma QuantizeAt(x: real, n: int)
    requires n as real <= x * 1000.0 + 0.5 < n as real + 1.0
    ensures Quantize(x, 1000.0) == n as real / 1000.0
  {
    FloorIs(x * 1000.0 + 0.5, n);
  }

  lemma OneReading(a: Acc, b: Bucket, cfg: Cfg)
    ensures Accumulate(a, [b], cfg) == AddBucket(a, b, cfg)
  {
    assert [b][..0] == [];
  }

  lemma TwoReadings(a: Acc, b: Bucket, c: Bucket, cfg: Cfg)
    ensures Accumulate(a, [b, c], cfg) == AddBucket(AddBucket(a, b, cfg), c, cfg)
  {
    assert [b, c][..1] == [b];
    OneReading(a, b, cfg);
  }

  /** At 60 W the weight is the middle one, 1.3. */
  lemma MidWeight(a: Acc, b: Bucket)
    requires a.hours.Some? && b.hours.Some? && b == At60W(b.ts, b.productKey, b.hours.value)
    requires 0.0 <= b.hours.value - a.hours.value <= 1.0
    ensures AddBucket(a, b, LM40) == Acc(a.used + (b.hours.value - a.hours.value) * 1.3, b.hours)
  {
    assert Weight(b, LM40) == 1.3;
  }

  const LM40 := Cfg(10000.0, 1.0, 1.3, 1.8, 0.5)

  function At60W(ts: int, key: string, hours: real): Bucket {
    Bucket(ts, key, Some(hours), Some(60.0), None, None, None)
  }

  lemma BothAtOnce(key: string)
    requires key != ""
    ensures var row := Record(100.0, 0.0, 0, Some(0.0), "m", []);
            var both := Score(Some(row), Input([At60W(1, key, 0.0004), At60W(2, key, 0.0008)], Some("m"), map[(key, "m") := LM40], 0));
            both.Write? && Stored(both.row, Numeric).used == 0.001
  {
    var b1, b2 := At60W(1, key, 0.0004), At60W(2, key, 0.0008);
    TwoNew(Record(100.0, 0.0, 0, Some(0.0), "m", []), b1, b2);
    var a := Acc(0.0, Some(0.0));
    TwoReadings(a, b1, b2, LM40);
    MidWeight(a, b1);
    MidWeight(AddBucket(a, b1, LM40), b2);
    QuantizeAt(0.00104, 1);
  }

  lemma OneFirst(key: string)
    requires key != ""
    ensures var row := Record(100.0, 0.0, 0, Some(0.0), "m", []);
            var first := Score(Some(row), Input([At60W(1, key, 0.0004)], Some("m"), map[(key, "m") := LM40], 0));
            && first.Write? && first.row.lastTs == 1 && first.row.model == "m"
            && Stored(first.row, Numeric).used == 0.001 && Stored(first.row, Numeric).lastHours == Some(0.0)
  {
    var b1 := At60W(1, key, 0.0004);
    OneNew(Record(100.0, 0.0, 0, Some(0.0), "m", []), b1);
    OneReading(Acc(0.0, Some(0.0)), b1, LM40);
    MidWeight(Acc(0.0, Some(0.0)), b1);
    QuantizeAt(0.00052, 1);
    QuantizeAt(0.0004, 0);
  }

  lemma ThenTheOther(key: string, row: Record)
    requires key != "" && row.lastTs == 1 && row.model == "m" && row.used == 0.001 && row.lastHours == Some(0.0)
    ensures var second := Score(Some(row), Input([At60W(1, key, 0.0004), At60W(2, key, 0.0008)], Some("m"), map[(key, "m") := LM40], 0));
            second.Write? && Stored(second.row, Numeric).used == 0.002
  {
    var b1, b2 := At60W(1, key, 0.0004), At60W(2, key, 0.0008);
    OldThenNew(row, b1, b2);
    OneReading(Acc(0.001, Some(0.0)), b2, LM40);
    MidWeight(Acc(0.001, Some(0.0)), b2);
    QuantizeAt(0.00204, 2);
  }

  /** The drift is real: with weight 1.3 and readings 0.0004 apart, two rounds store 0.002 used hours
      where one round stores 0.001. */
  lemma SplitDrifts(key: string)
    requires key != ""
    ensures var inp := Input([At60W(1, key, 0.0004), At60W(2, key, 0.0008)], Some("m"), map[(key, "m") := LM40], 0);
            var row := Record(100.0, 0.0, 0, Some(0.0), "m", []);
            var both := Score(Some(row), inp);
            var first := Score(Some(row), inp.(bs := [At60W(1, key, 0.0004)]));
            && both.Write? && Stored(both.row, Numeric).used == 0.001
            && first.Write?
            && var second := Score(Some(Stored(first.row, Numeric)), inp);
               second.Write? && Stored(second.row, Numeric).used == 0.002
  {
    var row := Record(100.0, 0.0, 0, Some(0.0), "m", []);
    BothAtOnce(key);
    OneFirst(key);
    var first := Score(Some(row), Input([At60W(1, key, 0.0004)], Some("m"), map[(key, "m") := LM40], 0));
    ThenTheOther(key, Stored(first.row, Numeric));
  }
}
