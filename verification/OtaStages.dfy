/** The rollout stages of one firmware: the stage chain and the nested stable sampling. */
module OtaStages {
  import opened Basics

  const STAGES := ["0.1", "1", "10", "50", "100"]

  /** strconv.ParseFloat of each stage. */
  const PERCENT := [0.1, 1.0, 10.0, 50.0, 100.0]

  datatype Batch = Batch(stage: string, targets: seq<string>)

  datatype Request = Request(stage: string, approvedBy: string)

  method StagePct(stage: string) returns (pct: Option<real>)
    ensures pct.Some? <==> stage in STAGES
    ensures forall i :: 0 <= i < |STAGES| && STAGES[i] == stage ==> pct == Some(PERCENT[i])
  {
    StagesDistinct();
    for i := 0 to |STAGES|
      invariant stage !in STAGES[..i]
    {
      if STAGES[i] == stage {
        return Some(PERCENT[i]);
      }
    }
    return None;
  }

  /** Position of a stage; 5 when it is none of them. */
  function IndexOf(stage: string): nat {
    if stage == "0.1" then 0 else if stage == "1" then 1 else if stage == "10" then 2
    else if stage == "50" then 3 else if stage == "100" then 4 else 5
  }

  function NextStage(stage: string): Option<string> {
    if IndexOf(stage) < 4 then Some(STAGES[IndexOf(stage) + 1]) else None
  }

  method ComputeNextStage(stage: string) returns (next: Option<string>)
    ensures next == NextStage(stage)
  {
    StagesDistinct();
    for i := 0 to |STAGES|
      invariant stage !in STAGES[..i] || IndexOf(stage) == 4
    {
      if STAGES[i] == stage && i + 1 < |STAGES| {
        return Some(STAGES[i + 1]);
      }
    }
    return None;
  }

  lemma StagesDistinct()
    ensures forall i :: 0 <= i < 5 ==> IndexOf(STAGES[i]) == i
    ensures forall s :: IndexOf(s) < 5 ==> STAGES[IndexOf(s)] == s
  {
    assert |"0.1"| == 3 && |"1"| == 1 && |"10"| == 2 && |"50"| == 2 && |"100"| == 3;
    assert "0.1"[0] == '0' && "100"[0] == '1' && "10"[0] == '1' && "50"[0] == '5';
  }

  predicate InStage(bucket: real, pct: real) {
    if pct >= 100.0 then true
    else if pct <= 0.0 then false
    else bucket < pct / 100.0
  }

  /** Any percentage: nobody at 0 and below, everybody from 100 on, that share of the buckets between. */
  lemma InStageMeans(bucket: real, pct: real)
    ensures pct <= 0.0 ==> !InStage(bucket, pct)
    ensures pct >= 100.0 ==> InStage(bucket, pct)
    ensures 0.0 < pct < 100.0 ==> (InStage(bucket, pct) <==> 100.0 * bucket < pct)
  {
  }

  /** The five stages and their shares of the devices, one by one. */
  lemma StagesMean(bucket: real)
    ensures InStage(bucket, PERCENT[IndexOf("0.1")]) <==> bucket < 0.001
    ensures InStage(bucket, PERCENT[IndexOf("1")]) <==> bucket < 0.01
    ensures InStage(bucket, PERCENT[IndexOf("10")]) <==> bucket < 0.1
    ensures InStage(bucket, PERCENT[IndexOf("50")]) <==> bucket < 0.5
    ensures InStage(bucket, PERCENT[IndexOf("100")])
  {
    StagesDistinct();
    assert STAGES[0] == "0.1" && STAGES[1] == "1" && STAGES[2] == "10" && STAGES[3] == "50" && STAGES[4] == "100";
  }

  /** Each stage is followed by the next larger one; the full one, and any other text, by none. */
  lemma NextMeans(stage: string)
    ensures NextStage("0.1") == Some("1") && NextStage("1") == Some("10") && NextStage("10") == Some("50")
    ensures NextStage("50") == Some("100") && NextStage("100") == None
    ensures stage !in {"0.1", "1", "10", "50"} ==> NextStage(stage) == None
  {
    StagesDistinct();
    assert STAGES[0] == "0.1" && STAGES[1] == "1" && STAGES[2] == "10" && STAGES[3] == "50" && STAGES[4] == "100";
  }

  /** The only stage the next platform batch may have. */
  function ExpectedNextStage(batches: seq<Batch>): Option<string> {
    if batches == [] then Some("0.1") else NextStage(batches[|batches| - 1].stage)
  }

  predicate Targeted(batches: seq<Batch>, sn: string) {
    exists i :: 0 <= i < |batches| && sn in batches[i].targets
  }

  function Chosen(batches: seq<Batch>, bucket: string -> real, pct: real): string -> bool {
    (sn: string) => !Targeted(batches, sn) && InStage(bucket(sn), pct)
  }

  /** sampleTargets: eligible devices no batch of this firmware has yet, inside the percentage. */
  function SampleTargets(devices: seq<string>, batches: seq<Batch>, bucket: string -> real, pct: real): seq<string> {
    Filter(devices, Chosen(batches, bucket, pct))
  }

  method ComputeSampleTargets(devices: seq<string>, batches: seq<Batch>, bucket: string -> real, pct: real)
    returns (targets: seq<string>)
    ensures targets == SampleTargets(devices, batches, bucket, pct)
  {
    targets := [];
    for i := 0 to |devices|
      invariant targets == SampleTargets(devices[..i], batches, bucket, pct)
    {
      assert devices[..i + 1][..i] == devices[..i];
      if !Targeted(batches, devices[i]) && InStage(bucket(devices[i]), pct) {
        targets := targets + [devices[i]];
      }
    }
    assert devices[..|devices|] == devices;
  }

  /** CreateBatch for a platform batch: stage order, full-stage approval, sampling. */
  function CreateBatch(devices: seq<string>, bucket: string -> real, batches: seq<Batch>, r: Request): Result<seq<Batch>> {
    var expected := ExpectedNextStage(batches);
    if expected.None? || r.stage != expected.value then Err(Conflict)
    else if IndexOf(r.stage) >= 5 then Err(BadParam)
    else if r.stage == "100" && r.approvedBy == "" then Err(Denied)
    else Ok(batches + [Batch(r.stage, SampleTargets(devices, batches, bucket, PERCENT[IndexOf(r.stage)]))])
  }

  function Rollout(devices: seq<string>, bucket: string -> real, requests: seq<Request>): seq<Batch> {
    if requests == [] then []
    else
      var before := Rollout(devices, bucket, requests[..|requests| - 1]);
      var r := CreateBatch(devices, bucket, before, requests[|requests| - 1]);
      if r.Ok? then r.value else before
  }

  ghost predicate Distinct(s: seq<string>) {
    forall i, j :: 0 <= i < j < |s| ==> s[i] != s[j]
  }

  /** Stages are a prefix of the chain; through batch i exactly the devices inside stage i are targeted. */
  ghost predicate ChainOk(devices: seq<string>, bucket: string -> real, batches: seq<Batch>) {
    && |batches| <= 5
    && (forall i :: 0 <= i < |batches| ==> batches[i].stage == STAGES[i])
    && (forall i :: 0 <= i < |batches| ==> Distinct(batches[i].targets))
    && (forall i, j, sn :: 0 <= i < j < |batches| && sn in batches[i].targets ==> sn !in batches[j].targets)
    && (forall i :: 0 <= i < |batches| ==> CoversStage(devices, bucket, batches, i))
  }

  /** The batches through number i target exactly the devices inside stage i. */
  ghost predicate CoversStage(devices: seq<string>, bucket: string -> real, batches: seq<Batch>, i: nat)
    requires i < 5 && i < |batches|
  {
    forall sn :: Targeted(batches[..i + 1], sn) <==> sn in devices && InStage(bucket(sn), PERCENT[i])
  }

  lemma {:induction false} FilterDistinct(s: seq<string>, f: string -> bool)
    requires Distinct(s)
    ensures Distinct(Filter(s, f))
  {
    if s != [] {
      var init, last := s[..|s| - 1], s[|s| - 1];
      FilterDistinct(init, f);
      FilterMembers(init, f);
      assert last !in init;
    }
  }

  /** A larger percentage includes a smaller one. */
  lemma StagesNest(bucket: real, i: nat, j: nat)
    requires i <= j < 5 && InStage(bucket, PERCENT[i])
    ensures InStage(bucket, PERCENT[j])
  {
    assert PERCENT[i] <= PERCENT[j];
  }

  lemma TargetedAppend(batches: seq<Batch>, b: Batch, sn: string)
    ensures Targeted(batches + [b], sn) <==> Targeted(batches, sn) || sn in b.targets
  {
    if sn in b.targets {
      assert (batches + [b])[|batches|] == b;
    }
    if Targeted(batches, sn) {
      var i :| 0 <= i < |batches| && sn in batches[i].targets;
      assert (batches + [b])[i] == batches[i];
    }
  }

  /** Appending the next stage's sample extends the covered devices to exactly that stage. */
  lemma NextCovers(devices: seq<string>, bucket: string -> real, batches: seq<Batch>, sn: string)
    requires ChainOk(devices, bucket, batches) && |batches| < 5
    ensures var n := |batches|;
            var b := Batch(STAGES[n], SampleTargets(devices, batches, bucket, PERCENT[n]));
            && (Targeted(batches + [b], sn) <==> sn in devices && InStage(bucket(sn), PERCENT[n]))
            && (sn in b.targets ==> !Targeted(batches, sn))
  {
    var n := |batches|;
    var b := Batch(STAGES[n], SampleTargets(devices, batches, bucket, PERCENT[n]));
    TargetedAppend(batches, b, sn);
    FilterMembers(devices, Chosen(batches, bucket, PERCENT[n]));
    if n > 0 {
      assert batches[..n] == batches;
      assert CoversStage(devices, bucket, batches, n - 1);
      if Targeted(batches, sn) {
        StagesNest(bucket(sn), n - 1, n);
      }
    }
  }

  lemma AppendKeepsChain(devices: seq<string>, bucket: string -> real, batches: seq<Batch>)
    requires Distinct(devices) && ChainOk(devices, bucket, batches) && |batches| < 5
    ensures var n := |batches|;
            ChainOk(devices, bucket, batches + [Batch(STAGES[n], SampleTargets(devices, batches, bucket, PERCENT[n]))])
  {
    var n := |batches|;
    var b := Batch(STAGES[n], SampleTargets(devices, batches, bucket, PERCENT[n]));
    var all := batches + [b];
    FilterDistinct(devices, Chosen(batches, bucket, PERCENT[n]));
    forall i | 0 <= i < |all| ensures CoversStage(devices, bucket, all, i) {
      if i < n {
        assert CoversStage(devices, bucket, batches, i);
        assert all[..i + 1] == batches[..i + 1];
      } else {
        assert all[..i + 1] == all;
        forall sn ensures Targeted(all, sn) <==> sn in devices && InStage(bucket(sn), PERCENT[i]) {
          NextCovers(devices, bucket, batches, sn);
        }
      }
    }
    forall i, j, sn | 0 <= i < j < |all| && sn in all[i].targets ensures sn !in all[j].targets {
      if j == n {
        NextCovers(devices, bucket, batches, sn);
        assert all[i] == batches[i];
      }
    }
  }

  lemma CreateKeepsChain(devices: seq<string>, bucket: string -> real, batches: seq<Batch>, r: Request)
    requires Distinct(devices) && ChainOk(devices, bucket, batches)
    ensures var res := CreateBatch(devices, bucket, batches, r);
            && (res.Ok? ==> ChainOk(devices, bucket, res.value))
            && (res.Ok? <==> |batches| < 5 && r.stage == STAGES[|batches|] && (|batches| == 4 ==> r.approvedBy != ""))
  {
    StagesDistinct();
    var n := |batches|;
    if n < 5 {
      AppendKeepsChain(devices, bucket, batches);
    }
  }

  /** Over every sequence of create requests, accepted or not, the chain holds. */
  lemma {:induction false} RolloutChain(devices: seq<string>, bucket: string -> real, requests: seq<Request>)
    requires Distinct(devices)
    ensures ChainOk(devices, bucket, Rollout(devices, bucket, requests))
  {
    if requests != [] {
      RolloutChain(devices, bucket, requests[..|requests| - 1]);
      CreateKeepsChain(devices, bucket, Rollout(devices, bucket, requests[..|requests| - 1]), requests[|requests| - 1]);
    }
  }

  /** Once the stage-100 batch exists, every eligible device is in exactly one batch. */
  lemma FullStageCoversOnce(devices: seq<string>, bucket: string -> real, requests: seq<Request>, sn: string)
    requires Distinct(devices) && |Rollout(devices, bucket, requests)| == 5
    ensures var bs := Rollout(devices, bucket, requests);
            && (sn in devices <==> exists i :: 0 <= i < 5 && sn in bs[i].targets)
            && (forall i, j :: 0 <= i < 5 && 0 <= j < 5 && sn in bs[i].targets && sn in bs[j].targets ==> i == j)
  {
    RolloutChain(devices, bucket, requests);
    var bs := Rollout(devices, bucket, requests);
    assert bs[..4 + 1] == bs;
    assert CoversStage(devices, bucket, bs, 4);
  }
}
