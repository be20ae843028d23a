/**
 * The `options` object of benchmarks/benchmark.js: the ramping-vus stage
 * table and the threshold table. They are configuration read by the k6
 * runtime, so they are modelled as the constant data they are, with the
 * facts the script's authors rely on stated about them.
 */
module K6Options {
  import opened Results

  /** One stage: a duration (written "20s" or "70s" in the script, kept here in seconds) and a VU target. */
  datatype Stage = Stage(durationS: nat, target: nat)

  const Stages: seq<Stage> := [
    Stage(20, 10), Stage(70, 10),
    Stage(20, 50), Stage(70, 50),
    Stage(20, 10), Stage(70, 10),
    Stage(20, 50), Stage(70, 50),
    Stage(20, 10), Stage(70, 10),
    Stage(20, 50), Stage(70, 50),
    Stage(20, 0)
  ]

  const GracefulRampDownS: nat := 30
  const GracefulStopS: nat := 30

  /** A threshold rule: `p(95)<ms` on a latency metric, or `rate<limit` on a Rate. */
  datatype Rule = P95Below(ms: real) | RateBelow(limit: real)

  datatype Threshold = Threshold(metric: string, rule: Rule)

  const Thresholds: seq<Threshold> := [
    Threshold("http_req_duration{type:list}", P95Below(200.0)),
    Threshold("http_req_duration{type:detail}", P95Below(200.0)),
    Threshold("http_req_duration{type:create}", P95Below(300.0)),
    Threshold("http_req_duration{type:update}", P95Below(300.0)),
    Threshold("http_req_duration{type:delete}", P95Below(200.0)),
    Threshold("errors", RateBelow(0.01))
  ]

  /** The time the stages take, end to end. */
  function TotalDuration(stages: seq<Stage>): nat {
    if stages == [] then 0 else stages[0].durationS + TotalDuration(stages[1..])
  }

  /** The largest VU target of the stages. */
  function MaxTarget(stages: seq<Stage>): (m: nat)
    ensures forall i | 0 <= i < |stages| :: stages[i].target <= m
    ensures stages != [] ==> exists i | 0 <= i < |stages| :: stages[i].target == m
  {
    if stages == [] then 0
    else
      var rest := MaxTarget(stages[1..]);
      if stages[0].target >= rest then stages[0].target
      else
        assert exists i | 1 <= i < |stages| :: stages[i].target == rest by {
          var j :| 0 <= j < |stages[1..]| && stages[1..][j].target == rest;
          assert stages[j + 1].target == rest;
        }
        rest
  }

  /**
   * Thirteen stages: twelve that alternate a 20 s ramp with a 70 s hold,
   * their targets alternating in pairs between 10 and 50 VUs, then a 20 s
   * ramp down to 0.
   */
  lemma StageTable()
    ensures |Stages| == 13
    ensures forall i | 0 <= i < 12 :: Stages[i].durationS == (if i % 2 == 0 then 20 else 70)
    ensures forall i | 0 <= i < 12 :: Stages[i].target == (if (i / 2) % 2 == 0 then 10 else 50)
    ensures forall i | 0 <= i < 12 :: Stages[i].target in {10, 50}
    ensures Stages[12] == Stage(20, 0)
  {
  }

  /** The stages last 560 s, short of the "10m" the report's environment names and of the 600 s duration fallback. */
  lemma {:induction false} StagesLast560s()
    ensures TotalDuration(Stages) == 560
    ensures TotalDuration(Stages) < 600
  {
    var s := Stages;
    assert TotalDuration(s[12..]) == 20;
    assert TotalDuration(s[11..]) == 90;
    assert TotalDuration(s[10..]) == 110;
    assert TotalDuration(s[9..]) == 180;
    assert TotalDuration(s[8..]) == 200;
    assert TotalDuration(s[7..]) == 270;
    assert TotalDuration(s[6..]) == 290;
    assert TotalDuration(s[5..]) == 360;
    assert TotalDuration(s[4..]) == 380;
    assert TotalDuration(s[3..]) == 450;
    assert TotalDuration(s[2..]) == 470;
    assert TotalDuration(s[1..]) == 540;
  }

  /**
   * Even when the last iterations use the whole 30 s graceful stop, a run
   * ends by 590 s, inside the 600 s that the duration fallback assumes; the
   * ramp-down grace is as long as the stop grace.
   */
  lemma RunFitsFallback()
    ensures TotalDuration(Stages) + GracefulStopS == 590
    ensures TotalDuration(Stages) + GracefulStopS < 600
    ensures GracefulRampDownS == GracefulStopS == 30
  {
    StagesLast560s();
  }

  /** The peak of the ramp is the 50 VUs the report's environment records. */
  lemma PeakIsReportedVus()
    ensures MaxTarget(Stages) == RunEnvironment.vus
  {
    assert Stages[2].target == 50;
    assert forall i | 0 <= i < |Stages| :: Stages[i].target <= 50 by {
      StageTable();
    }
  }

  /**
   * One latency threshold per endpoint, in the report's endpoint order, with
   * ceilings of 200, 200, 300, 300 and 200 ms; then the global error rate
   * below 1%.
   */
  lemma ThresholdTable()
    ensures |Thresholds| == |Endpoints| + 1
    ensures forall i | 0 <= i < |Endpoints| ::
              Thresholds[i].metric == "http_req_duration{type:" + Endpoints[i] + "}"
    ensures [Thresholds[0].rule, Thresholds[1].rule, Thresholds[2].rule, Thresholds[3].rule, Thresholds[4].rule]
            == [P95Below(200.0), P95Below(200.0), P95Below(300.0), P95Below(300.0), P95Below(200.0)]
    ensures Thresholds[5] == Threshold("errors", RateBelow(0.01))
  {
  }
}
