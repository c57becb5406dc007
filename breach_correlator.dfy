/**
 * The breach correlator (`breach_correlator.py`): one "Upside Down breach"
 * severity from 0 to 10, its label and its recommendation, computed from the
 * list of channels that `analyze` reported as triggered.
 */
module BreachCorrelator {
  import opened Wrappers
  import AnomalyDetection

  /** The highest severity: every increase saturates here. */
  const MaxLevel: int := 10

  /** `BREACH_LEVEL_LABELS`: the display label of each severity. */
  const BreachLevelLabels: map<int, string> := map[
    0 := "All clear",
    1 := "Minor fluctuation",
    2 := "Elevated",
    3 := "Unusual activity",
    4 := "Gate resonance",
    5 := "Dimensional stress",
    6 := "Portal instability",
    7 := "Breach imminent",
    8 := "Upside Down contact",
    9 := "Full breach",
    10 := "Critical — evacuate"
  ]

  /** The fallback label of a severity outside the table. */
  const UnknownLabel: string := "Unknown"

  /** The channels whose triggering adds one to the severity. */
  const CriticalSensors: set<string> := {"temperature", "gas"}

  const ContinueMonitoring: string := "Continue standard monitoring."
  const IncreaseScans: string := "Increase scan frequency. Watch for additional triggers."
  const AlertSecurity: string := "Alert Hawkins Lab security. Prepare containment protocols."
  const Lockdown: string := "Initiate lockdown procedures. Contact Eleven."
  const Evacuate: string := "EVACUATE. Full Upside Down breach protocol."

  /** `BreachAssessment`. */
  datatype BreachAssessment = BreachAssessment(
    level: int,
    levelLabel: string,
    triggeredSensors: seq<string>,
    numTriggered: nat,
    isMultiSensor: bool,
    recommendation: string)

  function Min(a: int, b: int): int {
    if a <= b then a else b
  }

  /** The severity before critical channels are counted: two per triggered channel, at most 8. */
  function BaseLevel(num: nat): (r: int)
    ensures r == if num >= 4 then 8 else 2 * num
  {
    if num == 0 then 0
    else if num == 1 then 2
    else if num == 2 then 4
    else if num == 3 then 6
    else 8
  }

  /**
   * The loop over the triggered list: each critical channel raises `level`
   * by one, never above `MaxLevel`.
   */
  function CriticalBumps(level: int, triggered: seq<string>): int
    decreases |triggered|
  {
    if triggered == [] then level
    else
      var before := CriticalBumps(level, triggered[..|triggered| - 1]);
      if triggered[|triggered| - 1] in CriticalSensors then Min(MaxLevel, before + 1) else before
  }

  /** How many entries of `triggered` are critical channels, repeats included. */
  function CriticalCount(triggered: seq<string>): nat
    decreases |triggered|
  {
    if triggered == [] then 0
    else CriticalCount(triggered[..|triggered| - 1]) + if triggered[|triggered| - 1] in CriticalSensors then 1 else 0
  }

  /**
   * `BREACH_LEVEL_LABELS.get(level, "Unknown")`: the table has a label for
   * every level from 0 to 10 and for no other.
   */
  function Label(level: int): (r: string)
    ensures 0 <= level <= MaxLevel ==> r == BreachLevelLabels[level] && r != UnknownLabel
    ensures level < 0 || MaxLevel < level ==> r == UnknownLabel
  {
    assert 0 <= level <= MaxLevel ==> level in {0, 1, 2, 3, 4, 5, 6, 7, 8, 9, 10};
    if level in BreachLevelLabels then BreachLevelLabels[level] else UnknownLabel
  }

  /** The five recommendation bands, each picked by exactly its range of levels. */
  function Recommendation(level: int): (r: string)
    ensures r == ContinueMonitoring <==> level == 0
    ensures r == IncreaseScans <==> level != 0 && level <= 3
    ensures r == AlertSecurity <==> 4 <= level <= 6
    ensures r == Lockdown <==> 7 <= level <= 8
    ensures r == Evacuate <==> 9 <= level
  {
    if level == 0 then ContinueMonitoring
    else if level <= 3 then IncreaseScans
    else if level <= 6 then AlertSecurity
    else if level <= 8 then Lockdown
    else Evacuate
  }

  /**
   * `compute_breach_level`. `triggered` is the result's
   * `triggered_sensors` entry, `None` when the key is missing.
   */
  function BreachLevel(triggered: Option<seq<string>>): BreachAssessment {
    var sensors := triggered.GetOr([]);
    var num := |sensors|;
    var level := Min(MaxLevel, CriticalBumps(BaseLevel(num), sensors));
    BreachAssessment(level, Label(level), sensors, num, num >= 2, Recommendation(level))
  }

  // ---------------------------------------------------------------------
  // What `compute_breach_level` guarantees
  // ---------------------------------------------------------------------

  /**
   * The saturating loop adds one per critical channel and clamps once:
   * its result is `min(10, level + number of critical entries)`.
   */
  lemma {:induction false} CriticalBumpsIsClampedSum(level: int, triggered: seq<string>)
    requires level <= MaxLevel
    ensures CriticalBumps(level, triggered) == Min(MaxLevel, level + CriticalCount(triggered))
    decreases |triggered|
  {
    if triggered != [] {
      CriticalBumpsIsClampedSum(level, triggered[..|triggered| - 1]);
    }
  }

  /** The critical entries are the occurrences of `temperature` and of `gas`. */
  lemma {:induction false} CriticalCountOccurrences(triggered: seq<string>)
    ensures CriticalCount(triggered) == multiset(triggered)["temperature"] + multiset(triggered)["gas"]
    decreases |triggered|
  {
    if triggered != [] {
      var prefix := triggered[..|triggered| - 1];
      var last := triggered[|triggered| - 1];
      assert triggered == prefix + [last];
      CriticalCountOccurrences(prefix);
    }
  }

  /** The level is the clamped sum of the base level and the critical entries. */
  lemma LevelFormula(triggered: Option<seq<string>>)
    ensures var sensors := triggered.GetOr([]);
            BreachLevel(triggered).level == Min(MaxLevel, BaseLevel(|sensors|) + CriticalCount(sensors))
  {
    var sensors := triggered.GetOr([]);
    CriticalBumpsIsClampedSum(BaseLevel(|sensors|), sensors);
  }

  /** The level is always between 0 and 10, and its label is never the fallback. */
  lemma LevelInRange(triggered: Option<seq<string>>)
    ensures 0 <= BreachLevel(triggered).level <= MaxLevel
    ensures BreachLevel(triggered).levelLabel != UnknownLabel
    ensures BreachLevel(triggered).levelLabel == BreachLevelLabels[BreachLevel(triggered).level]
  {
    LevelFormula(triggered);
  }

  /** The level is zero, and the label "All clear", exactly when nothing triggered. */
  lemma AllClearIffNothingTriggered(triggered: Option<seq<string>>)
    ensures BreachLevel(triggered).level == 0 <==> triggered.GetOr([]) == []
    ensures BreachLevel(triggered).levelLabel == "All clear" <==> triggered.GetOr([]) == []
  {
    LevelFormula(triggered);
    LevelInRange(triggered);
  }

  /**
   * The recommendation names the band the level falls in: monitoring at 0,
   * more scans at 1-3, security at 4-6, lockdown at 7-8, evacuation at 9-10.
   */
  lemma RecommendationBands(triggered: Option<seq<string>>)
    ensures var r := BreachLevel(triggered);
            && (r.recommendation == ContinueMonitoring <==> r.level == 0)
            && (r.recommendation == IncreaseScans <==> 1 <= r.level <= 3)
            && (r.recommendation == AlertSecurity <==> 4 <= r.level <= 6)
            && (r.recommendation == Lockdown <==> 7 <= r.level <= 8)
            && (r.recommendation == Evacuate <==> 9 <= r.level <= 10)
  {
    LevelInRange(triggered);
  }

  /** A single critical channel gives "Unusual activity", level 3. */
  lemma OneCriticalGivesThree(sensor: string)
    requires sensor in CriticalSensors
    ensures BreachLevel(Some([sensor])).level == 3
    ensures BreachLevel(Some([sensor])).recommendation == IncreaseScans
  {
    LevelFormula(Some([sensor]));
    assert [sensor][..0] == [];
  }

  /** Three channels, none critical, give "Portal instability", level 6. */
  lemma ThreeNonCriticalGiveSix(triggered: seq<string>)
    requires |triggered| == 3
    requires forall i | 0 <= i < 3 :: triggered[i] !in CriticalSensors
    ensures BreachLevel(Some(triggered)).level == 6
  {
    LevelFormula(Some(triggered));
    CriticalCountOccurrences(triggered);
    assert multiset(triggered)["temperature"] == 0 && multiset(triggered)["gas"] == 0 by {
      assert "temperature" !in triggered && "gas" !in triggered;
    }
  }

  /** Four or more channels including both critical ones reach the maximum, 10. */
  lemma FourWithBothCriticalGiveTen(triggered: seq<string>)
    requires |triggered| >= 4
    requires "temperature" in triggered && "gas" in triggered
    ensures BreachLevel(Some(triggered)).level == MaxLevel
    ensures BreachLevel(Some(triggered)).recommendation == Evacuate
  {
    LevelFormula(Some(triggered));
    CriticalCountOccurrences(triggered);
  }

  /** One more triggered channel never lowers the level. */
  lemma {:induction false} MoreTriggersNeverLower(triggered: seq<string>, sensor: string)
    ensures BreachLevel(Some(triggered + [sensor])).level >= BreachLevel(Some(triggered)).level
  {
    LevelFormula(Some(triggered));
    LevelFormula(Some(triggered + [sensor]));
    assert (triggered + [sensor])[..|triggered|] == triggered;
  }

  /**
   * Fed the result of `analyze`, the level is zero exactly when no anomaly
   * was detected.
   */
  lemma NoAnomalyIsAllClear(cfg: AnomalyDetection.Settings, histories: map<string, seq<real>>,
                            data: AnomalyDetection.SensorData)
    ensures var result := AnomalyDetection.Analysis(cfg, histories, data);
            BreachLevel(Some(result.triggeredSensors)).level == 0 <==> !result.anomalyDetected
  {
    AnomalyDetection.AnalysisConsistent(cfg, histories, data);
    AllClearIffNothingTriggered(Some(AnomalyDetection.Analysis(cfg, histories, data).triggeredSensors));
  }

  /**
   * `compute_breach_level` as written: the base level, then the loop over
   * the triggered list, then the clamp, label and recommendation.
   */
  method ComputeBreachLevel(triggered: Option<seq<string>>) returns (r: BreachAssessment)
    ensures r == BreachLevel(triggered)
    ensures r.triggeredSensors == triggered.GetOr([])
    ensures r.numTriggered == |r.triggeredSensors| && (r.isMultiSensor <==> r.numTriggered >= 2)
    ensures 0 <= r.level <= MaxLevel
    ensures r.level == Min(MaxLevel, BaseLevel(r.numTriggered) + CriticalCount(r.triggeredSensors))
  {
    var sensors := triggered.GetOr([]);
    var num := |sensors|;
    var level := 0;
    if num == 0 {
      level := 0;
    } else if num == 1 {
      level := 2;
    } else if num == 2 {
      level := 4;
    } else if num == 3 {
      level := 6;
    } else {
      level := 8;
    }
    var i := 0;
    while i < num
      invariant 0 <= i <= num
      invariant level == CriticalBumps(BaseLevel(num), sensors[..i])
    {
      assert sensors[..i + 1][..i] == sensors[..i];
      if sensors[i] in CriticalSensors {
        level := Min(MaxLevel, level + 1);
      }
      i := i + 1;
    }
    assert sensors[..num] == sensors;
    level := Min(MaxLevel, level);
    var levelLabel := Label(level);
    var isMulti := num >= 2;
    var rec := Recommendation(level);
    r := BreachAssessment(level, levelLabel, sensors, num, isMulti, rec);
    LevelFormula(triggered);
    LevelInRange(triggered);
  }
}
