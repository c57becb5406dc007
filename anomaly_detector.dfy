/**
 * The streaming anomaly detector of anomaly_detector.py.
 *
 * A `SensorHistory` keeps one channel's newest values in a bounded buffer
 * together with a running count, mean and `m2`. An `AnomalyDetector` owns a
 * map from channel name to history, checks every reading against static
 * bounds and, when z-score detection is on, against the channel's history,
 * and only then records the value in that history.
 *
 * The functions `CheckThreshold`, `ZScoreCheck`, `Assess`, `Scan` and
 * `Analysis` are the reference behaviour; the methods of the two classes are
 * proved to compute it, and the lemmas state what it guarantees.
 */
module AnomalyDetection {
  import opened Wrappers
  import opened Statistics

  /** `Z_SCORE_THRESHOLD`: the default number of standard deviations that counts as anomalous. */
  const DefaultZScoreThreshold: real := 2.5

  /** The default `history_size` of a detector. */
  const DefaultHistorySize: int := 100

  // ---------------------------------------------------------------------
  // Threshold table and the static bounds check
  // ---------------------------------------------------------------------

  /** One row of a threshold table: the accepted range and the unit shown with it. */
  datatype Bounds = Bounds(min: real, max: real, unit: string)

  /** `THRESHOLDS`; the temperature unit is spelled exactly as in the source file. */
  const DefaultThresholds: map<string, Bounds> := map[
    "temperature" := Bounds(15.0, 32.0, "¬∞C"),
    "gas" := Bounds(0.0, 75.0, "ppm"),
    "vibration" := Bounds(0.0, 4.0, "mm/s"),
    "cpu_usage" := Bounds(0.0, 85.0, "%")
  ]

  /** `thresholds or THRESHOLDS`: no table, or an empty one, selects the default table. */
  function ConfiguredThresholds(thresholds: Option<map<string, Bounds>>): (r: map<string, Bounds>)
    ensures thresholds.Some? && thresholds.value != map[] ==> r == thresholds.value
    ensures thresholds.None? || thresholds.value == map[] ==> r == DefaultThresholds
  {
    match thresholds
    case Some(t) => if t == map[] then DefaultThresholds else t
    case None => DefaultThresholds
  }

  datatype Violation = BelowMin | AboveMax

  /** The dictionary `check_threshold` returns: `checked = False` or the bounds verdict. */
  datatype ThresholdResult =
    | NoThresholdConfig
    | ThresholdChecked(isAnomaly: bool, value: real, minThreshold: real, maxThreshold: real,
                       violation: Option<Violation>)

  /**
   * `check_threshold`: a channel missing from the table is not checked (and
   * raises nothing); a configured one is anomalous exactly when the value lies
   * outside `[min, max]`, and the violation names the side, below-min first.
   */
  function CheckThreshold(thresholds: map<string, Bounds>, name: string, value: real): (r: ThresholdResult)
    ensures r.NoThresholdConfig? <==> name !in thresholds
    ensures name in thresholds ==>
              && r.value == value
              && r.minThreshold == thresholds[name].min
              && r.maxThreshold == thresholds[name].max
              && (r.isAnomaly <==> value < thresholds[name].min || value > thresholds[name].max)
              && (r.violation == Some(BelowMin) <==> value < thresholds[name].min)
              && (r.violation == Some(AboveMax) <==>
                    thresholds[name].min <= value && thresholds[name].max < value)
              && (r.violation.Some? <==> r.isAnomaly)
  {
    if name !in thresholds then NoThresholdConfig
    else
      var b := thresholds[name];
      ThresholdChecked(value < b.min || value > b.max, value, b.min, b.max,
                       if value < b.min then Some(BelowMin)
                       else if value > b.max then Some(AboveMax)
                       else None)
  }

  /**
   * The default table: the four channels and their bounds, so that 33 degrees
   * is above the temperature maximum, 23 degrees is accepted, and a channel
   * outside the table is not checked.
   */
  lemma DefaultTableVerdicts()
    ensures DefaultThresholds.Keys == {"temperature", "gas", "vibration", "cpu_usage"}
    ensures CheckThreshold(DefaultThresholds, "temperature", 33.0).violation == Some(AboveMax)
    ensures !CheckThreshold(DefaultThresholds, "temperature", 23.0).isAnomaly
    ensures CheckThreshold(DefaultThresholds, "gas", -1.0).violation == Some(BelowMin)
    ensures CheckThreshold(DefaultThresholds, "vibration", 4.0).violation == None
    ensures CheckThreshold(DefaultThresholds, "cpu_usage", 85.5).violation == Some(AboveMax)
    ensures CheckThreshold(DefaultThresholds, "humidity", 50.0) == NoThresholdConfig
  {
  }

  // ---------------------------------------------------------------------
  // The statistical check
  // ---------------------------------------------------------------------

  /** The dictionary `check_zscore` returns: `insufficient_history`, or the z-score verdict. */
  datatype ZScoreResult =
    | InsufficientHistory(samplesNeeded: nat, samplesCollected: nat)
    | ZScoreChecked(isAnomaly: bool, zscore: real, threshold: real, mean: real, stdDev: real)

  /**
   * `check_zscore` against a history whose statistics cover `samples`: no
   * z-score reports the samples collected so far; a z-score is anomalous
   * when its absolute value strictly exceeds the threshold.
   */
  function ZScoreCheck(samples: seq<real>, value: real, threshold: real, sqrt: real -> real): (r: ZScoreResult)
    ensures r.InsufficientHistory? <==> ZScore(samples, value, sqrt).None?
    ensures r.InsufficientHistory? ==>
              r.samplesNeeded == MinSamplesForZScore && r.samplesCollected == |samples|
    ensures r.ZScoreChecked? ==>
              && r.zscore == ZScore(samples, value, sqrt).value
              && (r.isAnomaly <==> Abs(r.zscore) > threshold)
              && r.threshold == threshold
              && r.mean == Mean(samples)
              && r.stdDev == sqrt(PopVariance(samples))
  {
    match ZScore(samples, value, sqrt)
    case None => InsufficientHistory(MinSamplesForZScore, |samples|)
    case Some(z) => ZScoreChecked(Abs(z) > threshold, z, threshold, Mean(samples), sqrt(PopVariance(samples)))
  }

  /**
   * For a non-negative threshold, the check flags a value exactly when there
   * are at least ten samples with non-zero spread and the value lies strictly
   * more than `threshold` standard deviations from their mean.
   */
  lemma ZScoreCheckFlags(samples: seq<real>, value: real, threshold: real, sqrt: real -> real)
    requires IsSqrt(sqrt)
    requires 0.0 <= threshold
    ensures (ZScoreCheck(samples, value, threshold, sqrt).ZScoreChecked? &&
             ZScoreCheck(samples, value, threshold, sqrt).isAnomaly)
            <==>
            (&& |samples| >= MinSamplesForZScore
             && PopVariance(samples) != 0.0
             && Abs(value - Mean(samples)) > threshold * sqrt(PopVariance(samples)))
  {
    ZScoreCases(samples, value, sqrt);
    if |samples| >= MinSamplesForZScore && PopVariance(samples) != 0.0 {
      ZScoreExceedsIff(samples, value, sqrt, threshold);
    }
  }

  /**
   * Ten or more identical samples and a different value: the z-score is
   * undefined, so the check reports `insufficient_history` although enough
   * samples were collected, and the value is not flagged.
   */
  lemma ConstantHistoryDifferentValue(samples: seq<real>, c: real, value: real, threshold: real, sqrt: real -> real)
    requires IsSqrt(sqrt)
    requires |samples| >= MinSamplesForZScore
    requires forall i | 0 <= i < |samples| :: samples[i] == c
    requires value != c
    ensures ZScoreCheck(samples, value, threshold, sqrt) == InsufficientHistory(MinSamplesForZScore, |samples|)
  {
    ZScoreOfConstant(samples, c, value, sqrt);
  }

  // ---------------------------------------------------------------------
  // Inputs and outputs of `analyze`
  // ---------------------------------------------------------------------

  /** One entry of `readings`: its `value` (possibly missing) and its `unit` ("" when missing). */
  datatype Reading = Reading(value: Option<real>, unit: string)

  /** The `sensor_data` dictionary; `readings` in the dictionary's iteration order. */
  datatype SensorData = SensorData(
    timestamp: Option<string>,
    sensorId: Option<string>,
    location: Option<string>,
    readings: seq<(string, Reading)>)

  /** An entry of `reasons`. */
  datatype Reason = ThresholdViolation(violation: Violation) | ZScoreExceeded {
    /** The text `analyze` records for this reason. */
    function Text(): string {
      match this
      case ThresholdViolation(BelowMin) => "threshold_below_min"
      case ThresholdViolation(AboveMax) => "threshold_above_max"
      case ZScoreExceeded => "zscore_exceeded"
    }
  }

  /** A `summary` entry; `zscoreResult` is present exactly when z-score detection is on. */
  datatype SensorResult = SensorResult(
    value: real,
    unit: string,
    reasons: seq<Reason>,
    thresholdResult: ThresholdResult,
    zscoreResult: Option<ZScoreResult>)

  datatype Metadata = Metadata(
    timestamp: Option<string>,
    sensorId: Option<string>,
    location: Option<string>,
    detectionMethods: seq<string>)

  datatype DetectionResult = DetectionResult(
    anomalyDetected: bool,
    triggeredSensors: seq<string>,
    summary: map<string, SensorResult>,
    metadata: Metadata)

  /** A detector's configuration; `sqrt` stands for `math.sqrt`. */
  datatype Settings = Settings(
    thresholds: map<string, Bounds>,
    zScoreThreshold: real,
    useZScore: bool,
    historySize: int,
    sqrt: real -> real)

  /** The configuration `detect_anomalies` builds. */
  function DefaultSettings(useZScore: bool, sqrt: real -> real): Settings {
    Settings(DefaultThresholds, DefaultZScoreThreshold, useZScore, DefaultHistorySize, sqrt)
  }

  function DetectionMethods(useZScore: bool): seq<string> {
    ["threshold"] + (if useZScore then ["zscore"] else [])
  }

  // ---------------------------------------------------------------------
  // Reference behaviour of `analyze`
  // ---------------------------------------------------------------------

  /** The values a channel has recorded, none for a channel without a history. */
  function HistoryOf(histories: map<string, seq<real>>, name: string): seq<real> {
    if name in histories then histories[name] else []
  }

  function ThresholdReasons(r: ThresholdResult): seq<Reason> {
    if r.ThresholdChecked? && r.isAnomaly && r.violation.Some? then [ThresholdViolation(r.violation.value)] else []
  }

  function ZScoreReasons(r: ZScoreResult): seq<Reason> {
    if r.ZScoreChecked? && r.isAnomaly then [ZScoreExceeded] else []
  }

  /**
   * The `summary` entry `analyze` builds for channel `name` reading `value`,
   * when the channel has recorded the values `seen` before this reading.
   */
  function Assess(cfg: Settings, seen: seq<real>, name: string, value: real, unit: string): SensorResult {
    var tr := CheckThreshold(cfg.thresholds, name, value);
    var zr := ZScoreCheck(Basis(seen, cfg.historySize), value, cfg.zScoreThreshold, cfg.sqrt);
    SensorResult(value, unit,
                 ThresholdReasons(tr) + (if cfg.useZScore then ZScoreReasons(zr) else []),
                 tr,
                 if cfg.useZScore then Some(zr) else None)
  }

  /** What `analyze` has collected so far, and every channel's recorded values. */
  datatype ScanState = ScanState(
    triggered: seq<string>,
    summary: map<string, SensorResult>,
    histories: map<string, seq<real>>)

  /** One pass of the loop over `readings`. */
  function ScanStep(cfg: Settings, st: ScanState, name: string, reading: Reading): ScanState {
    match reading.value
    case None => st
    case Some(v) =>
      var res := Assess(cfg, HistoryOf(st.histories, name), name, v, reading.unit);
      var histories :=
        if cfg.useZScore then st.histories[name := HistoryOf(st.histories, name) + [v]] else st.histories;
      if |res.reasons| > 0 then ScanState(st.triggered + [name], st.summary[name := res], histories)
      else ScanState(st.triggered, st.summary, histories)
  }

  /** The loop over `readings`, in order, from the channel histories `histories`. */
  function Scan(cfg: Settings, histories: map<string, seq<real>>, readings: seq<(string, Reading)>): ScanState
    decreases |readings|
  {
    if readings == [] then ScanState([], map[], histories)
    else
      var last := readings[|readings| - 1];
      ScanStep(cfg, Scan(cfg, histories, readings[..|readings| - 1]), last.0, last.1)
  }

  /** The result `analyze` returns. */
  function Analysis(cfg: Settings, histories: map<string, seq<real>>, data: SensorData): DetectionResult {
    var st := Scan(cfg, histories, data.readings);
    DetectionResult(|st.triggered| > 0, st.triggered, st.summary,
                    Metadata(data.timestamp, data.sensorId, data.location, DetectionMethods(cfg.useZScore)))
  }

  // ---------------------------------------------------------------------
  // What `analyze` guarantees
  // ---------------------------------------------------------------------

  /** Each channel occurs at most once, as in the `readings` dictionary. */
  ghost predicate DistinctNames(readings: seq<(string, Reading)>) {
    forall i, j | 0 <= i < j < |readings| :: readings[i].0 != readings[j].0
  }

  /** The reading `entry` has a value and, checked against `histories`, at least one reason. */
  predicate Fires(cfg: Settings, histories: map<string, seq<real>>, entry: (string, Reading)) {
    && entry.1.value.Some?
    && |Assess(cfg, HistoryOf(histories, entry.0), entry.0, entry.1.value.value, entry.1.unit).reasons| > 0
  }

  /** The channels, in reading order, whose readings fire against `histories`. */
  function FiringNames(cfg: Settings, histories: map<string, seq<real>>, readings: seq<(string, Reading)>): seq<string>
    decreases |readings|
  {
    if readings == [] then []
    else
      var last := readings[|readings| - 1];
      FiringNames(cfg, histories, readings[..|readings| - 1]) + (if Fires(cfg, histories, last) then [last.0] else [])
  }

  /** The reasons of one reading: each names a check that failed, threshold first. */
  lemma AssessReasons(cfg: Settings, seen: seq<real>, name: string, value: real, unit: string)
    ensures var r := Assess(cfg, seen, name, value, unit);
            var z := ZScoreCheck(Basis(seen, cfg.historySize), value, cfg.zScoreThreshold, cfg.sqrt);
            && (ThresholdViolation(BelowMin) in r.reasons <==>
                  name in cfg.thresholds && value < cfg.thresholds[name].min)
            && (ThresholdViolation(AboveMax) in r.reasons <==>
                  name in cfg.thresholds && cfg.thresholds[name].min <= value && cfg.thresholds[name].max < value)
            && (ZScoreExceeded in r.reasons <==> cfg.useZScore && z.ZScoreChecked? && z.isAnomaly)
            && (|r.reasons| > 0 <==>
                  || (name in cfg.thresholds && (value < cfg.thresholds[name].min || cfg.thresholds[name].max < value))
                  || (cfg.useZScore && z.ZScoreChecked? && z.isAnomaly))
            && (r.zscoreResult.Some? <==> cfg.useZScore)
            && |r.reasons| <= 2
            && (forall k | 0 <= k < |r.reasons| && r.reasons[k].ThresholdViolation? :: k == 0)
            && (ZScoreExceeded in r.reasons ==> r.reasons[|r.reasons| - 1] == ZScoreExceeded)
  {
  }

  /** A channel with fewer than ten recorded values is never flagged by its z-score. */
  lemma ZScoreNeedsTenValues(cfg: Settings, seen: seq<real>, name: string, value: real, unit: string)
    requires |seen| < MinSamplesForZScore
    ensures cfg.useZScore ==>
              Assess(cfg, seen, name, value, unit).zscoreResult
              == Some(InsufficientHistory(MinSamplesForZScore, |seen|))
    ensures ZScoreExceeded !in Assess(cfg, seen, name, value, unit).reasons
  {
    assert Basis(seen, cfg.historySize) == seen;
  }

  /** `summary` holds exactly the triggered channels, each with at least one reason. */
  lemma {:induction false} ScanSummaryMatchesTriggered(cfg: Settings, histories: map<string, seq<real>>,
                                                       readings: seq<(string, Reading)>)
    ensures forall n :: n in Scan(cfg, histories, readings).summary <==> n in Scan(cfg, histories, readings).triggered
    ensures forall n | n in Scan(cfg, histories, readings).summary ::
              |Scan(cfg, histories, readings).summary[n].reasons| > 0
    decreases |readings|
  {
    if readings != [] {
      ScanSummaryMatchesTriggered(cfg, histories, readings[..|readings| - 1]);
    }
  }

  /**
   * A channel that has no reading with a value is left alone: its history is
   * neither created nor extended, and it is not triggered.
   */
  lemma {:induction false} ScanLeavesOthersAlone(cfg: Settings, histories: map<string, seq<real>>,
                                                 readings: seq<(string, Reading)>, name: string)
    requires forall i | 0 <= i < |readings| :: readings[i].0 != name || readings[i].1.value.None?
    ensures name in Scan(cfg, histories, readings).histories <==> name in histories
    ensures HistoryOf(Scan(cfg, histories, readings).histories, name) == HistoryOf(histories, name)
    ensures name !in Scan(cfg, histories, readings).summary
    ensures name !in Scan(cfg, histories, readings).triggered
    decreases |readings|
  {
    if readings != [] {
      ScanLeavesOthersAlone(cfg, histories, readings[..|readings| - 1], name);
    }
  }

  lemma DistinctPrefix(readings: seq<(string, Reading)>)
    requires readings != [] && DistinctNames(readings)
    ensures DistinctNames(readings[..|readings| - 1])
    ensures forall i | 0 <= i < |readings| - 1 :: readings[i].0 != readings[|readings| - 1].0
  {
    var prefix := readings[..|readings| - 1];
    forall i, j | 0 <= i < j < |prefix| ensures prefix[i].0 != prefix[j].0 {
      assert prefix[i] == readings[i] && prefix[j] == readings[j];
    }
  }

  /**
   * With each channel read at most once, the triggered channels are, in
   * reading order, those whose readings fire against the histories before
   * the call.
   */
  lemma {:induction false} ScanTriggered(cfg: Settings, histories: map<string, seq<real>>,
                                         readings: seq<(string, Reading)>)
    requires DistinctNames(readings)
    ensures Scan(cfg, histories, readings).triggered == FiringNames(cfg, histories, readings)
    decreases |readings|
  {
    if readings != [] {
      var prefix := readings[..|readings| - 1];
      var last := readings[|readings| - 1];
      DistinctPrefix(readings);
      ScanTriggered(cfg, histories, prefix);
      OthersBeforeLast(readings, prefix, last);
      ScanLeavesOthersAlone(cfg, histories, prefix, last.0);
    }
  }

  /**
   * With each channel read at most once, a reading that fires gets as its
   * summary entry its check against the history its channel had before the
   * call.
   */
  lemma {:induction false} ScanEntry(cfg: Settings, histories: map<string, seq<real>>,
                                     readings: seq<(string, Reading)>, i: nat)
    requires DistinctNames(readings)
    requires i < |readings|
    requires Fires(cfg, histories, readings[i])
    ensures readings[i].0 in Scan(cfg, histories, readings).summary
    ensures Scan(cfg, histories, readings).summary[readings[i].0]
            == Assess(cfg, HistoryOf(histories, readings[i].0), readings[i].0,
                      readings[i].1.value.value, readings[i].1.unit)
    decreases |readings|
  {
    var prefix := readings[..|readings| - 1];
    var last := readings[|readings| - 1];
    DistinctPrefix(readings);
    if i == |readings| - 1 {
      OthersBeforeLast(readings, prefix, last);
      ScanLeavesOthersAlone(cfg, histories, prefix, last.0);
    } else {
      assert prefix[i] == readings[i];
      ScanEntry(cfg, histories, prefix, i);
    }
  }

  /**
   * With each channel read at most once and z-scores on, a reading with a
   * value extends its channel's history by exactly that value.
   */
  lemma {:induction false} ScanRecords(cfg: Settings, histories: map<string, seq<real>>,
                                       readings: seq<(string, Reading)>, i: nat)
    requires DistinctNames(readings)
    requires i < |readings|
    requires cfg.useZScore && readings[i].1.value.Some?
    ensures HistoryOf(Scan(cfg, histories, readings).histories, readings[i].0)
            == HistoryOf(histories, readings[i].0) + [readings[i].1.value.value]
    decreases |readings|
  {
    var prefix := readings[..|readings| - 1];
    var last := readings[|readings| - 1];
    DistinctPrefix(readings);
    if i == |readings| - 1 {
      OthersBeforeLast(readings, prefix, last);
      ScanLeavesOthersAlone(cfg, histories, prefix, last.0);
    } else {
      assert prefix[i] == readings[i];
      ScanRecords(cfg, histories, prefix, i);
    }
  }

  /** No reading before the last one has the last one's channel. */
  lemma OthersBeforeLast(readings: seq<(string, Reading)>, prefix: seq<(string, Reading)>, last: (string, Reading))
    requires readings != [] && DistinctNames(readings)
    requires prefix == readings[..|readings| - 1] && last == readings[|readings| - 1]
    ensures forall j | 0 <= j < |prefix| :: prefix[j].0 != last.0
  {
    forall j | 0 <= j < |prefix| ensures prefix[j].0 != last.0 {
      assert prefix[j] == readings[j];
    }
  }

  /** A reading that fires puts its channel among the firing names. */
  lemma {:induction false} FiringNamesHas(cfg: Settings, histories: map<string, seq<real>>,
                                          readings: seq<(string, Reading)>, i: nat)
    requires i < |readings| && Fires(cfg, histories, readings[i])
    ensures readings[i].0 in FiringNames(cfg, histories, readings)
    decreases |readings|
  {
    if i < |readings| - 1 {
      var prefix := readings[..|readings| - 1];
      assert prefix[i] == readings[i];
      FiringNamesHas(cfg, histories, prefix, i);
    }
  }

  /** Every firing name is the channel of a reading that fires. */
  lemma {:induction false} FiringNamesWitness(cfg: Settings, histories: map<string, seq<real>>,
                                              readings: seq<(string, Reading)>, name: string)
    returns (i: nat)
    requires name in FiringNames(cfg, histories, readings)
    ensures i < |readings| && readings[i].0 == name && Fires(cfg, histories, readings[i])
    decreases |readings|
  {
    var prefix := readings[..|readings| - 1];
    var last := readings[|readings| - 1];
    if name in FiringNames(cfg, histories, prefix) {
      i := FiringNamesWitness(cfg, histories, prefix, name);
      assert prefix[i] == readings[i];
    } else {
      i := |readings| - 1;
    }
  }

  /**
   * The result of `analyze`: `anomaly_detected` exactly when some channel
   * triggered, the summary covers exactly the triggered channels, and the
   * detection methods name the checks that ran.
   */
  lemma AnalysisConsistent(cfg: Settings, histories: map<string, seq<real>>, data: SensorData)
    ensures var r := Analysis(cfg, histories, data);
            && (r.anomalyDetected <==> r.triggeredSensors != [])
            && (forall n :: n in r.summary <==> n in r.triggeredSensors)
            && (forall n | n in r.summary :: |r.summary[n].reasons| > 0)
            && r.metadata.detectionMethods == if cfg.useZScore then ["threshold", "zscore"] else ["threshold"]
  {
    ScanSummaryMatchesTriggered(cfg, histories, data.readings);
  }

  /**
   * For a readings dictionary, `anomaly_detected` holds exactly when some
   * reading fires against the histories before the call, and the triggered
   * channels are those readings' channels in reading order.
   */
  lemma AnomalyDetectedIff(cfg: Settings, histories: map<string, seq<real>>, data: SensorData)
    requires DistinctNames(data.readings)
    ensures Analysis(cfg, histories, data).triggeredSensors == FiringNames(cfg, histories, data.readings)
    ensures Analysis(cfg, histories, data).anomalyDetected <==>
            exists i | 0 <= i < |data.readings| :: Fires(cfg, histories, data.readings[i])
  {
    ScanTriggered(cfg, histories, data.readings);
    var names := FiringNames(cfg, histories, data.readings);
    if names != [] {
      var i := FiringNamesWitness(cfg, histories, data.readings, names[0]);
    }
    if exists i | 0 <= i < |data.readings| :: Fires(cfg, histories, data.readings[i]) {
      var i :| 0 <= i < |data.readings| && Fires(cfg, histories, data.readings[i]);
      FiringNamesHas(cfg, histories, data.readings, i);
    }
  }

  /** The channel histories after `analyze` has run on each of `calls` in turn. */
  function Replay(cfg: Settings, histories: map<string, seq<real>>, calls: seq<SensorData>): map<string, seq<real>>
    decreases |calls|
  {
    if calls == [] then histories
    else Scan(cfg, Replay(cfg, histories, calls[..|calls| - 1]), calls[|calls| - 1].readings).histories
  }

  /** `readings` holds a value for channel `name`. */
  ghost predicate ReadsChannel(readings: seq<(string, Reading)>, name: string) {
    exists i | 0 <= i < |readings| :: readings[i].0 == name && readings[i].1.value.Some?
  }

  /** With z-scores on, each call that reads a channel adds exactly one value to its history. */
  lemma {:induction false} HistoryGrowsByOnePerCall(cfg: Settings, histories: map<string, seq<real>>,
                                                    calls: seq<SensorData>, name: string)
    requires cfg.useZScore
    requires forall k | 0 <= k < |calls| :: DistinctNames(calls[k].readings) && ReadsChannel(calls[k].readings, name)
    ensures |HistoryOf(Replay(cfg, histories, calls), name)| == |HistoryOf(histories, name)| + |calls|
    decreases |calls|
  {
    if calls != [] {
      var prefix := calls[..|calls| - 1];
      var last := calls[|calls| - 1];
      assert forall k | 0 <= k < |prefix| :: prefix[k] == calls[k];
      HistoryGrowsByOnePerCall(cfg, histories, prefix, name);
      var i :| 0 <= i < |last.readings| && last.readings[i].0 == name && last.readings[i].1.value.Some?;
      ScanRecords(cfg, Replay(cfg, histories, prefix), last.readings, i);
    }
  }

  /**
   * The tenth call that reads a channel still finds only nine values in its
   * history, so its z-score check reports insufficient history.
   */
  lemma TenthCallSeesNine(cfg: Settings, calls: seq<SensorData>, name: string, value: real, unit: string)
    requires cfg.useZScore
    requires |calls| == 9
    requires forall k | 0 <= k < |calls| :: DistinctNames(calls[k].readings) && ReadsChannel(calls[k].readings, name)
    ensures Assess(cfg, HistoryOf(Replay(cfg, map[], calls), name), name, value, unit).zscoreResult
            == Some(InsufficientHistory(MinSamplesForZScore, 9))
  {
    HistoryGrowsByOnePerCall(cfg, map[], calls, name);
    ZScoreNeedsTenValues(cfg, HistoryOf(Replay(cfg, map[], calls), name), name, value, unit);
  }

  /** A one-off `detect_anomalies` call never reports `zscore_exceeded`, z-scores on or off. */
  lemma OneOffCallHasNoZScoreReason(data: SensorData, useZScore: bool, sqrt: real -> real)
    requires DistinctNames(data.readings)
    ensures var r := Analysis(DefaultSettings(useZScore, sqrt), map[], data);
            forall n | n in r.summary :: ZScoreExceeded !in r.summary[n].reasons
  {
    var cfg := DefaultSettings(useZScore, sqrt);
    var r := Analysis(cfg, map[], data);
    ScanSummaryMatchesTriggered(cfg, map[], data.readings);
    ScanTriggered(cfg, map[], data.readings);
    forall n | n in r.summary ensures ZScoreExceeded !in r.summary[n].reasons {
      var i := FiringNamesWitness(cfg, map[], data.readings, n);
      ScanEntry(cfg, map[], data.readings, i);
      ZScoreNeedsTenValues(cfg, [], n, data.readings[i].1.value.value, data.readings[i].1.unit);
    }
  }

  lemma RemoveAbsent<K, V>(m: map<K, V>, k: K)
    requires k !in m
    ensures m - {k} == m
  {
  }

  lemma UpdateTwice<K, V>(m: map<K, V>, k: K, a: V, b: V)
    ensures m[k := a][k := b] == m[k := b]
  {
  }

  // ---------------------------------------------------------------------
  // One channel's history
  // ---------------------------------------------------------------------

  /**
   * `SensorHistory`. The ghost `seen` is every value added since creation;
   * `values` is the newest `Capacity` of them, and `count`, `mean` and `m2`
   * describe `Samples()`.
   */
  class SensorHistory {
    const maxSamples: int
    ghost const channel: string
    var values: seq<real>
    var count: int
    var mean: real
    var m2: real
    ghost var seen: seq<real>

    /** The samples the running statistics describe. */
    ghost function Samples(): seq<real>
      reads this
    {
      Basis(seen, maxSamples)
    }

    ghost predicate Valid()
      reads this
    {
      && values == Window(seen)
      && count == |Samples()|
      && mean == Mean(Samples())
      && m2 == M2(Samples())
    }

    constructor(maxSamples: int, ghost channel: string)
      ensures Valid()
      ensures this.maxSamples == maxSamples && this.channel == channel && seen == []
      ensures values == [] && count == 0 && mean == 0.0 && m2 == 0.0
    {
      this.maxSamples := maxSamples;
      this.channel := channel;
      values := [];
      count := 0;
      mean := 0.0;
      m2 := 0.0;
      seen := [];
    }

    /**
     * `add_value`: appends to the buffer (which drops its oldest value when
     * full). Below `maxSamples` the statistics take one Welford step; at
     * `maxSamples` they are recomputed from the buffer.
     */
    method AddValue(value: real)
      requires Valid()
      modifies this
      ensures Valid()
      ensures seen == old(seen) + [value]
      ensures values == DequeAppend(old(values), value)
      ensures |old(values)| == Capacity ==> values == old(values)[1..] + [value]
      ensures |old(values)| < maxSamples ==> Samples() == old(Samples()) + [value]
      ensures |old(values)| >= maxSamples ==> Samples() == values
    {
      ghost var before := Samples();
      WindowAppend(seen, value);
      if |values| >= maxSamples {
        BasisAtCapacity(seen, maxSamples, value);
        values := DequeAppend(values, value);
        seen := seen + [value];
        RecalculateStats();
      } else {
        BasisAppendBelow(seen, maxSamples, value);
        values := DequeAppend(values, value);
        seen := seen + [value];
        count := count + 1;
        mean, m2 := WelfordStep(before, count, mean, m2, value);
      }
    }

    /**
     * Lines 101-104 of `add_value`: from the mean and `m2` of `samples`, and
     * the count already raised to include `value`, the mean and `m2` of
     * `samples + [value]`.
     */
    static method WelfordStep(ghost samples: seq<real>, count: int, mean: real, m2: real, value: real)
      returns (mean': real, m2': real)
      requires count == |samples| + 1
      requires mean == Mean(samples) && m2 == M2(samples)
      ensures mean' == Mean(samples + [value]) && m2' == M2(samples + [value])
    {
      var delta := value - mean;
      mean' := mean + delta / (count as real);
      var delta2 := value - mean';
      m2' := m2 + delta * delta2;
      WelfordFields(samples, value, mean, m2, mean', m2');
    }

    /** `_recalculate_stats`: the count, mean and `m2` of the buffer, computed afresh. */
    method RecalculateStats()
      modifies this
      ensures values == old(values) && seen == old(seen)
      ensures count == |values| && mean == Mean(values) && m2 == M2(values)
    {
      if values == [] {
        count := 0;
        mean := 0.0;
        m2 := 0.0;
        return;
      }
      count := |values|;
      var total := 0.0;
      var i := 0;
      while i < |values|
        invariant 0 <= i <= |values|
        invariant total == Sum(values[..i])
      {
        assert values[..i + 1][..i] == values[..i];
        total := total + values[i];
        i := i + 1;
      }
      assert values[..i] == values;
      mean := total / (count as real);
      var squares := 0.0;
      i := 0;
      while i < |values|
        invariant 0 <= i <= |values|
        invariant squares == SumSqDev(values[..i], mean)
      {
        assert values[..i + 1][..i] == values[..i];
        squares := squares + Square(values[i] - mean);
        i := i + 1;
      }
      assert values[..i] == values;
      m2 := squares;
    }

    /** `variance`: the population variance of the samples, never negative. */
    function Variance(): (r: real)
      reads this
      requires Valid()
      ensures r == PopVariance(Samples())
      ensures r >= 0.0
    {
      PopVarianceNonneg(Samples());
      if count < 2 then 0.0 else m2 / (count as real)
    }

    /** `std_dev`: zero exactly when the variance is. */
    function StdDev(sqrt: real -> real): (r: real)
      reads this
      requires Valid()
      requires IsSqrt(sqrt)
      ensures r == sqrt(PopVariance(Samples()))
      ensures r >= 0.0
      ensures r == 0.0 <==> PopVariance(Samples()) == 0.0
    {
      SqrtZeroIff(sqrt, Variance());
      sqrt(Variance())
    }

    /** `get_zscore`: the reference z-score of `value` against the samples. */
    function GetZScore(value: real, sqrt: real -> real): (r: Option<real>)
      reads this
      requires Valid()
      requires IsSqrt(sqrt)
      ensures r == ZScore(Samples(), value, sqrt)
      ensures count < MinSamplesForZScore ==> r == None
    {
      if count < MinSamplesForZScore then None
      else if StdDev(sqrt) == 0.0 then (if value == mean then Some(0.0) else None)
      else Some((value - mean) / StdDev(sqrt))
    }
  }

  // ---------------------------------------------------------------------
  // The detector
  // ---------------------------------------------------------------------

  /**
   * `AnomalyDetector`. The ghost `recorded` is every channel's recorded
   * values: the `seen` of its history.
   */
  class AnomalyDetector {
    const thresholds: map<string, Bounds>
    const zScoreThreshold: real
    const useZScore: bool
    const historySize: int
    const sqrt: real -> real
    var sensorHistory: map<string, SensorHistory>
    ghost var recorded: map<string, seq<real>>

    /**
     * Every history is valid, sized by `historySize` and tagged with its own
     * channel (so no two channels share one).
     */
    ghost predicate Valid()
      reads this, sensorHistory.Values
    {
      && IsSqrt(sqrt)
      && (forall n :: n in recorded <==> n in sensorHistory)
      && (forall n | n in sensorHistory ::
            && sensorHistory[n].Valid()
            && sensorHistory[n].maxSamples == historySize
            && sensorHistory[n].channel == n
            && sensorHistory[n].seen == recorded[n])
    }

    function Config(): Settings {
      Settings(thresholds, zScoreThreshold, useZScore, historySize, sqrt)
    }

    /** `__init__`; `sqrt` is the square root the standard deviation uses. */
    constructor(sqrt: real -> real, thresholds: Option<map<string, Bounds>> := None,
                zScoreThreshold: real := DefaultZScoreThreshold, useZScore: bool := true,
                historySize: int := DefaultHistorySize)
      requires IsSqrt(sqrt)
      ensures Valid()
      ensures this.thresholds == ConfiguredThresholds(thresholds)
      ensures this.zScoreThreshold == zScoreThreshold && this.useZScore == useZScore
      ensures this.historySize == historySize && this.sqrt == sqrt
      ensures sensorHistory == map[] && recorded == map[]
    {
      this.thresholds := ConfiguredThresholds(thresholds);
      this.zScoreThreshold := zScoreThreshold;
      this.useZScore := useZScore;
      this.historySize := historySize;
      this.sqrt := sqrt;
      sensorHistory := map[];
      recorded := map[];
    }

    /** `_get_or_create_history`: a channel without a history gets a new, empty one. */
    method GetOrCreateHistory(name: string) returns (h: SensorHistory)
      requires Valid()
      modifies this
      ensures Valid()
      ensures name in sensorHistory && h == sensorHistory[name]
      ensures name in old(sensorHistory) ==> sensorHistory == old(sensorHistory) && recorded == old(recorded)
      ensures name !in old(sensorHistory) ==>
                && fresh(h)
                && sensorHistory == old(sensorHistory)[name := h]
                && recorded == old(recorded)[name := []]
    {
      if name !in sensorHistory {
        var created := new SensorHistory(historySize, name);
        sensorHistory := sensorHistory[name := created];
        recorded := recorded[name := []];
      }
      h := sensorHistory[name];
    }

    /**
     * `check_zscore`: the z-score check against the channel's history as it
     * stands, which is created if missing but gains no value.
     */
    method CheckZScore(name: string, value: real) returns (r: ZScoreResult)
      requires Valid()
      modifies this
      ensures Valid()
      ensures r == ZScoreCheck(Basis(HistoryOf(old(recorded), name), historySize), value, zScoreThreshold, sqrt)
      ensures name in old(recorded) ==> recorded == old(recorded)
      ensures name !in old(recorded) ==> recorded == old(recorded)[name := []]
      ensures forall h | h in sensorHistory.Values :: h in old(sensorHistory.Values) || fresh(h)
    {
      var h := GetOrCreateHistory(name);
      var z := h.GetZScore(value, sqrt);
      if z.None? {
        r := InsufficientHistory(MinSamplesForZScore, h.count);
      } else {
        r := ZScoreChecked(Abs(z.value) > zScoreThreshold, z.value, zScoreThreshold, h.mean, h.StdDev(sqrt));
      }
    }

    /**
     * Lines 334-335 of `analyze`: records `value` in the channel's history.
     * The history always exists here because `check_zscore` has just created
     * it, so `_get_or_create_history` amounts to a lookup.
     */
    method RecordValue(name: string, value: real)
      requires Valid()
      requires name in recorded
      modifies this, sensorHistory.Values
      ensures Valid()
      ensures recorded == old(recorded)[name := old(recorded)[name] + [value]]
      ensures forall h | h in sensorHistory.Values :: h in old(sensorHistory.Values) || fresh(h)
    {
      var h := sensorHistory[name];
      h.AddValue(value);
      recorded := recorded[name := recorded[name] + [value]];
      forall n | n in sensorHistory
        ensures sensorHistory[n].Valid() && sensorHistory[n].seen == recorded[n]
      {
        if n != name {
          assert sensorHistory[n].channel != h.channel;
        }
      }
    }

    /**
     * Lines 326-335 of `analyze`: the z-score check against the channel's
     * history, and only then the value recorded in it.
     */
    method CheckThenRecord(name: string, value: real) returns (z: ZScoreResult)
      requires Valid()
      modifies this, sensorHistory.Values
      ensures Valid()
      ensures z == ZScoreCheck(Basis(HistoryOf(old(recorded), name), historySize), value, zScoreThreshold, sqrt)
      ensures recorded == old(recorded)[name := HistoryOf(old(recorded), name) + [value]]
      ensures forall h | h in sensorHistory.Values :: h in old(sensorHistory.Values) || fresh(h)
    {
      z := CheckZScore(name, value);
      RecordValue(name, value);
      if name !in old(recorded) {
        assert [] + [value] == [value];
        UpdateTwice(old(recorded), name, [], [value]);
      }
    }

    /**
     * One pass of the loop in `analyze`: the reading is checked against the
     * channel's history as it stands, then (with z-scores on) recorded in it,
     * and the channel is appended to the triggered list when it has a reason.
     */
    method AnalyzeReading(name: string, reading: Reading, triggered: seq<string>, summary: map<string, SensorResult>)
      returns (triggered': seq<string>, summary': map<string, SensorResult>)
      requires Valid()
      modifies this, sensorHistory.Values
      ensures Valid()
      ensures ScanState(triggered', summary', recorded)
              == ScanStep(Config(), ScanState(triggered, summary, old(recorded)), name, reading)
      ensures forall h | h in sensorHistory.Values :: h in old(sensorHistory.Values) || fresh(h)
    {
      triggered', summary' := triggered, summary;
      if reading.value.Some? {
        var value := reading.value.value;
        ghost var expected := Assess(Config(), HistoryOf(old(recorded), name), name, value, reading.unit);
        var thresholdResult := CheckThreshold(thresholds, name, value);
        var reasons := ThresholdReasons(thresholdResult);
        var zscoreResult: Option<ZScoreResult> := None;
        if useZScore {
          var z := CheckThenRecord(name, value);
          zscoreResult := Some(z);
          reasons := reasons + ZScoreReasons(z);
        } else {
          assert reasons + [] == reasons;
        }
        assert SensorResult(value, reading.unit, reasons, thresholdResult, zscoreResult) == expected;
        if |reasons| > 0 {
          triggered' := triggered + [name];
          summary' := summary[name := SensorResult(value, reading.unit, reasons, thresholdResult, zscoreResult)];
        }
      }
    }

    /**
     * `analyze`: the reference result for the histories as they stand, after
     * which every history holds what the reference scan recorded.
     */
    method Analyze(data: SensorData) returns (r: DetectionResult)
      requires Valid()
      modifies this, sensorHistory.Values
      ensures Valid()
      ensures r == Analysis(Config(), old(recorded), data)
      ensures recorded == Scan(Config(), old(recorded), data.readings).histories
    {
      var readings := data.readings;
      var triggered: seq<string> := [];
      var summary: map<string, SensorResult> := map[];
      var i := 0;
      while i < |readings|
        invariant 0 <= i <= |readings|
        invariant Valid()
        invariant forall h | h in sensorHistory.Values :: h in old(sensorHistory.Values) || fresh(h)
        invariant Scan(Config(), old(recorded), readings[..i]) == ScanState(triggered, summary, recorded)
      {
        assert readings[..i + 1][..i] == readings[..i];
        triggered, summary := AnalyzeReading(readings[i].0, readings[i].1, triggered, summary);
        i := i + 1;
      }
      assert readings[..i] == readings;
      r := DetectionResult(|triggered| > 0, triggered, summary,
                           Metadata(data.timestamp, data.sensorId, data.location, DetectionMethods(useZScore)));
    }

    /**
     * `reset_history`: a non-empty name drops that channel's history (no-op
     * when absent); no name, or the empty name, drops every history.
     */
    method ResetHistory(name: Option<string>)
      requires Valid()
      modifies this
      ensures Valid()
      ensures name.Some? && name.value != "" ==> sensorHistory == old(sensorHistory) - {name.value}
      ensures name.Some? && name.value != "" ==> recorded == old(recorded) - {name.value}
      ensures name.None? || name.value == "" ==> sensorHistory == map[] && recorded == map[]
    {
      if name.Some? && name.value != "" {
        if name.value in sensorHistory {
          sensorHistory := sensorHistory - {name.value};
          recorded := recorded - {name.value};
        } else {
          RemoveAbsent(sensorHistory, name.value);
          RemoveAbsent(recorded, name.value);
        }
      } else {
        sensorHistory := map[];
        recorded := map[];
      }
    }
  }

  /** `detect_anomalies`: one call of a fresh detector with the default settings. */
  method DetectAnomalies(data: SensorData, sqrt: real -> real, useZScore: bool := false) returns (r: DetectionResult)
    requires IsSqrt(sqrt)
    ensures r == Analysis(DefaultSettings(useZScore, sqrt), map[], data)
  {
    var detector := new AnomalyDetector(sqrt, None, DefaultZScoreThreshold, useZScore, DefaultHistorySize);
    r := detector.Analyze(data);
  }
}
