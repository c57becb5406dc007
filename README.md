# Hawkins Anomaly Detection System: the detection core in Dafny

The model covers the part of the Hawkins lab monitor that turns sensor readings into alerts:

- **`SensorHistory`** keeps one channel's newest values in a buffer of 100. It also keeps a running count, mean and `m2` (the sum of squared deviations). These are updated by Welford's one-pass step, or recomputed from the buffer once it holds `max_samples` values. From them it derives the population variance, the standard deviation and a value's z-score.
- **`AnomalyDetector`** holds a threshold table, a z-score threshold, a z-score switch and one `SensorHistory` per channel.
  - `analyze` takes the readings one at a time. Each reading is checked against its channel's static bounds. With the z-score switch on, it is also checked against the channel's history, and only then added to that history.
  - The result lists the triggered channels in reading order, with a summary entry for each and some metadata.
  - `reset_history` drops one channel's history, or all of them.
  - `detect_anomalies` is a single call on a fresh detector.
- **`compute_breach_level`** maps the triggered channels to one severity from 0 to 10, together with its label and a recommendation.

Files:

- `wrappers.dfy`: `Option`, which stands for Python's `None`.
- `statistics.dfy`: the exact reference statistics, together with the lemmas that make them usable:
  - sum, mean, `m2`, population variance and z-score;
  - the 100-slot buffer (`Window`, `DequeAppend`);
  - the samples the running fields describe (`Basis`);
  - proofs that Welford's update is exact and how the z-score behaves.
- `anomaly_detector.dfy`:
  - the two classes;
  - the reference behaviour of one reading (`Assess`) and of the whole loop (`Scan`, `Analysis`);
  - lemmas about what `analyze` guarantees across one call and across a sequence of calls (`Replay`).
- `breach_correlator.dfy`: the severity score as a function, the method with the loop, and the lemmas about levels, labels and recommendation bands.

## How the model is built

**SensorHistory.** Each history has a ghost `seen`: every value added to it since it was created.

- `values` is always the newest 100 values of `seen`.
- `count`, `mean` and `m2` are always the exact count, mean and `m2` of `Samples()`.
  - When `max_samples` is at most 100, `Samples()` is the buffer.
  - Otherwise it is all of `seen`.

`AddValue` keeps this invariant under both branches of `add_value`.

**AnomalyDetector.** The detector has a ghost map `recorded`, which holds every channel's `seen`.

- Every method is proved against the reference functions, as a function of the old `recorded`.
  - `Analyze` returns exactly `Analysis(Config(), old(recorded), data)`.
  - It leaves `recorded` as `Scan(...).histories`.
- Each history carries a ghost `channel` tag equal to its key. This is how the model shows that no two channels share a history object.

**Square root.** `math.sqrt` enters as a parameter `sqrt`. Every lemma that needs it asks only that `sqrt(0) = 0` and that `sqrt(x)` is a non-negative root of `x` for `x >= 0` (`IsSqrt`).

## Model

| member | source | states |
|---|---|---|
| Statistics.Window | anomaly_detector.py:86 | The reference contents of `deque(maxlen=100)` after every value seen; `SensorHistory.Valid` keeps `values` equal to it, and `WindowIsNewest` / `WindowAppend` characterise it. |
| Statistics.DequeAppend | anomaly_detector.py:96 | The reference `deque.append` with maxlen 100, which `AddValue` is proved to perform; `WindowAppend` ties it to `Window`. |
| Statistics.WindowIsNewest | anomaly_detector.py:86 | The buffer holds the smaller of 100 and the number of values seen, and they are the newest values seen, in order. |
| Statistics.Mean | anomaly_detector.py:115 | The reference mean (0.0 when empty), which `Valid` makes the running `mean` equal to; `MeanAppend` and `SumIsCountTimesMean` characterise it. |
| Statistics.M2 | anomaly_detector.py:116 | The reference sum of squared deviations from the mean, which `Valid` makes the running `m2` equal to; `M2Append` and `SumSqDevNonneg` characterise it. |
| Statistics.PopVariance | anomaly_detector.py:118-123 | The reference population variance, which `SensorHistory.Variance` is proved equal to; `PopVarianceNonneg` characterises it. |
| Statistics.ZScore | anomaly_detector.py:130-139 | The reference z-score, which `SensorHistory.GetZScore` is proved equal to; `ZScoreCases` states its cases. |
| Statistics.WindowAppend | anomaly_detector.py:86 | Adding a value to everything seen adds it to the 100-slot buffer, and a full buffer drops its oldest value. |
| Statistics.BasisAppendBelow | anomaly_detector.py:98-104 | While the buffer holds fewer than `max_samples` values, the samples behind the statistics grow by exactly the new value. |
| Statistics.BasisAtCapacity | anomaly_detector.py:95-97 | Once the buffer has reached `max_samples`, the statistics describe exactly the retained buffer. |
| Statistics.MeanAppend | anomaly_detector.py:100-102 | Adding `v` to `n` samples moves their mean by `(v - mean) / (n + 1)`. |
| Statistics.M2Append | anomaly_detector.py:101-104 | The `m2` of the extended samples is the old `m2` plus `(v - old mean) * (v - new mean)`. |
| Statistics.WelfordFields | anomaly_detector.py:99-104 | Welford's one-pass step is exact: applied to running field values that equal the mean and `m2` of `s`, it yields the mean and `m2` of `s + [v]`. |
| Statistics.SumIsCountTimesMean | anomaly_detector.py:114-115 | `count * mean == sum` for every sample, the empty one included. |
| Statistics.SumSqDevNonneg | anomaly_detector.py:116 | A sum of squared deviations is never negative. |
| Statistics.SumSqDevExpand | anomaly_detector.py:116 | The sum of `(x - c)^2` expands to `sum x^2 - 2c sum x + n c^2`. |
| Statistics.PopVarianceNonneg | anomaly_detector.py:118-123 | The population variance is never negative, and it is zero below two samples. |
| Statistics.SqrtZeroIff | anomaly_detector.py:125-128 | The standard deviation is non-negative, and it is zero exactly when the variance is. |
| Statistics.ConstantStatistics | anomaly_detector.py:114-123 | Samples that all equal `c` have mean `c`, zero `m2` and zero variance. |
| Statistics.ZScoreCases | anomaly_detector.py:130-139 | The cases of the z-score: <ul><li>undefined below ten samples;</li><li>with zero spread, 0 for the mean and undefined for any other value;</li><li>otherwise defined, with `z * std_dev == value - mean`.</li></ul> |
| Statistics.ZScoreOfConstant | anomaly_detector.py:137-138 | Against ten or more equal samples `c`, the z-score of `c` is 0 and that of any other value is undefined. |
| Statistics.ZScoreExceedsIff | anomaly_detector.py:237 | With non-zero spread, `abs(z) > t` holds exactly when the value lies more than `t` standard deviations from the mean. |
| AnomalyDetection.ConfiguredThresholds | anomaly_detector.py:180 | `thresholds or THRESHOLDS`: no table, or an empty one, selects the default table; any other table is used as given. |
| AnomalyDetection.DefaultTableVerdicts | anomaly_detector.py:65-70 | `THRESHOLDS` covers exactly temperature, gas, vibration and cpu_usage: 33 degrees is above the temperature maximum, 23 accepted, -1 ppm of gas below minimum, 4.0 mm/s accepted at the bound, 85.5 % CPU above maximum, and an unlisted channel is not checked. |
| AnomalyDetection.CheckThreshold | anomaly_detector.py:194-217 | A channel missing from the table is reported as not checked. A configured channel is flagged exactly when the value is below `min` or above `max`. The violation is `below_min` exactly when the value is below `min`, and `above_max` exactly when it is at least `min` and above `max`. A violation is present exactly when the value is flagged. The bounds are echoed. |
| AnomalyDetection.ZScoreCheck | anomaly_detector.py:219-246 | The check reports insufficient history exactly when the z-score is undefined, with 10 needed and the sample count collected. Otherwise it reports the z-score, the mean and the standard deviation, and it flags the value exactly when `abs(z)` strictly exceeds the threshold. |
| AnomalyDetection.ZScoreCheckFlags | anomaly_detector.py:226-237 | For a non-negative threshold, a value is flagged exactly when there are at least 10 samples, their spread is non-zero, and the value lies strictly more than `threshold` standard deviations from their mean. |
| AnomalyDetection.ConstantHistoryDifferentValue | anomaly_detector.py:226-235 | Ten or more identical samples and a different value give `insufficient_history`, with the full sample count, even though enough samples were collected. |
| AnomalyDetection.Assess | anomaly_detector.py:312-331 | The reference summary entry of one reading against its channel's recorded values, which `AnomalyDetector.AnalyzeReading` is proved to build; `AssessReasons` characterises it. |
| AnomalyDetection.ScanStep | anomaly_detector.py:307-340 | The reference of one pass of the loop, which `AnomalyDetector.AnalyzeReading` is proved equal to. |
| AnomalyDetection.Scan | anomaly_detector.py:307-340 | The reference of the whole loop over the readings, which the loop of `AnomalyDetector.Analyze` is proved to follow; `ScanTriggered`, `ScanEntry`, `ScanSummaryMatchesTriggered` and `ScanLeavesOthersAlone` characterise it. |
| AnomalyDetection.Analysis | anomaly_detector.py:344-356 | The reference result of `analyze`, which `AnomalyDetector.Analyze` and `DetectAnomalies` are proved equal to; `AnalysisConsistent` and `AnomalyDetectedIff` characterise it. |
| AnomalyDetection.AssessReasons | anomaly_detector.py:312-331 | A reading's reasons name exactly the checks that failed: <ul><li>`threshold_below_min` exactly when the value is below `min`;</li><li>`threshold_above_max` exactly when it is at least `min` and above `max`;</li><li>`zscore_exceeded` exactly when z-scores are on and the z-score check flags the value.</li></ul> There are at most two reasons, a threshold reason can only come first and `zscore_exceeded` only last. A z-score result is present exactly when z-scores are on. |
| AnomalyDetection.ZScoreNeedsTenValues | anomaly_detector.py:326-331 | With fewer than ten recorded values, the z-score result is `insufficient_history` with that count, and `zscore_exceeded` is never a reason. |
| AnomalyDetection.ScanSummaryMatchesTriggered | anomaly_detector.py:337-340 | `summary` holds exactly the triggered channels, and each of them has at least one reason. |
| AnomalyDetection.ScanLeavesOthersAlone | anomaly_detector.py:307-310 | A channel with no reading that has a value is not given a history, its history is not extended, and it is neither triggered nor summarised. |
| AnomalyDetection.ScanTriggered | anomaly_detector.py:307-340 | With each channel read once, the triggered channels are exactly, in reading order, those whose readings fire against the histories as they were before the call. |
| AnomalyDetection.ScanEntry | anomaly_detector.py:318-340 | With each channel read once, a reading that fires gets as its summary entry its check against the channel's history before the call. |
| AnomalyDetection.ScanRecords | anomaly_detector.py:326-335 | With each channel read once and z-scores on, each reading with a value extends its channel's history by exactly that value. |
| AnomalyDetection.FiringNamesHas | anomaly_detector.py:337-339 | A reading that fires puts its channel among the triggered names. |
| AnomalyDetection.FiringNamesWitness | anomaly_detector.py:337-339 | Every triggered name belongs to a reading that fires. |
| AnomalyDetection.AnalysisConsistent | anomaly_detector.py:344-354 | `anomaly_detected` holds exactly when some channel triggered. The summary keys are exactly the triggered channels, each entry has a reason, and the detection methods name the checks that ran. |
| AnomalyDetection.AnomalyDetectedIff | anomaly_detector.py:337-347 | For a readings dictionary, the triggered list is exactly the firing channels in reading order, and `anomaly_detected` holds exactly when some reading fires. |
| AnomalyDetection.HistoryGrowsByOnePerCall | anomaly_detector.py:326-335 | With z-scores on, each call that reads a channel adds exactly one value to that channel's history. |
| AnomalyDetection.TenthCallSeesNine | anomaly_detector.py:326-335 | On the tenth call that reads a channel of a new detector, its z-score check still sees nine values and reports insufficient history. |
| AnomalyDetection.OneOffCallHasNoZScoreReason | anomaly_detector.py:372-397 | A single `detect_anomalies` call never reports `zscore_exceeded`, whether z-scores are on or off. |
| AnomalyDetection.SensorHistory.constructor | anomaly_detector.py:85-89 | A new history is empty, its statistics are zero, and the invariant holds. |
| AnomalyDetection.SensorHistory.AddValue | anomaly_detector.py:91-104 | The buffer gains the value and drops its oldest value when full. The invariant holds afterwards: the count, mean and `m2` are exact for the samples. Below `max_samples` those samples gain exactly the value; at `max_samples` they are the buffer. |
| AnomalyDetection.SensorHistory.WelfordStep | anomaly_detector.py:101-104 | From the exact mean and `m2` of some samples, and the count raised to include the new value, the update yields the exact mean and `m2` of the samples extended by that value. |
| AnomalyDetection.SensorHistory.RecalculateStats | anomaly_detector.py:106-116 | The count, mean and `m2` become the exact ones of the buffer; the buffer is unchanged. |
| AnomalyDetection.SensorHistory.Variance | anomaly_detector.py:118-123 | The population variance of the samples, which is never negative. |
| AnomalyDetection.SensorHistory.StdDev | anomaly_detector.py:125-128 | The square root of the samples' variance, which is non-negative and is zero exactly when the variance is. |
| AnomalyDetection.SensorHistory.GetZScore | anomaly_detector.py:130-139 | The reference z-score of the value against the samples, which is undefined below ten samples. |
| AnomalyDetection.AnomalyDetector.constructor | anomaly_detector.py:164-186 | The configured (or default) thresholds, the other settings as given, and no histories. |
| AnomalyDetection.AnomalyDetector.GetOrCreateHistory | anomaly_detector.py:188-192 | Returns the channel's history. A missing channel gets a fresh, empty one and nothing else changes. An existing channel changes nothing. |
| AnomalyDetection.AnomalyDetector.CheckZScore | anomaly_detector.py:219-246 | The z-score check against the channel's history before the call. The history is created if missing and gains no value. |
| AnomalyDetection.AnomalyDetector.RecordValue | anomaly_detector.py:333-335 | The channel's recorded values gain exactly `value`; every other channel is unchanged. |
| AnomalyDetection.AnomalyDetector.CheckThenRecord | anomaly_detector.py:326-335 | The check sees the history before this value, and only then is the value recorded. |
| AnomalyDetection.AnomalyDetector.AnalyzeReading | anomaly_detector.py:307-340 | One pass of the loop: the state after it is the reference `ScanStep` of the state before it. |
| AnomalyDetection.AnomalyDetector.Analyze | anomaly_detector.py:303-356 | Returns the reference `Analysis` of the histories before the call and leaves every history as the reference scan records it. |
| AnomalyDetection.AnomalyDetector.ResetHistory | anomaly_detector.py:358-369 | A non-empty name drops only that channel, and a missing name is a no-op. No name, or the empty name, drops every history. |
| AnomalyDetection.DetectAnomalies | anomaly_detector.py:372-397 | The reference analysis with the default settings and no history. |
| BreachCorrelator.BaseLevel | breach_correlator.py:56-66 | The base level is 0, 2, 4, 6 or 8 for 0, 1, 2, 3 or at least 4 triggered channels. |
| BreachCorrelator.Label | breach_correlator.py:75 | `BREACH_LEVEL_LABELS.get(level, "Unknown")`: the table (breach_correlator.py:13-25) has a label for every level from 0 to 10, never `"Unknown"`, and no label for any other level. |
| BreachCorrelator.Recommendation | breach_correlator.py:78-87 | The five bands, each picked by exactly its range: monitoring at 0, more scans at any other level up to 3, security at 4-6, lockdown at 7-8, evacuation from 9. |
| BreachCorrelator.BreachLevel | breach_correlator.py:50-96 | The reference assessment, which `ComputeBreachLevel` is proved equal to; `LevelFormula`, `LevelInRange` and `RecommendationBands` characterise it. |
| BreachCorrelator.CriticalBumpsIsClampedSum | breach_correlator.py:69-72 | The saturating loop amounts to `min(10, base + number of critical entries)`. |
| BreachCorrelator.CriticalCountOccurrences | breach_correlator.py:69-71 | The critical entries are the occurrences of `temperature` plus those of `gas`, repeats counted. |
| BreachCorrelator.LevelFormula | breach_correlator.py:50-74 | The level is `min(10, base level + critical entries)` of the triggered list. A missing list counts as empty. |
| BreachCorrelator.LevelInRange | breach_correlator.py:74-75 | The level always lies in [0, 10]. Its label is the table's entry for it, never `"Unknown"`. |
| BreachCorrelator.AllClearIffNothingTriggered | breach_correlator.py:56-58 | The level is 0, and the label `"All clear"`, exactly when nothing triggered. |
| BreachCorrelator.RecommendationBands | breach_correlator.py:78-87 | The recommendation is continue monitoring at 0, increase scans at 1-3, alert security at 4-6, lockdown at 7-8 and evacuate at 9-10, each band both ways. |
| BreachCorrelator.OneCriticalGivesThree | breach_correlator.py:59-72 | A single critical channel gives level 3 and the increase-scans recommendation. |
| BreachCorrelator.ThreeNonCriticalGiveSix | breach_correlator.py:63-72 | Three non-critical channels give level 6. |
| BreachCorrelator.FourWithBothCriticalGiveTen | breach_correlator.py:65-74 | Four or more channels that include both `temperature` and `gas` give level 10 and the evacuation recommendation. |
| BreachCorrelator.MoreTriggersNeverLower | breach_correlator.py:4-5 | One more triggered channel never lowers the level. |
| BreachCorrelator.NoAnomalyIsAllClear | breach_correlator.py:50-58 | Fed the result of `analyze`, the level is 0 exactly when no anomaly was detected. |
| BreachCorrelator.ComputeBreachLevel | breach_correlator.py:39-96 | The loop computes the reference assessment. The list is passed through, `num_triggered` is its length, and `is_multi_sensor` holds exactly when it is at least 2. The level lies in [0, 10] and equals the clamped sum of the base level and the critical entries. |

## Behaviour worth knowing

None of these is treated as a defect.

- **Buffer capacity versus `max_samples`.** The buffer's capacity (100, anomaly_detector.py:86) does not depend on `max_samples`. With a `history_size` above 100, the buffer never reaches `max_samples`. Welford's step then never stops, and the statistics cover every value ever added while the buffer holds only the newest 100 (`Basis`).
- **Recomputation cost.** Once the buffer holds `max_samples` values, each `add_value` recomputes the statistics from the whole buffer. (anomaly_detector.py:95-97, 106-116).
- **Constant history.** A history of ten or more identical values checked against a different value reports `insufficient_history` with `samples_collected` of ten or more (`ConstantHistoryDifferentValue`).
- **Empty channel name.** `reset_history("")` clears every history, because the empty string is false in Python.
- **Empty threshold table.** An empty threshold table selects the default table, because the empty dictionary is false in Python.
- **Temperature unit.** The default temperature unit is kept exactly as the source file spells it (`"¬∞C"`).

## Left out

- Floating point: values are exact reals. The `round(..., 3)` of the reported z-score, mean and standard deviation (anomaly_detector.py:242-245) is not modelled, and neither are IEEE-754 rounding, NaN and infinities.
- `math.sqrt` is a parameter, `sqrt`, and is constrained only by `IsSqrt`.
- AnomalyDetection.AnomalyDetector.constructor: requires the supplied `sqrt` to satisfy `IsSqrt`, which stands for `math.sqrt`.
- AnomalyDetection.DetectAnomalies: requires the supplied `sqrt` to satisfy `IsSqrt`, which stands for `math.sqrt`.
- The `readings` dictionary is modelled as a sequence of (name, reading) pairs in iteration order. The methods accept any sequence. The lemmas that speak of one entry per channel (`ScanTriggered`, `ScanEntry`, `ScanRecords`, `AnomalyDetectedIff`, `HistoryGrowsByOnePerCall`, `TenthCallSeesNine`, `OneOffCallHasNoZScoreReason`) require distinct names, as a dictionary has.
- `summary` is a `map`, which has no order; the source's dictionary keeps insertion order (anomaly_detector.py:340). That order is the order of `triggeredSensors`, which `ScanSummaryMatchesTriggered` and `ScanTriggered` describe.
- The detector keeps the threshold table by value. The source keeps a reference to the caller's dictionary or to the module-level `THRESHOLDS` (anomaly_detector.py:180), so a later change to that dictionary from outside would be seen by the detector; that sharing is not modelled.
- A missing `readings` key is the empty sequence. A missing `value` is `None`, and a missing `unit` is `""`.
- Values of other Python types (strings, booleans passed as values) are not modelled.
- A threshold-table row is a `Bounds(min, max, unit)`. A row without a `min` or `max` key, which raises `KeyError` in the source, is not modelled.
- Reason strings are the `Reason` datatype. `Reason.Text` gives their spelling, and the `checked` and `reason` string fields are the constructors of `ThresholdResult` and `ZScoreResult`.
- AnomalyDetection.AnomalyDetector.RecordValue: looks the history up instead of calling `_get_or_create_history` (anomaly_detector.py:334). At that point `check_zscore` has always just created it (anomaly_detector.py:226), so the two agree.
- `SensorHistory` is only built through its constructor. Direct assignment to its dataclass fields from outside is not modelled.
- `compute_breach_level` is modelled on the `triggered_sensors` entry, with `None` for a missing key. The `summary` entry that it reads (breach_correlator.py:51) is never used and is left out.
- Functions are deterministic, so identical inputs give identical assessments without a separate lemma.
- The demonstration blocks under `__main__` (anomaly_detector.py:400-462) use `random` and `time.sleep` and are left out.
- Metric submission, the AI explanation, speech output, the simulator, the command-line loop and the dashboard (`datadog_metrics.py`, `aws_bedrock_integration.py`, `minimax_voice.py`, `sensor_simulator.py`, `main.py`, `streamlit_app.py`) are not part of this model.
