/**
 * The rule engine: a total, side-effect-free classifier from one reading to
 * at most one alert. The metric type is lower-cased (null reads as
 * "unknown") and selects one of five named rules or the generic fallback;
 * each rule is a strict threshold test followed by a choice of severity.
 */
module SafetyAnalysis {
  import opened Wrappers
  import opened Model

  const TEMPERATURE_THRESHOLD: real := 45.0  // Celsius
  const GAS_LEVEL_THRESHOLD: real := 50.0    // PPM
  const NOISE_LEVEL_THRESHOLD: real := 85.0  // Decibels
  const HEART_RATE_MIN: real := 60.0
  const HEART_RATE_MAX: real := 100.0
  const OXYGEN_LEVEL_MIN: real := 95.0       // Percentage

  /** The rule a metric type selects: five named families and the fallback. */
  datatype Metric = Temperature | Gas | Noise | HeartRate | Oxygen | Other(name: string)

  /** The lower-case name under which each named family is matched. */
  function MetricName(m: Metric): string
    requires !m.Other?
  {
    match m
    case Temperature => "temperature"
    case Gas => "gas"
    case Noise => "noise"
    case HeartRate => "heartrate"
    case Oxygen => "oxygen"
  }

  // ---------------------------------------------------------------------------
  // Case folding and dispatch
  // ---------------------------------------------------------------------------

  /** Lower-cases one character (A-Z only). */
  function LowerChar(c: char): char {
    if 'A' <= c <= 'Z' then (c as int + 32) as char else c
  }

  /** `String.toLowerCase()`, character by character. */
  function ToLower(s: string): (r: string)
    ensures |r| == |s|
    ensures forall i :: 0 <= i < |s| ==> r[i] == LowerChar(s[i])
  {
    if s == [] then [] else [LowerChar(s[0])] + ToLower(s[1..])
  }

  /** Case-insensitive string equality, the relation dispatch is meant to respect. */
  predicate EqualsIgnoreCase(s: string, t: string) {
    |s| == |t| && forall i :: 0 <= i < |s| ==> LowerChar(s[i]) == LowerChar(t[i])
  }

  /** The `switch` on an already lower-cased metric type. */
  function MetricOf(lowered: string): (m: Metric)
    ensures m.Other? <==> lowered !in {"temperature", "gas", "noise", "heartrate", "oxygen"}
    ensures m.Other? ==> m.name == lowered
    ensures !m.Other? ==> MetricName(m) == lowered
  {
    match lowered
    case "temperature" => Temperature
    case "gas" => Gas
    case "noise" => Noise
    case "heartrate" => HeartRate
    case "oxygen" => Oxygen
    case _ => Other(lowered)
  }

  /** The metric family a reading's type selects; a null type reads as "unknown". */
  function Classify(metricType: Option<string>): (m: Metric)
    ensures metricType.None? ==> m == Other("unknown")
    ensures metricType.Some? && m.Other? ==> m.name == ToLower(metricType.value)
    ensures !m.Other? ==> metricType.Some? && ToLower(metricType.value) == MetricName(m)
  {
    match metricType
    case None => MetricOf("unknown")
    case Some(t) => MetricOf(ToLower(t))
  }

  lemma LowerNamesAreLower(m: Metric)
    requires !m.Other?
    ensures forall i :: 0 <= i < |MetricName(m)| ==> LowerChar(MetricName(m)[i]) == MetricName(m)[i]
  {
  }

  /** A type string selects a named rule exactly when it equals that rule's name up to case. */
  lemma {:induction false} ClassifyMatchesIgnoringCase(t: string, m: Metric)
    requires !m.Other?
    ensures Classify(Some(t)) == m <==> EqualsIgnoreCase(t, MetricName(m))
  {
    var n := MetricName(m);
    LowerNamesAreLower(m);
    if EqualsIgnoreCase(t, n) {
      assert ToLower(t) == n;
    }
    if Classify(Some(t)) == m {
      assert ToLower(t) == n;
    }
  }

  /** Two type strings that differ only in case select the same rule. */
  lemma ClassifyIgnoresCase(s: string, t: string)
    requires EqualsIgnoreCase(s, t)
    ensures Classify(Some(s)) == Classify(Some(t))
  {
    assert ToLower(s) == ToLower(t);
  }

  /** A null type, and any string that is none of the five names, goes to the generic rule. */
  lemma NullAndUnknownTypesAreGeneric(metricType: Option<string>)
    ensures metricType.None? ==> Classify(metricType) == Other("unknown")
    ensures metricType.Some? && ToLower(metricType.value) !in {"temperature", "gas", "noise", "heartrate", "oxygen"}
            ==> Classify(metricType).Other?
  {
  }

  // ---------------------------------------------------------------------------
  // The six rules
  // ---------------------------------------------------------------------------

  /**
   * The fields every rule copies into its alert: the given id and time, the
   * reading's worker and sensor, and the raw value as trigger value.
   */
  predicate Stamped(a: Alert, d: SensorData, v: real, alertId: string, now: Timestamp) {
    && a.alertId == Some(alertId)
    && a.workerId == Some(d.workerId)
    && a.sensorId == Some(d.sensorId)
    && a.triggerValue == Some(v)
    && a.timestamp == Some(now)
  }

  /** Builds an alert from a reading; the id and the clock are parameters. */
  function CreateAlert(d: SensorData, message: Message, severity: Severity, alertType: AlertType,
                       triggerValue: real, alertId: string, now: Timestamp): (r: Alert)
    ensures Stamped(r, d, triggerValue, alertId, now)
    ensures r.message == message && r.severity == severity && r.alertType == alertType
  {
    Alert(Some(alertId), Some(d.workerId), Some(d.sensorId), message, severity, alertType,
          Some(triggerValue), Some(now))
  }

  function AnalyzeTemperature(d: SensorData, temperature: real, alertId: string, now: Timestamp): (r: Option<Alert>)
    ensures r.Some? <==> temperature > 45.0
    ensures r.Some? ==> Stamped(r.value, d, temperature, alertId, now)
    ensures r.Some? ==> r.value.alertType == TEMPERATURE_ALERT && r.value.message == HighTemperature(temperature)
    ensures r.Some? ==> r.value.severity in {HIGH, CRITICAL} && (r.value.severity == CRITICAL <==> temperature > 55.0)
  {
    if temperature > TEMPERATURE_THRESHOLD then
      var severity := if temperature > TEMPERATURE_THRESHOLD + 10.0 then CRITICAL else HIGH;
      Some(CreateAlert(d, HighTemperature(temperature), severity, TEMPERATURE_ALERT, temperature, alertId, now))
    else
      None
  }

  function AnalyzeGasLevel(d: SensorData, gasLevel: real, alertId: string, now: Timestamp): (r: Option<Alert>)
    ensures r.Some? <==> gasLevel > 50.0
    ensures r.Some? ==> Stamped(r.value, d, gasLevel, alertId, now)
    ensures r.Some? ==> r.value.alertType == GAS_ALERT && r.value.message == DangerousGas(gasLevel)
    ensures r.Some? ==> r.value.severity in {HIGH, CRITICAL} && (r.value.severity == CRITICAL <==> gasLevel > 100.0)
  {
    if gasLevel > GAS_LEVEL_THRESHOLD then
      var severity := if gasLevel > GAS_LEVEL_THRESHOLD * 2.0 then CRITICAL else HIGH;
      Some(CreateAlert(d, DangerousGas(gasLevel), severity, GAS_ALERT, gasLevel, alertId, now))
    else
      None
  }

  function AnalyzeNoiseLevel(d: SensorData, noiseLevel: real, alertId: string, now: Timestamp): (r: Option<Alert>)
    ensures r.Some? <==> noiseLevel > 85.0
    ensures r.Some? ==> Stamped(r.value, d, noiseLevel, alertId, now)
    ensures r.Some? ==> r.value.alertType == NOISE_ALERT && r.value.message == ExcessiveNoise(noiseLevel)
    ensures r.Some? ==> r.value.severity in {MEDIUM, HIGH} && (r.value.severity == HIGH <==> noiseLevel > 100.0)
  {
    if noiseLevel > NOISE_LEVEL_THRESHOLD then
      var severity := if noiseLevel > NOISE_LEVEL_THRESHOLD + 15.0 then HIGH else MEDIUM;
      Some(CreateAlert(d, ExcessiveNoise(noiseLevel), severity, NOISE_ALERT, noiseLevel, alertId, now))
    else
      None
  }

  function AnalyzeHeartRate(d: SensorData, heartRate: real, alertId: string, now: Timestamp): (r: Option<Alert>)
    ensures r.Some? <==> heartRate < 60.0 || heartRate > 100.0
    ensures r.Some? ==> Stamped(r.value, d, heartRate, alertId, now)
    ensures r.Some? ==> r.value.alertType == HEALTH_ALERT
    ensures r.Some? ==> r.value.severity in {HIGH, CRITICAL}
                        && (r.value.severity == CRITICAL <==> heartRate < 50.0 || heartRate > 120.0)
    ensures r.Some? ==> r.value.message == if heartRate < 60.0 then LowHeartRate(heartRate) else HighHeartRate(heartRate)
  {
    if heartRate < HEART_RATE_MIN || heartRate > HEART_RATE_MAX then
      var severity := if heartRate < 50.0 || heartRate > 120.0 then CRITICAL else HIGH;
      var message := if heartRate < HEART_RATE_MIN then LowHeartRate(heartRate) else HighHeartRate(heartRate);
      Some(CreateAlert(d, message, severity, HEALTH_ALERT, heartRate, alertId, now))
    else
      None
  }

  function AnalyzeOxygenLevel(d: SensorData, oxygenLevel: real, alertId: string, now: Timestamp): (r: Option<Alert>)
    ensures r.Some? <==> oxygenLevel < 95.0
    ensures r.Some? ==> Stamped(r.value, d, oxygenLevel, alertId, now)
    ensures r.Some? ==> r.value.alertType == HEALTH_ALERT && r.value.message == LowOxygen(oxygenLevel)
    ensures r.Some? ==> r.value.severity in {HIGH, CRITICAL} && (r.value.severity == CRITICAL <==> oxygenLevel < 90.0)
  {
    if oxygenLevel < OXYGEN_LEVEL_MIN then
      var severity := if oxygenLevel < 90.0 then CRITICAL else HIGH;
      Some(CreateAlert(d, LowOxygen(oxygenLevel), severity, HEALTH_ALERT, oxygenLevel, alertId, now))
    else
      None
  }

  /** The fallback rule; its message names the metric type as sent, not lower-cased. */
  function AnalyzeGenericMetric(d: SensorData, value: real, alertId: string, now: Timestamp): (r: Option<Alert>)
    ensures r.Some? <==> value > 75.0
    ensures r.Some? ==> Stamped(r.value, d, value, alertId, now)
    ensures r.Some? ==> r.value.alertType == GENERIC_ALERT && r.value.message == ThresholdExceeded(d.metricType, value)
    ensures r.Some? ==> r.value.severity in {MEDIUM, HIGH} && (r.value.severity == HIGH <==> value > 90.0)
  {
    if value > 75.0 then
      var severity := if value > 90.0 then HIGH else MEDIUM;
      Some(CreateAlert(d, ThresholdExceeded(d.metricType, value), severity, GENERIC_ALERT, value, alertId, now))
    else
      None
  }

  // ---------------------------------------------------------------------------
  // The engine
  // ---------------------------------------------------------------------------

  /**
   * `analyzeSensorData`: one reading to at most one alert. The alert id and
   * creation time, generated inside the source, are parameters here.
   */
  function AnalyzeSensorData(d: SensorData, alertId: string, now: Timestamp): (r: Option<Alert>)
    ensures r.Some? ==> Stamped(r.value, d, d.metricValue, alertId, now)
    ensures r.Some? ==> r.value.severity.IsLevel()
    ensures r.Some? && r.value.severity == CRITICAL ==> !Classify(d.metricType).Noise? && !Classify(d.metricType).Other?
  {
    var value := d.metricValue;
    match Classify(d.metricType)
    case Temperature => AnalyzeTemperature(d, value, alertId, now)
    case Gas => AnalyzeGasLevel(d, value, alertId, now)
    case Noise => AnalyzeNoiseLevel(d, value, alertId, now)
    case HeartRate => AnalyzeHeartRate(d, value, alertId, now)
    case Oxygen => AnalyzeOxygenLevel(d, value, alertId, now)
    case Other(_) => AnalyzeGenericMetric(d, value, alertId, now)
  }

  /** The pattern detector is a placeholder that never reports a pattern. */
  function DetectAnomalousPattern(recentData: seq<SensorData>): (r: bool)
    ensures !r
  {
    false
  }

  // ---------------------------------------------------------------------------
  // The rule table as data, and its agreement with the engine
  // ---------------------------------------------------------------------------

  /**
   * One row of the rule table: a reading violates the rule when it lies below
   * `alertBelow` or above `alertAbove`, and is escalated from `base` to
   * `escalated` severity when it lies below `escalateBelow` or above
   * `escalateAbove` (a `None` bound never applies).
   */
  datatype Rule = Rule(
    alertBelow: Option<real>, alertAbove: Option<real>,
    escalateBelow: Option<real>, escalateAbove: Option<real>,
    base: Severity, escalated: Severity, alertType: AlertType)

  function RuleTable(m: Metric): Rule {
    match m
    case Temperature => Rule(None, Some(45.0), None, Some(55.0), HIGH, CRITICAL, TEMPERATURE_ALERT)
    case Gas => Rule(None, Some(50.0), None, Some(100.0), HIGH, CRITICAL, GAS_ALERT)
    case Noise => Rule(None, Some(85.0), None, Some(100.0), MEDIUM, HIGH, NOISE_ALERT)
    case HeartRate => Rule(Some(60.0), Some(100.0), Some(50.0), Some(120.0), HIGH, CRITICAL, HEALTH_ALERT)
    case Oxygen => Rule(Some(95.0), None, Some(90.0), None, HIGH, CRITICAL, HEALTH_ALERT)
    case Other(_) => Rule(None, Some(75.0), None, Some(90.0), MEDIUM, HIGH, GENERIC_ALERT)
  }

  /** `v` lies strictly outside the band the two optional bounds describe. */
  predicate Outside(v: real, below: Option<real>, above: Option<real>) {
    (below.Some? && v < below.value) || (above.Some? && v > above.value)
  }

  /** What the table says a reading produces: nothing, or a severity and a category. */
  function TableVerdict(m: Metric, v: real): Option<(Severity, AlertType)> {
    var rule := RuleTable(m);
    if Outside(v, rule.alertBelow, rule.alertAbove) then
      Some((if Outside(v, rule.escalateBelow, rule.escalateAbove) then rule.escalated else rule.base, rule.alertType))
    else
      None
  }

  /** Every row is consistent: escalation lies inside the violation band, and raises the severity. */
  lemma RuleTableConsistent(m: Metric, v: real)
    ensures Outside(v, RuleTable(m).escalateBelow, RuleTable(m).escalateAbove)
            ==> Outside(v, RuleTable(m).alertBelow, RuleTable(m).alertAbove)
    ensures Rank(RuleTable(m).base) < Rank(RuleTable(m).escalated)
  {
  }

  /** The engine agrees with the rule table on every reading. */
  lemma AnalyzeAgreesWithTable(d: SensorData, alertId: string, now: Timestamp)
    ensures var r := AnalyzeSensorData(d, alertId, now);
            var t := TableVerdict(Classify(d.metricType), d.metricValue);
            && (r.Some? <==> t.Some?)
            && (r.Some? ==> r.value.severity == t.value.0 && r.value.alertType == t.value.1)
  {
  }

  /** Analysing one reading twice gives alerts that differ only in id and timestamp. */
  lemma AnalyzeIsDeterministic(d: SensorData, id1: string, now1: Timestamp, id2: string, now2: Timestamp)
    ensures AnalyzeSensorData(d, id1, now1).Some? == AnalyzeSensorData(d, id2, now2).Some?
    ensures AnalyzeSensorData(d, id1, now1).Some? ==>
              AnalyzeSensorData(d, id1, now1).value.(alertId := Some(id2), timestamp := Some(now2))
              == AnalyzeSensorData(d, id2, now2).value
  {
  }

  /** The severity of a reading's verdict, 0 when no alert results. */
  function VerdictRank(r: Option<Alert>): nat {
    if r.Some? then Rank(r.value.severity) else 0
  }

  /** Raising the value never lowers the verdict, for every rule with only an upper bound. */
  lemma UpperRulesEscalateMonotonically(d: SensorData, v1: real, v2: real, alertId: string, now: Timestamp)
    requires v1 <= v2
    ensures VerdictRank(AnalyzeTemperature(d, v1, alertId, now)) <= VerdictRank(AnalyzeTemperature(d, v2, alertId, now))
    ensures VerdictRank(AnalyzeGasLevel(d, v1, alertId, now)) <= VerdictRank(AnalyzeGasLevel(d, v2, alertId, now))
    ensures VerdictRank(AnalyzeNoiseLevel(d, v1, alertId, now)) <= VerdictRank(AnalyzeNoiseLevel(d, v2, alertId, now))
    ensures VerdictRank(AnalyzeGenericMetric(d, v1, alertId, now)) <= VerdictRank(AnalyzeGenericMetric(d, v2, alertId, now))
  {
  }

  /** Oxygen worsens as it falls; heart rate worsens the further it leaves the 60-100 band. */
  lemma LowerRulesEscalateMonotonically(d: SensorData, v1: real, v2: real, alertId: string, now: Timestamp)
    requires v1 <= v2
    ensures VerdictRank(AnalyzeOxygenLevel(d, v2, alertId, now)) <= VerdictRank(AnalyzeOxygenLevel(d, v1, alertId, now))
    ensures v2 <= 60.0 ==> VerdictRank(AnalyzeHeartRate(d, v2, alertId, now)) <= VerdictRank(AnalyzeHeartRate(d, v1, alertId, now))
    ensures 100.0 <= v1 ==> VerdictRank(AnalyzeHeartRate(d, v1, alertId, now)) <= VerdictRank(AnalyzeHeartRate(d, v2, alertId, now))
  {
  }

  /** Temperature 60.0 from worker w1 exceeds 45.0 + 10, so the alert is CRITICAL and carries 60.0. */
  lemma TemperatureExample()
    ensures var r := AnalyzeSensorData(SensorData("s1", "w1", 60.0, Some("temperature"), None), "a1", 0);
            r.Some? && r.value.severity == CRITICAL && r.value.alertType == TEMPERATURE_ALERT
            && r.value.triggerValue == Some(60.0) && r.value.workerId == Some("w1")
  {
    ClassifyMatchesIgnoringCase("temperature", Temperature);
  }

  /** Oxygen 98.0 is not below 95.0, so no alert results. */
  lemma OxygenExample()
    ensures AnalyzeSensorData(SensorData("s2", "w2", 98.0, Some("oxygen"), None), "a2", 0).None?
  {
    ClassifyMatchesIgnoringCase("oxygen", Oxygen);
  }

  /** Heart rate 40.0 is below 50.0, so the alert is CRITICAL with the low-rate message. */
  lemma HeartRateExample()
    ensures var r := AnalyzeSensorData(SensorData("s3", "w3", 40.0, Some("heartrate"), None), "a3", 0);
            r.Some? && r.value.severity == CRITICAL && r.value.message == LowHeartRate(40.0)
  {
    ClassifyMatchesIgnoringCase("heartrate", HeartRate);
  }

  /** An upper-case type selects the same rule; a value at the threshold does not alert. */
  lemma CaseAndBoundaryExample()
    ensures AnalyzeSensorData(SensorData("s1", "w1", 60.0, Some("GAS"), None), "a4", 0).Some?
    ensures AnalyzeSensorData(SensorData("s1", "w1", 50.0, Some("Gas"), None), "a5", 0).None?
  {
    assert EqualsIgnoreCase("GAS", "gas") by {
      assert LowerChar('G') == 'g' && LowerChar('A') == 'a' && LowerChar('S') == 's';
    }
    assert EqualsIgnoreCase("Gas", "gas") by {
      assert LowerChar('G') == 'g' && LowerChar('a') == 'a' && LowerChar('s') == 's';
    }
    ClassifyMatchesIgnoringCase("GAS", Gas);
    ClassifyMatchesIgnoringCase("Gas", Gas);
  }
}
