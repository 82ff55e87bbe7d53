/**
 * The two records the core exchanges: a sensor reading (SensorData) and the
 * alert the rule engine produces from it (Alert). Both are immutable values.
 */
module Model {
  import opened Wrappers

  /** A LocalDateTime, carried along and never inspected by the core. */
  type Timestamp = int

  /**
   * One sensor observation. `sensorId` and `workerId` are the two @NotBlank
   * strings (the framework rejects a null one before the core runs), the value
   * is the @NotNull metric value, and the metric type may be null.
   */
  datatype SensorData = SensorData(
    sensorId: string,
    workerId: string,
    metricValue: real,
    metricType: Option<string>,
    timestamp: Option<Timestamp>)

  /** `String.trim()`: drops every leading and trailing character at or below U+0020. */
  function Trim(s: string): string {
    TrimEnd(TrimStart(s))
  }

  function TrimStart(s: string): (r: string)
    ensures r == [] <==> forall i :: 0 <= i < |s| ==> s[i] <= ' '
    ensures r != [] ==> r[0] > ' '
  {
    if |s| > 0 && s[0] <= ' ' then TrimStart(s[1..]) else s
  }

  function TrimEnd(s: string): (r: string)
    ensures |s| > 0 && s[0] > ' ' ==> |r| > 0
    ensures s == [] ==> r == []
  {
    if |s| > 0 && s[|s| - 1] <= ' ' then TrimEnd(s[..|s| - 1]) else s
  }

  /** Bean Validation's @NotBlank on a non-null string: `s.trim()` is not empty. */
  predicate NotBlank(s: string): (b: bool)
    ensures b <==> |Trim(s)| > 0
  {
    exists i :: 0 <= i < |s| && s[i] > ' '
  }

  /** What @Valid on the ingestion endpoint guarantees about a reading: both ids trim to something. */
  predicate ValidReading(d: SensorData): (ok: bool)
    ensures ok <==> |Trim(d.sensorId)| > 0 && |Trim(d.workerId)| > 0
  {
    NotBlank(d.sensorId) && NotBlank(d.workerId)
  }

  /**
   * The severity of an alert. The rule engine only ever produces one of the
   * three levels; a manually posted alert carries whatever string (or null)
   * its sender chose, which is kept as `Unlisted`.
   */
  datatype Severity = MEDIUM | HIGH | CRITICAL | Unlisted(text: Option<string>) {
    predicate IsLevel() { !Unlisted? }
  }

  /** A severity value is canonical when `Unlisted` does not spell a level. */
  predicate Canonical(s: Severity) {
    s.Unlisted? && s.text.Some? ==> s.text.value !in {"MEDIUM", "HIGH", "CRITICAL"}
  }

  /** The string the source stores in `Alert.severity`. */
  function SeverityLabel(s: Severity): (l: Option<string>)
    ensures s.IsLevel() ==> l.Some? && l.value in {"MEDIUM", "HIGH", "CRITICAL"}
    ensures s.Unlisted? ==> l == s.text
  {
    match s
    case MEDIUM => Some("MEDIUM")
    case HIGH => Some("HIGH")
    case CRITICAL => Some("CRITICAL")
    case Unlisted(l) => l
  }

  /** Reads a severity string back into the datatype, as deserialisation does. */
  function ParseSeverity(l: Option<string>): (s: Severity)
    ensures Canonical(s)
    ensures SeverityLabel(s) == l
  {
    match l
    case Some("MEDIUM") => MEDIUM
    case Some("HIGH") => HIGH
    case Some("CRITICAL") => CRITICAL
    case _ => Unlisted(l)
  }

  /** Labels and canonical severities are in one-to-one correspondence. */
  lemma ParseSeverityLabel(s: Severity)
    requires Canonical(s)
    ensures ParseSeverity(SeverityLabel(s)) == s
  {
  }

  /** The ordering MEDIUM < HIGH < CRITICAL; no alert and unlisted severities rank 0. */
  function Rank(s: Severity): nat {
    match s
    case MEDIUM => 1
    case HIGH => 2
    case CRITICAL => 3
    case Unlisted(_) => 0
  }

  /** The category tag of an alert: one per rule family, or a manual alert's own string. */
  datatype AlertType =
    | TEMPERATURE_ALERT
    | GAS_ALERT
    | NOISE_ALERT
    | HEALTH_ALERT
    | GENERIC_ALERT
    | CustomType(text: Option<string>)

  /**
   * The human-readable message, kept as the kind of message and the value it
   * embeds rather than as the formatted text.
   */
  datatype Message =
    | HighTemperature(celsius: real)
    | DangerousGas(ppm: real)
    | ExcessiveNoise(decibels: real)
    | LowHeartRate(bpm: real)
    | HighHeartRate(bpm: real)
    | LowOxygen(percent: real)
    | ThresholdExceeded(metricType: Option<string>, value: real)
    | Text(text: Option<string>)

  /**
   * An alert. Every field is nullable in the source: the engine fills them
   * all, while a manually posted alert is accepted as sent.
   */
  datatype Alert = Alert(
    alertId: Option<string>,
    workerId: Option<string>,
    sensorId: Option<string>,
    message: Message,
    severity: Severity,
    alertType: AlertType,
    triggerValue: Option<real>,
    timestamp: Option<Timestamp>)
}
