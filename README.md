# Smart safety monitoring: rule engine and real-time state store

This project models the decision core of a worker-safety monitoring backend.

Sensors post readings: a sensor id, a worker id, a metric type, a value and a timestamp. A rule engine classifies each reading. It yields either nothing or one alert with a severity (MEDIUM, HIGH or CRITICAL) and a category. A controller keeps three in-memory stores:
- the latest reading of each worker;
- each worker's reading history;
- a newest-first log of alerts.

On ingestion the controller files the reading, runs the engine, and, when an alert results, puts it at the head of the log and broadcasts it. Operators can also inject a manual alert or clear the log. Read-only queries list alerts (all of them, or one worker's), latest readings, one worker's history, and status counts.

Files:
- `wrappers.dfy`: `Option` (Java's `null`) and `Result` (a thrown exception).
- `model.dfy`: the `SensorData` and `Alert` records; the severity, category and message types; the string labels of severities; the `@NotBlank` validity of readings.
- `safety_analysis.dfy`: the rule engine as pure functions. Lower-casing and dispatch over a tagged `Metric`, the six rules, the engine, and the placeholder pattern detector. It also gives the rule table as data, with lemmas that tie the engine to that table.
- `store.dfy`: the store's updates and projections as pure functions. It holds the replay lemmas over sequences of readings, the per-worker alert filter, the severity counts, and the per-worker alert query as the source writes it.
- `monitoring_controller.dfy`: the controller as a class. It has the three store fields and a ghost log `published` that stands for the broadcast channel. Its mutating methods ingest a reading, inject a manual alert and clear the log; its query functions read the state. Its invariant `Valid()` says four things:
  - the two reading maps know the same workers;
  - each latest reading is the last entry of that worker's history, and every reading is filed under its own worker;
  - every alert's severity is in canonical form;
  - read oldest first, the alert log is exactly what was broadcast since the last clear.

  Four client methods check end-to-end runs, among them that one worker's alerts are listed newest first.

Values are `real`: every finite `double` is a real, and the only threshold arithmetic (`45.0 + 10`, `50.0 * 2`, `85.0 + 15`) is exact. Alert ids and clock readings are parameters; the source draws them from `UUID.randomUUID()` and `LocalDateTime.now()`.

Facts about the code that the model keeps:
- At 60.0 the temperature rule gives CRITICAL, since 60 > 45 + 10 (`SafetyAnalysis.TemperatureExample`).
- The manual-alert endpoint stores any severity string, so `Severity` has an `Unlisted` case. The status counts compare the stored string, as the source does. The string is read into its canonical form (`Model.ParseSeverity`), so an `Unlisted` value never spells one of the three levels.
- A reading without a sensor id fails `@NotBlank`, so the scenarios always supply one.
- The dashboard form labels noise above 85 dB as HIGH and above 100 dB as CRITICAL (frontend SensorDataForm.js:150). The backend gives MEDIUM up to 100 dB and HIGH above it (SafetyAnalysisService.java:77), and the model follows the backend.

## Model

| member | source | states |
|---|---|---|
| `Model.NotBlank` | backend/src/main/java/com/example/safetymonitoring/model/SensorData.java:8-12 | a string passes @NotBlank iff `trim()` leaves something, i.e. iff it has a character above U+0020 |
| `Model.ValidReading` | backend/src/main/java/com/example/safetymonitoring/model/SensorData.java:8-12 | a reading is accepted iff both its sensor id and its worker id trim to a non-empty string |
| `Model.SeverityLabel` | backend/src/main/java/com/example/safetymonitoring/model/Alert.java:10 | the three levels are stored as the strings MEDIUM, HIGH, CRITICAL; an unlisted severity keeps its own string or null |
| `Model.ParseSeverity` | backend/src/main/java/com/example/safetymonitoring/model/Alert.java:10 | reading a stored severity string gives a canonical severity whose label is that same string |
| `Model.ParseSeverityLabel` | backend/src/main/java/com/example/safetymonitoring/model/Alert.java:10 | for canonical severities, label then parse is the identity (labels and severities correspond one to one) |
| `SafetyAnalysis.ToLower` | backend/src/main/java/com/example/safetymonitoring/service/SafetyAnalysisService.java:25 | lower-casing keeps the length and folds every character |
| `SafetyAnalysis.MetricOf` | backend/src/main/java/com/example/safetymonitoring/service/SafetyAnalysisService.java:30-50 | a lower-cased type selects a named rule iff it is exactly that rule's name; any other string goes to the generic rule, carrying the string |
| `SafetyAnalysis.Classify` | backend/src/main/java/com/example/safetymonitoring/service/SafetyAnalysisService.java:25-50 | a null type selects the generic rule under the name "unknown"; a named rule is selected only when the lower-cased type is its name; otherwise the generic rule carries the lower-cased type |
| `SafetyAnalysis.ClassifyMatchesIgnoringCase` | backend/src/main/java/com/example/safetymonitoring/service/SafetyAnalysisService.java:25-45 | a type string selects each named rule iff it equals that rule's name up to case (both directions) |
| `SafetyAnalysis.ClassifyIgnoresCase` | backend/src/main/java/com/example/safetymonitoring/service/SafetyAnalysisService.java:25 | two type strings equal up to case select the same rule |
| `SafetyAnalysis.NullAndUnknownTypesAreGeneric` | backend/src/main/java/com/example/safetymonitoring/service/SafetyAnalysisService.java:25-49 | a null type reads as "unknown" and goes to the generic rule, as does any type that is none of the five names |
| `SafetyAnalysis.CreateAlert` | backend/src/main/java/com/example/safetymonitoring/service/SafetyAnalysisService.java:117-127 | the alert takes the given id and clock, the reading's worker and sensor id, the given trigger value, message, severity and category |
| `SafetyAnalysis.AnalyzeTemperature` | backend/src/main/java/com/example/safetymonitoring/service/SafetyAnalysisService.java:55-63 | alert iff value > 45.0 (so 45.0 is quiet); CRITICAL iff value > 55.0, else HIGH; TEMPERATURE_ALERT with the high-temperature message; stamped from the reading |
| `SafetyAnalysis.AnalyzeGasLevel` | backend/src/main/java/com/example/safetymonitoring/service/SafetyAnalysisService.java:65-73 | alert iff value > 50.0; CRITICAL iff value > 100.0, else HIGH; GAS_ALERT; stamped from the reading |
| `SafetyAnalysis.AnalyzeNoiseLevel` | backend/src/main/java/com/example/safetymonitoring/service/SafetyAnalysisService.java:75-83 | alert iff value > 85.0; HIGH iff value > 100.0, else MEDIUM, never CRITICAL; NOISE_ALERT; stamped from the reading |
| `SafetyAnalysis.AnalyzeHeartRate` | backend/src/main/java/com/example/safetymonitoring/service/SafetyAnalysisService.java:85-94 | alert iff value < 60.0 or value > 100.0; CRITICAL iff value < 50 or value > 120, else HIGH; HEALTH_ALERT; the low-rate message iff value < 60 |
| `SafetyAnalysis.AnalyzeOxygenLevel` | backend/src/main/java/com/example/safetymonitoring/service/SafetyAnalysisService.java:96-104 | alert iff value < 95.0; CRITICAL iff value < 90, else HIGH; HEALTH_ALERT; stamped from the reading |
| `SafetyAnalysis.AnalyzeGenericMetric` | backend/src/main/java/com/example/safetymonitoring/service/SafetyAnalysisService.java:106-115 | alert iff value > 75.0; HIGH iff value > 90.0, else MEDIUM; GENERIC_ALERT whose message names the type as sent (not lower-cased) |
| `SafetyAnalysis.AnalyzeSensorData` | backend/src/main/java/com/example/safetymonitoring/service/SafetyAnalysisService.java:24-53 | every alert copies worker and sensor id from the reading, its trigger value is the raw value, its severity is one of the three levels, and only the temperature, gas, heart-rate and oxygen rules can make it CRITICAL |
| `SafetyAnalysis.AnalyzeAgreesWithTable` | backend/src/main/java/com/example/safetymonitoring/service/SafetyAnalysisService.java:24-115 | on every reading the engine gives exactly the outcome, severity and category of the rule table (an independent, data-driven statement of the six rules) |
| `SafetyAnalysis.RuleTableConsistent` | backend/src/main/java/com/example/safetymonitoring/service/SafetyAnalysisService.java:57-109 | the escalation bounds at lines 57, 67, 77, 87, 98 and 109 each lie inside their rule's threshold: in every rule the escalation band lies inside the violation band, and escalation strictly raises the severity |
| `SafetyAnalysis.AnalyzeIsDeterministic` | backend/src/main/java/com/example/safetymonitoring/service/SafetyAnalysisService.java:117-126 | two analyses of one reading agree on whether an alert results, and their alerts differ only in id and timestamp |
| `SafetyAnalysis.UpperRulesEscalateMonotonically` | backend/src/main/java/com/example/safetymonitoring/service/SafetyAnalysisService.java:55-115 | for temperature, gas, noise and the generic rule, a larger value never yields a lower verdict |
| `SafetyAnalysis.LowerRulesEscalateMonotonically` | backend/src/main/java/com/example/safetymonitoring/service/SafetyAnalysisService.java:85-104 | a lower oxygen value never yields a lower verdict; heart rate's verdict never drops as the rate moves further below 60 or above 100 |
| `SafetyAnalysis.DetectAnomalousPattern` | backend/src/main/java/com/example/safetymonitoring/service/SafetyAnalysisService.java:133-137 | the placeholder pattern detector never reports a pattern |
| `SafetyAnalysis.TemperatureExample` | backend/src/main/java/com/example/safetymonitoring/service/SafetyAnalysisService.java:55-63 | temperature 60.0 from w1 gives a CRITICAL TEMPERATURE_ALERT with trigger value 60.0 for w1 |
| `SafetyAnalysis.OxygenExample` | backend/src/main/java/com/example/safetymonitoring/service/SafetyAnalysisService.java:96-104 | oxygen 98.0 gives no alert |
| `SafetyAnalysis.HeartRateExample` | backend/src/main/java/com/example/safetymonitoring/service/SafetyAnalysisService.java:85-94 | heart rate 40.0 gives a CRITICAL alert with the low-rate message |
| `SafetyAnalysis.CaseAndBoundaryExample` | backend/src/main/java/com/example/safetymonitoring/service/SafetyAnalysisService.java:25-73 | "GAS" selects the gas rule, and a gas value of exactly 50.0 gives no alert |
| `Store.HistoryOf` | backend/src/main/java/com/example/safetymonitoring/controller/MonitoringController.java:110 | `getOrDefault(w, [])`: the worker's stored history if it has one, else the empty sequence |
| `Store.RecordLatest` | backend/src/main/java/com/example/safetymonitoring/controller/MonitoringController.java:43 | after put, the worker's entry is the new reading, every other entry is unchanged, and the key set grows by at most that worker |
| `Store.RecordHistory` | backend/src/main/java/com/example/safetymonitoring/controller/MonitoringController.java:46 | the worker's history becomes its old history, or the empty sequence if the worker is new, with the reading at the end; other histories are unchanged |
| `Store.RecordKeepsFiled` | backend/src/main/java/com/example/safetymonitoring/controller/MonitoringController.java:43-46 | the put and the append together keep the two maps in agreement: same workers, each reading under its own worker, the latest reading last in the history |
| `Store.HistoryAfterAppendsInOrder` | backend/src/main/java/com/example/safetymonitoring/controller/MonitoringController.java:46 | after a run of readings, each worker's history is its old history followed by its own readings in arrival order |
| `Store.SingleWorkerHistory` | backend/src/main/java/com/example/safetymonitoring/controller/MonitoringController.java:46 | K readings for one worker, from an empty store, leave exactly those K readings as its history, in order |
| `Store.LatestAfterKeys` | backend/src/main/java/com/example/safetymonitoring/controller/MonitoringController.java:43 | after a run of readings, the workers with a latest reading are the old ones plus those that sent one |
| `Store.LatestAfterIsLastReading` | backend/src/main/java/com/example/safetymonitoring/controller/MonitoringController.java:43 | a worker's latest reading is the last reading it sent (last write wins) |
| `Store.DistinctWorkersLatest` | backend/src/main/java/com/example/safetymonitoring/controller/MonitoringController.java:43 | N readings from N distinct workers leave exactly N latest entries, each the reading its worker sent |
| `Store.ReversedPrepend` | backend/src/main/java/com/example/safetymonitoring/controller/MonitoringController.java:53 | prepending to the newest-first log appends to its oldest-first reading |
| `Store.AlertsForWorker` | backend/src/main/java/com/example/safetymonitoring/controller/MonitoringController.java:91-93 | an alert is in a worker's list iff it is in the log with that worker id, with the same multiplicity; no longer than the log |
| `Store.AlertsForWorkerConcat` | backend/src/main/java/com/example/safetymonitoring/controller/MonitoringController.java:91-93 | the filter distributes over concatenation, so it keeps the log's newest-first order |
| `Store.AlertsForOnlyWorker` | backend/src/main/java/com/example/safetymonitoring/controller/MonitoringController.java:91-93 | when every alert in the log is the worker's, the worker's list is the log itself, in the same newest-first order |
| `Store.CountSeverity` | backend/src/main/java/com/example/safetymonitoring/controller/MonitoringController.java:122-127 | a severity-string count never exceeds the number of alerts |
| `Store.CriticalAndHighWithinTotal` | backend/src/main/java/com/example/safetymonitoring/controller/MonitoringController.java:120-127 | the CRITICAL count plus the HIGH count is at most the total |
| `Store.CountSeverityIsCountOfLevel` | backend/src/main/java/com/example/safetymonitoring/controller/MonitoringController.java:122-127 | for canonical severities, counting the stored string counts the alerts of that level |
| `Store.AlertsForWorkerAsWritten` | backend/src/main/java/com/example/safetymonitoring/controller/MonitoringController.java:91-93 | the query as written throws iff some alert in the log has no worker id; when it does not throw it returns exactly the corrected filter |
| `Store.AsWrittenFailsOnAnonymousAlert` | backend/src/main/java/com/example/safetymonitoring/controller/MonitoringController.java:91-93 | as written, one alert without a worker id anywhere in the log makes every per-worker query throw |
| `Store.AsWrittenAgreesWhenAllNamed` | backend/src/main/java/com/example/safetymonitoring/controller/MonitoringController.java:91-93 | when every alert names a worker, the as-written query returns exactly the corrected filter |
| `Store.ManualAlertWithoutWorkerBreaksQuery` | backend/src/main/java/com/example/safetymonitoring/controller/MonitoringController.java:137-141 | a manual alert posted without a worker id makes the query for w1 throw, where the corrected filter gives [] |
| `Controller.MonitoringController.constructor` | backend/src/main/java/com/example/safetymonitoring/controller/MonitoringController.java:30-32 | the store starts with an empty alert log, empty maps and nothing broadcast, and satisfies its invariant |
| `Controller.MonitoringController.ReceiveSensorData` | backend/src/main/java/com/example/safetymonitoring/controller/MonitoringController.java:38-68 | the maps change exactly as RecordLatest and RecordHistory say; if the engine raises an alert, the log becomes [alert] + old log, the alert is broadcast exactly once, and the status is ALERT_GENERATED; otherwise the log and the broadcasts are unchanged and the status is DATA_PROCESSED; the invariant is kept |
| `Controller.MonitoringController.CreateManualAlert` | backend/src/main/java/com/example/safetymonitoring/controller/MonitoringController.java:136-148 | the supplied alert, its severity read into canonical form, is prepended and broadcast exactly once; both reading maps are unchanged; the invariant is kept |
| `Controller.MonitoringController.Prepend` | backend/src/main/java/com/example/safetymonitoring/controller/MonitoringController.java:141-142 | `add(0, alert)` then `convertAndSend` (also at lines 53-56): the log becomes [alert] + old log, the alert is broadcast once, and the log stays canonical and equal to the broadcasts since the last clear, read in reverse |
| `Controller.MonitoringController.ClearAlerts` | backend/src/main/java/com/example/safetymonitoring/controller/MonitoringController.java:160-167 | the log becomes empty, so every per-worker alert query is empty; the reading maps and the broadcasts already made are untouched |
| `Controller.MonitoringController.GetAlertHistory` | backend/src/main/java/com/example/safetymonitoring/controller/MonitoringController.java:81-84 | the log read oldest first is exactly what has been broadcast since the last clear |
| `Controller.MonitoringController.GetWorkerAlerts` | backend/src/main/java/com/example/safetymonitoring/controller/MonitoringController.java:89-95 | exactly the log's alerts with that worker id, each as often as in the log |
| `Controller.MonitoringController.GetLatestSensorData` | backend/src/main/java/com/example/safetymonitoring/controller/MonitoringController.java:100-103 | one entry per worker with a history, filed under its own worker id and equal to the last reading of that history |
| `Controller.MonitoringController.GetWorkerSensorHistory` | backend/src/main/java/com/example/safetymonitoring/controller/MonitoringController.java:108-112 | empty iff the worker is unknown; every reading belongs to the worker; the last one is the worker's latest reading |
| `Controller.MonitoringController.GetSystemStatus` | backend/src/main/java/com/example/safetymonitoring/controller/MonitoringController.java:117-131 | totalWorkers is the number of latest entries and totalAlerts the log's length; criticalAlerts and highAlerts are the numbers of CRITICAL and HIGH alerts in the log; their sum is at most totalAlerts; the status is OPERATIONAL |

## Left out

- Concurrency. `alertHistory` is an unsynchronized `ArrayList` mutated by concurrent request handlers (MonitoringController.java:30, 53 and 141), so concurrent prepends can be lost or corrupt the list; the two maps are `ConcurrentHashMap`s, but each worker's history inside them is a plain `ArrayList` (MonitoringController.java:46), and the `put` (:43) and the append (:46) are separate steps. Two concurrent readings for one worker can therefore lose a history entry, or leave the latest reading different from the last history entry, which `Store.Filed` rules out. The model treats every operation as sequential and atomic, and does not capture these races.
- HTTP and Spring plumbing: `ResponseEntity`, the response maps and their message strings, and the `catch (Exception e)` paths that answer with bad request (MonitoringController.java:70-75 and 149-154). The `@Valid` checks on a reading become the precondition `ValidReading`. In the model, where the broadcast never fails (see Broadcast), the manual-alert and clear endpoints always answer SUCCESS, so the model returns nothing from them.
- Broadcast. `convertAndSend` is a foreign call, modelled as appending to the ghost sequence `published`. If it throws, the source has already prepended the alert and answers with an error; the model has no failing broadcast.
- Clock and ids. `UUID.randomUUID()` and `LocalDateTime.now()` are parameters. Timestamps are opaque integers that the core never inspects.
- Message text. Messages are a kind plus the embedded value (and the raw type for the generic rule), not the string that `Double.toString` concatenation builds.
- Setters on `Alert` and `SensorData`. Both records are immutable values.
- Aliasing. The queries hand out the live list or map, which is serialized at once; the model returns values.
- Non-finite doubles. NaN and the infinities are not reals. The JSON reader rejects the `NaN` and `Infinity` tokens, but an overflowing literal such as `1e999` parses to an infinity and reaches the core. An infinity passes every strict comparison as an extreme value would, so any very large (or very negative) real gets the same verdict. Only NaN, for which every comparison is false, is left out.
- SafetyAnalysis.ToLower: folds only `A`-`Z`, where Java's `toLowerCase()` folds more characters. This does not change which rule is chosen. The only non-ASCII character Java folds to a single ASCII letter is the Kelvin sign (to `k`), and `k` occurs in none of the five names. The generic rule's carried name can differ in non-ASCII characters; nothing inspects it.
- Controller.MonitoringController.CreateManualAlert: requires a canonical severity. This excludes no request, because deserialisation reads every string or null into its canonical form (`Model.ParseSeverity`).
- Locale. Under a Turkish or Azeri default locale, `"NOISE".toLowerCase()` is not `"noise"`. The model assumes standard case folding.
- A manual alert sent as the JSON literal `null`. The model's alert is always a value.
- Nullable alert fields the core never inspects (id, sensor, message, category, trigger value, timestamp) are `Option`s and are carried unchanged.
- The React frontend: UI, WebSocket and HTTP client code.

## Findings

| source | as written | input that shows it | evidently intended | confidence | as-written member | corrected member |
|---|---|---|---|---|---|---|
| backend/src/main/java/com/example/safetymonitoring/controller/MonitoringController.java:92 | the per-worker filter calls `equals` on each alert's worker id, and the manual-alert endpoint accepts alerts with a null worker id | POST a manual alert without `workerId`, then query the alerts of worker w1: the stream throws a NullPointerException, and keeps throwing for every worker until the log is cleared | an alert without a worker id belongs to no worker and is skipped | medium (not executed) | `Store.AlertsForWorkerAsWritten`, shown by `Store.ManualAlertWithoutWorkerBreaksQuery` and `Store.AsWrittenFailsOnAnonymousAlert` | `Store.AlertsForWorker`, used by `Controller.MonitoringController.GetWorkerAlerts` |
