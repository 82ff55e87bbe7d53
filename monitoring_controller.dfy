/**
 * The ingestion pipeline and the in-memory store it keeps: a newest-first
 * alert log, the latest reading of each worker and each worker's reading
 * history. The broadcast channel is the ghost log `published`.
 */
module Controller {
  import opened Wrappers
  import opened Model
  import SafetyAnalysis
  import Store

  /** The `status` of the ingestion endpoint's response, with the alert when one was raised. */
  datatype IngestStatus = ALERT_GENERATED(alert: Alert) | DATA_PROCESSED

  /** The figures of the status endpoint. */
  datatype SystemStatus = SystemStatus(
    totalWorkers: nat,
    totalAlerts: nat,
    criticalAlerts: nat,
    highAlerts: nat,
    systemStatus: string)

  class MonitoringController {
    var alertHistory: seq<Alert>
    var latestSensorData: map<string, SensorData>
    var sensorDataHistory: map<string, seq<SensorData>>

    /** Every alert sent on the broadcast channel, oldest first. */
    ghost var published: seq<Alert>
    /** How many of the published alerts were sent before the log was last cleared. */
    ghost var clearMark: nat

    /**
     * The store's invariant: the two reading maps agree (`Store.Filed`); every
     * alert in the log has its severity in canonical form; the alert log is,
     * newest first, exactly what was broadcast since the last clear.
     */
    ghost predicate Valid()
      reads this
    {
      && Store.Filed(latestSensorData, sensorDataHistory)
      && Store.CanonicalLog(alertHistory)
      && clearMark <= |published|
      && published[clearMark..] == Store.Reversed(alertHistory)
    }

    constructor ()
      ensures Valid()
      ensures alertHistory == [] && latestSensorData == map[] && sensorDataHistory == map[]
      ensures published == []
    {
      alertHistory := [];
      latestSensorData := map[];
      sensorDataHistory := map[];
      published := [];
      clearMark := 0;
    }

    /**
     * `receiveSensorData`: file the reading, run the rule engine and, when it
     * raises an alert, put the alert at the head of the log and broadcast it
     * once. The alert id and clock are parameters.
     */
    method ReceiveSensorData(d: SensorData, alertId: string, now: Timestamp) returns (status: IngestStatus)
      requires Valid()
      requires ValidReading(d)
      modifies this
      ensures Valid()
      ensures latestSensorData == Store.RecordLatest(old(latestSensorData), d)
      ensures sensorDataHistory == Store.RecordHistory(old(sensorDataHistory), d)
      ensures match SafetyAnalysis.AnalyzeSensorData(d, alertId, now)
              case Some(a) =>
                && alertHistory == [a] + old(alertHistory)
                && published == old(published) + [a]
                && status == ALERT_GENERATED(a)
              case None =>
                && alertHistory == old(alertHistory)
                && published == old(published)
                && status == DATA_PROCESSED
    {
      Store.RecordKeepsFiled(latestSensorData, sensorDataHistory, d);
      latestSensorData := Store.RecordLatest(latestSensorData, d);
      sensorDataHistory := Store.RecordHistory(sensorDataHistory, d);
      var alert := SafetyAnalysis.AnalyzeSensorData(d, alertId, now);
      if alert.Some? {
        Prepend(alert.value);
        status := ALERT_GENERATED(alert.value);
      } else {
        status := DATA_PROCESSED;
      }
    }

    /**
     * `createManualAlert`: the caller's alert goes to the head of the log and
     * is broadcast once. The severity is the canonical form of the string
     * sent, as `Model.ParseSeverity` reads it.
     */
    method CreateManualAlert(alert: Alert)
      requires Valid()
      requires Canonical(alert.severity)
      modifies this
      ensures Valid()
      ensures alertHistory == [alert] + old(alertHistory)
      ensures published == old(published) + [alert]
      ensures latestSensorData == old(latestSensorData) && sensorDataHistory == old(sensorDataHistory)
    {
      Prepend(alert);
    }

    /** `alertHistory.add(0, alert)` followed by the broadcast. */
    method Prepend(alert: Alert)
      requires Canonical(alert.severity) && Store.CanonicalLog(alertHistory)
      requires clearMark <= |published| && published[clearMark..] == Store.Reversed(alertHistory)
      modifies this`alertHistory, this`published
      ensures alertHistory == [alert] + old(alertHistory)
      ensures published == old(published) + [alert]
      ensures Store.CanonicalLog(alertHistory)
      ensures clearMark <= |published| && published[clearMark..] == Store.Reversed(alertHistory)
    {
      Store.ReversedPrepend(alert, alertHistory);
      assert (published + [alert])[clearMark..] == published[clearMark..] + [alert];
      alertHistory := [alert] + alertHistory;
      published := published + [alert];
    }

    /** `clearAlerts`: the log becomes empty; readings and broadcasts already made stay. */
    method ClearAlerts()
      requires Valid()
      modifies this
      ensures Valid()
      ensures alertHistory == []
      ensures forall w :: GetWorkerAlerts(w) == []
      ensures published == old(published)
      ensures latestSensorData == old(latestSensorData) && sensorDataHistory == old(sensorDataHistory)
    {
      alertHistory := [];
      clearMark := |published|;
    }

    /** `getAlertHistory`: the log, newest first: the broadcasts since the last clear, in reverse. */
    function GetAlertHistory(): (r: seq<Alert>)
      requires Valid()
      reads this
      ensures Store.Reversed(r) == published[clearMark..]
      ensures |r| == |published| - clearMark
    {
      alertHistory
    }

    /** `getWorkerAlerts`: the worker's alerts, in the log's newest-first order. */
    function GetWorkerAlerts(w: string): (r: seq<Alert>)
      reads this
      ensures forall a: Alert :: a in r <==> a in alertHistory && a.workerId == Some(w)
      ensures forall a: Alert :: a.workerId == Some(w) ==> multiset(r)[a] == multiset(alertHistory)[a]
    {
      Store.AlertsForWorker(alertHistory, w)
    }

    /** `getLatestSensorData`: each known worker's most recent reading. */
    function GetLatestSensorData(): (r: map<string, SensorData>)
      requires Valid()
      reads this
      ensures r.Keys == sensorDataHistory.Keys
      ensures forall w :: w in r ==> r[w].workerId == w
      ensures forall w :: w in r ==> r[w] == sensorDataHistory[w][|sensorDataHistory[w]| - 1]
    {
      latestSensorData
    }

    /** `getWorkerSensorHistory`: the worker's readings, oldest first; empty for an unknown worker. */
    function GetWorkerSensorHistory(w: string): (r: seq<SensorData>)
      requires Valid()
      reads this
      ensures w !in latestSensorData <==> r == []
      ensures forall i :: 0 <= i < |r| ==> r[i].workerId == w
      ensures w in latestSensorData ==> r[|r| - 1] == latestSensorData[w]
    {
      Store.HistoryOf(sensorDataHistory, w)
    }

    /** `getSystemStatus`: figures computed afresh from the current state. */
    function GetSystemStatus(): (s: SystemStatus)
      requires Valid()
      reads this
      ensures s.totalWorkers == |latestSensorData| && s.totalAlerts == |alertHistory|
      ensures s.criticalAlerts == Store.Severities(alertHistory)[CRITICAL]
      ensures s.highAlerts == Store.Severities(alertHistory)[HIGH]
      ensures s.criticalAlerts + s.highAlerts <= s.totalAlerts
      ensures s.systemStatus == "OPERATIONAL"
    {
      Store.CriticalAndHighWithinTotal(alertHistory);
      Store.CountSeverityIsCountOfLevel(alertHistory, CRITICAL);
      Store.CountSeverityIsCountOfLevel(alertHistory, HIGH);
      SystemStatus(
        |latestSensorData|,
        |alertHistory|,
        Store.CountSeverity(alertHistory, "CRITICAL"),
        Store.CountSeverity(alertHistory, "HIGH"),
        "OPERATIONAL")
    }
  }

  /** Ingestion end to end: an over-temperature reading raises one CRITICAL alert, broadcast once. */
  method IngestScenario() {
    var c := new MonitoringController();
    var hot := SensorData("s1", "w1", 60.0, Some("temperature"), None);
    assert ValidReading(hot) by { assert hot.sensorId[0] > ' ' && hot.workerId[0] > ' '; }
    SafetyAnalysis.TemperatureExample();
    var s1 := c.ReceiveSensorData(hot, "a1", 0);
    assert s1.ALERT_GENERATED? && s1.alert.severity == CRITICAL && s1.alert.triggerValue == Some(60.0);
    assert c.published == [s1.alert];
    assert c.GetWorkerSensorHistory("w1") == [hot];
  }

  /** Ingestion end to end: an oxygen reading of 98.0 raises nothing and broadcasts nothing. */
  method QuietScenario() {
    var c := new MonitoringController();
    var fine := SensorData("s2", "w2", 98.0, Some("oxygen"), None);
    assert ValidReading(fine) by { assert fine.sensorId[0] > ' ' && fine.workerId[0] > ' '; }
    SafetyAnalysis.OxygenExample();
    var s2 := c.ReceiveSensorData(fine, "a2", 0);
    assert s2 == DATA_PROCESSED && c.published == [] && c.alertHistory == [];
    assert c.GetLatestSensorData().Keys == {"w2"} && c.GetLatestSensorData()["w2"] == fine;
  }

  /** Alerts appended as A1 then A2 are listed A2 first; clearing empties every worker's alerts. */
  method OrderingScenario(a1: Alert, a2: Alert)
    requires Canonical(a1.severity) && Canonical(a2.severity)
  {
    var c := new MonitoringController();
    c.CreateManualAlert(a1);
    c.CreateManualAlert(a2);
    assert c.GetAlertHistory() == [a2, a1];
    assert c.GetSystemStatus().totalAlerts == 2;
    c.ClearAlerts();
    assert c.GetAlertHistory() == [] && c.published == [a1, a2];
  }

  /** One worker's alerts, appended as A1 then A2, are listed A2 first. */
  method WorkerOrderScenario(a1: Alert, a2: Alert)
    requires Canonical(a1.severity) && Canonical(a2.severity)
    requires a1.workerId == Some("w1") && a2.workerId == Some("w1")
  {
    var c := new MonitoringController();
    c.CreateManualAlert(a1);
    c.CreateManualAlert(a2);
    assert c.alertHistory == [a2, a1];
    Store.AlertsForOnlyWorker([a2, a1], "w1");
    var r := c.GetWorkerAlerts("w1");
    assert r == Store.AlertsForWorker(c.alertHistory, "w1");
    assert r == [a2, a1];
  }
}
