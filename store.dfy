/**
 * The in-memory state store as values: the worker-to-latest-reading map, the
 * worker-to-history map and the newest-first alert log, with the updates the
 * ingestion path applies and the projections the queries compute.
 */
module Store {
  import opened Wrappers
  import opened Model

  // ---------------------------------------------------------------------------
  // Readings
  // ---------------------------------------------------------------------------

  /** `getOrDefault(w, [])` on the history map. */
  function HistoryOf(history: map<string, seq<SensorData>>, w: string): (r: seq<SensorData>)
    ensures w in history ==> r == history[w]
    ensures w !in history ==> r == []
  {
    if w in history then history[w] else []
  }

  /** `latestSensorData.put(d.workerId, d)`: only the reading's own worker changes. */
  function RecordLatest(latest: map<string, SensorData>, d: SensorData): (r: map<string, SensorData>)
    ensures r.Keys == latest.Keys + {d.workerId}
    ensures r[d.workerId] == d
    ensures forall w :: w in latest && w != d.workerId ==> r[w] == latest[w]
  {
    latest[d.workerId := d]
  }

  /**
   * `computeIfAbsent(d.workerId, k -> new ArrayList<>()).add(d)`: the
   * reading's worker gets its old history (empty for a new worker) with `d`
   * at the end, and every other worker's history is unchanged.
   */
  function RecordHistory(history: map<string, seq<SensorData>>, d: SensorData): (r: map<string, seq<SensorData>>)
    ensures r.Keys == history.Keys + {d.workerId}
    ensures d.workerId !in history ==> r[d.workerId] == [d]
    ensures d.workerId in history ==> r[d.workerId] == history[d.workerId] + [d]
    ensures forall w :: w in history && w != d.workerId ==> r[w] == history[w]
  {
    history[d.workerId := HistoryOf(history, d.workerId) + [d]]
  }

  /** The latest-reading map after ingesting `ds` in order. */
  function LatestAfter(latest: map<string, SensorData>, ds: seq<SensorData>): map<string, SensorData> {
    if ds == [] then latest else RecordLatest(LatestAfter(latest, ds[..|ds| - 1]), ds[|ds| - 1])
  }

  /** The history map after ingesting `ds` in order. */
  function HistoryAfter(history: map<string, seq<SensorData>>, ds: seq<SensorData>): map<string, seq<SensorData>> {
    if ds == [] then history else RecordHistory(HistoryAfter(history, ds[..|ds| - 1]), ds[|ds| - 1])
  }

  /** The readings of `ds` that belong to worker `w`, in order. */
  function ReadingsOf(ds: seq<SensorData>, w: string): (r: seq<SensorData>)
    ensures |r| <= |ds|
    ensures forall i :: 0 <= i < |r| ==> r[i].workerId == w
  {
    if ds == [] then []
    else ReadingsOf(ds[..|ds| - 1], w) + (if ds[|ds| - 1].workerId == w then [ds[|ds| - 1]] else [])
  }

  /** The workers that occur in `ds`. */
  function WorkersOf(ds: seq<SensorData>): set<string> {
    set i | 0 <= i < |ds| :: ds[i].workerId
  }

  /**
   * The two reading maps agree: they know the same workers, every reading is
   * filed under its own worker, each history is non-empty and its last entry
   * is the worker's latest reading.
   */
  ghost predicate Filed(latest: map<string, SensorData>, history: map<string, seq<SensorData>>) {
    && latest.Keys == history.Keys
    && (forall w :: w in latest ==> latest[w].workerId == w)
    && (forall w :: w in history ==> |history[w]| > 0 && history[w][|history[w]| - 1] == latest[w])
    && (forall w, i :: w in history && 0 <= i < |history[w]| ==> history[w][i].workerId == w)
  }

  /** Ingesting one reading keeps the two maps in agreement. */
  lemma RecordKeepsFiled(latest: map<string, SensorData>, history: map<string, seq<SensorData>>, d: SensorData)
    requires Filed(latest, history)
    ensures Filed(RecordLatest(latest, d), RecordHistory(history, d))
  {
    var h: map<string, seq<SensorData>> := RecordHistory(history, d);
    forall w: string, i: int | w in h && 0 <= i < |h[w]|
      ensures h[w][i].workerId == w
    {
      if w == d.workerId && i == |h[w]| - 1 {
        assert h[w][i] == d;
      }
    }
  }

  /** A worker's history is its old history followed by its new readings, in arrival order. */
  lemma {:induction false} HistoryAfterAppendsInOrder(history: map<string, seq<SensorData>>, ds: seq<SensorData>, w: string)
    ensures HistoryOf(HistoryAfter(history, ds), w) == HistoryOf(history, w) + ReadingsOf(ds, w)
  {
    if ds != [] {
      HistoryAfterAppendsInOrder(history, ds[..|ds| - 1], w);
    }
  }

  /** K readings for one worker, starting from nothing, leave a history of exactly those K readings in order. */
  lemma {:induction false} SingleWorkerHistory(ds: seq<SensorData>, w: string)
    requires forall i :: 0 <= i < |ds| ==> ds[i].workerId == w
    ensures HistoryOf(HistoryAfter(map[], ds), w) == ds
  {
    HistoryAfterAppendsInOrder(map[], ds, w);
    ReadingsOfSingleWorker(ds, w);
  }

  lemma {:induction false} ReadingsOfSingleWorker(ds: seq<SensorData>, w: string)
    requires forall i :: 0 <= i < |ds| ==> ds[i].workerId == w
    ensures ReadingsOf(ds, w) == ds
  {
    if ds != [] {
      ReadingsOfSingleWorker(ds[..|ds| - 1], w);
      assert ds[..|ds| - 1] + [ds[|ds| - 1]] == ds;
    }
  }

  /** The workers with a latest reading are the old ones plus those that sent a reading. */
  lemma {:induction false} LatestAfterKeys(latest: map<string, SensorData>, ds: seq<SensorData>)
    ensures LatestAfter(latest, ds).Keys == latest.Keys + WorkersOf(ds)
  {
    if ds != [] {
      var init := ds[..|ds| - 1];
      LatestAfterKeys(latest, init);
      assert WorkersOf(ds) == WorkersOf(init) + {ds[|ds| - 1].workerId} by {
        forall w | w in WorkersOf(ds) ensures w in WorkersOf(init) + {ds[|ds| - 1].workerId} {
          var i :| 0 <= i < |ds| && ds[i].workerId == w;
          if i < |ds| - 1 { assert init[i] == ds[i]; }
        }
        forall w | w in WorkersOf(init) ensures w in WorkersOf(ds) {
          var i :| 0 <= i < |init| && init[i].workerId == w;
          assert ds[i] == init[i];
        }
      }
    }
  }

  /** The latest reading of a worker that sent readings is the last one it sent. */
  lemma {:induction false} LatestAfterIsLastReading(latest: map<string, SensorData>, ds: seq<SensorData>, w: string)
    requires ReadingsOf(ds, w) != []
    ensures w in LatestAfter(latest, ds)
    ensures LatestAfter(latest, ds)[w] == ReadingsOf(ds, w)[|ReadingsOf(ds, w)| - 1]
  {
    var last := ds[|ds| - 1];
    if last.workerId != w {
      LatestAfterIsLastReading(latest, ds[..|ds| - 1], w);
    }
  }

  /**
   * N readings from N distinct workers, starting from nothing, leave exactly N
   * latest entries, each the reading its worker sent.
   */
  lemma {:induction false} DistinctWorkersLatest(ds: seq<SensorData>)
    requires forall i, j :: 0 <= i < j < |ds| ==> ds[i].workerId != ds[j].workerId
    ensures |LatestAfter(map[], ds)| == |ds|
    ensures forall i :: 0 <= i < |ds| ==> ds[i].workerId in LatestAfter(map[], ds) && LatestAfter(map[], ds)[ds[i].workerId] == ds[i]
  {
    if ds != [] {
      var init := ds[..|ds| - 1];
      var last := ds[|ds| - 1];
      DistinctWorkersLatest(init);
      LatestAfterKeys(map[], init);
      assert last.workerId !in WorkersOf(init);
      var before := LatestAfter(map[], init);
      assert last.workerId !in before.Keys;
      assert LatestAfter(map[], ds).Keys == before.Keys + {last.workerId};
      assert |LatestAfter(map[], ds).Keys| == |before.Keys| + 1;
      forall i | 0 <= i < |ds|
        ensures ds[i].workerId in LatestAfter(map[], ds) && LatestAfter(map[], ds)[ds[i].workerId] == ds[i]
      {
        if i < |ds| - 1 {
          assert init[i] == ds[i];
        }
      }
    }
  }

  // ---------------------------------------------------------------------------
  // The alert log
  // ---------------------------------------------------------------------------

  /** The reverse of a sequence: oldest-first order of a newest-first log. */
  function Reversed(s: seq<Alert>): (r: seq<Alert>)
    ensures |r| == |s|
  {
    if s == [] then [] else Reversed(s[1..]) + [s[0]]
  }

  /** Prepending to a newest-first log appends to its oldest-first reading. */
  lemma ReversedPrepend(a: Alert, log: seq<Alert>)
    ensures Reversed([a] + log) == Reversed(log) + [a]
  {
    assert ([a] + log)[1..] == log;
  }

  /**
   * The per-worker alert filter: the alerts of worker `w`, in log order. An
   * alert without a worker id matches no worker (AlertsForWorkerAsWritten
   * is what the source does instead).
   */
  function AlertsForWorker(log: seq<Alert>, w: string): (r: seq<Alert>)
    ensures |r| <= |log|
    ensures forall a: Alert :: a in r <==> a in log && a.workerId == Some(w)
    ensures forall a: Alert :: a.workerId == Some(w) ==> multiset(r)[a] == multiset(log)[a]
  {
    if log == [] then []
    else
      assert log == [log[0]] + log[1..];
      (if log[0].workerId == Some(w) then [log[0]] else []) + AlertsForWorker(log[1..], w)
  }

  /** Filtering distributes over concatenation, so it keeps the log's order. */
  lemma {:induction false} AlertsForWorkerConcat(x: seq<Alert>, y: seq<Alert>, w: string)
    ensures AlertsForWorker(x + y, w) == AlertsForWorker(x, w) + AlertsForWorker(y, w)
  {
    if x == [] {
      assert x + y == y;
    } else {
      assert (x + y)[0] == x[0];
      assert (x + y)[1..] == x[1..] + y;
      AlertsForWorkerConcat(x[1..], y, w);
    }
  }

  /** A log holding only one worker's alerts is that worker's list, in the same order. */
  lemma {:induction false} AlertsForOnlyWorker(log: seq<Alert>, w: string)
    requires forall i :: 0 <= i < |log| ==> log[i].workerId == Some(w)
    ensures AlertsForWorker(log, w) == log
  {
    if log != [] {
      AlertsForOnlyWorker(log[1..], w);
    }
  }

  /** The number of alerts whose severity string is `name`, as `name.equals(a.getSeverity())` counts. */
  function CountSeverity(log: seq<Alert>, name: string): (n: nat)
    ensures n <= |log|
  {
    if log == [] then 0
    else (if SeverityLabel(log[0].severity) == Some(name) then 1 else 0) + CountSeverity(log[1..], name)
  }

  /** No alert is counted both as CRITICAL and as HIGH. */
  lemma {:induction false} CriticalAndHighWithinTotal(log: seq<Alert>)
    ensures CountSeverity(log, "CRITICAL") + CountSeverity(log, "HIGH") <= |log|
  {
    if log != [] {
      CriticalAndHighWithinTotal(log[1..]);
    }
  }

  /** The severities in the log, with multiplicity. */
  function Severities(log: seq<Alert>): multiset<Severity> {
    if log == [] then multiset{} else multiset{log[0].severity} + Severities(log[1..])
  }

  /** Every severity in the log is in its canonical form. */
  predicate CanonicalLog(log: seq<Alert>) {
    forall i :: 0 <= i < |log| ==> Canonical(log[i].severity)
  }

  /** For canonical severities, counting the label is counting the level. */
  lemma {:induction false} CountSeverityIsCountOfLevel(log: seq<Alert>, s: Severity)
    requires s.IsLevel()
    requires CanonicalLog(log)
    ensures CountSeverity(log, SeverityLabel(s).value) == Severities(log)[s]
  {
    if log != [] {
      CountSeverityIsCountOfLevel(log[1..], s);
      ParseSeverityLabel(log[0].severity);
      ParseSeverityLabel(s);
    }
  }

  // ---------------------------------------------------------------------------
  // The per-worker alert query as the source writes it
  // ---------------------------------------------------------------------------

  /** `alert.getWorkerId().equals(workerId)` on a null worker id throws. */
  datatype QueryError = NullPointerException

  /**
   * The per-worker alert query as written: the stream visits the log in order
   * and the first alert without a worker id throws.
   */
  function AlertsForWorkerAsWritten(log: seq<Alert>, w: string): (r: Result<seq<Alert>, QueryError>)
    ensures r.Failure? <==> exists i :: 0 <= i < |log| && log[i].workerId.None?
    ensures r.Success? ==> r.value == AlertsForWorker(log, w)
  {
    if log == [] then Success([])
    else if log[0].workerId.None? then Failure(NullPointerException)
    else
      match AlertsForWorkerAsWritten(log[1..], w)
      case Failure(e) => Failure(e)
      case Success(rest) => Success((if log[0].workerId == Some(w) then [log[0]] else []) + rest)
  }

  /** Any alert without a worker id in the log makes every per-worker query fail. */
  lemma {:induction false} AsWrittenFailsOnAnonymousAlert(log: seq<Alert>, w: string, k: nat)
    requires k < |log| && log[k].workerId.None?
    ensures AlertsForWorkerAsWritten(log, w).Failure?
  {
    if log[0].workerId.Some? {
      AsWrittenFailsOnAnonymousAlert(log[1..], w, k - 1);
    }
  }

  /** When every alert names a worker, the as-written query and AlertsForWorker agree. */
  lemma {:induction false} AsWrittenAgreesWhenAllNamed(log: seq<Alert>, w: string)
    requires forall i :: 0 <= i < |log| ==> log[i].workerId.Some?
    ensures AlertsForWorkerAsWritten(log, w) == Success(AlertsForWorker(log, w))
  {
    if log != [] {
      AsWrittenAgreesWhenAllNamed(log[1..], w);
    }
  }

  /** A manually posted alert without a worker id breaks the query for a worker it has nothing to do with. */
  lemma ManualAlertWithoutWorkerBreaksQuery()
    ensures var manual := Alert(None, None, None, Text(Some("drill")), HIGH, CustomType(None), None, None);
            AlertsForWorkerAsWritten([manual], "w1") == Failure(NullPointerException)
            && AlertsForWorker([manual], "w1") == []
  {
  }
}
