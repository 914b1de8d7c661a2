// core/performance_monitor.py: per-operation query statistics, the bounded queue of recent
// queries, and the monitor_performance wrapper. Durations are reals; the clock and the ISO
// timestamp are passed in.

module Monitoring {
  import opened Wrappers

  /** The statistics kept for one operation once it has been recorded. */
  datatype OpStats = OpStats(count: nat, totalTime: real, minTime: real, maxTime: real, slowQueries: nat)

  /** One entry of recent_queries. */
  datatype QueryRecord = QueryRecord(operation: string, duration: real, success: bool, error: Option<string>,
                                     timestamp: string)

  /** What get_stats reports for one operation. */
  datatype OpReport = OpReport(stats: OpStats, avgTime: real)

  const RecentCapacity: nat := 100

  function Min(a: real, b: real): real { if b < a then b else a }

  function Max(a: real, b: real): real { if b > a then b else a }

  /**
   * record_query on one operation's entry; a missing entry is the defaultdict's fresh one, with
   * min_time infinite and max_time 0.0.
   */
  function StatsStep(s: Option<OpStats>, duration: real, threshold: real): OpStats {
    var slow := if duration > threshold then 1 else 0;
    match s
    case None => OpStats(1, duration, duration, Max(0.0, duration), slow)
    case Some(o) =>
      OpStats(o.count + 1, o.totalTime + duration, Min(o.minTime, duration), Max(o.maxTime, duration),
              o.slowQueries + slow)
  }

  /** deque(maxlen=100).append: the oldest entry goes when the queue is full. */
  function Push(recent: seq<QueryRecord>, e: QueryRecord): (r: seq<QueryRecord>)
  {
    if |recent| < RecentCapacity then recent + [e] else (recent + [e])[|recent| + 1 - RecentCapacity..]
  }

  /** The invariant of one operation's entry: the extremes are ordered and slow queries are among the counted. */
  predicate StatsOk(o: OpStats) {
    o.count >= 1 && o.minTime <= o.maxTime && 0.0 <= o.maxTime && o.slowQueries <= o.count
  }

  /**
   * record_query, on its operation: one more call, the duration added to the total, the
   * extremes kept, and a slow query counted exactly when the duration exceeds the threshold.
   */
  lemma StatsStepFacts(s: Option<OpStats>, duration: real, threshold: real)
    requires s.Some? ==> StatsOk(s.value)
    ensures var o := StatsStep(s, duration, threshold);
      && StatsOk(o)
      && o.count == (if s.Some? then s.value.count else 0) + 1
      && o.totalTime == (if s.Some? then s.value.totalTime else 0.0) + duration
      && o.minTime <= duration <= o.maxTime
      && (s.Some? ==> o.minTime <= s.value.minTime && s.value.maxTime <= o.maxTime)
      && o.slowQueries == (if s.Some? then s.value.slowQueries else 0) + (if duration > threshold then 1 else 0)
  {
  }

  /** The queue keeps at most 100 entries, the newest last, dropping only from the front. */
  lemma PushFacts(recent: seq<QueryRecord>, e: QueryRecord)
    requires |recent| <= RecentCapacity
    ensures var r := Push(recent, e);
      && |r| <= RecentCapacity
      && r[|r| - 1] == e
      && (|recent| < RecentCapacity ==> r == recent + [e])
      && (|recent| == RecentCapacity ==> r == recent[1..] + [e])
  {
    if |recent| == RecentCapacity {
      assert (recent + [e])[1..] == recent[1..] + [e];
    }
  }

  /** list(recent_queries)[-limit:], with Python's slicing: -0 is 0, so a zero limit gives the whole list. */
  function LastEntries(recent: seq<QueryRecord>, limit: int): seq<QueryRecord> {
    if limit > 0 then recent[(if limit < |recent| then |recent| - limit else 0)..]
    else if limit == 0 then recent
    else recent[(if -limit < |recent| then -limit else |recent|)..]
  }

  /** A positive limit gives the newest min(limit, n) entries in order; zero gives them all. */
  lemma LastEntriesFacts(recent: seq<QueryRecord>, limit: int)
    ensures limit == 0 ==> LastEntries(recent, limit) == recent
    ensures limit > 0 ==>
      var r := LastEntries(recent, limit);
      && |r| == (if limit < |recent| then limit else |recent|)
      && r == recent[|recent| - |r|..]
    ensures limit < 0 ==> |LastEntries(recent, limit)| == (if -limit < |recent| then |recent| + limit else 0)
  {
  }

  function AverageOf(o: OpStats): real {
    if o.count > 0 then o.totalTime / (o.count as real) else 0.0
  }

  /** get_stats: one operation (unknown: the empty answer) or all of them, each with its average. */
  function StatsReport(stats: map<string, OpStats>, operation: Option<string>): (r: map<string, OpReport>)
  {
    if operation.Some? && operation.value != "" then
      if operation.value in stats then
        map[operation.value := OpReport(stats[operation.value], AverageOf(stats[operation.value]))]
      else map[]
    else map op | op in stats :: OpReport(stats[op], AverageOf(stats[op]))
  }

  /**
   * get_stats: an unknown operation gives {}; a known one gives just its entry; with no operation
   * every entry is reported; each report carries the stored statistics and total/count (0 for
   * no calls).
   */
  lemma StatsReportFacts(stats: map<string, OpStats>, operation: Option<string>)
    ensures var r := StatsReport(stats, operation);
      && (operation.Some? && operation.value != "" && operation.value !in stats ==> r == map[])
      && (operation.Some? && operation.value != "" ==> r.Keys <= {operation.value})
      && (operation.None? || operation.value == "" ==> r.Keys == stats.Keys)
      && (forall op :: op in r ==>
            (&& op in stats && r[op].stats == stats[op]
             && r[op].avgTime * (if stats[op].count > 0 then stats[op].count as real else 1.0)
                == (if stats[op].count > 0 then stats[op].totalTime else 0.0)))
  {
  }

  class PerformanceMonitor {
    const slowQueryThreshold: real
    var queryStats: map<string, OpStats>
    var recentQueries: seq<QueryRecord>

    ghost predicate Valid()
      reads this
    {
      |recentQueries| <= RecentCapacity && forall op :: op in queryStats ==> StatsOk(queryStats[op])
    }

    constructor(slowQueryThreshold: real)
      ensures Valid() && this.slowQueryThreshold == slowQueryThreshold
      ensures queryStats == map[] && recentQueries == []
    {
      this.slowQueryThreshold := slowQueryThreshold;
      queryStats := map[];
      recentQueries := [];
    }

    /** record_query: its operation's entry is updated and the call joins the recent queue. */
    method RecordQuery(operation: string, duration: real, success: bool, error: Option<string>, timestamp: string)
      requires Valid()
      modifies this
      ensures Valid()
      ensures queryStats == old(queryStats)[operation :=
        StatsStep(if operation in old(queryStats) then Some(old(queryStats)[operation]) else None, duration, slowQueryThreshold)]
      ensures recentQueries == Push(old(recentQueries), QueryRecord(operation, duration, success, error, timestamp))
    {
      var s := if operation in queryStats then Some(queryStats[operation]) else None;
      StatsStepFacts(s, duration, slowQueryThreshold);
      var o := if s.Some? then s.value else OpStats(0, 0.0, 0.0, 0.0, 0);
      var count := o.count + 1;
      var total := o.totalTime + duration;
      var minTime := if s.Some? then Min(o.minTime, duration) else duration;
      var maxTime := Max(if s.Some? then o.maxTime else 0.0, duration);
      var slow := o.slowQueries;
      if duration > slowQueryThreshold {
        slow := slow + 1;
      }
      queryStats := queryStats[operation := OpStats(count, total, minTime, maxTime, slow)];
      var e := QueryRecord(operation, duration, success, error, timestamp);
      PushFacts(recentQueries, e);
      if |recentQueries| < RecentCapacity {
        recentQueries := recentQueries + [e];
      } else {
        recentQueries := recentQueries[1..] + [e];
      }
    }

    function GetStats(operation: Option<string>): map<string, OpReport>
      reads this
    {
      StatsReport(queryStats, operation)
    }

    function GetRecentQueries(limit: int): seq<QueryRecord>
      reads this
    {
      LastEntries(recentQueries, limit)
    }

    /** reset_stats: one operation's entry, or everything including the recent queue. */
    method ResetStats(operation: Option<string>)
      requires Valid()
      modifies this
      ensures Valid()
      ensures operation.Some? && operation.value != "" ==>
        queryStats == old(queryStats) - {operation.value} && recentQueries == old(recentQueries)
      ensures operation.None? || operation.value == "" ==> queryStats == map[] && recentQueries == []
    {
      if operation.Some? && operation.value != "" {
        if operation.value in queryStats {
          queryStats := queryStats - {operation.value};
        } else {
          assert queryStats == queryStats - {operation.value};
        }
      } else {
        queryStats := map[];
        recentQueries := [];
      }
    }
  }

  /** record_query touches only its own operation's entry. */
  lemma RecordOnlyThatOperation(stats: map<string, OpStats>, operation: string, duration: real, threshold: real)
    ensures var stats' := stats[operation := StatsStep(if operation in stats then Some(stats[operation]) else None,
                                                       duration, threshold)];
      && stats'.Keys == stats.Keys + {operation}
      && (forall op :: op in stats && op != operation ==> stats'[op] == stats[op])
  {
  }

  /**
   * How the wrapped call ended: it returned, it raised an `Exception` (with its message), or it
   * was interrupted by a `BaseException` that is not an `Exception` (a cancelled task, a
   * keyboard interrupt), which the wrapper's `except Exception` does not see.
   */
  datatype CallOutcome<T> = Returned(value: T) | Raised(message: string) | Interrupted(kind: string)

  /**
   * monitor_performance around one call: `operationName or funcName` names the operation, one
   * entry is recorded however the call ends, and the call's outcome is passed on. Only an
   * `Exception` marks the entry failed with its message; an interruption passes through the
   * `finally` with `success` still true and no error.
   */
  method MonitorPerformance<T>(monitor: PerformanceMonitor, operationName: Option<string>, funcName: string,
                               outcome: CallOutcome<T>, duration: real, timestamp: string)
    returns (r: CallOutcome<T>)
    requires monitor.Valid()
    modifies monitor
    ensures monitor.Valid()
    ensures r == outcome
    ensures var op := OperationName(operationName, funcName);
      && monitor.queryStats == old(monitor.queryStats)[op :=
           StatsStep(if op in old(monitor.queryStats) then Some(old(monitor.queryStats)[op]) else None,
                     duration, monitor.slowQueryThreshold)]
      && monitor.queryStats.Keys == old(monitor.queryStats).Keys + {op}
      && monitor.queryStats[op].count == (if op in old(monitor.queryStats) then old(monitor.queryStats)[op].count else 0) + 1
      && monitor.recentQueries == Push(old(monitor.recentQueries),
           QueryRecord(op, duration, !outcome.Raised?, if outcome.Raised? then Some(outcome.message) else None, timestamp))
  {
    var op := if operationName.Some? && operationName.value != "" then operationName.value else funcName;
    var success := true;
    var error: Option<string> := None;
    if outcome.Raised? {
      success := false;
      error := Some(outcome.message);
    }
    monitor.RecordQuery(op, duration, success, error, timestamp);
    r := outcome;
  }

  function OperationName(operationName: Option<string>, funcName: string): (r: string)
    ensures operationName.Some? && operationName.value != "" ==> r == operationName.value
    ensures operationName.None? || operationName.value == "" ==> r == funcName
  {
    if operationName.Some? && operationName.value != "" then operationName.value else funcName
  }
}
