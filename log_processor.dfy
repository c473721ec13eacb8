/** The backend's ingestion service: per-service FIFO buffers filled by
    incoming batches, a periodic cycle that drains up to MAX_LOG_BATCH_SIZE
    entries per service and classifies them, the per-service health records
    recomputed from every batch, the cumulative processing statistics and the
    registry of services. */
module LogProcessor {
  import opened LogTypes
  import Preprocessor

  /** A raw log entry; its timestamp is a point on an integer clock. */
  datatype LogEntry = LogEntry(serviceName: string, timestamp: int, level: LogLevel, message: string)

  /** What the AI classifier or the rule-based fallback returns for an entry. */
  datatype Classification =
    Classification(service: string, errorType: ErrorType, errorSubType: ErrorSubtype,
                   errorDesc: string, severity: SeverityLevel)

  /** A classified entry. The confidence score is kept in hundredths. */
  datatype ProcessedLog =
    ProcessedLog(original: LogEntry, service: string, errorType: ErrorType,
                 errorSubType: ErrorSubtype, errorDesc: string, severity: SeverityLevel,
                 isAnomaly: bool, confidence: nat)

  /** The two classifiers the service calls but whose code is not modelled:
      each returns None when the call raises. */
  datatype Classifiers = Classifiers(ai: LogEntry -> Option<Classification>,
                                     fallback: LogEntry -> Option<Classification>)

  /** An error rate `errors / total`, kept exact; `total` is never 0. */
  datatype ErrorRate = ErrorRate(errors: nat, total: nat)

  datatype SeverityBreakdown = SeverityBreakdown(high: int, medium: int, low: int)

  datatype ServiceHealth =
    ServiceHealth(serviceName: string, status: ServiceStatus, lastSeen: int,
                  errorRate: ErrorRate, totalLogs: nat, errorCount: nat, warningCount: nat,
                  severityBreakdown: SeverityBreakdown, mostCommonErrors: seq<string>,
                  uptimePercentage: nat)

  /** The integer part of the processing statistics. */
  datatype ProcessingStats =
    ProcessingStats(totalLogsProcessed: nat, activeServices: nat, totalAnomalies: nat,
                    lastProcessedTimestamp: int, queueSize: nat)

  /** Entries processed and anomalies found among them. */
  datatype Tally = Tally(processed: nat, anomalies: nat)

  function Min(a: nat, b: nat): nat { if a <= b then a else b }

  // ---------------------------------------------------------------------------
  // Classifying one entry
  // ---------------------------------------------------------------------------

  function NormalEntry(entry: LogEntry): ProcessedLog {
    ProcessedLog(entry, entry.serviceName, UnknownError, UnknownSub, "Normal log entry", Low, false, 90)
  }

  function FromClassification(entry: LogEntry, c: Classification, confidence: nat): ProcessedLog {
    ProcessedLog(entry, c.service, c.errorType, c.errorSubType, c.errorDesc, c.severity, true, confidence)
  }

  /** `_process_single_log`; None when it raises. */
  function ProcessSingleLog(entry: LogEntry, hasAgent: bool, cls: Classifiers): Option<ProcessedLog> {
    var anomaly := Preprocessor.IsAnomalous(entry.message);
    if anomaly && hasAgent && cls.ai(entry).Some? then
      Some(FromClassification(entry, cls.ai(entry).value, 80))
    else if anomaly then
      match cls.fallback(entry)
      case Some(c) => Some(FromClassification(entry, c, 60))
      case None => None
    else
      Some(NormalEntry(entry))
  }

  /** The anomaly flag always agrees with the rule-based filter; normal lines
      never reach a classifier and get the fixed normal record; anomalies get
      0.8 from the AI classifier and 0.6 from the fallback. */
  lemma ProcessSingleLogSpec(entry: LogEntry, hasAgent: bool, cls: Classifiers)
    ensures var r := ProcessSingleLog(entry, hasAgent, cls);
      && (r.Some? ==> r.value.isAnomaly == Preprocessor.IsAnomalous(entry.message)
                      && r.value.original == entry)
      && (!Preprocessor.IsAnomalous(entry.message) ==>
            r == Some(NormalEntry(entry)) && r.value.severity == Low && r.value.confidence == 90)
      && (Preprocessor.IsAnomalous(entry.message) && hasAgent && cls.ai(entry).Some? ==>
            r.Some? && r.value.confidence == 80)
      && (Preprocessor.IsAnomalous(entry.message) && !(hasAgent && cls.ai(entry).Some?) ==>
            (r.Some? <==> cls.fallback(entry).Some?) && (r.Some? ==> r.value.confidence == 60))
  {
  }

  /** The loop of `_process_service_logs` over a drained batch. */
  function CountTally(batch: seq<LogEntry>, hasAgent: bool, cls: Classifiers): (t: Tally)
    ensures t.anomalies <= t.processed <= |batch|
  {
    if batch == [] then Tally(0, 0)
    else
      var t0 := CountTally(batch[..|batch| - 1], hasAgent, cls);
      match ProcessSingleLog(batch[|batch| - 1], hasAgent, cls)
      case None => t0
      case Some(p) => Tally(t0.processed + 1, t0.anomalies + if p.isAnomaly then 1 else 0)
  }

  /** Entries whose processing does not raise are all counted: with classifiers
      that never raise, every entry is processed. */
  lemma {:induction false} CountTallyTotal(batch: seq<LogEntry>, hasAgent: bool, cls: Classifiers)
    requires forall e :: cls.fallback(e).Some?
    ensures CountTally(batch, hasAgent, cls).processed == |batch|
  {
    if batch != [] {
      CountTallyTotal(batch[..|batch| - 1], hasAgent, cls);
    }
  }

  /** The loop of `_process_service_logs` over its batch: an entry whose
      processing raises is skipped, the others are counted. */
  method TallyBatch(batch: seq<LogEntry>, hasAgent: bool, cls: Classifiers) returns (processed: nat, anomalies: nat)
    ensures Tally(processed, anomalies) == CountTally(batch, hasAgent, cls)
  {
    processed, anomalies := 0, 0;
    for i := 0 to |batch|
      invariant Tally(processed, anomalies) == CountTally(batch[..i], hasAgent, cls)
    {
      assert batch[..i + 1][..i] == batch[..i];
      var processedLog := ProcessSingleLog(batch[i], hasAgent, cls);
      if processedLog.Some? {
        processed := processed + 1;
        if processedLog.value.isAnomaly {
          anomalies := anomalies + 1;
        }
      }
    }
    assert batch[..|batch|] == batch;
  }

  // ---------------------------------------------------------------------------
  // Draining a queue
  // ---------------------------------------------------------------------------

  /** The entries one drain takes from the front of a queue. */
  function FrontBatch(q: seq<LogEntry>): seq<LogEntry> { q[..Min(MAX_LOG_BATCH_SIZE, |q|)] }

  /** What one drain leaves in the queue. */
  function Remaining(q: seq<LogEntry>): seq<LogEntry> { q[Min(MAX_LOG_BATCH_SIZE, |q|)..] }

  /** The batches that successive drains take from a queue nobody refills. */
  function DrainBatches(q: seq<LogEntry>): seq<seq<LogEntry>>
    decreases |q|
  {
    if q == [] then [] else [FrontBatch(q)] + DrainBatches(Remaining(q))
  }

  function Flatten(bs: seq<seq<LogEntry>>): seq<LogEntry> {
    if bs == [] then [] else bs[0] + Flatten(bs[1..])
  }

  /** Successive drains hand out the queue in order, each batch non-empty and
      at most MAX_LOG_BATCH_SIZE long: nothing is lost, repeated or reordered. */
  lemma {:induction false} DrainsConcatenate(q: seq<LogEntry>)
    ensures Flatten(DrainBatches(q)) == q
    ensures forall i :: 0 <= i < |DrainBatches(q)| ==> 0 < |DrainBatches(q)[i]| <= MAX_LOG_BATCH_SIZE
    decreases |q|
  {
    if q != [] {
      DrainsConcatenate(Remaining(q));
      var bs := DrainBatches(q);
      assert bs[1..] == DrainBatches(Remaining(q));
      assert FrontBatch(q) + Remaining(q) == q;
    }
  }

  // ---------------------------------------------------------------------------
  // Health of a batch
  // ---------------------------------------------------------------------------

  predicate IsErrorLevel(l: LogLevel) { l == Error || l == Fatal }

  function CountErrors(logs: seq<LogEntry>): nat {
    if logs == [] then 0
    else CountErrors(logs[..|logs| - 1]) + if IsErrorLevel(logs[|logs| - 1].level) then 1 else 0
  }

  function CountWarnings(logs: seq<LogEntry>): nat {
    if logs == [] then 0
    else CountWarnings(logs[..|logs| - 1]) + if logs[|logs| - 1].level == Warn then 1 else 0
  }

  /** No entry is both an error and a warning. */
  lemma {:induction false} CountsWithinBatch(logs: seq<LogEntry>)
    ensures CountErrors(logs) + CountWarnings(logs) <= |logs|
  {
    if logs != [] { CountsWithinBatch(logs[..|logs| - 1]); }
  }

  /** `errors / max(total, 1)` as a rate. */
  function BatchRate(errors: nat, total: nat): ErrorRate {
    ErrorRate(errors, if total > 0 then total else 1)
  }

  /** The rate exceeds `num / den`. */
  predicate RateAbove(r: ErrorRate, num: nat, den: nat) { r.errors * den > num * r.total }

  /** Status of a batch: critical above a 10% error rate, warning above 5% or
      with any warning, healthy otherwise. */
  function BatchStatus(r: ErrorRate, warnings: nat): ServiceStatus {
    if RateAbove(r, 1, 10) then Critical
    else if RateAbove(r, 1, 20) || warnings > 0 then Warning
    else Healthy
  }

  function StatusRank(s: ServiceStatus): nat {
    match s
    case Healthy => 0
    case Warning => 1
    case Critical => 2
    case Unknown => 3
  }

  /** With the batch size fixed, more errors or more warnings never make the
      status better, and a batch never comes out "unknown". */
  lemma BatchStatusMonotone(e1: nat, e2: nat, w1: nat, w2: nat, total: nat)
    requires e1 <= e2 && w1 <= w2
    ensures BatchStatus(BatchRate(e1, total), w1) != Unknown
    ensures StatusRank(BatchStatus(BatchRate(e1, total), w1)) <= StatusRank(BatchStatus(BatchRate(e2, total), w2))
  {
    var n := if total > 0 then total else 1;
    assert e1 * 10 <= e2 * 10 && e1 * 20 <= e2 * 20;
  }

  /** The health rule stated with the counts: critical iff 10e > n, else
      warning iff 20e > n or w > 0, where n = max(total, 1). */
  lemma BatchStatusThresholds(e: nat, w: nat, total: nat)
    ensures var n := if total > 0 then total else 1;
      var s := BatchStatus(BatchRate(e, total), w);
      && (s == Critical <==> 10 * e > n)
      && (s == Warning <==> 10 * e <= n && (20 * e > n || w > 0))
      && (s == Healthy <==> 20 * e <= n && w == 0)
  {
  }

  /** The record `_update_service_health` leaves for `name` after `logs`. */
  function UpdatedHealth(prev: Option<ServiceHealth>, name: string, logs: seq<LogEntry>, now: int): (h: ServiceHealth)
    ensures prev.None? ==>
      && h.totalLogs == |logs| && h.errorCount == CountErrors(logs) && h.warningCount == CountWarnings(logs)
      && h.severityBreakdown
         == SeverityBreakdown(CountErrors(logs), CountWarnings(logs), |logs| - CountErrors(logs) - CountWarnings(logs))
      && h.mostCommonErrors == [] && h.uptimePercentage == 95 && h.serviceName == name
    ensures prev.Some? ==>
      && h.totalLogs == prev.value.totalLogs + |logs|
      && h.errorCount == prev.value.errorCount + CountErrors(logs)
      && h.warningCount == prev.value.warningCount + CountWarnings(logs)
      && h.severityBreakdown == prev.value.severityBreakdown
      && h.mostCommonErrors == prev.value.mostCommonErrors
      && h.uptimePercentage == prev.value.uptimePercentage
      && h.serviceName == prev.value.serviceName
    ensures h.lastSeen == now && h.errorRate == BatchRate(CountErrors(logs), |logs|)
    ensures h.status == BatchStatus(h.errorRate, CountWarnings(logs))
  {
    var e := CountErrors(logs);
    var w := CountWarnings(logs);
    var rate := BatchRate(e, |logs|);
    var status := BatchStatus(rate, w);
    match prev
    case Some(old_) =>
      old_.(lastSeen := now, errorRate := rate, totalLogs := old_.totalLogs + |logs|,
            errorCount := old_.errorCount + e, warningCount := old_.warningCount + w, status := status)
    case None =>
      ServiceHealth(name, status, now, rate, |logs|, e, w, SeverityBreakdown(e, w, |logs| - e - w), [], 95)
  }

  /** What every health record satisfies. */
  predicate HealthValid(h: ServiceHealth) {
    && h.errorCount + h.warningCount <= h.totalLogs
    && 0 < h.errorRate.total && h.errorRate.errors <= h.errorRate.total
    && h.status != Unknown
    && 0 <= h.severityBreakdown.low
    && h.severityBreakdown.high + h.severityBreakdown.medium + h.severityBreakdown.low <= h.totalLogs
  }

  /** Recording a batch keeps a record valid, or creates a valid one. */
  lemma UpdatedHealthValid(prev: Option<ServiceHealth>, name: string, logs: seq<LogEntry>, now: int)
    requires prev.Some? ==> HealthValid(prev.value)
    ensures HealthValid(UpdatedHealth(prev, name, logs, now))
  {
    CountsWithinBatch(logs);
    BatchStatusMonotone(CountErrors(logs), CountErrors(logs), CountWarnings(logs), CountWarnings(logs), |logs|);
  }

  /** Every record is valid and filed under its own service name. */
  predicate HealthRecordsValid(m: map<string, ServiceHealth>) {
    forall k :: k in m ==> m[k].serviceName == k && HealthValid(m[k])
  }

  lemma HealthRecordsUpdate(m: map<string, ServiceHealth>, name: string, h: ServiceHealth)
    requires HealthRecordsValid(m) && h.serviceName == name && HealthValid(h)
    ensures HealthRecordsValid(m[name := h])
  {
  }

  // ---------------------------------------------------------------------------
  // Sums over the services, in the buffer's key order
  // ---------------------------------------------------------------------------

  predicate NoDup(keys: seq<string>) {
    forall i, j :: 0 <= i < j < |keys| ==> keys[i] != keys[j]
  }

  /** `sum(len(queue) for queue in log_buffer.values())`. */
  function SumLengths(keys: seq<string>, buf: map<string, seq<LogEntry>>): nat
    requires forall k :: k in keys ==> k in buf
  {
    if keys == [] then 0 else |buf[keys[0]]| + SumLengths(keys[1..], buf)
  }

  /** The tally the cycle gets from draining `k`. */
  function DrainTally(buf: map<string, seq<LogEntry>>, k: string, hasAgent: bool, cls: Classifiers): Tally {
    if k in buf then CountTally(FrontBatch(buf[k]), hasAgent, cls) else Tally(0, 0)
  }

  function DrainTallies(buf: map<string, seq<LogEntry>>, hasAgent: bool, cls: Classifiers): string -> Tally {
    k => DrainTally(buf, k, hasAgent, cls)
  }

  /** The tallies `f(k)` summed over the keys `k` that are in `s`. */
  function SumOver(keys: seq<string>, s: set<string>, f: string -> Tally): Tally {
    if keys == [] then Tally(0, 0)
    else
      var here := if keys[0] in s then f(keys[0]) else Tally(0, 0);
      var rest := SumOver(keys[1..], s, f);
      Tally(here.processed + rest.processed, here.anomalies + rest.anomalies)
  }

  lemma {:induction false} SumOverIgnores(keys: seq<string>, s: set<string>, x: string, f: string -> Tally)
    requires x !in keys
    ensures SumOver(keys, s + {x}, f) == SumOver(keys, s, f)
  {
    if keys != [] {
      SumOverIgnores(keys[1..], s, x, f);
    }
  }

  lemma NoDupTail(keys: seq<string>)
    requires NoDup(keys) && keys != []
    ensures NoDup(keys[1..]) && keys[0] !in keys[1..]
  {
    var rest := keys[1..];
    forall i, j | 0 <= i < j < |rest| ensures rest[i] != rest[j] {
      assert rest[i] == keys[i + 1] && rest[j] == keys[j + 1];
    }
    forall j | 0 <= j < |rest| ensures rest[j] != keys[0] {
      assert rest[j] == keys[j + 1];
    }
  }

  lemma {:induction false} SumOverEmpty(keys: seq<string>, f: string -> Tally)
    ensures SumOver(keys, {}, f) == Tally(0, 0)
  {
    if keys != [] {
      SumOverEmpty(keys[1..], f);
    }
  }

  /** In a list without repeats, `x` occurs at most once. */
  lemma {:induction false} NoDupCount(keys: seq<string>, x: string)
    requires NoDup(keys)
    ensures multiset(keys)[x] <= 1
  {
    if keys != [] {
      NoDupTail(keys);
      NoDupCount(keys[1..], x);
      assert keys == [keys[0]] + keys[1..];
    }
  }

  /** The tally of `x` if it is one of the keys. */
  function KeyPart(keys: seq<string>, x: string, f: string -> Tally): Tally {
    if x in keys then f(x) else Tally(0, 0)
  }

  /** Adding one more service to the set adds its tally, once. */
  lemma {:induction false} SumOverStep(keys: seq<string>, s: set<string>, x: string, f: string -> Tally)
    requires multiset(keys)[x] <= 1 && x !in s
    ensures SumOver(keys, s + {x}, f).processed == SumOver(keys, s, f).processed + KeyPart(keys, x, f).processed
    ensures SumOver(keys, s + {x}, f).anomalies == SumOver(keys, s, f).anomalies + KeyPart(keys, x, f).anomalies
  {
    if keys != [] {
      var rest := keys[1..];
      assert keys == [keys[0]] + rest;
      if keys[0] == x {
        assert x !in rest;
        SumOverIgnores(rest, s, x, f);
      } else {
        SumOverStep(rest, s, x, f);
        assert KeyPart(keys, x, f) == KeyPart(rest, x, f);
      }
    }
  }

  /** One service of the cycle: the running totals stay the sum over the
      services drained so far. */
  lemma DrainStep(keys: seq<string>, done: set<string>, x: string, f: string -> Tally,
                  processed: nat, anomalies: nat, p: nat, a: nat)
    requires multiset(keys)[x] <= 1 && x !in done
    requires Tally(processed, anomalies) == SumOver(keys, done, f)
    requires Tally(p, a) == KeyPart(keys, x, f)
    ensures Tally(processed + p, anomalies + a) == SumOver(keys, done + {x}, f)
  {
    SumOverStep(keys, done, x, f);
  }

  /** One service of the cycle: what draining a queue not yet drained yields
      is that service's part of the sum. */
  lemma DrainPart(keys: seq<string>, buf0: map<string, seq<LogEntry>>, before: map<string, seq<LogEntry>>,
                  x: string, hasAgent: bool, cls: Classifiers, p: nat, a: nat)
    requires forall k :: k in keys <==> k in buf0
    requires before.Keys == buf0.Keys && (x in buf0 ==> before[x] == buf0[x])
    requires x !in before ==> p == 0 && a == 0
    requires x in before ==> Tally(p, a) == CountTally(FrontBatch(before[x]), hasAgent, cls)
    ensures Tally(p, a) == KeyPart(keys, x, DrainTallies(buf0, hasAgent, cls))
  {
  }

  /** One service of the cycle: the queues drained so far hold what one drain
      leaves, the others are untouched. */
  lemma BufferStep(buf0: map<string, seq<LogEntry>>, before: map<string, seq<LogEntry>>,
                   after: map<string, seq<LogEntry>>, done: set<string>, x: string)
    requires before.Keys == buf0.Keys
    requires forall k :: k in before && k in done ==> before[k] == Remaining(buf0[k])
    requires forall k :: k in before && k !in done ==> before[k] == buf0[k]
    requires x !in done
    requires x !in before ==> after == before
    requires x in before ==> after == before[x := Remaining(before[x])]
    ensures after.Keys == buf0.Keys
    ensures forall k :: k in after && k in done + {x} ==> after[k] == Remaining(buf0[k])
    ensures forall k :: k in after && k !in done + {x} ==> after[k] == buf0[k]
  {
  }

  /** When every tally has no more anomalies than entries, neither has the sum. */
  lemma {:induction false} SumOverBounded(keys: seq<string>, s: set<string>, f: string -> Tally)
    requires forall k :: f(k).anomalies <= f(k).processed
    ensures SumOver(keys, s, f).anomalies <= SumOver(keys, s, f).processed
  {
    if keys != [] {
      SumOverBounded(keys[1..], s, f);
    }
  }

  function RemoveKey(keys: seq<string>, x: string): (r: seq<string>)
    ensures forall k :: k in r <==> k in keys && k != x
    ensures NoDup(keys) ==> NoDup(r)
  {
    if keys == [] then []
    else if keys[0] == x then RemoveKey(keys[1..], x)
    else
      var r := RemoveKey(keys[1..], x);
      if NoDup(keys) then
        NoDupTail(keys);
        NoDupCons(keys[0], r);
        [keys[0]] + r
      else
        [keys[0]] + r
  }

  lemma NoDupSnoc(keys: seq<string>, x: string)
    requires NoDup(keys) && x !in keys
    ensures NoDup(keys + [x])
  {
    var kx := keys + [x];
    forall i, j | 0 <= i < j < |kx| ensures kx[i] != kx[j] {
      assert kx[i] == keys[i];
      if j < |keys| { assert kx[j] == keys[j]; }
    }
  }

  lemma NoDupCons(x: string, r: seq<string>)
    requires NoDup(r) && x !in r
    ensures NoDup([x] + r)
  {
    var xr := [x] + r;
    forall i, j | 0 <= i < j < |xr| ensures xr[i] != xr[j] {
      assert xr[j] == r[j - 1];
      if i > 0 { assert xr[i] == r[i - 1]; }
    }
  }

  // ---------------------------------------------------------------------------
  // The service
  // ---------------------------------------------------------------------------

  class LogProcessorService {
    var isProcessing: bool
    var hasAiAgent: bool
    /** `log_buffer`; `bufferKeys` lists its keys in insertion order. */
    var logBuffer: map<string, seq<LogEntry>>
    var bufferKeys: seq<string>
    var serviceHealth: map<string, ServiceHealth>
    var stats: ProcessingStats
    var registered: set<string>
    var processedLogsCount: nat

    ghost predicate Valid()
      reads this
    {
      && (forall k :: k in logBuffer <==> k in bufferKeys)
      && NoDup(bufferKeys)
      && logBuffer.Keys <= registered
      && serviceHealth.Keys <= registered
      && HealthRecordsValid(serviceHealth)
      && stats.totalLogsProcessed == processedLogsCount
      && stats.totalAnomalies <= stats.totalLogsProcessed
    }

    constructor(now: int)
      ensures Valid()
      ensures !isProcessing && !hasAiAgent
      ensures logBuffer == map[] && serviceHealth == map[] && registered == {}
      ensures stats == ProcessingStats(0, 0, 0, now, 0) && processedLogsCount == 0
    {
      isProcessing := false;
      hasAiAgent := false;
      logBuffer := map[];
      bufferKeys := [];
      serviceHealth := map[];
      stats := ProcessingStats(0, 0, 0, now, 0);
      registered := {};
      processedLogsCount := 0;
    }

    /** The flag and the agent set-up of `start_continuous_processing`; whether
        loading the agent succeeds is an input. */
    method StartContinuousProcessing(aiEnabled: bool, agentLoads: bool)
      requires Valid()
      modifies this
      ensures Valid() && isProcessing
      ensures hasAiAgent == if aiEnabled then agentLoads else old(hasAiAgent)
      ensures logBuffer == old(logBuffer) && bufferKeys == old(bufferKeys)
      ensures serviceHealth == old(serviceHealth) && registered == old(registered)
      ensures stats == old(stats) && processedLogsCount == old(processedLogsCount)
    {
      isProcessing := true;
      if aiEnabled {
        hasAiAgent := agentLoads;
      }
    }

    method StopProcessing()
      requires Valid()
      modifies this
      ensures Valid() && !isProcessing && hasAiAgent == old(hasAiAgent)
      ensures logBuffer == old(logBuffer) && bufferKeys == old(bufferKeys)
      ensures serviceHealth == old(serviceHealth) && registered == old(registered)
      ensures stats == old(stats) && processedLogsCount == old(processedLogsCount)
    {
      isProcessing := false;
    }

    function IsRunning(): bool
      reads this
    {
      isProcessing
    }

    function Queue(name: string): seq<LogEntry>
      reads this
    {
      if name in logBuffer then logBuffer[name] else []
    }

    function QueueSize(): nat
      reads this
      requires Valid()
    {
      SumLengths(bufferKeys, logBuffer)
    }

    /** `_update_service_health`. */
    method UpdateServiceHealth(name: string, logs: seq<LogEntry>, now: int)
      requires Valid() && name in registered
      modifies this
      ensures Valid()
      ensures serviceHealth
        == old(serviceHealth)[name := UpdatedHealth(if name in old(serviceHealth) then Some(old(serviceHealth)[name]) else None, name, logs, now)]
      ensures logBuffer == old(logBuffer) && bufferKeys == old(bufferKeys) && registered == old(registered)
      ensures stats == old(stats) && processedLogsCount == old(processedLogsCount)
      ensures isProcessing == old(isProcessing) && hasAiAgent == old(hasAiAgent)
    {
      var total := |logs|;
      var errorLogs := CountErrors(logs);
      var warningLogs := CountWarnings(logs);
      var rate := BatchRate(errorLogs, total);
      var status: ServiceStatus;
      if RateAbove(rate, 1, 10) {
        status := Critical;
      } else if RateAbove(rate, 1, 20) || warningLogs > 0 {
        status := Warning;
      } else {
        status := Healthy;
      }
      assert status == BatchStatus(rate, warningLogs);
      ghost var prev := if name in serviceHealth then Some(serviceHealth[name]) else None;
      ghost var updated := UpdatedHealth(prev, name, logs, now);
      UpdatedHealthValid(prev, name, logs, now);
      var health: ServiceHealth;
      if name in serviceHealth {
        health := serviceHealth[name];
        health := health.(lastSeen := now, errorRate := rate);
        health := health.(totalLogs := health.totalLogs + total);
        health := health.(errorCount := health.errorCount + errorLogs);
        health := health.(warningCount := health.warningCount + warningLogs);
        health := health.(status := status);
      } else {
        health := ServiceHealth(
          name, status, now, rate, total, errorLogs, warningLogs,
          SeverityBreakdown(errorLogs, warningLogs, total - errorLogs - warningLogs), [], 95);
      }
      assert health == updated;
      assert health.serviceName == name;
      HealthRecordsUpdate(serviceHealth, name, health);
      serviceHealth := serviceHealth[name := health];
    }

    /** `add_log_batch`: an empty batch changes nothing; otherwise the service
        is registered, the entries are appended in order to the tail of its
        queue, and its health record is updated. */
    method AddLogBatch(name: string, logs: seq<LogEntry>, now: int)
      requires Valid()
      modifies this
      ensures Valid()
      ensures logs == [] ==>
        && logBuffer == old(logBuffer) && bufferKeys == old(bufferKeys)
        && serviceHealth == old(serviceHealth) && registered == old(registered)
      ensures logs != [] ==>
        && registered == old(registered) + {name}
        && logBuffer == old(logBuffer)[name := old(Queue(name)) + logs]
        && bufferKeys == (if name in old(logBuffer) then old(bufferKeys) else old(bufferKeys) + [name])
        && serviceHealth
           == old(serviceHealth)[name := UpdatedHealth(if name in old(serviceHealth) then Some(old(serviceHealth)[name]) else None, name, logs, now)]
      ensures stats == old(stats) && processedLogsCount == old(processedLogsCount)
      ensures isProcessing == old(isProcessing) && hasAiAgent == old(hasAiAgent)
    {
      if logs == [] {
        return;
      }
      ghost var q0 := Queue(name);
      registered := registered + {name};
      if name !in logBuffer {
        NoDupSnoc(bufferKeys, name);
        logBuffer := logBuffer[name := []];
        bufferKeys := bufferKeys + [name];
      } else {
        assert logBuffer == logBuffer[name := q0];
      }
      assert logBuffer[name] == q0;
      AppendEntries(name, logs);
      assert logBuffer == old(logBuffer)[name := q0 + logs];
      UpdateServiceHealth(name, logs, now);
    }

    /** The loop of `add_log_batch`: each entry goes to the tail of the queue
        of `name`, in order. */
    method AppendEntries(name: string, logs: seq<LogEntry>)
      requires Valid() && name in logBuffer
      modifies this
      ensures Valid()
      ensures logBuffer == old(logBuffer)[name := old(logBuffer)[name] + logs]
      ensures bufferKeys == old(bufferKeys) && registered == old(registered)
      ensures serviceHealth == old(serviceHealth)
      ensures stats == old(stats) && processedLogsCount == old(processedLogsCount)
      ensures isProcessing == old(isProcessing) && hasAiAgent == old(hasAiAgent)
    {
      ghost var q0 := logBuffer[name];
      assert logs[..0] == [] && q0 + [] == q0;
      assert old(logBuffer)[name := q0] == old(logBuffer);
      var i := 0;
      while i < |logs|
        invariant 0 <= i <= |logs|
        invariant logBuffer == old(logBuffer)[name := q0 + logs[..i]]
        invariant bufferKeys == old(bufferKeys) && registered == old(registered)
        invariant serviceHealth == old(serviceHealth)
        invariant stats == old(stats) && processedLogsCount == old(processedLogsCount)
        invariant isProcessing == old(isProcessing) && hasAiAgent == old(hasAiAgent)
      {
        assert q0 + logs[..i + 1] == (q0 + logs[..i]) + [logs[i]];
        logBuffer := logBuffer[name := logBuffer[name] + [logs[i]]];
        i := i + 1;
      }
      assert logs[..i] == logs;
      assert logBuffer.Keys == old(logBuffer).Keys;
    }

    /** The drain of `_process_service_logs`: pops entries from the front of
        the queue of `name` while fewer than MAX_LOG_BATCH_SIZE are taken. */
    method TakeBatch(name: string) returns (batch: seq<LogEntry>)
      requires Valid() && name in logBuffer
      modifies this
      ensures Valid()
      ensures batch == FrontBatch(old(logBuffer)[name])
      ensures logBuffer == old(logBuffer)[name := Remaining(old(logBuffer)[name])]
      ensures bufferKeys == old(bufferKeys) && registered == old(registered)
      ensures serviceHealth == old(serviceHealth)
      ensures stats == old(stats) && processedLogsCount == old(processedLogsCount)
      ensures isProcessing == old(isProcessing) && hasAiAgent == old(hasAiAgent)
    {
      ghost var q := logBuffer[name];
      batch := [];
      while |batch| < MAX_LOG_BATCH_SIZE && |logBuffer[name]| > 0
        invariant name in logBuffer
        invariant batch + logBuffer[name] == q
        invariant |batch| <= MAX_LOG_BATCH_SIZE
        invariant logBuffer == old(logBuffer)[name := logBuffer[name]]
        invariant bufferKeys == old(bufferKeys) && registered == old(registered)
        invariant serviceHealth == old(serviceHealth)
        invariant stats == old(stats) && processedLogsCount == old(processedLogsCount)
        invariant isProcessing == old(isProcessing) && hasAiAgent == old(hasAiAgent)
        decreases |logBuffer[name]|
      {
        var front := logBuffer[name][0];
        assert batch + [front] + logBuffer[name][1..] == q;
        batch := batch + [front];
        logBuffer := logBuffer[name := logBuffer[name][1..]];
      }
      assert logBuffer.Keys == old(logBuffer).Keys;
    }

    /** `_process_service_logs`: pops min(MAX_LOG_BATCH_SIZE, queue length)
        entries from the front of the queue and classifies them; a missing
        queue yields (0, 0). */
    method ProcessServiceLogs(name: string, cls: Classifiers) returns (processed: nat, anomalies: nat)
      requires Valid()
      modifies this
      ensures Valid()
      ensures name !in old(logBuffer) ==> logBuffer == old(logBuffer) && processed == 0 && anomalies == 0
      ensures name in old(logBuffer) ==>
        && logBuffer == old(logBuffer)[name := Remaining(old(logBuffer)[name])]
        && Tally(processed, anomalies) == CountTally(FrontBatch(old(logBuffer)[name]), hasAiAgent, cls)
      ensures anomalies <= processed
      ensures bufferKeys == old(bufferKeys) && registered == old(registered)
      ensures serviceHealth == old(serviceHealth)
      ensures stats == old(stats) && processedLogsCount == old(processedLogsCount)
      ensures isProcessing == old(isProcessing) && hasAiAgent == old(hasAiAgent)
    {
      if name !in logBuffer {
        return 0, 0;
      }
      var logsToProcess := TakeBatch(name);
      if logsToProcess == [] {
        return 0, 0;
      }
      processed, anomalies := TallyBatch(logsToProcess, hasAiAgent, cls);
    }

    /** The loop of `_processing_loop` over `list(registered_services)`: each
        registered service is drained once, in an order the model does not fix. */
    method DrainRegistered(cls: Classifiers) returns (processedCount: nat, anomalyCount: nat)
      requires Valid()
      modifies this
      ensures Valid()
      ensures logBuffer.Keys == old(logBuffer).Keys
      ensures forall k :: k in logBuffer ==> logBuffer[k] == Remaining(old(logBuffer)[k])
      ensures Tally(processedCount, anomalyCount)
              == SumOver(old(bufferKeys), old(registered), DrainTallies(old(logBuffer), hasAiAgent, cls))
      ensures anomalyCount <= processedCount
      ensures bufferKeys == old(bufferKeys) && registered == old(registered)
      ensures serviceHealth == old(serviceHealth)
      ensures stats == old(stats) && processedLogsCount == old(processedLogsCount)
      ensures isProcessing == old(isProcessing) && hasAiAgent == old(hasAiAgent)
    {
      var pending := registered;
      ghost var done: set<string> := {};
      ghost var keys0 := bufferKeys;
      ghost var buf0 := logBuffer;
      ghost var fixed := (bufferKeys, registered, serviceHealth, stats, processedLogsCount, isProcessing, hasAiAgent);
      processedCount, anomalyCount := 0, 0;
      ghost var f := DrainTallies(buf0, hasAiAgent, cls);
      SumOverEmpty(keys0, f);
      while pending != {}
        invariant Valid()
        invariant pending + done == old(registered) && pending !! done
        invariant logBuffer.Keys == buf0.Keys
        invariant forall k :: k in logBuffer && k in done ==> logBuffer[k] == Remaining(buf0[k])
        invariant forall k :: k in logBuffer && k !in done ==> logBuffer[k] == buf0[k]
        invariant Tally(processedCount, anomalyCount) == SumOver(keys0, done, f)
        invariant (bufferKeys, registered, serviceHealth, stats, processedLogsCount, isProcessing, hasAiAgent) == fixed
        decreases pending
      {
        var serviceName :| serviceName in pending;
        ghost var before := logBuffer;
        var p, a := ProcessServiceLogs(serviceName, cls);
        DrainPart(keys0, buf0, before, serviceName, hasAiAgent, cls, p, a);
        NoDupCount(keys0, serviceName);
        DrainStep(keys0, done, serviceName, f, processedCount, anomalyCount, p, a);
        BufferStep(buf0, before, logBuffer, done, serviceName);
        processedCount := processedCount + p;
        anomalyCount := anomalyCount + a;
        pending := pending - {serviceName};
        done := done + {serviceName};
      }
      SumOverBounded(keys0, done, f);
    }

    /** One pass of `_processing_loop`: every registered service is drained
        once, and the statistics are brought up to date. */
    method ProcessingCycle(cls: Classifiers, now: int)
      requires Valid()
      modifies this
      ensures Valid()
      ensures logBuffer.Keys == old(logBuffer).Keys
      ensures forall k :: k in logBuffer ==> logBuffer[k] == Remaining(old(logBuffer)[k])
      ensures var t := SumOver(old(bufferKeys), old(registered), DrainTallies(old(logBuffer), hasAiAgent, cls));
        && processedLogsCount == old(processedLogsCount) + t.processed
        && stats == ProcessingStats(processedLogsCount, |registered|,
                                    old(stats.totalAnomalies) + t.anomalies, now, QueueSize())
      ensures bufferKeys == old(bufferKeys) && registered == old(registered)
      ensures serviceHealth == old(serviceHealth)
      ensures isProcessing == old(isProcessing) && hasAiAgent == old(hasAiAgent)
    {
      var processedCount, anomalyCount := DrainRegistered(cls);
      processedLogsCount := processedLogsCount + processedCount;
      stats := ProcessingStats(processedLogsCount, |registered|, stats.totalAnomalies + anomalyCount,
                               now, SumLengths(bufferKeys, logBuffer));
    }

    /** `get_service_health`: a non-empty name gives a one-entry dictionary,
        holding None when the service has no record; otherwise a copy of all. */
    function GetServiceHealth(name: Option<string>): (r: map<string, Option<ServiceHealth>>)
      reads this
      ensures name.Some? && name.value != "" ==>
        r.Keys == {name.value}
        && (r[name.value].Some? <==> name.value in serviceHealth)
        && (name.value in serviceHealth ==> r[name.value] == Some(serviceHealth[name.value]))
      ensures !(name.Some? && name.value != "") ==>
        r.Keys == serviceHealth.Keys && forall k :: k in r ==> r[k] == Some(serviceHealth[k])
    {
      if name.Some? && name.value != "" then
        map[name.value := if name.value in serviceHealth then Some(serviceHealth[name.value]) else None]
      else
        map k | k in serviceHealth :: Some(serviceHealth[k])
    }

    function GetProcessingStats(): ProcessingStats
      reads this
    {
      stats
    }

    /** `list(registered_services)`: every service once, in an order the model
        does not fix. */
    method GetRegisteredServices() returns (r: seq<string>)
      ensures NoDup(r) && forall k :: k in r <==> k in registered
    {
      var pending := registered;
      r := [];
      while pending != {}
        invariant NoDup(r)
        invariant forall k :: k in r <==> k in registered && k !in pending
        invariant pending <= registered
        decreases pending
      {
        var k :| k in pending;
        assert NoDup(r + [k]) by {
          forall i, j | 0 <= i < j < |r + [k]| ensures (r + [k])[i] != (r + [k])[j] {
            if j == |r| { assert (r + [k])[i] == r[i]; assert r[i] in r; }
          }
        }
        r := r + [k];
        pending := pending - {k};
      }
    }

    /** `register_service`; registering twice is the same as once. */
    method RegisterService(name: string)
      requires Valid()
      modifies this
      ensures Valid()
      ensures registered == old(registered) + {name}
      ensures logBuffer == old(logBuffer) && bufferKeys == old(bufferKeys)
      ensures serviceHealth == old(serviceHealth)
      ensures stats == old(stats) && processedLogsCount == old(processedLogsCount)
      ensures isProcessing == old(isProcessing) && hasAiAgent == old(hasAiAgent)
    {
      registered := registered + {name};
    }

    /** `unregister_service`: the name leaves the registry, the buffer and the
        health records, and nothing else changes. */
    method UnregisterService(name: string)
      requires Valid()
      modifies this
      ensures Valid()
      ensures registered == old(registered) - {name}
      ensures logBuffer == old(logBuffer) - {name}
      ensures bufferKeys == RemoveKey(old(bufferKeys), name)
      ensures serviceHealth == old(serviceHealth) - {name}
      ensures stats == old(stats) && processedLogsCount == old(processedLogsCount)
      ensures isProcessing == old(isProcessing) && hasAiAgent == old(hasAiAgent)
    {
      registered := registered - {name};
      if name in logBuffer {
        logBuffer := logBuffer - {name};
      }
      bufferKeys := RemoveKey(bufferKeys, name);
      if name in serviceHealth {
        serviceHealth := serviceHealth - {name};
      }
    }
  }
}
