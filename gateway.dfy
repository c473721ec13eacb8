/** The Smart Log Processor gateway: the per-application live queues fed by
    `/process-log`, bounded by MAX_QUEUE_SIZE with lines dropped once full;
    the sweep of queues idle for longer than a timeout; and the stop flags
    behind `/start-continuous` and `/stop-process`. */
module Gateway {
  import opened LogTypes
  import SLP = SmartLogProcessor

  const MAX_QUEUE_SIZE: nat := 1000
  const DEFAULT_CLEANUP_TIMEOUT: int := 3600

  /** One queued record: `{"app_id", "app_name", "log"}`. */
  datatype QueuedLog = QueuedLog(appId: string, appName: string, log: string)

  /** `LogProcessRequest`. */
  datatype ProcessRequest = ProcessRequest(
    appId: string, appName: string, logUrl: Option<string>, logLines: Option<seq<string>>)

  // ---------------------------------------------------------------------------
  // Where the lines come from
  // ---------------------------------------------------------------------------

  /** Python truthiness of the two optional request fields. */
  predicate GivenUrl(u: Option<string>) { u.Some? && u.value != "" }
  predicate GivenLines(ls: Option<seq<string>>) { ls.Some? && ls.value != [] }

  datatype LineSource = FromUrl(url: string) | Inline(lines: seq<string>) | NoSource

  /** The `if request.log_url / elif request.log_lines / else` of `process_log`. */
  function SourceOf(req: ProcessRequest): LineSource {
    if GivenUrl(req.logUrl) then FromUrl(req.logUrl.value)
    else if GivenLines(req.logLines) then Inline(req.logLines.value)
    else NoSource
  }

  /** A non-empty URL wins over inline lines; inline lines are used only
      without one; with neither the request is refused. */
  lemma SourceOfSpec(req: ProcessRequest)
    ensures SourceOf(req).FromUrl? <==> GivenUrl(req.logUrl)
    ensures SourceOf(req).FromUrl? ==> SourceOf(req).url == req.logUrl.value
    ensures SourceOf(req).Inline? <==> !GivenUrl(req.logUrl) && GivenLines(req.logLines)
    ensures SourceOf(req).Inline? ==> SourceOf(req).lines == req.logLines.value && SourceOf(req).lines != []
    ensures SourceOf(req).NoSource? <==> !GivenUrl(req.logUrl) && !GivenLines(req.logLines)
  {
  }

  /** The lines `process_log` goes on with: the inline ones, or what the
      fetch of the URL returned split into lines (None when the fetch
      raised). */
  function LinesOf(req: ProcessRequest, fetched: Option<seq<string>>): Option<seq<string>> {
    match SourceOf(req)
    case FromUrl(_) => fetched
    case Inline(ls) => Some(ls)
    case NoSource => None
  }

  // ---------------------------------------------------------------------------
  // The bounded queue
  // ---------------------------------------------------------------------------

  /** `put_nowait` for each item in turn: an item offered to a full queue is
      dropped. */
  function Offer(q: seq<QueuedLog>, items: seq<QueuedLog>): seq<QueuedLog> {
    if items == [] then q
    else
      var before := Offer(q, items[..|items| - 1]);
      if |before| < MAX_QUEUE_SIZE then before + [items[|items| - 1]] else before
  }

  function Min(a: int, b: int): int { if a <= b then a else b }

  /** With nothing taken off the queue meanwhile, offering items keeps the
      first ones that fit, in order, and drops the rest; a queue within the
      bound stays within it. */
  lemma {:induction false} OfferSpec(q: seq<QueuedLog>, items: seq<QueuedLog>)
    requires |q| <= MAX_QUEUE_SIZE
    ensures Offer(q, items) == q + items[..Min(|items|, MAX_QUEUE_SIZE - |q|)]
    ensures |Offer(q, items)| <= MAX_QUEUE_SIZE
    decreases |items|
  {
    if items != [] {
      var n := |items| - 1;
      OfferSpec(q, items[..n]);
      var k := Min(n, MAX_QUEUE_SIZE - |q|);
      assert items[..n][..k] == items[..k];
      if |q| + k < MAX_QUEUE_SIZE {
        assert k == n;
        assert items[..n + 1] == items[..n] + [items[n]];
        assert (q + items[..n]) + [items[n]] == q + items[..n + 1];
      }
    }
  }

  /** The records `process_log` offers for its lines. */
  function Records(appId: string, appName: string, lines: seq<string>): (r: seq<QueuedLog>)
    ensures |r| == |lines|
    ensures forall k :: 0 <= k < |r| ==> r[k] == QueuedLog(appId, appName, lines[k])
  {
    seq(|lines|, k requires 0 <= k < |lines| => QueuedLog(appId, appName, lines[k]))
  }

  // ---------------------------------------------------------------------------
  // Starting and stopping
  // ---------------------------------------------------------------------------

  datatype StartResponse = StartError(error: string) | AlreadyRunning | Started(appId: string)
  datatype StopResponse = NotRunning | Stopping(appId: string)

  /** A processor counts as running while its flag exists and is not set. */
  predicate Running(flags: map<string, bool>, appId: string) {
    appId in flags && !flags[appId]
  }

  /** The answer of `start_continuous_processing`. */
  function StartDecision(logUrl: Option<string>, appId: string, flags: map<string, bool>): StartResponse {
    if !GivenUrl(logUrl) then StartError("log_url required for continuous processing")
    else if Running(flags, appId) then AlreadyRunning
    else Started(appId)
  }

  /** The flags after a start: the new processor's thread first installs a
      fresh, unset flag for its id. */
  function FlagsAfterStart(logUrl: Option<string>, appId: string, flags: map<string, bool>): map<string, bool> {
    if StartDecision(logUrl, appId, flags).Started? then flags[appId := false] else flags
  }

  /** The answer of `stop_continuous_processing`. */
  function StopDecision(appId: string, flags: map<string, bool>): StopResponse {
    if appId !in flags then NotRunning else Stopping(appId)
  }

  function FlagsAfterStop(appId: string, flags: map<string, bool>): map<string, bool> {
    if appId in flags then flags[appId := true] else flags
  }

  /** A start without a URL always fails first; a start with one fails only
      while the id runs, and leaves it running; a stop is refused only for an
      id that never started, and leaves it not running, so the next start
      with a URL succeeds. */
  lemma StartStopSpec(logUrl: Option<string>, appId: string, flags: map<string, bool>)
    ensures StartDecision(logUrl, appId, flags).StartError? <==> !GivenUrl(logUrl)
    ensures StartDecision(logUrl, appId, flags) == AlreadyRunning <==> GivenUrl(logUrl) && Running(flags, appId)
    ensures GivenUrl(logUrl) ==> Running(FlagsAfterStart(logUrl, appId, flags), appId)
    ensures StopDecision(appId, flags) == NotRunning <==> appId !in flags
    ensures !Running(FlagsAfterStop(appId, flags), appId)
    ensures GivenUrl(logUrl) ==> StartDecision(logUrl, appId, FlagsAfterStop(appId, flags)) == Started(appId)
    ensures forall other :: other != appId ==>
      && (other in FlagsAfterStart(logUrl, appId, flags) <==> other in flags)
      && (other in FlagsAfterStop(appId, flags) <==> other in flags)
  {
  }

  // ---------------------------------------------------------------------------
  // The idle sweep
  // ---------------------------------------------------------------------------

  /** The ids whose last activity lies more than `timeout` seconds back. */
  function Stale(lastActivity: map<string, int>, now: int, timeout: int): set<string> {
    set id | id in lastActivity && now - lastActivity[id] > timeout
  }

  /** The gateway's three module-level dictionaries. */
  class Server {
    /** `log_queues`, each `asyncio.Queue` as the sequence of its items. */
    var logQueues: map<string, seq<QueuedLog>>
    /** `queue_last_activity`, in seconds. */
    var lastActivity: map<string, int>
    /** `stop_flags`, each `Event` as whether it is set. */
    var stopFlags: map<string, bool>

    ghost predicate Valid()
      reads this
    {
      forall id :: id in logQueues ==> |logQueues[id]| <= MAX_QUEUE_SIZE
    }

    constructor()
      ensures Valid()
      ensures logQueues == map[] && lastActivity == map[] && stopFlags == map[]
    {
      logQueues := map[];
      lastActivity := map[];
      stopFlags := map[];
    }

    function QueueOf(appId: string): seq<QueuedLog>
      reads this
    {
      if appId in logQueues then logQueues[appId] else []
    }

    /** The enqueue part of `process_log`: the queue is created if missing,
        each line is offered in order with the activity time refreshed, and
        once the queue is full further lines are dropped. */
    method Enqueue(appId: string, appName: string, lines: seq<string>, now: int)
      requires Valid()
      modifies this
      ensures Valid()
      ensures logQueues == old(logQueues)[appId := Offer(old(QueueOf(appId)), Records(appId, appName, lines))]
      ensures lastActivity == if lines == [] then old(lastActivity) else old(lastActivity)[appId := now]
      ensures stopFlags == old(stopFlags)
    {
      var q := QueueOf(appId);
      var activity := lastActivity;
      var items := Records(appId, appName, lines);
      for k := 0 to |lines|
        invariant q == Offer(old(QueueOf(appId)), items[..k])
        invariant |q| <= MAX_QUEUE_SIZE
        invariant activity == if k == 0 then old(lastActivity) else old(lastActivity)[appId := now]
      {
        assert items[..k + 1][..k] == items[..k] && items[..k + 1][k] == items[k];
        activity := activity[appId := now];
        if |q| < MAX_QUEUE_SIZE {
          q := q + [QueuedLog(appId, appName, lines[k])];
        }
      }
      assert items[..|lines|] == items;
      logQueues := logQueues[appId := q];
      lastActivity := activity;
    }

    /** `process_log` without the directory set-up and file writes. `fetched`
        is what fetching `log_url` returned, split into lines (None when the
        request raised, which propagates out of the endpoint);
        `knownOrder` and `draws` are the inputs of the summary pass. */
    method ProcessLog(req: ProcessRequest, fetched: Option<seq<string>>, now: int,
                      knownOrder: seq<string>, draws: nat -> SLP.Draws)
      returns (r: ProcessLogResponse)
      requires Valid()
      requires LinesOf(req, fetched).Some? ==>
        forall x :: x in knownOrder <==> x in SLP.KnownServices(SLP.NonBlankLines(LinesOf(req, fetched).value))
      modifies this
      ensures Valid()
      ensures SourceOf(req).NoSource? ==> r == Refused("Either log_url or log_lines must be provided")
      ensures SourceOf(req).FromUrl? && fetched.None? ==> r == Raised
      ensures LinesOf(req, fetched).None? ==>
        logQueues == old(logQueues) && lastActivity == old(lastActivity)
      ensures LinesOf(req, fetched).Some? ==>
        var lines := LinesOf(req, fetched).value;
        var es := SLP.Entries(SLP.NonBlankLines(lines), knownOrder, draws);
        && logQueues == old(logQueues)[req.appId := Offer(old(QueueOf(req.appId)), Records(req.appId, req.appName, lines))]
        && lastActivity == (if lines == [] then old(lastActivity) else old(lastActivity)[req.appId := now])
        && r.Success? && r.appId == req.appId && r.appName == req.appName
        && r.dashboard.processed == es && r.dashboard.services == SLP.GroupKeys(es)
        && r.dashboard.totalServices == |r.dashboard.services|
        && (forall s :: s in r.dashboard.summaries <==> s in r.dashboard.services)
        && (forall s :: s in r.dashboard.summaries ==> r.dashboard.summaries[s] == SLP.Summarize(SLP.GroupOf(es, s)))
        && r.dashboard.errorsPer10 == SLP.CountErrorsPerN(es, 10)
        && r.dashboard.avgErrorsPer10 == SLP.AvgErrorsPerFullBatches(r.dashboard.errorsPer10, |es|, 10)
      ensures stopFlags == old(stopFlags)
    {
      var src := SourceOf(req);
      if src.NoSource? {
        return Refused("Either log_url or log_lines must be provided");
      }
      if src.FromUrl? && fetched.None? {
        return Raised;
      }
      var lines := LinesOf(req, fetched).value;
      Enqueue(req.appId, req.appName, lines, now);
      var dashboard := SLP.ProcessAndSummarize(lines, knownOrder, draws);
      r := Success(req.appId, req.appName, dashboard);
    }

    /** `start_continuous_processing`, with the new thread's first step
        (installing its flag) taken at once. */
    method StartContinuous(req: ProcessRequest) returns (r: StartResponse)
      modifies this
      ensures r == StartDecision(req.logUrl, req.appId, old(stopFlags))
      ensures stopFlags == FlagsAfterStart(req.logUrl, req.appId, old(stopFlags))
      ensures logQueues == old(logQueues) && lastActivity == old(lastActivity)
    {
      if !GivenUrl(req.logUrl) {
        return StartError("log_url required for continuous processing");
      }
      if req.appId in stopFlags && !stopFlags[req.appId] {
        return AlreadyRunning;
      }
      stopFlags := stopFlags[req.appId := false];
      r := Started(req.appId);
    }

    /** `stop_continuous_processing`. */
    method StopContinuous(appId: string) returns (r: StopResponse)
      modifies this
      ensures r == StopDecision(appId, old(stopFlags))
      ensures stopFlags == FlagsAfterStop(appId, old(stopFlags))
      ensures logQueues == old(logQueues) && lastActivity == old(lastActivity)
    {
      if appId !in stopFlags {
        return NotRunning;
      }
      stopFlags := stopFlags[appId := true];
      r := Stopping(appId);
    }

    /** `cleanup_inactive_queues`: every id idle for longer than `timeout`
        leaves both dictionaries; a queue with no recorded activity is never
        removed; nothing else changes. */
    method CleanupInactiveQueues(now: int, timeout: int)
      requires Valid()
      modifies this
      ensures Valid()
      ensures logQueues == old(logQueues) - Stale(old(lastActivity), now, timeout)
      ensures lastActivity == old(lastActivity) - Stale(old(lastActivity), now, timeout)
      ensures forall id :: id in old(logQueues) && id !in old(lastActivity) ==>
        id in logQueues && logQueues[id] == old(logQueues)[id]
      ensures stopFlags == old(stopFlags)
    {
      var queues0 := logQueues;
      var activity0 := lastActivity;
      var stale := Stale(activity0, now, timeout);
      var queues := queues0;
      var activity := activity0;
      var pending := activity0.Keys;
      while pending != {}
        invariant pending <= activity0.Keys
        invariant queues == queues0 - (stale - pending)
        invariant activity == activity0 - (stale - pending)
        modifies {}
        decreases pending
      {
        var id :| id in pending;
        if now - activity0[id] > timeout {
          queues := Drop(queues, id);
          activity := Drop(activity, id);
        }
        SweepStep(queues0, activity0, stale, pending, id, queues, activity);
        pending := pending - {id};
      }
      assert stale - {} == stale;
      logQueues := queues;
      lastActivity := activity;
    }
  }

  /** `pop(app_id, None)` on each dictionary. */
  function Drop<V>(m: map<string, V>, id: string): (r: map<string, V>)
    ensures r == m - {id}
  {
    if id in m then m - {id} else m
  }

  lemma SweepStep(q0: map<string, seq<QueuedLog>>, a0: map<string, int>, stale: set<string>,
                  pending: set<string>, id: string,
                  queues: map<string, seq<QueuedLog>>, activity: map<string, int>)
    requires id in pending
    requires id in stale ==> queues == q0 - (stale - pending) - {id} && activity == a0 - (stale - pending) - {id}
    requires id !in stale ==> queues == q0 - (stale - pending) && activity == a0 - (stale - pending)
    ensures queues == q0 - (stale - (pending - {id}))
    ensures activity == a0 - (stale - (pending - {id}))
  {
    if id in stale {
      assert stale - (pending - {id}) == (stale - pending) + {id};
    } else {
      assert stale - (pending - {id}) == stale - pending;
    }
  }

  datatype ProcessLogResponse =
    | Success(appId: string, appName: string, dashboard: SLP.Dashboard)
    | Refused(error: string)
    | Raised
}
