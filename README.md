# logViewer, modelled in Dafny

This project models the deterministic bookkeeping of the logViewer
log-monitoring pipeline and its demo applications, and proves what that
bookkeeping promises. The modelled parts are:

- **Log processor service.** Per-service FIFO queues are filled by
  `add_log_batch` and drained up to 1000 entries at a time. Each batch
  updates a per-service health record, and each processing cycle updates
  the statistics. There is also a service registry.
- **Rule-based classifiers.**
  - The anomaly filter and compact error summary of the preprocessor.
  - `LogParser` with its ordered keyword tables and its timestamp handling.
  - The `extract_*` helpers, per-ten error buckets and the per-service
    dashboard of the smart log processor.
- **Grouping.** `group_logs`: grouping by service, compaction by error key,
  and the per-service summaries.
- **WebSocket registry.** `ConnectionManager` and `WebSocketManager`.
  Sockets are opaque numbers. Each send outcome is an input, and a failed
  send removes its connection.
- **HTTP routes.**
  - Batch and name validation, single-entry streaming, the export format
    check, and the newline framing of the continuous stream (`routes/logs.py`).
  - System status aggregation, the status filter and the hours range
    (`routes/health.py`).
- **Gateway application** (`backend/app/main.py`): the bounded per-app
  queue that drops lines when full, the start/stop flags, and the inactivity
  clean-up.
- **Python SDK.**
  - The batching log handler, with the clock as an input.
  - Backend URL and DSN resolution.
  - The local config loader, with the file system as an input.
- **Demo application.**
  - The shared `Config` singleton with its validated setter and callbacks.
  - The five simulated services: their ratio setter and their good/bad
    iteration rule.

Classes model the objects that the source updates in place: the log
processor service, the WebSocket managers, the gateway's server state, the
SDK handler and config, the demo `Config`, and a simulator. Their methods
are proved against specification functions. Pure Python functions are
Dafny functions with lemmas about them.

Facts from the world outside the model are parameters:

- the clock (`now`);
- random choices (`draws`, `pick`);
- results of network fetches (`fetched`);
- JSON decoding of a stream line (`parse`);
- the outcome of each WebSocket send (`delivered`);
- the AI and fallback classifiers (`Classifiers`);
- the environment variables (`env`, `envDsn`);
- the config files (`files`).

Where the source's docstrings and validators and its code differ, the model follows the code:

- **Empty batch in `stream_logs`.** The `LogBatch` validator
  (`backend/app/models/schemas.py:52-56`) already refuses an empty batch
  before the handler runs. The handler's own "Empty log batch" branch is
  still modelled, as coded.
- **Demo services with the above-ratio rule.** The inventory, notification
  and payment services are good only when `log_count % 10 > ratio`, so they
  produce `ratio + 1` bad iterations in ten (at most ten). Their docstrings
  say "bad logs per 10". `Simulators.BadPerTen` proves the count the code
  gives.
- **Single-service health lookup.** The processor answers any non-empty
  name with a one-entry dictionary, even for an unknown service, so the 404
  of `get_service_health` in `routes/health.py` could fire only for an
  empty name. `HealthRoutes.ServiceLookupNotFound` states this. An empty
  path segment does not reach the handler, so that 404 never fires. The
  `{name: record}` dictionary the handler then returns does not fit its
  `response_model=ServiceHealth`, and FastAPI refuses it with a 500.
- **Health query.** For the same reason, `query_health_data` wraps a
  one-entry dictionary in its list for a named service. Without a name it
  calls `get_all_services_health`, which the processor does not define.
  Either way the handler answers 500 (see "Findings"). `get_system_health`
  calls the same missing method.

## Model

`myApp/functions/config.py` and `examples/myApp/functions/config.py` are the
same code, and the `DemoConfig` rows cite the first. The five services under
`myApp/services/` share their constructor and `set_bad_ratio`, and the
`Simulators` rows cite `api_service.py`. The other rules are at
`auth_service.py:60` (below the ratio), `inventory_service.py:51`,
`notification_service.py:43` and `payment_service.py:45` (above the ratio).

| member | source | states |
|---|---|---|
| LogProcessor.ProcessSingleLogSpec | backend/app/services/log_processor.py:169-240 | the anomaly flag equals `is_anomalous(message)`; a normal entry gets Unknown/Unknown/LOW with confidence 0.9; the AI classification gets 0.8 and the fallback 0.6; only a raising fallback yields no result |
| LogProcessor.CountTally | backend/app/services/log_processor.py:154-167 | anomalies ≤ processed ≤ batch length |
| LogProcessor.CountTallyTotal | backend/app/services/log_processor.py:154-160 | with a fallback that never raises, every popped entry is counted as processed |
| LogProcessor.TallyBatch | backend/app/services/log_processor.py:154-167 | the loop's counts equal `CountTally` of the batch |
| LogProcessor.DrainsConcatenate | backend/app/services/log_processor.py:146-148 | successive drains of an unrefilled queue hand out batches of 1 to 1000 entries whose concatenation is the queue |
| LogProcessor.CountsWithinBatch | backend/app/services/log_processor.py:247-249 | errors + warnings ≤ batch length |
| LogProcessor.BatchStatusMonotone | backend/app/services/log_processor.py:253-259 | the status never improves with more errors or warnings, and is never "unknown" |
| LogProcessor.BatchStatusThresholds | backend/app/services/log_processor.py:247-259 | with n = max(len, 1): CRITICAL iff 10e > n; otherwise WARNING iff 20e > n or w > 0; otherwise HEALTHY |
| LogProcessor.UpdatedHealth | backend/app/services/log_processor.py:262-286 | a first batch creates totals equal to its counts, breakdown {High: e, Medium: w, Low: n−e−w}, no common errors and uptime 95; a later batch adds to the totals, overwrites rate, status and last seen, and keeps breakdown, common errors and uptime |
| LogProcessor.UpdatedHealthValid | backend/app/services/log_processor.py:262-286 | recording a batch keeps a health record's invariant (counts within totals) or creates a record that satisfies it |
| LogProcessor.HealthRecordsUpdate | backend/app/services/log_processor.py:262-271 | storing a valid record under its own name keeps every record valid and under its own name |
| LogProcessor.SumOverBounded | backend/app/services/log_processor.py:110-113 | the summed anomaly count never exceeds the summed processed count |
| LogProcessor.LogProcessorService.constructor | backend/app/services/log_processor.py:36-55 | the service starts idle, with no queues, records or registrations and zero statistics |
| LogProcessor.LogProcessorService.StartContinuousProcessing | backend/app/services/log_processor.py:57-72 | the processing flag is set; the agent is present exactly when AI is enabled and it loads; nothing else changes |
| LogProcessor.LogProcessorService.StopProcessing | backend/app/services/log_processor.py:74-77 | the processing flag is cleared and nothing else changes |
| LogProcessor.LogProcessorService.UpdateServiceHealth | backend/app/services/log_processor.py:242-286 | the record of `name` becomes `UpdatedHealth` of the old record and the batch; nothing else changes |
| LogProcessor.LogProcessorService.AddLogBatch | backend/app/services/log_processor.py:83-96 | an empty batch changes nothing; otherwise the service is registered, the entries are appended in order to the tail of its queue, its health is updated, and other queues are unchanged |
| LogProcessor.LogProcessorService.AppendEntries | backend/app/services/log_processor.py:92-93 | the queue of `name` becomes old queue + entries; nothing else changes |
| LogProcessor.LogProcessorService.TakeBatch | backend/app/services/log_processor.py:141-148 | pops exactly the first min(1000, length) entries; the suffix remains |
| LogProcessor.LogProcessorService.ProcessServiceLogs | backend/app/services/log_processor.py:136-167 | a missing queue yields (0, 0) and no change; otherwise one drain is taken with anomalies ≤ processed |
| LogProcessor.LogProcessorService.DrainRegistered | backend/app/services/log_processor.py:110-113 | every registered queue is drained once; the counts are the sums over registered services |
| LogProcessor.LogProcessorService.ProcessingCycle | backend/app/services/log_processor.py:100-125 | total processed and total anomalies grow by the summed counts; active services = number registered; queue size = sum of the remaining queue lengths |
| LogProcessor.LogProcessorService.GetServiceHealth | backend/app/services/log_processor.py:288-292 | a non-empty name gives a one-key map holding its record or None; otherwise a copy of all records |
| LogProcessor.LogProcessorService.GetRegisteredServices | backend/app/services/log_processor.py:298-300 | every registered service exactly once |
| LogProcessor.LogProcessorService.RegisterService | backend/app/services/log_processor.py:302-305 | adds the name to the registry (idempotent); nothing else changes |
| LogProcessor.LogProcessorService.UnregisterService | backend/app/services/log_processor.py:307-313 | removes the name from the registry, the queues and the health records; nothing else changes |
| Preprocessor.KeywordScan | backend/app/models/logsPreprocessor.py:14-17 | true exactly when one of the keywords from index k on occurs in the lowered line |
| Preprocessor.IsAnomalousSpec | backend/app/models/logsPreprocessor.py:10-17 | false whenever INFO, DEBUG or TRACE occurs as a whole word in any case; otherwise true iff one of the 12 keywords occurs in the lowered line |
| Preprocessor.IsAnomalousCaseInvariant | backend/app/models/logsPreprocessor.py:11-15 | two lines equal up to ASCII case get the same verdict |
| Preprocessor.IsAnomalousOfLower | backend/app/models/logsPreprocessor.py:11-15 | the verdict on a line equals the verdict on its lowered form |
| Preprocessor.TagFromSpec | backend/app/models/logsPreprocessor.py:21 | the scan finds the leftmost `[` at which the summary pattern matches, and its closing `]` |
| Preprocessor.TagSearch | backend/app/models/logsPreprocessor.py:21 | the summary search result is the leftmost match as `re.search` defines it, or none |
| Preprocessor.TagImpliesIssue | backend/app/models/logsPreprocessor.py:21-25 | whenever the summary pattern matches, the issue pattern matches too |
| Preprocessor.ExtractFallback | backend/app/models/logsPreprocessor.py:27 | without a tag match the summary is "Anomaly detected: " + the line with tabs replaced and stripped, which contains no tab |
| Preprocessor.ExtractTagged | backend/app/models/logsPreprocessor.py:21-26 | with a tag match the summary is the stripped issue text + " in " + the first bracket's content |
| Preprocessor.NumberedValues | backend/app/models/logsPreprocessor.py:44 | key str(i) holds the i-th distinct summary, for i from 1 |
| Preprocessor.NumberedKeys | backend/app/models/logsPreprocessor.py:44-45 | the keys are exactly "1".."k" |
| Preprocessor.ProcessLogs | backend/app/models/logsPreprocessor.py:34-46 | the result maps "1".."k" to the distinct summaries of the anomalous lines in first-occurrence order; k is the final count − 1 |
| Preprocessor.SummariesFromAnomalies | backend/app/models/logsPreprocessor.py:40-41 | every stored summary is the summary of some anomalous input line |
| KeywordTables.FirstFiring | backend/app/ex_classifier.py:61-65 | the index is the first firing row at or after k, or the table length when none fires |
| KeywordTables.FirstMatchStep | backend/app/ex_classifier.py:67-83 | a firing row decides the answer; a row that does not fire passes to the next |
| ExClassifier.ClassifyServiceOrder | backend/app/ex_classifier.py:52-65 | the first service in dictionary order with a keyword in the lowered line, or None |
| ExClassifier.GatewayNeverPayment | backend/app/ex_classifier.py:54-56 | a line containing "gateway" is classified as Auth or API gateway, never Payment |
| ExClassifier.ClassifyErrorTypeOrder | backend/app/ex_classifier.py:67-83 | first match in order timeout, exception/traceback, connection refused/network, oom/memory, db/sql, unauthorized/forbidden, deployment/rollout; else Unknown |
| ExClassifier.ClassifyErrorSubtypeOrder | backend/app/ex_classifier.py:85-111 | the subtype rules in source order, nullpointer first and traceback last; else Unknown |
| ExClassifier.DetermineSeverityOrder | backend/app/ex_classifier.py:113-123 | critical/panic → High, then warn → Medium, then info → Low, then error → High, otherwise Medium |
| ExClassifier.ClassifiersIgnoreCase | backend/app/ex_classifier.py:61-123 | every classifier gives the same answer on a line and on its lowered form |
| ExClassifier.ParseLineOutcomes | backend/app/ex_classifier.py:125-138 | None exactly for blank lines, lines containing "info" in any case, or lines with no known service; `strptime` raises exactly when a searched timestamp is refused |
| ExClassifier.ParseLineRaisesOnIsoStamp | backend/app/ex_classifier.py:130-134 | a timestamp match with a 'T' separator or a ",millis" tail makes `parse_line` raise |
| ExClassifier.ParsedRecordFields | backend/app/ex_classifier.py:140-147 | a record holds the stripped line as raw, the line's classifications, a severity that is never Low, and the timestamp in ISO form |
| Timestamps.FindStamp | backend/app/ex_classifier.py:130 | the leftmost position where the timestamp pattern matches |
| Timestamps.SearchStampShape | backend/app/ex_classifier.py:130 | a searched timestamp is 19 fixed characters, optionally followed by ',' and digits |
| Timestamps.IsoRoundTrip | backend/app/ex_classifier.py:132-141 | formatting a parsed 19-character timestamp gives the same text with 'T' between date and time |
| Timestamps.StrptimeRefuses | backend/app/ex_classifier.py:132 | `strptime` refuses a text with a 'T' separator or a fraction tail |
| SmartLogProcessor.BracketGroups | sentry/backend/app/models/smart_log_processor.py:23-27 | no group contains `]` or a newline |
| SmartLogProcessor.BracketGroupsSpec | sentry/backend/app/models/smart_log_processor.py:23-27 | group k is the text between the `[` at start k and the `]` right after the group, on one line; the matches run left to right without overlapping |
| SmartLogProcessor.BracketGroupsComplete | sentry/backend/app/models/smart_log_processor.py:23-27 | every `[` that has a `]` later on its line starts a match or lies inside one, so no match is skipped |
| SmartLogProcessor.ExtractServiceSpec | sentry/backend/app/models/smart_log_processor.py:23-34 | the second bracket group whenever there are two; otherwise a drawn known service, or a drawn default service |
| SmartLogProcessor.ExtractSeveritySpec | sentry/backend/app/models/smart_log_processor.py:36-42 | high keywords are checked before low ones; the answer is only ever High or Low |
| SmartLogProcessor.ExtractErrorTypeSpec | sentry/backend/app/models/smart_log_processor.py:44-53 | the first matching type in table order, else a drawn real type; never "Unknown" |
| SmartLogProcessor.UppercaseKeywordNeverMatches | sentry/backend/app/models/smart_log_processor.py:44-50 | the keyword "SQLException" is compared with a lowered line and can never match on its own |
| SmartLogProcessor.NonBlankLines | sentry/backend/app/models/smart_log_processor.py:75 | the stripped non-blank lines, in order |
| SmartLogProcessor.EntriesNumbered | sentry/backend/app/models/smart_log_processor.py:78-95 | entry k holds line k with line number k+1 and its timestamp |
| SmartLogProcessor.GroupOfSpec | sentry/backend/app/models/smart_log_processor.py:97 | a group holds exactly the entries of its service, as many as the service occurs |
| SmartLogProcessor.GroupOfConcat | sentry/backend/app/models/smart_log_processor.py:97 | grouping keeps input order: the group of a concatenation is the concatenation of the groups |
| SmartLogProcessor.GroupsPartition | sentry/backend/app/models/smart_log_processor.py:96-97 | every entry lies in exactly one group, whose key is listed once; group sizes add up to the entry count |
| SmartLogProcessor.SeverityCountsTotal | sentry/backend/app/models/smart_log_processor.py:117-121 | the High, Medium and Low counts add up to the number of entries |
| SmartLogProcessor.SummaryHealth | sentry/backend/app/models/smart_log_processor.py:119-127 | healthy iff there are no entries, warning iff 1 to 5, otherwise unhealthy |
| SmartLogProcessor.SummaryDistribution | sentry/backend/app/models/smart_log_processor.py:117-129 | the distribution counts each severity that occurs, and only those |
| SmartLogProcessor.SummaryRecent | sentry/backend/app/models/smart_log_processor.py:131 | the last min(5, k) entries |
| SmartLogProcessor.SummaryMostCommon | sentry/backend/app/models/smart_log_processor.py:118-130 | a type with the largest count, the first seen among equals |
| SmartLogProcessor.SummaryTimestamps | sentry/backend/app/models/smart_log_processor.py:132-138 | first ≤ latest, both known timestamps; both "UNKNOWN" iff no entry has one |
| SmartLogProcessor.EntriesNeverMedium | sentry/backend/app/models/smart_log_processor.py:80-85 | no entry has severity Medium |
| SmartLogProcessor.NoServiceHealthy | sentry/backend/app/models/smart_log_processor.py:119-128 | no listed service is ever healthy |
| SmartLogProcessor.BatchesFlatten | sentry/backend/app/models/smart_log_processor.py:58 | the batches put back together are the entries |
| SmartLogProcessor.ChunkTotals | sentry/backend/app/models/smart_log_processor.py:55-59 | each bucket count is at most its batch size, and the counts sum to the number of High/Medium entries |
| SmartLogProcessor.ChunkCount | sentry/backend/app/models/smart_log_processor.py:58 | the number of buckets is ceil(len / n) |
| SmartLogProcessor.AvgErrorsSpec | sentry/backend/app/models/smart_log_processor.py:61-65 | 0 when fewer than n entries; otherwise the sum of the first len // n buckets over len // n, at most n |
| SmartLogProcessor.GroupEntries | sentry/backend/app/models/smart_log_processor.py:75-98 | the groups and their key order are those of the numbered entries |
| SmartLogProcessor.SummarizeGroups | sentry/backend/app/models/smart_log_processor.py:116-139 | one summary per group key, computed from that group |
| SmartLogProcessor.ProcessAndSummarize | sentry/backend/app/models/smart_log_processor.py:67-147 | the dashboard lists the group keys, their count, the bucket counts, the average and each service's summary |
| LogGrouping.GroupOfSpec | sentry/backend/app/models/groupLogs.py:14-16 | a group holds exactly the logs of its service, as many as the service occurs |
| LogGrouping.GroupOfConcat | sentry/backend/app/models/groupLogs.py:14-16 | grouping keeps input order: the group of a concatenation is the concatenation of the groups |
| LogGrouping.GroupKeyIffNonEmpty | sentry/backend/app/models/groupLogs.py:15-16 | a service is a key exactly when its group is not empty |
| LogGrouping.GroupsPartition | sentry/backend/app/models/groupLogs.py:14-21 | every log is in exactly one group; the group sizes add up to the number of logs |
| LogGrouping.GroupByService | sentry/backend/app/models/groupLogs.py:14-16 | the loop builds the groups with keys in first-occurrence order |
| LogGrouping.StampsOfCount | sentry/backend/app/models/groupLogs.py:49-50 | each compacted key keeps one timestamp per occurrence |
| LogGrouping.CompactGroup | sentry/backend/app/models/groupLogs.py:37-52 | the compaction loop returns `Compaction` of the group |
| LogGrouping.CompactionCounts | sentry/backend/app/models/groupLogs.py:40-52 | each entry's count equals its number of timestamps and of occurrences; the counts sum to the group size |
| LogGrouping.CompactionKeys | sentry/backend/app/models/groupLogs.py:37-52 | the compacted keys are distinct and cover every log of the group |
| LogGrouping.CompactionOrder | sentry/backend/app/models/groupLogs.py:37-52 | the compacted keys come in first-occurrence order |
| LogGrouping.SummarySeverities | sentry/backend/app/models/groupLogs.py:21-22 | one count per severity that occurs; the counts sum to total_errors |
| LogGrouping.SummaryMostCommon | sentry/backend/app/models/groupLogs.py:23-26 | the type with the largest count, ties to the first seen |
| LogGrouping.SummaryTimestamps | sentry/backend/app/models/groupLogs.py:29-34 | first ≤ latest; both are timestamps of the group, the least and the greatest |
| LogGrouping.SummarizeServices | sentry/backend/app/models/groupLogs.py:19-60 | one compacted list and one summary per service key |
| LogGrouping.GroupLogs | sentry/backend/app/models/groupLogs.py:5-66 | the grouped and summary maps of every service, without file I/O |
| Counting.DedupSpec | sentry/backend/app/models/groupLogs.py:15-16 | each value once, none lost, in first-occurrence order |
| Counting.CountsSumToLength | sentry/backend/app/models/groupLogs.py:22 | counting every distinct value counts each element once |
| Counting.MostCommon | sentry/backend/app/models/groupLogs.py:26 | a value with the largest count, the first seen among equals |
| Strings.StripShape | backend/app/ex_classifier.py:126 | strip removes whitespace from both ends only, leaving no whitespace at either end |
| Strings.ContainsSurvivesStrip | backend/app/models/logsPreprocessor.py:24-26 | stripping keeps every occurrence of a word that has no whitespace |
| Strings.RStripChar | sdk/python/sentry_logger/config.py:22 | the result is a prefix with no trailing copy of the character, and only such characters were removed |
| Strings.DecimalInjective | backend/app/models/logsPreprocessor.py:44 | different counters never render to the same string |
| Strings.MinLeMax | sentry/backend/app/models/smart_log_processor.py:134-135 | the least string ≤ the greatest |
| WebSockets.RemoveFirstSpec | backend/app/services/websocket_manager.py:34-37 | a present socket loses one occurrence; an absent one leaves the list unchanged |
| WebSockets.BroadcastRemovesFailed | backend/app/services/websocket_manager.py:48-64 | after a broadcast the remaining multiset is exactly the connections whose send succeeded |
| WebSockets.BroadcastKeepsOrder | backend/app/services/websocket_manager.py:54-64 | with no connection listed twice, the survivors remain in their original relative order |
| WebSockets.SendAll | backend/app/services/websocket_manager.py:54-60 | one attempt per connection; the failed ones are collected in order |
| WebSockets.ConnectionManager.Connect | backend/app/services/websocket_manager.py:28-31 | the socket is appended |
| WebSockets.ConnectionManager.Disconnect | backend/app/services/websocket_manager.py:34-37 | one occurrence is removed, or nothing when the socket is absent |
| WebSockets.ConnectionManager.SendPersonalMessage | backend/app/services/websocket_manager.py:40-46 | a failed send disconnects the socket |
| WebSockets.ConnectionManager.Broadcast | backend/app/services/websocket_manager.py:48-64 | every connection is attempted in order, then the failed ones are removed; an empty list sends nothing |
| WebSockets.AllSocketsCount | backend/app/services/websocket_manager.py:100-112 | `cleanup` closes as many sockets as there are connections |
| WebSockets.WebSocketManager.Initialize | backend/app/services/websocket_manager.py:83-89 | the manager is marked initialized and nothing else changes |
| WebSockets.WebSocketManager.Cleanup | backend/app/services/websocket_manager.py:91-112 | every service and global connection is closed once, service lists first; the lists are kept; the manager is no longer initialized |
| WebSockets.WebSocketManager.Connect | backend/app/services/websocket_manager.py:114-126 | "global" appends to the global list; another name creates the manager if absent and appends; the total grows by one |
| WebSockets.WebSocketManager.Disconnect | backend/app/services/websocket_manager.py:128-140 | one occurrence is removed; a manager left with no connections is deleted; the total drops by one exactly when the socket was listed |
| WebSockets.WebSocketManager.SendToService | backend/app/services/websocket_manager.py:142-146 | an unknown service sends nothing and changes nothing; a known one is broadcast to |
| WebSockets.WebSocketManager.BroadcastGlobal | backend/app/services/websocket_manager.py:148-166 | every global connection is attempted in order and the failed ones are removed; the service lists are unchanged |
| WebSockets.WebSocketManager.BroadcastHealthUpdate | backend/app/services/websocket_manager.py:168-181 | the event goes to the service's connections, then to all global ones |
| WebSockets.WebSocketManager.BroadcastStatsUpdate | backend/app/services/websocket_manager.py:183-191 | the event goes to global connections only |
| WebSockets.WebSocketManager.BroadcastAnomalyAlert | backend/app/services/websocket_manager.py:193-206 | the event goes to the service's connections, then to all global ones |
| WebSockets.WebSocketManager.HandleMessage | backend/app/services/websocket_manager.py:208-234 | a ping is answered with a pong to the service; any other message sends nothing |
| WebSockets.WebSocketManager.HeartbeatStep | backend/app/services/websocket_manager.py:236-247 | while initialized, the heartbeat carries the number of service managers and the total connections and goes to global connections |
| WebSockets.WebSocketManager.ServiceConnections | backend/app/services/websocket_manager.py:268-272 | the service's connection count, 0 for an unknown service |
| WebSockets.WebSocketManager.GetConnectionStats | backend/app/services/websocket_manager.py:274-286 | the three totals plus one "service_<name>" count per manager |
| WebSockets.ConnectionStatsSpec | backend/app/services/websocket_manager.py:274-286 | the stats hold the three totals and each service's count under distinct keys |
| HealthRoutes.OverallStatusSpec | backend/app/api/routes/health.py:36-43 | critical iff some service is critical; otherwise warning iff some is warning; otherwise healthy |
| HealthRoutes.SystemHealthCounts | backend/app/api/routes/health.py:45-52 | total = list length; each count is that status's count; healthy + warning + critical ≤ total |
| HealthRoutes.ServiceHealthRoute | backend/app/api/routes/health.py:66-74 | 404 exactly when the lookup result is empty; otherwise the lookup result |
| HealthRoutes.ServiceLookupNotFound | backend/app/api/routes/health.py:66-72 | with the processor's answer, any non-empty name is found; only the empty name, which no request path delivers, could give 404, and only when there are no records |
| HealthRoutes.FilterStatusMembers | backend/app/api/routes/health.py:109-113 | the filter keeps exactly the records whose status is listed |
| HealthRoutes.FilterStatusAppend | backend/app/api/routes/health.py:110-113 | the filter distributes over concatenation, so it preserves order |
| HealthRoutes.FilterStatusIdempotent | backend/app/api/routes/health.py:110-113 | filtering twice is filtering once |
| HealthRoutes.QueryHealthDataSpec | backend/app/api/routes/health.py:102-117 | corrected: the named record or every record, filtered by the status strings only when a filter is given; total_count is the length |
| HealthRoutes.QueryHealthDataFails | backend/app/api/routes/health.py:92-131 | as written: a named service always yields a one-entry dictionary, and every query answers 500 |
| HealthRoutes.HoursWindowSpec | backend/app/api/routes/health.py:214-224 | exactly the hours 1 to 168 are accepted, otherwise 400; an accepted window ends now and spans the hours |
| LogRoutes.StreamResponseSpec | backend/app/api/routes/logs.py:45-77 | accepted iff the name has 1 to 100 characters and the batch 1 to 1000 entries; rejections are 400 in the order name, empty, too large; an acceptance reports the batch size |
| LogRoutes.StreamLogs | backend/app/api/routes/logs.py:33-83 | a rejection leaves the processor alone; an acceptance registers the service, appends the batch to its queue, adds its key to the buffer once, folds the batch into its health record, and leaves the stats alone |
| LogRoutes.SingleLogMasksBadName | backend/app/api/routes/logs.py:85-104 | for a name of more than 100 characters the batch endpoint answers 400 while the single-entry endpoint, as written, answers 500 |
| LogRoutes.SingleLogResponseSpec | backend/app/api/routes/logs.py:85-104 | corrected: a single entry is refused only for its name, with the batch endpoint's 400, and otherwise accepted with one log |
| LogRoutes.StreamSingleLog | backend/app/api/routes/logs.py:85-104 | the corrected answer; a refused entry changes nothing; an accepted one is appended to its service's queue and folded into its health record, with the buffer key added once |
| LogRoutes.ExportLogsSpec | backend/app/api/routes/logs.py:224-234 | exactly json, csv and txt are accepted, each with its own message; anything else is 400 |
| LogRoutes.FindNewline | backend/app/api/routes/logs.py:266-267 | the first newline's index, or the length when there is none |
| LogRoutes.LinesSpec | backend/app/api/routes/logs.py:266-267 | a text is its complete lines, each closed by a newline, followed by a rest without a newline |
| LogRoutes.IngestSticky | backend/app/api/routes/logs.py:270-279 | once a line has raised, later lines change nothing |
| LogRoutes.IngestAborted | backend/app/api/routes/logs.py:258-294 | the stream is cut short exactly when some non-blank line raises an error other than a decode or value error |
| LogRoutes.IngestCount | backend/app/api/routes/logs.py:270-279 | a stream that is not cut short adds one entry per line that parses; a bad line is skipped |
| LogRoutes.ProcessStream | backend/app/api/routes/logs.py:258-281 | every newline-terminated line is handled once, in order, after strip, blanks skipped; the text after the last newline stays unprocessed |
| LogRoutes.StreamContinuously | backend/app/api/routes/logs.py:255-294 | the service is registered; parsed entries are appended one at a time in order, each folded into the health record on its own; the stats stay; the answer is 500 exactly when a line raised, otherwise the count |
| LogRoutes.PerEntryHealth | backend/app/api/routes/logs.py:270-276 | entry-by-entry health: totals add up over all entries, but the error rate and status come from the last entry alone; other services keep their records |
| LogRoutes.AddEach | backend/app/api/routes/logs.py:275 | the queue of the service grows by the entries, in order; the buffer key is added once; the health record is the per-entry fold; the stats stay |
| Gateway.SourceOfSpec | backend/app/main.py:71-78 | a non-empty URL wins; inline lines count only without one; neither gives the error |
| Gateway.OfferSpec | backend/app/main.py:81-88 | offering items keeps the first ones that fit in order, drops the rest, and never exceeds 1000 |
| Gateway.Records | backend/app/main.py:86 | one record per line, in order, with the app's id and name |
| Gateway.StartStopSpec | backend/app/main.py:144-169 | start without a URL errors; with a running flag it answers already running; stop without a flag answers not running, else sets the flag |
| Gateway.Server.Enqueue | backend/app/main.py:81-88 | the queue is created if missing and becomes `Offer` of the records; the activity time is set when a line arrives |
| Gateway.Server.ProcessLog | backend/app/main.py:59-102 | the error without a source; otherwise the lines are enqueued and the dashboard of `process_and_summarize_stream` is returned: per service the summary of its group, the service count, and the per-ten error buckets with their average |
| Gateway.Server.StartContinuous | backend/app/main.py:144-160 | the answer and the flags of `StartDecision` and `FlagsAfterStart` |
| Gateway.Server.StopContinuous | backend/app/main.py:164-169 | the answer and the flags of `StopDecision` and `FlagsAfterStop` |
| Gateway.Server.CleanupInactiveQueues | backend/app/main.py:214-219 | exactly the ids idle for longer than the timeout leave both maps; ids with no recorded activity are kept |
| SdkHandler.FlushStepSpec | sdk/python/sentry_logger/handler.py:46-52 | an empty flush changes nothing; otherwise exactly the buffer is handed off, the buffer emptied and the time reset; no message lost or repeated |
| SdkHandler.EmitStepSpec | sdk/python/sentry_logger/handler.py:32-42 | the message joins after all earlier ones; with batch size ≥ 1 the buffer stays shorter than the batch size; no empty batch is handed off |
| SdkHandler.EmitAllSpec | sdk/python/sentry_logger/handler.py:36-52 | over any run of emits, every message is in exactly one handed-off batch or in the buffer, in order |
| SdkHandler.SentryLogHandler.FlushLocked | sdk/python/sentry_logger/handler.py:46-52 | the state becomes `FlushStep` of the old state |
| SdkHandler.SentryLogHandler.Emit | sdk/python/sentry_logger/handler.py:32-42 | the state becomes `EmitStep` of the old state; the buffer bound is kept |
| SdkHandler.SentryLogHandler.Flush | sdk/python/sentry_logger/handler.py:71-73 | the buffer is always left empty |
| SdkConfig.BackendUrlSpec | sdk/python/sentry_logger/config.py:15-23 | an explicit URL wins over LOGSENTRY_URL, which wins over the production default; trailing slashes are stripped; ingest = base + "/ingest" |
| SdkConfig.EmptyEnvironmentUrl | sdk/python/sentry_logger/config.py:18-23 | an empty LOGSENTRY_URL gives the ingest URL "/ingest" |
| SdkConfig.SentryLoggerConfig.constructor | sdk/python/sentry_logger/config.py:7-23 | the fields as given, with the resolved base and ingest URLs |
| LocalConfig.LoadLocalConfigSpec | sdk/python/sentry_logger/local_config.py:17-26 | {} when the file is missing, unreadable or not an object; otherwise its entries |
| LocalConfig.ResolveDsnSpec | sdk/python/sentry_logger/local_config.py:37-46 | explicit argument, then SENTRY_INGEST_URL, then the config "dsn", then the localhost default; empty values skipped; trailing '/' stripped |
| LocalConfig.ExplicitDsnIgnoresFiles | sdk/python/sentry_logger/local_config.py:38-39 | an explicit non-empty DSN decides regardless of environment and files |
| DemoConfig.Notifications | myApp/functions/config.py:29-31 | one call per callback, in registration order, each with the new value |
| DemoConfig.RegisteredSpec | myApp/functions/config.py:33-36 | registering keeps the list free of repeats and adds the callback exactly when missing |
| DemoConfig.UnregisteredSpec | myApp/functions/config.py:38-41 | removes exactly that callback and no other, leaving the list one shorter and free of repeats; no-op when absent |
| DemoConfig.Config.constructor | myApp/functions/config.py:12-15 | bad_ratio 2 and no callbacks |
| DemoConfig.Config.SetBadRatio | myApp/functions/config.py:22-31 | an invalid value raises ValueError and changes nothing; a valid one is stored and every callback is called once with it, in order |
| DemoConfig.Config.RegisterCallback | myApp/functions/config.py:33-36 | appends only a missing callback |
| DemoConfig.Config.UnregisterCallback | myApp/functions/config.py:38-41 | removes the callback if present |
| DemoConfig.ConfigHolder.GetConfig | myApp/functions/config.py:10-16 | the first call creates the instance with the defaults; later calls return the same object unchanged |
| Simulators.Simulator.SetBadRatio | myApp/services/api_service.py:17-23 | an invalid value is ignored; a valid one replaces the ratio |
| Simulators.Simulator.Step | myApp/services/api_service.py:34-51 | the count grows by one and the branch follows `IsBad` of the new count |
| Simulators.ZeroRatioAlwaysGood | myApp/services/api_service.py:43-51 | ratio 0 takes the good branch on every iteration |
| Simulators.BadPerTen | myApp/services/api_service.py:26-51 | any ten consecutive iterations hold exactly `ratio` bad ones under the below-ratio rule, and min(ratio + 1, 10) under the above-ratio rule |
| Simulators.WindowShift | myApp/services/payment_service.py:36-45 | shifting the ten-iteration window by one leaves the bad count unchanged |

## Left out

- Asynchronous scheduling and timing are left out. This covers `asyncio.create_task`, the sleeps of `_processing_loop` and `_heartbeat_loop`, and the threads of the gateway and the SDK. One cycle or one step is a method.
- `logs_per_second` and `processing_lag` are left out because they are floating point and clock-based. `last_processed_timestamp` is the `now` input of the cycle. Error rates are (errors, total) pairs, and thresholds are integer inequalities.
- AI classification and `FallbackClassification` are parameters (`Classifiers`), because their code is not part of this model. Only the anomaly flag and the constant confidence scores are modelled.
- Random choices are parameters, not specified values. These are the guesses of `extract_service`, `extract_severity` and `extract_error_type`, and every simulator message.
- File and network I/O is left out:
  - the files of `process_logs`, `group_logs`, `process_and_summarize_*` and `save_local_config`;
  - the `requests` call of `process_log` (its lines are the `fetched` parameter);
  - the SDK's urllib sending (a handed-off batch is recorded in `sent`);
  - JSON encoding, and the actual `send_text` and `close` calls.
- Timestamps are integers in `group_logs`, and the `%f` format of `strptime`/`strftime` is left out. In `smart_log_processor` they are the matched text.
- `lower()`, `\w` and `\d` are modelled for ASCII characters, not for the rest of Unicode. `strip()` uses Python's whitespace set, Unicode spaces included.
- The streaming endpoints are left out: `stream_logs` (SSE), `continuous_processor`, `continuous_summary` and their `data: ` filter. They consist of network polling, threads and timers. So is the consumer that drains the gateway's queues concurrently.
- Gateway.Server.StartContinuous: takes the new thread's flag installation (`stop_flags[app_id] = Event()`) as happening at start. In the source the thread does it later, so a second start in between is not modelled.
- LogRoutes.StreamContinuously: assumes every chunk decodes as UTF-8. It uses one clock reading for all entries and runs the background hand-off before the answer.
- LogRoutes.StreamLogs: runs the background task `add_log_batch` before the answer, not after it.
- LogRoutes.ProcessStream: `json.loads` followed by `LogEntry(**data)` is the `parse` parameter, which yields an entry, an invalid line or an exception that ends the stream.
- SdkHandler.SentryLogHandler.Emit: the monotonic clock is an integer input. The float flush interval is an integer. `format` and `handleError` are left out.
- DemoConfig.Config.SetBadRatio: callbacks are numbers, and calling one is recorded, not run. So a callback that changes the list during notification is not modelled. A Python `bool` passes the `isinstance` test and is stored as 0 or 1, not as `True` or `False`. The class lock is left out.
- Simulators.Simulator.SetBadRatio: the log messages are left out. So is the initial ratio, which the source does not check.
- The route helpers that call methods the processor does not have are left out. These are `get_all_services_health`, alerts, notifications and analytics. The health aggregation is modelled over a given list of records.
- The `websockets.py` route glue, the CLI device login and the SDK `init` are left out. They are glue, and they call code that does not exist.
- Entry points and install scripts are left out, because they contain no logic of their own.

## Findings

| source | as written | input that shows it | evidently intended | confidence | as-written member | corrected member |
|---|---|---|---|---|---|---|
| backend/app/api/routes/logs.py:85-104 | `stream_single_log` catches every exception, including the `HTTPException` raised by `stream_logs`, and answers 500 | a service name of 101 or more characters: the batch endpoint answers 400 "Invalid service name" | the 400 passed through, as the other handlers do with `except HTTPException: raise` | not executed | LogRoutes.SingleLogMasksBadName | LogRoutes.SingleLogResponseSpec |
| backend/app/api/routes/health.py:92-131 | `query_health_data` puts the processor's `{name: record}` dictionary in `services_health`, and without a name calls `get_all_services_health`, which `LogProcessorService` does not define | any query, with or without `service_name`: the handler answers 500 "Internal server error" | a list of `ServiceHealth` records, the named one or all of them, filtered by status | not executed | HealthRoutes.QueryHealthDataFails | HealthRoutes.QueryHealthDataSpec |
