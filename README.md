# Aegis SOC platform — a verified model of its stateful core

This project models in Dafny the parts of the Aegis platform that keep state
and make decisions, and proves what its route handlers promise:

- **AI-protect job queue** (`AiProtectModels`, `AiProtectQueue`). A dictionary
  of jobs and a list of ids in arrival order. A dashboard adds jobs and a
  remote worker claims the first pending one, then reports completion or
  failure. The handlers are functions over a `Store` value. Class `JobQueue`
  holds the two globals and performs the handlers in place; `get_pending_job`
  is a loop proved against the function.
- **Fawkes jobs** (`Fawkes`). A job dictionary going pending → processing →
  completed | failed, with an image content-type gate and a download gate.
  The background task is split at its `await` into two steps.
- **SpiderFoot scans** (`SpiderFoot`). A scan dictionary going queued →
  running → completed | failed, with an unconditional cancel, a "not
  completed" gate on results, and a per-type summary computed by a loop.
- **API-key decision and sliding-window rate limiting** (`SharedSecurity`,
  `OsintSecurity`, with the shared window in `SlidingWindow`). There are two
  copies with different defaults and error codes, plus the client-IP rule.
- **SOC record store** (`SocSchemas`, `SocDatabase`, `SocAlerts`, `SocCases`,
  `SocClients`). Clients, cases and alerts are kept as three tables of rows
  in insertion order inside a `Database` class. The routers' handlers are
  functions over `Tables`, and the handlers that write are methods on the
  database proved equal to them.

Helper modules:

- `Wrappers` holds `Option` and `Reply`. `Reply` is a value or an HTTP error
  code with its detail.
- `Text` holds split, strip, upper and lower case, and decimal printing.
- `Counting` counts values into a dictionary; its `Total` is the sum of a
  dictionary's values.
- `Query` holds the filter, the sort by descending key, and the SQL `LIMIT`.

Ids and clock readings are parameters: a uuid is a fresh non-empty string,
and a time is an integer tick. Files, HTTP calls to other services and the
contents of uploads are left out. Where a step depends on them, its effect
is an input: an outcome of the background task, or whether a file exists.

## Model

| member | source | states |
|---|---|---|
| AiProtectModels.ParseStatus | services/ai-protect/app/models.py:7-11 | `JobStatus` has exactly the values pending, processing, completed and failed; any other string parses to nothing |
| AiProtectModels.ParseType | services/ai-protect/app/models.py:13-16 | `JobType` has exactly the values fawkes, mist and photoguard |
| AiProtectModels.CreateJob | services/ai-protect/app/models.py:28-36 | `Job.create` keeps the id, type, input path and creation time given, starts pending, and has no completion time, output path or error |
| AiProtectQueue.PendingIds | services/ai-protect/app/routers/queue.py:44-46 | the waiting line holds only queued ids of stored jobs that are pending |
| AiProtectQueue.FirstPending | services/ai-protect/app/routers/queue.py:44-49 | the scan stops at a pending job with no pending job before it, or reports that none is pending |
| AiProtectQueue.FirstPendingIs | services/ai-protect/app/routers/queue.py:44-49 | a pending position with nothing pending before it is exactly where the scan stops |
| AiProtectQueue.Complete | services/ai-protect/app/routers/queue.py:60-83 | `complete_job`: 404 with no change for an unknown id; otherwise the stored job, which it returns, is completed, stamped `completed_at` with the time and given OUTPUT_DIR/processed_<id>.<ext> as its output path, keeping its error and every other field; every other job is kept |
| AiProtectQueue.Fail | services/ai-protect/app/routers/queue.py:85-99 | `fail_job`: 404 with no change for an unknown id; otherwise the stored job, which it returns, is failed, stamped `completed_at` with the time and given the reason as its error, with every other field kept; every other job is kept |
| AiProtectQueue.Image | services/ai-protect/app/routers/queue.py:52-58 | `get_job_image` serves the job's input path, and answers 404 exactly when the id is unknown |
| AiProtectQueue.StatusOf | services/ai-protect/app/routers/queue.py:101-107 | `get_job_status` returns the stored job, and answers 404 exactly when the id is unknown |
| AiProtectQueue.ResultOf | services/ai-protect/app/routers/queue.py:109-119 | `get_job_result` succeeds exactly when the job is completed with a non-empty output path, and serves that path; otherwise 404 for an unknown id and 400 for the rest |
| AiProtectQueue.PendingConcat | services/ai-protect/app/routers/queue.py:44-49 | the waiting line of two queue parts is the two waiting lines in order |
| AiProtectQueue.PendingFrame | services/ai-protect/app/routers/queue.py:48 | changing a job that is not in a queue part leaves that part's waiting line alone |
| AiProtectQueue.AddKeepsConsistent | services/ai-protect/app/routers/queue.py:33-35 | adding under a fresh id keeps the queue invariant: distinct ids of stored jobs that are pending or processing, and every pending job queued |
| AiProtectQueue.AddWaiting | services/ai-protect/app/routers/queue.py:33-35 | `add_job` appends the new id to the tail of the waiting line |
| AiProtectQueue.AddEnqueuesAtTail | services/ai-protect/app/routers/queue.py:33-35 | `add_job` stores `Job.create(...)` under the fresh id, appends it to the waiting line, keeps the invariant, and changes no other job |
| AiProtectQueue.ClaimKeepsConsistent | services/ai-protect/app/routers/queue.py:44-49 | a claim keeps the invariant and leaves the queue list itself unchanged |
| AiProtectQueue.ClaimWaiting | services/ai-protect/app/routers/queue.py:44-50 | the scan finds nothing exactly when nothing waits; otherwise it stops at the head of the waiting line, and the line afterwards is the rest |
| AiProtectQueue.ClaimResult | services/ai-protect/app/routers/queue.py:44-50 | with nothing waiting, `get_pending_job` returns None and changes nothing; otherwise it returns the head job, now processing, changes only that job, and leaves the rest of the line |
| AiProtectQueue.ClaimTakesHead | services/ai-protect/app/routers/queue.py:44-50 | the same for a consistent store, which stays consistent |
| AiProtectQueue.RemoveAt | services/ai-protect/app/routers/queue.py:80-81 | `queue.remove` of an id at position i removes exactly that position, and the rest stays distinct |
| AiProtectQueue.DropWaiting | services/ai-protect/app/routers/queue.py:75-81 | finishing a queued job removes its id from the waiting line and nothing else |
| AiProtectQueue.FinishWaiting | services/ai-protect/app/routers/queue.py:80-97 | after completion or failure the id is out of the queue, and the waiting line loses exactly that id |
| AiProtectQueue.FinishKeepsConsistent | services/ai-protect/app/routers/queue.py:75-97 | storing a terminal job and removing its id keeps the queue invariant |
| AiProtectQueue.FinishDropsId | services/ai-protect/app/routers/queue.py:75-97 | completion and failure keep the invariant, drop the id from the queue, and drop exactly it from the waiting line |
| AiProtectQueue.FifoTwoJobs | services/ai-protect/app/routers/queue.py:35-49 | two jobs added to an idle queue are claimed in the order they were added, and a third claim finds nothing |
| AiProtectQueue.StepKeepsConsistent | services/ai-protect/app/routers/queue.py:33-97 | every handler keeps the invariant, loses no job, and never makes a job pending again |
| AiProtectQueue.ClaimedNeverReturned | services/ai-protect/app/routers/queue.py:44-49 | after any sequence of handlers, a job that was claimed (or finished) is never returned by a later claim |
| AiProtectQueue.CompleteThenFailResult | services/ai-protect/app/routers/queue.py:68-117 | whatever the prior status, completion makes the result servable at OUTPUT_DIR/processed_<id>.<ext> and stamps the time; failure sets the status to failed, stamps `completed_at` with the time, records the reason, keeps the output path, and makes the result answer 400 |
| AiProtectQueue.JobQueue.constructor | services/ai-protect/app/routers/queue.py:13-14 | the globals start empty |
| AiProtectQueue.JobQueue.AddJob | services/ai-protect/app/routers/queue.py:23-37 | `add_job` in place: the store becomes `Add` of the old one and the waiting line gains the id at its tail |
| AiProtectQueue.JobQueue.GetPendingJob | services/ai-protect/app/routers/queue.py:39-50 | the loop over the queue produces exactly `Claim` of the old store, and the queue list is unchanged |
| AiProtectQueue.JobQueue.CompleteJob | services/ai-protect/app/routers/queue.py:60-83 | `complete_job` in place equals `Complete`; on success the id is no longer queued |
| AiProtectQueue.JobQueue.FailJob | services/ai-protect/app/routers/queue.py:85-99 | `fail_job` in place equals `Fail`; on success the id is no longer queued |
| Fawkes.Protect | services/ai-protect/app/routers/fawkes.py:26-45 | the upload is accepted exactly when the content type starts with "image/" and saving it succeeds; a wrong content type is 400 before any job is stored; for an image the pending entry is stored whatever happens next, so a save that raises answers 500 and leaves that entry behind; an acceptance reports "pending" |
| Fawkes.GetStatus | services/ai-protect/app/routers/fawkes.py:50-59 | 404 exactly for an unknown id; otherwise the stored status, result URL and error, unchanged |
| Fawkes.Download | services/ai-protect/app/routers/fawkes.py:94-101 | the file is served exactly when the job exists, is completed and its file exists; otherwise 404 with the source's two details |
| Fawkes.ProtectThenStatus | services/ai-protect/app/routers/fawkes.py:31-59 | right after an image upload the status is pending with no URL and no error, also when saving the file raised and no task will run; a wrong content type changes no status |
| Fawkes.StepsKeepValid | services/ai-protect/app/routers/fawkes.py:64-87 | both halves of `process_fawkes` keep every entry's URL its own download URL and every failed entry with an error |
| Fawkes.Lifecycle | services/ai-protect/app/routers/fawkes.py:64-95 | a new job reads processing during the run; then completed with `/api/protect/download/<id>` and downloadable, or failed with the message and not downloadable; other jobs are untouched |
| Fawkes.DownloadAgreesWithStatus | services/ai-protect/app/routers/fawkes.py:56-95 | the download gate opens exactly when the status reads "completed", and then the advertised URL is the job's own |
| Fawkes.FawkesJobs.constructor | services/ai-protect/app/routers/fawkes.py:10 | the job dictionary starts empty |
| Fawkes.FawkesJobs.FawkesProtect | services/ai-protect/app/routers/fawkes.py:18-45 | `fawkes_protect` in place equals `Protect`, including the entry left pending when saving raises, and an accepted upload goes to `/app/data/uploads/<id>_<name>` |
| Fawkes.FawkesJobs.BeginProcessing | services/ai-protect/app/routers/fawkes.py:63-64 | the run up to its pause sets processing |
| Fawkes.FawkesJobs.FinishProcessing | services/ai-protect/app/routers/fawkes.py:74-87 | the run after its pause sets completed and the URL, or failed and the error |
| Fawkes.FawkesJobs.ProcessFawkes | services/ai-protect/app/routers/fawkes.py:61-87 | the whole run with nothing between its halves |
| SpiderFoot.ScanId | services/osint/app/routers/spiderfoot.py:38 | a scan id is the first 8 characters of the uuid text, upper-cased |
| SpiderFoot.StatusOf | services/osint/app/routers/spiderfoot.py:60-74 | 404 exactly for an unknown id; otherwise the stored status and progress, with `results_count` the number of stored results |
| SpiderFoot.Results | services/osint/app/routers/spiderfoot.py:76-89 | results are given exactly for a completed scan; 404 for an unknown id and 400 naming the current status otherwise |
| SpiderFoot.Cancel | services/osint/app/routers/spiderfoot.py:129-137 | 404 with no change for an unknown id; otherwise the cancelled message |
| SpiderFoot.ResultsSummary | services/osint/app/routers/spiderfoot.py:91-103 | the summary counts every finding under its type ("other" when it has none), so its counts add up to the number of findings; `findings` is the first 100 |
| SpiderFoot.StartThenStatus | services/osint/app/routers/spiderfoot.py:41-74 | a started scan reads back as queued with progress 0 and no results, exactly as `start_scan` reported |
| SpiderFoot.CancelOnlyStatus | services/osint/app/routers/spiderfoot.py:133-136 | cancel sets the status to cancelled whatever it was, changes nothing else, and then results answer 400 |
| SpiderFoot.RunKeepsValid | services/osint/app/routers/spiderfoot.py:161-197 | the run keeps progress within 0..100, a completed scan at 100 with the two findings, and a failed scan with an error |
| SpiderFoot.RunLifecycle | services/osint/app/routers/spiderfoot.py:41-197 | a new scan reads running at 10 during the run; then completed at 100 with two findings, the first naming the target, and a summary of one of each type; or, if the request raised, failed at 10 with the message |
| SpiderFoot.SimulatedSummary | services/osint/app/routers/spiderfoot.py:94-190 | the placeholder findings count as one DOMAIN_NAME and one IP_ADDRESS |
| SpiderFoot.CancelDuringRunIsOverwritten | services/osint/app/routers/spiderfoot.py:136-193 | a cancel that lands while the run waits is overwritten: the scan still ends completed |
| SpiderFoot.ScanRegistry.constructor | services/osint/app/routers/spiderfoot.py:14 | the scan dictionary starts empty |
| SpiderFoot.ScanRegistry.StartScan | services/osint/app/routers/spiderfoot.py:34-58 | `start_scan` in place equals `Start` under the id derived from the uuid |
| SpiderFoot.ScanRegistry.GetScanResults | services/osint/app/routers/spiderfoot.py:76-104 | the summary loop computes exactly `Results` |
| SpiderFoot.ScanRegistry.CancelScan | services/osint/app/routers/spiderfoot.py:129-137 | `cancel_scan` in place equals `Cancel` |
| SpiderFoot.ScanRegistry.StartRun | services/osint/app/routers/spiderfoot.py:161-162 | the run up to the request sets running at 10 |
| SpiderFoot.ScanRegistry.EndRun | services/osint/app/routers/spiderfoot.py:166-197 | the run from the request on equals `FinishRun` |
| SpiderFoot.ScanRegistry.RunSpiderfootScan | services/osint/app/routers/spiderfoot.py:157-197 | the whole run with nothing between its halves |
| SharedSecurity.ValidApiKeys | shared/security.py:25 | the keys come from splitting `API_KEYS` at commas, so no valid key contains a comma |
| SharedSecurity.DefaultKeys | shared/security.py:25 | by default the valid keys are exactly aegis-dev-key and aegis-admin-key |
| SharedSecurity.ClientIpIsFirstEntry | shared/security.py:37-39 | with a non-empty X-Forwarded-For, the client IP is its text before the first comma, stripped of surrounding whitespace |
| SharedSecurity.ClientIpWithoutHeader | shared/security.py:37-40 | without that header the client IP is the peer host, or "unknown" |
| SharedSecurity.VerifyApiKey | shared/security.py:42-71 | public paths and `/docs` or `/redoc` prefixes give "public" before anything else; then `DISABLE_AUTH` = true (any case) gives "dev-mode"; an error is only 401 or 403 |
| SharedSecurity.KeyDecision | shared/security.py:59-71 | with auth on: the key is accepted exactly when present, non-empty and valid, and returned; 401 exactly when it is missing or empty; 403 exactly when it is unknown |
| SharedSecurity.DefaultsEnforceKeys | shared/security.py:25-71 | with no environment set, a protected path accepts exactly the two default keys |
| SharedSecurity.RateLimiter.constructor | shared/security.py:29-33 | the store starts empty, with the configured limit and window |
| SharedSecurity.RateLimiter.CheckRateLimit | shared/security.py:73-89 | `check_rate_limit` replaces the client's list with `Admit` of it, so only later stamps are kept, a full window refuses without recording, and only that client's list changes |
| SharedSecurity.RateLimiter.Dispatch | shared/security.py:94-108 | exact public paths skip limiting; otherwise the request is refused with 429 and the configured numbers exactly when the window is full |
| OsintSecurity.ClientIp | services/osint/app/security.py:22-24 | the same client-IP rule as the shared copy |
| OsintSecurity.VerifyApiKey | services/osint/app/security.py:26-33 | public paths and `/docs` prefixes give "public"; `DISABLE_AUTH` defaults to true and then gives "dev"; the only error is 401 |
| OsintSecurity.KeyDecision | services/osint/app/security.py:31-33 | with auth on, a key is accepted exactly when present, non-empty and valid, and is returned |
| OsintSecurity.DefaultIsOpen | services/osint/app/security.py:29-30 | with no environment set, every path is open: "public" or "dev" |
| OsintSecurity.CopiesDiffer | services/osint/app/security.py:27-32 | unlike the shared copy, a `/redoc/...` path is not public and an unknown key gets 401 instead of 403 |
| OsintSecurity.RateLimiter.constructor | services/osint/app/security.py:18-20 | the store starts empty, with the configured limit and window |
| OsintSecurity.RateLimiter.Dispatch | services/osint/app/security.py:36-45 | exact public paths skip limiting; otherwise the inline window keeps later stamps and refuses with 429 without recording exactly when full |
| SlidingWindow.RecentCounts | shared/security.py:79-81 | pruning keeps every stamp later than the window start, as often as it occurred, and no other |
| SlidingWindow.Admit | shared/security.py:84-89 | admitted exactly when fewer than the limit stamps remain; a refusal stores the pruned list, an admission the pruned list plus now |
| SlidingWindow.AdmitBounds | shared/security.py:79-88 | after a check every stored stamp is inside the window, and a list at most the limit long stays so |
| SlidingWindow.RecentTwice | shared/security.py:79-81 | pruning with a later start after an earlier one is pruning once with the later start |
| SlidingWindow.ReplayStored | shared/security.py:73-89 | over any run of checks in time order, the stored list is the admitted stamps inside the current window, and never longer than the limit |
| SlidingWindow.WindowNeverOverfull | shared/security.py:73-89 | over any time-ordered run of one client's requests, the window of the configured length ending at the latest request, or at any later time, holds at most the limit of admitted requests; applied to each prefix of the run, this covers the window ending at every request |
| SocSchemas.ParseRiskLevel | services/soc-core/app/schemas.py:7-11 | RiskLevel is exactly low, medium, high, critical |
| SocSchemas.ParseClientStatus | services/soc-core/app/schemas.py:13-15 | ClientStatus is exactly active, inactive |
| SocSchemas.ParseCaseStatus | services/soc-core/app/schemas.py:17-21 | CaseStatus is exactly open, investigating, resolved, closed |
| SocSchemas.ParsePriority | services/soc-core/app/schemas.py:23-27 | Priority is exactly low, medium, high, critical |
| SocSchemas.ParseSeverity | services/soc-core/app/schemas.py:29-32 | Severity is exactly info, warning, critical |
| SocSchemas.ValuesInjective | services/soc-core/app/database.py:15-40 | distinct members of each enumeration store distinct strings |
| SocDatabase.Find | services/soc-core/app/routers/alerts.py:85 | `.filter(X.id == id).first()` finds nothing exactly when the key is absent, and otherwise the first row with that key |
| SocDatabase.FindUnique | services/soc-core/app/database.py:46-79 | under a primary key, the row found is the only row with that key |
| SocDatabase.FreshClientHasNoCases | services/soc-core/app/database.py:57-63 | a new client's `cases` relationship is empty |
| SocDatabase.FreshCaseHasNoAlerts | services/soc-core/app/database.py:74-80 | a new case's `alerts` relationship is empty |
| SocDatabase.Database.constructor | services/soc-core/app/database.py:43-90 | the tables start empty, with their keys and references intact |
| SocAlerts.ListAlertsSound | services/soc-core/app/routers/alerts.py:11-44 | every listed alert is stored and matches every filter given (severity and source when non-empty, acknowledged when given); the list is newest first and at most `limit` long |
| SocAlerts.ListAlertsComplete | services/soc-core/app/routers/alerts.py:20-29 | when the limit does not cut, every matching alert is listed |
| SocAlerts.ListAlertsNewest | services/soc-core/app/routers/alerts.py:29 | a matching alert left out by the limit is no newer than any listed one |
| SocAlerts.Create | services/soc-core/app/routers/alerts.py:46-76 | 404 with no change exactly when a non-empty case id names no case; otherwise one alert appended with the body's fields, the severity's value, unacknowledged, stamped now, and returned |
| SocAlerts.Acknowledge | services/soc-core/app/routers/alerts.py:78-94 | 404 with no change exactly for an unknown id; otherwise the acknowledged message, and no other table changes |
| SocAlerts.AcknowledgeEffect | services/soc-core/app/routers/alerts.py:89-91 | the alert is set acknowledged by the given name at now, even if it already was, and no other alert changes |
| SocAlerts.AcknowledgeKeepsValid | services/soc-core/app/routers/alerts.py:89-92 | acknowledging keeps keys and references intact |
| SocAlerts.Delete | services/soc-core/app/routers/alerts.py:96-106 | 404 with no change exactly for an unknown id; otherwise one row fewer and the deleted message |
| SocAlerts.CreateKeepsValid | services/soc-core/app/routers/alerts.py:50-64 | creating under a fresh id keeps keys and references intact |
| SocAlerts.CreateDefaults | services/soc-core/app/schemas.py:98-103 | an alert created from the required fields alone has severity info, no case, and is unacknowledged |
| SocAlerts.DeleteRemovesExactly | services/soc-core/app/routers/alerts.py:99-104 | deleting removes exactly that alert, keeps every other one, and keeps the tables valid |
| SocAlerts.StatsAddUp | services/soc-core/app/routers/alerts.py:108-128 | `total` is the alert count; the severity and source counts each add up to it and count each value's rows; `unacknowledged` is zero exactly when all are acknowledged |
| SocAlerts.GetAlertStats | services/soc-core/app/routers/alerts.py:111-128 | the counting loop computes exactly `Stats` |
| SocAlerts.AckOneEffect | services/soc-core/app/routers/alerts.py:139-144 | one pass of the bulk loop acknowledges the named alert exactly when it exists unacknowledged, counts 1 exactly then, and changes nothing else |
| SocAlerts.BulkAckEffect | services/soc-core/app/routers/alerts.py:137-144 | after the bulk loop each alert is acknowledged by this call exactly when it was unacknowledged and named; every other alert, including an already acknowledged one's acknowledger, is kept |
| SocAlerts.BulkAckCount | services/soc-core/app/routers/alerts.py:137-147 | the reported count is the number of alerts newly acknowledged, with unknown and repeated ids counted zero times |
| SocAlerts.BulkAckIdempotent | services/soc-core/app/routers/alerts.py:140-144 | repeating the same bulk call acknowledges 0 alerts and changes nothing |
| SocAlerts.CreateAlert | services/soc-core/app/routers/alerts.py:46-64 | `create_alert` on the database equals `Create` |
| SocAlerts.AcknowledgeAlert | services/soc-core/app/routers/alerts.py:78-94 | `acknowledge_alert` on the database equals `Acknowledge` |
| SocAlerts.DeleteAlert | services/soc-core/app/routers/alerts.py:96-106 | `delete_alert` on the database equals `Delete` |
| SocAlerts.AckIfPending | services/soc-core/app/routers/alerts.py:139-144 | one iteration of the bulk loop equals `AckOne` |
| SocAlerts.BulkAcknowledge | services/soc-core/app/routers/alerts.py:130-147 | the loop leaves the alerts as `BulkAck` describes, changes no other table, and reports "Acknowledged <n> alerts" |
| SocCases.ListCasesSound | services/soc-core/app/routers/cases.py:11-45 | every listed case is stored and matches each non-empty filter; its `alert_count` is its number of alerts; newest first |
| SocCases.ListCasesComplete | services/soc-core/app/routers/cases.py:21-29 | every matching case is listed |
| SocCases.Create | services/soc-core/app/routers/cases.py:47-70 | 404 with no change exactly when a non-empty client id names no client; otherwise one case appended, open, with the priority's value, no close time, stamped now, reported with `alert_count` 0 |
| SocCases.Get | services/soc-core/app/routers/cases.py:72-82 | 404 exactly for an unknown id; otherwise the response of a stored case with that id, all its columns, and its alert count |
| SocCases.CreateKeepsValid | services/soc-core/app/routers/cases.py:51-64 | creating under a fresh id keeps keys and references intact |
| SocCases.CreateAgreesWithGet | services/soc-core/app/routers/cases.py:56-82 | a created case reads back as reported |
| SocCases.CreateDefaults | services/soc-core/app/schemas.py:68-73 | a case created from its title alone is open, medium priority, with no client |
| SocCases.Update | services/soc-core/app/routers/cases.py:84-110 | 404 with no change exactly for an unknown id; otherwise a case with that id is replaced by `Apply` of it (sent fields set, the rest kept, updated_at refreshed), every other row and table is kept, and the reply is the new case |
| SocCases.UpdateEffect | services/soc-core/app/routers/cases.py:84-110 | under unique ids, updating the case at i stores `Apply` of it at i, keeps every other case, and replies with the new case, which is what `get_case` then reads |
| SocCases.ApplyChangesOnlySentFields | services/soc-core/app/routers/cases.py:95-103 | each field sent with a value is set (an enumeration as its value) and every other field keeps its value; the client and close time never change; `updated_at` is now |
| SocCases.ApplyIdempotent | services/soc-core/app/routers/cases.py:95-103 | sending the same update twice is sending it once |
| SocCases.Close | services/soc-core/app/routers/cases.py:112-124 | 404 with no change exactly for an unknown id; otherwise the closed message, and a case with that id becomes closed with closed_at and updated_at stamped, every other row and table kept |
| SocCases.CloseEffect | services/soc-core/app/routers/cases.py:112-124 | under unique ids, closing the case at i sets status "closed" and stamps closed_at and updated_at there; every other field and every other case is kept |
| SocCases.UpdateKeepsValid | services/soc-core/app/routers/cases.py:95-104 | an update keeps keys and references intact |
| SocCases.CloseKeepsValid | services/soc-core/app/routers/cases.py:119-122 | closing keeps keys and references intact |
| SocCases.CloseVersusUpdate | services/soc-core/app/routers/cases.py:95-121 | `close_case` sets closed and stamps `closed_at`; an update to status closed leaves `closed_at` as it was |
| SocCases.CaseAlerts | services/soc-core/app/routers/cases.py:126-144 | 404 exactly for an unknown id |
| SocCases.CaseAlertsAgreeWithCount | services/soc-core/app/routers/cases.py:133-144 | there are as many entries as the case's `alert_count`; each is an alert whose `case_id` is the case, and every alert whose `case_id` is the case is listed |
| SocCases.StatsAddUp | services/soc-core/app/routers/cases.py:146-162 | `total` is the case count, and the status and priority counts each add up to it and count each value's rows |
| SocCases.CreateCase | services/soc-core/app/routers/cases.py:47-70 | `create_case` on the database equals `Create` |
| SocCases.UpdateCase | services/soc-core/app/routers/cases.py:84-110 | the `setattr` loop on the database equals `Update` |
| SocCases.CloseCase | services/soc-core/app/routers/cases.py:112-124 | `close_case` on the database equals `Close` |
| SocCases.GetCaseStats | services/soc-core/app/routers/cases.py:149-162 | the counting loop computes exactly `Stats` |
| SocClients.ListClientsSound | services/soc-core/app/routers/clients.py:11-44 | every listed client is stored and matches each non-empty filter; its `case_count` is its number of cases; newest first |
| SocClients.ListClientsComplete | services/soc-core/app/routers/clients.py:20-25 | every matching client is listed |
| SocClients.Create | services/soc-core/app/routers/clients.py:46-64 | one client appended with the body's fields, the risk level's value, active, stamped now, reported with `case_count` 0 |
| SocClients.Get | services/soc-core/app/routers/clients.py:66-76 | 404 exactly for an unknown id; otherwise the response of a stored client with that id, all its columns, and its case count |
| SocClients.CreateKeepsValid | services/soc-core/app/routers/clients.py:49-53 | creating under a fresh id keeps keys and references intact |
| SocClients.CreateAgreesWithGet | services/soc-core/app/routers/clients.py:49-76 | a created client reads back as reported |
| SocClients.CreateDefaults | services/soc-core/app/schemas.py:35-41 | a client created from its name alone is medium risk and active |
| SocClients.Update | services/soc-core/app/routers/clients.py:78-104 | 404 with no change exactly for an unknown id; otherwise a client with that id is replaced by `Apply` of it (sent fields set, the rest kept, updated_at refreshed), every other row and table is kept, and the reply is the new client |
| SocClients.UpdateEffect | services/soc-core/app/routers/clients.py:78-104 | under unique ids, updating the client at i stores `Apply` of it at i, keeps every other client, and replies with the new client, which is what `get_client` then reads |
| SocClients.ApplyChangesOnlySentFields | services/soc-core/app/routers/clients.py:89-97 | each field sent with a value is set (an enumeration as its value) and every other field keeps its value; `updated_at` is now |
| SocClients.ApplyIdempotent | services/soc-core/app/routers/clients.py:89-97 | sending the same update twice is sending it once |
| SocClients.UpdateKeepsValid | services/soc-core/app/routers/clients.py:89-98 | an update keeps keys and references intact |
| SocClients.Detach | services/soc-core/app/routers/clients.py:113 | on delete the ORM detaches the client's cases: no case refers to it any more, and every case keeps its id |
| SocClients.DetachFacts | services/soc-core/app/routers/clients.py:113 | detaching keeps every case's id, changes no case that still names a client, and leaves the client with no cases |
| SocClients.Delete | services/soc-core/app/routers/clients.py:106-116 | 404 with no change exactly for an unknown id; otherwise one client fewer, the same number of cases, and the deleted message |
| SocClients.DeleteKeepsValid | services/soc-core/app/routers/clients.py:113-114 | deleting removes exactly that client, keeps every other one and every case, leaves no case referring to it, and keeps the tables valid |
| SocClients.ClientCases | services/soc-core/app/routers/clients.py:118-134 | 404 exactly for an unknown id |
| SocClients.ClientCasesAgreeWithCount | services/soc-core/app/routers/clients.py:125-134 | there are as many entries as the client's `case_count`; each carries a case whose `client_id` is the client, and every case whose `client_id` is the client is listed |
| SocClients.CreateClient | services/soc-core/app/routers/clients.py:46-64 | `create_client` on the database equals `Create` |
| SocClients.UpdateClient | services/soc-core/app/routers/clients.py:78-104 | the `setattr` loop on the database equals `Update` |
| SocClients.DeleteClient | services/soc-core/app/routers/clients.py:106-116 | `delete_client` on the database equals `Delete` |
| Text.JoinSplit | shared/security.py:25-39 | `str.split` on a separator loses nothing: joining the fields back gives the text |
| Text.FirstFieldIsPrefix | shared/security.py:39 | `split(",")[0]` is the text before the first comma |
| Text.LastFieldIsSuffix | services/ai-protect/app/routers/queue.py:26-68 | `split('.')[-1]` is the text after the last dot |
| Text.Strip | shared/security.py:39 | `strip()` removes the leading and trailing whitespace and nothing else |
| Text.IsTrueFlag | shared/security.py:56 | `.lower() == "true"` holds exactly for "true" in any mix of cases |
| Text.DecimalRoundTrip | shared/security.py:105 | the decimal text of a number reads back as that number |
| Counting.TallyCounts | services/soc-core/app/routers/alerts.py:118-119 | counting into a dictionary records, for each value, the number of its occurrences |
| Counting.TotalOfTally | services/soc-core/app/routers/alerts.py:118-119 | the counts of a tally add up to the number of values counted |
| Query.Where | services/soc-core/app/routers/alerts.py:20-27 | a filtered query returns exactly the rows satisfying the condition |
| Query.SortDesc | services/soc-core/app/routers/alerts.py:29 | `order_by(created_at.desc())` returns the same rows, newest first |
| Query.Limit | services/soc-core/app/routers/alerts.py:29 | SQLite `LIMIT n` keeps the first n rows, and a negative n keeps them all |

## Left out

- File contents, `FileResponse`, `os.makedirs` and `shutil`: paths are strings, whether a result file exists is an input, and a file copy that raises is an outcome of the Fawkes task.
- HTTP calls to the SpiderFoot server (`/startscan`, `spiderfoot_health`): a run's request is an outcome (`Reached`, `Unreachable`, or `Raised` with a message). `list_modules` returns a constant and is not modelled.
- uuid generation and the clock: ids are parameters, required fresh where a lemma needs it, and times are integer ticks. `close_case` reads the clock twice; the model uses one reading for both stamps. `bulk_acknowledge` also reads it once per alert; the model uses one reading for the whole call.
- Floating-point time stamps: `time.time()` is an integer here, so the window comparison `t > now - window` is exact integer arithmetic.
- `str.lower()` and `str.upper()` are modelled on ASCII letters only. For comparing with "true" this is exact, because no other character lower-cases to an ASCII letter of "true"; a scan id is upper-cased from uuid text, which is ASCII.
- `image.content_type` being None would raise in `fawkes_protect`; the model takes a string.
- Saving an upload in `fawkes_protect` (`os.makedirs`, `open`, `image.read`, `write`) is an input: it succeeds or raises. The 500 of a raised exception is modelled as `Err(500, "Internal Server Error")`; FastAPI's exact error body is not part of this model.
- `fawkes.py` keeps job statuses as plain strings; the model types them with the service's `JobStatus`, whose values are the same four strings, which are the only ones the route ever stores.
- Concurrency across processes and event loops: each handler runs as one step. `process_fawkes` and `run_spiderfoot_scan` await in the middle, and they are split at that point so that other handlers can run between the two halves. `fawkes_protect` also awaits `image.read()` after storing its entry; a status read in that pause sees the pending entry that `Protect` stores, so the model takes the handler as one step. In `run_spiderfoot_scan`, leaving the `httpx.AsyncClient` block after `progress = 50` is a further await; a status read there would see a running scan at 50, a state the model never produces, because it joins the request and the end of the run into one step.
- The 429 raised from inside `BaseHTTPMiddleware.dispatch` is modelled as the reply; how Starlette turns a raised exception there into a response is not part of this model.
- SQL ordering: rows with equal `created_at` may come back in any order in SQLite; the model keeps insertion order among them. Relationship collections (`client.cases`, `case.alerts`) are in table order.
- SQLAlchemy sessions: `db.commit()`, `db.refresh` and the identity map are not modelled. `bulk_acknowledge` changes rows in the session and writes them back once at the end; the model edits a copy of the alerts and stores it once.
- The SOC enumerations are declared twice in the source, once for the ORM and once for the schemas, with the same values; the model declares them once.
- Logging, `RequestLoggingMiddleware`, `LoggingMiddleware` and `ErrorHandlingMiddleware`: they log and measure floating-point durations.
- `create_engine`, `SessionLocal`, `init_db` and `get_db` are SQLite plumbing; the database is the `Database` class.
- `process_fawkes` and `run_spiderfoot_scan` called with an unknown id raise inside their own error handler; the model leaves the dictionary unchanged, which is what the failed task leaves behind.
- Fawkes.StepsKeepValid: the invariant says only that a URL is the job's own and a failed job has an error; the source promises nothing about a processing job's fields, so nothing more is stated.
- Request-body validation by pydantic is modelled only as the typed enumerations; a malformed body is rejected before any handler runs.
