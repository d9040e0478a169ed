# FiloJ, modelled and verified

FiloJ accepts files from developers, has clamd look at each of them, cuts images down to six
derivatives, and tells a webhook how it went.  What it knows is spread over S3 buckets, Postgres
tables, RabbitMQ queues and Redis hashes, and no transaction spans two of them.  Everything here
is about that gap: each commit, publish, S3 or Redis call is one step of a machine, any other
handler may run between two steps, any worker may die there, and the theorems hold all the same.

`dafny verify dfyconfig.toml` checks everything.

## How the model is built

Each protocol is a machine: a `State`, an `Event` per atomic effect, and a function `Step`.
`IsRun(states, log)` says that `log` leads through `states`; a theorem about `states[n]` is a
theorem about every schedule.  An event that is not enabled changes nothing, so no theorem
assumes anything of the scheduler.  The imperative handlers are classes whose fields are the
shared services.  Their `Await` and `Others` let every other actor run before each effect, and a
ghost log, extended by `Did`, shows that the code only takes steps of the machine; so the
theorems about runs hold before and after every line.  What the surroundings decide is a parameter
(`published`, `works`, `mortal`, `committed`) or leaves its event in the log.

| files | what they model |
|---|---|
| `Broker`, `Routing`, `Keys` | the quorum queue with its delivery limit, topic bindings, object keys |
| `Pipeline`, `PipelineInvariant`, `PipelineFrames` | upload, scan and image workers as one machine, its invariant, what each handler leaves alone |
| `PipelineTheorems`, `PipelineReports`, `PipelineBounds`, `PipelineContent`, `PipelineRemoval` | its theorems: storage and scan gate, failure reports, how much work one task can cause, which content is rendered, what a quarantine webhook stands for |
| `PipelineWitness`, `PipelineContentWitness` | runs in which a report is false, and in which the rendered content was not the scanned one |
| `PipelineCluster` | `upload_file`, `scan_file` with `job_transaction`, `move_to_quarantine`, `process_image` as code |
| `Retry`, `Dispatcher`, `DispatcherBounds`, `DispatcherChain`, `DispatcherRuns`, `DispatcherWorstCase` | webhook retries nested in broker redelivery: bounds, runs without and with crashes, runs that reach the bounds |
| `DispatcherNode` | `process_webhook` as code |
| `TtlCache`, `RateLimit` | the Redis cache that is filled by HSET and then EXPIRE; the rate limiter's Lua script |
| `GatewayHandler`, `WebhookConfig` | `get_context` and `get_webhook_config` with their recursion, as code |
| `AuditLog`, `AuditLogger` | the batching logger against the one without batches; its loop as code |
| `Orientation` | `_rotate_image` against section 8 of TIFF 6.0; getdata and putdata on arrays |
| `RefreshTokens` | register, login, refresh and logout |

## What came out

Most of what the design promises holds.  These are the places where it needs a condition, or
where the code does something its comments do not say.

* A dropped clamd connection is reported as "queued_for_retry" on every delivery.  The report is
  true if and only if this was not the last delivery (`PipelineReports.ScanReportsComeTrue`);
  there is a run that reports it and is dead-lettered (`PipelineWitness.FalseReport`).
* The scan gate is a gate for jobs, not for contents.  The digest in a key covers only what
  `validate_mime` has left of the file behind its first 2048 bytes (api/main.py:65-73), so files
  of at most 2048 bytes all share one.  The image worker reads the object a second time, and
  renders what was scanned if and only if the last upload of the key in between, if there is one,
  brought the same content (`PipelineContent.RenderedIsScanned`); there is a run in which it did
  not (`PipelineContentWitness.RenderedUnscanned`).
* A cached value is at most `ttl` seconds and the time of one fill old only if no two fills
  overlap.  Overlapping fills make it two fill times, because HSET keeps the time to live that
  another fill's EXPIRE is still going to renew; that bound is reached
  (`TtlCache.Staleness`, `TtlCache.StalenessIsTight`).  A fill that dies between HSET and EXPIRE
  leaves an entry for ever (`TtlCache.DeadFillsNeverExpire`).
* The usage counter of an hour is exact if labels are at most 100 seconds old, and for every
  longer delay there is a run that loses it (`RateLimit.CounterIsExact`,
  `RateLimit.LateLabelsLoseTheCounter`).
* With labels up to 100 seconds late, however little, three times the limit can be admitted
  within one hour, instead of twice (`RateLimit.BurstsAreBounded`,
  `RateLimit.LateLabelsTripleTheBurst`).
* delivery.py says that the remaining 4xx answers are translated.  They are not: 430 to 499 and
  everything below 200 raise an exception that is no DispatchError, and the message is requeued.
  So an event that is always refused like that is never delivered and never gets a dead letter of
  the dispatcher; the broker drops it after at most 4 POSTs (`DispatcherRuns.RefusalsAreLost`,
  `DispatcherWorstCase.RefusedEventsAreDropped`).
* `get_context` answers without a developer if the cached record expires between the script and
  the read that follows it.  A request that would be admitted learns its developer on every
  schedule if and only if the record does not expire within the two awaits
  (`GatewayHandler.DeveloperIsKnown`), and there is a run in which it does
  (`GatewayHandler.DeveloperCanBeLost`).
* The branches for a missing job, a missing file row, a wrong hash and a refresh token without
  its developer are dead (`PipelineTheorems.DefensiveBranchesAreDead`,
  `RefreshTokens.TokensRotate`).  The last one, if it ran, would raise instead of answering 401,
  because it reads the email of the developer that is not there.

## Model

| member | source | states |
|---|---|---|
| `Keys.StemOfKey` | image_processor/worker.py:93-99 | The key of an upload, cut at its first dot, gives back the digest it was made of, for every allowed suffix. |
| `Keys.DerivativesAreDistinct` | image_processor/worker.py:119-127 | Two derivative names are equal exactly if they are the same size and format of the same upload id. |
| `Routing.ScannerKeys` | security_scanner/worker.py:214-216 | The scanner's binding takes exactly the keys with one word between `task` and `scan`. |
| `Routing.ImageKeys` | image_processor/worker.py:172 | The image worker's binding takes one key and no other. |
| `Routing.QueuesAreSeparate` | api/main.py:120-124 | Whatever its type, an upload's task reaches the scanner only, and what the scanner forwards reaches the image worker only. |
| `PipelineTheorems.StoredFilesSurvive` | shared/src/shared/storage.py:102-111 | In every reachable state every file row's object is in the uploads or the quarantine bucket; bucket `quarantine` means it is in quarantine, `processed` means all six derivatives exist. |
| `PipelineTheorems.QuarantineIsReal` | security_scanner/worker.py:131-143 | A job in status quarantined, or announced as such by a webhook, has its file in the quarantine bucket. |
| `PipelineRemoval.QuarantineTakesAway` | shared/src/shared/storage.py:102-111 | Once a quarantine webhook is published, the delivery that sent it has deleted the file of its job from the uploads bucket, and the file is there only if a request has stored its key after that deletion. |
| `PipelineTheorems.ClearedMeansVerdict` | security_scanner/worker.py:115-129 | The history of cleared jobs holds a job exactly if one of its own scans answered OK earlier in the run. |
| `PipelineTheorems.ScanGate` | security_scanner/worker.py:115-170 | No job is clean, processing or completed, has an image task, a stored derivative or a completion webhook, before a scan of that job answered OK, over all redeliveries and interleavings. |
| `PipelineTheorems.TasksNameTheirJob` | api/main.py:100-124 | Every scan and image task names a committed job whose file row has the task's key, and the key's stem as upload id. |
| `PipelineTheorems.DefensiveBranchesAreDead` | image_processor/worker.py:81-95 | The branches for a missing job or row and for a hash mismatch never run, and a unique match of the scanner's lookup is the job's own row. |
| `PipelineReports.ScanReportsComeTrue` | security_scanner/worker.py:172-203 | Once a failure report is published the message goes where the report says, whether the worker still gives it back or dies first; the report of a dropped connection is true exactly if the delivery was not the last. |
| `PipelineWitness.FalseReport` | security_scanner/worker.py:172-177 | There is a run in which "queued_for_retry" is reported on the fourth delivery and the message is then dead-lettered. |
| `PipelineReports.ImageReportsComeTrue` | image_processor/worker.py:152-160 | Once a report is published, dead-lettering follows if it says dead letter, and redelivery if it says retry, whether the worker still gives the message back or dies first. |
| `PipelineContent.RenderedIsScanned` | image_processor/worker.py:102-104 | What the image worker reads for a task, a scan of that task had read before and then answered OK for, in every run; and the content is the one that was scanned if and only if the last upload of the key in between, if any, brought that content. |
| `PipelineContent.OneContentSuffices` | api/main.py:97-98 | If all uploads of a key bring one content, its object never changes content once it has one. |
| `PipelineContentWitness.RenderedUnscanned` | api/main.py:65-98 | There is a run in which an upload with the same digest is stored between the read of the scanner and that of the image worker, which then reads other content. |
| `PipelineBounds.WorkIsBounded` | shared/src/shared/broker.py:74-83 | One scan task causes at most 4 scan deliveries, no more image tasks than scan deliveries, and at most 16 image deliveries, over every schedule. |
| `PipelineInvariant.StepKeeps` | security_scanner/worker.py:68-203 | Every event of every handler keeps the invariant of rows, messages and handlers, and undoes none of what is kept for good. |
| `PipelineCluster.Cluster.MoveToQuarantine` | shared/src/shared/storage.py:93-115 | Copy, head, delete under interference: at no moment is the object in neither bucket, and when the move ends the object is not in the uploads bucket. |
| `PipelineCluster.Cluster.InfectedBranch` | security_scanner/worker.py:131-144 | When the branch returns, the file is in quarantine and the webhook is published; in between the object was gone from uploads, the job row said quarantined, and so did the bucket of the file row, unless the session had read that value before and did not write it. |
| `PipelineCluster.Cluster.CommitQuarantine` | security_scanner/worker.py:133-135 | The commit gives the job row the status quarantined and the file row the bucket quarantine, the latter only if the session had read another value, and touches no other row. |
| `PipelineCluster.Cluster.CleanBranch` | security_scanner/worker.py:146-170 | The type in the file row decides: .png and .jpeg go to the image worker, anything else is completed, and the job row says so; when the branch returns, the task or the webhook of this delivery is published, and the job had been cleared. |
| `PipelineCluster.Cluster.SaveFailure` | security_scanner/worker.py:28-47 | job_transaction writes queued_for_retry into the job row for a dropped connection and failed for anything else, unless the session knows that status, and passes the exception on; if writing fails, that exception goes on instead. |
| `PipelineCluster.Cluster.Fail` | security_scanner/worker.py:172-203 | Unless the process dies the message ends rejected, if the file is too long, or returned to the broker, which drops it the fourth time.  A report that is published is the one for the failure and the delivery, and one that says dead letter comes after the webhook.  If nothing else raises, the original failure is the one handled, only a file that is too long is rejected, and anything else is reported. |
| `PipelineCluster.Cluster.ScanFile` | security_scanner/worker.py:68-203 | A run of the handler takes only steps of the machine.  If it ends normally its message is acknowledged, clamd has answered what the outcome says, and the rows have said scanning, then clean or infected, then quarantined or completed; it gives back or rejects its message only after something raised, and rejects it only if clamd refused the file. |
| `PipelineCluster.Cluster.StoreAll` | image_processor/worker.py:130-138 | The loop stores all six derivatives, while other workers run between any two uploads. |
| `PipelineCluster.Cluster.ProcessImage` | image_processor/worker.py:61-160 | A run that ends normally has read the object of a cleared job, stored the six named derivatives, and acknowledged its message; the job row has said processing and completed and the file row processed.  A run that raises has returned its message to the broker, only after something raised, and with a report if publishing works. |
| `PipelineCluster.Cluster.CommitProcessed` | image_processor/worker.py:139-141 | The commit gives the job row the status completed and the file row the bucket processed, the latter only if the session had read another value, and touches no other row. |
| `PipelineCluster.Cluster.LookForDuplicate` | api/main.py:75-95 | An upload is answered with an earlier job only if that job is of the same digest and developer and not infected, quarantined, failed or queued for a retry; it goes on only if there is no such job, or one that is one of these. |
| `PipelineCluster.Cluster.UploadFile` | api/main.py:51-139 | 400 exactly for a type that is not one of six or a content that does not match; an accepted upload has found, before it had rows, no job of its digest and developer or one that is infected, quarantined, failed or queued for a retry, has stored its object, committed its two rows as they should be, and published one more task that names them; 500 only after an exception. |
| `Retry.BackoffRange` | dispatcher/utils/retry.py:13-22 | For every attempt and jitter the delay lies between four and six fifths of 2000 times a power of two, capped at 300000, and both ends are reached; a negative attempt has no delay. |
| `Retry.BackoffGrows` | dispatcher/utils/retry.py:13-22 | Delays strictly increase whatever the jitters if and only if the attempt is at most 6, when the next raw delay is not above the cap. |
| `Retry.RetriesKeepThePayload` | dispatcher/utils/retry.py:25-46 | Along a chain of retries nothing changes but the attempt, which counts them, and the dead letter says how many attempts were made, when, and why. |
| `DispatcherBounds.DispatchTerminates` | dispatcher/orchestrator/processor.py:20-66 | Whatever crashes and whatever the endpoint answers, one event causes at most 84 POSTs and no more than 504 events of its run have an effect; 20 and 120 if it starts as a second attempt, 4 and 24 with any other. |
| `DispatcherRuns.PayloadsSurvive` | dispatcher/utils/retry.py:25-46 | In every run, crashes included, each message carries the event with some number of retries as its attempt and nothing else changed, and each dead letter is the one for some number of retries. |
| `DispatcherRuns.RefusalsAreLost` | dispatcher/orchestrator/delivery.py:9-14 | In every run without a retryable outcome there is one message and at most 4 POSTs; if every POST is answered 430 to 499 or below 200, the event is never delivered, never acknowledged, and gets no dead letter of the dispatcher. |
| `DispatcherWorstCase.TheBoundIsReached` | dispatcher/orchestrator/processor.py:50-60 | There is a run with exactly 84 POSTs. |
| `DispatcherWorstCase.RefusedEventsAreDropped` | dispatcher/orchestrator/processor.py:61-66 | There is such a run without a crash that makes 4 POSTs, and at its end the broker has dropped the message. |
| `DispatcherChain.OneOutcome` | dispatcher/orchestrator/processor.py:20-66 | While no worker dies, live messages, deliveries, dead letters and messages dropped by the broker add up to one. |
| `DispatcherChain.PostsAreFew` | dispatcher/orchestrator/delivery.py:4-14 | Then there are at most 3 messages and 12 POSTs; if nothing but DispatchErrors is raised, at most 3 POSTs, and the broker drops nothing. |
| `DispatcherChain.ChainsKeepThePayload` | dispatcher/utils/retry.py:25-46 | While no worker dies the retries form a chain: every message carries the event unchanged with its place in the chain as attempt, and a dead letter's attempts_made is the length of the chain. |
| `DispatcherNode.Node.HandleDispatchError` | dispatcher/orchestrator/processor.py:50-60 | A retryable error of the first or second attempt publishes the next attempt, any other a dead letter, unless publishing fails; a retryable error of a negative attempt raises. |
| `DispatcherNode.Node.ProcessWebhook` | dispatcher/orchestrator/processor.py:20-66 | Unless the process dies the status code decides: 2xx is delivered; 300 to 428 a dead letter; 429, 500 and above and timeouts the next attempt while fewer than three were made, and then a dead letter; anything else goes back to the broker, and so does an event that could not be published.  The handler takes exactly the events listed for that outcome, among them one POST at most, and its message is acknowledged or given back accordingly. |
| `TtlCache.Staleness` | gateway/cache/api_key_repo.py:40-54 | With fills of at most `l` seconds, what the cache shows was the true value within the last `ttl + 2l` seconds, and within `ttl + l` if fills do not overlap. |
| `TtlCache.StalenessIsTight` | gateway/cache/api_key_repo.py:40-44 | For fills shorter than the time to live and every smaller bound there is a run that shows a value last true longer ago. |
| `TtlCache.LifeSinceBirth` | dispatcher/cache/webhook_repo.py:14-20 | In any run a hash shows what HSET wrote last since it was created, and lives until the last EXPIRE since then runs out, for ever if there was none. |
| `TtlCache.DeadFillsNeverExpire` | dispatcher/cache/webhook_repo.py:14-18 | A fill that dies between HSET and EXPIRE leaves a value that is shown however long ago it changed. |
| `RateLimit.CounterIsExact` | gateway/cache/api_key_repo.py:6-34 | If labels are at most 100 seconds old, each charge is admitted exactly if it is among the first `limit` of its window, and the script returns the true count. |
| `RateLimit.LateLabelsLoseTheCounter` | gateway/cache/api_key_repo.py:18-34 | For every longer delay there is a run that admits two calls in a window with limit 1. |
| `RateLimit.WindowsAreFair` | gateway/cache/api_key_repo.py:6-20 | With a constant limit a window admits exactly the smaller of limit and charged calls; with a changing one no more than its largest value. |
| `RateLimit.BurstsAreBounded` | gateway/cache/api_key_repo.py:10-20 | In no stretch of an hour are more than twice the limit admitted with exact labels, three times with labels up to 100 seconds old. |
| `RateLimit.BurstsReachTheBound` | gateway/cache/api_key_repo.py:10-20 | For every limit and every stretch, however short, there is a run that admits twice the limit in it. |
| `RateLimit.LateLabelsTripleTheBurst` | gateway/cache/api_key_repo.py:10-20 | For every limit and every delay above 0, however short, there is a run that admits three times the limit within an hour, so twice the limit is the bound only for exact labels. |
| `RateLimit.RevocationLag` | gateway/handlers/file.py:21-38 | Every charge was decided by a record that was true within 300 seconds and two fills, so a key revoked for good is not served after that. |
| `GatewayHandler.Node.CheckAndIncrement` | gateway/cache/api_key_repo.py:27-34 | The answer says whether the record is unknown, revoked, or known; only a known record that is not revoked is charged, once, in the hour of the label, with the record that was there, and admitted exactly if the count is within its limit; the first call of a counter gives it 3700 seconds. |
| `GatewayHandler.Node.GetContext` | gateway/handlers/file.py:16-45 | A call that returns was counted once and admitted, a 429 counted once and not admitted, a 401, a failed lookup and a recursion error not counted.  Developer and plan are those of the cached record, and stood together in the auth service within the last 300 seconds and two fills; if no await takes 100 seconds two levels are enough; the developer is known after a fill, and on a hit if the record did not expire within two awaits. |
| `GatewayHandler.DeveloperIsKnown` | gateway/handlers/file.py:21-45 | A request that would be admitted learns its developer on every schedule if and only if the cached record does not expire within the two awaits. |
| `GatewayHandler.DeveloperCanBeLost` | gateway/handlers/file.py:40-45 | For every length of an await there is a run that admits a request and answers it without developer and plan. |
| `WebhookConfig.Resolver.GetWebhookConfig` | dispatcher/orchestrator/webhook_config.py:15-30 | What is returned was the configured value within the last 600 seconds and two fills; a missing configuration and a failed fill are told apart; two levels are enough if no await takes 200 seconds. |
| `AuditLog.HandleRefines` | logger_service/worker.py:43-62 | One iteration of the batching loop does, up to a flush, what the logger without batches does. |
| `AuditLog.BatchingRefines` | logger_service/worker.py:41-62 | Over every schedule of publications, deliveries and iterations the batching logger, once flushed, has the same table in the same order and the same queue as the one without batches. |
| `AuditLog.AckedIsStored` | logger_service/worker.py:12-26 | If the books balance, every acknowledged message has its row in the table. |
| `AuditLogger.Worker.ProcessBatch` | logger_service/worker.py:12-26 | The table gains the batch exactly if the commit took place; then one ack per message, or on an exception one return per message, each up to the moment of death. |
| `AuditLogger.Worker.HandleNext` | logger_service/worker.py:43-62 | A row is buffered, and the fifth is stored with the four before it, whose messages are acknowledged, or given back if the commit raised; a malformed message is dead-lettered.  Unsettled deliveries stay exactly the buffer and the inbox, and rows without an acknowledged message appear exactly if a flush was not clean. |
| `AuditLogger.Worker.NeverStalls` | logger_service/worker.py:36-60 | When the iterator has nothing to give, the unsettled deliveries are as many as the buffer holds, fewer than five, so the prefetch window has room. |
| `AuditLogger.Worker.AuditLoop` | logger_service/worker.py:30-73 | However the loop ends, nothing stays unsettled, every flush but the last is of five rows, and the table has gained exactly the rows of the messages acknowledged meanwhile if and only if no flush separated a commit from its acks; if the worker lives and every commit succeeds, table and queue are those of the logger without batches, but for what is given back at the end. |
| `Orientation.RotationInverts` | image_processor/worker.py:36-58 | For every image and every EXIF map with tag 274 from 1 to 8, the result is the picture that section 8 of TIFF 6.0 says the stored image depicts, and no other; width and height swap exactly for 5 to 8; without the tag, or with another value, the image stays as it is. |
| `Orientation.GetData` | image_processor/worker.py:115 | The data are the pixels in row-major order. |
| `Orientation.PutData` | image_processor/worker.py:115 | One pass over the data puts each into its row and column. |
| `Orientation.Refill` | image_processor/worker.py:114-115 | The clean image has every pixel where the old one has it. |
| `RefreshTokens.TokensRotate` | auth_service/routes/auth.py:105-145 | Over every sequence of requests a session has at most one token that is not revoked, no token is accepted twice, and the developer of a token exists. |
| `RefreshTokens.ClosedForGood` | auth_service/routes/auth.py:140-163 | Revocation is permanent, and a session without an open token, by logout or because issuing failed after the revocation, stays closed and is granted no refresh. |
| `RefreshTokens.GrantedInTime` | auth_service/routes/auth.py:112-138 | Over every sequence of requests a refresh is granted exactly for a token that is there, not revoked and not expired at that time, and whose developer is active then. |
| `RefreshTokens.Service.IssueFor` | auth_service/routes/auth.py:31-60 | All or nothing: either the tables stay as they were, or the pending rows and one new open token of the session are committed; an exception after the commit answers 500 with both in place. |
| `RefreshTokens.Service.RegisterDeveloper` | auth_service/routes/auth.py:64-82 | 400 exactly for a taken email; a registration that fails before its commit leaves the tables unchanged. |
| `RefreshTokens.Service.LogIn` | auth_service/routes/auth.py:86-102 | 401, 403 and a new session exactly in their cases. |
| `RefreshTokens.Service.RefreshToken` | auth_service/routes/auth.py:106-145 | A token that is not revoked or expired, of an active developer, is revoked and replaced in its session, or the session ends if issuing fails, and no other token changes; if the revocation cannot be committed the answer is 500 and nothing changes; anything else is 401 and changes nothing. |
| `RefreshTokens.Service.LogOut` | auth_service/routes/auth.py:150-167 | The token of the cookie is revoked if it exists, and nothing else changes; if that cannot be committed the answer is 500 and it stays open. |

## Left out

- PipelineCluster.Cluster.LookForDuplicate: any earlier job with the digest may be the one found; the code takes the one updated last, and rows have no timestamps here.
- PipelineCluster.Cluster.ProcessImage: a run that ends by MemoryError, CancelledError or KeyboardInterrupt is acknowledged like a good one, and no result is promised for it.
- Orientation.RotationInverts: a flip or quarter turn is what it does to pixels; how Pillow resamples and encodes is not part of this model.
- RefreshTokens.Service.LogIn: a password matches if it is equal to the stored one; hashing is not part of this model.
- AuditLogger.Worker.HandleNext: a message body is one entry; lists, which nobody here publishes, are not modelled.
- DispatcherNode.Node.ProcessWebhook: the error text in a dead letter is a constant, and an attempt that is no number counts as the first; the code would raise a TypeError for it.
- The value `uploads` of the bucket column promises nothing: between the delete and the commit it names a bucket the object has left, and a crash leaves it that way.
- Tasks whose body cannot be parsed; and the second settling that `message.process` may attempt after the explicit nack for a file that is too long.
- Columns and arguments that nothing decides on: `result_data`, file names, the scanner's fallback for a missing developer_id, and the variables of the failure webhook that may still be unbound.
- Audit messages as events; that publishing one can raise is kept, as an exception of the effect next to it.
- What a webhook looks like on the wire: JSON text, headers, HMAC, ids.  A payload is a map of opaque values.
- Webhook events without developer_id or with unreadable JSON; the branch for them raises itself.
- Floating point in the backoff; jitter and delays are real numbers.
- Two refreshes of one token at the same time, and two uploads that look for duplicates at the same time; nothing locks them out, and nothing is claimed of them.
- The order of a queue; any ready message may be the next.
- What lies behind the named steps: AMQP, SQL, S3, Redis, gRPC, HTTP and clamd themselves.
- Migrations, generated code, JWT, proxying, logging, the UI and deployment files, which would only add easy members.
