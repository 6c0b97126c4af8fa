# Jobilee: the generation pipeline and what it depends on

This project models the parts of Jobilee where several processes change shared state in small steps, and
proves what their comments and tests promise over every interleaving of those steps.

| module | what it models |
|---|---|
| `Tasks`, `Worker`, `TaskFaults` | one AI generation task: the creating request, the queue, the attempts of the worker, the row, the event channel |
| `Billing`, `Quota` | the daily cap in expiring Redis counters, alone and shared by many tasks |
| `Owners`, `Versions`, `Tailor`, `HttpClient`, `Generation` | what a finished task leaves in the services that own the content; version allocation against a unique index; splitting a tailoring result; the retrying HTTP client; the model's continuation loop |
| `Observer`, `Browser`, `Sse` | watching a task: stream handler, event bus, browser with its polling fallback, and the hand-written stream parser |
| `RateLimit`, `RouteLabel`, `Sanitizer` | the gateway's rate limiter and metric labels; the logger's walk over object graphs |
| `Files`, `Jobs` | uploads kept in step between storage and table; check-then-act ownership in the jobs service |
| `Text`, `Sets`, `Wrappers` | searching, trimming and joining strings; sizes of sets; options and results |

Code that computes is a function with lemmas about it. Code that changes state is a class or a method; its
contract says what it returns and that the whole call is a run of the module's step relation, with other
actors' steps allowed between any two of its own. What is proved of all runs therefore holds of the code.

## What is assumed of the world

* A job lock is exclusive: one attempt at a time works on a task. A crash ends the attempt, and the queue may
  or may not run the job again.
* A database call that throws did not take effect, with the exceptions modelled: a delivery may fail after the
  owner carried it out, `enqueue` may throw although the job was stored, and in `Files` every storage call and
  row write may throw after taking effect.
* A *quiet* run has no crash and no lost enqueue acknowledgement, and the worker's reading of the row, its RUNNING
  and FAILED updates and all its publishes succeed. Generating, storing the result, delivering, the SUCCEEDED
  update, creating the row, queueing and refunding may still fail.
* A Redis command or MULTI block is one step, and so is choosing a key and the first command on it, except in
  `RateLimit`, where reading the clock and counting are apart. There is one clock, and it does not go back.

## What the code does not do

These are proved, each with the exact condition under which it goes wrong where there is one:

* A SUCCEEDED or FAILED event that cannot be published reopens a row that was already terminal, and so do a crash
  after the row was settled and a job that was stored although queueing it threw.
* If `enqueue` throws after the job was stored, the charge is given back by the request and, when the task then
  fails, a second time by the worker; and so it is when the worker dies after its refund and is run again.
* A call outside the worker's try block that throws on the last attempt leaves the row QUEUED or RUNNING for good.
* A refund after midnight lowers the new day's counter: as long as none has, a user's day can still be overrun
  exactly when the user's unrefunded charges of earlier days outnumber the day's rejections. Charges that slip in
  between such a refund's DECR and DEL are forgotten, and a request whose EXPIRE throws fails with its unit charged.
* Five retries do not serve a writer that has five or more rivals for the same user and job.
* Two simultaneous `changeStage` calls to the same stage both append it to the history. A history repeats a stage
  exactly when some move is written while the job is already there.
* A gap analysis that itself contains the second heading is cut there, so the split loses text.
* Requests that read the clock in one window and are counted after the counter has expired are admitted over the
  limit; the reset header leaves its range when the second clock reading is in a later window.
* A row insert that commits but throws leaves, after the clean-up, a row without its object.
* The logger calls a shared object circular although nothing is.

The comment above the worker's `process` says that a client that sees SUCCEEDED can rely on the content being
persisted. For tailored resumes this holds for good. An artifact was persisted, but by then the user or another task
may have overwritten it, or the job may have been removed with it.

## Model

| member | source | states |
|---|---|---|
| Tasks.ResultIsWriteOnce | services/ai-service/src/queue/generation.worker.ts:99-126 | Over every run, crashes and failing calls at any step included: a stored result never changes, the model is never called again once a result is stored, and nothing an owner carried out is taken back |
| Tasks.DeliveredBeforeSuccess | services/ai-service/src/queue/generation.worker.ts:73-126 | In every reachable state of every run: a SUCCEEDED row, and every SUCCEEDED event ever published, carries a text the owner has already carried out |
| Tasks.QuietStep | services/ai-service/src/queue/generation.worker.ts:82-169 | Each quiet step keeps the invariant that ties row, queue, attempt count, events, refunds and deliveries together |
| Tasks.TerminalIsAbsorbing | services/ai-service/src/queue/generation.worker.ts:136-168 | On a quiet run no step changes a terminal row or adds an event after the terminal one |
| Tasks.TerminalStays | services/ai-service/src/queue/generation.worker.ts:136-168 | The same over whole runs: a terminal row is final |
| Tasks.QueueAgreesWithRow | services/ai-service/src/queue/queue.service.ts:28-37 | Quiet runs: the queue gives up only on a FAILED row and completes only a SUCCEEDED one, each told by exactly one terminal event, the last; it never holds a settled row for another attempt, never starts more than AI_MAX_ATTEMPTS attempts; at most one refund, and only with the row FAILED or the creation abandoned |
| Tasks.FuelDrops | services/ai-service/src/queue/generation.worker.ts:136-167 | Every quiet step uses up some of a task's bounded supply of steps |
| Tasks.NeverStuck | services/ai-service/src/queue/generation.worker.ts:82-169 | Some step is possible until creation and queue have both ended |
| Tasks.RunsAreBounded | services/ai-service/src/queue/generation.worker.ts:136-167 | Every quiet run is finite, whatever the model and the owners answer |
| Tasks.StoppedRunsHaveEnded | services/ai-service/src/queue/generation.worker.ts:82-169 | A quiet run that can go no further and had queued its task ends with a terminal row and exactly one terminal event saying what the row says |
| Tasks.DuplicationIsBounded | services/ai-service/src/queue/generation.worker.ts:120-148 | A tailoring task is delivered at most AI_MAX_ATTEMPTS times; if it succeeded, exactly once more than the number of attempts that failed after their delivery was carried out, so exactly once when there were none |
| Tasks.DeliverEffect | packages/http-client/src/client.ts:113-228 | What one delivery can do to a task: the result is delivered once or not at all for a POST, at most three times for a PUT, at least once if the call succeeds |
| TaskFaults.UnpublishedSuccessIsUndone | services/ai-service/src/queue/generation.worker.ts:122-155 | If the SUCCEEDED event cannot be published, the row can still leave SUCCEEDED |
| TaskFaults.UnpublishedFailureReopens | services/ai-service/src/queue/generation.worker.ts:151-155 | If the FAILED event cannot be published, the row can leave FAILED exactly when the queue has an attempt left |
| TaskFaults.LostAcknowledgementRefundsTwice | services/ai-service/src/tasks/tasks.service.ts:41-53 | When queueing throws, the charge can be given back twice exactly when the queue had stored the job all the same |
| TaskFaults.LostAcknowledgementReopens | services/ai-service/src/tasks/tasks.service.ts:41-53 | When queueing throws, the row the request then marks FAILED can be reopened exactly when the queue had stored the job all the same |
| TaskFaults.CrashAfterSettlingReopens | services/ai-service/src/queue/generation.worker.ts:122-167 | If the attempt dies after the row became terminal, the row can change exactly when the queue runs the job again |
| TaskFaults.CrashAfterRefundRefundsTwice | services/ai-service/src/queue/generation.worker.ts:155-167 | If the worker dies after its refund, the charge can be given back again exactly when the queue runs the job again |
| TaskFaults.UncaughtThrowStrands | services/ai-service/src/queue/generation.worker.ts:86-97 | If reading the row, announcing it or marking it FAILED throws, the queue can give up on a row still QUEUED or RUNNING exactly when no attempt is left |
| Worker.GenerationTask.Create | services/ai-service/src/tasks/tasks.service.ts:26-57 | Charge, record, enqueue, compensate: a run of task steps; which outcome follows from which failing call, and the row, job and refunds it leaves |
| Worker.GenerationTask.Process | services/ai-service/src/queue/generation.worker.ts:82-169 | One attempt is a run of task steps. With the row read and announced, the outcomes of the calls decide: all well, it returns with the row SUCCEEDED, its text delivered and both events out; throttled or unreachable providers, provider errors of 500 and above or without a status, unexpected throws, and deliveries lost or answered 429 or 500 and above are thrown for another attempt while one is left, the row RUNNING, nothing told or refunded; everything else, and anything on the last attempt, is unrecoverable, if the FAILED calls succeed, with the row FAILED with the message for that failure, told, and refunded if the refund succeeds. A read that throws changes nothing; a stored result is reused |
| Worker.GenerationTask.ObtainResult | services/ai-service/src/queue/generation.worker.ts:100-118 | Reuses the stored result without calling the model, otherwise calls it once and returns only what it has stored |
| Worker.GenerationTask.DeliverTo | services/ai-service/src/delivery/delivery.service.ts:41-73 | Success means that the owner carried out this very text; how it ends is told by kind and status of the last reply: a POST has one, a PUT up to three until one is not lost, 429 or 500 and above |
| Worker.GenerationTask.SettleFailure | services/ai-service/src/queue/generation.worker.ts:151-167 | The final failure is recorded, told and refunded once, in that order, and only then made unrecoverable |
| Worker.GenerationTask.RunJob | services/ai-service/src/queue/queue.service.ts:28-37 | Queue and worker together, with succeeding updates: attempts go on exactly while they end in a passing failure and fewer than AI_MAX_ATTEMPTS were made; the job is completed exactly if the last one went well, with a SUCCEEDED row, its text delivered and nothing refunded, and otherwise given up with a FAILED row with the message of the last failure, refunded at most once; the channel holds exactly one terminal event, the last, saying what the row says |
| Billing.RefundIsAlwaysDue | services/ai-service/src/tasks/tasks.service.ts:42-44 | Whenever request or worker gives a charge back, that charge was admitted and has not been given back before |
| Billing.UnrefundedTasksWithinCap | services/ai-service/src/tasks/tasks.service.ts:26-54 | Over any interleaving of quiet tasks, counter commands and clock ticks: a user's unrefunded tasks of a day exceed the cap by at most the refunds of earlier days' charges that landed on that day and the units that overtaken deletions forgot |
| Quota.SecondsUntilUtcMidnight | services/ai-service/src/quota/quota.service.ts:76-84 | The expiry is at least a minute and never before midnight UTC, and beyond a minute not a full second after it |
| Quota.TodayIsLive | services/ai-service/src/quota/quota.service.ts:36-41 | A counter never expires during its own day |
| Quota.QuotaBound | services/ai-service/src/quota/quota.service.ts:28-56 | Over every run: a day's admitted charges not given back exceed the cap by at most the late refunds that landed on that day and the units that deletions took from counters no longer negative |
| Quota.NoLateRefundKeepsTheCap | services/ai-service/src/quota/quota.service.ts:28-56 | Over every run, for every user and day on which no refund of an earlier day's charge landed: open charges are within the cap, no deletion is due, nothing was forgotten, and today's counter is exactly the open and the rejected charges |
| Quota.UndisturbedRefundsForgetNothing | services/ai-service/src/quota/quota.service.ts:52-56 | When no charge slips in between DECR and DEL of a refund on a user's day: nothing of that day is forgotten, and its open charges exceed the cap by at most its late refunds, whatever happens to other users and days |
| Quota.RemainingIsAPromise | services/ai-service/src/quota/quota.service.ts:58-61 | Of a user's next n charges, made at once, exactly min(n, remaining) are admitted |
| Quota.OverrunExactly | services/ai-service/src/quota/quota.service.ts:28-74 | From every reachable state, for every user whom no late refund has reached today: before the day is over some run leaves more open charges than the cap if and only if the user's unrefunded charges of earlier days outnumber today's rejections |
| Quota.RacingDeleteForgetsCharges | services/ai-service/src/quota/quota.service.ts:52-56 | For every cap and user, a run with one late refund whose DEL is overtaken, and 2 * cap + 1 open charges |
| Quota.QuotaService.Consume | services/ai-service/src/quota/quota.service.ts:28-49 | A run of counter steps that admits exactly if the user had generations remaining at the count, whatever runs before the expiry is set; throws exactly when a missing expiry cannot be set, and the unit is charged all the same; alone, the counter is one higher and ends with an expiry, the one it had or one at the end of its day, and no other counter changes |
| Quota.QuotaService.GiveBack | services/ai-service/src/quota/quota.service.ts:52-56 | A run of counter steps: the charge counts as given back on the current day; a counter above zero loses one unit and nothing else happens, one at or below zero reads zero afterwards, whatever runs in between |
| Owners.TailoredResumeIsKept | services/ai-service/src/delivery/delivery.service.ts:57-70 | Many tasks, users' own posts, every run, crashes included: a tailoring task that shows SUCCEEDED has a row of its own for its user and job whose gap analysis and content are the two halves of its text, as told by the headings; there it stays in every later state, and the versions stay contiguous |
| Owners.ArtifactIsThereExactly | services/ai-service/src/delivery/delivery.service.ts:48-56 | A research or interview task that shows SUCCEEDED wrote its result into its job's slot, and the slot holds it, as written by that task, exactly when the slot was not written by a user or a task, nor its job removed, since |
| Owners.RemovalBeforeSuccess | services/jobs-service/src/jobs/jobs.service.ts:79-83 | From every reachable state between delivery and the SUCCEEDED update, removing the job leads to a SUCCEEDED task without an artifact |
| Owners.VersionsPerTask | services/ai-service/src/delivery/delivery.service.ts:57-70 | When a tailoring task's own steps are quiet, whatever other tasks do: it adds at most AI_MAX_ATTEMPTS rows to the versions table, and if it succeeded exactly one more than its late failures |
| Versions.CollisionMeansRival | services/resume-service/src/resume/resume.service.ts:69-90 | The unique index refuses an insert exactly when another call's row for the same user and job was committed between this call's read and its insert |
| Versions.CommitsAreNext | services/resume-service/src/resume/resume.service.ts:70-86 | A call that is not refused commits the version one above the latest, whatever happened since its read, so read and insert amount to one step |
| Versions.RunKeepsInv | services/resume-service/src/resume/resume.service.ts:65-92 | Any number of writers: every run only appends rows, never changes one, and keeps the versions contiguous and each writer's bookkeeping right |
| Versions.VersionsAreExactlyOneToN | services/resume-service/src/resume/resume.service.ts:59-91 | The versions stored for a user and job are exactly 1..n, each once, ascending in commit order |
| Versions.WinnersDiffer | services/resume-service/src/resume/resume.service.ts:65-91 | Successful calls for the same user and job got different versions, and each one's row holds what it sent |
| Versions.ListingCountsDown | services/resume-service/src/resume/resume.service.ts:51-57 | The listing is n, n - 1, ..., 1, the rows as committed |
| Versions.ConflictNeedsFiveRivals | services/resume-service/src/resume/resume.service.ts:69-91 | A call that ends in CONFLICT was beaten by at least five other calls, each of which committed after its first read |
| Versions.FewRivalsNeverConflict | services/resume-service/src/resume/resume.service.ts:69-91 | A call with at most four rivals for its user and job, so every call where at most five write, never ends in CONFLICT, however many calls for other jobs there are |
| Versions.FewRivalsAllSucceed | services/resume-service/src/resume/resume.service.ts:69-91 | When no database call fails, such a call that has finished has succeeded |
| Versions.ConflictExactly | services/resume-service/src/resume/resume.service.ts:69-91 | From any table and any calls about to start, a call can end in CONFLICT, without a failing database call, if and only if at least five other calls are for the same user and job |
| Versions.ResumeService.CreateTailored | services/resume-service/src/resume/resume.service.ts:65-92 | Under any interleaving and any throwing call: a run of the system above that adds its own new row exactly when it succeeds, and none otherwise |
| Tailor.SplitOfDocument | packages/shared-types/src/ai.ts:82-97 | What splitting a two-section document yields for any gap text and any content: both trimmed, or, if the gap text holds the second heading, the text before that heading and all that follows it |
| Tailor.RoundTripExactly | packages/shared-types/src/ai.ts:82-97 | Splitting gives back the trimmed gap text and content exactly when the gap text does not contain the second heading; the content may repeat either heading |
| Tailor.SplitExactly | packages/shared-types/src/ai.ts:87-97 | For every text: without the resume heading it is all content, without blank ends; with it, what stands before its first occurrence, less the first gap heading, and what stands after it, each without blank ends; this and nothing else |
| HttpClient.Request | packages/http-client/src/client.ts:113-232 | By status number: every reply before the last was lost, 429, or 500 and above; without a retries option a GET, PUT or DELETE is sent at most three times and a POST or PATCH once, and it stops earlier only at another kind of reply; what the caller is told follows from the last reply; each wait is the drawn share of its ceiling, within five seconds |
| HttpClient.RequestCommits | packages/http-client/src/client.ts:113-228 | A POST is carried out at most once per request, an idempotent method (section 9.2.2 of RFC 9110) at most three times, and a request that succeeds at least once |
| HttpClient.Backoff | packages/http-client/src/client.ts:248-252 | A wait is the drawn share of the attempt's ceiling, never negative and never above it |
| HttpClient.CeilingDoubles | packages/http-client/src/client.ts:248-252 | The first ceiling is the base, each next one twice the one before, and none is above five seconds |
| Generation.Generate | services/ai-service/src/generation/generation.service.ts:57-118 | For every script of replies: at most six calls, call k sends the prompt followed by the earlier paused turns in order; a result is the non-empty text that the text blocks of the first turn not paused print line by line, without blank ends, charged with the tokens of all calls; a refusal, an empty answer, a throw and six paused turns each give their own error |
| Generation.AnswerIsPrinted | services/ai-service/src/generation/generation.service.ts:97-101 | Filtering, joining and trimming the blocks yields every text block on lines of its own, in order, without blank ends |
| Observer.OutcomeIsTheRows | apps/web/src/api/ai.ts:95-181 | Over every interleaving of a quiet task, the bus, the handler, disconnects, polls and cancellation, missed events included: a result or task failure the browser reports is the row's own terminal result or error, and it reports cancellation only when asked |
| Observer.ReportedResultWasDelivered | services/ai-service/src/queue/generation.worker.ts:73-80 | Over every run, crashes and faults of every kind included: a result the browser reports is the stored one, and its owner has carried it out |
| Observer.HandlerIsTidy | services/ai-service/src/tasks/task-stream.controller.ts:34-91 | In every reachable state: the replay is the first frame, a terminal frame is the last and ends the stream, an open stream is subscribed, and an ended one that had subscribed has unsubscribed and cleared its timers exactly once |
| Observer.StatusesNeverGoDown | services/ai-service/src/tasks/task-stream.controller.ts:52-79 | Along a stream, statuses never go down in the order QUEUED, RUNNING, terminal |
| Observer.MissedEventNeverStreams | services/ai-service/src/tasks/task-stream.controller.ts:52-79 | A terminal event published before the subscription is never seen on that stream |
| Observer.EndedTaskIsStillObserved | apps/web/src/api/ai.ts:98-107 | Even then the browser can get the row's outcome, without a further step of the task |
| Browser.TaskStream.Open | services/ai-service/src/tasks/task-stream.controller.ts:45-79 | Replays the row and subscribes unless it was terminal, as the observed system's step does |
| Browser.TaskStream.CloseStream | services/ai-service/src/tasks/task-stream.controller.ts:66-73 | Only the first close has an effect: unsubscribed and timers cleared once, no frame sent |
| Browser.TaskStream.OnEvent | services/ai-service/src/tasks/task-stream.controller.ts:75-79 | Forwards while open, closes after a terminal event, ignores events once closed |
| Browser.TaskStream.OnHeartbeat | services/ai-service/src/tasks/task-stream.controller.ts:81-85 | Sends a comment on an open stream, as the observed system's step does |
| Browser.AwaitViaStream | apps/web/src/api/ai.ts:140-159 | The first frame that says SUCCEEDED or FAILED decides, with its text or message; it throws exactly when there is none |
| Browser.AwaitViaPolling | apps/web/src/api/ai.ts:161-181 | The first of 400 polls that is cancelled, fails or finds the task SUCCEEDED or FAILED decides, with the row's text or message; 400 that go on are a timeout |
| Browser.UseGeneration.Run | apps/web/src/api/ai.ts:78-135 | Stream first, polling when it had no terminal frame; the state shown and the text returned match how that ended; after a cancellation seen by the first or the second check nothing is shown, and the hook is idle if it was reset |
| Browser.RunReportsTheRow | apps/web/src/api/ai.ts:95-181 | What `run` returns refines the task's row: given the frames, polls and cancellations of any run of the observed system, it ends as that run's browser does, so a reported result or failure is the row's own |
| Browser.RunReportsDelivered | apps/web/src/api/ai.ts:95-181 | Whatever fails or crashes, a result that `run` returns is the stored one, and its owner has carried it out |
| Sse.CutExtends | apps/web/src/api/sse.ts:47-62 | Cutting a text into frames does not depend on how it was chunked |
| Sse.CutRejoins | apps/web/src/api/sse.ts:47-62 | Consumed frames with their separators plus the buffer are the input, and the buffer holds no complete frame |
| Sse.ParsedRaw | apps/web/src/api/sse.ts:64-76 | Each frame the server writes is read back as what it carried; a heartbeat as nothing |
| Sse.ParsedMeans | apps/web/src/api/sse.ts:64-76 | Every frame, not only the server's: its data lines are joined by line breaks in order, its last event line names it, "message" without one; comments and other fields are ignored, and a frame without data is dropped |
| Sse.RoundTrip | services/ai-service/src/tasks/task-stream.controller.ts:45-85 | For every sequence of task frames and heartbeats, every arrived part of it and every chunking: the events yielded are those of exactly the complete frames, in order, data unchanged |
| Sse.AllArrived | apps/web/src/api/sse.ts:47-62 | Once everything has arrived every frame is complete and the buffer is empty |
| Sse.StreamEvents | apps/web/src/api/sse.ts:36-62 | The loop over chunks yields the messages of the whole text's complete frames and keeps its incomplete end |
| RateLimit.WindowIsExact | services/gateway/src/middleware/rate-limit.ts:46-91 | Every run: an identity and class is admitted min(arrivals, limit) times in a window if and only if the window's count started only once or the arrivals fit the limit; otherwise it is admitted over the limit, but never more than the limit for each start |
| RateLimit.PromptWindowIsExact | services/gateway/src/middleware/rate-limit.ts:46-91 | A client whose requests are counted in the windows they chose is admitted exactly min(arrivals, limit) times in each, however late other clients' requests are |
| RateLimit.NoExpiryInsideTheWindow | services/gateway/src/middleware/rate-limit.ts:56-60 | During its own window, such a client's counter is never gone and is the number of its arrivals |
| RateLimit.SlidingBound | services/gateway/src/middleware/rate-limit.ts:46-91 | Such a client is admitted at most twice the limit in any interval of one window's length |
| RateLimit.TwiceTheLimitIsReached | services/gateway/src/middleware/rate-limit.ts:50-52 | That bound is reached within two milliseconds, for every limit, class and identity |
| RateLimit.CountStartsOverWhenLate | services/gateway/src/middleware/rate-limit.ts:51-60 | In any run a key's count starts over exactly when a full window has passed since its last request |
| RateLimit.LateCountOverAdmits | services/gateway/src/middleware/rate-limit.ts:51-60 | For every limit, class and identity, late counting admits twice the limit in one window |
| RateLimit.OthersDoNotMatter | services/gateway/src/middleware/rate-limit.ts:12-22 | Leaving every other client's requests out of a run changes nothing about what happens to a client's own |
| RateLimit.ResetInRange | services/gateway/src/middleware/rate-limit.ts:70-73 | The reset header lies in [1, window] exactly when the clock is still in the request's window |
| RateLimit.RetryAfterIsRight | services/gateway/src/middleware/rate-limit.ts:75-77 | Waiting Retry-After seconds, at least one, leads into a later window; a second less, when more than one is asked for, does not |
| RateLimit.RemainingIsAPromise | services/gateway/src/middleware/rate-limit.ts:70-75 | After any counted request: of the client's further requests that choose the same window and are counted within a window's length, exactly min(their number, the header) are admitted, whatever other requests and ticks come in between |
| RateLimit.RateLimiter.Handle | services/gateway/src/middleware/rate-limit.ts:33-93 | Paths outside /api/ pass untouched. POST, in any case, to register, login or refresh is counted for its address and told the login limit; every other request is counted for its user, or its address if it has none, and told the general limit; the answer says what is left of that limit and refuses exactly what is over it; the window is the one first read, others counted in between |
| Sanitizer.ExpandsOnce | packages/logger/src/index.ts:92-112 | On any graph, cyclic or not, exactly the newly seen objects are expanded, each once |
| Sanitizer.SanitizedIsGood | packages/logger/src/index.ts:92-112 | Objects are expanded only at depths 0 to 7, with their own kind and keys, and at every depth a record's key that is one of the thirteen secret names in any case has only the mark under it |
| Sanitizer.SecretsAreRedacted | packages/logger/src/index.ts:21-37 | Exactly the keys of records are redacted that agree with one of the thirteen names letter by letter up to case, the Kelvin sign counting as k |
| Sanitizer.SanitizedIsWritten | packages/logger/src/index.ts:92-112 | Slot by slot, without the walk: a secret is the mark, every other slot holds what its own value gives when the objects above it and in the slots before it are known, "[circular]" and "[depth-limit]" exactly where due |
| Sanitizer.OutputIsLinear | packages/logger/src/index.ts:92-112 | The output has one node for each slot of each expanded object, so no more than the graph has slots, plus one |
| Sanitizer.UnchangedExactly | packages/logger/src/index.ts:92-112 | A value is logged unchanged exactly when it is JSON within the depth limit, has nothing to redact, and meets no object twice |
| Sanitizer.Sanitize | packages/logger/src/index.ts:91-112 | The procedure over one shared set of seen objects writes exactly that for every value, and adds to the set exactly the objects it expanded, each once |
| Files.EveryRowHasItsObject | services/resume-service/src/files/files.service.ts:41-96 | Over every interleaving, every throwing call and every crash: a row's object is in storage, and is the one uploaded with it, if and only if the clean-up of that very upload did not take it away, which can only happen when writing the row threw although it was written |
| Files.LostInsertBreaksTheRow | services/resume-service/src/files/files.service.ts:55-71 | From every stored upload there is such a run |
| Files.OrphansAreCounted | services/resume-service/src/files/files.service.ts:66-89 | Every object without a row is held by an operation in flight or was left by a counted fault, and there are never more of them than both together |
| Files.QuietStorageMatchesRows | services/resume-service/src/files/files.service.ts:41-96 | With nothing in flight and nothing left behind by a fault, the stored objects are exactly those of the rows whose own clean-up did not take them away |
| Files.OthersLeaveFilesAlone | services/resume-service/src/files/files.service.ts:91-96 | What other users do, at any interleaving, leaves a user's rows and objects as they were |
| Files.FilesService.Upload | services/resume-service/src/files/files.service.ts:41-71 | Succeeds exactly if the type is one of the five, the size at most 10 MiB, and both writes succeed, with the row in the table and, when nothing else ran in between, the very bytes in storage; a row refused leaves neither row nor object, whatever runs in between; rejected files change nothing |
| Files.FilesService.Remove | services/resume-service/src/files/files.service.ts:83-96 | Someone else's file is reported as not found and untouched; after a success the row is gone, and the object unless its removal failed, whatever runs in between; alone, a failed row deletion keeps both |
| Jobs.HistoryEndsInStage | services/jobs-service/src/jobs/jobs.service.ts:32-47 | At any interleaving, a job's history is not empty and ends in the job's stage |
| Jobs.HistoryIsAppendOnly | services/jobs-service/src/jobs/jobs.service.ts:85-97 | While a job exists its history only grows and its owner stays |
| Jobs.NoOrphanRows | services/jobs-service/src/jobs/jobs.service.ts:79-83 | No event or artifact outlives its job, however writes race with the deletion |
| Jobs.OthersLeaveJobsAlone | services/jobs-service/src/jobs/jobs.service.ts:15-22 | Although gate and write are separate steps, nothing other users do touches a user's jobs, histories or artifacts, or adds a job to them |
| Jobs.MovesInTurnNeverRepeat | services/jobs-service/src/jobs/jobs.service.ts:86-97 | When the stage changes of one job do not overlap, its history repeats no stage, whatever else interleaves |
| Jobs.HistoryRepeatsExactly | services/jobs-service/src/jobs/jobs.service.ts:86-97 | In every run, the history of a job that still exists repeats a stage if and only if some move was written when the job was already there |
| Jobs.MoveRepeatsExactly | services/jobs-service/src/jobs/jobs.service.ts:89-96 | A move repeats a stage exactly when, as it is written, the job is already there |
| Jobs.RacingMovesRepeat | services/jobs-service/src/jobs/jobs.service.ts:86-97 | From every state, two requests for one new stage have a run that appends it twice |
| Jobs.JobsService.Create | services/jobs-service/src/jobs/jobs.service.ts:32-47 | The job and its opening history entry appear together |
| Jobs.JobsService.Update | services/jobs-service/src/jobs/jobs.service.ts:62-77 | Not found exactly when not owned at the gate, and then nothing changes; each of the six fields that was sent is taken over and each other one stays; a patch never touches owner, stage or history |
| Jobs.JobsService.ChangeStage | services/jobs-service/src/jobs/jobs.service.ts:85-97 | Success means the job is in the stage, with its entry last unless the gate found it there already, when nothing changes; others may run between gate and write |
| Jobs.JobsService.PutArtifact | services/jobs-service/src/jobs/jobs.service.ts:108-120 | Success means the job exists and this is its artifact of that kind |
| Jobs.JobsService.Remove | services/jobs-service/src/jobs/jobs.service.ts:79-83 | After an owner's removal the job is gone whoever deleted it, with its events and artifacts |
| RouteLabel.LabelIsSegmentwise | services/gateway/src/middleware/observability.ts:81-85 | The two replacement passes together relabel each path segment on its own and leave the rest alone: a leading UUID becomes :id, otherwise the longest leading number :n |
| RouteLabel.SameLabelExactly | services/gateway/src/middleware/observability.ts:76-85 | Two paths share a label exactly when they agree before the first slash, have as many segments, and their segments get the same labels |
| RouteLabel.IdsShareALabel | services/gateway/src/middleware/observability.ts:76-85 | Paths that differ only in whole UUID segments, or in whole numbers, share a label |
| RouteLabel.NoIdLeft | services/gateway/src/middleware/observability.ts:81-85 | No slash of a label is followed by a UUID, told by its digits and dashes, or a digit |
| RouteLabel.LabelIsIdempotent | services/gateway/src/middleware/observability.ts:81-85 | Labelling a label changes nothing |
| RouteLabel.SlashesAreKept | services/gateway/src/middleware/observability.ts:81-85 | A label has as many slashes as its path |

## Left out

- Tasks.DuplicationIsBounded: counts attempts that failed after the owner carried the delivery out instead of deliveries that failed after committing, because a failed SUCCEEDED update also causes a second delivery.
- Tasks.TerminalIsAbsorbing: holds on quiet runs only; `TaskFaults` shows which single faults break it, and when.
- Tasks.StoppedRunsHaveEnded: time is not modelled, so backoff and waiting only appear as steps that have not happened yet.
- RateLimit.WindowIsExact: silent while Redis is down, when the limiter lets everything through by design.
- Quota.QuotaBound: reading the clock for a key and the first command on it are one step, so a command that reaches Redis only after its key has expired is not modelled.
- RateLimit.SlidingBound: needs the client's requests to be counted in the windows they chose, for the reason `RateLimit.LateCountOverAdmits` gives.
- RateLimit.RateLimiter.Handle: the client address is given; choosing it from a forwarded header is not modelled. Method names are upper-cased as ASCII.
- Observer.OutcomeIsTheRows: a task whose terminal row is reopened by one of the faults in `TaskFaults` is not covered, since what was reported may then no longer be what the row says; `Observer.ReportedResultWasDelivered` is what remains.
- Owners.ArtifactIsThereExactly: the fetches of one retried delivery are one step, so other writes do not come between them.
- Observer.EndedTaskIsStillObserved: says that the outcome can be reached, not that the network lets it be.
- Browser.UseGeneration.Run: the phase shown while a task is running and the aborting of the request are not modelled; a stream is given by the frames it delivered; of a later call that clears the shared cancellation flag only that effect is modelled, not the state it shows.
- Sanitizer.UnchangedExactly: Error values, which bypass the walk, invalid dates, holes in arrays and a key named `__proto__` are not modelled; key names are lower-cased only as far as the redacted names need.
- Sse.RoundTrip: text is already decoded, and the JSON of an event is one line from `{` to `}`.
- Files.FilesService.Upload: the size is the length of the buffer, and the file extension in the object key is omitted. Random ids are numbers never used before.
- Two attempts of one job running at once after a stalled lock, and task rows deleted while their job is queued by something other than the modelled code.
- A publish that throws although the event went out, and events lost inside Redis.
- The base resume's upsert and the listings of jobs, files and tasks: single queries.
- `JobsService.getArtifact` and `get`: reads behind the same gate.
- Queue backoff, concurrency and history settings; the model client's own retries; prompts; signed download URLs.
- Access tokens, password hashing, header propagation, proxying and metrics rendering.
