# Verification of the capture-processing service

The service reads capture and business messages from Kafka, downloads pictures, asks a trace
service who is on them, brings business messages and trace results for the same pictures
together through Redis, keeps event records in MongoDB and publishes results. This project
models the parts whose correctness depends on order, retries and concurrency, and proves what
they keep over whole runs. `dafny verify dfyconfig.toml` checks all of it.

How it is built. Code that changes state step by step is modelled twice: as a specification on
values (a step function or a state machine, over which the theorems about runs are proved), and
as a class or a loop with the program's own control flow whose contract ties it to that
specification. Threads are modelled by interleaving atomic steps, or by calls at which other
threads may do anything they are allowed to do. Replies of Redis, MongoDB, Kafka and HTTP
services, clocks and scheduling are parameters, so every theorem holds for all of them. Where a
natural claim is false of the code, the exact condition under which it holds is proved, with a
concrete run that breaks it.

- **Commit watermark** (`PartitionSpec`, `PartitionManager`): the list of one Kafka partition,
  finished out of order by workers, committed and trimmed by a scanner that lets go of the mutex
  in between. A session marks its message DONE exactly when it finishes (`Session`).
- **Picture-wait rendezvous** (`Rendezvous`, `FaultyRuns`, `Correlation`, `PictureWait`,
  `ExpiringValue`, `LockedRendezvous`, `Serialisation`, `ExpiredLeases`, `LeaseGuards`,
  `Acknowledged`, `LeaseLock`, `TimedRendezvous`, `PicWaitKey`, `TraceResult`): parking, releasing and late pick-up at one Redis key;
  first visit by visit, without and with faults (`FaultyRuns` for what is lost or doubled,
  `Correlation` for who gets which result), with a value that expires (`ExpiringValue`); then
  interleaved under a lock whose lease lasts (`LockedRendezvous`, `Serialisation`) or runs out,
  with failures (`ExpiredLeases`, `LeaseGuards`); and at last under the lock on a server with a
  clock (`TimedRendezvous`) and against the commits to Kafka (`Acknowledged`). `Payload` is a message, `Stored` the JSON value at a key.
- **Session workflow** (`Stages`, `SessionSpec`, `StageOrder`, `Session`, `Ownership`): the mutable
  stage chain with the download loop, retries, the plugin that extends the chain and the idempotent
  end; what a run has passed (`StageOrder`); then all sessions at once between queue, threads and
  outstanding requests.
- **Concurrency primitives** (`FifoBuffer`, `ScopeRunner`, `HttpExchange`, `ConnectionPool`,
  `HttpTranscript`): the last three are the chain of asynchronous handlers of an HTTP request, the
  pool they share, and what the callback says against what came.
- **Data structures and codecs** (`LruSpec`, `LruCache`, `Base64`, `Percent`, `QueryString`,
  `HttpHead`).
- **Event records** (`RecordStore`): precedence of big over small messages, and what replayed
  messages may and may not change, across any sequence of saves.

Where the code and its documentation differ, the model follows the code:

- The comment of the LRU cache says it grows to maxSize + elasticity before it is pruned; the
  code prunes when that size is reached (include/common/lrucache.h:176), so the largest size is
  one less. With a sum that wraps in `size_t` the threshold wraps as well (`LruSpec.MaxAllowed`).
- A failed lock acquisition passes a message on without correlation
  (src/package/workflow/module/module_picture_waiting.cpp:167-170), and a failed SET still
  answers that the message waits.
- Trace code -10041 is accepted from the trace service
  (src/handler/pre_handler_http_response.cpp:162) and rejected when a business session reads it
  (src/handler/pre_handler.cpp:42).
- `Percent::encode` escapes the digits but not the percent sign, which section 2.1 of RFC 3986
  would require.
- An exception leaves the handler of an HTTP head whose Content-Length stoull rejects
  (include/frame/client_http.h:568), and that of a chunk whose size plus 2 wraps around, such as -1
  (include/frame/client_http.h:721), and the thread that runs the handlers does not catch it
  (src/package/workflow/flow_manager.cpp:77); the request is then never answered.
- A session that is told to wait is finished even when its SET failed
  (src/package/workflow/module/module_picture_waiting.cpp:113-118), so its message can be committed
  and lost.
- A live message that updates a record created by a replay leaves the mark of the replay on it
  (src/package/workflow/module/module_business_output.cpp:225-240), so the next replay overwrites
  the live data.
- A maximum of the workers' queue is compared as an unsigned number
  (include/package/workflow/worker.hpp:35), so a negative one is no bound.

## Model

| member | source | states |
|---|---|---|
| PartitionSpec.RunIsSafe | src/package/consumer/PartitionManager.cpp:29-79 | in every state of every run of a partition (messages arriving, workers advancing states, commits, trims in any order the steps allow), each committed message and all before it are DONE |
| PartitionSpec.RunIsMonotone | src/package/consumer/PartitionManager.cpp:81-93 | from any state of a run to any later one, receipts only grow, no message state goes back, and neither the trim nor the watermark does |
| PartitionSpec.CommittedOffsetsIncrease | src/package/consumer/PartitionManager.cpp:73-77 | with increasing offsets on arrival, the committed offsets strictly increase |
| PartitionManager.PartitionManager.ProcessTodo | src/package/consumer/PartitionManager.cpp:81-93 | a TODO message becomes DOING, and DONE when it cannot be parsed; any other is left alone; the run is extended |
| PartitionManager.PartitionManager.EmplaceBack | src/package/consumer/PartitionManager.cpp:14-18 | the message joins the end of the list and is no longer TODO |
| PartitionManager.PartitionManager.RemoveFromHead | src/package/consumer/PartitionManager.cpp:20-27 | exactly the given number of messages leaves the head of the list, and the trim is a step of the run |
| PartitionManager.PartitionManager.Visit | src/package/consumer/PartitionManager.cpp:41-68 | although workers run between the reads, each message is counted in exactly one state: one that was DONE before the visit as done, and as done only one that is DONE after it |
| PartitionManager.PartitionManager.CloseAt | src/package/consumer/PartitionManager.cpp:42-56 | keeps the scan sound: while everything was DONE nothing is settled; the first message that was not, or the end of the list, settles the position, the message to commit and the forced commit |
| PartitionManager.PartitionManager.Scan | src/package/consumer/PartitionManager.cpp:34-71 | the position found is the end of an all-DONE prefix at least as long as the one before the scan; the message to commit is the last of it; todo + doing + done is the cache size, and done lies between the number of messages that were DONE before the scan and the number that are after it |
| PartitionManager.PartitionManager.CommitPrefix | src/package/consumer/PartitionManager.cpp:74 | a commit is only made for a non-null message that ends an all-DONE prefix, and is a step of the run |
| PartitionManager.PartitionManager.CommitAndTrim | src/package/consumer/PartitionManager.cpp:73-77 | although the mutex is free meanwhile and the list grows, exactly the scanned prefix is committed and trimmed, and it stays DONE |
| PartitionManager.PartitionManager.DoSomething | src/package/consumer/PartitionManager.cpp:29-79 | the whole scan: cache size and the done count between the numbers of messages DONE before and after, commit threshold or force, what is committed and trimmed, and that a finished prefix that is long enough is committed |
| PartitionManager.BackpressureCountsUnfinished | src/package/consumer/ConsumeProcess.cpp:178-182 | the sum of cache size minus done over all scans never wraps, and lies between the number of messages unfinished after the scans and the number unfinished before them |
| PictureWait.PictureWaitModule.HandleWithoutKey | src/package/workflow/module/module_picture_waiting.cpp:55-76 | first arrival at a key: a business message is parked and waits, a trace result is stored and passes; a failed SET leaves the store as it was and the answer the same |
| PictureWait.PictureWaitModule.HandleFromRedis | src/package/consumer/XBusinessHandler.cpp:43-71 | a parked message goes on exactly when it can be read and the trace result is acceptable, with that result on fresh fields and the Redis chain |
| PictureWait.PictureWaitModule.ReleaseAll | src/package/workflow/module/module_picture_waiting.cpp:121-124 | parked strings are released in order, other array elements are skipped |
| PictureWait.PictureWaitModule.HandleWithKey | src/package/workflow/module/module_picture_waiting.cpp:79-140 | for each of the four meetings of a message with a stored value, and for unreadable values: whether the session waits, what it reads, what is released in which order, and what is stored |
| PictureWait.PictureWaitModule.GetResultOfWait | src/package/workflow/module/module_picture_waiting.cpp:144-191 | no key or no lock means to pass without touching the store; otherwise the handler for what is stored |
| PictureWait.PictureWaitModule.Process | src/package/workflow/module/module_picture_waiting.cpp:193-213 | the module as a whole is one Visit of the rendezvous, under every combination of faults |
| Rendezvous.Outcome | src/package/workflow/module/module_picture_waiting.cpp:55-140 | the complete state after any fault-free run: parked messages in order before the first trace result, afterwards none, everything continued with the first result |
| Rendezvous.Conservation | src/package/workflow/module/module_picture_waiting.cpp:55-140 | with an acceptable first trace result every business message goes on exactly once, in arrival order, with that result; none is parked or dropped |
| Rendezvous.LossIff | src/handler/pre_handler.cpp:39-45 | without faults, no message is lost if and only if the first trace result is acceptable to getPersonResult or nothing was parked before it |
| Rendezvous.LossExample | src/handler/pre_handler_http_response.cpp:162 | code -10041 is kept by the trace session and loses a parked message, while one that comes later goes on |
| Rendezvous.Confluence | src/package/workflow/module/module_picture_waiting.cpp:55-140 | any two orders of the same arrivals with one trace result end with the same sessions (payload, result, stages left) and the same stored value |
| Rendezvous.ChainsAgree | src/data/business_data.cpp:15-36 | the chain of a message from Redis is the Kafka chain after the picture wait |
| Rendezvous.IdentityGoesOn | src/handler/pre_handler.cpp:66-135 | every message that goes on carries, field by field, what the first accepted trace body says: track, id, url, set name, type, registration, similarity, time and attributes |
| Rendezvous.CleanIff | src/package/workflow/module/module_picture_waiting.cpp:121-139 | one visit under faults neither loses nor duplicates if and only if a stated condition on lock, SET, store and trace result holds |
| FaultyRuns.RunBooks | src/package/workflow/module/module_picture_waiting.cpp:55-191 | in every run under any faults, a message is gone on, parked or dropped as often as it arrived, and once more for every release whose write failed |
| FaultyRuns.ConservedIff | src/package/workflow/module/module_picture_waiting.cpp:55-191 | a run under any faults keeps every message exactly once and drops none if and only if each visit met the guard of CleanIff |
| Correlation.CorrelatedIff | src/package/workflow/module/module_picture_waiting.cpp:96-103 | on a key with an acceptable result, a message goes on with that result if and only if its visit got the lock and could read |
| Correlation.InformsIff | src/package/workflow/module/module_picture_waiting.cpp:163-191 | one visit keeps what has gone on and what is stored in agreement whatever the trace results say, if and only if a stated condition on lock, read and SET holds |
| Correlation.AlwaysCorrelatedIff | src/package/workflow/module/module_picture_waiting.cpp:163-191 | under every pattern of failures and any trace results, at every moment of a run all messages that have gone on carry the stored trace result, if and only if every visit met that condition |
| Correlation.CleanButUninformed | src/package/workflow/module/module_picture_waiting.cpp:55-76 | a visit that loses no message can still replace a stored trace result and park its message over it |
| LockedRendezvous.StepKeepsInv | src/package/workflow/module/module_picture_waiting.cpp:144-213 | with sessions interleaved step by step under leases that last: one session inside, it has read the current value, and every message is in one place |
| LockedRendezvous.EveryMessageGoesOnOnce | src/package/workflow/module/module_picture_waiting.cpp:144-213 | under every interleaving with lasting leases and acceptable trace results, once all sessions are done and one brought a result, the sessions pushed are exactly the messages, each once, each with the deciding result |
| LockedRendezvous.ExpiredLeaseLosesMessage | src/package/workflow/module/module_picture_waiting.cpp:163-188 | when a lease runs out inside, a message can be lost: a concrete run |
| Serialisation.InterleavedOutcome | src/package/workflow/module/module_picture_waiting.cpp:144-213 | the whole outcome of a finished interleaving under lasting leases: the value, and as sessions pushed all messages when the deciding result is acceptable, otherwise those whose sessions were not told to wait |
| Serialisation.LossIff | src/handler/pre_handler.cpp:39-45 | a finished interleaving has lost no message if and only if the result that decided is acceptable to getPersonResult or no session was told to wait |
| Serialisation.InterleavedEqualsSerial | src/package/workflow/module/module_picture_waiting.cpp:144-213 | for every finished interleaving under lasting leases, with any trace results, rejected ones included, or none, there is an order of the same arrivals whose serial execution ends with the same sessions and the same stored value |
| LeaseGuards.StepConservedIff | src/package/workflow/module/module_picture_waiting.cpp:121-133 | with leases running out at any moment, one step keeps messages from going on twice and from being lost if and only if it is not the release of a message that has already gone on, and no write over a parked message that has not gone on, unless the writer had read it and, as a trace session, has an acceptable result |
| LeaseGuards.ConservedIff | src/package/workflow/module/module_picture_waiting.cpp:144-213 | over whole runs, with sessions interleaved step by step, leases running out, and locks, reads and SETs failing, and any trace results: at every moment no message has gone on twice, and each whose session was told to wait or handed it on has gone on or is parked, if and only if each step met its guard |
| LeaseGuards.LastingIsHarmless | src/package/workflow/module/module_picture_waiting.cpp:163-188 | leases that last are enough for the guards, when trace results are acceptable and nothing fails |
| LeaseGuards.DoubleRelease | src/package/workflow/module/module_picture_waiting.cpp:121-133 | a concrete run, for any message and acceptable result, in which two trace sessions release the same message before either has written |
| ExpiredLeases.FinishedBooks | src/package/workflow/module/module_picture_waiting.cpp:144-213 | with acceptable trace results, in every finished run each message has gone on or is parked as often as it arrived, less what stale writes removed and plus what they entered again |
| ExpiredLeases.FinishedConservedIff | src/package/workflow/module/module_picture_waiting.cpp:144-213 | with acceptable trace results, a finished run has every message exactly once if and only if what stale writes removed is what they entered again |
| ExpiredLeases.LastingIsCurrent | src/package/workflow/module/module_picture_waiting.cpp:163-188 | under leases that last every write is over what its session read (they are not necessary for that: LastingIsNotNeeded is a run) |
| ExpiringValue.ExpiryOutcome | src/package/workflow/module/module_picture_waiting.cpp:55-133 | when the value may expire, what is out, dropped and stored is what the parts of the run between expiries come to, each from an empty key; and no message is lost to an expiry if and only if each part that one ended had a trace result or no message |
| Acknowledged.CommitsAreHeldIff | src/package/workflow/module/module_picture_waiting.cpp:193-213 | no committed Kafka message is lost if and only if none is whose session has ended, since a session told to wait is finished |
| Acknowledged.HarmlessCommits | src/package/workflow/module/module_picture_waiting.cpp:193-213 | while each step and failure meets its guard, every committed message has gone on, once, or is parked |
| Acknowledged.LostAfterCommit | src/package/workflow/module/module_picture_waiting.cpp:107-118 | a concrete run: a failed SET, after which the message can be committed and is nowhere |
| TimedRendezvous.Simulation | src/package/workflow/module/module_picture_waiting.cpp:163-188 | with distinct tokens, every run under the leased key of LeaseLock, with clock, lost replies and late releases, is a run of the interleaved rendezvous; when no session is inside after its deadline, one in which leases last |
| TimedRendezvous.EveryMessageGoesOnOnce | src/package/workflow/module/module_picture_waiting.cpp:144-213 | under the leased key, with distinct tokens, deadlines kept and acceptable trace results: the sessions pushed are exactly the messages, each once, each with the deciding result |
| TimedRendezvous.EqualsSerial | src/package/workflow/module/module_picture_waiting.cpp:144-213 | whatever the trace results say, the outcome is that of serial execution in some order |
| TimedRendezvous.LossIff | src/handler/pre_handler.cpp:39-45 | and no message is lost if and only if the result that decided is acceptable or no session was told to wait |
| PicWaitKey.GetPicWaitKey | src/data/capture_data.cpp:199-211 | the key is one of the last path segments and none is greater; it is empty without URLs |
| PicWaitKey.TailIsUnique | src/common/com_func.cpp:281-289 | the segment is determined by: the URL ends with it, it contains no slash, and a slash or nothing comes before it |
| PicWaitKey.LessIff | src/data/capture_data.cpp:203-209 | the order in which the greatest is sought is the lexicographic one |
| PicWaitKey.KeyIgnoresOrder | src/data/business_data.cpp:179-191 | the key does not depend on the order of the URLs |
| TraceResult.Session.ProcTraceSpaceResponse | src/handler/pre_handler_http_response.cpp:137-261 | the trace session reads a reply by its own routine: what it accepts, that it keeps the body exactly then, and field by field that a member of the body that is present becomes the field of that name while an absent one leaves it alone; the attributes follow in order |
| TraceResult.TwoReaders | src/handler/pre_handler_http_response.cpp:162 | the two readers, run on the same body: whatever the business session accepts the trace session has kept with the same result; what is kept and then rejected comes under code -10041 exactly |
| TraceResult.Session.GetPersonResult | src/handler/pre_handler.cpp:30-137 | when it accepts a body, each member that is present becomes the field of that name in the session, an absent one leaves it alone, and the attributes with a nonempty type follow in order with their five members; a body that breaks off has changed the track fields at most |
| TraceResult.ManualAgeIsSet | src/handler/pre_handler.cpp:98-130 | an accepted body always leaves a manual_age attribute; the named attributes keep their order before a supplied one |
| LeaseLock.AtMostOneHolder | src/common/redis/RedisClient.cpp:270-344 | over every schedule of acquisitions (with or without a reply), releases and time, at most one session with an unexpired lease holds the lock |
| LeaseLock.LateReleaseIff | src/common/redis/RedisClient.cpp:302-305 | a late release takes the lock from its present holder if and only if both use the same uid |
| LeaseLock.ExclusiveIff | src/common/redis/RedisClient.cpp:270-344 | at most one session holds the lock over every schedule if and only if no two sessions share a uid |
| LeaseLock.RedisClient.RedLock | src/common/redis/RedisClient.cpp:270-290 | polls until the time is over: success exactly when the lock was granted and the session told so, the lease running from the SET; failure only when the time is over and, with time to spend, after refused attempts only, each of which met a live token or lost its reply, was made in time and followed by one pause and the next attempt |
| LeaseLock.RedisClient.RedUnlock | src/common/redis/RedisClient.cpp:292-344 | deletes the key exactly when it carries the uid; success is only reported for a deletion |
| SessionSpec.LocateIff | src/handler/pre_handler_http_request.cpp:139-165 | a URL is accepted with an endpoint, bucket and key exactly when it consists of these three parts, the key not empty |
| SessionSpec.StageProgresses | src/package/workflow/http_module_wrapper.cpp:59-77 | whatever is answered, one stage leaves less of retries + URLs + chain + plugin stages to do, or ends the session |
| SessionSpec.FinishesWithin | src/message/session.cpp:56-78 | a session ends after at most that many stages under every script of answers |
| SessionSpec.EverySessionFinishes | src/message/session.cpp:35-54 | from every nonempty chain: at most retries + URLs + chain length stages, and one more for each plugin stage in it |
| SessionSpec.ChainsAreAdmissible | include/handler/pre_handler.h:28-41 | each of the chains that messages are created with, the one-stage chains of xiashun business and screenshot messages included, meets what the theorems ask of a chain |
| SessionSpec.BoundIsReached | src/package/workflow/module/module_get_plugin.cpp:71-78 | the bound is attained by a business message whose plugin extends the chain |
| SessionSpec.DownloadLoop | src/handler/pre_handler_http_response.cpp:109-135 | under every pattern of errors and retries the images are what the URLs answered, in order, none twice or skipped except empty bodies; the trace stage starts only when all were answered |
| SessionSpec.TraceAlignedIff | src/handler/pre_handler_http_request.cpp:206-237 | in every run that comes to the trace stage, with distinct URLs, image i belongs to face i for all images if and only if empty answers came last |
| SessionSpec.MisalignedRun | src/handler/pre_handler_http_request.cpp:206-237 | a concrete run with two pictures, the first of them empty, whose only image is sent with the attributes of the other face |
| SessionSpec.CodesMean | src/message/session.cpp:80-95 | what the final codes of any run mean: download error only after every URL answered with an empty body, connection error only with no retry left |
| StageOrder.FailedIsRetried | src/package/workflow/http_module_wrapper.cpp:59-77 | after a transport error with a retry left the session is as before but for that retry, so the same stage is dispatched next; without one it ends with the connection error |
| StageOrder.SuccessMeansPassed | src/message/session.cpp:56-78 | in every run, a session that ended with SUCCESS without being told to wait has passed every stage of its chain in order, one download per URL, and then the outputs that plugins added; a failed request is never a pass |
| StageOrder.InOrder | src/message/session.cpp:56-78 | however a run goes and ends, the stages passed are a prefix of that list |
| StageOrder.CodeTells | src/message/session.cpp:80-95 | a finished session has a given code if and only if its last stage went in the way that goes with it: which stage failed, whether its request went out, and how that was answered |
| Session.Person.GetNextUrl | include/data/base_data.h:123-130 | the URL under the cursor and a cursor one further, or the empty string at the end |
| Session.Person.RetreatUrl | include/data/base_data.h:132-136 | one back, never below zero |
| Session.Session.NextProcessor | src/message/session.cpp:71-78 | takes the front of the chain, or names no stage when it is empty |
| Session.Session.Final | src/message/session.cpp:80-95 | the first code stays; the Kafka message becomes DONE with it and not otherwise |
| Session.Session.PassOn | src/package/workflow/http_module_wrapper.cpp:148-155 | a session without a next stage is finished, any other is queued once |
| Session.Session.MakeDownloadRequest | src/handler/pre_handler_http_request.cpp:118-181 | when a download request can be made, and that the cursor has moved even if not |
| Session.Session.ProcImageResponse | src/handler/pre_handler_http_response.cpp:109-135 | a nonempty body is stored under the current URL; a download is put in front while URLs are left |
| Session.HttpModule.HttpErrorProcess | src/package/workflow/http_module_wrapper.cpp:59-77 | with a retry left the failed stage is in front of the chain again, one retry is spent, for a download the cursor is one back, and the session is queued; otherwise it ends with the connection error |
| Session.HttpModule.ProcResponse | src/package/workflow/http_module_wrapper.cpp:111-158 | a rejected reply ends the session; an accepted one hands it on |
| Session.HttpModule.Callback | src/package/workflow/http_module_wrapper.cpp:33-46 | the request is no longer outstanding and the session is queued at most once |
| Session.HttpModule.Process | src/package/workflow/http_module_wrapper.cpp:49-57 | one outstanding request, or the session is ended; the image check ends it first with the download error |
| Session.RunLocal | src/package/workflow/module/module_get_plugin.cpp:49-78 | the stages without a request: codes of failure, the plugin that appends the Kafka output, the wait that ends a session |
| Session.Process | src/message/session.cpp:56-67 | one dispatch is the step Start of the workflow, and queues the session exactly when that says so |
| Ownership.SingleOwner | src/message/session.cpp:80-95 | in every reachable state of all sessions together, an unfinished session is in exactly one of queue, hands, requests, and a finished one in none |
| Ownership.StagesAreBounded | src/package/workflow/http_module_wrapper.cpp:59-77 | no interleaving makes a session start more stages than the bound |
| Ownership.TraceHasAllImages | src/handler/pre_handler_http_request.cpp:183-195 | while a trace request is out, every URL of its session has been answered, and the images belong to the faces of their numbers exactly when empty answers came last |
| Ownership.FinishedStaysFinished | src/message/session.cpp:80-83 | no later event changes a finished session or its code |
| FifoBuffer.RunKeepsInv | include/package/workflow/worker.hpp:33-48 | in every run, with spurious wake-ups and any choice of whom to notify: size within the capacity, order kept, and while somebody sleeps there are enough awake callers for the items or the room |
| FifoBuffer.Refines | include/package/workflow/worker.hpp:33-48 | every step is one step of an abstract bounded queue, or none |
| FifoBuffer.NobodyIsForgotten | include/package/workflow/worker.hpp:33-48 | a getter is awake while there are items and getters, a putter while there is room and putters; a state with nobody awake is empty with getters only, full with putters only, or has capacity 0 |
| FifoBuffer.GetsFollowPuts | include/package/workflow/worker.hpp:33-48 | what was got is a prefix of what was put, the rest is the queue |
| FifoBuffer.StandoffIff | include/package/workflow/worker.hpp:31-36 | putters and getters can block each other for good if and only if the maximum is 0; a negative maximum is no bound |
| FifoBuffer.FIFOBuffer.Put | include/package/workflow/worker.hpp:33-38 | one critical section: the value is appended exactly when there is room |
| FifoBuffer.FIFOBuffer.Get | include/package/workflow/worker.hpp:40-48 | one critical section: the oldest value is taken exactly when there is one |
| HttpExchange.ReactProgresses | include/frame/client_http.h:512-843 | whatever an operation of an exchange ends with, its handler brings the exchange closer to its end: resolving, connecting, writing, head, body or chunks, one reconnection |
| ConnectionPool.RunKeepsInv | include/frame/client_http.h:259-304 | the invariants below hold in every interleaving of requests, ends of asynchronous operations, and the stops of runner and client |
| ConnectionPool.OneOperationOrReply | include/frame/client_http.h:512-843 | a request has exactly one outstanding operation, one callback or one exception that left its handlers, and its exchange is over after at most 2 * limit + 9 operations, limit being the size allowed for the response |
| HttpExchange.EscapeIff | include/frame/client_http.h:552-796 | an exception leaves a handler if and only if it finds a Content-Length that stoull rejects, as no number or out of range, or takes a chunk for complete whose size plus 2 wraps around |
| ConnectionPool.AnsweredIff | include/frame/client_http.h:552-796 | in every run each request waits for exactly one operation or has had exactly one callback, if and only if no response had such a Content-Length or such a chunk |
| ConnectionPool.UnansweredRun | include/frame/client_http.h:566-568 | a concrete run with such a Content-Length: the request is left with neither, and its connection stays in use |
| ConnectionPool.UnansweredChunkRun | include/frame/client_http.h:702-746 | a concrete run with the chunk size -1: likewise |
| ConnectionPool.NothingStartsAfterStop | include/frame/client_http.h:539-544 | once the runner is stopped, no further operation starts for a request sent before: it stays as it is, or its operation ends in a callback that reports a broken pipe |
| ConnectionPool.LateRequestIsCutOff | include/frame/client_http.h:539-544 | a request sent after the stop of the runner gets no further than its first operation, which ends in a callback that reports a broken pipe |
| ConnectionPool.NoSharing | include/frame/client_http.h:436-471 | two requests in flight never share a connection |
| ConnectionPool.InUseIsNotPruned | include/frame/client_http.h:272-293 | a step of another request neither removes nor frees the connection of a request in flight |
| ConnectionPool.PoolIsTidy | include/frame/client_http.h:272-293 | at most one idle connection, nothing in use that no unanswered request uses, at most one reconnection of a request |
| ConnectionPool.ReconnectIff | include/frame/client_http.h:637-656 | a completion reconnects if and only if it is the first failing read of a head and was not aborted, while neither client nor runner is stopped |
| HttpTranscript.SuccessIff | include/frame/client_http.h:552-843 | in every run a callback has reported success if and only if the whole response came: with its head, when nothing was missing or there is no body, or as the missing rest, the end of a body that runs until close, or the last chunk |
| HttpTranscript.OnlyWhatIsDue | include/frame/client_http.h:512-843 | in every run the outstanding operation is the one that has to follow what came: resolve, connect, write, head, then the kind of body that the head announced |
| HttpTranscript.FailureHasReason | include/frame/client_http.h:512-843 | in every run a callback that reports an error was given that error, or the reason for it, by the last operation |
| HttpTranscript.CompleteWithHead | include/frame/client_http.h:569-598 | a response that is complete with its head starts no further operation and its callback has reported success |
| ConnectionPool.ClientBase.GetConnection | include/frame/client_http.h:436-471 | an idle connection if there is one, otherwise a new one; marked in use |
| ConnectionPool.ClientBase.Send | include/frame/client_http.h:259-304 | the request has a connection and its first operation is outstanding, as a step of the machine |
| ConnectionPool.ClientBase.Prune | include/frame/client_http.h:276-292 | in whatever order the set is walked: all busy connections stay, and one idle one if there is any, the failed one excepted |
| ConnectionPool.ClientBase.Callback | include/frame/client_http.h:270-296 | the connection is freed, the pool pruned, the request answered |
| ConnectionPool.ClientBase.Retry | include/frame/client_http.h:637-652 | over a new connection if the old one is still in the pool, otherwise the callback |
| ConnectionPool.ClientBase.Handle | include/frame/client_http.h:512-658 | the end of any operation with its handler is one step of the machine |
| ConnectionPool.ClientBase.Stop | include/frame/client_http.h:399-406 | the pool is emptied |
| ScopeRunner.CountIsLiveLocks | include/frame/utility.h:326-371 | the counter is the number of live locks until it is -1, and then there are none; refusals and returns of stop happen only then |
| ScopeRunner.StopsIff | include/frame/utility.h:363-370 | the counter becomes -1 exactly by a turn of stop that finds no live lock and does not fail spuriously |
| ScopeRunner.StopIsFinal | include/frame/utility.h:349-370 | from then on it stays -1 and nobody holds a lock, with any number of stoppers |
| ScopeRunner.RefusedSoon | include/frame/utility.h:349-359 | a pending continue_lock is refused within two turns after the stop |
| ScopeRunner.Runner.TurnOfContinueLock | include/frame/utility.h:349-359 | one turn of the loop, granted exactly when the exchange succeeds |
| ScopeRunner.Runner.TurnOfStop | include/frame/utility.h:363-370 | stop returns only when the runner is stopped |
| LruSpec.FindIff | include/common/lrucache.h:122-131 | a lookup gives a value exactly when the pair is in the cache, for distinct keys |
| LruSpec.HitsAreFresh | include/common/lrucache.h:109-131 | a hit returns the value inserted last for the key, after any operations |
| LruSpec.UnboundedIsAMap | include/common/lrucache.h:174-178 | with maxSize 0 the cache is a map |
| LruSpec.SizeIsBounded | include/common/lrucache.h:174-186 | with maxSize > 0 the size stays below maxSize + elasticity, or at maxSize without elasticity |
| LruSpec.RetainedSinceUse | include/common/lrucache.h:109-186 | a key used and not dropped since is present while fewer than maxSize other keys were used |
| LruSpec.UniqueAfter | include/common/lrucache.h:109-186 | no operation leaves a key twice |
| LruCache.Cache.Insert | include/common/lrucache.h:109-120 | map and list stay linked; the list becomes what the operation specifies |
| LruCache.Cache.TryGet | include/common/lrucache.h:122-131 | the value of the pair, moved to the front, or nothing |
| LruCache.Cache.Remove | include/common/lrucache.h:149-158 | removes the pair and says whether there was one |
| LruCache.Cache.Clear | include/common/lrucache.h:104-108 | empties map and list |
| LruCache.Cache.Prune | include/common/lrucache.h:174-186 | drops from the back down to maxSize, when the threshold is met |
| Base64.AlphabetIs | src/common/com_func.cpp:82-85 | the character of a value is the one in the table |
| Base64.EncodeShape | src/common/com_func.cpp:91-130 | the length is 4*ceil(n/3), and = stands only at the end, as often as bytes are missing |
| Base64.FillerNeverShows | src/common/com_func.cpp:160-172 | no output byte depends on the 255 read for missing characters |
| Base64.RoundTrip | src/common/com_func.cpp:91-175 | decoding an encoding gives the bytes back, for all bytes |
| Base64.ChunkBits | src/common/com_func.cpp:91-111 | each four characters of an encoding have the 24 bits of three bytes as their values, in order |
| Base64.TailBits | src/common/com_func.cpp:113-128 | the last two or three characters hold the bits of the last one or two bytes followed by zeros |
| Base64.Base64Encode | src/common/com_func.cpp:91-130 | the buffered loop computes the encoding |
| Base64.Base64Decode | src/common/com_func.cpp:132-175 | the buffered loop computes the decoding of the part before the first character outside the alphabet |
| Percent.RoundTripIff | include/frame/utility.h:49-91 | a value survives encoding and decoding if and only if no percent sign in it is followed by two characters of the encoding |
| Percent.PlainIsHarmless | include/frame/utility.h:49-91 | every value without a percent sign survives |
| Percent.NoSeparator | include/frame/utility.h:49-68 | an encoded value contains no separator of a query |
| Percent.EscapeIs | include/frame/utility.h:49-68 | which characters are escaped, as a percent sign and two capital hexadecimal digits of the character; a space becomes a plus sign |
| Percent.DecodedText | include/frame/utility.h:71-91 | an escape of two hexadecimal digits, in capitals or not, is the character with that number, a plus sign a space, and everything else itself, a percent sign at the very end included |
| Percent.EncodeLoop | include/frame/utility.h:49-68 | the loop computes the encoding |
| Percent.DecodeLoop | include/frame/utility.h:71-91 | the loop computes the decoding, with what strtol makes of the two characters |
| QueryString.ParsedAreNamed | include/frame/utility.h:112-151 | whatever is parsed, names are nonempty and free of & |
| QueryString.RoundTripIff | include/frame/utility.h:98-151 | fields come back in order if and only if names are nonempty and free of & and values survive percent encoding; names may contain = |
| QueryString.ParsedInPieces | include/frame/utility.h:112-151 | any query string is parsed piece by piece between the ampersands |
| QueryString.ParsedPiece | include/frame/utility.h:118-148 | a piece is cut at its last equals sign; without one it is a name without a value, and without a name it is dropped |
| QueryString.CreatedText | include/frame/utility.h:98-109 | the text of two lists of fields is theirs with one ampersand between; a field is name, equals sign and encoded value |
| QueryString.CreateLoop | include/frame/utility.h:98-109 | the loop prints the fields |
| QueryString.ParseLoop | include/frame/utility.h:112-151 | the single pass with positions computes the fields of all pieces |
| HttpHead.RoundTripIff | include/frame/client_http.h:477-494 | parsing what was printed gives everything back and leaves the body, if and only if method and target have no space or newline, header names no colon or newline, values no newline |
| HttpHead.HeadAndBlankLine | include/frame/client_http.h:298-301 | what create_request_header writes with the blank line and the content is the printed request |
| HttpHead.HeadersAreClean | include/frame/utility.h:157-175 | whatever is parsed, names have no colon and nothing has a newline |
| HttpHead.SpaceIsOptional | include/frame/utility.h:157-175 | a header without a space after the colon is parsed like one with it |
| HttpHead.HangsIff | include/frame/utility.h:157-175 | the header loop never ends if and only if every line up to the end of the text, the last one without a newline included, contains a colon (so it ends on every text that ends with a newline, and not on a lone unfinished header) |
| HttpHead.UnfinishedHeaderHangs | include/frame/utility.h:160-173 | a concrete text on which the header loop never ends: a lone header without its newline |
| HttpHead.CutTarget | include/frame/utility.h:192-209 | path, question mark and query string are the target, split at the last question mark |
| HttpHead.QueryIsLast | include/frame/utility.h:192-209 | there is a query exactly when the target has a question mark, and the query has none |
| HttpHead.PrintedText | include/frame/client_http.h:477-494 | the printed request line and header lines, character by character |
| HttpHead.CreateRequestHeader | include/frame/client_http.h:477-494 | the request line with a corrected empty path, then Host, then the headers |
| HttpHead.ParseHeaderLines | include/frame/utility.h:157-175 | the loop computes the headers and leaves the rest of the stream |
| HttpHead.ScanTarget | include/frame/utility.h:192-201 | the loop finds the space that ends the target and the last question mark before it |
| HttpHead.Parse | include/frame/utility.h:181-229 | the whole request message, or a rejection |
| RecordStore.OneRecordPerKey | src/package/workflow/module/module_business_output.cpp:126-133 | after any saves there is at most one record per device, track, application, space and direction |
| RecordStore.Precedence | src/package/workflow/module/module_business_output.cpp:139-160 | over any further saves a record keeps its place, its message type never decreases; replays alone do not change what no replay created, small messages alone do not change a big record |
| RecordStore.SavedIsThere | src/package/workflow/module/module_business_output.cpp:243-249 | a message that is neither withheld nor refused leaves exactly one record with its key, which holds every field of it |
| RecordStore.DocumentSaysTheMessage | src/package/workflow/module/module_business_output.cpp:162-249 | the one record with the key of a stored message says under each name what the message says: key, times, person, attributes, track or the values of the camera, mark; names that the message does not write are as before, and absent from a new record |
| RecordStore.StoredIff | src/package/workflow/module/module_business_output.cpp:139-262 | success is answered exactly when the message was ready and either withheld by a big record under a small message or an unmarked one under a replay, or accepted by the server; otherwise, and when withheld, nothing changes |
| RecordStore.AtoiReads | src/package/workflow/module/module_business_output.cpp:185-195 | the number in an attribute: white space, a sign, leading zeros and decimal digits up to the first other character |
| RecordStore.AtoiOfNone | src/package/workflow/module/module_business_output.cpp:185-195 | a text without a number is 0 |
| RecordStore.NoManualAgeIsMinusOne | src/handler/pre_handler.cpp:128-135 | the supplied manual_age is stored as -1 |
| RecordStore.ReplayStoredIff | src/package/workflow/module/module_business_output.cpp:225-240 | for messages of every type: a replayed message is written over a record if and only if that one carries the mark, which only a creating replay gives, and the message is not a small one that meets a big record |
| RecordStore.StaleFindIff | src/package/workflow/module/module_business_output.cpp:153-160 | an update on an outdated find lowers the type of a record if and only if a small message meets a big record |
| RecordStore.LiveIsOverwritten | src/package/workflow/module/module_business_output.cpp:139-249 | in a run of a replayed, a live and again a replayed message of any types with one key, none refused, the last is written over the live one if and only if the live one names no attribute replay and the last is not a small message that meets a big record |
| RecordStore.MarkedIff | src/package/workflow/module/module_business_output.cpp:225-240 | a record carries the mark after a message if and only if the message is a replayed one or it carried the mark before and no attribute is called replay; so a replay on an outdated lookup marks a live record |
| RecordStore.StaleInsertIff | src/package/workflow/module/module_business_output.cpp:243-249 | an insert on an outdated lookup makes a second record for the key if and only if there is one by then |
| RecordStore.RefusedIff | src/package/workflow/module/module_business_output.cpp:162-249 | a message is refused if and only if its attributes share a name with each other, with a field of the document or with the mark; only big messages can be |
| RecordStore.SavedLeavesRest | src/package/workflow/module/module_business_output.cpp:87-262 | a save changes no other record, and no field that the message does not name |
| RecordStore.BusinessSave.SaveBusinessMongo | src/package/workflow/module/module_business_output.cpp:87-262 | what is withheld, refused and stored, and the return value |

## Left out

- The client libraries for Kafka, Redis, MongoDB, sockets and JSON: their replies are parameters, the JSON in Redis is a datatype, and only the shapes of JSON the handlers distinguish are kept apart.
- Kafka rebalance, restart and shutdown of the consumer: redelivery into a surviving partition manager breaks the assumption of increasing offsets.
- Routing of messages to partition managers and pausing of the consumer in ConsumeProcess: only the sum that decides about pausing is modelled; the rest would add easy members.
- The bytes of chunked responses: HttpExchange has their control flow and sizes; what is buffered beyond a chunk is not carried into the next call, so independence of fragmentation cannot be stated.
- Deadlock freedom of the workers: they put into the queue they take from. `FifoBuffer.NobodyIsForgotten` says exactly which blocked states the queue itself allows.
- Parsing of capture and business messages field by field, the age tables and the Kafka output texts: long but easy.
- Stage modules that are not built, the HTTP server, TLS, logging, timers, configuration and singletons.
- PictureWait.PictureWaitModule.Process: the expiry of a Redis value is not among the faults of a visit, but has runs of its own in ExpiringValue; a trace session that passes is only recorded, its further stages are those of Session.
- TraceResult.Session.GetPersonResult: the field `similar` starts at 0.0 here, the program leaves it uninitialised.
- LeaseLock.AtMostOneHolder: sessions and server share one clock.
- TimedRendezvous.EveryMessageGoesOnOnce: sessions with one token are not covered, since LeaseLock.ExclusiveIff says that the lock does not exclude them; a release by a shared token is one more expiry in LeaseGuards.
- LockedRendezvous.EveryMessageGoesOnOnce: every session gets the lock in the end and every SET succeeds; `LeaseGuards.ConservedIff` covers the other cases. The owner of the lock is given there; `TimedRendezvous` derives it from tokens and the clock.
- SessionSpec.FinishesWithin: whether a stage that makes no request fails, and whether a GenerateUrl or trace reply is accepted, are free choices of the script and not derived from documents or bodies.
- Session.Process: the lookup of the module for a stage is a parameter; the blocking of the queue is in FifoBuffer, so the class appends to a sequence.
- Ownership.SingleOwner: a session destroyed unfinished at shutdown is not modelled.
- FifoBuffer.FIFOBuffer.Put: one critical section per call; the waiting between two of them is a step of the machine, since a wait loop need not end.
- FifoBuffer.FIFOBuffer.Get: likewise.
- ScopeRunner.Runner.TurnOfContinueLock: one turn of the loop per call, since spurious failures need not end; the counter is not bounded by the width of `long`.
- ConnectionPool.ClientBase.GetConnection: connections are numbers in a table of their flags; whether an idle socket is still open is a parameter.
- ConnectionPool.ClientBase.Handle: how an operation ends, by a timeout that cancels it or otherwise, is a parameter; the bytes of head and body, exceptions of the caller's callback or for want of memory, a chunk's size line that begins with a newline, and handlers that run after the client object is gone are not modelled.
- LruCache.Cache.Insert: the cache's optional mutex is not modelled, an operation is one step.
- Base64.Base64Decode: lengths up to the largest `int`, the width of the program's counter.
- QueryString.RoundTripIff: fields are taken in the order in which the multimap is traversed; the case-insensitive comparison of names plays no part in printing and parsing.
- HttpHead.RoundTripIff: without a proxy; the case-insensitive multimap is a sequence in traversal order.
- HttpHead.ParseHeaderLines: only for texts on which the program's loop ends; the others are the outcome Hangs of the specification.
- RecordStore.Precedence: each find and update pair is one step; what happens otherwise is in RecordStore.StaleFindIff. That the server accepts a document exactly when no field is set twice is an assumption about MongoDB, and attribute names with dots or dollar signs are not distinguished.
- RecordStore.BusinessSave.SaveBusinessMongo: the lookup of the face set, the connection and the reading of the message's data are one parameter that says whether they succeeded.
- Field widths of stored integers, and overflow in the conversion of attribute values.
