# Verified models of HWAX infrastructure code

Dafny models of eight pieces of stateful code under `infra/`, with proofs of what each is for. All arithmetic on
measurements and times is over exact integers and reals.

- `Upstreams`, `Lifetimes`, `Forwarding`, `RouterMachine`: the LLM router. Which server a request goes to, the balance of
  loads in a burst, what a server's state is after anything that befalls it, failover, what a client sees of a response,
  and the router as a machine of interleaved events.
- `Tables`, `Retention`, `SampleStore`: the sample store. Raw rows, folded cells, deletes, and graphs that must agree
  with the whole history, which is kept as a ghost; transactions of which any statement may fail.
- `Delivery`, `WorkerPool`: delivery of an external answer in chunks through agents whose reports can be lost, and the
  pool of workers that claim tasks.
- `CrossTargets`: who cross-examines whom, a greedy choice with a repair loop.
- `Histogram`, `Window`: increases, interpolated quantiles and the collector's window figures.
- `Fences`: the one-pass scanner for fenced code against the block parser.
- `EnvFile`: the three readers of `infra/.env`.
- `Overlay`: JSON merge patch and the persona overlay.
- `Options`: a value that may be missing.

The loops that update variables are methods with a loop, proved equal to a specification function; searches that only
answer yes or no (`any` over a window) are predicates. The properties are lemmas about those functions, or invariants of
classes and of runs.

Results that contradict the source's own comments or the expected property, each with a concrete case and the exact
condition:

- The router forgets a server's model list when the server goes down, so that an old list is never trusted
  (llm_router.py:716-718). It does so only when the server is not noted down already: a list read while it is noted down
  survives the next failure, and a probe that began while it is noted down is believed after it
  (`RouterMachine.AnOldListSurvives`, `RouterMachine.AnOldProbeIsBelieved`). Over whole runs, those are the only two ways
  (`RouterMachine.OldListsAreForgottenIff`).
- A worker stops when it has seen only empty claims while nobody took or held a task (hwax-risk-claude.js:567). A claim
  that fails neither counts nor ends the stretch, so the stretch can hold a task (`WorkerPool.AFailedClaimHidesATask`).
  It does exactly when a claim failed after the activity had moved, the test that only empty claims get
  (`WorkerPool.IdleStopIsQuietIff`).
- `task_not_found` after an uncertain finish should read `delivered_unconfirmed` (hwax-risk-claude.js:432). A report that
  keeps the result of its chunk and drops that of the finish is not noticed, and on the fates of the agents that is
  fatal in one case exactly (`Delivery.ATakenAnswerReportedMissing`, `Delivery.TakenIsMissingIff`).
- The fence scanner ends as the block parser does (hwax-md2docx.py:164) except on lists that take in a quoted line which
  opens a fence (`Fences.AListHidesAFence`, `Fences.ScannerIsParser`).
- `changed`, `added`, `removed` and `missing` partition the overlay's keys exactly when no key names two base personas
  (`Overlay.ASharedKeyIsReportedTwice`, `Overlay.ReportPartitionsIff`).

## Model

| member | source | states |
|---|---|---|
| Upstreams.CandidatesAre | infra/llm-router/llm_router.py:862-880 | the list the choice builds step by step holds exactly the candidates of a declarative definition: untried, reachable if any untried one is; if any of those is confirmed then confirmed ones only, with the requested model if one has it, of the widest window; else answering ones first, then those with the model |
| Upstreams.CandidatesExist | infra/llm-router/llm_router.py:871-882 | there is no candidate exactly when every listed server was tried |
| Upstreams.Best | infra/llm-router/llm_router.py:883 | a candidate that no other one beats by load and then by KV use, and the first of those in the order of the list |
| Upstreams.Preferred | infra/llm-router/llm_router.py:886 | the candidate that the key ranks highest |
| Upstreams.WindowIs | infra/llm-router/llm_router.py:444-447 | a window is the widest a line for the model gives, and -1 if none gives one |
| Upstreams.LoadIsAtLeastOut | infra/llm-router/llm_router.py:449-456 | a load is never below what is out, and just that without metrics |
| Upstreams.EachCountsAsOne | infra/llm-router/llm_router.py:449-456 | where the metrics show more, each request that runs, waits or was sent since the scrape counts as one |
| Upstreams.ChoiceIs | infra/llm-router/llm_router.py:862-889 | the choice fails exactly when all listed servers were tried; otherwise it is a candidate, of the least load without a key, else the key's highest ranked candidate unless that is busier than the least loaded by the slack or more, and then the least loaded |
| Upstreams.KeylessPickIs | infra/llm-router/llm_router.py:883-885 | said without loads: a request without a key goes to a candidate with the fewest requests running or waiting, then the least use of its KV cache, where nothing was sent since the metrics came; without metrics to one with the fewest out |
| Upstreams.PickIsListed | infra/llm-router/llm_router.py:871-889 | pick and preferred server are listed and untried |
| Upstreams.UnconfirmedOnlyIfNoneIs | infra/llm-router/llm_router.py:862-880 | a request goes to an unconfirmed (or unreachable) server only if no untried reachable server is confirmed |
| Upstreams.LoadAfterSend | infra/llm-router/llm_router.py:449-456 | one more request out raises a server's load by between 0 and 1, and a whole load stays whole |
| Upstreams.StepKeepsSpread | infra/llm-router/llm_router.py:883-889 | one pick keeps every difference of candidate loads at or below the bound |
| Upstreams.BurstKeepsSpread | infra/llm-router/llm_router.py:61-62 | any number of requests with any keys and nothing in between: the candidates stay the same and their loads never spread further than before, than 1 and than the slack rounded up (for loads that are no whole numbers: the slack and one) |
| Upstreams.Upstream.NoteDown | infra/llm-router/llm_router.py:712-722 | the whole new state: cooldown, failure count, and model list and count of downs only when it was not noted down already |
| Upstreams.Upstream.NoteMiss | infra/llm-router/llm_router.py:686-696 | the metrics go at the third failure in a row and not before |
| Upstreams.Upstream.NoteMetrics | infra/llm-router/llm_router.py:673-684 | metrics set or dropped; the count at the scrape is moved only with metrics |
| Upstreams.Upstream.EndScrape | infra/llm-router/llm_router.py:636-664 | the state after a scrape, for each way it can end |
| Upstreams.Upstream.EndCheck | infra/llm-router/llm_router.py:776-803 | an answer to a probe is believed only if the count of downs has not moved; no answer keeps the last list |
| Upstreams.Upstream.CountSend | infra/llm-router/llm_router.py:977-979 | send and stickiness counts, also when server and preferred server are one object |
| Upstreams.Upstream.CountForward | infra/llm-router/llm_router.py:976-997 | a forward begins or ends |
| Lifetimes.LivedIsTrue | infra/llm-router/llm_router.py:636-803 | after any happenings to a new server: it is reachable again one cooldown after its last failure and no sooner; its metrics are those of the last page until three scrapes in a row bring none; it counts what is out and what was out at that page; its list is that of the last check answered in time since it last went down, and it answers unless three probes in a row timed out |
| Lifetimes.LiveThrough | infra/llm-router/llm_router.py:636-803 | the same of the object that its methods change; and from any state, a list it holds was given to a check that began at its present count of downs, or was there before with the count unmoved |
| Forwarding.ChooserPicks | infra/llm-router/llm_router.py:862-889 | the choice gives an untried listed server as long as there is one |
| Forwarding.ForwardLoop | infra/llm-router/llm_router.py:958-1007 | the loop computes the specified run over any script of rounds |
| Forwarding.FailoverIsSafe | infra/llm-router/llm_router.py:958-1007 | for any failures, any states in between and any changes of the list: no server is attempted twice, at most the last attempt got past connecting, "all unreachable" only after every listed server was tried and none reached, "no servers" only for an empty list |
| Forwarding.AttemptsAreChosen | infra/llm-router/llm_router.py:958-966 | each attempt goes to the choice of its round, by the request's key and model, among the servers not tried so far |
| Forwarding.FailoverEnds | infra/llm-router/llm_router.py:958-1007 | with a fixed list the loop ends, after at most one attempt per listed server |
| Forwarding.Client.Send | infra/llm-router/llm_router.py:921-925 | started is set by the head even if that send fails |
| Forwarding.Client.SendChunks | infra/llm-router/llm_router.py:1014-1016 | the non-empty chunks in order, cut where a send fails |
| Forwarding.Client.Relay | infra/llm-router/llm_router.py:1009-1025 | what reaches the client is the plan of the response cut at the failing send, without the end marker if closing the connection to the server raises |
| Forwarding.Client.Respond | infra/llm-router/llm_router.py:932-948 | the same for every end of the loop, for any exception that escapes from it, before a response, from a send or at the close, and for a cancellation: the handler answers only if nothing was started |
| Forwarding.RelayedIsFaithful | infra/llm-router/llm_router.py:1009-1025 | however a relayed response is cut: at most one head and that first, bytes a prefix of the server's in order, end marker only behind all of them and never after a break; and uninterrupted it is ended |
| Forwarding.ResponseIsFaithful | infra/llm-router/llm_router.py:946-1025 | a head from a server only if that server responded, with its status and the promise above; an answer of the router's own has the status of its cause |
| Forwarding.RequestIsFaithful | infra/llm-router/llm_router.py:932-1025 | loop, response and handler together, over any rounds, any escaping exception and any cut |
| RouterMachine.RouterIsSound | infra/llm-router/llm_router.py:862-889 | the router's own choice is one the machine's theorems cover |
| RouterMachine.RunKeepsCounts | infra/llm-router/llm_router.py:914-997 | in every reachable state each server's inflight is the number of forwards in it, their sum is at most the router's inflight, sent = sticky + overflow + sends without a key, and each of these, by server, is the sends of its kind that are under way or ended otherwise than by a failure to connect: a failed connection leaves no trace but in connect_fail |
| RouterMachine.RunTallies | infra/llm-router/llm_router.py:958-997 | the same for any one tally, also connect_fail and retried_away: its value less what is under way is the number of events of the run that count for it |
| RouterMachine.RunKeepsListsFresh | infra/llm-router/llm_router.py:712-798 | in every reachable state a model list that is present comes from a probe that started after the server last went down, as counted |
| RouterMachine.RunIsTrue | infra/llm-router/llm_router.py:636-997 | in every run each server is what the events of the run at that server make it, in the sense above |
| RouterMachine.OutForTheCooldown | infra/llm-router/llm_router.py:712-720 | in every run a server is out from its last failure to connect until the cooldown is over, and no longer |
| RouterMachine.NotPickedWhileOut | infra/llm-router/llm_router.py:870-872 | and in that time gets a request only if no untried server is up |
| RouterMachine.MarkedDownIff | infra/llm-router/llm_router.py:636-664 | _mark_down runs for a server exactly when a scrape does not reach it or crashes, no request can be made for it, a request does not reach it, or a send to it fails unforeseen |
| RouterMachine.OldListsAreForgottenIff | infra/llm-router/llm_router.py:712-798 | after any run, at any failure to connect: in no continuation is a list from a probe older than that failure ever held exactly when the server was not noted down already, or it has no list and no probe of it under way carries its count of downs |
| RouterMachine.AnOldListSurvives | infra/llm-router/llm_router.py:712-722 | a run in which a server counts as up and confirmed by a list older than its last failure to connect, because it was read while the server was noted down |
| RouterMachine.AnOldProbeIsBelieved | infra/llm-router/llm_router.py:719-788 | another, because a probe that began while it was noted down is believed after the failure |
| RouterMachine.RunTriesOnce | infra/llm-router/llm_router.py:956-962 | in every reachable state no request has tried a server twice, and the server it waits for, or goes on from, is the last it tried |
| RouterMachine.LeavesForAServerThatIsOn | infra/llm-router/llm_router.py:862-889 | in any state a request leaves for a server that is not up and confirmed only if no untried listed one is |
| RouterMachine.RouterRuns | infra/llm-router/llm_router.py:896-1007 | the count and freshness theorems for the router's own choice |
| Tables.GroupConcat | infra/llm-status/samplestore.py:122-126 | grouping rows on both sides of an aligned time is grouping each side |
| Tables.Regroup | infra/llm-status/samplestore.py:166-168 | re-grouping cells of a finer step is grouping the rows themselves |
| Tables.GroupAt | infra/llm-status/samplestore.py:122-126 | a cell has a group exactly when a row lies in it, and the group is the total of the rows of that cell |
| Tables.SqlFloorIs | infra/llm-status/samplestore.py:122-126 | the start of a cell as SQLite computes it, which rounds towards zero |
| Tables.PutAbove | infra/llm-status/samplestore.py:79-80 | a row at or after a time leaves all before it as it was |
| Retention.CutsAreOrdered | infra/llm-status/samplestore.py:109-130 | nothing is deleted before it could have been folded |
| Retention.TimesAre | infra/llm-status/samplestore.py:104-130 | folded are the cells that ended a minute ago or before, raw rows are kept 48 hours and cells 35 days |
| Retention.StoredAndRead | infra/llm-status/samplestore.py:122-168 | no sum is lost in a mean stored with its count |
| Retention.TotalIs | infra/llm-status/samplestore.py:119-122 | a total counts the samples, adds them up, and has the least and the greatest of them |
| Retention.RollupStores | infra/llm-status/samplestore.py:119-123 | between cut and mark the rollup row of a cell has the number of samples the history has there, their mean, least and greatest, and is there exactly if there are any |
| Retention.KeepAdd | infra/llm-status/samplestore.py:71-83 | a sample that is not before the mark keeps tables and history in step |
| Retention.KeepFold | infra/llm-status/samplestore.py:119-126 | folding from the mark keeps them in step: the rollup table becomes the cells of the whole history before the new mark |
| Retention.KeepFirstFold | infra/llm-status/samplestore.py:116-126 | so does the first folding, from the earliest row |
| Retention.KeepTrim | infra/llm-status/samplestore.py:129-132 | so does deleting |
| Retention.TailOf | infra/llm-status/samplestore.py:169-178 | the dictionary and the skipping loop compute the grouping of the raw rows behind the last folded point |
| Retention.GraphIsGroup | infra/llm-status/samplestore.py:159-179 | a graph, from folded cells of deleted rows and a raw tail, is the grouping of the samples it covers |
| Retention.CoveredOnce | infra/llm-status/samplestore.py:159-179 | the samples a graph covers are samples of the history and none of them twice |
| Retention.GraphShowsCovered | infra/llm-status/samplestore.py:159-179 | strictly increasing points at starts of cells, one exactly where there is a covered sample; its mean times their number is their sum, and its maximum is one of them and none is greater |
| Retention.LeftOutIff | infra/llm-status/samplestore.py:159-176 | from the first whole cell on a sample is not covered exactly when it lies at or behind the mark and before the end of the cell of the last folded point |
| Retention.DayGraph | infra/llm-status/samplestore.py:159-179 | with the mark inside the window the 24h graph shows every sample ever written from the first cell that starts at or after since, though its raw rows are gone |
| SampleStore.NewId | infra/llm-status/samplestore.py:65 | a new id is greater than all that exist |
| SampleStore.NewIdIsNext | infra/llm-status/samplestore.py:65 | and the one behind the greatest of them |
| SampleStore.CacheIsInjective | infra/llm-status/samplestore.py:61-69 | no two series share an id in the cache |
| SampleStore.RegisterKeeps | infra/llm-status/samplestore.py:61-69 | a new series starts with empty tables |
| SampleStore.InsertKeeps | infra/llm-status/samplestore.py:79-80 | a sample goes to its own series and no other |
| SampleStore.AddKeeps | infra/llm-status/samplestore.py:71-83 | a committed reading keeps every series in step with its history |
| SampleStore.OnTimeIff | infra/llm-status/samplestore.py:71-106 | what it takes to be on time: no reading before 1970 or before the mark, no maintenance with the clock back before the last |
| SampleStore.MaintainSeries | infra/llm-status/samplestore.py:98-132 | a maintenance that comes on time keeps a series in step, in all cases of mark and first row |
| SampleStore.MaintainKeeps | infra/llm-status/samplestore.py:98-132 | and the whole database |
| SampleStore.TablesAnswer | infra/llm-status/samplestore.py:145-179 | what tables in step answer: the hour as written, the other ranges as above |
| SampleStore.RangesAre | infra/llm-status/samplestore.py:22-23 | how far back each range goes and how wide its points are |
| SampleStore.NewFileIsConsistent | infra/llm-status/samplestore.py:35-51 | a new file is in step with an empty history, so it can be opened |
| SampleStore.Store.constructor | infra/llm-status/samplestore.py:35-51 | opening loads the cache, equal to the committed series table |
| SampleStore.Store.Rollback | infra/llm-status/samplestore.py:88-96 | database and cache are what they were before the transaction, whatever keys it had added |
| SampleStore.Store.Sid | infra/llm-status/samplestore.py:61-69 | the id of a series, registered if it is new; the cache equals the table, or is undone by a rollback |
| SampleStore.Store.Add | infra/llm-status/samplestore.py:71-86 | committed, everything is in and remembered; failed at any statement, database, cache and history are unchanged |
| SampleStore.Store.LastBucket | infra/llm-status/samplestore.py:136-143 | the latest folded cell before upto over all series, none if there is none |
| SampleStore.Store.Start | infra/llm-status/samplestore.py:112-118 | from where to fold: the mark, or the last folded cell if the mark is ahead, or the cell of the earliest row |
| SampleStore.Store.Maintain | infra/llm-status/samplestore.py:98-134 | when it runs, what the tables become, and that a failure at any statement changes nothing but the time of the last maintenance |
| SampleStore.Store.Series | infra/llm-status/samplestore.py:145-179 | after any calls that came on time, a query answers truly about the whole history |
| Delivery.PlanIsChain | infra/pipeline/hwax-risk-claude.js:359-373 | the chunks cover the answer without gap or overlap, none is empty or longer than the limit, and each but the last ends at the last line break of its window's second half, or fills the window and has none there |
| Delivery.ChunkPlan | infra/pipeline/hwax-risk-claude.js:359-373 | the loop computes that plan |
| Delivery.FindEnd | infra/pipeline/hwax-risk-claude.js:363-368 | the inner loop finds that end |
| Delivery.FindChunk | infra/pipeline/hwax-risk-claude.js:455 | the chunk at a position |
| Delivery.CallFinisher | infra/pipeline/hwax-risk-claude.js:439-449 | one round of the finishing part: the next step, or the end |
| Delivery.CallCarrier | infra/pipeline/hwax-risk-claude.js:451-482 | one round of the carrying part |
| Delivery.Deliver | infra/pipeline/hwax-risk-claude.js:423-485 | the loop computes the specified delivery, and its outcome is borne out by the engine: answered exactly with the length that the engine keeps and the length it cuts |
| Delivery.OneTurnKeepsInStep | infra/pipeline/hwax-risk-claude.js:437-483 | whatever a relay loses, client and server stay in step: the buffer is a chunk-boundary prefix of the answer |
| Delivery.DeliveryIsSafe | infra/pipeline/hwax-risk-claude.js:410-485 | for every answer, server and loss of reports: the buffer is a boundary prefix throughout, only the whole answer is taken, "answered" only then, at most 2n + 4 calls; and of every log, that task_not_found is returned for a taken answer exactly when a report in it kept the chunk's result and left out the finish |
| Delivery.TakenIsMissingIff | infra/pipeline/hwax-risk-claude.js:428-483 | for every answer, server and fates of the agents: an answer that was taken is returned as task_not_found exactly when the task was open, the answer fits, and, with the lease kept so far and the agent before heard, the first agent at the last chunk finishes, its report keeps the first result and leaves out the finish, and the next report comes back |
| Delivery.LogIsWhole | infra/pipeline/hwax-risk-claude.js:423-485 | the log that these statements read holds every call of the loop |
| Delivery.GivenUpForAReason | infra/pipeline/hwax-risk-claude.js:429-480 | not_claimed is returned only if the lease was let go, task_not_found for a task not taken only if it ended |
| Delivery.DeliverySucceeds | infra/pipeline/hwax-risk-claude.js:423-485 | with the lease kept, room for the answer, at most n + 3 lost reports and the finishing one kept, it ends answered within 2n + 4 calls |
| Delivery.ATakenAnswerReportedMissing | infra/pipeline/hwax-risk-claude.js:428-470 | an answer that was taken and is reported as task_not_found |
| WorkerPool.RunKeepsCounts | infra/pipeline/hwax-risk-claude.js:566-604 | in every reachable state taken is tasks claimed plus claims in flight, so at most the maximum is ever claimed, and busy is the number of workers with a task |
| WorkerPool.AgentBudget | infra/pipeline/hwax-risk-claude.js:569-571 | how far the agent cap can be overrun |
| WorkerPool.QuietIff | infra/pipeline/hwax-risk-claude.js:573-602 | while nobody is busy at its end, the shared activity counter stands still over a stretch of a run exactly when nobody took, finished or held a task at any moment of it |
| WorkerPool.CountedPollsWereQuiet | infra/pipeline/hwax-risk-claude.js:600-602 | an empty claim is counted toward an idle stop exactly when nobody took, finished or held a task at any moment from the first of that claim on |
| WorkerPool.IdleStopIsQuietIff | infra/pipeline/hwax-risk-claude.js:594-602 | a worker that stops idle counted its polls over one stretch of claims, and nobody took, finished or held a task in all of it exactly when no claim of it failed with the activity moved since that claim began |
| WorkerPool.AFailedClaimHidesATask | infra/pipeline/hwax-risk-claude.js:594-602 | a reachable state in which a worker stops idle although a task was held in that stretch |
| WorkerPool.Shared.LoopHead | infra/pipeline/hwax-risk-claude.js:569-574 | the head of the loop on the shared fields |
| WorkerPool.Shared.ClaimReturned | infra/pipeline/hwax-risk-claude.js:575-603 | what a claim's return does to the shared fields and the worker |
| WorkerPool.Shared.TaskEnded | infra/pipeline/hwax-risk-claude.js:580-585 | busy and activity after a task, thrown or not |
| WorkerPool.RunPool | infra/pipeline/hwax-risk-claude.js:566-604 | workers that share these fields, run through any schedule, pass through the pools of the theorems, with the counts above |
| CrossTargets.Ranking | infra/pipeline/hwax-deliberate.js:563-564 | the others, each once, in the order of score and then of seat |
| CrossTargets.TargetingUpdate | infra/pipeline/hwax-deliberate.js:577 | changing one list changes the counts by exactly the entries that left and came |
| CrossTargets.ASpareSlotExists | infra/pipeline/hwax-deliberate.js:568-583 | a seat nobody targets always finds a list with a seat targeted twice, so the fallback that lengthens a list is never needed |
| CrossTargets.RepairOneEffect | infra/pipeline/hwax-deliberate.js:568-584 | a repair names its seat once, unnames nobody and changes no more than one slot, of a seat targeted twice |
| CrossTargets.RepairFromEffect | infra/pipeline/hwax-deliberate.js:568-584 | the whole repair pass |
| CrossTargets.GreedyIsValid | infra/pipeline/hwax-deliberate.js:562-567 | the greedy lists: right length, no self, no duplicates |
| CrossTargets.GreedyIsClosest | infra/pipeline/hwax-deliberate.js:562-565 | a chosen seat is closer than any left out, or as close and earlier, and the closest are listed first |
| CrossTargets.GiverIsClosest | infra/pipeline/hwax-deliberate.js:570-575 | the seat that gives up a place is the closest one that names somebody whom others name too, and the place is its last such |
| CrossTargets.EverySeatIsQuestioned | infra/pipeline/hwax-deliberate.js:541-584 | for two or more seats and any scores: everyone is targeted, nobody targets itself, no duplicates, exactly min(max(1, k), n - 1) targets each |
| CrossTargets.GreedyPass | infra/pipeline/hwax-deliberate.js:560-567 | lists and counts in place |
| CrossTargets.LastSpare | infra/pipeline/hwax-deliberate.js:574-575 | the last slot of a list whose seat is targeted twice |
| CrossTargets.RepairSeat | infra/pipeline/hwax-deliberate.js:569-584 | one seat's repair in place, counts kept true |
| CrossTargets.RepairPass | infra/pipeline/hwax-deliberate.js:568-584 | the repair loop in place |
| CrossTargets.AssignTargets | infra/pipeline/hwax-deliberate.js:541-586 | the whole function in place |
| Histogram.CounterDelta | infra/llm-status/promtext.py:256-260 | an increase exactly when both values exist and none fell; never negative |
| Histogram.HistDelta | infra/llm-status/promtext.py:263-270 | an increase only of equal buckets none of which fell; added to the first it gives the second |
| Histogram.HistAdd | infra/llm-status/promtext.py:273-277 | bucket by bucket, cut to the shorter |
| Histogram.QuantileInBucket | infra/llm-status/promtext.py:280-294 | the value lies in the bucket where the rank falls, between 0 and the largest finite bound |
| Histogram.QuantileMonotone | infra/llm-status/promtext.py:280-294 | a larger q gives no smaller value, for rising bounds that end in +Inf and any counts |
| Histogram.NoFiniteBound | infra/llm-status/promtext.py:288-289 | no value without a finite bound |
| Histogram.QuantileInvertsCounts | infra/llm-status/promtext.py:280-294 | where the rank falls into a finite bucket of some width, the count of the histogram spread evenly inside its buckets is the rank at exactly that value |
| Window.PairsAre | infra/llm-status/collector.py:648-651 | the pairs are all neighbours whose later one lies in the window and not too far from the other, in their order |
| Window.MeasureRate | infra/llm-status/collector.py:672-694 | the loop over the pairs, with its reasons |
| Window.RateNonNegative | infra/llm-status/collector.py:672-694 | no rate is negative |
| Window.SteadyTelescopes | infra/llm-status/collector.py:672-685 | without reset and gap the increases add up to last minus first |
| Window.RateOfSteadyWindow | infra/llm-status/collector.py:672-689 | and the rate is that growth over the time |
| Window.HistWindow | infra/llm-status/collector.py:708-726 | no bucket and no count of a histogram over a window is negative, and it has requests |
| Window.MeasureHist | infra/llm-status/collector.py:708-726 | the loop over the histograms |
| Window.HistTelescopes | infra/llm-status/collector.py:708-720 | without reset and gap the window's histogram is last minus first |
| Window.MeasurePrefix | infra/llm-status/collector.py:755-771 | the loop over hits and queries |
| Window.FiguresOf | infra/llm-status/collector.py:736-777 | every figure is sane: rates and quantiles not negative, the share between 0 and 1, p50 at most p95 |
| Window.MayMixIff | infra/llm-status/collector.py:654-669 | samples without a process mark are blanked over a window exactly when a counter, a label or a histogram fell in it, in whatever gap |
| Window.MixedShowsNothing | infra/llm-status/collector.py:742-777 | and then no rate, share or quantile over it is shown |
| Window.LabeledIs | infra/llm-status/collector.py:697-705 | a family counts if it has labels or is known to exist, and then without labels as 0 |
| Window.MeasureFigures | infra/llm-status/collector.py:736-777 | the figures as derive fills them in |
| Window.Derive | infra/llm-status/collector.py:729-781 | the whole of derive |
| Window.OtherProcessesDoNotMatter | infra/llm-status/collector.py:729-738 | a sample of another server process, put anywhere before the last sample, changes no figure and nothing that is stored |
| Window.OneProcessIsAll | infra/llm-status/collector.py:729-781 | a history of one process is measured as it is |
| Window.SteadyRates | infra/llm-status/collector.py:736-777 | each of the seven rates: where the samples of the process are steady over its window, the rate is the growth between the ends of the window |
| Window.SteadyEvents | infra/llm-status/collector.py:748-754 | which counters those are: requests, errors and preemptions a minute, over five minutes |
| Window.SteadyTokens | infra/llm-status/collector.py:744-747 | and tokens a second, over one |
| Window.FiguresShow | infra/llm-status/collector.py:744-777 | each figure of a card is the one of its name |
| Window.SteadyQuantiles | infra/llm-status/collector.py:772-775 | p50 and p95 of each histogram are then those of what was counted between the ends of the window |
| Window.SteadyPrefixHit | infra/llm-status/collector.py:755-771 | and the share of prefix hits is the growth of the hits in that of the queries |
| Window.QuantilesInOrder | infra/llm-status/collector.py:772-775 | p50 and p95 exist together and in order |
| Fences.CodeLines | infra/pc-kit/hwax-md2docx.py:161-181 | the one-pass loop computes the scan |
| Fences.ScanIsCode | infra/pc-kit/hwax-md2docx.py:161-181 | said of the lines: a line is code exactly when it belongs to a fence, which begins with a line of fence characters outside all others and goes on to the first line of its quote of the same character, no shorter and bare, or to the end of the quote |
| Fences.CodeBlockIs | infra/pc-kit/hwax-md2docx.py:583-590 | a code block goes from its opening line to the first such line |
| Fences.LeafIs | infra/pc-kit/hwax-md2docx.py:488-629 | any other block that is no quote: which kind it is, and that it goes on to the first line that ends a block of the kind |
| Fences.MarkLine | infra/pc-kit/hwax-md2docx.py:166-180 | one line of it |
| Fences.StripUpTo | infra/pc-kit/hwax-md2docx.py:168-170 | the loop over quote markers |
| Fences.ParseBlocks | infra/pc-kit/hwax-md2docx.py:575-630 | loop and recursion compute the blocks |
| Fences.SkipList | infra/pc-kit/hwax-md2docx.py:530-572 | where a list ends |
| Fences.ParseLeaf | infra/pc-kit/hwax-md2docx.py:583-629 | one block that is no quote |
| Fences.AgreeEverywhere | infra/pc-kit/hwax-md2docx.py:161-181 | from any line on and at every quote depth, the scanner marks exactly the lines the parser puts in code blocks, where no list takes in a line that opens a fence |
| Fences.DisagreeSomewhere | infra/pc-kit/hwax-md2docx.py:161-181 | where one does, they disagree on a line |
| Fences.ScannerIsParser | infra/pc-kit/hwax-md2docx.py:161-181 | so on whole documents they agree exactly when no list takes in such a line |
| Fences.TameDocumentsAgree | infra/pc-kit/hwax-md2docx.py:161-181 | which is so without list items, or with no quote marker indented by 2 or more |
| Fences.AListHidesAFence | infra/pc-kit/hwax-md2docx.py:558-571 | a document on which they disagree |
| EnvFile.AnyKeyIsThePattern | infra/llm-router/llm_router.py:95 | the matcher of the readers of all keys accepts exactly the lines of the pattern, with its key and rest |
| EnvFile.AnyKeyIsIdentifier | infra/llm-router/llm_router.py:95 | and reads no key that is no identifier |
| EnvFile.OneKeyIsThePattern | infra/scripts/services.py:134 | so does the matcher of one key |
| EnvFile.DropsCommute | infra/scripts/services.py:143 | the order in which characters are dropped does not matter |
| EnvFile.KeyCharsAre | infra/llm-router/llm_router.py:95 | which characters a key is made of, and which are blanks |
| EnvFile.CutIs | infra/llm-router/llm_router.py:96 | a value ends where the first comment begins: blanks and then a # |
| EnvFile.ReadsPlain | infra/llm-router/llm_router.py:108-109 | all three readers: a text without blanks, quotes and NULs is the value, whatever blanks are around it |
| EnvFile.ReadsBeforeComment | infra/llm-router/llm_router.py:108-109 | and a comment behind a blank is no part of it, while a # within it is |
| EnvFile.LinesAre | infra/llm-router/llm_router.py:105 | lines are split at line feeds alone |
| EnvFile.LastLineSays | infra/scripts/services.py:132-144 | the last line with the key says what its value is |
| EnvFile.EnvValues | infra/llm-router/llm_router.py:99-111 | the loop over the lines, the last line of a key wins |
| EnvFile.ReadEnv | infra/llm-status/collector.py:123-132 | empty values are missing |
| EnvFile.ConfigValues | infra/llm-router/llm_router.py:277-281 | quotes removed after reading |
| EnvFile.InfraValue | infra/scripts/services.py:117-145 | the last line wins, an empty value is none |
| EnvFile.CommentOnlyIsNoValue | infra/scripts/services.py:122-123 | a key with nothing but a comment has no value |
| EnvFile.ReadersAgree | infra/scripts/services.py:121-131 | for every text and every identifier key the three readers give the same value or the same absence |
| EnvFile.ReadersSay | infra/scripts/services.py:117-145 | and what they read is what the last line with the key says |
| Overlay.MergePatch | infra/personas/he_team.py:25-35 | recursion and loop compute the merge |
| Overlay.MergeIdempotent | infra/personas/he_team.py:25-35 | applying a patch twice is applying it once (section 2 of RFC 7386) |
| Overlay.MergeNullFree | infra/personas/he_team.py:25-35 | merging into nothing leaves no null behind |
| Overlay.MergeLeavesAlone | infra/personas/he_team.py:25-35 | what the patch does not name is unchanged, at every depth |
| Overlay.MergeAtNamed | infra/personas/he_team.py:25-35 | what it names is what it says |
| Overlay.CheckPatches | infra/personas/he_team.py:61-67 | the first error of the overlay, in its order |
| Overlay.OverBase | infra/personas/he_team.py:70-78 | the loop over the base personas |
| Overlay.OverNew | infra/personas/he_team.py:79-81 | the comprehensions over the overlay |
| Overlay.ApplyOverlay | infra/personas/he_team.py:44-86 | the whole of apply_overlay with its errors |
| Overlay.AppliedIs | infra/personas/he_team.py:68-82 | base personas without an entry as they are, those with a patch as it says at every path, those with null gone, in their order; behind them the new ones |
| Overlay.AppliedGroups | infra/personas/he_team.py:83-84 | groups patched if the overlay has any, and else as they were |
| Overlay.ReportIs | infra/personas/he_team.py:70-86 | which of the four lists a key is in |
| Overlay.FirstErrorIs | infra/personas/he_team.py:61-67 | which entries are refused, and that the first such decides |
| Overlay.RefusedIs | infra/personas/he_team.py:48-60 | what is refused before the entries are read, in which order |
| Overlay.OrderIsKept | infra/personas/he_team.py:47 | base order kept, new personas in overlay order behind |
| Overlay.ReportCounts | infra/personas/he_team.py:79-86 | how often each key is reported |
| Overlay.ReportPartitionsIff | infra/personas/he_team.py:44-47 | the report partitions the overlay's keys exactly when none of them names two base personas |
| Overlay.ASharedKeyIsReportedTwice | infra/personas/he_team.py:44-47 | two base personas with one key, which is reported twice |
| Overlay.OverlayTwiceIsOnce | infra/personas/he_team.py:44-86 | applying an overlay to its own result gives the same specification |

## Left out

- HTTP, TLS, sockets, asyncio, threads and timers: a network call is an outcome given to the model, a stretch of code between two awaits one event.
- The SQLite engine and SQL text: tables are maps from series to rows, a statement is a function on them, and a failing statement is given by the number of statements that succeed before it. The reads before folding count as one statement.
- A ROLLBACK that itself fails: it is taken to restore what BEGIN saw.
- SampleStore.Store.Add: once a time before 1970 is written, the tables are modelled as SQLite keeps them, with its truncating division, but nothing is claimed of their graphs.
- SampleStore.Store.Series: says nothing about samples that arrive before the mark, or after the clock went back; folding a cell again after its rows were trimmed is modelled but not claimed exact.
- Retention.GraphShowsCovered: the 7d and 35d graphs leave out unfolded samples that fall into the last folded point, as the code does.
- Floating point: rounding, and NaN or infinite readings beyond their being dropped.
- RouterMachine.RunKeepsCounts: requests share a finite number of slots, any number of them, each used again after its request has left.
- RouterMachine.RunKeepsListsFresh: only failures that are counted as going down; of the others, RouterMachine.OldListsAreForgottenIff says when they forget.
- Upstreams.BurstKeepsSpread: servers, model and time are fixed during a burst, as its premise says.
- Forwarding.Client.Respond: headers; one send at most fails, since nothing is sent after it.
- Hash ranks, term scores, model names and error texts: any values.
- The router's own endpoints, its logging, `models_error`, and the parsing of metrics pages and model lists.
- Delivery.DeliveryIsSafe: a relay that alters text; the length checks find some alterations and not others.
- Leases and other tasks on the engine, beyond an agent finding the lease gone or the task missing; prompts, reading pages, and the answers themselves.
- The agents a claim uses for itself beyond their count, and the report written at the end of a run.
- Window.OtherProcessesDoNotMatter: the collector keeps a limited number of samples, so inserted ones can push old ones out; that limit is not modelled.
- Parsing of metric pages: a histogram arrives as `histogram` hands it out, with rising bounds that end in +Inf.
- Regular expressions: a markdown line is its quote markers and what the patterns say of its body, which are not derived from characters; inline markup, list structure and rendering.
- EnvFile.ReadersAgree: keys that are no identifiers, which only the orchestrator's reader accepts; decoding of bytes.
- Overlay.ApplyOverlay: error texts, fingerprints and files; a blank key is any predicate on strings.
- Prompts, seat contracts, budgets and reports of the pipeline scripts; FastAPI routes, front end, service control and status boards.
