# OpenScale verified

A Dafny model of the stateful and algorithmic parts of OpenScale, with proofs. `dafny verify dfyconfig.toml` checks all
of it. Each module follows one component of the repository:

- **Jobs.** `JobRuns` is the `control_plane.job_runs` table with the SQL statements that the Go control-plane and the
  Python worker issue against it. `JobProtocol` is the whole system around that table as steps: the Run, ClearRuns and
  CancelAll handlers, any number of workers, the dispatch stream with repeated delivery, published events, one browser's
  Run All chain, row locks, and a worker death between any two steps. `JobSafety` proves its invariant participant by
  participant; `JobTheorems`, `JobCancel` and `RunAll` prove what holds over every run. `JobServices` and `RunEvents` are
  the same participants as the sequential code each of them runs, and `JobServiceSteps` proves that code to be steps of
  the protocol.
- **Event fan-out.** `Channels` is a bounded Go channel offered events without blocking, as an object and as a function
  of its own history. `StreamHubs` is the live-feed hub, whose object invariant covers any sequence of calls. `WsHubs` is
  the per-job hub with Go's slices: arrays that are appended to and cut in place, and snapshots that are copies.
  `HubRuns` interleaves that hub's relay loop, one send at a time, with tabs that arrive, leave and read, over plain
  lists; `HubRefinement` runs the slices, channels and snapshots side by side with those steps, over whole runs.
- **Replay.** `Replay` runs the send loop against any commands written to its control hash between any two reads, and
  with any of its calls to Redis and Kafka raising.
- **Silver and Gold.** `Silver` computes the vectorised masks and proves them against a per-row first-match classifier.
  `Aggregates` is group-by with Spark's null rules; `Gold` is the five tables and the laws between them.
- **Text, numbers, state.** `Csv`, `SqlGuard`, `Months`, `Migrations`, `StreamingWindow`, `ChartZoom`, with the shared
  `Strings`, `Arithmetic` and `Options`.

Code that changes state step by step is a class or a method with a loop, proved against a function of the old state;
the theorems are lemmas about those functions. Counts are integers, money, time and rates are exact reals.

Eight properties one would expect hold only under a condition, which is proved exact:

- *Run All starts a stage only after the previous stage succeeded.* `ClearTerminalRuns` says that an in-flight job's row
  cannot vanish, but a cancelled row can be cleared while its worker is still busy; the worker's final update then
  touches no row and its published success moves the chain on (`RunAll.StageDoneExactly`,
  `RunAll.ClearedRowLetsChainContinue`).
- *A run cancelled while queued stays cancelled.* True exactly if its Run handler does not mark it failed afterwards
  (`JobCancel.CancelledStaysCancelled`, `JobCancel.FailedEnqueueOverwritesCancelled`).
- *A run that cannot be enqueued is marked failed rather than left queued*, as the Run handler's comment promises. A row
  is left queued with no acknowledged enqueue exactly if the body is JSON's null, on which the handler panics after the
  INSERT, or both the enqueue and the update to failed fail (`JobServices.ControlPlane.Run`). With lost answers counted,
  no worker can ever find the row exactly under the condition of `JobServiceSteps.RunForgetsExactly`
  (`JobServiceSteps.NullBodyForgotten` is a case of it), and it then stays queued until a CancelAll
  (`JobTheorems.ForgottenWaits`).
- *When the server closes the socket, the browser's wait is over.* True exactly if the run was found
  (`RunEvents.CloseResolvesExactly`, `RunEvents.NotFoundNeverSettles`).
- *The per-job hub's relay survives a tab leaving.* True exactly if no tab leaves between an event's snapshot and its
  own turn to be sent it (`HubRuns.CrashExactly`, `HubRuns.LeavingMidFanOutCrashes`).
- *A new zoom lies inside the previous one.* True exactly if the range about to be set starts inside the display and
  ends inside it or the display reaches the last point, which only a refetch during the drag can prevent
  (`ChartZoom.StaysInsideExactly`, `ChartZoom.NewZoomInsidePrevious`, `ChartZoom.RefetchMidDragEscapes`).
- *A dropoff year outside the period is flagged*, as the validator describes SLV-009. True exactly if the dropoff is not
  in a later year (`Silver.DropoffFlagExactly`, `Silver.LaterDropoffUnflagged`).
- *The CSV export can be read back.* True exactly if the header and every row have at least one field
  (`Csv.ExportRoundTrips`): an empty record and a record of one empty field print alike.

The SQL guard's block comment closes at the first close found from the opening's first character, so that slash, star,
slash is a complete comment; the model keeps that.

## Model

| member | source | states |
|---|---|---|
| JobRuns.JobRunsTable.InsertJobRun | control-plane/internal/db/db.go:62-72 | Adds one queued row under a fresh id, with the given type, parameters and time and nothing else set, and returns it; no other row changes |
| JobRuns.JobRunsTable.MarkRunning | worker/db.py:20-33 | The guarded claim: true exactly when the row existed and was queued, and only then does it become running with its start time; nothing else changes |
| JobRuns.JobRunsTable.MarkTerminal | worker/db.py:36-63 | The unguarded write: whatever the row's status was, status, exit code, error, log, row count and metrics are the report's and the finish time is set; its other columns and all other rows stay, and a missing row stays missing |
| JobRuns.JobRunsTable.MarkFailed | control-plane/internal/db/db.go:234-240 | The unguarded failure write of one row, keeping its other columns |
| JobRuns.JobRunsTable.ClearTerminalRuns | control-plane/internal/db/db.go:109-117 | A row is left exactly if it was queued or running, and is left as it was |
| JobRuns.JobRunsTable.SelectActive | control-plane/internal/db/db.go:141-161 | The locked select in any row order: each active row once, with whether it was running |
| JobRuns.JobRunsTable.CancelActiveRuns | control-plane/internal/db/db.go:134-194 | Uncontended: every queued or running row becomes cancelled, finished now, with the user's message as its error, and no other row changes; each is returned once, after its update, with whether it was running before |
| JobServices.Worker.HandleMessage | worker/main.py:35-69 | Table and published events are Handled of the table before, for every type, row, live log and outcome; an exception leaves it exactly for a claimed job whose handler raises |
| JobServices.HandledMeans | worker/main.py:41-69 | What Handled says: an unknown type fails the row silently with its message, a row that is not queued is left alone, a raise leaves the row running; a return publishes running, the live lines in order and the status, and writes status, exit code (0 only for succeeded), error, joined log, row count and metrics, and nothing else of the row |
| JobServiceSteps.HandleMessageIsProtocol | worker/main.py:41-69 | On every path (unknown type, skip, raise, return) an uninterrupted handle_message is consecutive steps of the interleaving protocol, with the same table and published statuses and everybody else untouched |
| JobServiceSteps.RunIsProtocol | control-plane/internal/api/jobs_handler.go:41-103 | On every path (unknown type, failed INSERT with or without a row, null body, enqueue acknowledged or not, update to failed applied or not) Run is consecutive steps of the protocol: same table, same stream, no request left, everybody else untouched |
| JobServiceSteps.RunForgetsExactly | control-plane/internal/api/jobs_handler.go:36-98 | An inserted row ends up queued with no message, no worker and no handler left for it exactly if the INSERT's answer was lost, the body was null, or neither the message nor the update to failed got through |
| JobServiceSteps.NullBodyForgotten | control-plane/internal/api/jobs_handler.go:69-74 | With the body null this happens although every call succeeds: the nil map panics before the enqueue |
| JobServiceSteps.CancelAllIsProtocol | control-plane/internal/api/jobs_handler.go:170-196 | CancelAll is select, one lock per active row in any order, commit, one announcement per returned run, and a restart exactly if a row was running, of the protocol: same table, same published statuses |
| JobServices.ControlPlane.Run | control-plane/internal/api/jobs_handler.go:36-103 | 404 for unknown types; 500 for a failed INSERT, with no row unless its answer was lost; a panic exactly for a null body; otherwise 202. The row is left queued without an acknowledged enqueue exactly for a null body or when enqueue and update to failed both fail; the reply agrees with the row exactly if the enqueue or that update succeeded |
| JobServices.JsonNullExactly | control-plane/internal/api/jobs_handler.go:69-73 | The bodies on which the handler panics: JSON's null with nothing but JSON blanks around it |
| JobServices.ControlPlane.CancelAll | control-plane/internal/api/jobs_handler.go:166-200 | Announces each cancelled run once, in order, and asks for one restart exactly if some row was running before the call |
| JobServices.ControlPlane.PublishCancelled | control-plane/internal/api/jobs_handler.go:176-189 | The loop publishes one cancelled event per returned run, in order, and its flag is true exactly if some returned run was running |
| JobServices.CancelEventsAre | control-plane/internal/api/jobs_handler.go:176-189 | The announcements are one cancelled event per returned run, in order |
| JobServices.HadRunningMeans | control-plane/internal/api/jobs_handler.go:176-191 | That flag is true exactly if some row was running before the cancel |
| JobSafety.InvStep | worker/main.py:41-89 | The protocol's invariant (row lifecycle, one holder per job, starts only after claims, row locks exclusive and truthful, every running row held or stranded) survives any enabled action of any participant |
| JobSafety.ApiKeepsInv | control-plane/internal/api/jobs_handler.go:41-152 | ... in particular the Run and ClearRuns handlers' actions, including the unguarded MarkFailed |
| JobSafety.WorkKeepsInv | worker/main.py:35-69 | ... every worker action, including the unguarded mark_terminal and death at any point |
| JobSafety.CancelKeepsInv | control-plane/internal/db/db.go:134-194 | ... and every step of a CancelAll transaction, its notifications and its restart |
| JobTheorems.InvAlways | worker/main.py:72-89 | The invariant holds in every state of every run |
| JobTheorems.RankNeverDecreases | worker/db.py:20-63 | Over all runs a running row is never queued again and a finished row never active again, despite the unguarded writers |
| JobTheorems.LifecycleAlways | worker/db.py:28-53 | Over all runs finished_at is set exactly on terminal rows, a running row has started_at, a queued row does not |
| JobTheorems.ClearsExactly | control-plane/internal/db/db.go:109-117 | In the protocol too, ClearRuns may happen at any time and leaves exactly the rows that are queued or running, unchanged |
| JobTheorems.NothingIsRuledOut | worker/main.py:72-89 | In every state a worker may die, an idle one may take any message ever added, a request may be given up, an enqueue may reach the stream or not and be answered or not, a cancel call may begin or end: the theorems over runs exclude none of these |
| JobTheorems.ClientsAreFree | frontend/src/domains/pipelines/application/useRunAllJobs.ts:44-57 | Nor do they exclude a known job run under any fresh id, the chain's next stage, any published status or the row's own being seen by the browser, or its connection breaking |
| JobTheorems.HandlerStartsAtMostOnce | worker/main.py:48-56 | In every interleaving, with repeated delivery, any number of workers and deaths anywhere, a job's handler is called at most once |
| JobTheorems.StartFollowsClaim | worker/main.py:48-56 | A handler call is preceded by an event that took that job's row from queued to running |
| JobTheorems.CancelledWhileQueuedNeverStarts | worker/db.py:20-33 | A run that some CancelAll cancelled while queued is never started, before or after |
| JobTheorems.UnclaimableForever | worker/db.py:27-33 | Once a used id is unclaimed and not queued, no later event can make it claimable or claim it |
| JobTheorems.ForgottenWaits | worker/main.py:72-89 | A queued row that is on no stream, in no worker's hands and no handler's is never claimed in any run, and stays queued exactly until a CancelAll commits with its row locked |
| JobCancel.CommitIsExact | control-plane/internal/db/db.go:141-194 | At its commit, in any reachable state, the rows a cancel holds are exactly the rows of its select still active, each with its true status; it changes those and no other row, and restart is wanted iff one of them was running |
| JobCancel.CommitRows | control-plane/internal/db/db.go:163-170 | The rows a commit changes become cancelled, finished now, with the user's message as error; every other row is kept |
| JobCancel.CancelIsAtomic | control-plane/internal/db/db.go:134-194 | Whatever interleaves between select and commit, one CancelAll cancels exactly the rows active at both moments |
| JobCancel.CancelledStaysCancelled | control-plane/internal/db/db.go:234-240 | A row cancelled while queued is, as long as it is not cleared, still cancelled exactly if its Run handler has not marked it failed since |
| JobCancel.EnqueuedStaysCancelled | control-plane/internal/api/jobs_handler.go:87-98 | If its enqueue had been acknowledged before the cancel, the row stays cancelled until it is cleared |
| JobCancel.FailedEnqueueOverwritesCancelled | control-plane/internal/api/jobs_handler.go:87-98 | A run in which a failing enqueue overwrites cancelled with failed, so the condition above is needed |
| JobCancel.RunningNeverExceeds | worker/main.py:79-89 | With N workers the rows in running never exceed N plus the deaths so far (restarts, crashes, exceptions leaving handle_message) |
| JobCancel.RunningBounded | worker/main.py:41-69 | In any state where every running row is held or stranded, their number is at most workers plus deaths while holding a job |
| RunAll.StageFollowsSuccess | frontend/src/domains/pipelines/application/useRunAllJobs.ts:44-57 | Over the whole stack, Run All's inserted stages are a prefix of the pipeline order, and when a stage is inserted every earlier one's row had been committed succeeded or partial, or was cleared while its worker still held it |
| RunAll.StatusMovesChain | frontend/src/domains/pipelines/application/useRunAllJobs.ts:51-57 | What a status does to a waiting chain: succeeded and partial move it to the next stage or to its end, failed and cancelled stop it, queued and running leave it waiting |
| RunAll.StageDoneExactly | frontend/src/domains/pipelines/application/waitForRunTerminal.ts:14-28 | For each completed stage of the chain: its row was committed succeeded or partial exactly if it was not cleared in flight |
| RunAll.ClearedInFlightNeverDone | control-plane/internal/db/db.go:109-117 | A row cleared while a worker holds its job is never succeeded or partial, before or after |
| RunAll.ReportMissesExactly | worker/db.py:36-63 | Over all runs, mark_terminal finds no row exactly if a ClearRuns had removed it while a worker held the job |
| RunAll.ClearedRowLetsChainContinue | worker/main.py:57-67 | A run in which cancel, clear, a mark_terminal that updates no row and its published success let the chain insert silver although ingest never succeeded in the table |
| RunAll.TruthAlways | worker/main.py:57-67 | Every published or pending terminal status was held by its row when published, except for rows cleared in flight: rows are committed before they are announced |
| RunEvents.RelayEvents | control-plane/internal/ws/handler.go:83-98 | The relay loop sends a prefix of the events, closes exactly after sending a succeeded, partial or failed status, sends nothing after one, and stops earlier only if the client is gone or a write fails |
| RunEvents.HandleJobWS | control-plane/internal/ws/handler.go:53-103 | Frames for every lookup result, event stream and point at which writing stops: nothing and a close if the run is unknown, else a prefix of the backfill and the relayed events, all of them and the server's close if nothing stops it |
| RunEvents.WaitForRunTerminal | frontend/src/domains/pipelines/application/waitForRunTerminal.ts:14-28 | Resolves exactly if a backfill or status frame that arrives before any socket error says succeeded, partial, failed or cancelled, to the first such state; rejects on an error before that; otherwise, a plain close included, stays unsettled |
| RunEvents.FirstTerminalExactly | frontend/src/domains/pipelines/application/waitForRunTerminal.ts:4-24 | The first backfill or status frame with one of the four states, cancelled among them, is the one that counts |
| RunEvents.WatchResolvesToFirstTerminal | control-plane/internal/ws/handler.go:66-103 | Although the server's terminal test omits cancelled and it stops relaying early, the browser resolves to the first terminal status of the row followed by the whole event stream |
| RunEvents.ServerCloseMeansResolved | control-plane/internal/ws/handler.go:75-98 | When the server closes on a status of a run it found, the browser has resolved |
| RunEvents.CloseResolvesExactly | control-plane/internal/ws/handler.go:66-98 | After any close by the server, the browser has resolved exactly if the run was found |
| RunEvents.NotFoundNeverSettles | control-plane/internal/ws/handler.go:66-70 | A run that is not found is closed without a frame, and the browser's promise stays unsettled |
| RunEvents.RunAllJobs | frontend/src/domains/pipelines/application/useRunAllJobs.ts:44-57 | For every outcome of the stages: triggers, in the order ingest, silver, gold, features, train, the leading stages that succeed or are partial and one more, and ends done, stopped at the first failed or cancelled stage, or showing the stage whose promise rejected |
| Channels.Channel.TrySend | control-plane/internal/ws/hub.go:34-39 | A non-blocking send appends when there is room and drops otherwise; it needs the channel open |
| Channels.Channel.TryReceive | control-plane/internal/ws/handler.go:87-92 | A receive takes the oldest buffered item, also from a closed channel, and never changes what was delivered |
| Channels.DeliveredIsSubsequence | control-plane/internal/ws/hub.go:33-40 | What a channel received and holds is an in-order subsequence of what it was offered |
| Channels.SubsequencePositions | control-plane/internal/ws/hub.go:33-40 | In-order subsequence means strictly increasing positions holding equal items |
| Channels.BufferBounded | control-plane/internal/ws/hub.go:47 | A channel never holds more than its capacity |
| Channels.NothingLostExactly | control-plane/internal/ws/hub.go:34-39 | Everything offered is delivered exactly if no offer met a full buffer |
| Channels.OfferAll | control-plane/internal/streaming/hub.go:44-49 | A non-blocking send to each of a set of open channels, in any order, has its effect on each once |
| WsHubs.Append | control-plane/internal/ws/hub.go:50 | Go's append: in place when the array has room, otherwise into a larger copy; the listed channels are the old ones and the new one |
| WsHubs.Cut | control-plane/internal/ws/hub.go:59 | The in-place removal loop shifts the tail left in the same array and keeps every other channel in order |
| WsHubs.Remove | control-plane/internal/ws/hub.go:57-62 | The search and removal: the first occurrence of the channel goes, nothing else moves out of order |
| WsHubs.Hub.Subscribe | control-plane/internal/ws/hub.go:46-52 | A fresh open channel of capacity 16 at the end of its job's list; every other job's list unchanged |
| WsHubs.Hub.Unsubscribe | control-plane/internal/ws/hub.go:53-67 | The channel leaves its job's list and is closed; the job is listed exactly while somebody is left; other jobs unchanged although arrays are edited in place |
| WsHubs.Hub.Snapshot | control-plane/internal/ws/hub.go:29-31 | A copy of the job's list in an array of its own |
| WsHubs.SendAll | control-plane/internal/ws/hub.go:33-40 | Every channel of a snapshot is offered the event once, and what each then holds depends on its own buffer only |
| WsHubs.Relay | control-plane/internal/ws/hub.go:27-41 | One uninterrupted turn offers the event to exactly the subscribers of its job |
| WsHubs.LeaveDuringFanOut | control-plane/internal/ws/hub.go:29-33 | A removal between snapshot and sends shortens the hub's list in place and leaves the snapshot as it was |
| WsHubs.ArriveDuringFanOut | control-plane/internal/ws/hub.go:29-50 | A subscription between snapshot and sends joins the list and not the snapshot |
| HubRefinement.Subscribe | control-plane/internal/ws/hub.go:46-52 | Whenever hub, channels and snapshot stand for a reachable state of the step system (slices, histories, buffers and what is left to send), Subscribe leaves them standing for the state after Arrive |
| HubRefinement.Unsubscribe | control-plane/internal/ws/hub.go:53-67 | ... Unsubscribe for the state after Leave |
| HubRefinement.Snapshot | control-plane/internal/ws/hub.go:29-31 | ... the relay's snapshot for the state after Snapshot, its array being what is left to send |
| HubRefinement.SendNextTo | control-plane/internal/ws/hub.go:33-40 | ... one pass of the send loop for the state after SendNext, panicking exactly where the step system crashes |
| HubRefinement.LoopEnds | control-plane/internal/ws/hub.go:33-41 | ... the end of the send loop for the state after Finish |
| HubRefinement.ReadFrom | control-plane/internal/ws/handler.go:87-92 | ... and a receive for the state after Read |
| HubRefinement.Play | control-plane/internal/ws/hub.go:26-69 | A whole run: for every interleaving, the objects made by the hub's own code from an empty hub stand for the step system's final state, and the relay has panicked exactly if that crashed |
| HubRuns.InvStep | control-plane/internal/ws/hub.go:26-69 | Every step of relay, arriving, leaving and reading tabs keeps: lists hold exactly the open tabs in order of arrival, and each tab was offered exactly its due events except the one still pending |
| HubRuns.Delivery | control-plane/internal/ws/hub.go:26-69 | At any moment of any run a tab has been offered exactly its own job's events relayed while it was subscribed, but for the one still pending; it has an in-order subsequence of them, at most 16 waiting, and all of them (none pending) exactly if none met a full buffer |
| HubRuns.SlowReadersDoNotMatter | control-plane/internal/ws/hub.go:33-40 | Deleting every read of every other tab from a run gives a possible run that leaves this tab's history and contents identical |
| HubRuns.LeavingDoesNotMatter | control-plane/internal/ws/hub.go:33-67 | For every run that does not crash there is a run in which no other tab leaves, the same but for when the relay sends, that leaves this tab's history and contents identical |
| HubRuns.CrashExactly | control-plane/internal/ws/hub.go:28-67 | At the end of an event or of the process, the relay has sent on a closed channel exactly if some tab left between an event's snapshot and its own turn |
| HubRuns.LeavingMidFanOutCrashes | control-plane/internal/ws/hub.go:28-67 | A four-step run in which that happens |
| StreamHubs.StreamHub.Subscribe | control-plane/internal/streaming/hub.go:20-26 | A fresh, empty, open channel joins and is due every frame from now on |
| StreamHubs.StreamHub.Unsubscribe | control-plane/internal/streaming/hub.go:27-35 | Idempotent: the channel is closed once, only when it is still subscribed, and keeps what it holds |
| StreamHubs.StreamHub.Broadcast | control-plane/internal/streaming/hub.go:41-50 | In any iteration order every subscriber is offered the frame once and no send meets a closed channel; the hub's invariant (open, offered exactly the frames since subscribing) survives |
| StreamHubs.StreamHub.Delivery | control-plane/internal/streaming/hub.go:20-50 | A subscriber's frames are an in-order subsequence of those since it subscribed, at most 32 waiting, all of them exactly if no offer met a full buffer |
| Replay.ResolveLimit | worker/jobs/replay.py:61-62 | For every number or text parameter the limit lands in 1..5000, or the conversion raises, exactly for a non-empty text that is no integer |
| Replay.ResolveRate | worker/jobs/replay.py:64-65 | For every number or text parameter the rate lands in 0.1..100, or the conversion raises, exactly for a non-empty text that is no number |
| Replay.LimitKept | worker/jobs/replay.py:61-62 | A limit within bounds is kept and one above is cut to 5000, sent as a number or as a text; a missing or empty one and the number zero become 500, a zero or negative otherwise 1 |
| Replay.LimitCut | worker/jobs/replay.py:61 | A number that is no integer is cut towards zero |
| Replay.RateKept | worker/jobs/replay.py:64-65 | A rate within bounds is kept and one above is cut to 100; a missing or empty one and the number zero become 10, one below 0.1 otherwise 0.1 |
| Replay.InitialisedKeeps | worker/jobs/replay.py:156-164 | Initialisation keeps whatever has been written and fills the rest with not paused, speed 1 and not cancelled |
| Replay.AcceptedIsReachable | control-plane/internal/api/jobs_handler.go:234-250 | A control request that is accepted writes one of the five whitelisted speeds or a flag |
| Replay.RequestWrites | control-plane/internal/api/jobs_handler.go:234-250 | By the request's action: pause, resume and cancel write one flag, setSpeed with one of the five speeds writes that speed, nothing else changes, and everything else is refused |
| Replay.PausedByTheLast | worker/jobs/replay.py:107-119 | The hash says paused exactly if the last pause, resume or expiry is a pause |
| Replay.SpeedByTheLast | worker/jobs/replay.py:194 | The speed read is the last one set, or 1 if the hash has expired since |
| Replay.OthersKeep | control-plane/internal/redis/redis.go:90-101 | Commands about one field leave the others as they were |
| Replay.ReadsSeeCommands | worker/jobs/replay.py:103-115 | Every read of a run returns the hash as all commands before it left it, in order; in particular it is paused exactly if the last of pause, resume and expiry before it is a pause |
| Replay.PollControl | worker/jobs/replay.py:97-121 | Against any commands arriving between reads and any log line failing: returns go only after a read with neither flag, returns cancelled exactly if some read said so, raises only for a failed read or line, sends nothing, logs paused and resumed alternately |
| Replay.SendTrip | worker/jobs/replay.py:199-202 | One send, and a progress line exactly after every fiftieth |
| Replay.SendOne | worker/jobs/replay.py:198-206 | One send then one sleep of exactly 1/rate divided by the speed last read, at least a millisecond; no sleep if the progress line raises |
| Replay.GiveUp | worker/jobs/replay.py:209-212 | The except branch: the error line, then failed with the count sent so far, or an exception leaving the job if publishing that line raises too |
| Replay.StopCancelled | worker/jobs/replay.py:189-193 | After a read that saw the cancel: cancelled with the hash deleted, exactly unless its line or the deletion raises, which ends failed |
| Replay.Flush | worker/jobs/replay.py:208-220 | After the last send: a flush that raises ends failed with every trip sent; then a deletion or last line that raises leaves the job as an exception, and otherwise the run succeeds with the full count |
| Replay.SendLoop | worker/jobs/replay.py:186-220 | For every environment and any set of raising calls: sends a prefix of the trips, ends for the reason it reports with the count it sent, and deletes the control hash on success and cancel |
| Replay.Run | worker/jobs/replay.py:124-220 | The whole job, whichever of its calls to Redis and Kafka raise: a safe, truly read and correctly paced trace, at most 5000 sends, a prefix of the day cut to the limit, and the ending that the trace and what raised justify; a parameter that does not convert or a failed initialisation leaves it as an exception with nothing done |
| Replay.EndingsMean | worker/jobs/replay.py:124-220 | What the endings say: succeeded reports all trips and no read saw a cancel, cancelled means one did, failed and cancelled report the count sent or nothing |
| Replay.WatchedIsSafe | worker/jobs/replay.py:186-206 | Whatever a one-pass monitor of sends, reads, sleeps and log lines lets through satisfies the quantified safety predicate |
| Replay.NoSendWhilePaused | worker/jobs/replay.py:107-119 | Between a read that saw paused and a later send there is a read that saw it lifted |
| Replay.SendsFollowClearReads | worker/jobs/replay.py:97-121 | Before a send no read saw the cancel, and between the last read, which was not paused, and the send nothing else is sent |
| Replay.SleepsArePaced | worker/jobs/replay.py:184-206 | A sleep times the rate times the speed last read is exactly 1 |
| Replay.PauseLinesPair | worker/jobs/replay.py:107-119 | resumed is logged only after a paused that nothing has resumed, and paused only outside a pause |
| Replay.CancelVisibleExactly | worker/jobs/replay.py:156-165 | On a cancelled hash, commands leave the cancel visible exactly if every expiry among them is followed by another cancel |
| Replay.FirstReadSeesCancelExactly | worker/jobs/replay.py:156-165 | A cancel written before the start is what the first read sees exactly if the commands before that read keep it: initialisation does not overwrite it |
| Replay.CancelledBeforeStartSendsNothing | worker/jobs/replay.py:156-193 | Then, or if the first read fails or never comes, no trip is ever sent |
| Replay.SendsApart | worker/jobs/replay.py:184-206 | Under any clock, successive sends are at least 1/1000 s apart |
| Replay.RateBounded | worker/jobs/replay.py:184-206 | Any interval of T seconds holds at most 1000 T + 1 sends, whatever commands arrive |
| Silver.ComputeRules | worker/spark/silver/validator.py:66-77 | The rule columns with null comparing false, row by row |
| Silver.RulesMean | worker/spark/silver/validator.py:71-77 | The rule columns spelt out: below 0, above 100, at most 0, a null breaking none of them |
| Silver.ComputeMasks | worker/spark/silver/validator.py:79-91 | The vectorised categories, each minus the earlier ones, answer at every row as the first-match classifier does; reject and quarantine are its two tiers |
| Silver.AcceptedExactly | worker/spark/silver/validator.py:66-91 | A row is accepted exactly if its dropoff is after its pickup, its distance is in 0..100, its passengers are positive and its fare and total are not negative, nulls passing except in the times; it is rejected exactly for its times or a negative distance |
| Silver.FirstBrokenRule | worker/spark/silver/validator.py:79-86 | Of several broken rules the first in the order times, distance, passengers, fare, total gives the class |
| Silver.FramesKeepOrder | worker/spark/silver/validator.py:86-114 | Each of the six frames holds exactly the input positions of its class, in input order |
| Silver.FramesPartition | worker/spark/silver/validator.py:86-114 | The six frames' sizes add up to the input: with the above, every row is in exactly one frame |
| Silver.TiersCover | worker/spark/silver/validator.py:122-126 | Accepted, rejected and quarantined rows add up to the processed rows |
| Silver.RejectedIsCount | worker/spark/silver/validator.py:125 | The report's rejected count is the number of rejected rows |
| Silver.MissingIsCount | worker/spark/silver/validator.py:97 | Each null count is the number of rows with a null in that column |
| Silver.PickupFlagsIsCount | worker/spark/silver/validator.py:133 | The flagged pickups are the rows whose pickup flag is set |
| Silver.DropoffFlagsIsCount | worker/spark/silver/validator.py:134 | The flagged dropoffs are the rows whose dropoff flag is set |
| Silver.DuplicatesAndDistinct | worker/spark/silver/validator.py:127 | Duplicates plus distinct rows are all rows |
| Silver.ProcessPeriod | worker/spark/silver/validator.py:60-143 | Frames, flags and report of one period: the accepted rows in order, each flagged by its own pickup and dropoff years; processed = accepted + rejected + quarantined, the five category counts are the frames' sizes and sum to rejected + quarantined |
| Silver.Run | worker/spark/silver/validator.py:146-152 | Over any list of periods the reports' accepted and flagged counts add up to the whole Silver dataset's, and each report balances |
| Silver.DropoffFlagExactly | worker/spark/silver/validator.py:95 | On every accepted row the dropoff flag says that the dropoff year is not the period's exactly if that year is not later |
| Silver.LaterDropoffUnflagged | worker/spark/silver/validator.py:95 | A trip over New Year is accepted with a dropoff outside its period's year and is not flagged |
| Silver.LakeRowsHaveAPeriod | worker/spark/silver/validator.py:86-95 | Every Silver row is an accepted row of some period and is flagged exactly if its pickup year is not that period's |
| Aggregates.Marginal | worker/feature_store/feature_jobs/compute_features.py:38-46 | Adding the pair groups of a group-by over all partners of a key gives that key's group in the group-by over the key alone, for any weights |
| Aggregates.GroupsSumToWhole | worker/spark/gold/zone_stats.py:25-33 | The groups of a group-by add up to the whole column, for any weights |
| Aggregates.CountIsSize | worker/spark/gold/zone_stats.py:25-28 | A group's count is its number of rows |
| Aggregates.NonNullIsSize | worker/spark/gold/hourly_demand.py:28-32 | The values a group's average divides by are its rows that are not null |
| Aggregates.SumOfOne | worker/spark/gold/zone_stats.py:25-33 | A group's sum over one row is the row's value, null if it has none |
| Aggregates.SumOfConcat | worker/spark/gold/zone_stats.py:25-33 | ... and over rows after rows the sum of both sums, null only if both are: together these fix every group's sum |
| Aggregates.WholeOfConcat | worker/spark/gold/daily_revenue.py:30-40 | The whole-column totals of the conservation laws add up over rows after rows, and over one row are its value, a null counting 0 (with WholeOfOne) |
| Aggregates.AvgTimesCount | worker/spark/gold/hourly_demand.py:28-32 | A null-skipping average times the number of its non-null rows is their sum, and it is null exactly for a group without values |
| Gold.ZoneRowHolds | worker/spark/gold/zone_stats.py:24-35 | A zone's row: its trips counted, their totals summed, their fares, distances and tips averaged, each from the trip's own field |
| Gold.HourRowHolds | worker/spark/gold/hourly_demand.py:24-35 | An hour's row, the hour being that of the pickup: trips, average fare, distance and passengers |
| Gold.FeatureRowHolds | worker/feature_store/feature_jobs/compute_features.py:37-46 | A zone and hour's row: trips, average fare, distance, tip and passengers |
| Gold.DayRowHolds | worker/spark/gold/daily_revenue.py:26-42 | A date's row: trips, summed totals, fares and tips, average fare |
| Gold.CongestionRowHolds | worker/spark/gold/congestion_metrics.py:24-44 | A date's row: trips, trips with a positive surcharge, summed surcharges, and the percentage of the former two |
| Gold.TablesHoldRows | worker/spark/gold/daily_revenue.py:24-42 | Each table holds exactly these rows, one per key that occurs, the dated ones after the filter |
| Gold.UnflaggedConcat | worker/spark/gold/daily_revenue.py:26 | The filter keeps, in order, exactly the rows whose pickup year is not flagged |
| Gold.FeaturesSumToHourlyDemand | worker/feature_store/feature_jobs/compute_features.py:37-46 | For every Silver dataset, zone by hour counts summed over zones are the hourly demand counts |
| Gold.FeaturesSumToZoneStats | worker/spark/gold/zone_stats.py:24-35 | ... and summed over hours are the zone counts |
| Gold.AveragesRecombineToHours | worker/spark/gold/hourly_demand.py:24-35 | Zone by hour averages of fare, distance and passengers, each times the number of its non-null rows, recombine to the hourly averages |
| Gold.AveragesRecombineToZones | worker/spark/gold/zone_stats.py:24-35 | ... and those of fare, distance and tip to the zone averages |
| Gold.EveryTableCountsEveryTrip | worker/spark/gold/hourly_demand.py:24-35 | The three unfiltered tables each count every Silver row once |
| Gold.DailyTotalIsUnflagged | worker/spark/gold/daily_revenue.py:26-42 | Daily counts total the Silver rows minus those flagged by pickup year |
| Gold.ZoneRevenueIsConserved | worker/spark/gold/zone_stats.py:24-35 | Zone revenues add up to the dataset's non-null totals |
| Gold.DailyMoneyIsConserved | worker/spark/gold/daily_revenue.py:26-42 | Daily revenue, fares and tips add up to the unflagged rows' non-null columns |
| Gold.DailyAverageMatchesTotal | worker/spark/gold/daily_revenue.py:33-40 | A day's average fare and total fare are null together and describe the same values |
| Gold.SurchargesAreConserved | worker/spark/gold/congestion_metrics.py:31-38 | Daily surcharges add up to the unflagged rows' surcharges |
| Gold.CongestionAgreesWithDaily | worker/spark/gold/congestion_metrics.py:24-44 | The two per-date tables have the same dates and counts, congested trips are among them, and the percentage lies in 0..100 |
| Gold.TablesMatchReports | worker/spark/gold/daily_revenue.py:26-42 | From Bronze to Gold: the tables' totals are the Silver reports' accepted counts, and for daily revenue those minus the flagged |
| Gold.DatesBelongToPeriods | worker/spark/gold/daily_revenue.py:27-30 | No bogus revenue days: every date of daily revenue is the pickup date of an accepted trip of a period whose year it falls in |
| Gold.HoursOfTheDay | worker/spark/gold/hourly_demand.py:26-27 | Hourly demand has no null hour and only hours 0 to 23 |
| Csv.BuildCsv | frontend/src/domains/sql-editor/domain/rules.ts:37-43 | The loop's text is the header line and one escaped line per row, joined by CRLF |
| Csv.RecordsAre | frontend/src/domains/sql-editor/domain/rules.ts:25-42 | The records are the columns and then each row's cells: null and undefined empty, an object its JSON, anything else its own text |
| Csv.EscapedOnlyIfNeeded | frontend/src/domains/sql-editor/domain/rules.ts:31-33 | A field is changed exactly if it holds a quote, a comma, CR or LF |
| Csv.ExportRoundTrips | frontend/src/domains/sql-editor/domain/rules.ts:25-43 | An independent parser of section 2 of RFC 4180 reads back exactly the header and every cell text, if and only if header and rows have at least one field each |
| Csv.ExportInjective | frontend/src/domains/sql-editor/domain/rules.ts:25-43 | Two exports of such results with equal text hold equal columns and cell texts |
| Csv.ParseQuoted | frontend/src/domains/sql-editor/domain/rules.ts:31-33 | Doubling quotes is undone by reading inside quotes, whatever follows the field |
| SqlGuard.TrimLeadingSQLNoise | control-plane/internal/api/query_handler.go:130-153 | The loop terminates and computes the trimmed text |
| SqlGuard.NextShrinks | control-plane/internal/api/query_handler.go:133-151 | One pass strictly shortens the text or leaves it unchanged, which is what ends the loop |
| SqlGuard.TrimmedIdempotent | control-plane/internal/api/query_handler.go:130-153 | Trimming twice is trimming once |
| SqlGuard.TrimmedRemovesNoise | control-plane/internal/api/query_handler.go:130-153 | What is removed is exactly a run of blanks and complete comments; the rest starts clear, or is a comment that never ends and is dropped whole |
| SqlGuard.NoiseTrimmed | control-plane/internal/api/query_handler.go:130-153 | Any run of complete noise tokens in front, a block comment closing at the first close found even inside its opening, does not change the trimmed text |
| SqlGuard.BlankTrimmed | control-plane/internal/api/query_handler.go:134 | A space, tab, CR or LF in front changes nothing |
| SqlGuard.LineCommentTrimmed | control-plane/internal/api/query_handler.go:136-141 | Nor does a line comment with its newline |
| SqlGuard.BlockCommentTrimmed | control-plane/internal/api/query_handler.go:142-147 | Nor does a block comment, with any text that does not close it early |
| SqlGuard.OtherStartKept | control-plane/internal/api/query_handler.go:148-151 | A text that starts with neither blank nor comment is left as it is |
| SqlGuard.SplitJoins | control-plane/internal/api/query_handler.go:158 | Joining the parts with semicolons gives the text back, and no part holds a semicolon |
| SqlGuard.SplitOfJoin | control-plane/internal/api/query_handler.go:158 | The split is the only such list: splitting joined semicolon-free parts gives those parts |
| SqlGuard.NonEmptyStatements | control-plane/internal/api/query_handler.go:157-166 | The non-blank segments between semicolons, in order |
| SqlGuard.SelectBodyExactly | control-plane/internal/api/query_handler.go:114-118 | Which bodies are admitted, character by character: select or with in any letter case, the dotted capital I included |
| SqlGuard.ValidateReadOnlySQL | control-plane/internal/api/query_handler.go:109-125 | Empty exactly for nothing but Unicode white space; else not-select exactly unless the trimmed body starts with select or with in any letter case; accepted exactly if it does and nothing but blanks stands after the first semicolon |
| SqlGuard.AcceptedExactly | control-plane/internal/api/query_handler.go:109-125 | The acceptance condition for every text: such a body, and only blank segments after the first |
| SqlGuard.NoisePrefixKeepsVerdict | control-plane/internal/api/query_handler.go:109-153 | Prefixing complete noise without semicolons keeps the verdict; only a blank text behind a comment changes its rejection reason |
| Months.MonthRange | worker/ingestion/downloader/downloader.py:87-98 | The tuple loop computes the range function for any integers |
| Months.RangeExactly | worker/ingestion/downloader/downloader.py:92-97 | Between real months the list has max(0, 12(ey-sy)+(em-sm)+1) entries, the i-th being i months after the start |
| Months.RangeIsRealMonths | worker/ingestion/downloader/downloader.py:88-97 | Month numbers are not checked: the list is made of real months exactly if it is empty or its start is one |
| Months.ExpandMonthRange | control-plane/internal/db/dashboards.go:353-364 | The text loop, empty when a text does not parse or the end is before the start |
| Months.FormatIs | frontend/src/domains/pipelines/ui/RunJobForm.tsx:107-114 | A month's text is its year in four digits, a dash and its month in two |
| Months.ParsesExactly | control-plane/internal/db/dashboards.go:354-356 | A text parses exactly if it is the text of a month, to that month |
| Months.LoopsAgree | control-plane/internal/db/dashboards.go:353-364 | On texts that parse, the control-plane's list is the worker's list, month by month |
| Months.TextOrderIsChronological | frontend/src/domains/pipelines/ui/RunJobForm.tsx:116-117 | For four-digit years, string order of YYYY-MM is chronological order |
| Months.Compose | frontend/src/domains/pipelines/ui/RunJobForm.tsx:107-114 | A field is composed exactly when both of its selects are set, as year-month |
| Months.FormAcceptsNonEmptyRanges | frontend/src/domains/pipelines/ui/RunJobForm.tsx:116-120 | With both months chosen the form can be submitted exactly if the worker's range is not empty |
| Months.SubmitNeedsAll | frontend/src/domains/pipelines/ui/RunJobForm.tsx:116-120 | Submitting needs every field composed and no run being started |
| Months.IngestedMonthsCount | control-plane/internal/db/dashboards.go:321-351 | The loop's set has the size of the union over all runs whose params decode |
| Months.CoveredIsUnion | control-plane/internal/db/dashboards.go:330-350 | A month is counted exactly if some run's range contains it |
| Months.CoveredAreMonths | control-plane/internal/db/dashboards.go:360-362 | Everything counted is the text of a month |
| Migrations.SortedNamesSorted | control-plane/internal/db/migrate.go:44-50 | The names are exactly the .sql files, strictly sorted |
| Migrations.SqlSuffixIs | control-plane/internal/db/migrate.go:45-47 | The files taken are those whose name ends in dot, s, q, l |
| Migrations.Database.Migrate | control-plane/internal/db/migrate.go:52-87 | From a state where a prefix of the names is applied, whatever each file's turn meets: again a prefix, never shorter; success exactly if every applied file's check succeeds and every other file commits; a call after completion changes nothing |
| Migrations.ExecutedAre | control-plane/internal/db/migrate.go:68-80 | While a prefix of the names is applied, the executed texts are those files' own, in order |
| Migrations.MigrateRepeatedly | control-plane/internal/db/migrate.go:52-87 | After any number of interrupted or failed calls the versions are a prefix of the sorted names and the executed texts are exactly those files', once each, in order; one undisturbed call completes |
| StreamingWindow.WindowAccumulator.Add | control-plane/internal/streaming/window.go:22-27 | The count grows by one and each sum by the trip's own amount; nothing else changes |
| StreamingWindow.WindowAccumulator.Flush | control-plane/internal/streaming/window.go:31-51 | The aggregate accounts for exactly the sums since the last flush, rate and averages included, and the next window starts empty where this one ended |
| StreamingWindow.ConsumerTurn | control-plane/internal/streaming/consumer.go:56-78 | One turn of the select loop: a tick flushes and broadcasts the window, a trip is added and broadcast, anything else changes nothing |
| StreamingWindow.ConsumerRun | control-plane/internal/streaming/consumer.go:56-78 | Over any interleaving of ticks, trips, malformed messages and read errors: the trip frames are the decoded trips, one window frame per tick, each accounting for the trip frames since the one before |
| StreamingWindow.FlushedPlusPendingIsAll | control-plane/internal/streaming/consumer.go:61-72 | Trips and revenue in all windows plus what is pending are all decoded trips' |
| StreamingWindow.WindowAccountsForItsTrips | control-plane/internal/streaming/window.go:38-43 | The trip frames between two consecutive window frames number the later one's tripCount and total its revenue |
| StreamingWindow.WindowAverages | control-plane/internal/streaming/window.go:44-47 | ... and average to its fare and distance averages, 0 without trips |
| StreamingWindow.SumsOfConcat | control-plane/internal/streaming/window.go:22-27 | Revenue, fares and distance add up over trips after trips (and, by SumsOfOne, over one trip are its own) |
| StreamingWindow.WindowsTileTime | control-plane/internal/streaming/window.go:32-50 | A window, empty or not, starts exactly where the previous one ended and its rate is over exactly the time in between, so windows tile time without gaps |
| StreamingWindow.FirstWindow | control-plane/internal/streaming/window.go:18-20 | The first window starts when the accumulator was made and accounts for every trip before it |
| ChartZoom.Hook.Finish | frontend/src/domains/dashboards/ui/charts/useChartZoom.ts:39-47 | Ends the drag and zooms to the dragged points, offset by the base the listener closed over, unless the drag covers a single point |
| ChartZoom.Hook.StartDrag | frontend/src/domains/dashboards/ui/charts/useChartZoom.ts:26-29 | Both drag ends are set, and the listener is registered anew with the current base offset if that changed them |
| ChartZoom.Hook.UpdateDrag | frontend/src/domains/dashboards/ui/charts/useChartZoom.ts:31-33 | The drag's end moves, and the listener is registered anew with the current base offset if that changed it |
| ChartZoom.Hook.Reset | frontend/src/domains/dashboards/ui/charts/useChartZoom.ts:72 | Only the zoom is dropped; points, base and a drag in progress stay |
| ChartZoom.AnyPointCanBeDragged | frontend/src/domains/dashboards/ui/charts/useChartZoom.ts:26-33 | Every sequence means every one: a drag may start at any displayed point and go to any, and a reset or refetch may happen at any time |
| ChartZoom.DisplayIsSlice | frontend/src/domains/dashboards/ui/charts/useChartZoom.ts:17-24 | After any sequence of drags, resets and refetches the display is the contiguous slice starting at baseOffset, of at least two points when there are two: everything without a zoom, and with one its range cut to the points there are |
| ChartZoom.StaysInsideExactly | frontend/src/domains/dashboards/ui/charts/useChartZoom.ts:37-51 | At any reachable mouseup after a drag over more than one point, the new zoom stays inside the display exactly if the range about to be set starts inside it and either ends inside it or the display already reaches the last point |
| ChartZoom.PointDragKeepsDisplay | frontend/src/domains/dashboards/ui/charts/useChartZoom.ts:40 | A drag that ends where it began leaves the display as it was |
| ChartZoom.NewZoomInsidePrevious | frontend/src/domains/dashboards/ui/charts/useChartZoom.ts:37-51 | Without a refetch during the drag that condition always holds: the new display lies inside the previous one and is exactly the dragged points |
| ChartZoom.RefetchMidDragEscapes | frontend/src/domains/dashboards/ui/charts/useChartZoom.ts:43-51 | With a refetch during the drag it can start before the previous display, because the listener keeps the old base offset |

## Left out

- Liveness: whether a queued message is ever delivered, a stranded row ever leaves running, or an event lost between the
  backfill and the subscription is ever seen. Delivery is over-approximated: any message ever added may be taken by any
  worker at any time, any number of times, and the chain may observe any published status of its run.
- Redis consumer groups, acknowledgement and pending lists: a message killed before its acknowledgement is never re-read
  by the code, which is one of the behaviours of the over-approximated delivery.
- The Run All chain's date range, its idle reset timer and a second chain in another tab, which counts as other API calls.
- `ListJobRuns` paging, `CountJobRunsByStatus`, status labels and job-type lookups, which would add only easy members.
- HTTP, WebSocket, Kafka, MinIO, Docker and Parquet themselves, and the failures of their clients, except where the code
  branches on them: a failed INSERT, enqueue or update of a Run call, any Redis or Kafka call of the replay job, a socket
  that breaks, a failing migration step.
- Worker.HandleMessage: an exception from Postgres or Redis between two statements; in the protocol that is a worker
  death at that point.
- ControlPlane.Run: an unreadable request body, which is answered before anything happens, and a failure to encode the
  decoded parameters again, which decoded JSON cannot cause.
- Replay.ResolveLimit, Replay.ResolveRate: Python's own int() and float() are functions given to the model; texts of
  infinities and of not-a-number, and parameters that are lists or objects.
- Replay.Run: the waits between the polls of a pause, which appear as consecutive reads. `speed` values come from accepted
  commands or initialisation; other writers of the hash are not part of this model.
- Floating-point rounding in sums, averages, rates and delays: these are reals.
- Gold tables are maps from keys to rows: the orderings of zone_stats (by count), hourly_demand, daily_revenue and
  congestion_metrics (by key), the truncate-and-insert writes to Postgres, the Redis copies, and the failure of those
  writes on a null zone are left out. Hours and dates are computed from seconds in the session's time zone.
- Silver: the calendar year of a timestamp is a function given to the model; reading, writing and naming of the period
  files, and files left by earlier runs of other periods.
- Csv: a cell is given by its JSON or String(..) text.
- SqlGuard: invalid UTF-8 and the database's own read-only transaction.
- Months: years outside 0000 to 9999 in texts, and the form's clearing of a month when the year changes.
- Migrations: the applied_at column, creation of the schema_migrations table, a second caller at the same time, and a
  file set that changes between calls.
- ChartZoom: labels, magnification, and the charts' conversion of pixels to indices, which is taken to clamp to the
  displayed points.
- The legacy copy of the pipeline in etl-exposure, machine-learning training, monitoring, notebooks and appearance sync.
