# Kariz, verified in Dafny

Kariz runs catalogued commands in Docker and streams their output. This project models its
state machines and its codecs, and proves what they promise over every run.

To verify: `dafny verify dfyconfig.toml`

The parts, each a specification on values, theorems about it, and the program's own code as
classes and methods proved to take the specification's steps:

- **Event streams.** `StreamSpec` is one execution's stream as transitions: the log, the
  bounded replay buffer, the 256-slot channels. `StreamRuns` and `StreamResume` prove what
  every run keeps and what a client gets that leaves and comes back; `StreamManager` is the
  manager with its lock, its map and its channels.
- **Output.** `Demux` parses the engine's frames, `Capture` accumulates and publishes the
  chunks, `Sse` is the text written to the browser and the client's side of it by section
  9.2.6 of the WHATWG HTML Standard, `Delivery` is the handler's loop and the end-to-end
  theorem about a connection that breaks.
- **Executor.** `ExecutorSpec` is the runner and any number of cancellations as interleaved
  goroutines over the record, the two maps, the context, the daemon, the stream and the
  notifier; `ExecutorRuns` is its invariant, `ExecutorLaws` the theorems over all
  interleavings, and `CancelledStays` says when the executor's code alone leaves a cancelled
  record so. `Outcomes` tells the outcome and the calls to Docker from the answers.
  `Completion`, `Streamed` and `StreamedLaws` put an execution and its stream
  together: what the stream says in the end, who waits for its lock, and what can then
  still happen. `Executor` is the code of the three run modes and of
  CancelExecution, with the stream.
- **Parameters.** `EnvVar` resolves, `Validator` validates and builds arguments, `Template`
  and `Rendering` say what a template means, `Launch` is ExecuteCommand and the end-to-end
  theorem.
- **Catalog.** `Catalog` compiles a filter to a query with positional arguments and
  evaluates it; `Like` is ILIKE.
- **Scheduler.** `SchedulerSpec`, `SchedulerLaws`, `Scheduler`.
- **Users and sessions.** `AccountsSpec`, what each request does in `AccountsEffects`, what
  all of them keep in `AccountsLaws`, `Accounts`.

`Decimal`, `Parameters`, `Sequences` and `Wrappers` are shared.

What the outside world does is a parameter of every operation: which calls to the database
and the daemon succeed, what they return, what the clock says, when other goroutines move,
and the functions of libraries (regular expressions, `fmt`, JSON, bcrypt, cron, the
database's case folding and collation). Nothing is assumed about them beyond what a
`requires` says.

## What does not hold

Where the code falls short of what its comments or its design promise, the code was
followed, and the exact condition is proved.

- A subscriber that is owed more than 256 buffered events blocks while it holds the stream's
  lock, and the stream never moves again (`StreamResume.StuckIff`,
  `StreamResume.LateSubscriberBlocks`, `StreamResume.StuckForever`). A client that
  reconnects is served exactly if it is owed at most 256 (`StreamResume.ReconnectionServedIff`).
- A runner that publishes or completes on such a stream never returns, and its container is
  never removed (`Streamed.WaitsForever`, `StreamedLaws.LateViewerHangsRunner`). The exact
  conditions: `StreamedLaws.CanReportIff` for a runner that can still report an outcome,
  `StreamedLaws.CanReturnIff` for one that can still return, `StreamedLaws.CanBeRemovedIff`
  for its container.
- A Last-Event-ID that is ahead of the stream does not hold back the events that come next;
  a client is certain to get only later events exactly if the id is in use or the stream is
  over (`StreamResume.AfterLastEventID`, `StreamResume.EarlierEventDelivered`).
- A cancellation that succeeds need not leave the record cancelled: a "running" write can
  still follow (`ExecutorLaws.EarlyCancellationIsOverwritten`), or an outcome
  (`ExecutorLaws.CancellationAfterCheckIsLost`). The record is certain to stay cancelled
  exactly if the runner has issued its terminal write, was turned back, is at its output or
  its checks with the context cancelled, or is publishing on a stream whose lock is lost
  (`StreamedLaws.CancelledForGoodIff`).
- A number or boolean parameter mapped to an environment variable is never accepted, because
  the variable's value stays a string (`Launch.MappedIsMetIff`, `Launch.MappedNumberExample`).
- A maximum length counts bytes; it is a number of characters exactly for texts in ASCII
  (`Parameters.MaxLengthIsCharactersIff`, `Parameters.SixCharactersRefused`).
- The catalog's search is a substring search exactly for texts without `%`, `_` and `\`
  (`Like.SearchIsSubstringIff`).
- Nothing ever stores that a schedule is disabled; Disable works through the missing next
  run, and any later update that goes through revives the schedule (`SchedulerLaws.AlwaysEnabled`, `SchedulerLaws.UpdateRevives`).
- After a failed timing write the next poll executes a schedule again, however soon
  (`SchedulerLaws.DueAgainIff`, `SchedulerLaws.NextPollFiresIff`, `SchedulerLaws.TooSoonExample`).
- A session keeps roles its user no longer has exactly when the deletion of sessions fails
  after the change (`AccountsLaws.StepKeepsSnapshotIff`, `AccountsLaws.StaleSessionExample`).

## Model

| member | source | states |
|---|---|---|
| `Decimal.ItoaRoundTrip` | internal/stream/manager.go:147 | printing an event id and reading it with Atoi gives the id, for every 64-bit integer |
| `Decimal.AtoiIff` | internal/stream/manager.go:90 | a text is read as a number iff it is a sign or none, any zeros, and the digits of a 64-bit integer, and then as that integer |
| `StreamRuns.RunKeepsInv` | internal/stream/manager.go:78-219 | in every run of Subscribe, Publish, Complete, unsubscribe, Cleanup and receives: ids are 1, 2, 3, ..., the buffer is the newest block of the log, at most 10000 events before completion and 10001 after, no channel holds more than 256, a channel is closed iff its subscriber is unregistered, delivered events are log events at increasing positions |
| `StreamRuns.LogIsEmitted` | internal/stream/manager.go:134-189 | the log is the calls' payloads up to the first Complete, numbered from 1, with nothing after it |
| `StreamRuns.FirstAboveMeaning` | internal/stream/manager.go:88-102 | the linear scan finds exactly the buffered events whose id is above the given one |
| `StreamRuns.BufferedIds` | internal/stream/manager.go:146-155 | the buffered ids are the contiguous block that ends before nextID, with its exact length |
| `StreamRuns.BufferIsLong` | internal/stream/manager.go:150-155 | nothing leaves the buffer before there are more than 10000 events, and it never has fewer than that afterwards |
| `StreamRuns.ReplayIsExact` | internal/stream/manager.go:87-107 | a new subscriber is replayed exactly the buffered events above its Last-Event-ID, in order |
| `StreamResume.NewClientIsOwed` | internal/stream/manager.go:75-132 | for every header: a subscriber is owed the whole buffer if the header is missing or no number, and otherwise what comes after it; it is served iff that is at most 256 events, and then finds exactly those in its channel, closed iff the stream is over; nothing else changes |
| `StreamResume.FirstClientSeesAll` | internal/stream/manager.go:76-107 | a first client of a stream with at most 256 events finds its whole log |
| `StreamResume.UnsubscribedIsLeftAlone` | internal/stream/manager.go:121-129 | after unsubscribing, a client's channel is closed and is sent nothing more, whatever is called later |
| `StreamRuns.DeliveryIsSubsequence` | internal/stream/manager.go:104-164 | what a subscriber gets are log events with strictly increasing ids after its start, and it has the whole log from there iff no fan-out send found its channel full |
| `StreamRuns.CompletionIsLast` | internal/stream/manager.go:178-199 | the complete event of a stream is its last, and the last thing any channel carries |
| `StreamRuns.ClosedIffUnregistered` | internal/stream/manager.go:109-128 | in every reachable state a channel is closed iff its subscriber is not registered, so none is closed twice or sent to when closed |
| `StreamResume.LaterGrows` | internal/stream/manager.go:78-219 | whatever is called later, the log only grows at its end and no channel loses or changes what was put in it |
| `StreamResume.ResumeIsExactlyOnce` | internal/stream/manager.go:75-132 | a client that leaves with nothing missed, resubscribes with its last id and is served gets, in all, exactly what an uninterrupted one got, each event once |
| `StreamResume.ReconnectionServedIff` | internal/stream/manager.go:82-107 | a client that reconnects with the id of the n-th event is served iff it is owed at most 256 events; otherwise the call loses the stream's lock |
| `StreamResume.AfterLastEventID` | internal/stream/manager.go:85-107 | a client that is served, whatever is called later and however slowly it reads, gets only events above its Last-Event-ID iff that id is in use already or the stream is over |
| `StreamResume.EarlierEventDelivered` | internal/stream/manager.go:85-107 | a client with header 5 on an empty stream is delivered the event with id 1 next |
| `StreamResume.StuckIff` | internal/stream/manager.go:82-107 | the stream's lock is lost iff some subscriber was owed more than 256 events of replay |
| `StreamResume.LateSubscriberBlocks` | internal/stream/manager.go:104-107 | 257 chunks of output and then a first subscriber lose the lock |
| `StreamResume.StuckForever` | internal/stream/manager.go:84-107 | from then on nothing changes but what clients take out of channels they hold |
| `StreamResume.MissedIff` | internal/stream/manager.go:157-164 | a subscriber has a gap iff an event came while it was registered and its channel held 256 |
| `StreamManager.Subscriber.TrySend` | internal/stream/manager.go:157-164 | a send that gives up exactly when no slot is free |
| `StreamManager.ExecutionStream.FanOutEvent` | internal/stream/manager.go:157-164 | offers the event to every registered subscriber, in any order of the set, and changes no other |
| `StreamManager.ExecutionStream.FindReplayStart` | internal/stream/manager.go:86-102 | the index of the first event to replay: the first above the header, or 0 without a header that is a number |
| `StreamManager.ExecutionStream.ReplayInto` | internal/stream/manager.go:104-107 | puts the rest of the buffer in the channel, and reports when it does not fit |
| `StreamManager.ExecutionStream.Subscribe` | internal/stream/manager.go:78-132 | takes the Subscribe step; it never returns exactly when the lock is lost or the replay does not fit |
| `StreamManager.ExecutionStream.Publish` | internal/stream/manager.go:139-165 | takes the Publish step: id, buffer, trimming, fan-out |
| `StreamManager.ExecutionStream.Complete` | internal/stream/manager.go:175-200 | takes the Complete step: event, done, every channel closed, no subscriber left |
| `StreamManager.ExecutionStream.Unsubscribe` | internal/stream/manager.go:121-129 | takes the Unsubscribe step, once, also after Cleanup |
| `StreamManager.ExecutionStream.Dissolve` | internal/stream/manager.go:207-216 | takes the Cleanup step: channels closed, buffer and subscribers gone |
| `StreamManager.Manager.GetOrCreateStream` | internal/stream/manager.go:58-72 | the stream of an id, a new one if there is none, and no other stream changes |
| `StreamManager.Manager.Publish` | internal/stream/manager.go:134-165 | the stream of this id takes the step, all others stay |
| `StreamManager.Manager.Complete` | internal/stream/manager.go:168-200 | the stream of this id takes the step, all others stay |
| `StreamManager.Manager.Subscribe` | internal/stream/manager.go:78-132 | the stream of this id takes the step, all others stay; the subscriber returned has the stream's newest channel, and none is returned when the call waits for ever |
| `StreamManager.Manager.Cleanup` | internal/stream/manager.go:203-219 | the id names a fresh stream afterwards; on a stream whose lock is lost the manager's lock is lost too |
| `Demux.BigEndianRoundTrip` | internal/docker/manager.go:270 | a 32-bit size written big-endian is read back |
| `Demux.U32Bytes` | internal/docker/manager.go:270 | the first byte of the size is the most significant |
| `Demux.ChunksAreFrames` | internal/docker/manager.go:256-291 | the chunks are the non-empty frames with their payloads, named stderr for type 2 and stdout for every other |
| `Demux.OneByteOfEach` | internal/docker/manager.go:238-293 | two concrete inputs: one byte of standard output, one of standard error |
| `Demux.EveryInputIsFrames` | internal/docker/manager.go:238-293 | any bytes are a sequence of frames and an incomplete rest, and are decoded to those frames' chunks |
| `Demux.UnframeFramed` | internal/docker/manager_test.go:15-21 | parsing inverts framing, whatever follows |
| `Demux.DecodeFramed` | internal/docker/manager.go:238-293 | decoding frames gives exactly the non-empty ones in order, and distributes over concatenation at a frame boundary |
| `Demux.DecodeInPieces` | internal/docker/manager.go:245-291 | decoding can stop anywhere and go on with what was left over |
| `Demux.PrefixDecodesToPrefix` | internal/docker/manager.go:238-293 | any byte prefix decodes to a prefix of the chunks |
| `Demux.Reader.ReadFull` | internal/docker/manager.go:254-257 | fills the buffer or, when the input is too short, uses it up and fails |
| `Demux.DemuxStream` | internal/docker/manager.go:238-293 | terminates on any bytes, closes the channel, and sends exactly the decoded chunks; or a prefix of them, but only if one of its polls found the context cancelled |
| `Sse.PrintedEventsAreHeard` | internal/stream/handler.go:55-75 | parsing the written text by the standard dispatches exactly the events with id, type and data, and nothing for keepalives |
| `Sse.BrokenConnection` | internal/stream/handler.go:55-75 | a client cut off after any number of characters has dispatched a prefix of the events and holds the id of the last of them |
| `Delivery.Response.WriteSSEEvent` | internal/stream/handler.go:72-75 | appends the printed event to the response |
| `Delivery.Response.WriteKeepalive` | internal/stream/handler.go:59-61 | appends the printed comment to the response |
| `Delivery.Turn` | internal/stream/handler.go:54-68 | a tick writes one keepalive; a turn for the channel writes its next event if there is one, and ends the loop if there is none and it is closed; the response stays equal to what was taken out of the channel |
| `Delivery.StreamExecution` | internal/stream/handler.go:34-69 | whatever the select finds, what was written is the first part of what was put in the client's channel, with one keepalive for each tick; it goes on until the client leaves or the channel is empty and closed; what was replayed is written as soon as there are turns for it, a stream that is over is served to its end, and in the end the client is unsubscribed |
| `Delivery.BrokenConnectionResumes` | internal/stream/handler.go:34-75 | end to end: text cut anywhere, reconnection with the id the client has by the standard, and, when that is served and nothing it dispatched came after a gap, the two parts are together what an unbroken connection dispatches |
| `Capture.CaptureOutput` | internal/executor/service.go:416-434 | the captured texts are the concatenations of the chunks of each stream, the execution's stream has taken one Publish step for each chunk in order, and no other has changed; it returns iff there is no output or the stream's lock is not lost |
| `Capture.PublishedLog` | internal/executor/service.go:430-432 | a fresh stream then carries exactly the chunks, numbered from 1 |
| `Capture.OutputConserved` | internal/executor/service.go:416-434 | across demultiplexer, capture and stream: the error text is the payloads of the frames of type 2 in order, the output text those of all others, and the stream carries the non-empty frames numbered from 1 |
| `ExecutorRuns.InterleaveSound` | internal/executor/service.go:198-571 | the invariant of every interleaving of runners and cancellations of any number of executions |
| `ExecutorRuns.RunSound` | internal/executor/service.go:198-525 | every step of a runner keeps the invariant |
| `ExecutorRuns.CancelSound` | internal/executor/service.go:528-571 | every step of a cancellation keeps the invariant |
| `ExecutorLaws.CallsAreAboutOwnContainer` | internal/executor/service.go:223-255 | every call about a container in the executions' traces was made by the execution that created it, after its creation; a cancellation only stops; no other execution ever mentions the container; calls on a target container are not in the traces |
| `ExecutorLaws.EveryContainerIsRemovedOnce` | internal/executor/service.go:223-246 | every created container belongs to one create-mode execution and, once its runner has returned, was removed exactly once, after all the runner's other calls about it |
| `ExecutorLaws.ReturnedLeavesNoEntries` | internal/executor/service.go:203-234 | once a runner has returned its entries in both maps are gone, and an owned entry is always its own container |
| `ExecutorLaws.ReturnedReportsOnce` | internal/executor/service.go:437-494 | unless turned back by a cancellation, a runner writes queued, running once or twice, one terminal status, then notifies once and completes the stream once with that status, whatever fails; timed out only past a deadline |
| `ExecutorLaws.QuitNeedsCancellation` | internal/executor/service.go:265-268 | only a cancellation turns a runner back |
| `ExecutorLaws.SilentIffQuit` | internal/executor/service.go:265-268 | the user is not notified of a returned runner iff it was turned back |
| `ExecutorLaws.CancelledWhileDraining` | internal/executor/service.go:255-268 | a runner turned back sends no notification and its stream's completions all say cancelled; if all admitted cancellations began during or after its output, the stored status is cancelled iff one of their updates succeeded |
| `ExecutorLaws.InterleavedIsAlone` | internal/executor/service.go:139-148 | what an execution goes through among others it could go through alone |
| `ExecutorLaws.EarlyCancellationIsOverwritten` | internal/executor/service.go:206-210 | a concrete run in which a successful cancellation ends with the record saying running; the condition is `StreamedLaws.CancelledForGoodIff` |
| `ExecutorLaws.CancellationAfterCheckIsLost` | internal/executor/service.go:383-402 | a concrete run in which a successful cancellation ends with the record saying completed; the condition is `StreamedLaws.CancelledForGoodIff` |
| `Outcomes.OutcomeIsEarned` | internal/executor/service.go:198-403 | in every run, from the answers the runner got: it reports timed out iff the deadline had passed at its check; failed iff creating, starting, the exec instance, attaching or the inspection failed, or the exit code was not 0; completed iff all of these went well; and it is turned back only after it got its output in time |
| `Outcomes.StreamedOutcomeIsEarned` | internal/executor/service.go:198-403 | the same for an execution with its stream |
| `Outcomes.RecordSaysOutcome` | internal/executor/service.go:437-503 | when an uncancelled runner has returned and its last write succeeded, the record says the outcome it earned |
| `Outcomes.DealingsAreThese` | internal/executor/service.go:223-280 | call by call what a returned runner asked of Docker: create, start, attach if started, stop iff attaching failed or the deadline had passed, copy iff it completed and there are artifacts, remove |
| `CancelledStays.CancelledForGoodIff` | internal/executor/service.go:198-571 | for every interleaving of the executor's own steps, none of which waits for a stream: a record that says cancelled says so in all continuations iff the runner has issued its terminal write, was turned back, or is draining or checking with its context cancelled; with waiting, see `StreamedLaws.CancelledForGoodIff` |
| `Completion.FirstCompletionWins` | internal/stream/manager.go:168-200 | a stream is over iff a completion was asked for, and its only completion, its last event, carries the first that was |
| `Completion.CancelledStreamSaysSo` | internal/executor/service.go:255-268 | across executor and stream: when a cancellation turned the runner back, the stream's only completion says cancelled, and it is there once a cancellation has written the record and ended |
| `Completion.UncancelledStreamSaysOutcome` | internal/executor/service.go:437-523 | across executor and stream: when the runner of an uncancelled execution has returned, its stream is over and its one completion says the status that the record and the user were told |
| `Streamed.TogetherIsBoth` | internal/executor/service.go:416-434 | an execution and its stream, coupled by the calls that publish and complete, each go through a run of their own |
| `Streamed.StreamSaysOutcome` | internal/executor/service.go:437-523 | when a runner has returned, its stream carries its outcome or cancelled as the only completion: its outcome if nobody cancelled, cancelled or none if it was turned back; also when the stream's lock was lost afterwards |
| `Streamed.WaitsForever` | internal/executor/service.go:428-430 | a runner in a call on a stream whose lock is lost never returns, stays in the map of running executions, and its container is never removed, whatever others do |
| `StreamedLaws.CanReportIff` | internal/executor/service.go:198-525 | at any moment a runner without an outcome can still report one iff it was not turned back, is not about to be, and the lock of its stream, if it has one, is not lost |
| `StreamedLaws.CancelledForGoodIff` | internal/executor/service.go:198-571 | at any moment of an execution with its stream in which the record says cancelled: it says so in all continuations iff the runner has issued its terminal write, was turned back, is draining or checking with its context cancelled, or is publishing on a stream whose lock is lost |
| `StreamedLaws.CanReturnIff` | internal/executor/service.go:198-403 | at any moment a runner can still return iff it is at its deferred calls, or the lock of its stream, if it has one, is not lost, or it is not publishing and is before its check with a context that is cancelled or that a cancellation, under way or still to be let through, can cancel |
| `StreamedLaws.CanBeRemovedIff` | internal/executor/service.go:236-246 | under exactly the same condition the container that the runner created can still be removed, or has been |
| `StreamedLaws.OutputIsCarried` | internal/executor/service.go:416-434 | whatever viewers and cancellations do in between, events 1, 2, 3, ... of the stream are the chunks the runner received, in order; all but one being published, unless a cancellation has completed the stream |
| `StreamedLaws.LateViewerHangsRunner` | internal/stream/manager.go:104-107 | 257 chunks of output and then a first viewer make a create-mode runner with a container wait with its next chunk |
| `Executor.ReturnedEndsWell` | internal/executor/service.go:198-403 | what every returned runner leaves behind: no entries in the maps, its container removed once, its reports in order, its stream completed, and the outcome it earned |
| `Executor.Job.UpdateRecord` | internal/executor/service.go:497-503 | one record write, at a place where the model writes that status; the record then has it if the write succeeds |
| `Executor.Job.CaptureOutput` | internal/executor/service.go:416-434 | gives the stream the output chunk by chunk until the channel closes, or the first part of it and then waits for ever to publish |
| `Executor.Job.InspectExec` | internal/executor/service.go:326-337 | returns the exit code that was answered at its turn |
| `Executor.Job.JudgeExec` | internal/executor/service.go:326-356 | completed for exit code 0, failed for any other or when the inspection fails |
| `Executor.Job.FailExecution` | internal/executor/service.go:437-445 | write, notification and completion with failed, in this order |
| `Executor.Job.StopAndFail` | internal/executor/service.go:448-453 | asks to stop the container, then fails the execution |
| `Executor.Job.TimeoutExecution` | internal/executor/service.go:456-470 | asks to stop the container, then reports timed out |
| `Executor.Job.TimeoutExecExecution` | internal/executor/service.go:473-480 | reports timed out and stops nothing |
| `Executor.Job.CompleteExecution` | internal/executor/service.go:483-494 | reports completed |
| `Executor.Job.NotifyCompletion` | internal/executor/service.go:506-515 | one notification if there is a notifier |
| `Executor.Job.SignalStreamComplete` | internal/executor/service.go:518-523 | one completion if there is a stream manager, for which it may wait for ever |
| `Executor.Job.RunCreateMode` | internal/executor/service.go:198-280 | takes the model's steps whatever others do in between; it returns and leaves behind what every returned runner does, or it waits for its stream's lost lock with its entries and its container still there |
| `Executor.Job.RunExecMode` | internal/executor/service.go:284-356 | the same for exec mode, with the outcome earned by the answers and, unless it failed, the whole output given to the stream |
| `Executor.Job.RunLogsMode` | internal/executor/service.go:359-403 | the same for logs mode |
| `Executor.Job.CancelExecution` | internal/executor/service.go:528-571 | takes the model's steps of a cancellation; it reports success iff it wrote the record, and when it has then returned the stream is over; it may wait for the stream for ever, but only after the write; a refusal cancels nothing |
| `Parameters.LengthIsBytes` | internal/validator/validator.go:167-176 | the length checked is that in UTF-8, between the number of characters and four times that, and equal to it iff the text is ASCII |
| `Parameters.MaxLengthIsCharactersIff` | internal/validator/validator.go:167-176 | a text is accepted for just the maximum lengths from its number of characters on iff it is ASCII |
| `Parameters.SixCharactersRefused` | internal/validator/validator.go:167-176 | a map with a text of six characters does not conform to a definition that allows six; by `Validate`'s contract it is refused |
| `Parameters.Utf8SizeIsEncoding` | internal/validator/validator.go:167-176 | the size counted for a character is the number of bytes of its encoding by section 3 of RFC 3629, which decodes to it |
| `Template.FieldsOfWeave` | internal/validator/validator.go:237 | splitting a text made of fields and white space gives the fields |
| `Template.WeaveOfFields` | internal/validator/validator.go:237 | every text is made of its fields and white space |
| `Template.UnparseSegments` | internal/validator/validator.go:229-245 | the segments of a token put together are the token |
| `Template.SegmentsCanonical` | internal/validator/validator.go:229-245 | literal segments are maximal and contain no placeholder, and names are words |
| `Template.CanonicalUnique` | internal/validator/validator.go:229-245 | that is the only such reading of the token |
| `Template.WordChars` | internal/validator/validator.go:229 | a placeholder's name is made of ASCII letters, digits and the underscore, by code point |
| `Template.OnePlaceholder` | internal/validator/validator.go:229 | a name in double braces is one placeholder |
| `Template.SpaceChars` | internal/validator/validator.go:237 | the white space at which a command is split, by code point |
| `Rendering.CommandIsRendered` | internal/validator/validator.go:235-266 | however a command is put together from white space and canonical fields, each field becomes one argument with only its placeholders replaced, and values are neither split nor searched for placeholders |
| `Rendering.ArgumentIsIsolated` | internal/validator/validator.go:241-263 | an argument depends on no values but those its own field names |
| `Rendering.RenderWithoutHoles` | internal/validator/validator.go:261-263 | a token without placeholders is an argument as it is |
| `Rendering.PlaceholderMeaning` | internal/validator/validator.go:241-258 | a placeholder on its own becomes the given value, even null, or else the first default of that name, or else stays as it is; required or not |
| `Rendering.RequiredIsFilled` | internal/validator/validator.go:46-62 | with a conforming map every placeholder of a required parameter has a value, and a given value that is not null is the one used |
| `Validator.NoErrorsIffMet` | internal/validator/validator.go:47-72 | the definitions give no errors iff each is met |
| `Validator.NoErrorsIffConforms` | internal/validator/validator.go:29-76 | no error at all iff the map conforms |
| `Validator.AcceptedIff` | internal/validator/validator.go:79-226 | a value is accepted iff it is of the declared kind and breaks none of the rules, counted one by one, bounds included |
| `Validator.ProblemCodes` | internal/validator/validator.go:47-226 | required, invalid type or validation failed: which code, and how many errors |
| `Validator.UnknownIsNamed` | internal/validator/validator.go:32-44 | a parameter that no definition names gives one error, unknown parameter, with its name |
| `Validator.ParamValidator.ValidateStringConstraints` | internal/validator/validator.go:141-177 | adds exactly the errors of pattern and length; an invalid pattern ends the check |
| `Validator.ParamValidator.ValidateNumberConstraints` | internal/validator/validator.go:180-206 | adds exactly the errors of minimum and maximum |
| `Validator.ParamValidator.ValidateEnumConstraints` | internal/validator/validator.go:209-226 | adds one error iff there are choices and the value is none of them |
| `Validator.ParamValidator.ValidateType` | internal/validator/validator.go:79-138 | adds exactly the errors of the kind of parameter |
| `Validator.ParamValidator.Validate` | internal/validator/validator.go:29-76 | accepts exactly the conforming maps, in any order of iteration; the errors are one for each unknown parameter and then those of the definitions in order |
| `Validator.ParamValidator.Replacement` | internal/validator/validator.go:245-257 | the given value, even null, or the first default, or the placeholder itself |
| `Validator.ParamValidator.ReplaceAll` | internal/validator/validator.go:243-258 | one pass from left to right computes the rendering of the token's segments |
| `Validator.ParamValidator.BuildCommandArgs` | internal/validator/validator.go:235-266 | one argument for each field, each the rendering of its field |
| `EnvVar.EnvMapMeaning` | internal/docker/manager.go:184-190 | a variable has a value iff an entry sets it, and the value is that of the last such entry |
| `EnvVar.LookupMeaning` | internal/envvar/resolver.go:48-75 | what is found is the named variable of the named container as its last entry sets it; which of the two errors otherwise |
| `EnvVar.InspectContainerEnv` | internal/docker/manager.go:178-193 | splits the entries at their first equals sign and drops those without one |
| `EnvVar.ResolvedFails` | internal/envvar/resolver.go:44-77 | resolving fails iff a variable it needs is not found, and reports the first |
| `EnvVar.ResolvedMeaning` | internal/envvar/resolver.go:36-80 | user values are kept, and just the mapped names are added, each from its last mapping |
| `EnvVar.ResolveParams` | internal/envvar/resolver.go:36-80 | computes that map, or returns that error at once |
| `Launch.LaunchService.CheckConcurrencyLock` | internal/executor/service.go:176-194 | refuses iff concurrency is not allowed and the count fails or is positive |
| `Launch.LaunchService.ExecuteCommand` | internal/executor/service.go:94-172 | starts iff the parameters resolve and conform, the command may run and the record can be stored; with the mode and the arguments to run with |
| `Launch.ModesByWord` | internal/executor/service.go:152-172 | exec and logs name their modes, and every other text means create |
| `Launch.RequiredEndToEnd` | internal/executor/service.go:94-134 | after resolving and accepting, a required parameter's placeholder becomes the user's value, or else the mapped one, or else a default |
| `Launch.NoRequiredHoleIsLeft` | internal/executor/service.go:94-134 | no argument has a placeholder left that names a required parameter |
| `Launch.MappedIsMetIff` | internal/envvar/resolver.go:62-77 | a mapped value is accepted iff the definition is for strings or a choice and allows it |
| `Launch.MappedNumberExample` | internal/executor/service.go:94-134 | a number definition mapped to a variable that is found, and a validation that refuses what was resolved |
| `Like.SearchIsSubstringIff` | internal/catalog/repository.go:339-345 | the search finds exactly the texts that contain the search text, regardless of case, iff it has no percent sign, underscore or backslash |
| `Like.PlainSearch` | internal/catalog/repository.go:339-345 | for such a text the pattern means containment |
| `Like.CaseIsIgnored` | internal/catalog/repository.go:339-345 | a pattern matches a text iff it matches the text with letters in another case |
| `Like.CaseOfSearchIsIgnored` | internal/catalog/repository.go:339-345 | a search text in another case finds the same texts |
| `Catalog.CompiledMeaning` | internal/catalog/repository.go:307-350 | the conditions with their positional arguments hold of a joined row iff the filter's conditions do |
| `Catalog.FilteredMeaning` | internal/catalog/repository.go:287-354 | a command survives the WHERE clause over the join iff it matches the filter |
| `Catalog.ListingMeans` | internal/catalog/repository.go:307-373 | in the filter's terms: a listing is the commands that a role of the filter may run, active or not as asked, of the category, with the search text in name or description, by name |
| `Catalog.SelectIsListing` | internal/catalog/repository.go:352-378 | the query returns each matching command once, by name, and the count query their number |
| `Catalog.ListingIsUnique` | internal/catalog/repository.go:372-373 | there is only one such list, so all pages are pages of the same list |
| `Catalog.PagesPartition` | internal/catalog/repository.go:360-373 | page after page, the pages are that list |
| `Catalog.PageIsPart` | internal/catalog/repository.go:365-371 | with limit and offset appended as arguments and named by the next two places, the query returns that part of the listing, and the conditions still mean the filter |
| `Catalog.CommandRepository.Compile` | internal/catalog/repository.go:288-346 | builds those conditions and arguments, and returns the next index, one more than the number of arguments |
| `Catalog.CommandRepository.List` | internal/catalog/repository.go:287-409 | the requested page of the listing, queried with limit and offset by their places among the arguments, with defaults for page and size and each command's roles once in order, and the listing's length; or the error of the first query that fails |
| `SchedulerLaws.RunIsSound` | internal/scheduler/service.go:74-480 | what the table and the history of every run keep |
| `SchedulerLaws.SpacingBound` | internal/scheduler/service.go:331-395 | an interval schedule left alone, its timing written after all executions but perhaps the last, is executed at least the interval apart, so at most floor(L / interval) + 1 times within L |
| `SchedulerLaws.DisabledDoesNotFire` | internal/scheduler/service.go:224-237 | after a Disable that took effect no poll executes the schedule before an Enable or an Update |
| `SchedulerLaws.DueAgainIff` | internal/scheduler/service.go:384-394 | in every run, a schedule that was last heard of when it was executed is due at a later time iff its next run has come or could not be written; for an interval the next run is at least the interval later |
| `SchedulerLaws.NextPollFiresIff` | internal/scheduler/service.go:315-394 | the next poll that reads the table visits it iff that holds, and executes it again if its command is found |
| `SchedulerLaws.TooSoonExample` | internal/scheduler/service.go:384-394 | a concrete run in which a schedule for every minute is executed twice within a second |
| `SchedulerLaws.UpdateRevives` | internal/scheduler/service.go:135-193 | in every run, a schedule last heard of when it was disabled is due at no time; after an update it is due at a time iff the update goes through and the time from which the edited schedule runs has come |
| `SchedulerLaws.CreatedRuns` | internal/scheduler/service.go:74-132 | exactly when a schedule is stored, and the time from which it is due: its expression's next time, or so many seconds later |
| `SchedulerLaws.EnabledRuns` | internal/scheduler/service.go:196-221 | after Enable a schedule is due from exactly that time, and nothing else changes; nothing at all if a call fails |
| `SchedulerLaws.DisabledStops` | internal/scheduler/service.go:224-237 | after Disable it has no next run, and nothing else changes; nothing at all if a call fails |
| `SchedulerLaws.UpdatedRuns` | internal/scheduler/service.go:135-193 | exactly which updates are refused, what the others write, and the time from which the schedule is then due |
| `SchedulerLaws.DeletedIsGone` | internal/scheduler/service.go:240-245 | Delete removes that row and no other |
| `SchedulerLaws.PollLeaves` | internal/scheduler/service.go:315-395 | what a poll leaves of every row: executed ones are next due from the time computed after the execution, all others stay |
| `SchedulerLaws.PollExecutes` | internal/scheduler/service.go:315-395 | a poll executes just the due schedules whose commands it finds, in the order of its visits |
| `SchedulerLaws.AlwaysEnabled` | internal/scheduler/repository.go:74-82 | no row ever says that its schedule is disabled |
| `Scheduler.SchedulerService.CreateSchedule` | internal/scheduler/service.go:74-132 | takes the Create step; refused without expression or positive interval |
| `Scheduler.SchedulerService.UpdateSchedule` | internal/scheduler/service.go:135-193 | takes the Update step |
| `Scheduler.SchedulerService.SetEnabled` | internal/scheduler/service.go:455-480 | changes the next run, and nothing else |
| `Scheduler.SchedulerService.EnableSchedule` | internal/scheduler/service.go:196-221 | takes the Enable step, which `SchedulerLaws.EnabledRuns` says in full |
| `Scheduler.SchedulerService.DisableSchedule` | internal/scheduler/service.go:224-237 | takes the Disable step |
| `Scheduler.SchedulerService.DeleteSchedule` | internal/scheduler/service.go:240-245 | takes the Delete step |
| `Scheduler.SchedulerService.TriggerSchedule` | internal/scheduler/service.go:331-395 | without its command a schedule stays due; else it is executed and gets its next run even if that failed |
| `Scheduler.SchedulerService.ProcessDueSchedules` | internal/scheduler/service.go:315-328 | a poll visits each due schedule once, in any order, as it was when read |
| `AccountsLaws.RolesNamedMeaning` | internal/api/admin_handlers.go:392-413 | roles are refused iff a name is unknown, and otherwise come once each in order of first mention |
| `AccountsEffects.RolesByText` | internal/api/admin_handlers.go:392-413 | the roles taken are those whose four literal names are given, and any other name is refused |
| `AccountsEffects.CreateUserEffect` | internal/api/admin_handlers.go:63-133 | exactly when a user is created, with which name, hash, email and roles; otherwise nothing changes |
| `AccountsEffects.UpdateUserEffect` | internal/api/admin_handlers.go:142-248 | exactly when an update succeeds, each field afterwards, and whether the user is logged out |
| `AccountsEffects.DeactivateUserEffect` | internal/api/admin_handlers.go:251-309 | exactly when a user is deactivated; nothing else about anyone changes, and all of that user's sessions are gone |
| `AccountsEffects.UpdateUserRolesEffect` | internal/api/admin_handlers.go:316-389 | exactly when roles are replaced, by those named and nobody else's; all of that user's sessions are gone |
| `AccountsEffects.CreateUserRefused` | internal/api/admin_handlers.go:63-133 | which refusal a creation gets: bad request iff a role is unknown, conflict iff the name is taken |
| `AccountsEffects.UpdateUserRefused` | internal/api/admin_handlers.go:142-248 | which refusal an update gets: not found, bad request for oneself, last admin iff the one active admin would be deactivated |
| `AccountsEffects.DeactivateUserRefused` | internal/api/admin_handlers.go:251-309 | which refusal a deactivation gets, likewise |
| `AccountsEffects.UpdateUserRolesRefused` | internal/api/admin_handlers.go:316-389 | which refusal a change of roles gets, likewise |
| `AccountsEffects.LoginEffect` | internal/auth/handlers.go:40-92 | exactly when someone is logged in, as whom, with which roles and until when; otherwise nothing changes |
| `AccountsEffects.LoginIsRemembered` | internal/auth/session_store.go:40-92 | from login to use: the token stands for that session iff less than its time has passed, and not after a logout |
| `AccountsEffects.PasswordIsChanged` | internal/api/admin_handlers.go:194-211 | after an update with a password, a login is refused as invalid iff the password does not fit the new hash |
| `AccountsEffects.CleaningAndTime` | internal/auth/session_repository.go:84-96 | cleaning removes exactly the sessions that have expired by now |
| `AccountsLaws.SomeAdminSurvives` | internal/api/admin_handlers.go:425-460 | from a state with an active admin, every sequence of requests, whatever database calls fail, leaves one |
| `AccountsLaws.LastAdminRefusal` | internal/api/admin_handlers.go:453-460 | the refusal changes nothing and is given only for the one active admin there is |
| `AccountsLaws.StepKeepsSnapshotIff` | internal/api/admin_handlers.go:215-230 | a request keeps sessions in agreement with users iff it is not one that changes a logged-in user and then fails to delete the sessions, told from the request, the state and the calls that fail |
| `AccountsLaws.SessionsAgree` | internal/auth/session_repository.go:72-82 | while deletions succeed, every unexpired session names an active user with that user's current roles |
| `AccountsLaws.StaleSessionExample` | internal/api/admin_handlers.go:367-381 | a request that leaves a session with roles its user has lost |
| `AccountsLaws.CleaningIsInvisible` | internal/auth/session_repository.go:84-96 | deleting expired sessions changes the answer to no later request |
| `Accounts.UserRepository.Create` | internal/auth/repository.go:37-59 | user and roles are inserted together or not at all |
| `Accounts.UserRepository.UpdateRoles` | internal/auth/repository.go:112-129 | a user's roles are replaced together or not at all |
| `Accounts.UserRepository.CountActiveAdmins` | internal/auth/repository.go:192-209 | counts the active users with a role row that says admin, but for one |
| `Accounts.AdminHandler.ParseAndValidateRoles` | internal/api/admin_handlers.go:392-413 | computes the roles, or the first unknown name |
| `Accounts.AdminHandler.EnsureNotLastAdmin` | internal/api/admin_handlers.go:425-460 | lets pass, refuses or fails as the specification's check |
| `Accounts.AdminHandler.CreateUser` | internal/api/admin_handlers.go:63-133 | takes the step, with its reply |
| `Accounts.AdminHandler.UpdateUser` | internal/api/admin_handlers.go:142-248 | takes the step, with its reply, up to the first call that fails |
| `Accounts.AdminHandler.DeactivateUser` | internal/api/admin_handlers.go:251-309 | takes the step, with its reply |
| `Accounts.AdminHandler.UpdateUserRoles` | internal/api/admin_handlers.go:316-389 | takes the step, with its reply |
| `Accounts.AuthHandler.Authenticate` | internal/auth/provider.go:29-63 | succeeds only for an active user with a fitting password, and returns that user's roles |
| `Accounts.AuthHandler.Login` | internal/auth/handlers.go:40-92 | takes the step, with its reply |
| `Accounts.AuthHandler.Logout` | internal/auth/handlers.go:97-114 | removes the session of the token |
| `Accounts.AuthHandler.Get` | internal/auth/session_store.go:77-92 | the session of a token, if it has not expired |
| `Accounts.AuthHandler.CleanExpired` | internal/auth/session_store.go:105-108 | takes the step, with its reply |

## Left out

- Event ids beyond 2^63: `nextID` is unbounded here; theorems that compare printed ids require the log to be shorter than the largest 64-bit integer.
- JSON: an event's data is what an unspecified function makes of it; the theorems about the text on the wire require that it holds no raw line terminator.
- Delivery.OthersRun: stands for other goroutines; its body does nothing, and its callers are verified for every effect its contract allows.
- A Subscribe that runs between Cleanup's look-up of a stream and its lock: methods of the manager are single steps, as each holds a lock.
- Executor.Job.CaptureOutput: the texts that it returns are not part of it; what is captured is stated by `Capture.CaptureOutput`.
- ExecutorLaws.CallsAreAboutOwnContainer: does not cover exec, attach, logs and copy calls on a target container, which no execution created; their answers are in the model, the calls are not in the traces.
- The executor's record is its status; texts, exit code and times in it are not modelled, nor whether the context was still live when Docker was called (Docker's answer is free).
- CancelledStays.CancelledForGoodIff: counts continuations in which no call waits for a stream; `StreamedLaws.CancelledForGoodIff` is the statement with the stream.
- Streamed and StreamedLaws: one execution with its stream; viewers subscribe, unsubscribe and receive; they do not call the manager's Cleanup, which nothing in the repository does.
- Executor.Job: one execution at a time; `ExecutorLaws.InterleavedIsAlone` carries what is proved about it to any number of executions.
- Mutual exclusion of executions of one command, and terminal statuses being final: both are check-then-act in the source and are not claimed.
- Messages of errors, HTTP status codes, cookies, routing, logging, notification texts, artifact copying itself, configuration, bind mounts and the web client.
- PostgreSQL beyond the tables and queries used: transactions are all-or-nothing, unique keys hold, and each request or poll is one step.
- Catalog.CommandRepository.List: offsets beyond 64 bits are not modelled.
- Catalog create and update, and the list of schedules, whose query has the shape of the catalog's.
- Scheduler timing for cron expressions: the library is a free function, and the spacing theorem is about intervals; an interval's product with a second is assumed not to overflow `time.Duration`.
- Validation of numbers in `float64`: numbers are reals; NaN and rounding are not modelled. Patterns are judged by a free function.
- Accounts: the order in which roles are listed; sessions carry sets of roles. Timestamps of users are left out.
