# Veidemann: verified models of the recorder, the browser controller and the robots evaluator

Three components of Veidemann keep state that several goroutines change at once. This project models
them in Dafny and proves what their callers rely on, over every interleaving and every run.

**The recorder proxy's terminal protocol** (`TerminalMachine` to `TerminalProgress`, `TerminalOutcomes`,
`RecordContext`, `RecordBodies`, `ContentWriterServer`, `EndToEnd`, `CachedExchange`, `RequestContent`,
`RequestTiming`, `LateReader`, `Lifecycle`). One `RecordContext` is driven by body readers, an EOF finalizer, a
premature `Close` and a disconnect watcher. It is a step machine with one step for each critical section or RPC
and any number of goroutines, each following a script of calls; the environment chooses how RPCs answer and when
the timer fires. The trace of attempts on the stream is history. The critical sections are also methods of the classes
`RecordContext` and `CwcSession`, proved to be the machine's steps. The response and request bodies are
classes whose invariant says which calls they have made; `EndToEnd` plays those calls through the machine and
feeds the resulting stream to the ContentWriter's message loop, which is a method proved against the meaning
of a message sequence. `TerminalOutcomes` tells what a terminal call returns from the answers of the run and from
the finalization timer, and `CachedExchange` follows a response answered from the cache. `RequestContent` follows
the request body, whose reader runs beside the response, `RequestTiming` says from the order of steps when it is
in time, and `LateReader` is a run in which it is too late. `Lifecycle` is the change-channel tracker that lets
shutdown wait.

**The browser controller** (`RequestRecords`, `RequestRegistry`, `Discovery`, `Finalization`, `Completion`,
`CompletionSignals`, `SessionOps`, `FrameLoad`, `SessionPool`). The request registry is a class over request
objects, a list and an index. It is proved against operations on a list of records, and each record against a
declarative reading of everything reported about its request. On top of it stand the one-pass discovery paths, the
level-triggered completion signal, the one-shot frame tracker and the session pool with the controller loop.
A `Request` object holds its plain fields in one immutable value, updated field by field, beside its two
references, the crawl log and the redirect parent.

**The robots.txt cache** (`RobotsCache`, `RobotsRuns`, `RobotsEvaluator`). Entries, flights and a clock refine
a function of the fetch history, following the Robots Exclusion Protocol, RFC 9309: section 2.3.1.3
(unavailable), section 2.3.1.4 (unreachable) and section 2.4 (caching).

`Common` holds the value types the modules share. `dafny verify dfyconfig.toml` checks everything.

## What the proofs show about the code

Where a promise does not hold without a condition, the condition is stated exactly.

- A terminal request with an empty cancel message and no meta skips termination, so an open stream can be
  left behind; no other request can do that (`TerminalTheorems.LeakIff`).
- A completed page can go unnoticed only when a request was first reported without a resource type and a
  later report gives it a type that does not block (`Completion.SilentIff`, `Completion.WakeLostIff`,
  `Completion.WakeKeptIff`, `Completion.StrandedWaiter`). `CompleteOptionsResource` has a signalling branch that is
  never taken.
- The single pass over discovery paths relies on parents standing before children, which swap-removal can
  undo (`Discovery.ChainedIff`, `Finalization.RemovalBreaksChain`, `Finalization.RemovalExample`).
- `OriginalURL` is not taken from the URL of the observation that adds a request, only from a later one
  (`RequestRecords.RecordMeansHistory`).
- Cache keys are injective for every collection name, even one with a vertical bar; the one collision is
  between a missing collection and one called "unscoped" (`RobotsEvaluator.CollectionsShareIff`).
- The interval between robots fetches holds for the instants at which flights read the clock. A fetch sent some
  lag after its flight read the clock keeps later ones away by the interval less that lag, and by no more
  (`RobotsRuns.SentApartIff`, `RobotsRuns.FullGapIff`).
- A request body read after the stream was marked done is skipped without an error, but its size and digest
  can still reach the meta message (`LateReader.BodyCanBeCutOff`). The metadata of record 0 describes its bytes
  exactly in the runs in which the reader publishes before the terminal message is attempted and has its last
  payload past the check of `cwc.done` before the stream is marked done
  (`RequestTiming.RequestRecordDescribedIff`).
- For an unreachable robots.txt without cached rules, RFC 9309 section 2.3.1.4 asks to assume complete
  disallow. The code reports a service error instead, and so does the model.

## Model

| member | source | states |
|---|---|---|
| `TerminalTheorems.PhaseGrammar` | recorderproxy/context/contentwriter_client.go:296-372 | the phase of a stream names exactly one of the three allowed orders of attempts: data only, data and one terminal message, data, terminal message and one CloseAndRecv |
| `TerminalTheorems.OneOrderedStream` | recorderproxy/context/contentwriter_client.go:64-205 | over every run of any number of goroutines at most one stream is opened, its attempts follow the grammar, at most one send is in flight and one goroutine holds sendMu |
| `TerminalTheorems.StoredMetaOnWire` | recorderproxy/context/browsercontroller_client.go:215-233 | the winner holds stored metadata exactly when meta was sent and closed without error or timeout and the reply holds that record |
| `TerminalTheorems.CommitCarries` | recorderproxy/context/browsercontroller_client.go:143-233 | the crawl log of the completion carries the stored record field by field, or no WARC id at all |
| `TerminalTheorems.CommitAgreement` | recorderproxy/context/browsercontroller_client.go:123-233 | over every run CompleteResource is issued at most once, for the elected request, and its log carries a record exactly when the wire shows it stored |
| `TerminalTheorems.CompletedExactly` | recorderproxy/context/browsercontroller_client.go:104-110 | once terminalDone is closed CompleteResource was issued exactly once, unless the exchange has a proxy id, no request id, and the status to report is -5011: the caller's own code, else -5 when storing or cancelling failed, else that of the crawl log |
| `TerminalTheorems.RegisteredIsCompleted` | recorderproxy/context/browsercontroller_client.go:192-199 | so a request registered with the browser controller, or made through proxy 0, is always completed |
| `TerminalTheorems.LosersWait` | recorderproxy/context/browsercontroller_client.go:123-141 | a losing terminal call returns AlreadyCompleted, and only after the winner has attempted all its terminal operations, a completion left out only for an unregistered request of a client that went away, and closed the session |
| `TerminalTheorems.SuccessMeansStored` | recorderproxy/context/browsercontroller_client.go:123-213 | a terminal call reports success only if it was elected and, when it was to store, the record is stored on the wire; an error of the caller's own comes back unchanged or as AlreadyCompleted |
| `TerminalTheorems.FailureIsReported` | recorderproxy/context/browsercontroller_client.go:143-199 | the completion carries the caller's own error first, then a write error exactly when a record to be stored is not stored on the wire, then a cancel error exactly when the cancellation was not sent and answered in time; otherwise the crawl log keeps its own error, status and content type |
| `TerminalOutcomes.InTimeIff` | recorderproxy/context/contentwriter_client.go:333-370 | a finalization counts as in time exactly when its timer had not fired before it was read, over every run |
| `TerminalOutcomes.TimeoutNeverStores` | recorderproxy/context/contentwriter_client.go:368-370 | when the timer fired before it was read, no completion carries a WARC id and no storing call reports success |
| `TerminalOutcomes.TimerGuards` | recorderproxy/context/contentwriter_client.go:333-343 | the timer runs or has fired throughout the terminal operations, cancels the stream when it fires, and is stopped once terminalDone is closed |
| `TerminalOutcomes.FirstToAskWins` | recorderproxy/context/browsercontroller_client.go:123-132 | the first to ask for the end of the exchange is elected for its call, be it the watcher of a client that went away, and in every continuation nobody takes its place |
| `TerminalOutcomes.SenderGivesUp` | recorderproxy/context/contentwriter_client.go:124-205 | a sender stops with an error only when its own attempt failed, opening the stream failed with that error, or the exchange was over |
| `TerminalOutcomes.OutcomeIsVerdict` | recorderproxy/context/browsercontroller_client.go:143-213 | in every continuation the elected call returns the caller's own error, else a write or cancel error when storing or cancelling failed, else an error when the completion was refused, else none |
| `TerminalTheorems.NoStreamLeak` | recorderproxy/context/browsercontroller_client.go:151-177 | if the winner sends meta or has a cancel message, then once terminalDone is closed every stream has been closed, its context cancelled, and none opens in any continuation |
| `TerminalTheorems.EmptyMessageLeaks` | recorderproxy/context/browsercontroller_client.go:151-177 | for every request with neither meta nor cancel message there is a run that leaves an open stream behind |
| `TerminalTheorems.LeakNeedsAnother` | recorderproxy/context/browsercontroller_client.go:151-177 | a run that leaks had a terminal request other than a given terminating one |
| `TerminalTheorems.LeakIff` | recorderproxy/context/browsercontroller_client.go:151-177 | a request can leak a stream if and only if it neither sends meta nor has a cancel message |
| `TerminalProgress.WaitsDescend` | recorderproxy/context/contentwriter_client.go:156-202 | a goroutine blocked on cwcReady, terminalDone or sendMu waits for one of lower rank, so waits form no cycle |
| `TerminalProgress.NoDeadlock` | recorderproxy/context/contentwriter_client.go:156-202 | whenever a goroutine is inside a call, some goroutine inside a call can step whatever the environment answers |
| `TerminalProgress.StepDecreases` | recorderproxy/context/contentwriter_client.go:124-205 | every step lowers a measure of the work left |
| `TerminalProgress.RunsEnd` | recorderproxy/context/contentwriter_client.go:124-205 | a run in which every RPC returns has at most as many steps as the initial measure |
| `TerminalProgress.RunsEndSettled` | recorderproxy/context/browsercontroller_client.go:123-141 | where a run ends every call has returned, and if anybody was elected terminalDone is closed and no watcher is left |
| `TerminalRuns.DoReturns` | recorderproxy/context/browsercontroller_client.go:123-213 | a terminal call returns only when terminalDone is closed, as the elected call with an outcome the writer vouches for, or with AlreadyCompleted |
| `TerminalRuns.StepKeeps` | recorderproxy/context/contentwriter_client.go:124-372 | the protocol invariant, with locks, trace and election, survives every step of every goroutine and the timer |
| `TerminalRuns.InitialInv` | recorderproxy/context/recordcontext.go:90-102 | a fresh RecordContext with any scripts satisfies the protocol invariant |
| `TerminalSteps.WireStep` | recorderproxy/context/contentwriter_client.go:124-150 | a send or CloseAndRecv adds exactly that attempt to the trace, and data only while the stream still flows |
| `TerminalSteps.DoKeepsShared` | recorderproxy/context/contentwriter_client.go:124-372 | every critical section keeps the invariant of the shared state |
| `TerminalSteps.DoKeepsOwn` | recorderproxy/context/contentwriter_client.go:124-372 | every critical section keeps what its own goroutine knows |
| `TerminalSteps.DoKeepsOthers` | recorderproxy/context/contentwriter_client.go:124-372 | and changes the shared state only as the other goroutines rely on |
| `TerminalInvariant.RelyKeepsThread` | recorderproxy/context/contentwriter_client.go:124-372 | what a goroutine knows survives every change the others may make |
| `RecordContext.CwcSession.constructor` | recorderproxy/context/contentwriter_client.go:207-223 | an opened session starts neither done nor cancelled, unlocked and with nothing sent |
| `RecordContext.RecordContext.constructor` | recorderproxy/context/recordcontext.go:90-102 | a new RecordContext is the initial shared state |
| `RecordContext.RecordContext.Acquire` | recorderproxy/context/contentwriter_client.go:156-189 | the section that reuses, waits for, refuses or starts a stream makes the protocol step of its goroutine |
| `RecordContext.RecordContext.Publish` | recorderproxy/context/contentwriter_client.go:190-205 | publishing the opened stream or its error makes the protocol step and wakes the waiters |
| `RecordContext.RecordContext.Elect` | recorderproxy/context/browsercontroller_client.go:123-132 | the first terminal caller, and only it, is elected, be it a call of its own or the watcher of a client that went away |
| `RecordContext.RecordContext.MarkDone` | recorderproxy/context/contentwriter_client.go:321-328 | the first terminator marks the session done, and cancelled unless it sends meta; a second one stops |
| `RecordContext.RecordContext.IsTerminal` | recorderproxy/context/contentwriter_client.go:124-150 | a sender that holds sendMu skips its send exactly when the session is done |
| `RecordContext.RecordContext.CloseSession` | recorderproxy/context/recordcontext.go:170-190 | closing counts the session once and releases the disconnect watcher |
| `RecordContext.RecordContext.CloseTerminalDone` | recorderproxy/context/browsercontroller_client.go:135-141 | the winner releases the losers last |
| `RecordBodies.ResponseBody.constructor` | recorderproxy/recorderproxy/response_handler.go:57-110 | a wrapped response starts with its prolog counted and hashed and its header sent |
| `RecordBodies.ResponseBody.Reader` | recorderproxy/recorderproxy/response_handler.go:160-178 | access is granted exactly while the record is still open for recording, and EOF is repeated only for a record that was finalized |
| `RecordBodies.ResponseBody.RecordPayload` | recorderproxy/recorderproxy/response_handler.go:236-261 | counted, hashed and sent bytes stay the same sequence, cached bodies send nothing |
| `RecordBodies.ResponseBody.FinishRecord` | recorderproxy/recorderproxy/response_handler.go:263-305 | a record is finalized at most once and never after a failed send, and the body then still has asked for what its content and log call for |
| `RecordBodies.ResponseBody.RecordRead` | recorderproxy/recorderproxy/response_handler.go:132-158 | one granted Read records exactly the bytes it returns, finalizes exactly at EOF without a failed send, and fails exactly when recording failed |
| `RecordBodies.ResponseBody.Read` | recorderproxy/recorderproxy/response_handler.go:132-158 | the whole Read: refusals change nothing, and the calls made so far are always the response script of the bytes returned |
| `RecordBodies.ResponseAsks` | recorderproxy/recorderproxy/response_handler.go:236-305 | a cached body sends no data and ends in one call that cancels the unused writer, with no error of its own and the crawl log; any other sends its header and every chunk as record 1 and ends by storing it with its length and digest |
| `RecordBodies.ResponseBody.Close` | recorderproxy/recorderproxy/response_handler.go:208-225 | Close is idempotent and premature exactly when the body was neither read to EOF nor finalized |
| `RecordBodies.FlattenNonEmpty` | recorderproxy/recorderproxy/response_handler.go:132-158 | reads that return no bytes leave no trace in the recorded content |
| `RecordBodies.ReadToEnd` | recorderproxy/recorderproxy/response_handler.go:132-158 | reading any input to EOF asks for exactly the response script of the concatenated bytes and their size |
| `RecordBodies.RequestBody.constructor` | recorderproxy/recorderproxy/request_handler.go:55-102 | a wrapped request starts with its prolog counted and hashed and its header sent |
| `RecordBodies.RequestBody.RecordPayload` | recorderproxy/recorderproxy/request_handler.go:204-221 | counted, hashed and sent request bytes stay the same sequence |
| `RecordBodies.RequestBody.Read` | recorderproxy/recorderproxy/request_handler.go:124-145 | the size and digest of record 0 are published once, at EOF, for all bytes read |
| `RecordBodies.RequestAsks` | recorderproxy/recorderproxy/request_handler.go:83-145 | a request body sends its header and every chunk as record 0, and at EOF, not before, publishes the length and digest of all of them |
| `RecordBodies.RequestBody.Close` | recorderproxy/recorderproxy/request_handler.go:166-193 | closing changes nothing but the closed flag, and hands out the inner reader to be closed the first time only |
| `ContentWriterServer.PrefixRejected` | contentwriter/server/server.go:45-73 | a stream that became unacceptable stays so whatever follows |
| `ContentWriterServer.WriteSession.SetWriteRequestMeta` | contentwriter/server/sessioncontext.go:50-52 | the last metadata counts |
| `ContentWriterServer.WriteSession.GetRecordBuilder` | contentwriter/server/sessioncontext.go:73-85 | a builder is created empty on first use and kept |
| `ContentWriterServer.WriteSession.WriteData` | contentwriter/server/sessioncontext.go:54-71 | bytes are appended to their record; a header is refused exactly when the record has bytes |
| `ContentWriterServer.WriteSession.Receive` | contentwriter/server/server.go:45-73 | one message is taken in exactly when it is acceptable after those before it; only a cancel message cancels |
| `ContentWriterServer.WriteSession.BuildRecords` | contentwriter/server/sessioncontext.go:108-138 | all builders become records with their bytes exactly when each has metadata and builds validly |
| `ContentWriterServer.WriteSession.ValidateSession` | contentwriter/server/sessioncontext.go:87-139 | validation succeeds exactly for complete metadata, a known collection and valid records |
| `ContentWriterServer.Collect` | contentwriter/server/server.go:81-84 | slot i of the slice is record i or empty |
| `ContentWriterServer.ContentWriterService.Write` | contentwriter/server/server.go:36-92 | over every message sequence the writer is called exactly for acceptable, validated streams that end in EOF, once, with each record the in-order concatenation of its messages |
| `ContentWriterServer.RejectedAt` | contentwriter/server/server.go:45-73 | where the loop stops decides the outcome, and it is a cancellation exactly when a cancel message came first |
| `ContentWriterServer.NoHoleIff` | contentwriter/server/server.go:81-84 | the slice for the writer has no hole exactly when the records are numbered 0 to n-1 |
| `ContentWriterServer.StoredExactly` | contentwriter/server/server.go:36-92 | the streams that reach the writer, told from the messages alone: ended in EOF, no message refused, and a last metadata with an existing collection, address and URI that covers every record whose bytes match it |
| `EndToEnd.HeadersComeFirst` | recorderproxy/recorderproxy/request_handler.go:83-101 | in a recorded stream each record begins with its header, with nothing attempted for it before and no other header after |
| `EndToEnd.DataAccepted` | contentwriter/server/sessioncontext.go:54-71 | the server accepts every data message of a recorded stream; no header comes twice |
| `EndToEnd.StoredStream` | recorderproxy/context/browsercontroller_client.go:241-252 | if a stored finalization's meta was delivered, the stream holds the headers and every payload in order, and the meta their sizes and digests |
| `EndToEnd.StoredExchange` | recorderproxy/recorderproxy/response_handler.go:132-158 | then the server holds exactly prolog ++ every byte Read returned as record 1, with its length and digest, and records 0 and 1 without a hole |
| `EndToEnd.StoredExchangeIsWritten` | contentwriter/server/server.go:75-91 | the writer is called for it exactly when the server's own checks of target, collection and records pass |
| `EndToEnd.CommittedIsStored` | recorderproxy/context/browsercontroller_client.go:143-233 | a completion with a WARC id is sent only for an exchange the server holds in full; it names record 1 and gives the length and digest of its response |
| `CachedExchange.CachedLeavesNothing` | recorderproxy/context/browsercontroller_client.go:254-263 | when the last call of a cached response is elected, then once terminalDone is closed its stream is closed and cancelled, none opens later, no WARC id is reported and the server stores nothing |
| `CachedExchange.NothingStored` | contentwriter/server/server.go:45-91 | the writer is never called for a stream whose winner does not send meta |
| `RequestContent.RequestRecordStored` | recorderproxy/recorderproxy/request_handler.go:124-145 | over every run record 0 is the request header and the first chunks of the body, complete exactly when every payload was sent; its metadata is unset or that of the whole body |
| `RequestContent.ReaderInTime` | recorderproxy/recorderproxy/request_handler.go:124-145 | a reader that published before the stream was marked done has its whole body stored, with size and digest |
| `RequestTiming.MetaSetIff` | recorderproxy/recorderproxy/request_handler.go:223-237 | the metadata of record 0 is set exactly when the reader published before the terminal message was attempted |
| `RequestTiming.AllSentIff` | recorderproxy/context/contentwriter_client.go:124-150 | every payload is on a stored stream exactly when the last one was past its check before the stream was marked done, and no send failed |
| `RequestTiming.RequestRecordDescribedIff` | recorderproxy/context/contentwriter_client.go:261-330 | the stored metadata of record 0 describes its stored bytes exactly when the reader published before the terminal message was attempted and had its last payload past the check before the stream was marked done |
| `LateReader.BodyCanBeCutOff` | recorderproxy/context/contentwriter_client.go:261-290 | for every nonempty body chunk there is a run that skips it because the stream is done, and still announces its size and digest |
| `Lifecycle.LifecycleTracker.AddConnection` | recorderproxy/recorderproxy/lifecycle.go:34-43 | a connection is tracked exactly while the tracker is open |
| `Lifecycle.LifecycleTracker.RemoveConnection` | recorderproxy/recorderproxy/lifecycle.go:45-52 | removal notifies only if the connection was tracked |
| `Lifecycle.LifecycleTracker.AddRecord` | recorderproxy/recorderproxy/lifecycle.go:54-58 | a record is tracked even after closing |
| `Lifecycle.LifecycleTracker.RecordClosed` | recorderproxy/recorderproxy/lifecycle.go:60-68 | a record is removed and waiters are notified |
| `Lifecycle.LifecycleTracker.CloseAndSnapshotConnections` | recorderproxy/recorderproxy/lifecycle.go:71-81 | the tracker closes and reports the connections it has |
| `Lifecycle.LifecycleTracker.Poll` | recorderproxy/recorderproxy/lifecycle.go:83-91 | a wait ends exactly when nothing is tracked, else it takes an open channel, the one the next change closes |
| `Lifecycle.WrappedConnection.Close` | recorderproxy/recorderproxy/recorderproxy.go:286-304 | however often it is called, the socket is closed once and its context cancelled |
| `Lifecycle.StepKeeps` | recorderproxy/recorderproxy/lifecycle.go:29-99 | the tracker, connection and shutdown invariants survive every step of accept loop, handlers and shutdowns |
| `Lifecycle.NoLostWakeup` | recorderproxy/recorderproxy/lifecycle.go:29-99 | a wait parked on an open channel has the current one and what it saw is still so; every channel but the current one was closed exactly once |
| `Lifecycle.EveryConnectionAccounted` | recorderproxy/recorderproxy/recorderproxy.go:206-260 | after a shutdown closed the tracker every accepted connection is about to be refused, refused and closed or being closed by the Serve call that accepts nothing else meanwhile, handled and removed, or in the snapshot and closed before the wait |
| `Lifecycle.RefusedAreClosed` | recorderproxy/recorderproxy/recorderproxy.go:214-228 | while no Serve call is closing one, every refused connection has been closed |
| `Lifecycle.StableQuiescence` | recorderproxy/recorderproxy/lifecycle.go:83-99 | once a wait has returned nil, connections and records stay empty in every continuation in which tracked handlers make the records |
| `Lifecycle.StrayRecordEndsQuiet` | recorderproxy/recorderproxy/lifecycle.go:54-58 | and a record made anywhere else is the one step that ends the quiet |
| `RequestRecords.FirstUnregistered` | browser-controller/requests/requests.go:152-162 | the first request with the URL that is not registered, or none |
| `RequestRecords.ApplyKeepsIds` | browser-controller/requests/requests.go:85-202 | every registry operation keeps the ids nonempty and distinct |
| `RequestRecords.OthersKeepPlaces` | browser-controller/requests/requests.go:85-202 | every operation but removal keeps each id at its place and the other records as they are |
| `RequestRecords.ApplyTells` | browser-controller/requests/requests.go:85-202 | one operation changes the record of an id exactly by what it tells about that id |
| `RequestRecords.LogSnoc` | browser-controller/requests/request.go:118-120 | the crawl log is that of the last completion, and a later observation fills only a missing one |
| `RequestRecords.MeaningSnoc` | browser-controller/requests/request.go:76-124 | merging, marking and completing extend the meaning of a history by one event |
| `RequestRecords.RecordMeansHistory` | browser-controller/requests/requests.go:85-202 | after any operations a request is listed exactly when something was reported since its removal, and its record is the declarative reading of that history |
| `RequestRecords.RemovalKeepsTheRest` | browser-controller/requests/requests.go:105-128 | removal takes out one record and nothing else, and changes the initial request only when it removes it |
| `RequestRecords.TypeOfName` | browser-controller/requests/request.go:48-74 | no two resource types share the name the browser gives them |
| `RequestRecords.NameOfType` | browser-controller/requests/request.go:48-74 | every name is that of a resource type |
| `RequestRegistry.Request.Clone` | browser-controller/requests/requests.go:314-325 | a clone equals its original, shares no log with it and has no redirect parent |
| `RequestRegistry.Request.MergeFrom` | browser-controller/requests/request.go:76-124 | merging in place is the merge of the two records |
| `RequestRegistry.Registry.Observe` | browser-controller/requests/requests.go:85-103 | list and index change as specified, the result is a detached copy of the record as it is now |
| `RequestRegistry.Registry.Remove` | browser-controller/requests/requests.go:105-128 | swap-removal on list and index, reporting a copy of what was removed |
| `RequestRegistry.Registry.Snapshot` | browser-controller/requests/requests.go:130-138 | a detached copy of the record, if there is one |
| `RequestRegistry.Registry.Mutate` | browser-controller/requests/requests.go:179-194 | one request is changed in place, all others are left, and the change is reported |
| `RequestRegistry.Registry.MutationResult` | browser-controller/requests/requests.go:196-202 | the reported copy, and whether it is the first request |
| `RequestRegistry.Registry.MarkNew` | browser-controller/requests/requests.go:140-144 | registration of the request with the id |
| `RequestRegistry.Registry.MarkComplete` | browser-controller/requests/requests.go:146-150 | completion of the request with the id |
| `RequestRegistry.Registry.MarkFirstUnregisteredCompleteByURL` | browser-controller/requests/requests.go:152-162 | completion of the first unregistered request with the URL |
| `RequestRegistry.Registry.Complete` | browser-controller/requests/requests.go:164-177 | the log is replaced by a copy of the given one, or dropped |
| `RequestRegistry.MissingExactly` | browser-controller/requests/requests.go:432-468 | nothing is missing exactly when every blocking request has a crawl log, and the missing requests are the unresolved ones |
| `RequestRegistry.SettledMeansResolved` | browser-controller/requests/request.go:48-74 | the page is settled exactly when every registered request whose type name is none of the twelve listed ones has its crawl log |
| `RequestRegistry.CountsMean` | browser-controller/requests/requests.go:432-468 | the counts are the numbers of such requests with and without a log and of all others |
| `RequestRegistry.MissingInOrder` | browser-controller/requests/requests.go:432-468 | missing requests are reported in list order |
| `RequestRegistry.Registry.BuildCrawlLogMatch` | browser-controller/requests/requests.go:432-468 | the counting loop gives the declared counts and the first eight missing requests, in list order |
| `RequestRegistry.Registry.MatchCrawlLogs` | browser-controller/requests/requests.go:204-223 | true exactly when every registered request whose type name is none of the twelve listed ones has its crawl log |
| `Discovery.LastWithURL` | browser-controller/requests/requests.go:327-335 | the last request with a nonempty URL hides the earlier ones |
| `Discovery.RedirectParent` | browser-controller/requests/requests.go:289-311 | a redirect source is the last request with the URL the redirect came from, and never the redirect itself |
| `Discovery.RootIsFollowed` | browser-controller/requests/requests.go:289-312 | the one pass ends where following redirects forwards ends: reached from the first request, with no later redirect from it |
| `Discovery.RootHasNoChild` | browser-controller/requests/requests.go:289-312 | when redirects come after their sources nothing at all was redirected from the root |
| `Discovery.OnePass` | browser-controller/requests/requests.go:232-258 | in general a request extends the final path of an earlier parent and the old path of a later one |
| `Discovery.PathsTell` | browser-controller/requests/requests.go:337-351 | a final path begins with the path of its source and ends in X for a script, else R for a redirect, else E; the first request ends in the requested path |
| `Discovery.PassIsRecursive` | browser-controller/requests/requests.go:232-258 | the pass computes path(parent) + type whenever parents come first |
| `Discovery.ChainedIff` | browser-controller/requests/requests.go:232-258 | the final paths form chains exactly when parents come first, but for a first request that refers to itself with an empty path |
| `Finalization.RequestsByURL` | browser-controller/requests/requests.go:327-335 | the map holds the last request for each URL |
| `Finalization.ResolveRootRequest` | browser-controller/requests/requests.go:289-312 | the in-place pass links each redirect to its source and returns the root |
| `Finalization.FillLogs` | browser-controller/requests/requests.go:232-258 | the loop leaves each log the referrer and the path of the single pass |
| `Finalization.PageShows` | browser-controller/requests/requests.go:225-287 | the single pass works on the requests, logs and old paths of the registry's records |
| `Finalization.FinalizeResponses` | browser-controller/requests/requests.go:225-287 | a fresh snapshot, linked, whose paths begin with the path of their source and end in X for a script, else R for a redirect, else E, with its root and its counts; the registry is unchanged |
| `Finalization.AnyListReachable` | browser-controller/requests/requests.go:85-103 | every list with distinct ids comes about by observations |
| `Finalization.RemovalBreaksChain` | browser-controller/requests/requests.go:105-128 | a removal that moves a redirect before its source breaks the chain of paths |
| `Finalization.RemovalExample` | browser-controller/requests/requests.go:105-128 | a concrete run that does so |
| `Completion.SilentIff` | browser-controller/session/session.go:192-261 | an operation completes the set of logs without signalling exactly when an observation gives the one unresolved request, untyped so far, a type that does not block |
| `Completion.WakeLostIff` | browser-controller/session/session.go:192-261 | and that, while the waiter is parked and nobody is about to signal, is exactly how a wake-up is lost |
| `Completion.WakeKeptIff` | browser-controller/session/session.go:192-261 | a run keeps every wake-up, at every point, exactly when none of its events is of that kind |
| `Completion.NoLostWakeup` | browser-controller/session/completion.go:30-79 | when every report that adds a request carries its resource type, a parked waiter with nothing left to wait for has a stored token, a caller about to signal or an ended session |
| `Completion.SettledWasTrue` | browser-controller/session/completion.go:59-79 | the wait returns nil only after a check that found a crawl log for every registered request whose type name is none of the twelve listed ones |
| `Completion.ChecksAfterIdle` | browser-controller/session/completion.go:59-79 | every check is made after the network was found idle, each time anew |
| `Completion.StrandedWaiter` | browser-controller/session/eventlisteners.go:130-133 | a concrete run without the type in which nobody will wake the waiter |
| `CompletionSignals.SignalsMean` | browser-controller/session/session.go:192-248 | a registration or completion signals exactly when the page waits for the request as the operation leaves it, a rollback when the page waited for what it removes |
| `CompletionSignals.PausedMeans` | browser-controller/session/eventlisteners.go:362-371 | a paused request, once continued, signals exactly when the page waits for it as its report left it |
| `CompletionSignals.TasksStem` | browser-controller/session/eventlisteners.go:330-371 | what is done when a paused request goes on or fails was decided by its report: whether it was new, and whether the page waits for it |
| `CompletionSignals.RollbackTakesBack` | browser-controller/session/eventlisteners.go:340-352 | a paused request that cannot be continued is removed exactly if it was unknown when it was paused |
| `CompletionSignals.SignalsConserved` | browser-controller/session/session.go:192-261 | over every run the signals sent and still to be sent are those announced |
| `CompletionSignals.TokenIff` | browser-controller/session/session.go:250-261 | over every run the channel holds a token exactly when a signal was sent before the session was over and the waiter was not woken since |
| `CompletionSignals.OptionsNeverSignal` | browser-controller/session/session.go:211-220 | completing a preflighted request never signals |
| `SessionOps.Session.SignalCompletionActivity` | browser-controller/session/session.go:250-261 | a token is stored unless the context is done |
| `SessionOps.Session.RegisterResource` | browser-controller/session/session.go:192-201 | the change is made and a signal stored exactly when the registered request blocks |
| `SessionOps.Session.RejectResource` | browser-controller/session/session.go:203-209 | the change is made and a signal stored for every request found |
| `SessionOps.Session.CompleteOptionsResource` | browser-controller/session/session.go:211-220 | the change is made and a signal stored exactly as the operation is said to signal |
| `SessionOps.Session.RecordResourceCompletion` | browser-controller/session/session.go:227-248 | the log is recorded, a signal stored when the request blocks, and a cached answer for the initial request reported |
| `SessionOps.Session.RollbackPausedRequest` | browser-controller/session/eventlisteners.go:527-542 | only an added request is removed, with a signal when it blocked |
| `FrameLoad.FrameLoadTracker.Start` | browser-controller/session/frame_loading.go:47-64 | a frame is tracked once, and none after the decision |
| `FrameLoad.FrameLoadTracker.Finish` | browser-controller/session/frame_loading.go:66-86 | the last frame decides when somebody waits |
| `FrameLoad.FrameLoadTracker.BeginWait` | browser-controller/session/frame_loading.go:88-113 | a Wait decides at once when its context is over or nothing is loading |
| `FrameLoad.FrameLoadTracker.FinishLocked` | browser-controller/session/frame_loading.go:151-160 | the first decision stands |
| `FrameLoad.FrameLoadTracker.Cancel` | browser-controller/session/frame_loading.go:122-127 | a cancellation without error is a cancelled context |
| `FrameLoad.WaitingMeansLoading` | browser-controller/session/frame_loading.go:66-113 | somebody waits and nothing is decided only while a frame loads; done is closed once; nil means nothing was loading |
| `FrameLoad.BlockedCanWake` | browser-controller/session/frame_loading.go:115-121 | a blocked waiter with nothing loading can be woken |
| `FrameLoad.ContextEndsWait` | browser-controller/session/frame_loading.go:115-121 | a waiter whose context ends reports that error unless the outcome was decided first |
| `FrameLoad.OneOutcome` | browser-controller/session/frame_loading.go:88-121 | every Wait returns the same outcome and nothing changes the tracker afterwards |
| `FrameLoad.NilNeedsQuiet` | browser-controller/session/frame_loading.go:66-160 | the deciding event, and that nil is decided exactly by a Wait that finds no frame or by the end of the last one |
| `SessionPool.Registry.constructor` | browser-controller/session/registry.go:35-47 | the channel starts with the ids 1 to max - 1 |
| `SessionPool.Registry.GetNextAvailable` | browser-controller/session/registry.go:49-66 | a new session that does not accept requests, under the first free id |
| `SessionPool.Registry.GetActive` | browser-controller/session/registry.go:81-94 | exactly the sessions that accept requests |
| `SessionPool.Registry.Release` | browser-controller/session/registry.go:96-106 | the slot is emptied and the id goes back |
| `SessionPool.StepConserves` | browser-controller/controller/browsercontroller.go:61-136 | every step of loop and fetches keeps each id, session and page in exactly one place |
| `SessionPool.IdsConserved` | browser-controller/session/registry.go:35-106 | each id is free once, or with the loop, or with exactly one fetch |
| `SessionPool.ReleaseNeverBlocks` | browser-controller/session/registry.go:96-106 | the channel always has room for a release |
| `SessionPool.ActiveIsFetching` | browser-controller/session/registry.go:81-94 | a session found active belongs to the one fetch in progress under its id |
| `SessionPool.ReturnSettlesAll` | browser-controller/controller/browsercontroller.go:61-136 | when Run returns every session was released once, every page reported once, all ids are back and nothing is active |
| `SessionPool.LeavesIff` | browser-controller/controller/browsercontroller.go:61-120 | the loop goes on until the context ends, no page can be had for a reason other than an empty frontier, or a pause is cut short; an empty frontier alone never ends it |
| `RobotsCache.RefreshExtends` | robots-evaluator/robots/evaluator.go:231-325 | a refresh stores what the history extended by its attempt says, and answers with it |
| `RobotsCache.CacheServesHistory` | robots-evaluator/robots/evaluator.go:192-210 | the cache serves a function of the fetch history, and exactly one of FreshUntil and RetryAfter is set |
| `RobotsCache.ServedMeans` | robots-evaluator/robots/evaluator.go:192-210 | what is served, read off the attempts: the last answer for its fresh time; after an unreachable attempt, for the retry time, the rules of the last attempt that reached the server if it gave any; then nothing |
| `RobotsCache.ReachableIs` | robots-evaluator/robots/evaluator.go:302-325 | the rules kept are those of the last attempt that reached the server |
| `RobotsCache.OldRulesNeedOutage` | robots-evaluator/robots/evaluator.go:192-210 | rules a day old are served only while the latest attempt was unreachable (section 2.4 of RFC 9309) |
| `RobotsRuns.ServedFromHistory` | robots-evaluator/robots/evaluator.go:142-210 | the same over every run with flights and a clock |
| `RobotsRuns.FlightAnswersHistory` | robots-evaluator/robots/evaluator.go:152-165 | a flight answers with what the history including its own attempt says |
| `RobotsRuns.FetchesApart` | robots-evaluator/robots/evaluator.go:152-165 | two fetches for a key are decided at least the smaller interval apart, and sent at least that interval less the lag of the first, and in order |
| `RobotsRuns.ShortestIsMet` | robots-evaluator/robots/evaluator.go:152-165 | for every lag there is a run whose fetches are sent exactly that far apart |
| `RobotsRuns.SentApartIff` | robots-evaluator/robots/evaluator.go:152-165 | a fetch sent with a lag keeps all later ones a distance away, in all runs, if and only if the distance is at most the smaller interval less the lag, or zero |
| `RobotsRuns.FullGapIff` | robots-evaluator/robots/evaluator.go:152-165 | the full smaller interval is kept if and only if there is no lag |
| `RobotsRuns.OldRulesOnlyInOutage` | robots-evaluator/main.go:230-241 | with freshness at most a day, rules a day old are served only in an outage, over every run |
| `RobotsRuns.KeysAreIsolated` | robots-evaluator/robots/evaluator.go:152-165 | deleting all events about other keys changes nothing for a key |
| `RobotsEvaluator.DigitsInjective` | robots-evaluator/robots/evaluator.go:184-189 | different ports print differently |
| `RobotsEvaluator.KeysCoincideIff` | robots-evaluator/robots/evaluator.go:167-190 | keys coincide exactly for the same site and partition, even if collection names hold bars |
| `RobotsEvaluator.CollectionsShareIff` | robots-evaluator/robots/evaluator.go:178-189 | two collections share entries exactly when equal, or one is missing and the other called unscoped |
| `RobotsEvaluator.PolicyTable` | robots-evaluator/robots/evaluator.go:79-125 | an error exactly for an obeying policy whose fetch failed, the site's rules exactly when fetched and present, custom rules never fail |
| `RobotsEvaluator.AnsweredMeans` | robots-evaluator/robots/evaluator.go:142-165 | an answer comes from the cache when asked or when the flight began, else from the response by its status, else it is unreachable |
| `RobotsEvaluator.DecideMeans` | robots-evaluator/robots/evaluator.go:79-125 | what each policy decides, told from what the fetch learnt |
| `RobotsEvaluator.Evaluator.RefreshRobotsTxt` | robots-evaluator/robots/evaluator.go:231-325 | a 2xx with a readable body gives those rules, 300 to 499 none, everything else the rules of the last attempt that reached the server if it gave any; the cache then records the extended history, other keys are untouched |
| `RobotsEvaluator.Evaluator.FetchRobotsTxt` | robots-evaluator/robots/evaluator.go:142-165 | the result as the request learns it: from the cache when asked or when its flight begins, else from the response by its status, else unreachable; and whether a fetch is made |
| `RobotsEvaluator.Evaluator.IsAllowed` | robots-evaluator/robots/evaluator.go:79-125 | what each policy decides by what the request learns: rules, none, or unreachable, a service error only for the obeying policies; a fetch is recorded for this key and no other |

## Left out

- Transport and engine: gRPC, TCP, TLS and HTTP, the `internal/proxy` engine, Chrome DevTools calls, certificates
  and generated code. An RPC is a step that succeeds or fails; a read returns any bytes and any error.
- Digests and encodings: SHA-1 is an arbitrary function of the bytes; protobuf and JSON are taken as identity.
- Error texts: only the codes and the messages the code itself writes are kept, not the wrapped details.
- Logging, metrics and tracing, among them the duplicate-header and concurrent-send diagnostics and the log
  signature of `MatchCrawlLogs`.
- Crawl log fields that only carry facts along (fetch time, IP address, requested URI), and `UpdateCrawlLog`.
- `SendMeta` and `CancelContentWriter`: nothing calls them outside the terminal path.
- Timeouts are choices of the environment: the finalization timer may fire at any moment while it is armed.
- `waitForNetworkIdle` is a step that may succeed or fail.
- The robots cache is taken to keep what is put into it; reads that fail, or entries of another version, are
  cache misses and are not modelled.
- Rule matching, URL parsing and sitemaps: an arbitrary function, an optional site, and nothing.
- Session internals that do not touch the pool: fetch configuration, navigation, scripts, cookies, screenshots.
- The waiting loops `waitForSettled`, `lifecycleTracker.wait` and `Run`, and the cache's flights, are machines and
  not methods, because they need not end.
- EndToEnd.StoredExchange: assumes that request body readers begin only after the request's header was sent and
  that only the exchange itself stores.
- RequestTiming.RequestRecordDescribedIff: takes the request header and the chunks to be nonempty, as the
  recorder sends them.
- RequestContent.RequestRecordStored: one goroutine reads the request body. The recorder's metadata object is
  written and sent without a lock; here both are single steps, and the meta message takes what it holds when sent.
- EndToEnd.StoredExchangeIsWritten: record builders are taken to accept the bytes of a stored exchange.
- RequestRegistry.Registry.Observe: requires a nonempty id, for which the code panics.
- RequestRegistry.Registry.BuildCrawlLogMatch: does not cut long URLs of missing requests for the log.
- FrameLoad: the sorted `Snapshot` for logging.
- RobotsEvaluator.Evaluator.FetchRobotsTxt: one request at a time; several requests, joined in one flight, are
  in `RobotsRuns`.
- SessionPool.Registry.GetNextAvailable: the blocking receive is the precondition that an id is free unless the
  context is over.
- Lifecycle.EveryConnectionAccounted: listeners and the `shuttingDown` flag are not modelled; Accept may return a
  connection or fail at any time, also after a shutdown.
- Lifecycle.LifecycleTracker.AddRecord: the `sync.Once` around a record's close function appears as the step
  that removes a record only while it is tracked.
