# Kelos: protocols, limits and streams, modelled and proved

A Dafny project beside the Kelos repository. It models the parts of Kelos whose
correctness is a statement about whole runs: a reconnecting terminal client, a
scheduler with limits, a coalescing cache, and several stream transducers. Each
is a set of small datatypes and functions; the imperative code is modelled by
methods and classes proved equal to them; and the guarantees are lemmas about
every run, every interleaving or every input.

## How the models are built

**Session client** (`SessionProtocol`, `SessionClient`, `SessionGuarantees`,
`SessionOrder`, `SessionHistory`, `SessionStreams`, `SessionWait`, `SessionOutcomes`). The Session terminal client keeps a resume cursor, a journal id and
a queue of pending requests with `sent` flags, across any number of streams. A
`World` is the client's variables and an observer's trace; an `Input` is one
turn of the loop with what the environment supplied (a connection attempt with
its successes and failures, a request, an event, the loss of the stream). The
number of encoder writes that still succeed on a stream is chosen by the
environment. `ReconnectingClient` is the loop over mutable fields; every method
does what `Step` says. Theorems are about `RunAll`, over every possible list of
inputs. "The server echoes only request ids it received" and "clients do not
reuse request ids" are the predicate `FreshAndEchoed`, checked along the run;
`ReusedIdIsLost` shows what happens without it. `SessionHistory` and `SessionStreams`
say what each variable and each output is in terms of the inputs alone, without the
transitions; `SessionOutcomes` does the same for the wait.

**Spawner** (`Spawner`, `SpawnerLimits`, `SpawnerRetrigger`, `SpawnerItems`, `SpawnerRecord`,
`SpawnerStability`, `SpawnerConvergence`, `SpawnerCollisions`, `SpawnerProgress`,
`SpawnerClient`). Every API call of a discovery cycle is
one step. A Task is the spawner's own when it carries its label and passes its
ownership test. Between any two steps other actors may replace the whole set of
Tasks (`OthersMay`: they do not make Tasks of this spawner's own, and finished
Tasks stay finished), and the process may stop. A create may take effect and
still be reported as failed (`lost`), a status write may fail (`uncommitted`), a
deleted Task may linger behind its finalizer, whose completion is a step of its own, and
a Delete of a Task that is being deleted changes nothing. `DiscoveryCycle` is the function
over its local variables, with its loops. `SpawnerRecord` notes the list of Tasks and every
answer, and says from these notes alone what becomes of each item and what the status says.

**Proxy** (`ProxyCache`, `ProxyServer`, `ProxyGuarantees`, `ProxyAnswers`). Any number of GETs
are in progress. A step is a locked access to the cache, a look at the clock, or
an upstream answer. A flight is one coalesced upstream call for a key. The log
holds upstream's answers with what upstream really held then, so that staleness
and agreement with upstream can be stated. `CachingProxy` is the imperative form.

**Streams and pure cores.** `DiagnosticWriter` and `StreamUsage` are one-pass
programs proved equal to whole-stream definitions (`Lines` says what the lines of
a stream are, `BufferedOutput` is the buffered writer that forwards). `ClaudeResult` is the verdict on a Claude Code run.
`AgentConfigMerge` is the in-place merge proved equal to a declarative one.
`LogSegments`, `PromptPaging`, `OscColors`, `OscReplies` and `OscProbe` are the log
filter, the prompt pager and the terminal colour probe. `StreamResults`, `AgentConfigMeaning`,
`LogMeaning`, `PromptRuns` and `OscMeaning` say what each of them gives by positions, counts
and histories, with the constants of the program written out. JSON decoding and the per-agent extractors are
function parameters, so the theorems hold for all of them.

## Where the code and its description differ

- A diagnostic line that is a lone carriage return is dropped: emptiness is
  decided after trimming (`LoneCarriageReturnDropped` says exactly when it matters).
- The log filter writes back scanned lines, so a body line that ends in a carriage
  return loses it: the round trip is exact if and only if there is none
  (`SegmentRoundTrip`). A line beyond the 10 MiB buffer ends the scan with an error.
- The colour probe stops at more than 4096 bytes, checked after each read: whether
  there is an answer, though never which, may depend on the read sizes. `OscProbe`
  says for which streams, for every bound on the size of a read.
- The cache key joins URI and Accept header with `|`: a request shares its key with
  another exactly when its URI or its Accept header holds a `|` (`KeyCollidesIff`),
  and is then served the other's entry while that is fresh (`CollisionServesTheOther`).
- The concurrency guard converts the count to `int32`: it is right at every limit
  exactly for the counts given by `GuardExactIff`.
- The concurrency limit can be passed by the creates that one cycle made and took for
  failed, by any number of them but never by those of two cycles together
  (`ConcurrencyCap`, `LostCreatesPassTheLimit`).
- The total limit holds for the recorded total. The true number of Tasks may pass
  it by the creates of cycles whose status write failed, by any number of them
  (`ExactAccounting`, `UnrecordedCyclesPassTheLimit`).
- The retrigger deletes by name, without a UID precondition: a Task of somebody
  else that took the name since the list is deleted (`ForeignKeptIff`,
  `TakenNameIsDeleted`).
- A Task deleted for a retrigger stays, terminating, until its finalizer completes; until
  then cycles delete it again to no effect and count its item as a duplicate. So a clean
  cycle is the last that changes a Task until a finalizer completes, and what happens
  then is characterised exactly (`CleanCycleConverges`, `WakesAfterCycleIff`,
  `LingeringTaskIsRenewed`).
- Token totals are int64: a sum that is a multiple of 2^64 is left out as if it were
  zero (`TotalExactIff`, `FullCircleIsAbsent`).
- A write error that only the final flush meets is returned beside the usage, and not at
  all when the run has an error of its own to return (`WriteErrorHiddenIff`,
  `WriteErrorHidden`).

## Model

| member | source | states |
|---|---|---|
| SessionGuarantees.AtMostOnceInOrder | internal/cli/session.go:459-675 | over every run and any number of streams, accepted requests are the encoded ones in order followed by the unsent pending ones, and no request is encoded twice |
| SessionGuarantees.NoSilentLoss | internal/cli/session.go:588-696 | at every point each accepted request is in exactly one of: pending unsent, pending sent, confirmed by its id, reported discarded |
| SessionOrder.AlwaysInOrderIff | internal/cli/session.go:459-675 | over any run, whatever client and server do, the order law holds at every point if and only if every event removes only a request that was sent |
| SessionOrder.ConfirmKeepsFifoIff | internal/cli/session.go:603-605 | one event keeps the order law if and only if the request it removes had been sent |
| SessionOrder.ReusedIdIsLost | internal/cli/session.go:585-605 | a run from the start in which a second request with the id of a written one is removed as confirmed and never encoded |
| SessionGuarantees.CursorOverRun | internal/cli/session.go:606-648 | over any run without a journal reset, across streams, the resume cursor never decreases and covers every event received, pages included |
| SessionGuarantees.ForwardedIdsIncrease | internal/cli/session.go:501-508 | with increasing ids above each subscription's cursor, ids forwarded outside pages increase over the whole run, across reconnects, and the cursor covers them |
| SessionGuarantees.NeverWakesAfterReplay | internal/cli/session.go:465-483 | once a history replay has completed, no later step of any run asks for a resume |
| SessionGuarantees.StreamsOnlyToReady | internal/cli/session.go:465-484 | a stream is opened only to a Session that is ready, has a Pod and is not idle-suspended |
| SessionHistory.SubscribesFromCursor | internal/cli/session.go:499-509 | over every run each subscription starts at the greatest id brought since the last journal reset, an event's own or, at the end of a replay, the last event id it was announced with, and names the journal of the last replay |
| SessionHistory.ConnectedBeforeIff | internal/cli/session.go:613-622 | the client reconnects, rather than connects, exactly once some replay has ended |
| SessionHistory.AcceptedIs | internal/cli/session.go:563-588 | the accepted requests are those submitted, in order, but for subscriptions and attachments, each under its own id or a fresh one |
| SessionHistory.FatesIff | internal/cli/session.go:603-696 | a request is confirmed exactly by an event with its id that finds it the first pending one with that id, and dropped exactly by a teardown that finds it sent |
| SessionStreams.StreamIsOverRun | internal/cli/session.go:464-675 | over every run the link is up, broken, down or left exactly as the inputs say: a stream ends when it is lost, has been handed more writes than it takes, or its resume is not acknowledged at the first replay end; the function returns exactly when the terminal leaves, the sink fails or a wait finds no Session |
| SessionStreams.AskedOverRun | internal/cli/session.go:613-645 | the resumes requested, the acknowledgements asked for and the reconnections announced are exactly those of these waits, first replay ends and streams |
| SessionProtocol.RemovalKeepsOthers | internal/cli/session.go:677-684 | the removed request and the others make up the queue, with multiplicity |
| SessionProtocol.RemovalKeepsOrder | internal/cli/session.go:677-684 | removing a confirmed request takes out the first one with its id and leaves all others in their order; without one nothing changes |
| SessionProtocol.RemovalKeepsUnsentIff | internal/cli/session.go:677-684 | the unsent requests are untouched if and only if the removed request had been sent |
| SessionProtocol.FlushLaw | internal/cli/session.go:623-633 | a flush writes a prefix of the unsent requests, in order, each once, and all of them when no write fails |
| SessionProtocol.DiscardKeepsUnsent | internal/cli/session.go:686-696 | discarding keeps exactly the unsent requests, in order |
| SessionClient.ReconnectingClient.RemovePendingRequest | internal/cli/session.go:677-684 | the in-place loop removes the first request with that id |
| SessionClient.ReconnectingClient.FlushPending | internal/cli/session.go:623-633 | the flush loop marks, writes and stops as the specification says |
| SessionClient.ReconnectingClient.DiscardUnconfirmed | internal/cli/session.go:662-696 | after a lost stream the queue holds the unsent requests and the sent ones are recorded as discarded |
| SessionClient.ReconnectingClient.Serve | internal/cli/session.go:464-675 | the nested loops refine the state machine the guarantees are about |
| SessionWait.WaitForReadySession | internal/cli/session.go:698-770 | the waiting loop returns the outcome and the number of resume requests the specification gives |
| SessionWait.WaitGuarantees | internal/cli/session.go:707-757 | at most one resume request, none when reconnecting, and only a ready, awake Session with a Pod is returned |
| SessionWait.ResumeOnlyWhenIdle | internal/cli/session.go:728-746 | a resume is requested only after the Session was seen idle-suspended |
| SessionOutcomes.ReturnedIff | internal/cli/session.go:709-770 | a Session is returned if and only if some turn sees it ready with a Pod and every turn before goes on: a failed read, a failed Session when reconnecting, an idle one whose resume was accepted and is still wanted, any other that is not ready |
| SessionOutcomes.ErrorIff | internal/cli/session.go:709-770 | an error if and only if such a turn finds the Session gone, failed when not reconnecting, its resume refused or expired, or is interrupted |
| SessionOutcomes.IdleSuspendedIff | internal/cli/session.go:729-733 | given up as suspended if and only if such a turn sees it idle-suspended when reconnecting |
| SessionOutcomes.ClosedIff | internal/cli/session.go:772-786 | closed if and only if the terminal exits without an error during the sleep of such a turn |
| SessionOutcomes.ResumesIff | internal/cli/session.go:737-746 | one resume is requested if and only if such a turn is the first to see an idle Session and the client is not reconnecting |
| DiagnosticWriter.Relay | internal/cli/session.go:228-259 | for every cut into chunks the delivered events are the first ones, up to the sink's failure, of the non-empty lines of the whole stream |
| DiagnosticWriter.Writer.Write | internal/cli/session.go:228-248 | any chunk keeps the tie between the bytes received and the events delivered |
| DiagnosticWriter.Writer.Flush | internal/cli/session.go:250-259 | the flush adds the unterminated line and no other |
| DiagnosticWriter.LoneCarriageReturnDropped | internal/cli/session.go:241-280 | deciding emptiness before trimming would differ exactly on streams with a lone carriage return line |
| DiagnosticWriter.OneMoreLine | internal/cli/session.go:241-280 | a further line is one event with its text less a carriage return, or none when that leaves nothing |
| Lines.LinesOfRendered | internal/cli/session.go:236-243 | lines written in front of any stream are read back as they were written |
| SpawnerLimits.ConcurrencyCap | cmd/kelos-spawner/main.go:294-495 | over every interleaving with finishing Tasks, other creates and crashes, unfinished Tasks never exceed the number at the start, or the limit and the creates one single cycle lost (took effect, reported as failed); the cycle's own count is at least the true one but for those |
| SpawnerLimits.NeverAboveTheLimit | cmd/kelos-spawner/main.go:387-392 | with no such create, never more than the limit or the number at the start |
| SpawnerLimits.LostCreatesPassTheLimit | cmd/kelos-spawner/main.go:467-490 | that bound is attained: for every positive limit m and every k some run loses k creates of one cycle and has m + k unfinished Tasks |
| SpawnerLimits.GuardExactIff | cmd/kelos-spawner/main.go:389 | the int32 guard is right at every limit if and only if the count is below 2^31 or wraps to the largest int32 |
| SpawnerLimits.GuardOverflows | cmd/kelos-spawner/main.go:389 | a count of 2^31 passes the guard of limit 1 |
| SpawnerLimits.ExactAccounting | cmd/kelos-spawner/main.go:499-515 | between cycles the recorded total grew by exactly the Tasks created less unrecorded and lost ones, and never passes the lifetime limit |
| SpawnerLimits.UnrecordedCyclesPassTheLimit | cmd/kelos-spawner/main.go:394-398 | the slack is real: for every k some run with limit 1 creates k Tasks while status writes fail |
| SpawnerRetrigger.SafeRetrigger | cmd/kelos-spawner/main.go:340-358 | in every run each deletion was decided on an owned finished Task triggered strictly after its completion, and a Task of the spawner that it hits is one |
| SpawnerRetrigger.ForeignKeptIff | cmd/kelos-spawner/main.go:345-358 | a step of the spawner leaves all Tasks of others unchanged if and only if no name it deletes by was taken over |
| SpawnerRetrigger.TakenNameIsDeleted | cmd/kelos-spawner/main.go:351 | a run leads to a state in which the next delete takes a running Task of another spawner that took the name after the list |
| SpawnerRetrigger.RetriggeredIsPickedUpAgain | cmd/kelos-spawner/main.go:340-358 | an item whose Task was deleted and not replaced is new or retriggered again in whatever later cycle finds it |
| SpawnerItems.EveryItemHasOneFate | cmd/kelos-spawner/main.go:320-495 | at the report every discovered item, with multiplicity, was kept, delete-failed, created, duplicate, errored or blocked, and the counters count them |
| SpawnerItems.MatchedOverRun | cmd/kelos-spawner/main.go:333-358 | kept items have a listed owned Task they do not retrigger; items to create have none, or one they retriggered |
| SpawnerItems.NoPriorityInversion | cmd/kelos-spawner/main.go:360-398 | no blocked item stands before an attempted one, and none outranks it |
| SpawnerItems.SortIsStable | internal/source/source.go:43-54 | the priority sort orders by rank, loses nothing and keeps discovery order within a rank |
| SpawnerItems.NeverStuck | cmd/kelos-spawner/main.go:245-567 | in every reachable state one of the spawner's own steps can be taken |
| SpawnerProgress.EveryCycleEnds | cmd/kelos-spawner/main.go:245-567 | whatever answers and whoever else works, a cycle over n items takes at most 3n + 3 steps of its own, and is over when it has taken them |
| SpawnerItems.StatusTellsTheTruth | cmd/kelos-spawner/main.go:499-554 | a committed report shows an error if and only if an item errored and the limit if and only if the new total reached it; no other step moves the total or the discovery watermark |
| SpawnerRecord.RecordedOverRun | cmd/kelos-spawner/main.go:301-495 | at every point of every run the variables of a cycle are what the list it began with and the answers so far say |
| SpawnerRecord.FatesFollowAnswers | cmd/kelos-spawner/main.go:320-495 | at the report: kept and delete-failed items by the list and the deletions, new ones in discovery or rank order, created exactly on acceptance, duplicate exactly on a conflict whose read found a Task of the spawner, errored on every other answer, and blocked exactly from the first attempt at which a limit stands |
| SpawnerRecord.StatusFollowsAnswers | cmd/kelos-spawner/main.go:499-554 | a committed report counts the items, adds the accepted creates, and shows an error if and only if some answer was one; a recorded failure breaks the health; nothing else changes the status |
| SpawnerRecord.TasksFollowCalls | cmd/kelos-spawner/main.go:340-490 | a create that took effect stores a Task with label and controller reference under a free name, a delete strikes the name of a listed Task that the item outlives, no other step changes a Task |
| SpawnerConvergence.CleanCycleConverges | cmd/kelos-spawner/main.go:320-495 | after a cycle without failures or limits every discovered name is held and the spawner by itself never changes a Task again, over any later cycles with the same items; no finished Task is left that an item outlived if and only if no Task it deleted still waits for its finalizer |
| SpawnerConvergence.WakesAfterCycleIff | cmd/kelos-spawner/main.go:320-495 | with finalizers completing beside it, some later run of the spawner changes a Task if and only if some Tasks being deleted, once gone, free a discovered name and leave room under the limits |
| SpawnerConvergence.OnlyRenewsAfterCycle | cmd/kelos-spawner/main.go:340-358 | in every such run the spawner deletes nothing; each change it makes stores a new Task under a discovered name whose Task was being deleted |
| SpawnerConvergence.NothingToDelete | cmd/kelos-spawner/main.go:340-358 | such a cycle that lists no outlived Task leaves none |
| SpawnerStability.StableIff | cmd/kelos-spawner/main.go:303-490 | from any idle state no run of the spawner alone changes a Task, failures and crashes included, if and only if every named item has its name held, by no outlived Task that is not yet being deleted, or no room under the limits |
| SpawnerStability.WakesIff | cmd/kelos-spawner/main.go:303-490 | from any idle state some run of the spawner and of finalizers has the spawner change a Task if and only if that fails once some set of Tasks being deleted is gone |
| SpawnerStability.OnlyRenewsOverRun | cmd/kelos-spawner/main.go:303-490 | from a state with all names held and all outlived Tasks being deleted, the spawner only makes anew what was being deleted, whatever finalizers complete |
| SpawnerCollisions.CollisionsSurface | cmd/kelos-spawner/main.go:468-522 | after a clean cycle the status shows an error if and only if some discovered name is held by a Task that does not belong to the spawner; with none every item has a Task of the spawner |
| SpawnerProgress.CleanCycleExists | cmd/kelos-spawner/main.go:320-495 | from any point of a cycle over named items, when the limits leave room for them, a clean run leads to the report, whether deletions complete or linger |
| SpawnerConvergence.LingeringTaskIsRenewed | cmd/kelos-spawner/main.go:340-358 | a run that is not settled: a clean cycle leaves the finished Task terminating, the spawner changes nothing until its finalizer completes, and then creates it anew |
| SpawnerClient.DiscoveryCycle.ListTasks | cmd/kelos-spawner/main.go:301-318 | the list loop remembers exactly the owned Tasks and counts the unfinished ones |
| SpawnerClient.DiscoveryCycle.SortNewItems | cmd/kelos-spawner/main.go:360-363 | the new items are sorted by rank when priority labels are set |
| SpawnerClient.DiscoveryCycle.RunCycle | cmd/kelos-spawner/main.go:294-567 | the function with its loops is one run of the machine, each input the one given by the state and the behaviour of that call; it begins with the items, ends with the status write or, exactly when some name does not resolve, the recorded failure, and only matches and creates in between |
| SpawnerClient.DiscoveryCycle.Serve | cmd/kelos-spawner/reconciler.go:59-70 | cycles interleaved with other actors and crashes refine the machine |
| ProxyGuarantees.BoundedStaleness | cmd/ghproxy/main.go:91-153 | every fresh hit of every concurrent run was sent or confirmed for the same request and stored less than the time to live before; none with a time to live of zero or less |
| ProxyGuarantees.FreshHitIff | cmd/ghproxy/main.go:126-153 | in every run a request is served its cached entry without upstream if and only if the entry is within its time to live; otherwise a flight for its key is in progress |
| ProxyGuarantees.NoResurrection | cmd/ghproxy/main.go:212-295 | from a flight's look at the cache to its write its key holds the entry whose tag was sent; cached entries are 2xx and tagged |
| ProxyGuarantees.ServesWhatUpstreamHeld | cmd/ghproxy/main.go:126-311 | with an honest upstream every hit and successful miss is what upstream held at the answer it names, for a revalidated hit its 304 |
| ProxyGuarantees.ConfirmedIsCurrent | cmd/ghproxy/main.go:245-276 | the entry whose tag upstream confirms is what upstream holds now |
| ProxyGuarantees.CollisionServesTheOther | cmd/ghproxy/main.go:80-82 | a request with the key of another whose entry is fresh is served the other's representation |
| ProxyCache.KeyCollidesIff | cmd/ghproxy/main.go:80-82 | some other request has the key of a request if and only if its URI or its Accept header contains the separator |
| ProxyCache.KeySeparates | cmd/ghproxy/main.go:80-82 | the key separates requests whose URIs do not contain the separator |
| ProxyServer.CachingProxy.DoGetUpstream | cmd/ghproxy/main.go:212-311 | the whole upstream call, its result and its effect on the cache |
| ProxyServer.CachingProxy.FetchResponse | cmd/ghproxy/main.go:126-154 | one undisturbed GET tells its client a fresh hit, a revalidated hit, a miss or a failure, and leaves exactly one entry renewed, replaced, or none |
| ProxyServer.CachingProxy.Serve | cmd/ghproxy/main.go:126-311 | every interleaving of requests refines the machine |
| ProxyAnswers.AnswersDecide | cmd/ghproxy/main.go:257-311 | over every concurrent run each response is what the answer it names decides: a 304 for a cached entry is a revalidated hit with that entry, any other answer a miss with itself, no answer a 502; and each cached entry was confirmed by a 304 or brought by a tagged 2xx |
| ProxyAnswers.KeyHoldsAnswerIff | cmd/ghproxy/main.go:257-295 | when a flight returns, its key holds the confirmed entry renewed, or the answer if it is a tagged 2xx, and otherwise what it held |
| ProxyAnswers.NoRequestIsForgotten | cmd/ghproxy/main.go:144-154 | a waiting request always has its result or a flight in progress for its key |
| StreamUsage.Run | internal/capture/usage.go:55-124 | for every destination the one-pass program delivers the input, with at most a final newline added, as far as it is taken, and returns exactly the usage and error that the whole input, the room and the buffer decide |
| StreamUsage.TruncationIsReported | internal/capture/usage.go:58-62 | a truncated output always comes with an error, a complete one never with a write error |
| StreamUsage.WriteErrorHiddenIff | internal/capture/usage.go:58-62 | truncation is reported as something else than a write error if and only if the bytes that do not fit stay in the buffer until the final flush and the run has an error of its own |
| StreamUsage.WriteErrorHidden | internal/capture/usage.go:58-62 | such an input: one short line of an interrupted run and no room |
| BufferedOutput.BufferedWriter.Write | internal/capture/usage.go:57-78 | whatever the pieces, the destination and the buffer hold what was given, and a write fails exactly when more than there is room for has left the buffer |
| StreamUsage.ClaudeOutcome | internal/capture/usage.go:96-121 | an error if and only if a last result exists that is not completed; the degenerate mark if and only if its message is the degenerate one |
| StreamUsage.TotalExactIff | internal/capture/usage.go:181-206 | a reported total is the true sum if and only if that sum fits an int64, and is left out if and only if the sum is a multiple of 2^64 |
| StreamUsage.FullCircleIsAbsent | internal/capture/usage.go:361-373 | four events of 2^62 tokens sum to 2^64 and no total is reported |
| StreamUsage.WrappedTotalsSnoc | internal/capture/usage.go:181-196 | one more event moves the wrapped totals by one wrapping addition |
| StreamUsage.LastIsLast | internal/capture/usage.go:136-149 | the kept result is the last one of the stream |
| StreamUsage.ForwardedIsRendered | internal/capture/usage.go:62-92 | what is forwarded is the lines of the input, each newline-terminated, and forwarding it again changes nothing |
| StreamUsage.RecordsSnoc | internal/capture/usage.go:82-91 | a further line adds its record exactly when it is not empty and parses |
| StreamResults.CodexReports | internal/capture/usage.go:30-31 | for codex the sums over the completed turns, modulo 2^64 and left out when zero, and the last non-empty message |
| StreamResults.OpencodeReports | internal/capture/usage.go:34-35 | for opencode the sums over the finished steps, and the last non-empty text |
| StreamResults.GeminiReports | internal/capture/usage.go:32-33 | for gemini the fields of the last result, and the last non-empty message unless the result has a response |
| StreamResults.CursorReports | internal/capture/usage.go:36-37 | for cursor the fields of the last result |
| StreamResults.ClaudeReports | internal/capture/usage.go:96-121 | for claude-code the fields of the last result, an error if and only if it is not complete, and the degenerate mark if and only if it is no error result and too short |
| StreamResults.OthersReportNothing | internal/capture/usage.go:38-40 | for every other agent type nothing |
| StreamResults.RunReturns | internal/capture/usage.go:55-124 | when the usage is returned and when each error is, in both directions, from the read error, the room and what stays in the buffer |
| StreamResults.AllHeldIff | internal/capture/usage.go:57-62 | an output waits in the buffer as a whole if and only if it has at most 4096 bytes |
| ClaudeResult.FailureExplained | internal/claudecode/result.go:47-121 | a message if and only if the run is not completed, with a reason for every incomplete run |
| ClaudeResult.StatusIff | internal/claudecode/result.go:47-80 | complete if and only if successful, with no other reason than the normal ones, and not of 10 turns or more with an answer of fewer than 200 characters |
| ClaudeResult.MessageIs | internal/claudecode/result.go:82-121 | which message each result gets, and exactly which details, in order |
| Text.TrimmedIs | internal/claudecode/result.go:77-79 | trimming takes off white space at both ends, all of it, and nothing else |
| ClaudeResult.PaddingIsNotAnAnswer | internal/claudecode/result.go:70-80 | surrounding white space never lengthens an answer |
| AgentConfigMerge.MergeAgentConfigs | internal/controller/agentconfig_merge.go:13-53 | the in-place merge equals the declarative one |
| AgentConfigMerge.CollectServers | internal/controller/agentconfig_merge.go:40-50 | the index-map loops build the merged servers |
| AgentConfigMerge.MergedServersMeaning | internal/controller/agentconfig_merge.go:40-50 | unique names, in first-occurrence order, each with its last value |
| AgentConfigMerge.MergeInStages | internal/controller/agentconfig_merge.go:13-53 | merging any block first and the result with the rest gives the flat merge |
| AgentConfigMeaning.MergedHolds | internal/controller/agentconfig_merge.go:9-53 | nothing for none, a single config untouched, else the non-empty texts with a blank line between each two, plugins and skills one list after the other, and of all servers the last of each name |
| AgentConfigMeaning.TextIsParagraphs | internal/controller/agentconfig_merge.go:24-30 | the joined text is the non-empty texts with a blank line between each two |
| LogSegments.FilterTaskLogSegment | internal/cli/logs.go:281-310 | for arbitrary logs and writers it writes the lines strictly between the first start marker and the next end marker or the end, as far as the writer takes them, with the exact error |
| LogSegments.SegmentRoundTrip | internal/cli/logs.go:281-310 | filtering a worker log for a task gives its body, byte for byte if and only if no body line ends in a carriage return |
| LogMeaning.SegmentBetweenMarkers | internal/cli/logs.go:281-302 | with both markers: the lines strictly between the first start and the next end, and no error |
| LogMeaning.SegmentToTheEnd | internal/cli/logs.go:281-310 | with no end marker: all lines read behind the start, and an error if and only if the scan stopped at one of ten mebibytes or more |
| LogMeaning.NoSegment | internal/cli/logs.go:303-310 | with no start marker: nothing, and a missing segment is reported unless the scan stopped |
| PromptPaging.BrowsingShowsInOrder | internal/cli/session_terminal_prompts.go:12-73 | over every run of presses and pages the prompts shown are the newest received, newest first, none skipped or repeated |
| PromptPaging.PageIndependence | internal/cli/session_terminal_prompts.go:12-73 | two runs over the same prompts in different pages show the same |
| PromptPaging.Act | internal/cli/session_terminal_prompts.go:12-85 | every action keeps the position at -1 or a valid index |
| PromptPaging.DownUndoesUp | internal/cli/session_terminal_tui.go:584-597 | in every run, after an older prompt was put on screen by a press or a page, Down restores the text and the position before it, draft included |
| PromptPaging.PromptHistory.Browse | internal/cli/session_terminal_prompts.go:12-85 | any sequence of keys and events over the model's fields is the run the theorems speak of |
| PromptPaging.PromptHistory.ReceivePromptHistory | internal/cli/session_terminal_prompts.go:42-73 | one page answer over the model's fields |
| PromptRuns.TextIsNeverLost | internal/cli/session_terminal_prompts.go:12-85 | in every run of keys and answers the text on screen is what was typed last or an earlier prompt, and in that case Cancel brings back what was typed last |
| PromptRuns.HistoryIsLoaded | internal/cli/session_terminal_prompts.go:42-85 | in every run the history is the prompts of the pages answered since browsing began, was cancelled or failed |
| PromptRuns.RequestsFollowPages | internal/cli/session_terminal_prompts.go:12-66 | in every run exactly the requests of Up at the draft and at the oldest prompt and of empty pages are made, each for the page before; one at most is outstanding, until answered or another key |
| OscColors.ParseIsStable | internal/cli/session_terminal_background.go:23-53 | once a buffer parses to colours, no later bytes change them |
| OscColors.QueryDefaultColors | internal/cli/session_terminal_background_unix.go:44-85 | the read loop answers if and only if some prefix of the reads parses within the limit, and then with what the whole stream parses to |
| OscColors.ChunkingCannotChangeTheAnswer | internal/cli/session_terminal_background_unix.go:68-77 | two ways of reading a stream never give two answers |
| OscColors.WithinLimitAlwaysAnswered | internal/cli/session_terminal_background_unix.go:68-77 | within the limit there is an answer if and only if the whole stream parses |
| OscProbe.DependsOnReadsIff | internal/cli/session_terminal_background_unix.go:48-84 | with reads of at most n bytes, some way of reading a stream is answered and another not, if and only if it is longer than the limit, parses within it, and not already before the part one read can step over |
| OscProbe.DependsOnFreeReadsIff | internal/cli/session_terminal_background_unix.go:71-73 | with reads of any size: if and only if it is longer than the limit and parses within it |
| OscProbe.DependsOnProgramReadsIff | internal/cli/session_terminal_background_unix.go:49 | with the program's reads of at most 256 bytes: if and only if moreover it does not parse within the first 3841 bytes |
| OscProbe.SomeStreamDepends | internal/cli/session_terminal_background_unix.go:48-84 | such streams exist for any colours in any spelling |
| OscColors.ComponentRoundTrip | internal/cli/session_terminal_background.go:79-90 | the two-digit and doubled four-digit forms of a byte both parse to it |
| OscReplies.RepliesRoundTrip | internal/cli/session_terminal_background.go:23-90 | whatever comes before without escapes and whatever comes after, the two replies in any spelling parse to the two colours in their places |
| OscReplies.PayloadRoundTrip | internal/cli/session_terminal_background.go:55-77 | three or four components in any spelling parse to red, green and blue |
| OscColors.FourDigitsScale | internal/cli/session_terminal_background.go:79-90 | every four-digit component is its scaled value rounded down, within a byte |
| OscColors.FindEnd | internal/cli/session_terminal_background.go:41-50 | the scan finds the first terminator |
| OscColors.ParseComponents | internal/cli/session_terminal_background.go:69-76 | the component loop: all components, or none when one is bad |
| OscMeaning.ComponentIff | internal/cli/session_terminal_background.go:79-90 | a component is read if and only if it is two hexadecimal digits, or four, scaled from 65535 to 255 and rounded down |
| OscMeaning.PayloadIff | internal/cli/session_terminal_background.go:55-77 | a payload gives a colour if and only if, trimmed, it is rgb with three or rgba with four such components, in any case |
| OscMeaning.ColorIff | internal/cli/session_terminal_background.go:35-53 | a buffer gives a colour if and only if its first reply for the slot is terminated and its payload gives it |
| OscMeaning.TrimmedIs | internal/cli/session_terminal_background.go:56 | trimming takes off whole white space characters and nothing else |

## Left out

- Wording and status of diagnostics, logging, metrics, headers, rate limits, link rewriting, tokens and user agents.
- JSON, base64 and decimal spellings: decoded records and fields are values or function parameters.
- Attachment uploads: those requests are dropped from the queue as in the program, the events they cause are not modelled.
- The ways a terminal closes a session: all are the input `Exit`. A missing resume requester counts as a failing resume request.
- `DiagnosticWriter` covers the event mode and the line path; `sendDiagnostic` and the plain output mode are not modelled.
- The mutex-protected field accesses of the proxy are atomic steps; `singleflight` is taken as at most one flight per key.
- Request construction failures and body read failures of the proxy are its upstream errors.
- `ResolveTaskName` and label ranks are data of an item; `sort.SliceStable` is an insertion sort.
- Failures before the list of Tasks, and suspended spawners, change neither Tasks nor totals and are not inputs; neither is a change of the spec between cycles.
- `BuildTask`, credentials, context sources and annotations are one preparation that succeeds or fails; the Task it makes belongs to the spawner.
- Status texts and condition objects: the model keeps the health, the error and limit flags, the counts and the discovery watermark.
- Retries of `openTaskLogStream`, the reporting cycle, colour blending and everything drawn on a terminal.
- OSC replies are modelled as characters, one for each byte; `Text`, for Claude Code results, works on characters.
- `/history` in the plain terminal, cron ticks under limits and HTTP caching beyond the proxy's own time to live: no claim is made.
