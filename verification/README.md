# DeepSeek Science agent workbench: verified model

A Dafny 4.11 model of the pipeline that carries a model answer from the provider's stream to the user and to the
database, with machine-checked proofs about it. `dafny verify dfyconfig.toml` checks everything.

The pipeline has four layers, and the files follow it:

* **Reading one assistant turn.** `Text`, `Markdown`, `Backticks`, `DsmlTags`, `TopLevel` and `DsmlParser` are the
  textual tool protocol (DSML) and the Markdown scan that decides where it may stand. `DsmlRoundTrip` and `DsmlTheorems`
  prove what the parser accepts. `TextGuard` is the guard that publishes text while it is still arriving; it is proved
  to agree with the parser, which runs only once the turn is complete.
* **The agent turn machine.** `ToolDeltas` accumulates native tool calls, `TurnStream` consumes one provider stream with
  two coupled guards, `Conversation` and `RunState` hold history, delivered events and the ways a run can end,
  `UsageMeter` adds up what was used, `Tools` executes a batch, `ArtifactRepair` judges a demanded repair, and `Runner`
  is the whole loop with its retry, plan and reviewer gates. Provider, reviewer, tools, receiver and database are
  arbitrary: the provider is any list of stream items per iteration, the receiver may leave at any operation, and every
  durable write may fail.
* **Durability and Stop.** `Durable` is the database and the checkpoint worker, `SessionRuns` accepts, executes and
  stores runs one after another, `RunControl` is the registry of runs, `StopRace` is the concurrent protocol between
  runner, relay, client and Stop requests as a state machine over its atomic steps, and `StopService` puts the registry
  in front of it.
* **Two satellites.** `A2aProtocol` and `A2aClient` are the invocation of remote agents; `StreamLedger` and
  `StreamStore` are the browser's stream buffers.

Text is `seq<char>`; cursors are character positions, and every limit the program states in bytes is stated in UTF-8
bytes (`Text.ByteLen`). Objects that the program updates in place are classes whose methods state their whole effect.

## Model

| member | source | states |
|---|---|---|
| TextGuard.IncrementalAssistantTextGuard.Push | crates/dss-agent/src/dsml.rs:95-158 | a push fails exactly when the turn would exceed 2 MiB and then changes nothing; otherwise it returns exactly the newly releasable piece |
| TextGuard.IncrementalAssistantTextGuard.FreezePublication | crates/dss-agent/src/dsml.rs:167-169 | freezing stops publication at the present end of the text and is idempotent |
| TextGuard.IncrementalAssistantTextGuard.Finish | crates/dss-agent/src/dsml.rs:189-205 | the verdict is the whole-turn parser's; a plain turn leaves exactly the unreleased rest, and a tool-call verdict implies that nothing was released, frozen or not |
| TextGuard.PublishInChunks | crates/dss-agent/src/dsml.rs:88-205 | for any split into chunks the released text depends only on the whole text, contains no `<`, and with the remainder is the input when the parser says plain |
| TextGuard.SafePrefixGrows | crates/dss-agent/src/dsml.rs:95-158 | what is safe to publish only grows as text arrives and stands still after the first `<` |
| TextGuard.EnvelopeHasNoSafePrefix | crates/dss-agent/src/dsml.rs:95-205 | a turn that parses as a tool-call envelope had nothing safe to publish at any earlier moment |
| DsmlParser.ParseAssistantText | crates/dss-agent/src/dsml.rs:284-312 | the cursor-moving parser computes the reference reading `AssistantText` of the whole turn |
| DsmlParser.FindNextVisibleDsmlTag | crates/dss-agent/src/dsml.rs:755-819 | the scan with the backtick index and block list finds the same first visible tag as the reference scan with the naive backtick search |
| DsmlParser.ParseToolCallsBlock | crates/dss-agent/src/dsml.rs:600-641 | the loop over invocations computes the reference reading of a block, with the batch and total-size bounds |
| DsmlParser.ParseInvoke | crates/dss-agent/src/dsml.rs:643-695 | the loop over parameters computes the reference reading of an invocation |
| DsmlTags.ParseAttributes | crates/dss-agent/src/dsml.rs:957-999 | the attribute loop computes the reference reading of an attribute list |
| DsmlTags.FindNextRawDsmlTag | crates/dss-agent/src/dsml.rs:821-839 | the loop over `<` positions returns the first raw tag at or after the cursor |
| DsmlRoundTrip.RoundTrip | crates/dss-agent/src/dsml.rs:284-312 | printing any printable batch of 1 to 32 calls between blank text and parsing it returns exactly these calls with their arguments |
| DsmlTheorems.AcceptedTurn | crates/dss-agent/src/dsml.rs:284-750 | conversely every accepted turn is whitespace, one block that stands alone, whitespace, and its calls satisfy every count and byte bound |
| DsmlTheorems.PlainIsVerbatim | crates/dss-agent/src/dsml.rs:284-291 | a turn read as plain is passed on character by character |
| DsmlTheorems.NoLtIsPlain | crates/dss-agent/src/dsml.rs:284-291 | a turn of legal size without `<` is always plain |
| TopLevel.ExecutableIffStandsAlone | crates/dss-agent/src/dsml.rs:314-329 | an opener is executable exactly when only blank lines and at most three spaces precede it: the comment, raw-HTML and container-fence checks never decide |
| DsmlTheorems.VisibleTagSound | crates/dss-agent/src/dsml.rs:755-817 | a visible tag was parsed where it stands, lies ahead, and is outside every protected block |
| DsmlTheorems.CodeSpansAreSkipped | crates/dss-agent/src/dsml.rs:755-817 | no tag is returned from inside an eligible closed code span that the scan came across |
| Markdown.CompleteMarkdownBlockRanges | crates/dss-agent/src/dsml.rs:1128-1200 | the line loop computes the reference list of protected ranges |
| Markdown.ProtectedRangesSound | crates/dss-agent/src/dsml.rs:1128-1200 | every protected range is a complete fenced block or an indented line, and ranges are line-aligned, sorted and disjoint |
| Markdown.CompleteFenceIsProtected | crates/dss-agent/src/dsml.rs:1128-1200 | a fence that the scan opens and that closes is protected as a whole |
| Markdown.UnterminatedFenceProtectsNothing | crates/dss-agent/src/dsml.rs:1128-1200 | a fence that never closes contributes no range |
| Markdown.AbandonedFenceProtectsNothing | crates/dss-agent/src/dsml.rs:1128-1200 | a fence whose container ends contributes no range |
| Backticks.BuildIndex | crates/dss-agent/src/dsml.rs:1216-1286 | the index lists, per width and in strictly increasing order, exactly the delimiters outside blocks and fences, including the split of an escaped run |
| Backticks.ClosingEnd | crates/dss-agent/src/dsml.rs:1288-1302 | binary search plus next entry equals the naive search for the closing delimiter |
| Backticks.FirstDelimiterMeaning | crates/dss-agent/src/dsml.rs:1288-1302 | the naive search returns the earliest later delimiter of exactly this width, or none exists |
| ToolDeltas.ToolCallAccumulator.Push | crates/dss-agent/src/runner.rs:2187-2244 | a delta is accepted exactly when the longer stream is acceptable, a condition stated call by call; the accepted state stays the per-call reading of the stream and within all bounds |
| ToolDeltas.ToolCallAccumulator.MergeIdentity | crates/dss-agent/src/runner.rs:2194-2217 | id and name are accepted exactly when non-empty, bounded and unchanged within one index |
| ToolDeltas.ToolCallAccumulator.AppendArguments | crates/dss-agent/src/runner.rs:2218-2235 | arguments are appended exactly when the call's and the turn's byte bounds allow it |
| ToolDeltas.ToolCallAccumulator.Finalize | crates/dss-agent/src/runner.rs:2246-2258 | finalisation succeeds exactly when every call is complete and ids differ, and lists the calls by ascending index with their joined arguments |
| ToolDeltas.InterleavingIndependence | crates/dss-agent/src/runner.rs:2175-2258 | streams with equal per-index subsequences are accepted or rejected alike and finalise identically |
| ToolDeltas.TotalsAreSums | crates/dss-agent/src/runner.rs:2222-2242 | the running totals are the sums over the indexes |
| ToolDeltas.AcceptablePrefix | crates/dss-agent/src/runner.rs:2187-2244 | rejection is final: an acceptable stream has only acceptable prefixes |
| TurnStream.StreamTurn | crates/dss-agent/src/runner.rs:593-1093 | if the turn is legal, both plain channels are published in full, or of an envelope no answer text and exactly the reasoning before the answer's first `<`; if the run fails here, the turn was not legal |
| TurnStream.TurnPublisher.Absorb | crates/dss-agent/src/runner.rs:613-855 | after every channel event both guards are frozen exactly when some channel has shown a `<`, from then on nothing is released, and the cutoff is the reasoning buffered before the answer's first `<` |
| TurnStream.TurnPublisher.AbsorbDelta | crates/dss-agent/src/runner.rs:773-832 | a delta that brings a `<` in either part releases nothing of either, and its own reasoning stays behind the cutoff |
| TurnStream.Decide | crates/dss-agent/src/runner.rs:926-1067 | the decision after the stream accepts exactly the legal turns and never falls back to an empty reasoning remainder |
| TurnStream.BeforeLtMeaning | crates/dss-agent/src/runner.rs:719-724 | the cutoff lies at the event in which the answer's first `<` arrived, excluding that event's own reasoning |
| TurnStream.ReceiveStream | crates/dss-agent/src/runner.rs:603-916 | the stream is received whole exactly when it is orderly with one Finish, its native deltas are acceptable and both channels fit together |
| TurnStream.TransmittablePrefix | crates/dss-agent/src/runner.rs:603-916 | a stream that went wrong stays wrong, so stopping at the first fault rejects the same streams as judging the whole |
| Conversation.MessageShowsTurn | crates/dss-agent/src/runner.rs:249-274 | turning published evidence into a history message loses nothing of it, visible or hidden |
| Conversation.WellPairedConcat | crates/dss-agent/src/runner.rs:335-344 | joining paired histories gives a paired history |
| Conversation.RecordsTurn | crates/dss-agent/src/runner.rs:1281-1296 | appending an assistant message with one result per call keeps the history paired and adds exactly this turn to what it shows |
| RunState.Frame.SetStatus | crates/dss-agent/src/frame.rs:58-69 | a terminal frame status never changes again |
| RunState.Frame.BeginRun | crates/dss-agent/src/frame.rs:74-83 | a frame that is not processing becomes the parent of a fresh processing frame; a processing one is reused |
| RunState.RunProgress.BeginIteration | crates/dss-agent/src/runner.rs:285-292 | an iteration starts only with nothing published and uncommitted |
| UsageMeter.UsageIsSum | crates/dss-agent/src/runner.rs:274-320 | the reported total is at most the sum, over the iterations, of each iteration's last snapshot, and it is that sum if and only if the real sum never left 32 bits at any moment |
| UsageMeter.CutOffSumIsLost | crates/dss-agent/src/runner.rs:294-320 | a total that was cut off and then replaced by a smaller snapshot is too low although it would fit |
| RunState.AgentRun.CommitPublished | crates/dss-agent/src/runner.rs:326-330 | committing turns the open delivered turn into history and nothing else |
| RunState.AgentRun.CommitCancelled | crates/dss-agent/src/runner.rs:335-344 | a published batch is committed together with one synthetic result per call |
| RunState.AgentRun.HidePublished | crates/dss-agent/src/runner.rs:346-351 | a rejected draft becomes a hidden message |
| RunState.AgentRun.Cancel | crates/dss-agent/src/runner.rs:2341-2364 | a cancelled run delivers no terminal event, keeps all delivered evidence, well paired, and ends cancelled |
| RunState.AgentRun.Fail | crates/dss-agent/src/runner.rs:2292-2335 | a failing run delivers one terminal event that matches the outcome and keeps its draft, or is cancelled |
| RunState.AgentRun.FailInvalidatedCandidate | crates/dss-agent/src/runner.rs:2265-2289 | an illegal turn's draft is hidden and taken back before the failure |
| RunState.LedgerMeaning | crates/dss-agent/src/runner.rs:2265-2335 | the evidence that history must match is that of the accepted events, plus at most one retraction that was not delivered |
| Tools.ToolContext.ExecuteToolCalls | crates/dss-tools/src/router.rs:124-180 | one result per call in order, or none if the receiver goes away part way, with what the first calls did kept; either way planning tools leave the plan as it was or an unapproved draft, and only plan tools change it |
| ArtifactRepair.ArtifactRepairProgress | crates/dss-agent/src/runner.rs:1940-1979 | the two map scans compute the reference scan |
| ArtifactRepair.ProgressMeaning | crates/dss-agent/src/runner.rs:1940-1979 | the verdict of the scan exactly, for every paired history: without a change or a check it is right, and with both it is right if and only if the last change and the last check were issued in the same order as their ids were last issued |
| ArtifactRepair.RightUnlessReissued | crates/dss-agent/src/runner.rs:1940-1979 | a repair is accepted wrongly only if the last check's id is issued again later, and refused wrongly only if the last change's id is |
| ArtifactRepair.SiteIsLastIssue | crates/dss-agent/src/runner.rs:1944-1955 | the map of the first scan dates every id by its last issue |
| ArtifactRepair.ReusedIdMisleads | crates/dss-agent/src/runner.rs:1940-1979 | a reused id can make the scan report a repair that was never checked |
| Runner.EffectiveIterationLimit | crates/dss-agent/src/runner.rs:2082-2087 | a user's limit only lowers the configured one, and is flagged exactly when it binds |
| Runner.Run | crates/dss-agent/src/runner.rs:362-1924 | every run conserves delivered evidence, keeps history paired and stored as a prefix, ends with exactly one matching terminal event unless cancelled, within the iteration limit, never executes a forbidden batch, and reports the metered snapshots its provider sent; its reviews are at most two, in order, each with its own iteration's verdict on a real draft behind the prompt, every one but the last a veto whose draft stands hidden; it ends naturally only past the plan gates and an approving last review of the very answer that ends the history, and after a demanded repair only if the scan of what follows the hidden draft says repaired |
| Runner.RepairedMeansChecked | crates/dss-agent/src/runner.rs:1680-1735 | in a run that ended naturally although its first review demanded a repair, the rejected draft stands hidden inside this run's history, and behind it something was successfully changed and successfully checked in a later turn, unless the last check's id was issued again |
| Runner.TurnLoop.Iterate | crates/dss-agent/src/runner.rs:454-1884 | one iteration either keeps every invariant with all evidence committed, or ends the run as every run may end; it hears all of the provider's usage snapshots unless it ends early |
| Runner.TurnLoop.LengthGate | crates/dss-agent/src/runner.rs:1095-1161 | truncated answers are continued at most four times and never on a user's last iteration |
| Runner.TurnLoop.ObtainResults | crates/dss-agent/src/runner.rs:1181-1222 | a denied batch executes nothing and gets one error per call; every other batch gets one result per call or, if the receiver goes away, none; plan mode executes planning tools only |
| Runner.TurnLoop.SupersedeAsk | crates/dss-agent/src/runner.rs:1224-1260 | a plan and a question from one batch leave only the plan pending, and only the question's result text changes |
| Runner.TurnLoop.CommitBatch | crates/dss-agent/src/runner.rs:1276-1296 | the assistant message and its results are appended together, in order |
| Runner.TurnLoop.CheckpointBatch | crates/dss-agent/src/runner.rs:1298-1359 | after a stored batch the database holds the whole history; a failed store leaves it as it was |
| Runner.TurnLoop.ToolTurn | crates/dss-agent/src/runner.rs:1162-1511 | a tool turn that continues has stored everything up to its results |
| Runner.TurnLoop.AfterBatch | crates/dss-agent/src/runner.rs:1361-1511 | an unapproved plan in plan mode always ends the run awaiting approval |
| Runner.TurnLoop.EmptyGate | crates/dss-agent/src/runner.rs:1513-1564 | blank answers are retried at most three times |
| Runner.TurnLoop.PlanGate | crates/dss-agent/src/runner.rs:1568-1582 | plan mode passes this gate exactly when a plan exists |
| Runner.TurnLoop.CompletionGate | crates/dss-agent/src/runner.rs:1584-1676 | an approved-plan run passes only with every step done; otherwise the draft is taken back at most three times before the run pauses |
| Runner.TurnLoop.ArtifactGate | crates/dss-agent/src/runner.rs:1680-1734 | a demanded repair passes only when the repair scan says so; one reminder is given |
| Runner.TurnLoop.Review | crates/dss-agent/src/runner.rs:1736-1835 | exactly one review of the current draft per call; a first veto hides the draft and remembers where a demanded repair must start, a second veto or silence after a veto never ends naturally |
| Runner.TurnLoop.CompleteNaturally | crates/dss-agent/src/runner.rs:1837-1883 | the answer becomes history only with the delivered terminal event |
| Durable.Database.AppendHistoryCheckpoint | crates/dss-db/src/repo.rs:1001-1140 | appends exactly the given messages at the expected count, or changes nothing |
| Durable.Database.PersistRun | crates/dss-db/src/repo.rs:1147-1371 | appends the remaining messages and concludes the run, or changes nothing |
| Durable.Restore | crates/dss-api/src/sessions.rs:658-674 | undoing a run restores exactly the captured state |
| Durable.RestoreCheckpoint | crates/dss-api/src/sessions.rs:688-706 | rolling back to a checkpoint keeps its messages, frame and plan with the gates of the run's start |
| Durable.CheckpointWorker.Checkpoint | crates/dss-api/src/sessions.rs:895-1000 | cursor, stored rows and rollback snapshot advance together or not at all; only a database fault or an earlier failure stops a new run's checkpoint |
| SessionRuns.SelectRunPlan | crates/dss-api/src/sessions.rs:1702-1718 | only an approved unfinished plan is ever selected, and only by an execute request outside plan mode |
| SessionRuns.SessionService.ApprovePlan | crates/dss-api/src/sessions.rs:314-362 | approval sets exactly the approved flag, in the database and in memory, or changes nothing |
| SessionRuns.SessionService.ValidatedPersistenceCursor | crates/dss-api/src/sessions.rs:709-721 | while memory and database agree, the check before a run passes with the number of stored rows; it fails exactly on a different count |
| SessionRuns.SessionService.RollbackFailedRun | crates/dss-api/src/sessions.rs:823-852 | memory goes back to the last stored checkpoint or to the start of the run; the missing-metadata branch cannot occur |
| SessionRuns.SessionService.FinalizeRun | crates/dss-api/src/sessions.rs:854-881 | after the terminal write memory and database agree, whether it succeeded or failed |
| SessionRuns.SessionService.OwnRunConcludes | crates/dss-db/src/repo.rs:1163-1306 | the database's own range and ownership checks never reject a new run |
| SessionRuns.SessionService.RunTask | crates/dss-api/src/sessions.rs:1177-1500 | the cursor check always passes, every run leaves memory and database in agreement, and every transcript a crash could expose is well paired |
| SessionRuns.SessionService.StreamRun | crates/dss-api/src/sessions.rs:1003-1500 | refused requests change no transcript; a plan-mode run never completes naturally and an executed plan only with every step done and stored |
| SessionRuns.SessionService.ServeAll | crates/dss-api/src/sessions.rs:314-1500 | after any sequence of runs and plan approvals, whatever failed in them, the stored transcript is the one in memory |
| RunControl.ActiveRunControl.RequestCancel | crates/dss-api/src/state.rs:154-177 | Stop wins unless the terminal event was first, and repeats its answer |
| RunControl.ActiveRunControl.MarkTerminal | crates/dss-api/src/state.rs:180-189 | the terminal event wins exactly from the running state |
| RunControl.ActiveRunControl.MarkPersistenceCommitted | crates/dss-api/src/state.rs:215-223 | the first verdict on persistence stands |
| RunControl.ActiveRunControl.SetPersistenceError | crates/dss-api/src/state.rs:225-233 | the first verdict on persistence stands |
| RunControl.RunControlRegistry.Register | crates/dss-api/src/state.rs:82-114 | the map and queue updates are the registry step of the functional registry |
| RunControl.RunControlRegistry.FindOrPreCancel | crates/dss-api/src/state.rs:118-135 | looking up returns the exact run or leaves a bounded marker |
| RunControl.RegisterKeeps | crates/dss-api/src/state.rs:82-114 | registering keeps order and map in step, never evicts another unfinished run, and leaves more than 64 entries only if all are unfinished |
| RunControl.AlwaysConsistent | crates/dss-api/src/state.rs:55-135 | after any operations order and map have the same keys without duplicates, and markers are duplicate-free, at most 64 and disjoint from registered runs |
| RunControl.PreCancelBlocksOnce | crates/dss-api/src/state.rs:82-135 | a Stop before its run, unless 64 newer markers displace it, makes exactly the next matching registration fail |
| StopRace.StepInv | crates/dss-api/src/sessions.rs:747-807 | every step of runner, relay, client and Stop keeps the race invariant |
| StopRace.OneWinner | crates/dss-api/src/state.rs:154-189 | at no moment of any interleaving have both Stop and the terminal event won |
| StopRace.AcknowledgedStopIsFinal | crates/dss-api/src/sessions.rs:1670-1686 | after `cancelled: true` from a Stop that holds the run's control no completion reaches the client, ever |
| StopRace.RefusedStopMeansCompletion | crates/dss-api/src/sessions.rs:1670-1686 | `cancelled: false` means a stored completion that the client has, is about to get, or has left |
| StopRace.CompleteIsDurable | crates/dss-api/src/sessions.rs:747-799 | a completion reaches the client only after the run finished with its result committed, and nothing follows it |
| StopRace.ClientTraceIsFaithful | crates/dss-api/src/sessions.rs:747-799 | the client's trace is a prefix of the agent's, or such a prefix and one error |
| StopRace.StoppedRunOutcome | crates/dss-api/src/sessions.rs:747-799 | after an acknowledged `cancelled: true` the agent has completed if and only if it did so while the relay still listened, and otherwise it gave up after the relay had ended; never both |
| StopRace.StoppedRunMayHaveCompleted | crates/dss-api/src/sessions.rs:747-799 | the first of the two happens: the completion of a stopped run may stay unseen |
| StopService.StepInv | crates/dss-api/src/sessions.rs:1652-1686 | registry and run of one id stay in agreement over every step of other runs, the stream request, Stops and the run itself |
| StopService.ActiveRunIsFound | crates/dss-api/src/state.rs:96-108 | however many other runs come and go, a Stop for an unfinished run finds its control |
| StopService.FoundStopIsFinal | crates/dss-api/src/sessions.rs:1652-1686 | `cancelled: true` from a Stop that found the control: the client never sees the completion |
| StopService.EarlyStopIsFinal | crates/dss-api/src/sessions.rs:1665-1669 | `cancelled: true` from a Stop before the stream request is final if fewer than 64 newer markers stand behind its own when the request registers |
| StopService.ToldTrueThenComplete | crates/dss-api/src/sessions.rs:1665-1669 | over all behaviours, a completion after a `cancelled: true` that found no control means that the run was already over at the lookup, or registered later with the marker pushed out by 64 newer ones |
| StopService.RegistrationDecides | crates/dss-api/src/state.rs:82-114 | once the stream request has registered, some continuation shows the client the completion if and only if no marker for it was left |
| StopService.LateStopIsToldTrue | crates/dss-api/src/state.rs:96-108 | a Stop for a completed run that 64 newer ones pushed out of the registry is told that it cancelled it |
| StopService.DisplacedMarkerLetsRunComplete | crates/dss-api/src/state.rs:128-134 | a run whose Stop came first completes on the client's screen after 64 newer markers |
| A2aProtocol.RegistryExtendsStrict | crates/dss-a2a/src/protocol.rs:244-284 | the registry reading changes nothing the strict reading accepts and adds only direct v1 tasks |
| A2aClient.Invocation.PushFrame | crates/dss-a2a/src/client.rs:1366-1376 | frames are numbered from one and accepted exactly while the total fits 4 MiB |
| A2aClient.Invocation.ExecuteOperation | crates/dss-a2a/src/client.rs:1030-1091 | nothing is sent at or after the deadline, and bodies are bounded |
| A2aClient.Invocation.TaskExchange | crates/dss-a2a/src/client.rs:760-1028 | an accepted task response is a recorded success response for the requested task without a contradicting context |
| A2aClient.Invocation.SendExchange | crates/dss-a2a/src/client.rs:446-587 | at most one message is sent, and what is returned is the reading of the recorded response, continuing the requested task in an uncontradicted context |
| A2aClient.Invocation.Invoke | crates/dss-a2a/src/client.rs:373-757 | at most one own operation and `max_polls` polls, frames within bounds, every response before the last about the one task the ending names; the ending reports an answer exactly as the last recorded response says it, with the context known after all of them, calls it a success exactly when it is one for the action, and reports no success otherwise |
| A2aClient.SentAtMostOnce | crates/dss-a2a/src/client.rs:446-587 | no invocation sends or cancels twice, and get and cancel never send |
| A2aClient.Invocation.AnswerIsOurs | crates/dss-a2a/src/protocol.rs:317-361 | over JSON-RPC a reported answer comes from a response to its own request without an error object, and unless some response returned an empty context id a task is reported under the context that was asked for |
| A2aClient.ContextKept | crates/dss-a2a/src/client.rs:983-1004 | through any uncontradicting run of responses a known context id stays the same if and only if none of them returns an empty one |
| A2aClient.ContextCanBeReplaced | crates/dss-a2a/src/client.rs:983-1004 | after an empty context id the next response can bring another one without being found to clash |
| StreamLedger.ExactlyOnce | frontend/src/store.ts:344-434 | every accepted chunk is kept exactly once, unchanged and in order, unless a reset or the first iteration dropped it |
| StreamLedger.ArrivalOrderIrrelevant | frontend/src/store.ts:459-510 | a result that arrives before its call leaves every entry the same as the reverse order |
| StreamLedger.CallsStayUnique | frontend/src/store.ts:459-478 | adding calls keeps tool entries unique by id |
| StreamLedger.ResultsStayUnique | frontend/src/store.ts:481-510 | adding results keeps tool entries unique by id |
| StreamStore.StreamStore.AppendThinking | frontend/src/store.ts:344-356 | accepted exactly for the running expected run; otherwise nothing changes |
| StreamStore.StreamStore.AppendText | frontend/src/store.ts:358-364 | accepted exactly for the running expected run; otherwise nothing changes |
| StreamStore.StreamStore.ResetDraft | frontend/src/store.ts:368-386 | drops the textual draft and keeps the tool entries |
| StreamStore.StreamStore.AdvanceIteration | frontend/src/store.ts:413-437 | only a later iteration is accepted, and it commits the previous one |
| StreamStore.StreamStore.AppendToolCalls | frontend/src/store.ts:459-478 | the loop over calls is the reference fold over entries |
| StreamStore.StreamStore.AppendToolResults | frontend/src/store.ts:481-510 | the loop over results is the reference fold over entries |
| StreamStore.StreamStore.CompleteStream | frontend/src/store.ts:638-700 | the terminal event commits what is left and ends the run, never marked as stopped; a foreign or late one changes nothing |
| StreamStore.StreamStore.FailStream | frontend/src/store.ts:702-752 | a transport failure commits and ends the run, or is deferred while a Stop is under way |
| StreamStore.StreamStore.FinishStreamStop | frontend/src/store.ts:785-826 | an acknowledged Stop commits what is left and ends the run, marked as stopped |
| StreamStore.StreamStore.ResumeStreamAfterLateStop | frontend/src/store.ts:841-850 | a late Stop resumes waiting, or ends the run with the deferred failure |
| StreamStore.StreamStore.RetireStreamAfterBackendFinish | frontend/src/store.ts:858-873 | exactly the named run is dropped, with nothing committed |
| StreamStore.RunningStreamKeepsChunks | frontend/src/store.ts:413-555 | at every moment buffer and committed messages together hold every kept chunk of the run exactly once |

## Where the code says less than its comments

Each of these has a lemma with a concrete input and the exact condition for all inputs.

* A Stop that finds no control is answered `cancelled: true` because its marker is said to guarantee that the stream
  request is rejected (crates/dss-api/src/sessions.rs:1666-1667). The run may instead be long finished and evicted, or
  the marker may have been displaced (`StopService`).
* An acknowledged Stop does not say that the agent was interrupted (`StopRace.StoppedRunOutcome`).
* Usage is said always to be the latest snapshot plus all completed iterations (crates/dss-agent/src/runner.rs:274-275);
  a sum that was cut off at 32 bits no longer is (`UsageMeter.UsageIsSum`).
* The repair scan tells turns apart by call ids that a provider may reuse (`ArtifactRepair.ProgressMeaning`).
* A remote agent can change a task's context id by returning an empty one first (`A2aClient.ContextKept`).

## Left out

- HTTP, SSE framing, SQL, TLS, DNS pinning and process management. Database operations are atomic append-or-fail
  methods.
- JSON text: a codec of two function values reads and prints it. `ToolCalls` events carry raw argument strings instead
  of parsed inputs.
- The bodies of tools, memory recall and extraction, rolling compaction and the reviewer. They are arbitrary inputs,
  except that a tool changes plan or question only under its own name, as its code does.
- The wording of notices and error messages, session titles, logs, timestamps and the 80-character task summary. The two
  texts that the program compares or persists on cancellation are kept verbatim.
- Extraction of an iteration limit from the prompt: the result is an input of `Runner.Run`.
- LRU eviction of sessions in memory, which may drop a running session (crates/dss-api/src/sessions.rs:597-605), and
  cold restore. One mutex per session id is not claimed.
- The frame status in the database is only claimed at a committed run's end. After an execute request on a session whose
  frame is already terminal, the database says processing while memory keeps the terminal status
  (crates/dss-api/src/sessions.rs:1102-1111), so the two agree again only at the next commit.
- `StopService` follows one run id with one stream request, as the browser creates them. A repeated request under the
  same id, which a refused registration does not block, is covered only by `RunControl.PreCancelBlocksOnce`.
- The wait of a Stop request is modelled with a give-up step instead of a 15 second clock.
- Error branches of the guards after the combined size check (crates/dss-agent/src/runner.rs:641-654) cannot be taken;
  the model proves the pushes succeed instead of handling the error.
- The lookahead of a tag and the slow tag parser differ on whitespace after `<` (crates/dss-agent/src/dsml.rs:856-860);
  the lookahead stays a guard inside the modelled parser.
- Agent Card negotiation, redaction and address checks of the A2A client; request building is a yes-or-no input.
- In the browser store: usage counters, session summaries, plan display, thinking disclosure and transcripts reloaded
  from the backend while a stream is running. `sanitizeAssistantDisplayText` is an arbitrary function.
