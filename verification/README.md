# phero: a verified model

A Dafny model of the parts of phero that carry invariants, with proofs of what they promise.
`dafny verify dfyconfig.toml` checks all of it.

- **Sessions, compaction and the snapshot log.** `Messages` (conversations and whole tool rounds), `SnapLog` (cursor
  arithmetic), `JsonFile` (the pruning memory, as a class) and `LogHistory` (any sequence of calls on it), `Split`,
  `Estimate` and `Compact` (the summary compactor and the check of its result), `Alignment` (finding a compaction's
  cutoff in the log), `Turns` (what an iteration adds), `Asking` (what a session was last asked) and `AgentRun` (the
  run loop, as a class with one method per step of `agent.go`, and conversations of many runs). The model calls, tool
  outcomes, cancellations and file writes of a run are arbitrary functions, so every statement holds for every
  environment.
- **Serving and draining.** `Drain`: the admission gate as a class, and a state machine of the atomic steps of any
  number of `Start` calls, the drain, heartbeats and handlers, in any interleaving.
- **The response stream.** `Utf8` (UTF-8 as section 3 of RFC 3629 defines it, JSON string escaping as section 7 of RFC
  8259 does), `Wire` (splitting an answer into chunks), `StrayRuns` (splits inside a character), `Limits` (when a
  split succeeds) and `Reply` (what the server publishes and what the client reads, when any publish may fail).
- **Accounting and scheduling.** `TraceTotals` and `Spans` (totals rolled up a tree of spans), `ToolRound` (the tool
  calls of a round), `Retry` and `Limiter`.
- **Translation.** `Merging` and `Anthropic` (turns), `Base64` (section 4 of RFC 4648) and `Google` (thought
  signatures).

A conversation is *whole* (`Messages.Closed`) when every tool result directly follows the message that made its call,
in call order, and no call is unanswered.

## Where the code differs from what is said of it

- `encodeResponseChunks` is documented to fail only when not even one character fits. It can fail although the first
  one fits, for some valid text exactly when the limit is 1 to 22 bytes above the size of an empty chunk
  (`Limits.RefusedThoughFirstFitsExactly`), and although every character fits exactly when it is 2 to 22 bytes above
  (`Limits.RefusedThoughEachFitsExactly`). From 23 bytes on no valid text is refused, from 24 no text at all
  (`Limits.ValidSplitAlwaysSucceeds`, `Limits.SplitAlwaysSucceeds`).
- Cuts are documented to fall on character boundaries. They do in a valid text, but the search for a boundary backs up
  three bytes only. It ends inside a character exactly in a text that holds a character of two bytes or more whose
  first byte is followed by four continuation bytes (`Wire.BoundaryCutsExactly`); every text without such a run is
  split between characters (`Wire.SplitKeepsCharacters`), and a text with one has a start that, after some letters and
  under some limit, is not (`StrayRuns.StrayRunIsSplit`, with a text in `StrayRuns.SplitsCharacterBeforeStrays`). The
  split is invisible to the client exactly when no piece ends inside a character (`Wire.SplitRoundTrip`).
- A client takes less than an answer for the whole exactly when sending it failed, because a chunk was lost or the
  text refused, the error that reports this was lost too, and the terminator was not (`Reply.PartialAnswerExactly`). A
  failed run whose error is lost reads as an empty answer in the same way (`Reply.HandlerErrorArrivesExactly`).
- A second `Start` on one server overwrites its handles. A drain leaves a service running exactly when two Starts
  registered (`Drain.EveryServiceStoppedExactly`), and can wait forever for the first one's heartbeats. A drain can
  end, without a Start's context ending from outside, exactly when every Start that publishes heartbeats is done or is
  the one whose handle the server holds (`Drain.DrainEndsExactly`). A second Start can break that whether it registers
  (`Drain.SecondStartHangsDrain`) or fails to (`Drain.FailedSecondStartHangsDrain`); one Start alone never does
  (`Drain.OneStartEnds`).
- A prompt's context also ends, with no drain begun, when the status endpoint cannot be registered after the prompt
  endpoint has admitted a request (`Drain.FailedStartCancelsPrompt`); `Drain.PromptsCancelledExactly` says when it has
  ended, in every reachable state.
- `NewLimiter` says that the bucket is filled in advance; it starts empty (`Limiter.NewLimiterStartsEmpty`). A window
  can start more calls than the bucket's capacity and the window's ticks allow, because calls that took a token wait
  for a slot; `Limiter.StartsWithinBucketExactly` says when it cannot.
- `NewLimiter` accepts a rate above one call per nanosecond, whose tick interval is rounded to zero: the ticker then
  panics. It does for exactly those rates (`Limiter.IntervalTicks`).
- `Clear` is not rolled back when the file cannot be written, unlike the other operations of the JSON memory. File and
  memory differ exactly when such a Clear found something to clear and no message was saved since
  (`LogHistory.ReopenGivesBackExactly`).
- With a second writer, a snapshot can cover messages the run never loaded, even when no earlier snapshot failed to be
  stored (`Alignment.AnotherWritersMessagesAreCovered`). The cutoff is in the last part of the log that looks like the
  session, so messages of another writer that repeat the run's own come under it as well
  (`Alignment.RepeatedMessagesAreCovered`). It covers the run's own messages alone exactly when nothing was saved
  between the cutoff of the session's snapshot and them, and nothing after them looks the same
  (`Alignment.OtherWritersMessagesCoveredExactly`).
- A span that ends after its parent is not rolled up, so a report is a whole subtree exactly when every descendant was
  given to a parent that had not ended (`Spans.ReportsAllExactly`).

## Model

| member | source | states |
|---|---|---|
| `Messages.ReplayableConcat` | agent/agent.go:1374-1388 | dropping empty answers commutes with appending, so batches saved one by one are the session saved at once |
| `Messages.ReplayableKeepsAll` | agent/agent.go:1374-1420 | what is kept holds no empty answer, and a session without one is kept whole |
| `Messages.DroppedExactly` | agent/agent.go:1390-1420 | a log drops exactly the answers that call nothing and in which no part has a character to read, redacted text or an image |
| `Messages.TextContentReads` | llm/llm.go:222-239 | a message's text is its text parts in order, each on a line of its own from the first that is not empty |
| `Messages.ClosedReplayable` | agent/agent.go:1374-1420 | dropping empty answers never breaks a tool round |
| `Messages.ClosedSplit` | memory/split.go:12-34 | a cut that does not land on a tool result leaves both sides whole |
| `Messages.ClosedCutOnlyBetweenRounds` | memory/split.go:12-34 | a cut on a tool result leaves neither side whole |
| `Messages.SummaryIsRead` | memory/snapshot.go:66-76 | a reader finds the whole summary as the words of the user, then every pinned message |
| `Split.SplitPoint` | memory/split.go:26-34 | the first index at or after the wanted one, clamped, that is no tool result |
| `Split.SplitKeepsRoundsWhole` | memory/split.go:12-34 | in a whole conversation the split leaves both sides whole, and is the first index from the wanted one on that does |
| `Estimate.EstimateTokens` | llm/estimate.go:32-51 | the loop counts bytes, calls, images and messages as the estimate defines them |
| `Estimate.TokensOfPart` | llm/estimate.go:32-51 | dropping messages from either end lowers the estimate by at least their overhead, so a shorter suffix never costs more |
| `Estimate.TokensOfOne` | llm/estimate.go:20-51 | a message costs four tokens, one for every four bytes of UTF-8 it says or calls with, and a thousand for every image |
| `Estimate.TokensAddUp` | llm/estimate.go:32-51 | estimates add up but for one token |
| `SnapLog.Tail` | internal/snaplog/snaplog.go:32-52 | the loop returns the log after the cutoff less the tool results it starts with, each with its absolute cursor |
| `SnapLog.View` | internal/snaplog/snaplog.go:56-65 | the summary messages, then that tail |
| `SnapLog.ViewReads` | internal/snaplog/snaplog.go:54-65 | the first message shown is the user's and holds the summary, the pinned ones follow, and the rest ends the log |
| `SnapLog.CutoffAccepts` | internal/snaplog/snaplog.go:71-88 | a cutoff is accepted exactly when the caller's snapshot is current and the cursor names a saved message not covered yet |
| `SnapLog.CutoffAcceptsByCursor` | internal/snaplog/snaplog.go:71-113 | snapshots are compared by their cursors alone, and the new cursor names a saved message past the current one's |
| `SnapLog.TailOfPruned` | internal/snaplog/snaplog.go:32-52 | a log pruned no further than its snapshot shows the same messages with the same cursors |
| `SnapLog.TailCursors` | internal/snaplog/snaplog.go:91-103 | each cursor names the absolute position of its message |
| `SnapLog.TailEndsLog` | internal/snaplog/snaplog.go:32-52 | the tail is a suffix of the log |
| `JsonFile.DecodeOfEncode` | memory/jsonfile/memory.go:149-179 | reading a written file gives back the log, in the plain and in the object form |
| `JsonFile.New` | memory/jsonfile/memory.go:73-167 | a memory opened over any file holds what the file holds, and is valid exactly when that shows the messages saved before; only an unknown version is refused |
| `JsonFile.Memory.Persist` | memory/jsonfile/memory.go:185-225 | a write replaces the file or leaves it as it was |
| `JsonFile.Memory.Save` | memory/jsonfile/memory.go:232-272 | appends the messages, or changes nothing when the write fails |
| `JsonFile.Memory.Retrieve` | memory/jsonfile/memory.go:277-289 | the view of the log, and every message saved when there is no snapshot |
| `JsonFile.Memory.LoadSnapshot` | memory/jsonfile/memory.go:295-311 | the snapshot and the tail of everything saved, pruned or not |
| `JsonFile.Memory.SaveSnapshot` | memory/jsonfile/memory.go:317-346 | stores exactly the snapshots the cutoff check accepts and the write lets through, prunes only what they cover, and otherwise changes nothing |
| `JsonFile.Memory.Clear` | memory/jsonfile/memory.go:350-360 | empties the memory whether or not the file could be written |
| `LogHistory.HistoryShows` | memory/jsonfile/memory.go:232-360 | after any calls, offset plus length counts every message saved since the last Clear, and pruning stays behind the snapshot |
| `LogHistory.PruningRefines` | memory/jsonfile/memory.go:317-346 | after any calls, a pruning and an unpruned memory return the same messages, snapshots, cursors and errors |
| `LogHistory.PrunedHoldsTheRest` | memory/jsonfile/memory.go:317-346 | after any calls, a pruning memory holds exactly the saved messages its snapshot does not cover |
| `LogHistory.UnprunedKeepsAll` | memory/jsonfile/memory.go:232-272 | without pruning the log is exactly the messages saved, in order |
| `LogHistory.CutoffAdvances` | internal/snaplog/snaplog.go:71-88 | between Clears the cutoff never moves back, and each stored snapshot moves it forward |
| `LogHistory.CutoffsAreNotReused` | memory/snapshot.go:49-64 | between Clears a cutoff is a version number: later stored snapshots have later ones |
| `LogHistory.OneWriterWins` | memory/snapshot.go:49-64 | of writers that start from one snapshot at most one stores its own; every later one gets a conflict |
| `LogHistory.ReopenGivesBackExactly` | memory/jsonfile/memory.go:118-360 | the file always decodes, and to the memory exactly unless a Clear of a memory that held something could not be written and nothing was saved since |
| `LogHistory.FailedClearIsLost` | memory/jsonfile/memory.go:350-360 | a run in which they do |
| `Compact.Check` | agent/compact.go:141-160 | the loop finds the first reason a compaction is refused |
| `Compact.CheckAccepts` | agent/compact.go:141-165 | a compaction is accepted exactly when the kept messages line up with the input's last ones, leave something out and do not start with a tool result |
| `Compact.LinesUpExactly` | agent/compact.go:152-165 | two messages line up exactly when their speaker, the call they answer and the ids of their calls are the same |
| `Compact.CheckRefuses` | agent/compact.go:139-160 | a refusal names the first reason there is, and the first kept message that is not the input's |
| `Compact.ClipKeepsEnds` | agent/compact.go:396-411 | a text within the limit stays; of a longer one half the limit is kept at each end, with the decimal number of characters that are gone |
| `Compact.BudgetIsFirstSet` | agent/compact.go:358-367 | the budget is the compactor's, else the agent's, else the default: the first that is positive |
| `Compact.ClipToolResults` | agent/compact.go:378-411 | the loop clips the text of tool results and nothing else |
| `Compact.FindKeepFrom` | agent/compact.go:358-374 | the loop returns the first start whose clipped suffix fits |
| `Compact.LastUserMessage` | agent/compact.go:414-427 | the last message of a user in the conversation |
| `Compact.LastUserIs` | agent/compact.go:413-427 | it is a user's message with no later one |
| `Compact.CompactWith` | agent/compact.go:240-271 | the steps of Compact make the compaction the lemmas below are about |
| `Compact.SummaryIsOfTheDropped` | agent/compact.go:240-271 | the model is given the previous summary and exactly the messages that are not kept; nothing is compacted exactly when all may be kept |
| `Compact.EverythingIsRecorded` | agent/compact.go:240-271 | with a model that records what it is given, summary and tail record everything appended, once and in order, over any compactions |
| `Compact.PinsOnlyWhatIsMissing` | agent/compact.go:260-268 | a message is pinned only when none of the user's is kept: the task, or what was pinned |
| `Compact.KeepsTheLongestSuffix` | agent/compact.go:240-374 | what is kept fits the message and token budgets and starts no tool result, and no longer suffix does all three |
| `Compact.SummaryPassesCheck` | agent/compact.go:240-271 | every compaction of a SummaryCompactor passes the check, keeps at most keepRecent messages, within the token budget |
| `Compact.SummaryKeepsRoundsWhole` | agent/compact.go:240-271 | both what it drops and what it keeps of a whole conversation are whole |
| `Compact.CompactKeepsTask` | agent/compact.go:260-270 | a compaction leaves the latest user message where it was or pins it |
| `Compact.TaskSurvives` | agent/compact.go:260-427 | from any session, with a snapshot or without, over any appends and compactions, the latest user message stays in it verbatim |
| `Alignment.FindCursor` | agent/agent.go:612-648 | the search from the end finds the last window of the log that lines up with the session's tail |
| `Alignment.AlignedWithLog` | agent/agent.go:654-667 | compares role, call id, calls and, but for tool results, text, one for one |
| `Alignment.AlignedExactly` | agent/agent.go:650-667 | lining up means the same speakers, calls and call ids, and the same words but for tool results |
| `Alignment.AlignedKeepsClosed` | agent/agent.go:654-667 | messages that line up with a whole conversation are one |
| `Alignment.CutAfter` | internal/snaplog/snaplog.go:32-52 | the cursor of a loaded message cuts the log so that exactly the messages loaded after it are loaded next |
| `Alignment.LaterLoadsEndEarlier` | agent/agent.go:1307-1343 | what is loaded past a later cutoff ends what is loaded past an earlier one |
| `Alignment.CutoffLeavesKept` | agent/agent.go:582-667 | for one writer, however many earlier snapshots failed to be stored, the search succeeds and its cutoff leaves to load exactly the kept messages, one for one |
| `Alignment.CutoffKeepsRounds` | agent/agent.go:582-667 | wherever the search finds the tail, with other writers or not, a log of whole rounds is cut between rounds |
| `Alignment.AnotherWritersMessagesAreCovered` | agent/agent.go:612-648 | with another writer's messages before the run's own, the cutoff covers them |
| `Alignment.OtherWritersMessagesCoveredExactly` | agent/agent.go:612-648 | with other writers' messages before and after the run's own, and earlier snapshots not stored, the cutoff is in the last window that lines up with the session and leaves what follows the older messages there; it covers the run's own older messages alone exactly when none stand before them and no later window lines up |
| `Alignment.RepeatedMessagesAreCovered` | agent/agent.go:612-648 | when another writer repeats the run's messages, the kept ones and the other's older ones are covered, with nothing before the run's own |
| `Alignment.WindowsMayBeCut` | agent/compact.go:141-160 | the search ends only where a cut may fall: before a kept message that is no tool result, or between whole rounds |
| `Turns.RoundIsClosed` | agent/agent.go:1048-1136 | what an iteration appends, run or cut off, is a whole round |
| `Turns.RoundSays` | agent/agent.go:1048-1195 | a round is the answer's own parts and calls, then for each call what its tool returned, how it failed or stopped the run, or that it was cut |
| `Turns.InputIsKept` | agent/agent.go:1293-1302 | input is kept part by part, all but text that says nothing |
| `Turns.SaveKeepsStanding` | agent/agent.go:965-987 | saving what follows keeps the snapshot standing for everything before the tail |
| `Turns.SaveKeepsLoadsClosed` | agent/agent.go:965-987 | saving whole rounds keeps what the next run loads whole |
| `Turns.SummaryIsFaithful` | agent/compact.go:240-398 | a SummaryCompactor changes nothing of a kept message but the text of tool results |
| `Turns.CheckedKeepsRounds` | agent/compact.go:141-160 | an accepted compaction of any compactor cuts a whole conversation between rounds |
| `Asking.SummaryKeepsTask` | agent/compact.go:240-271 | a SummaryCompactor keeps what the session was last asked, from any session |
| `Asking.TaskWhenSaved` | agent/agent.go:965-987 | saving messages makes the next run be asked what they ask, or what it would have been |
| `Asking.TaskWhenStored` | agent/agent.go:582-608 | storing a snapshot that lines up with what was kept leaves what the next run is asked |
| `AgentRun.Run.Prepare` | agent/agent.go:1273-1343 | a run starts from the system prompt, the stored snapshot's summary, the replayable log after it and the input |
| `AgentRun.LoadMemory` | agent/agent.go:1307-1388 | loads exactly the messages the stored snapshot does not stand for, less empty answers |
| `AgentRun.Run.SaveSession` | agent/agent.go:965-987 | appends to the log exactly the messages not saved yet, less empty answers; it fails exactly when there are some and the write fails, and then nothing changes |
| `AgentRun.Run.SaveCheckpoint` | agent/agent.go:845-858 | with checkpoints on, nothing is unsaved after a round; it fails exactly when that save does |
| `AgentRun.SnapshotCursor` | agent/agent.go:612-648 | no cursor when another snapshot was stored meanwhile; else the aligned one |
| `AgentRun.Run.StoreSnapshot` | agent/agent.go:582-608 | for one writer the snapshot is stored exactly when the write succeeds, at the cutoff that leaves the kept messages; else the stored one stays |
| `AgentRun.Run.CompactSession` | agent/agent.go:492-575 | replaces the session by the prompt, the summary and the kept messages the compactor made, or leaves it and the stored snapshot; fails exactly when the compaction is refused or fails, or the session cannot be saved; what is stored lines up with the tail, and no whole round is broken |
| `AgentRun.Run.CompactIfNeeded` | agent/agent.go:401-436 | compacts exactly when the prompt reached the threshold and the tail does not fit the kept budget; otherwise, or when it fails, the session stays; it fails exactly when a compaction that is due does |
| `AgentRun.Run.IterationFailed` | agent/agent.go:450-487 | a call is repeated exactly for a prompt too long, when the compaction does not fail, once in a row; otherwise the run ends with the cancellation or the call's error |
| `AgentRun.Run.HandleIteration` | agent/agent.go:1002-1107 | appends the round of the reply and nothing else, and notes what the model was sent |
| `AgentRun.RoundMessages` | agent/agent.go:1048-1195 | the answer, then one result per call in call order |
| `AgentRun.RoundEnd` | agent/agent.go:1048-1107 | a round ends the run when it makes no call, or, unless cut off, when a tool stops the run or hands off, a stop first |
| `AgentRun.RoundEndsExactly` | agent/agent.go:1048-1107 | a run ends with an answer without calls, a tool that stops it, or else a handoff, and goes on exactly otherwise |
| `AgentRun.AskedExactly` | agent/agent.go:524-566 | exactly an accepted compaction replaces the session, and only nothing to compact leaves it |
| `AgentRun.Run.DueExactly` | agent/agent.go:401-442 | a compaction is due exactly when both thresholds are reached, the second a quarter of the first |
| `AgentRun.PromptReads` | agent/agent.go:1273-1302 | every prompt starts with the system prompt, the whole summary and what is pinned |
| `AgentRun.FailedCallsRepeatOnce` | agent/agent.go:446-487 | a failed call that does not end a run was too long for the context, and no two such calls follow one another |
| `AgentRun.Run.Loop` | agent/agent.go:752-841 | the loop leaves exactly the transcript of the iterations made, within the limit, none but the last of which could end the run, and ends for the reason it names; when nothing but model calls fails, where the script alone says; every prompt that is due was offered to the compactor |
| `AgentRun.Run.Iterate` | agent/agent.go:796-841 | an iteration appends its round and either goes on, ready for the next, or names how it ended the run; after a failed call it goes on exactly when it may be repeated |
| `AgentRun.Run.Execute` | agent/agent.go:752-899 | the batches stored are a prefix of the transcript less empty answers, all of it when the last save succeeds, once each and in order; when nothing but model calls fails, it saves everything and ends where the script alone says; each prompt is system, summary and whole tail, was offered to the compactor when due, and without one is all that was loaded and said; each snapshot stored lines up with what it left; a last answer that says something ends the log; session and prompts are asked what the input asked or else what memory recalled, and so is the next run |
| `AgentRun.Run.Leaves` | agent/agent.go:862-899 | what a run that ended leaves the next one to load is what its session held |
| `AgentRun.Run.CompactManually` | agent/agent.go:352-396 | a compaction between runs loses no message, and stores a snapshot aligned with what it kept, exactly when it is accepted and written, or leaves the stored one; what the next run is asked stays |
| `AgentRun.Converse` | agent/agent.go:752-899 | over any number of runs on one memory the log is what they said, stays whole, every prompt sent is well formed, and every snapshot stored lines up with what it left; each run is asked the latest user message of the conversation so far, whatever was compacted and reloaded |
| `AgentRun.ConverseSummarizing` | agent/compact.go:260-427 | so it is with a SummaryCompactor, whatever its model writes: the latest user message is in every prompt, and the next run loads it |
| `Drain.Gate.Unlock` | nats/drain.go:73-80 | a closed gate does not open |
| `Drain.Gate.Enter` | nats/drain.go:85-96 | admits and counts only while open and not closed |
| `Drain.Gate.Leave` | nats/drain.go:100-109 | the last handler of a closing gate signals idle |
| `Drain.Gate.Close` | nats/drain.go:119-147 | closes for good; idle at once when nothing is in flight |
| `Drain.GateHistory` | nats/drain.go:49-147 | after any calls, handlers are admitted exactly once the gate was unlocked and until it is closed, and those in flight are counted |
| `Drain.PhasesShareTheBudget` | nats/drain.go:24-46 | a positive budget is a total, split four to one at least; only a zero or negative one gets a grace of its own |
| `Drain.StepKeeps` | nats/drain.go:59-247 | every step of any interleaving of Start, Drain and handlers keeps the invariant: the gate counts the running handlers and is idle exactly when closed and empty, and the drain has read the last handles set |
| `Drain.DrainedMeansQuiet` | nats/drain.go:149-223 | after Drain, or a Start, returned no error, no admitted handler runs and none is ever admitted |
| `Drain.GracefulWaitEnds` | nats/drain.go:201-214 | a drain goes on to cancel exactly when a handler runs or its time was up and seen first |
| `Drain.UnwindWaitEnds` | nats/drain.go:216-222 | after it cancelled, it reports handlers still running exactly when some are, or the time was up and seen first |
| `Drain.UnwoundInTime` | nats/drain.go:216-222 | when every handler ended before the last wait timed out, it never reports an error, and can end |
| `Drain.OneStartGetsReady` | nats/server.go:290-322 | a Start whose registration and flush succeed makes the server ready |
| `Drain.ReadyIsAcknowledged` | nats/server.go:290-322 | the server is ready only after the broker acknowledged the registration of a Start |
| `Drain.ServingIsReady` | nats/server.go:243-322 | a Start that serves has made it ready, unless its context has ended or a drain began |
| `Drain.DrainHasACause` | nats/server.go:243-253 | a drain begins only when Drain is called or the context of a Start has ended |
| `Drain.StartReturnsExactly` | nats/server.go:243-253 | a registered Start whose context has ended begins the drain itself, can return exactly when that can end, and returns what it reports |
| `Drain.NeverReadyAfterDraining` | nats/server.go:309-322 | once draining, nothing marks the server ready and no Start registers |
| `Drain.StoppedServerRefuses` | nats/server.go:199-228 | a Start that has not begun to register by then never does, and returns that the server stopped |
| `Drain.ReturnEndsContexts` | nats/server.go:206-215 | a Start that began to register returns with both its contexts ended |
| `Drain.EveryServiceStoppedExactly` | nats/drain.go:183-199 | a finished drain leaves no service running exactly when at most one Start registered |
| `Drain.SecondStartLeavesServiceRunning` | nats/server.go:225-236 | a run with two Starts in which the first service is never stopped |
| `Drain.PromptsCancelledExactly` | nats/drain.go:183-223 | a prompt context has ended exactly when the drain spent its graceful share and cancelled it, or its Start is past serving; before a drain does that, exactly when its Start failed to register |
| `Drain.FailedStartCancelsPrompt` | nats/server.go:369-390 | a run in which the last case cancels an admitted prompt |
| `Drain.DrainEndsExactly` | nats/drain.go:149-223 | in every reachable state, a drain can end without a Start's context ending from outside exactly when every Start that publishes heartbeats is done or can be stopped by the server's handle |
| `Drain.DrainEnds` | nats/drain.go:183-223 | then it ends by the server's own steps, with every handler still running |
| `Drain.DrainHangs` | nats/drain.go:201-222 | else no drain ends in any run in which an unreached Start's context does not |
| `Drain.SecondStartHangsDrain` | nats/server.go:225-236 | a second Start gets a drain there |
| `Drain.FailedSecondStartHangsDrain` | nats/server.go:225-390 | and so does one that fails to register, before any drain began |
| `Drain.OneStartEnds` | nats/drain.go:149-223 | with one Start a drain can always end |
| `Utf8.EscapeSize` | nats/wire.go:170-172 | escaping grows a text at most sixfold and never shrinks it |
| `Utf8.EscapeIsSafe` | nats/wire.go:154-163 | an escaped text holds no control character, no quote that ends it and no markup |
| `Utf8.EscapesAre` | nats/wire.go:154-163 | each ASCII character is written as it is, after a backslash, or as four hex digits |
| `Utf8.RunesExactly` | nats/wire.go:215-229 | a character of n bytes is exactly the UTF-8 form of a scalar value |
| `Utf8.UnescapeOfEscape` | nats/wire.go:154-163 | decoding an escaped string gives the text back, invalid bytes replaced |
| `Utf8.SanitizedSame` | nats/wire.go:154-163 | which is the text itself exactly for valid UTF-8 |
| `Wire.DecodeOfEncode` | nats/wire.go:154-163 | a client decodes an encoded chunk to its text |
| `Wire.RuneBoundary` | nats/wire.go:219-229 | the loop backs up to the start of a character, by at most three bytes |
| `Wire.NextChunk` | nats/wire.go:184-208 | the shrinking loop ends, with the piece the specification names or none |
| `Wire.EncodeResponseChunks` | nats/wire.go:174-213 | the loop produces the encoded pieces, or none when a piece fails |
| `Wire.SplitJoins` | nats/wire.go:174-213 | the pieces join to the text and every chunk fits the limit; no piece exactly for an empty text under a limit no chunk fits |
| `Wire.BoundaryCutsExactly` | nats/wire.go:215-229 | a boundary falls inside a character exactly in a text with a run: a character whose first byte is followed by four continuation bytes |
| `Wire.SplitKeepsCharacters` | nats/wire.go:174-229 | no piece of a text without such a run ends inside a character; a valid text has none, and its pieces are valid |
| `Wire.SplitRoundTrip` | nats/wire.go:165-213 | a client reads what it would read of one chunk exactly when no piece ends inside a character, and the text exactly when that is valid |
| `StrayRuns.LastRunIsCut` | nats/wire.go:174-229 | a text that ends with a run is split in it, under a limit one byte below its chunk's size |
| `StrayRuns.StrayRunIsSplit` | nats/wire.go:174-229 | a text holds a run exactly when a start of it, after some letters and under some limit, is split inside a character |
| `StrayRuns.SplitsCharacterBeforeStrays` | nats/wire.go:174-229 | a text and a limit with which the first chunk ends after one byte of a whole character |
| `Limits.FitSucceeds` | nats/wire.go:184-208 | with room for an empty chunk and 24 bytes the proportional step never shrinks a piece to nothing |
| `Limits.StrayDoesNotFit` | nats/wire.go:184-208 | with less room a run of stray continuation bytes is refused |
| `Limits.SplitAlwaysSucceeds` | nats/wire.go:174-213 | every text can be sent exactly when the limit is at least the empty chunk's size plus 24 |
| `Limits.ValidSplitAlwaysSucceeds` | nats/wire.go:174-213 | every valid text can be sent exactly when the limit is at least the empty chunk's size plus 23 |
| `Limits.RefusedThoughFirstFitsExactly` | nats/wire.go:165-208 | for exactly which limits some valid text is refused although its first character fits a chunk |
| `Limits.RefusedThoughEachFitsExactly` | nats/wire.go:165-208 | for exactly which limits some valid text is refused although each of its characters fits a chunk |
| `Reply.Publisher.SendResponse` | nats/server.go:548-569 | chunks, then the terminator; an error in place of the rest once a publish fails |
| `Reply.Publisher.HandlePrompt` | nats/server.go:422-504 | a refusal, a bad request, a failed run or an answer, after its acks |
| `Reply.StreamIsWellFormed` | nats/server.go:422-602 | whatever publishes fail, the server sends acks, chunks and at most one error, then exactly one terminator, last |
| `Reply.AcksComeFirst` | nats/server.go:453-489 | a prompt that is run is acknowledged before anything else, once and with every keepalive |
| `Reply.RefusalArrivesExactly` | nats/server.go:416-451 | a refused prompt gets no ack, and its client reads 500 or 400 exactly when that is delivered |
| `Reply.ReadText` | nats/client.go:323-364 | the loop joins the chunks until the terminator, an error or a query |
| `Reply.ReadsUpToTheEnd` | nats/client.go:323-364 | the client reads up to the first error, terminator or query, which decides what it returns |
| `Reply.ReadChunks` | nats/client.go:323-364 | what the client makes of an answer, by which publish failed first and what followed |
| `Reply.WholeAnswerArrives` | nats/client.go:323-364 | when every publish works the client reads the whole answer, or the error for a text that was refused; from the bound above, always the answer |
| `Reply.HandlerErrorArrivesExactly` | nats/errormap.go:120-136 | a handler's error reaches the client exactly when it is delivered, with its code when a server may send it and as a 500 otherwise; the client reads an empty answer instead exactly when it is lost and the terminator is not |
| `Reply.PartialAnswerExactly` | nats/client.go:323-364 | for every valid text and limit, exactly when the client takes less than the answer for the whole; with the report of a failure delivered it returns that |
| `TraceTotals.Totals.Add` | trace/totals.go:105-171 | merging in place adds every counter and every table entry, in whatever order the entries are visited |
| `TraceTotals.Totals.AddOwn` | trace/totals.go:174-234 | adding a span in place adds exactly its own contribution |
| `TraceTotals.Totals.Clone` | trace/totals.go:95-102 | a copy with the same totals |
| `TraceTotals.AddedAssociates` | trace/totals.go:105-141 | the order in which totals are grouped does not matter |
| `TraceTotals.AddedCommutes` | trace/totals.go:105-141 | nor does the order in which they are added |
| `TraceTotals.SumMerged` | trace/totals.go:105-171 | a merged table sums to the sum of the two |
| `TraceTotals.AddedConsistent` | trace/totals.go:28-65 | merging keeps counts and usage equal to the sums of the tables |
| `TraceTotals.OwnConsistent` | trace/totals.go:174-234 | so does what a single span contributes |
| `TraceTotals.OwnCounts` | trace/totals.go:174-234 | a span is counted once as what it is, under the model that answered, the agent it runs for and the tool it calls |
| `Spans.Span.End` | trace/span.go:242-267 | only the first end counts, and it gives the span to its parent |
| `Spans.Span.AddChild` | trace/span.go:271-281 | a span that has ended takes no more |
| `Spans.Span.Report` | trace/span.go:215-235 | the descendants' totals and, once ended, the span's own, in a copy |
| `Spans.FirstEndCounts` | trace/span.go:237-281 | the first end's duration and outcome are kept and reported, whatever follows |
| `Spans.CountsForNearestRun` | trace/span.go:118-122 | a span counts for the agent of the nearest run around it |
| `Spans.ReachedWhenTaken` | trace/span.go:271-281 | giving a span to its parent adds it and what reached it there, nothing twice and nowhere else |
| `Spans.StepKeeps` | trace/span.go:226-281 | in any interleaving a span's totals are the sum over the spans that reached it |
| `Spans.ReportsEachOnce` | trace/span.go:213-281 | a report counts each descendant that reached the span exactly once, the span itself once ended, and nothing else |
| `Spans.ReportsAllExactly` | trace/span.go:237-281 | it is the whole subtree exactly when each descendant was taken by its parent |
| `Spans.NestedReportsAll` | trace/span.go:237-281 | in a well-nested tree an ended span reports exactly its whole subtree |
| `Spans.ReportIsConsistent` | trace/totals.go:28-65 | in every report counts, errors, usage and runs equal the sums of the tables that record them |
| `ToolRound.PlanRound` | agent/agent.go:1203-1227 | the loop makes the batches the scheduler runs |
| `ToolRound.PlanBatches` | agent/agent.go:1197-1227 | the batches are consecutive runs of calls that cover the round, an exclusive call alone in its own, and no others are kept apart |
| `ToolRound.StepKeeps` | agent/agent.go:1203-1270 | every step of any schedule keeps: earlier batches ended, later ones not begun, each ended call reported once |
| `ToolRound.ExclusiveRunsAlone` | agent/agent.go:1197-1227 | an exclusive call overlaps nothing, after the calls before it and before those after it |
| `ToolRound.ParallelIsBounded` | agent/agent.go:1231-1252 | at most maxParallelTools calls run at once, when set |
| `ToolRound.ParallelIsReached` | agent/agent.go:1197-1252 | and calls in a row that are not exclusive do all run at once, in some schedule, as far as that bound lets them |
| `ToolRound.RoundHasEveryResult` | agent/agent.go:1073-1083 | whatever the order of completion, one result and one event per call, results in call order: the round the agent loop appends |
| `ToolRound.NoDeadlock` | agent/agent.go:1231-1270 | until the round is done some step can be taken: no call waits for a slot forever |
| `ToolRound.RoundCompletes` | agent/agent.go:1231-1270 | from every state the round can be finished |
| `ToolRound.RunsAreBounded` | agent/agent.go:1231-1270 | and no schedule goes on for longer than a bound known at its start |
| `Retry.Consumer.Yield` | llm/middleware/retry.go:271-289 | nothing is delivered to a consumer that stopped reading or was given an error: a precondition every delivery meets |
| `Retry.Consumer.StreamAttempt` | llm/middleware/retry.go:271-289 | delivers an attempt's chunks up to the first the consumer stops at, and says how it ended |
| `Retry.Consumer.ExecuteStream` | llm/middleware/retry.go:171-234 | the retry loop delivers what the specification says, in at most maxAttempts attempts |
| `Retry.StreamOutcome` | llm/middleware/retry.go:255-266 | another attempt is made exactly for a retryable failure before any chunk with attempts left |
| `Retry.StreamsOneAttempt` | llm/middleware/retry.go:167-266 | the chunks of one attempt only, the first that does not fail early or the last allowed, then at most one error |
| `Retry.NothingAfterStop` | llm/middleware/retry.go:271-289 | every item but the last was wanted and is a chunk |
| `Retry.Execute` | llm/middleware/retry.go:111-165 | the buffered loop returns the first success, the first error not worth a retry, or that attempts ran out |
| `Retry.StreamedIsExecuted` | llm/stream.go:60-96 | over a model that does not stream, the stream gives what the buffered call gives |
| `Limiter.NewLimiter` | llm/middleware/limiter.go:167-205 | refuses a rate or a concurrency that is not positive; else one second's tokens of capacity, at least one, and an empty bucket |
| `Limiter.CapacityIsASecond` | llm/middleware/limiter.go:177 | the bucket holds the whole tokens of a second, and one of a slower rate |
| `Limiter.IntervalTicks` | llm/middleware/limiter.go:133-182 | ticks come at the rate or less than a nanosecond early; the interval is zero, on which a ticker panics, exactly for rates above one per nanosecond |
| `Limiter.Limiter.Tick` | llm/middleware/limiter.go:133-149 | a token that does not fit is discarded |
| `Limiter.Limiter.TryAcquire` | llm/middleware/limiter.go:73-89 | takes a token if there is one, then a slot if there is one |
| `Limiter.StepKeeps` | llm/middleware/limiter.go:42-149 | in any interleaving tokens made are taken or waiting, and slots taken are those of the calls in flight |
| `Limiter.NeverMoreInFlight` | llm/middleware/limiter.go:42-71 | never more than maxConcurrentRequests calls are in flight, each with one slot |
| `Limiter.StopReleases` | llm/middleware/limiter.go:110-129 | once stopped, every call that waits for a token or a slot can end |
| `Limiter.GivesUpWithCause` | llm/middleware/limiter.go:110-129 | a call gives up only when the limiter was stopped or the context of a call ended |
| `Limiter.WindowIsLimited` | llm/middleware/limiter.go:154-158 | a window with k ticks lets at most k calls take one beyond the waiting tokens that calls are there to take, and starts at most those and the calls that waited for a slot |
| `Limiter.StartsWithinBucketExactly` | llm/middleware/limiter.go:151-158 | windows never start more calls than capacity and ticks exactly when the tokens calls are there to take and the calls waiting for a slot fit the bucket |
| `Limiter.Burst` | llm/middleware/limiter.go:110-129 | the window that shows it: without a tick every waiting call starts, and one more for each token there is a call for |
| `Limiter.NewLimiterStartsEmpty` | llm/middleware/limiter.go:159-190 | a new limiter starts at most one call a tick |
| `Merging.MergedKeeps` | llm/anthropic/anthropic.go:392-453 | merging alternates the roles and loses, moves or re-labels no block |
| `Merging.MergedUniquely` | llm/anthropic/anthropic.go:392-453 | blocks and roles determine the turns, so there is no other way to merge |
| `Anthropic.Translation.Flush` | llm/anthropic/anthropic.go:416-430 | emits the pending turn, if any |
| `Anthropic.Translation.Add` | llm/anthropic/anthropic.go:432-446 | a message's blocks join the pending turn or start one |
| `Anthropic.TrimBlank` | llm/anthropic/anthropic.go:491-509 | an id or a text is blank exactly when trimming it leaves nothing |
| `Anthropic.TrimIs` | llm/anthropic/anthropic.go:450-526 | trimming takes away the white space at both ends and nothing else |
| `Anthropic.PartSends` | llm/anthropic/anthropic.go:455-602 | which block each kind of part gives in a user's message, an answer and a result |
| `Anthropic.PartsConcat` | llm/anthropic/anthropic.go:455-602 | parts are translated one by one, in order |
| `Anthropic.AssistantSends` | llm/anthropic/anthropic.go:460-493 | an answer sends its thinking, its text, then each call with its own name, arguments and id |
| `Anthropic.ResultSends` | llm/anthropic/anthropic.go:495-515 | a result names its call, keeps its content and says whether the tool failed |
| `Anthropic.SystemSends` | llm/anthropic/anthropic.go:445-527 | system messages are sent apart, in order and trimmed |
| `Anthropic.MessagesToAnthropic` | llm/anthropic/anthropic.go:402-534 | the loop yields the system blocks and the merged turns, or the error of the first message that has one |
| `Anthropic.TurnsKeepEveryBlock` | llm/anthropic/anthropic.go:392-453 | roles strictly alternate, no turn is empty, and every message's blocks are sent once, in order, under its role; only these turns do that |
| `Anthropic.TurnsKeepRounds` | llm/anthropic/anthropic.go:392-400 | each turn with tool calls is followed at once by a user turn that starts with all their results in call order, and results are nowhere else |
| `Anthropic.RoundsTranslateExactly` | llm/anthropic/anthropic.go:491-515 | a whole conversation translates exactly when its roles are known and no call has a blank id |
| `Base64.DecodeOfEncode` | llm/google/convert.go:61-93 | base64 gives back what was encoded |
| `Base64.EncodesGroups` | llm/google/convert.go:61-93 | four digits of the alphabet write the number three bytes make, and what is left over is padded |
| `Base64.NoColon` | llm/google/convert.go:83-84 | and holds no colon |
| `Google.FieldsOfTag` | llm/google/convert.go:61-84 | a tagged signature splits into its fields, whatever colons the id holds |
| `Google.SignaturesFromParts` | llm/google/convert.go:72-104 | the loop reads the stored signatures and ignores any other reasoning |
| `Google.StoredIsRead` | llm/google/convert.go:61-104 | a stored signature is read back for the part it was stored for |
| `Google.MessageFromParts` | llm/google/convert.go:110-167 | the loop joins texts and thoughts, keeps the calls in order and stores every signature |
| `Google.AssistantParts` | llm/google/convert.go:273-311 | the loop puts each stored signature back on its part |
| `Google.MessageStores` | llm/google/convert.go:72-167 | a message stores the last signature of its plain parts, of its thoughts and of each call id |
| `Google.MessageSays` | llm/google/convert.go:110-167 | its text joins the plain parts, its reasoning the thoughts, and its calls are the answer's in order |
| `Google.ThereAndBack` | llm/google/convert.go:110-311 | what any answer becomes after a round trip |
| `Google.CallsComeBackExactly` | llm/google/convert.go:110-311 | each call comes back with its own id and signature exactly when no id has the generated form and calls that share an id share a signature |
| `Google.AnswerComesBack` | llm/google/convert.go:110-311 | then the answer comes back: its joined thoughts under their last signature, its joined text under its own, and its calls in order |

## Left out

- Provider calls, HTTP, NATS, PostgreSQL and the file system: their outcomes are arbitrary functions or choices of a
  step.
- What calls do to a memory opened over a file whose offset or snapshot does not fit its messages. `NewRetry` refuses
  fewer than one attempt, so a retrying model has at least one.
- The JSON library: a log's file is a value, and only strings are escaped. A surrogate pair in an escaped string is
  not decoded to one character, which the encoder never writes.
- `SetMeta` and the metadata of a JSON memory, `WithSummarization`, `Len`: no bearing on the log.
- The 63-bit range of a cursor's number, and spellings of it other than the canonical one beyond being different
  cursors.
- A retrieval, a load or a compaction check of another memory that fails: the run then ends before the state modelled
  here changes.
- How a handler's error gets its code (`errorFor`), and the text and header of an error: only the code is modelled.
- A summary's text, the retry of a summary cut off at the output limit, prompts and token limits of the summary call.
- Trace payloads, events, links and what is exported; costs and durations are integers, and a payload is taken as it
  is when its span ends.
- `partialResultFromSession` and the parts of a result: a run's end is only named.
- The search for images among a tool's results, MIME types and decoded tool arguments.
- Waiting: a budget, a back-off, a tick or a timeout is a step that may be taken. How long a retry waits is not
  modelled.
- `contentsFromMessages` beyond the assistant's parts: its merging is that of `Merging`, over other blocks.
- Line breaks inside base64, which the decoder skips and the encoder does not write.
- `llm/schema.go`, `trace/batch.go`, `mcp/mcp.go`, `skill/skill.go`, `trace/propagation.go`, `vectorstore/filter.go`,
  `llm/pricing.go`, `llm/openai/openai.go`, `nats/resolver.go`, `nats/heartbeat.go`: they would add smaller properties
  only.
- The steps of a server, of ending spans, of a round's goroutines and of a limiter's callers are modelled on values,
  one atomic step at a time: a method runs alone, so an interleaving cannot be stated of methods. The critical
  sections themselves are methods where they compute something.
- JsonFile.DecodeOfEncode: a file is an abstract value, a plain list or a versioned object, and not the JSON text of
  one.
- Reply.ReadText: of the ways to spell a chunk in JSON only the encoder's own is read as text; a publisher of this
  package writes no other.
- Google.AssistantParts: a call's arguments pass through as text, while the source decodes them and sends an empty
  object for those that do not decode.
- Limiter.IntervalTicks: a rate is a real number; the rounding of a 64-bit float, and rates so small that the interval
  overflows, are not modelled.
- AgentRun.Run.Execute: the messages of another writer between the saves of a run are not modelled; `Alignment` states
  what they do to a cutoff.
- AgentRun.Run.StoreSnapshot: that the write decides alone, and that the kept messages align, is stated for compactors
  that change nothing of a kept message but the text of tool results, as `Turns.SummaryIsFaithful` shows of a
  SummaryCompactor.
- AgentRun.Run.Execute: what the session and the next run are asked is stated for compactors that keep it, as
  `Asking.SummaryKeepsTask` shows of a SummaryCompactor; for the next run they must shorten nothing but tool results
  as well.
- AgentRun.Run.Execute: tool calls are run as `ToolRound` says; the run takes their results as a function of the call.
- Anthropic.TurnsKeepRounds: it is about conversations in which only the assistant makes calls, as a conversation of
  an agent does.
