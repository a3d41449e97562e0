# Terminay: verified models

Dafny models of the parts of Terminay whose correctness depends on order, interleaving or bookkeeping, and
proofs of what those parts promise, for Dafny 4.11: `dafny verify dfyconfig.toml` checks the whole project.

- **Recording replay** (`Replay*.dfy`): an index of terminal checkpoints over an event log, which thins itself,
  and a cursor that seeks by restoring a checkpoint and replaying the rest. The terminal is an abstract type
  with a step function, the chunk reader a contract. Seeking is proved to agree with replay from the start.
- **Remote document endpoint** (`RemoteEndpoint*.dfy`) and **window connections** (`WindowConnections.dfy`): two
  asynchronous protocols as state machines whose steps are the pieces of code between awaits, with classes
  that hold the program's variables and refine the steps. Ownership and the absence of dead ends are proved
  over every interleaving.
- **Agent status** (`Agent*.dfy`): an event-sourced store with a cursor per stream. Interleavings of different
  sessions are confluent and redelivery is safe, both resting on the ids being injective.
- **Manual clock** (`ManualClock.dfy`): a discrete-event scheduler whose handlers, finite trees of arms and
  clears, change the table while it runs.
- **Macros** (`Template*.dfy`, `Macro*.dfy`): a stack-machine renderer that refines a recursive meaning, and a
  script document with its round trips and edits.
- **Foreground process** (`Process*.dfy`): a bounded breadth-first search over a table of parents and the walk
  along a chain of wrappers.
- **Updater** (`Versions.dfy`, `UpdateSources.dfy`, `Updater.dfy`, `AppUpdater.dfy`), **activity indicators**
  (`ActivityStore.dfy`), **window slots and views** (`WindowSlots.dfy`, `WindowViews.dfy`): version precedence,
  two state machines with invariants over whole runs, and lowest-free allocators.

Where a promise does not hold in all cases, the model keeps the code as it is, a lemma gives the exact
condition and another a concrete input:

- If posting the retirement notice to a document throws, the cleanup in
  `electron/serverUiDocumentEndpoint.ts:271-318` runs before `reconnecting` is assigned, so the variable stays set and the
  window never reconnects (`StuckExactly`, `LiveForeverExactly`, `ThrowingPortStrandsTheWindow`).
- A retiring transport whose `open` resolves late is handed to a document during a reconnect, which the comment
  at `electron/serverUiDocumentEndpoint.ts:200-204` rules out (`PortDuringReconnectExactly`,
  `PortDuringReconnectHappens`).
- A transport that is asked to close before its scheduled `open` is called is opened all the same
  (`OpenedAfterCloseExactly`, `LeftOpenExactly`, `UnboundTooEarlyOpens`), and a document that refused its port is left
  without one (`ReadyDocumentHasPortExactly`, `RefusedPortIsNotOfferedAgain`).
- A lane reported lost before its open resolves is shown as connected afterwards (`LossStaysExactly`,
  `EarlyLossIsForgotten`).
- An event turned away because it names an unknown agent can be accepted when delivered again
  (`RepeatsAreHarmlessExactly`, `UnknownTargetCanCountLater`, `EarlyToolCountsLater`).
- A failed load of the updater library is cached for good, which ends all downloads (`DownloadComesExactly`,
  `OneFailedLoadEndsUpdates`), and a failed download can leave a release link into the wrong source
  (`LinkTurnsWrongExactly`, `FailedDownloadLeavesTheWrongLink`).
- With an amber delay above zero, a working signal hides a deadline (`DeadlineExactly`, `AmberDelayCanMislead`); a
  focused but unclaimed working session can still show unviewed output (`FocusedSignalExactly`,
  `FocusedWorkCanShowUnviewed`).
- Inserting into a document that has text neither at the caret nor at its end never returns (`NeverLandsExactly`,
  `LoneTokenNeverLands`), removing something that is not a token can return a caret that is not on text
  (`RemoveTokenIsGood`, `RemovedTextLeavesCaretOnToken`), and removing a just-inserted token does not always restore the
  text (`RemoveUndoesInsertExactly`, `InsertThenRemoveLosesABreak`).

The classes `RemoteEndpoint.Endpoint`, `WindowConnections.DesktopWindowConnections`, `AppUpdaters.AppUpdater` and
`ActivityStore.TerminalActivityStore` hold the variables of the program; each of their methods refines one step of the
state machine the lemmas are about, and the table lists those that state something further.

## Model

| member | source | states |
|---|---|---|
| `ReplayTerminal.QueueIsApply` | src/recordingReplay.ts:143-168 | under the lossless-terminal assumption, feeding an event without awaiting it (with the extra empty write before a resize) shows the same as awaited playback |
| `ReplayTerminal.PlaybackTerminal.ApplyEvent` | src/recordingReplay.ts:139-154 | an awaited event leaves exactly the state the specification gives, sizes clamped |
| `ReplayTerminal.BufferedTerminal.QueueEvent` | src/recordingReplay.ts:156-168 | whatever the terminal's own write schedule, what has been written plus what is still queued equals applying the event in order |
| `ReplayTerminal.BufferedTerminal.WriteAndWait` | src/recordingReplay.ts:139-141 | awaiting a write leaves the queue empty and everything applied, so a serialise or resize after it sees a drained terminal |
| `ReplayRecording.EventsConcat` | src/recordingReplay.ts:96-120 | reading lines in two pieces gives the same events as reading them at once when the time reached is carried over |
| `ReplayRecording.EventsRise` | src/recordingReplay.ts:96-120 | event times never fall, because negative intervals count as zero |
| `ReplayRecording.ChunkProgress` | src/recordingReplay.ts:257-283 | for a chunk that keeps the reader's contract and is not the last, the offset moves on exactly when lines were delivered |
| `ReplayRecording.NextChunk` | src/recordingReplay.ts:285-293 | asking for the chunk at `nextOffset` continues at exactly the line after the ones read |
| `ReplayIndex.Builder.Push` | src/recordingReplay.ts:237-246 | a state is kept with the size, offset and time of the moment, or skipped when it is too large |
| `ReplayIndex.Builder.Thin` | src/recordingReplay.ts:247-251 | a full list keeps every other checkpoint and doubles both spacings; a shorter one is left alone |
| `ReplayIndex.Builder.TakeOne` | src/recordingReplay.ts:234-254 | the checkpoint block as a whole: drain, serialise, keep or skip, compact, and count the spacing from here |
| `ReplayIndex.Builder.ReadEntry` | src/recordingReplay.ts:220-255 | one line of the loop: offset, blank and malformed lines, time, the queued event and the checkpoint it may trigger |
| `ReplayIndex.BuildReplayIndex` | src/recordingReplay.ts:177-299 | the index is a function of the recording alone, for every write schedule of the terminal and every way the reader cuts the recording up; each error has its exact cause, and no progress is reported only for a reader that stalls |
| `ReplayCheckpoints.TerminalAgrees` | src/recordingReplay.ts:218-255 | at every line the unawaited indexing terminal shows what playing the same events one at a time shows |
| `ReplayCheckpoints.EveryCheckpointRestores` | src/recordingReplay.ts:232-246 | every checkpoint that survives thinning stands for a prefix of the recording: its offset, time and restored screen are the ones after that prefix |
| `ReplayCheckpoints.CheckpointsStayBounded` | src/recordingReplay.ts:170-175 | between events there are fewer than 32 checkpoints, the first is the start of the recording, times never fall and offsets rise strictly |
| `ReplayCheckpoints.CheckpointsStayClose` | src/recordingReplay.ts:234-254 | with no oversized state, adjacent checkpoints stay within the doubled spacing plus the longest span between event ends, although a compaction drops the checkpoint just pushed |
| `ReplayCheckpoints.IndexGap` | src/recordingReplay.ts:234-254 | in closed form: after d compactions the gap is at most 2^(d+1) * (1 MiB + span) |
| `ReplayCursor.AdvanceComposes` | src/recordingReplay.ts:339-358 | advancing to t1 and then to t2 is advancing to t2 |
| `ReplayCursor.AdvanceAppliesTheDue` | src/recordingReplay.ts:347-357 | each due event is applied exactly once and in order, and exactly the events with time at most the target are due |
| `ReplayCursor.AdvanceReplayCursor` | src/recordingReplay.ts:339-386 | the loop applies exactly the due events whatever chunks the reader gives, keeps the cursor consistent, terminates, and fails only for a reader that stalls |
| `ReplayCursor.FindReplayCheckpoint` | src/recordingReplay.ts:301-311 | the checkpoint chosen is not later than the clamped target and its successor is |
| `ReplayCursor.SeekIsReplay` | src/recordingReplay.ts:313-337 | restoring any faithful checkpoint and advancing gives the screen, time and remaining events of replaying from the header |
| `ReplayCursor.SeekFrom` | src/recordingReplay.ts:321-335 | the same from any checkpoint of an index that is not late, with the offset it resumes at |
| `ReplayCursor.RestoreReplayCursor` | src/recordingReplay.ts:313-337 | seeking is exact: screen, cursor time and remaining events are those of replaying every event up to the clamped target from the header, whatever was thinned or skipped |
| `RemoteEndpoint.NextKeepsInv` | electron/serverUiDocumentEndpoint.ts:138-320 | every step keeps: one transport at a time, at most one reconnect and one timer, none once closed, and something still coming for an open endpoint that is not stuck |
| `RemoteEndpointRuns.NextKeepsOrder` | electron/serverUiDocumentEndpoint.ts:233-290 | every transport is asked to close before its successor is opened, and no transport is left behind |
| `RemoteEndpointRuns.EveryRun` | electron/serverUiDocumentEndpoint.ts:107-321 | over every interleaving: at most one reconnect and one timer, neither timer nor port once closed; a lane that is up is read and a ready document has been sent a port, taken or not; opens come after all earlier transports were asked to close; and once closed and settled every transport was asked to close at some time |
| `RemoteEndpointService.ReadyDocumentHasPortExactly` | electron/serverUiDocumentEndpoint.ts:151-242 | over every interleaving: on an open endpoint that is not reconnecting and whose lane is up, a ready document holds a port exactly unless it refused the last one or has gone since |
| `RemoteEndpointService.RefusedPortIsNotOfferedAgain` | electron/serverUiDocumentEndpoint.ts:151-197 | a concrete run that ends with the lane up, a ready document and no port, because the port was refused |
| `RemoteEndpointService.OpenedAfterCloseExactly` | electron/serverUiDocumentEndpoint.ts:138-318 | over every interleaving: the last call on a transport is an `open` after a `close` exactly when, at the last request to close it, its pump had yet to call `open`, and the pump has gone on since; the call of `open` at line 237 looks at nothing that happened in between |
| `RemoteEndpointService.LeftOpenExactly` | electron/serverUiDocumentEndpoint.ts:138-318 | once the endpoint is closed and settled, which of the two calls was the last on each transport: `close` for all but those of that case |
| `RemoteEndpointService.UnboundTooEarlyOpens` | electron/serverUiDocumentEndpoint.ts:233-330 | a concrete run: unbound at once, the endpoint closes its transport and then opens it |
| `RemoteEndpointRuns.ClosedIsFinal` | electron/serverUiDocumentEndpoint.ts:138-148 | nothing reopens a closed endpoint and no document is handed a port again |
| `RemoteEndpointRuns.StuckExactly` | electron/serverUiDocumentEndpoint.ts:263-319 | `reconnecting` gets stuck at exactly one kind of step: recovery with a notice, on an open endpoint with a document port, when posting the notice throws |
| `RemoteEndpointRuns.NeverDeadEnds` | electron/serverUiDocumentEndpoint.ts:233-321 | as long as posting to the document returns, in every reachable state the endpoint is closed, its pump is alive, a reconnect is in flight, a retry is armed or the server refused the window |
| `RemoteEndpointRuns.StuckIsFinal` | electron/serverUiDocumentEndpoint.ts:268-318 | a stuck endpoint never reconnects again, whatever happens |
| `RemoteEndpointRuns.LiveForeverExactly` | electron/serverUiDocumentEndpoint.ts:263-321 | an open endpoint stays live under all further calm steps exactly when it is not stuck |
| `RemoteEndpointRuns.ThrowingPortStrandsTheWindow` | electron/serverUiDocumentEndpoint.ts:271-318 | a concrete run from the start that ends open with nothing left to happen |
| `RemoteEndpointRuns.PortDuringReconnectExactly` | electron/serverUiDocumentEndpoint.ts:198-207 | while reconnecting, a port is handed out in exactly one case: the retiring transport's open resolves while the document waits |
| `RemoteEndpointRuns.PortDuringReconnectHappens` | electron/serverUiDocumentEndpoint.ts:198-242 | a concrete run in which that happens, on a transport already asked to close, against the comment in the source |
| `WindowConnections.NextKeepsRecords` | electron/desktopWindowConnections.ts:96-183 | each step keeps: the primary has no record, none survives disposal, connection ids are the records' own and no lane is in two records |
| `WindowConnections.EveryLaneIsOwned` | electron/desktopWindowConnections.ts:96-183 | over every interleaving each lane ever opened is held by exactly one record, waits to be closed, was closed exactly once or was given up as lost, and only one of these; the primary never has a record |
| `WindowConnections.DisposedHoldsNothing` | electron/desktopWindowConnections.ts:167-174 | after disposal has settled no lane is held: each was closed exactly once or given up as lost |
| `WindowConnections.LateLossIsIgnoredExactly` | electron/desktopWindowConnections.ts:114-183 | a loss reported at any later point of any run changes nothing exactly when the record of its connection is gone or replaced, or offline with its open settled: connection ids are never used again, and a lane that arrives for a record that is gone is closed |
| `WindowConnections.LossStaysExactly` | electron/desktopWindowConnections.ts:124-135 | a loss stays visible over every later run exactly when the lane's open had already resolved; reported earlier, it is overwritten by `connected` |
| `WindowConnections.EarlyLossIsForgotten` | electron/desktopWindowConnections.ts:124-135 | a concrete run from the start: attached, lost while opening, then shown as connected |
| `AgentIds.IdsInjective` | src/agentStatusStore.ts:30-56 | two ids are equal only when all three parts are: percent-encoding UTF-8 loses nothing and leaves no separator inside a part |
| `AgentStatus.AddToolKeepsOrder` | src/agentStatusStore.ts:171-178 | a started tool replaces the one with its id, the others stay, and the list stays sorted without repeats |
| `AgentRuns.PairSeesOnlyItsOwn` | src/agentStatusStore.ts:341-373 | after any run the entries and cursors of a terminal and session are what its own events alone give |
| `AgentRuns.Commute` | src/agentStatusStore.ts:341-373 | events of different terminals or sessions commute, revision included |
| `AgentRuns.InterleavingsAgree` | src/agentStatusStore.ts:341-373 | confluence: any two interleavings that keep each pair's own order end in the same snapshot and revision |
| `AgentStore.EveryRunIsGood` | src/agentStatusStore.ts:215-373 | over every run of events, acknowledgements and clears: each entry filed under its own terminal, session and agent, tools sorted and unique and gone once inactive, a reason to wait and an inferred wait only while waiting, attention unread until acknowledged, a finished root always unread |
| `AgentStore.ApplyIsGood` | src/agentStatusStore.ts:649-720 | the same for one operation |
| `AgentStore.RevisionCountsChanges` | src/agentStatusStore.ts:649-720 | the revision counts exactly the operations that changed the snapshot |
| `AgentStore.RunRises` | src/agentStatusStore.ts:320-336 | without a clear, no stream's cursor falls in sequence or in time |
| `AgentStore.StepRises` | src/agentStatusStore.ts:320-372 | an accepted event moves its own cursor strictly up, to its own sequence and time |
| `AgentStore.AcceptedOnlyOnce` | src/agentStatusStore.ts:320-352 | a copy of an accepted event changes nothing at any later point without a clear |
| `AgentStore.UnknownTargetCanCountLater` | src/agentStatusStore.ts:190-213 | an event turned away for naming an unknown agent counts on redelivery once another provider has introduced the agent |
| `AgentStore.EarlyToolCountsLater` | src/agentStatusStore.ts:190-213 | from the empty store: a tool call of a subagent nobody has announced is turned away, and counts when it comes again after the announcement |
| `AgentStore.RepeatsAreHarmlessExactly` | src/agentStatusStore.ts:190-352 | redelivery is harmless in every continuation exactly when the first delivery was accepted or out of order |
| `AgentAggregate.PresentsOneThing` | src/agentStatusStore.ts:507-544 | what a terminal must present is unique, so selection order does not matter |
| `AgentAggregate.AggregateAgentStatusForTerminal` | src/agentStatusStore.ts:507-544 | the result is the most urgent state among the live roots, since when the latest root entered it, and whether any is unread; nothing when there is no live root |
| `AgentAggregate.SeeingATerminal` | src/agentStatusStore.ts:606-705 | after a terminal is acknowledged it is neither unread nor done: done turns idle and any other state stays with its start |
| `AgentStatusStores.AgentStatusStore.Dispatch` | src/agentStatusStore.ts:649-656 | the snapshot follows the reducer; true exactly when it changed; each listener hears a change once and nothing else |
| `AgentStatusStores.AgentStatusStore.MarkOne` | src/agentStatusStore.ts:658-679 | one entry is acknowledged, or nothing changes, and the answer says which |
| `AgentStatusStores.AgentStatusStore.MarkTerminal` | src/agentStatusStore.ts:681-705 | exactly the terminal's entries that need it are acknowledged, in one published snapshot, and the answer counts them |
| `AgentStatusStores.AgentStatusStore.ClearSnapshot` | src/agentStatusStore.ts:707-720 | everything goes and the revision moves on, unless there was nothing |
| `ManualClock.AdvanceSplits` | electron/testServerClock.ts:53-73 | advancing by a and then b fires the same handlers in the same order at the same times, with the same arms and clears, and ends in the same state as advancing by a+b |
| `ManualClock.RunFiresInOrder` | electron/testServerClock.ts:57-71 | timers fire by due time and then arming order, each at its own due time, between the start and the target |
| `ManualClock.RunReachesTarget` | electron/testServerClock.ts:53-73 | the clock ends at the target, well-formed, with every remaining due time later |
| `ManualClock.RunBalances` | electron/testServerClock.ts:53-73 | pending, fired and cleared timers together are exactly those pending before and those armed on the way, each once |
| `ManualClock.EachTimerOnce` | electron/testServerClock.ts:50-71 | a handle fires at most once; a cleared one never fires; one neither fired nor cleared is still pending |
| `ManualClock.FireLoad` | electron/testServerClock.ts:57-71 | firing a timer always leaves less to run, whatever its handler arms: the loop terminates |
| `ManualClock.Clock.Next` | electron/testServerClock.ts:58-64 | the scan finds the earliest due timer and, among equals, the one armed first |
| `ManualClock.Clock.Handle` | electron/testServerClock.ts:42-52 | a handler's arms and clears, in order, while the clock stands at its due time |
| `ManualClock.Clock.FireDue` | electron/testServerClock.ts:56-72 | the loop does exactly what the specification says |
| `ManualClock.Clock.Advance` | electron/testServerClock.ts:53-73 | a time that is not finite or negative is refused and changes nothing; any other advances as specified |
| `TemplateRenderer.RenderSafeEtaTemplate` | src/macroSettings.ts:399-446 | the loop with its stack of branches equals the step function run over the tokens, errors included |
| `TemplateTrees.LoopIsMeaning` | src/macroSettings.ts:399-446 | on the tags of any tree of text, interpolations and branches with any number of else bodies, the loop gives the recursive meaning: every else body shows when the condition fails, hidden parts add nothing but are still checked |
| `TemplateTrees.NodesAdd` | src/macroSettings.ts:405-437 | the same inside any open branches: exactly the rendering is added and the stack is left as it was |
| `TemplateParse.BalancedIsATree` | src/macroSettings.ts:417-437 | a token sequence is the tags of a tree exactly when every else and close has an open branch and every branch is closed |
| `TemplateParse.TreeIsUnique` | src/macroSettings.ts:417-437 | and of one tree only: parsing the tags of a tree gives the tree back |
| `TemplateParse.RenderedExactly` | src/macroSettings.ts:399-446 | every token sequence: a balanced one renders as its tree means and never fails for its shape; any other is rejected |
| `ProcessTree.DescendantsAreTrue` | electron/processCwd.ts:124-156 | each descendant is listed once, with its true distance in parent steps, nearest first, and never the root |
| `ProcessTree.MissedOnlyBeyondTheLimit` | electron/processCwd.ts:137-154 | a process is missed only when at least as many as the limit were found, and then it is at least as deep as every one listed |
| `ProcessTree.CompleteWithinTheLimit` | electron/processCwd.ts:124-156 | the list is complete when the tree has at most 64 processes |
| `ProcessSearch.GroupByParent` | electron/processCwd.ts:128-133 | children are grouped by parent in table order |
| `ProcessSearch.ResolveSessionDescendants` | electron/processCwd.ts:124-156 | the search with its queue and visited set computes the specified list and terminates on any table, parent cycles included |
| `ProcessChain.DeepestUnambiguousForegroundDescendant` | electron/processCwd.ts:161-184 | an entry is returned exactly when the candidates form one parent chain of two or more, and it is the chain's end; the walk terminates |
| `ProcessChain.OneEnd` | electron/processCwd.ts:161-184 | that end does not depend on how the chain is listed |
| `ProcessSelection.NearestDescendant` | electron/processCwd.ts:186-188 | the first candidate of least depth |
| `ProcessSelection.DescendantsAreRanked` | electron/processCwd.ts:124-156 | in what the search lists, a child is one step below its parent and nearer processes come first |
| `ProcessSelection.SelectForegroundProcessFromTable` | electron/processCwd.ts:68-114 | one foreground candidate wins outright; several give their chain's end, or the nearest; then the group's nearest; then the root's own command; and whether the process group is to be asked |
| `MacroScript.WithTextAroundTokens` | src/macroScript.ts:77-94 | the loop equals the specification of merging and padding |
| `MacroScript.WithTextShapes` | src/macroScript.ts:72-94 | any blocks come out as text, token, text and so on, typing the same; such a script comes out as it is |
| `MacroScript.ScriptsAreWhatTheyType` | src/macroScript.ts:72-108 | two scripts type the same exactly when they are the same up to the ids of text |
| `MacroScript.BlocksToSteps` | src/macroScript.ts:111-121 | one step per token and per non-empty text, ids kept |
| `MacroScript.StepsThroughScript` | src/macroScript.ts:96-121 | steps to script and back type the same characters and tokens in the same order, with no empty or neighbouring text steps left |
| `MacroScript.UnchangedExactlyWhenCanonical` | src/macroScript.ts:96-121 | steps come back unchanged, ids included, exactly when they had no empty or neighbouring text steps |
| `MacroScript.ScriptThroughSteps` | src/macroScript.ts:96-121 | a script comes back from its steps with the same text and tokens |
| `MacroEdits.SlashQueryExactly` | src/macroScript.ts:243-249 | the step menu belongs to exactly the lines that are a slash and letters, with the caret at the end |
| `MacroEdits.NeverLandsExactly` | src/macroScript.ts:139-149 | an insertion calls itself for ever exactly when neither the caret nor the end of the document is on text; in a script it returns after at most one such call |
| `MacroEdits.InsertionsAreTheirCalls` | src/macroScript.ts:139-236 | what an insertion returns is the edit at the first of its calls that lands on text, and it fails to return exactly when none does |
| `MacroEdits.LoneTokenNeverLands` | src/macroScript.ts:139-149 | a concrete document, one token, in which inserting never returns |
| `MacroEdits.InsertTokenIsGood` | src/macroScript.ts:139-186 | inserting a token leaves a script and a caret on its text |
| `MacroEdits.InsertTokenTypes` | src/macroScript.ts:139-153 | the token takes the place of the line break that ends the caret's line, or goes to the end of the text; nothing else typed changes |
| `MacroEdits.ReplaceSlashLineIsGood` | src/macroScript.ts:156-168 | a slash line gives way to a token in a script; the caret ends on text exactly when it started on text |
| `MacroEdits.ReplaceSlashLineTypes` | src/macroScript.ts:156-168 | the line goes together with the line breaks around it |
| `MacroEdits.RemoveTokenIsGood` | src/macroScript.ts:192-206 | removing a token leaves a script and a caret on its text; asked to remove something else it changes nothing, and the caret it returns is on text in exactly the cases stated |
| `MacroEdits.RemovedTextLeavesCaretOnToken` | src/macroScript.ts:192-199 | a concrete script and index for which the caret returned is on a token |
| `MacroEdits.RemoveTokenTypes` | src/macroScript.ts:192-206 | a line break takes the token's place exactly when there is text on both sides |
| `MacroEdits.InsertTextIsGood` | src/macroScript.ts:219-236 | inserting text leaves a script and a valid caret behind the inserted text |
| `MacroEdits.InsertTextTypes` | src/macroScript.ts:219-236 | the text is typed at the caret and nothing else changes |
| `MacroEdits.RemoveUndoesInsertExactly` | src/macroScript.ts:139-206 | removing the token just inserted gives the script back, ids included, exactly when no line break was used up or there was text on both sides of it |
| `MacroEdits.InsertThenRemoveLosesABreak` | src/macroScript.ts:139-206 | a concrete script for which inserting a token and removing it again loses a line break |
| `MacroInputs.SyncInputsWithSteps` | src/macroScript.ts:284-313 | the two loops and their sets compute the specified sync |
| `MacroInputs.SyncCovers` | src/macroScript.ts:284-313 | every mentioned name has an input |
| `MacroInputs.SyncExactly` | src/macroScript.ts:284-313 | an input goes exactly when detection made it, the user never edited it and nothing mentions it; new inputs are for mentioned names without one, one each, and belong to detection |
| `MacroInputs.SyncIsIdempotent` | src/macroScript.ts:284-313 | a second sync with the same script changes nothing |
| `Versions.CompareVersions` | electron/appUpdater.ts:130-155 | the loops compute the specified comparison |
| `Versions.CompareIsPrecedence` | electron/appUpdater.ts:130-155 | the sign is the precedence of item 11 of Semantic Versioning 2.0.0, stated on its own terms |
| `Versions.CompareIsAnOrder` | electron/appUpdater.ts:129-155 | antisymmetric in sign, transitive, zero only for equal versions, unreadable versions lowest |
| `UpdateSources.StableReleaseNotes` | electron/appUpdater.ts:195-218 | the filter, the sort and the cut to 50 |
| `UpdateSources.NotesAreTheNewest` | electron/appUpdater.ts:174-219 | the notes lie in (installed, available], newest first, and what is left out is no newer than anything listed |
| `UpdateSources.SelectedIsTheHighest` | electron/appUpdater.ts:572-598 | Beta takes the highest version it can read, its own on a tie, and fails only when it can read neither; Stable reads only its own source |
| `Updater.NextIsGood` | electron/appUpdater.ts:374-525 | every step keeps the invariant and never forgets a download |
| `Updater.EveryRun` | electron/appUpdater.ts:374-730 | over every order of checks, library events, failures, channel changes and requests: a download is never forgotten and is what a ready status names; a status that announces something has a version and a source; a restart is pending exactly when requested and not called off, on a build that can install |
| `Updater.DownloadComesExactly` | electron/appUpdater.ts:458-649 | some run from here ends with a download exactly when the build can install, its library has not failed to load and, unless the library is there or being asked for, it is no development build |
| `Updater.OneFailedLoadEndsUpdates` | electron/appUpdater.ts:458-661 | a concrete run: a build that could have downloaded checks once while the library cannot be loaded, and no continuation ever downloads anything |
| `Updater.LinkIsRightOnOneSource` | electron/appUpdater.ts:380-420 | while every check reads one source, the release link points into the source that offered the shown version |
| `Updater.LinkTurnsWrongExactly` | electron/appUpdater.ts:394-525 | a right link turns wrong at exactly two kinds of step: a download completes while the running check reads the other source, or the program falls back to a waiting version from another source than the newer one |
| `Updater.FailedDownloadLeavesTheWrongLink` | electron/appUpdater.ts:394-519 | a concrete run on Beta whose status names the waiting beta and links to the stable source |
| `AppUpdaters.AppUpdater.CheckInPlace` | electron/appUpdater.ts:600-619 | the source is the channel's own, the selected one, or beta when neither can be read |
| `AppUpdaters.AppUpdater.CheckForNotice` | electron/appUpdater.ts:621-638 | a build that cannot install offers only a newer version, and a probe error leaves everything as it was |
| `AppUpdaters.AppUpdater.RequestRestartToUpdate` | electron/appUpdater.ts:707-711 | granted exactly when a download waits on a build that can install |
| `AppUpdaters.AppUpdater.Quit` | electron/appUpdater.ts:718-730 | the last quit installs and relaunches exactly when a restart was requested and the installer starts, once; in every other case, the installer failing included, the program quits |
| `ActivityStore.DeadlineExactly` | src/terminalActivityStore.ts:175-230 | a deadline lies ahead and the state changes at it; the state stays until then exactly unless a working signal of an unclaimed session hides output that has yet to turn amber |
| `ActivityStore.NoAmberDelayIsSound` | src/terminalActivityStore.ts:175-230 | with the default amber delay of zero, every history with times in order leaves sound deadlines |
| `ActivityStore.AmberDelayCanMislead` | src/terminalActivityStore.ts:198-206 | with any amber delay, a working signal and some output leave a deadline that is not sound |
| `ActivityStore.ViewedStaysQuiet` | src/terminalActivityStore.ts:62-90 | after viewing, a session asks for nothing at any time and whatever the user does, until output or a signal |
| `ActivityStore.OutputIsIgnoredWhenClaimed` | src/terminalActivityStore.ts:92-103 | in any history of a session a signal has claimed and no later signal gives up, raw output is as if it never came |
| `ActivityStore.OutputIsIgnoredAfterSwitch` | src/terminalActivityStore.ts:80-111 | for the length of the suppression after a tab switch, raw output is as if it never came, whatever else happens, unless a first attachment sets an earlier limit |
| `ActivityStore.FocusedSignalExactly` | src/terminalActivityStore.ts:147-164 | a signal to a focused session never leaves attention, and leaves it unviewed in exactly one case, against the comment in the source |
| `ActivityStore.FocusedWorkCanShowUnviewed` | src/terminalActivityStore.ts:147-164 | a concrete history from a new session that ends in that case |
| `WindowSlots.CompositionSlots.Claim` | electron/main.ts:1461-1476 | a window gives up what it held and takes the lowest free slot, and the two maps stay inverse |
| `WindowSlots.CompositionSlots.Release` | electron/main.ts:1478-1486 | a window's slot is free again, an identity without windows is not listed, and the two maps stay inverse |
| `WindowSlots.ClaimIsLowest` | electron/main.ts:1461-1476 | no two windows ever hold the same slot of an identity, and a slot is at most the number of the identity's other windows |
| `WindowSlots.ReopenedInOrder` | electron/main.ts:1448-1476 | windows that come back when nobody holds the identity get 0, 1, 2 and so on in order |
| `WindowViews.ChooseWindowView` | electron/windowWorkspaceView.ts:31-48 | the torn-off view, the default if free, or the lowest free own view, numbered at most the windows then on the server; new on the server unless torn off |
| `WindowViews.Mount` | electron/main.ts:6157-6184 | the view chosen at mount, with the torn-off view only on the first server |
| `WindowViews.MountKeepsDistinctExactly` | electron/main.ts:6157-6184 | a mount keeps views distinct exactly unless it puts a torn-off view where another window presents that id |
| `WindowViews.EveryRunKeepsViewsDistinct` | electron/main.ts:6157-6184 | over every run of openings, mounts, switches and closings no two workspace windows on one server present the same view, while torn-off views have names of their own |

## Left out

- Lossless checkpoints are an assumption (`ReplayTerminal.Lossless`): the real index serialises at most 200 rows of
  scrollback and no parser state, so history beyond that, or an escape sequence cut by a checkpoint, is outside it.
- The chunk reader is a contract (whole lines, `nextOffset` past what was returned); the server-core code behind it, bytes,
  text decoding, abort signals and the disposal of terminals are not modelled.
- Regular expressions, JSON and `ps` output: the models start from parsed headers, events, tags, versions and process rows.
  A prerelease is taken as its parsed identifiers, and a number too large for a double is not rounded.
- Times are real numbers. Times and sequence numbers that are not finite or not safe integers are kept as cases where the
  program tests for them; fractional sequence numbers count as unsafe.
- `ManualClock` handlers arm and clear timers but read no state of their own and do not call `advance` again, and the
  delays they pass are finite.
- `RemoteEndpoint` numbers transports and assumes `reconnect` gives a new one each time; retry delays, diagnostics, the
  navigation lifecycle's own resources and the local endpoint in the same file are not modelled. What a transport does when
  it is opened after being closed is up to the transport, and not part of this model.
- `WindowConnections`: publishing, sanitising and the composition record; lanes are numbers, and closing one is the fact that it
  was asked to close.
- Agent ids are strings of Unicode scalar values; a lone surrogate, for which `encodeURIComponent` throws, does not occur.
- AgentStatus.AddToolKeepsOrder: orders tools by code units where the program uses `localeCompare`, so locale collation is
  not captured; the same holds for the order of entries.
- The selectors of entries by project, provider and state.
- `AgentStatusStores.AgentStatusStore` listeners are numbers that record what they hear; a listener that calls back into the
  store is not modelled. Unsubscribing is left out.
- AgentStatusStores.AgentStatusStore.constructor: takes a snapshot whose entries are filed under their own ids, as every
  snapshot the store itself makes is.
- `renderMacroTemplate`'s second placeholder pass and the extraction of names: values and conditional text can create
  placeholders there. Field values are the object's own properties.
- The ids made up for text blocks: a made-up id is one constant, so their uniqueness is not captured; ids of inputs come from a
  counter.
- `updateTokenStep`, the step menu and the editor's highlighting.
- `resolveDeepestProcessPid`, the working-directory lookups and the `ps` fallbacks of `electron/processCwd.ts`.
- Loading of release notes into the status, check intervals and times, `canInstallInPlace`, feed configuration and the texts of
  `electron/appUpdater.ts`; its asynchronous checks are steps that may happen in any order the program allows.
- `ActivityStore` deadlines are stated for one configuration; a timer already set when the configuration changes is not modelled.
- Window creation, IPC, menus and ports of `electron/main.ts`; a window's server changes only at a mount.
- Keyboard shortcuts, quit planning, badges, tab dragging, the settings coordinator and the process locks.
