# Verified models of the SatQuery agent and the Earth View client

This project models the parts of the repository whose behaviour is hardest to
see from one function at a time, and proves what they keep over whole runs.

**The agent turn protocol** (`satquery/agent.py`, with the journal cursors of
`api.py` and the provider adapter of `agent_openai.py`). A turn is a generator
that loops over model rounds and tool calls and saves its transcript through a
compare-and-swap store. `TurnProtocol` is its step system: a world of sessions,
any number of turns (of any number of services) and a log of saves, on which an
adversary may begin, advance, cancel, close or crash any turn between any two
suspension points, time out or fail a model, fail a tool, and make the store
raise. `Transcript` reads a transcript as a grammar, `TurnSafety` is the
inductive invariant, and `TurnRuns`, `SaveLog` and `TurnReports` hold the main
results over `Exec`, the run from an empty world. `TurnHistory` carries each
turn's events, spending and text through every run, and `TurnStore` what of its
transcript is stored, whoever else has saved. `TurnOpens` says what an opening
stores, `TurnCauses` which cause leads to which ending, `TurnTools` what each
call leaves in the store and reports, and `LinkLedger` which investigations a
session is linked to. `TurnEnds` says how a turn can stop, `TurnCuts` what a
round that is cut short leaves behind, `TurnTold` that all text delivered is
saved, and `TurnReplies` what a whole streamed reply leaves in the store;
`DeltaReading` reads that reply off the response lines, and `ModelView` reads
what the model is given back into the transcript. `TurnExamples` is two short
runs. `AgentTurn.StreamTurn` is
the generator itself, with its local variables as fields and the shared store as
an object; every one of its methods is proved to be the protocol's step.

**The cinematic route flight** (`cameraVerbs.js`). `RouteProfile` is the
closed-form speed profile, `RouteFlight` one frame of the controller on values,
`RouteSafety` and `RouteRuns` what every frame and every run keep,
`RouteFrames` what each frame does, quantity by quantity, `RouteTerrain` what is
asked of the ground, and `CameraVerbs.RouteMotion` the state object updated in
place.

**The share-link codecs** (`sharelink.js`): `ShareText`, `SharePanels`,
`ShareStyles`, the loops themselves in `ShareLink`, and the text of a link in
`ShareWire`.

**Smaller exact mechanisms**: `SplitFlap`, `SonarSampler` and `CyberSonar`,
`PanelStack`, `LoadingFeedback`, `ScopeMask`, `InvestigationIds`.

Code that works by changing state is a class or a method with loops, proved
equal to a function on values; the laws are lemmas about those functions.
`Numbers` and `Options` hold shared arithmetic and optional values.

## Findings

Four places where the code does less than its documentation says, or than a
reader of it would expect. Each has a lemma with a failing family or input, and
one that says, for all inputs, exactly when the code does what is expected.

- `engine/docs/architecture/AGENT_SYSTEM.md:125-130` promises that text emitted
  before a failure, a time-out or a cancellation is saved, which keeps the
  transcript aligned with what the client was told. Those endings keep it
  (`TurnCuts.CutRoundIsSavedAlone`). A reply with text that repeats a tool-call
  ID, which the document does not mention, loses its text: the turn ends before
  the buffer is saved (`engine/satquery-ai/satquery/agent.py:1029-1034`).
  Failing input: `TurnExamples.TextIsDropped`, a run of eleven actions; its family:
  `TurnReports.DuplicateCallsDropText`. Exactly:
  `TurnCuts.RoundEndsUnsavedExactlyWhen` on the guard before the step,
  `TurnReports.DeliveredTextIsSaved` on the ending.
- The same alignment fails by saving twice: a turn closed while suspended at a
  terminal event that has saved the buffer still holds it, and the close handler
  saves the text again
  (`engine/satquery-ai/satquery/agent.py:1066-1071`, `1237-1240`). Failing
  input: `TurnExamples.TextIsRepeated`; its family:
  `TurnReports.ClosedAtTerminalRepeatsText`. Exactly:
  `TurnCuts.ClosedTextIsSavedExactlyWhen`. A close at the duplicate-ID event, on
  the other hand, saves the text which that event dropped.
- The provider adapter concatenates tool-call fragments per index, and its test
  (`engine/tests/test_agent_openai.py:22-107`) expects the reply that the
  concatenations make up. A stream that opens an index and sends nothing for it
  fails, though its concatenations equal those of a stream that never mentions
  the index (`engine/satquery-ai/satquery/agent_openai.py:161-177`). Failing
  input: `DeltaAssembly.BlankIndexChangesReply`. Exactly:
  `DeltaAssembly.AssemblyIgnoresFragmentation`.
- A split-flap plan calls its `durationMs` the cascade's duration. That the board
  reads the new label a second later
  (`APP/earth-view/src/splitFlap.test.mjs:185-192`), or when the settle timer
  fires, always holds (`SplitFlap.SettledReadsTarget`). At the duration itself
  it need not: duration and delays are rounded apart, so a flip of under 2 ms,
  which the options accept and the repository does not use, can lose its last
  half turn (`APP/earth-view/src/splitFlap.js:188-194`). Failing input:
  `SplitFlap.TinyFlipsLandLate`. Exactly: `SplitFlap.LandsExactlyWhen` for what
  the board reads, `SplitFlap.ColumnsTurnExactlyWhen` for its columns.

Three smaller exact conditions. The sampler's label agrees with the simple one on
intensities between the floor and 1 and nowhere else
(`SonarSampler.LabelsAgreeExactlyWhen`), which covers all it samples. A `null`
colour that the sonar paints over comes back as white
(`CyberSonar.NullComesBackWhite`), and that is the only colour not restored
(`CyberSonar.DeactivationRestores`). Without a sampler, which the primitive
accepts and the repository always passes when painting, a paint whose factor has not moved is skipped even when the page's
floor has (`APP/earth-view/src/cyberSonar.js:114-120`), and may leave a stale
colour: an input is `CyberSonar.PageFloorIsNotRechecked`, the exact condition
`CyberSonar.PaintIsStaleExactlyWhen`.

## Model

| member | source | states |
|---|---|---|
| Transcript.WellFormedTurnsAreBlocks | engine/satquery-ai/satquery/agent.py:934-948 | In a well-formed transcript no other turn's message lies between two messages of one turn. |
| Transcript.ToolMessagesAnswerOpenCalls | engine/satquery-ai/satquery/agent.py:1168-1180 | Every tool message is the first answer to a call of an assistant message of its own turn, with only answers in between. |
| Transcript.OpenCallsAreUnanswered | engine/satquery-ai/satquery/agent.py:1052-1064 | The calls a transcript leaves open are exactly its unanswered calls, and all belong to the newest turn. |
| Transcript.CallsAreAnsweredOrOpen | engine/satquery-ai/satquery/agent.py:1052-1064 | Every tool call ever saved is either answered or still open. |
| Transcript.PendingAreNeverAnswered | engine/satquery-ai/satquery/agent.py:1472-1478 | For any transcript at all, the `pending` map holds exactly the calls (turn and ID) that some message made and no later one answered. |
| Transcript.PendingIsOpen | engine/satquery-ai/satquery/agent.py:1472-1478 | On a well-formed transcript the pending calls are exactly the open calls of the newest turn. |
| Transcript.RecoveryClosesTranscript | engine/satquery-ai/satquery/agent.py:1469-1496 | Appending the recovery messages keeps the transcript well formed, adds one answer per open call and leaves nothing open. |
| Transcript.RecoverInterruptedToolCalls | engine/satquery-ai/satquery/agent.py:1469-1496 | The loop over messages and calls, and the sorted comprehension, compute that recovery. |
| Transcript.RecoveryAnswersLeftOpen | engine/satquery-ai/satquery/agent.py:1480-1496 | Recovery holds one message per pending call in sorted order, each a tool message of the interrupted turn with that call's ID and tool, saying it was interrupted. |
| CallOrder.SortedIsOrderedEnumeration | engine/satquery-ai/satquery/agent.py:1495 | Sorting the pending keys lists each exactly once, in nondecreasing (turn, call) order. |
| CallOrder.StringLeqIsLexicographic | engine/satquery-ai/satquery/agent.py:1495 | The string order is that of code points: a prefix comes first, and otherwise the first difference decides. |
| CallOrder.Sort | engine/satquery-ai/satquery/agent.py:1495 | Repeatedly taking the least key yields that enumeration. |
| ModelContext.BuildModelContext | engine/satquery-ai/satquery/agent.py:1283-1304 | The reversed loop with its early exit and the filtering comprehension build the context defined by the retained turns. |
| ModelContext.ContextIsTurnSuffix | engine/satquery-ai/satquery/agent.py:1283-1304 | The context of a well-formed transcript is its suffix from the start of a turn, spans at most `max_context_turns` turns and has open exactly what the transcript has open. |
| ModelContext.RetainedSize | engine/satquery-ai/satquery/agent.py:1290-1297 | At most the limit of turns is retained, and fewer only when that is every turn. |
| ModelContext.PayloadKeepsPairing | engine/satquery-ai/satquery/agent_openai.py:193-237 | Translating a well-formed transcript never raises, and the provider's own pairing rule reads the payload as open in exactly the same calls. |
| ModelContext.ContextPayloadIsPaired | engine/satquery-ai/satquery/agent_openai.py:102-107 | The payload of a context whose calls are all answered is accepted with nothing unanswered. |
| ModelView.PayloadsReadBack | engine/satquery-ai/satquery/agent_openai.py:193-237 | Any transcript whose tool messages carry call IDs is translated, message by message in order, and read back gives each role, text, call (ID, tool, arguments), answered ID, tool name and image; without such an ID it is refused. |
| ModelView.ModelSeesTranscript | engine/satquery-ai/satquery/agent.py:962-968 | Whenever a turn of any run streams, what its model is given reads back, field by field, as the transcript from the start of a turn to its end, with the current images on the turn's own question and nowhere else. |
| SessionStore.SaveFencesOrAdvances | engine/satquery-ai/satquery/agent.py:512-527 | A save succeeds exactly at the stored revision, then stores every field of the session it is given at one revision more, touches no other session and makes the same save conflict; otherwise it changes nothing. |
| SessionStore.InMemoryAgentSessionStore.Save | engine/satquery-ai/satquery/agent.py:512-527 | The dictionary store's save is that compare-and-swap on its contents. |
| SessionStore.SQLiteAgentSessionStore.Save | engine/satquery-ai/satquery/agent.py:619-656 | The conditional row update and its row count are the same compare-and-swap. |
| TurnSafety.OpenGood | engine/satquery-ai/satquery/agent.py:931-948 | Opening a turn (recovery, user message, save) keeps the invariant on every stored session and on the turn. |
| TurnSafety.SaveReplyGood | engine/satquery-ai/satquery/agent.py:1052-1071 | Saving a reply with calls leaves exactly those calls open, owned by the turn. |
| TurnSafety.SaveResultGood | engine/satquery-ai/satquery/agent.py:1157-1189 | Saving a result closes its call and no other; a store conflict leaves the store alone. |
| TurnSafety.SaveFailureGood | engine/satquery-ai/satquery/agent.py:1190-1229 | The error path's save closes the failed call and no other. |
| TurnSafety.PersistGood | engine/satquery-ai/satquery/agent.py:911-929 | Saving partial text keeps the transcript well formed with nothing opened. |
| TurnSafety.ShutGood | engine/satquery-ai/satquery/agent.py:1237-1249 | So does the handler of a close, whether or not its save succeeds. |
| TurnSafety.StepGood | engine/satquery-ai/satquery/agent.py:954-1249 | Every step of a turn, on any input, keeps the store well formed, the turn's hold on it and the agreement between the two. |
| TurnOpens.LoadReadsStore | engine/satquery-ai/satquery/agent.py:885-895 | A turn starts from exactly the stored session, or not at all when there is none. |
| TurnOpens.BegunAsAsked | engine/satquery-ai/satquery/agent.py:858-895 | A turn begins uncancelled and, on every continuation, keeps the ID, session, question and authorization it was begun with. |
| TurnOpens.OpeningIsStored | engine/satquery-ai/satquery/agent.py:931-952 | Opening a turn of any run on a current copy stores the old transcript, an interrupted answer to each call left open, then the question itself; links stay and `turn.started` is reported. |
| TurnRuns.RunKeeps | engine/satquery-ai/satquery/agent.py:858-1249 | Every run of any turns, with cancels, closes, crashes and new sessions in between, keeps the invariant. |
| TurnRuns.StoredTranscriptsAreWellFormed | engine/satquery-ai/satquery/agent.py:931-948 | In every reachable store each transcript has contiguous turns, paired answers, unanswered calls only in the newest turn, and its recovery answers all of them. |
| TurnRuns.ModelAlwaysSeesClosedContext | engine/satquery-ai/satquery/agent.py:962-968 | Whenever a turn of any run streams, its context is a closed suffix starting a turn, within the limit, ending in the turn itself, and the payload is paired. |
| TurnRuns.RunExtends | engine/satquery-ai/satquery/agent.py:512-527 | Over any run a session's revision never falls, its messages only extend and its linked investigations only grow. |
| LinkLedger.LinksAreCarried | engine/satquery-ai/satquery/agent.py:1157-1180 | In every run a stored session is linked to exactly the investigations that the results of its saving turns had named by their saves, those of presentation commands excluded. |
| TurnRuns.SaveFencesOthers | engine/satquery-ai/satquery/agent.py:517-521 | A save leaves every other live turn of that session with a stale revision. |
| TurnRuns.FencedForever | engine/satquery-ai/satquery/agent.py:1210-1224 | Once its session has moved on, a turn never writes again on any continuation: not by its next save, its error path or its close handler. |
| SaveLog.RunLogs | engine/satquery-ai/satquery/agent.py:522-527 | Over every run revisions count the saves, saved transcripts form a prefix chain, each turn's saves to a session are consecutive, and overtaken writers are fenced. |
| TurnEvents.StepEvents | engine/satquery-ai/satquery/agent.py:896-909 | Every step keeps the event history replayable: numbered, opened by `turn.started`, settled call by call and ended once. |
| TurnReports.TurnsReportInOrder | engine/satquery-ai/satquery/agent.py:896-909 | In every run a turn's events are numbered 1, 2, 3, start with `turn.started`, have a terminal event only last, and settle each started call at the next event that is not progress or a command; one standing at or past its terminal event has settled every call. |
| TurnTools.NextCallStarts | engine/satquery-ai/satquery/agent.py:1072-1080 | Between tools a turn reports the next call started, or, cancelled, ends as cancelled; after the last call it goes to the next round. Nothing is saved. |
| TurnTools.StartedCallRunsOrIsRefused | engine/satquery-ai/satquery/agent.py:1081-1086 | A started call runs if and only if it is not an execution or the turn is authorized; otherwise the refusal is stored as its answer and reported as `tool.failed`. |
| TurnTools.ProgressIsReported | engine/satquery-ai/satquery/agent.py:1132-1142 | Progress of an execution is reported as it came and the tool goes on; no other tool reports any. |
| TurnTools.ReturnedCallIsAnswered | engine/satquery-ai/satquery/agent.py:1155-1189 | A returned result, whatever other turns do before its save, is stored as one tool message with that content, turn, call ID and tool; its IDs are linked unless the tool is a presentation command, and the call completes, a command being announced first. |
| TurnTools.RaisedCallIsAnswered | engine/satquery-ai/satquery/agent.py:1190-1229 | A raised error is stored in the same way, and the call fails. |
| TurnTools.UnsavedCallIsAnswered | engine/satquery-ai/satquery/agent.py:1175-1229 | A result whose save is refused is answered by the store's error instead, as failed. |
| TurnTools.CancelledTurnStops | engine/satquery-ai/satquery/agent.py:1072-1075 | From its cancellation on, on any continuation, a turn starts no tool and delivers no text. |
| TurnTools.CancelStops | engine/satquery-ai/satquery/agent.py:1237-1249 | A cancel changes nothing but the flag, a close of a suspended turn also leads to the close handler, and from either on the turn starts no tool and delivers no text. |
| TurnCauses.StreamIsHeard | engine/satquery-ai/satquery/agent.py:980-992 | Text that is not empty is reported and buffered, calls are collected in order, empty text does nothing, and the stream goes on. |
| TurnCauses.StreamEndsAsCaused | engine/satquery-ai/satquery/agent.py:976-1051 | A streaming turn with a current copy comes to each ending exactly under its cause (time-out, model failure, cancellation, repeated ID, call budget, empty reply), reported last, and without a cause goes on. |
| TurnCauses.RoundEndsAsCaused | engine/satquery-ai/satquery/agent.py:954-960 | At the head of a round the turn ends at the round limit or as cancelled, exactly when it should, and otherwise asks the model with empty buffers. |
| TurnCauses.ReplyEndsAsCaused | engine/satquery-ai/satquery/agent.py:1065-1072 | A saved reply completes the turn exactly when it asks for no tool, and otherwise turns to its first call. |
| TurnCauses.CancelledStreamRetries | engine/satquery-ai/satquery/agent.py:976-979 | Of all partial saves only that of a stream cancelled while it runs is inside the handler that saves again. |
| TurnCauses.RefusedSaveEndsAsFailed | engine/satquery-ai/satquery/agent.py:1014-1024 | When that save fails, the next, if it succeeds, ends the turn as a failed model; any other failed partial save ends the generator. |
| TurnEnds.ExhaustedTurnHasEnded | engine/satquery-ai/satquery/agent.py:896-909 | A turn that is never closed or crashed and out of which no store exception escapes can only stop by finishing, with exactly one terminal event, last, and every started call settled. |
| TurnReports.TurnsStayWithinBudget | engine/satquery-ai/satquery/agent.py:1035-1076 | In every run the started tools, the rounds and the messages a turn appends stay within its limits, from its opening and, with the answers the opening had to recover, from the transcript it found. |
| TurnStore.InterruptedCallsAreFew | engine/satquery-ai/satquery/agent.py:1469-1496 | In every store of every run the calls left open, and so the answers the next opening appends, are no more than one turn may make. |
| TurnStore.TranscriptsAreStored | engine/satquery-ai/satquery/agent.py:916-929 | In every run the stored session continues what any turn holds of it, with only other turns' messages and answers to the turn's own calls after it, whoever has saved since; and every later store still begins with it. |
| TurnBudgets.StepBudget | engine/satquery-ai/satquery/agent.py:954-1076 | Each step keeps the count: one message per round and one per settled call. |
| TurnReports.DeliveredTextIsSaved | engine/satquery-ai/satquery/agent.py:911-929 | Once a turn has reached its terminal event, finished or not, the round's delivered text is in exactly one assistant message of its transcript, and of the stored one whoever has saved since, if and only if its ending is not one that drops the reply. |
| TurnCuts.CutRoundIsSavedAlone | engine/satquery-ai/satquery/agent.py:911-929 | Ended by a time-out, a failed model, the call budget or a cancellation in mid-text, the round has added exactly one message: its delivered text, with no tool calls. The stored transcript begins with the result, now and in every later store. |
| TurnCuts.RoundEndsUnsavedExactlyWhen | engine/satquery-ai/satquery/agent.py:1025-1051 | A streaming turn that has delivered text ends without having saved it if and only if the stream ends, uncancelled, with a tool-call ID used twice. |
| TurnTold.WholeTextIsConserved | engine/satquery-ai/satquery/agent.py:954-1071 | At every moment of every going or finished turn of every run, all text delivered over all rounds is what the turn's assistant messages say, in its own and in the stored transcript, plus the buffer while a reply is being composed or after an ending that dropped it. |
| TurnReports.DuplicateCallsDropText | engine/satquery-ai/satquery/agent.py:1029-1034 | The failing family: a reply with text and repeated call IDs ends with nothing saved, neither in the turn's transcript nor in the store. |
| TurnExamples.TextIsDropped | engine/satquery-ai/satquery/agent.py:1029-1034 | The failing input: the model says "a" and asks for one call twice; the turn ends and the store has the question alone. |
| TurnReports.ClosedTurnKeepsText | engine/satquery-ai/satquery/agent.py:1237-1249 | A turn closed before its terminal event, on a session no one else has saved, leaves its delivered text in the store exactly once. |
| TurnReports.ClosedAtTerminalRepeatsText | engine/satquery-ai/satquery/agent.py:1066-1071 | Closed at a terminal event that saved the buffer, with text still in it, it saves the text a second time; that is what the store then holds. |
| TurnExamples.TextIsRepeated | engine/satquery-ai/satquery/agent.py:1066-1071 | The failing input: the model says "a" and is done, the turn is closed at its terminal event, and the store has "a" twice. |
| TurnCuts.ClosedTextIsSavedExactlyWhen | engine/satquery-ai/satquery/agent.py:1237-1249 | Closed wherever it is suspended, on a session no one else has saved, a turn leaves its delivered text exactly once if and only if it did not stand at a terminal event that saved a buffer it still holds; there the text is saved twice. Closed in mid-stream, or at an event that dropped the reply, it adds just the text, without tool calls. The store then holds what the turn does. |
| TurnText.StepText | engine/satquery-ai/satquery/agent.py:954-1071 | Every step keeps the delivered text either in the buffer with nothing saved, or saved once. |
| TurnReports.UnauthorizedTurnsNeverExecute | engine/satquery-ai/satquery/agent.py:1081-1086 | In every run a turn without authorization never runs, reports progress of or completes an execution. |
| AgentTurn.StreamTurn.Save | engine/satquery-ai/satquery/agent.py:916-929 | One save of the generator is the protocol's attempt: the shared store and the local session move together or not at all. |
| AgentTurn.StreamTurn.OpenTurn | engine/satquery-ai/satquery/agent.py:931-952 | The generator's opening is the protocol's, store included. |
| AgentTurn.StreamTurn.EnterRound | engine/satquery-ai/satquery/agent.py:954-960 | Entering a round checks the limit, then cancellation, then resets the buffers. |
| AgentTurn.StreamTurn.ReceiveModel | engine/satquery-ai/satquery/agent.py:975-1024 | Each model event or failure is handled as the protocol's streaming step. |
| AgentTurn.StreamTurn.LeaveStream | engine/satquery-ai/satquery/agent.py:1025-1051 | After the stream come cancellation, duplicate IDs, the call budget and the empty reply, in that order. |
| AgentTurn.StreamTurn.PersistPartialAssistant | engine/satquery-ai/satquery/agent.py:911-929 | Partial text is saved once, then the terminal event is reported; a store failure takes the error path. |
| AgentTurn.StreamTurn.SaveAssistant | engine/satquery-ai/satquery/agent.py:1052-1071 | The reply is saved, then the turn completes or turns to its calls. |
| AgentTurn.StreamTurn.SaveToolResult | engine/satquery-ai/satquery/agent.py:1168-1189 | The result is saved and announced; a store failure becomes a tool failure. |
| AgentTurn.StreamTurn.SaveToolFailure | engine/satquery-ai/satquery/agent.py:1190-1229 | The failure is saved and announced, or the generator raises. |
| AgentTurn.StreamTurn.CloseGenerator | engine/satquery-ai/satquery/agent.py:1237-1249 | A close cancels, persists what is buffered and swallows the store's errors. |
| AgentTurn.StreamTurn.Step | engine/satquery-ai/satquery/agent.py:858-1249 | Any step of the generator object leaves it and the shared store as the protocol's step says. |
| InvestigationIds.Collect | engine/satquery-ai/satquery/agent.py:1451-1466 | The recursive visitor finds exactly the non-empty `investigation_id` strings at any depth. |
| InvestigationIds.MentionsAreInside | engine/satquery-ai/satquery/agent.py:1451-1466 | An ID is found exactly when it stands, not empty, under `investigation_id` in some object anywhere inside the result. |
| Journal.ReadOn | engine/satquery-ai/satquery/agent.py:805-819 | Reading on from the last record received gives exactly the rest of the journal. |
| Journal.ResumeIsSeamless | engine/satquery-ai/satquery/agent.py:1269-1279 | Reads from a cursor and then from the advanced cursor of a longer journal join into one read, with no gap or repeat. |
| Journal.ForwardProgress | engine/satquery-ai/satquery/agent.py:1251-1281 | However the journal grows between polls and however the consumer drains the queue, the progress yielded is exactly the journal after what was there before. |
| Journal.InvestigationEvents | engine/satquery-ai/satquery/agent.py:778-820 | A page is refused for a bad cursor, a bad limit or an unlinked investigation, in that order and each with its own error, and otherwise holds the next records with a correct `has_more`. |
| Journal.FollowPages | engine/satquery-ai/satquery/agent.py:811-819 | Following `next_sequence` collects a prefix of the journal, stops only at its end, and does stop on a finite one. |
| Journal.SendBatch | engine/satquery-ai/satquery/api.py:2082-2109 | One poll's records are sent up to and including the last finish record among them, or all of them when there is none. |
| Journal.SentIsJournal | engine/satquery-ai/satquery/api.py:2082-2109 | Whatever its polls saw, what a connection sends is a prefix of the journal after its cursor: all in sight until a finish record is sent, and nothing after that record. |
| Journal.StreamEvents | engine/satquery-ai/satquery/api.py:2082-2109 | One event-stream connection sends the journal after its cursor and closes at the last finish record of the first poll that shows one; no finish record past that point was in sight. |
| Journal.ReconnectsNeverGapOrRepeat | engine/satquery-ai/satquery/api.py:2054-2080 | Any number of requests, each with its `Last-Event-ID` (section 9.2 of the WHATWG HTML Living Standard), answered by the cursor rule and cut off anywhere in what the stream sends, together receive the journal from the start cursor in order, without a gap or a repeat. |
| Journal.ResumeIsAccepted | engine/satquery-ai/satquery/api.py:2067-2080 | Once any event has arrived, no later request is refused: the rule answers with the cursor of the last event received. |
| Journal.AnswerResumes | engine/satquery-ai/satquery/api.py:2054-2080 | Before anything has arrived a request is refused exactly when its start is past the journal; otherwise it is served from its start. |
| Journal.CursorIsLater | engine/satquery-ai/satquery/api.py:2054-2080 | For every pair of query and header the cursor is the later of the two, malformed exactly when one is negative or the header is no integer, and otherwise refused exactly when one lies past the journal. |
| DeltaAssembly.ReadLines | engine/satquery-ai/satquery/agent_openai.py:141-172 | The nested loops accumulate, per index, the concatenations of all fragments before `[DONE]`, and fail only when some fragment is malformed. |
| DeltaAssembly.EmitCalls | engine/satquery-ai/satquery/agent_openai.py:174-188 | Calls come out in index order, and all of them exactly when every slot has an ID, a name and an object for arguments. |
| DeltaAssembly.StreamReply | engine/satquery-ai/satquery/agent_openai.py:141-190 | A whole uncancelled response yields the text and calls its fragments amount to, ends in `completed`, or fails when they do, having yielded the text before the first fault. |
| DeltaReading.ReplyIsWhatLinesSay | engine/satquery-ai/satquery/agent_openai.py:141-188 | Read off the lines before the end marker: the reply fails exactly when a line is not JSON, a delta has no index, or an index lacks an ID, a name or arguments that parse; otherwise it is the text of all choices and one call per index, ascending, each field joined from that index's deltas in order. |
| TurnReplies.ReplyIsStored | engine/satquery-ai/satquery/agent_openai.py:141-190 | A round that hears a whole response, with any other turns at work in between, stores one assistant message with the text and calls its fragments amount to, however they were cut; or, if the reply failed, the text before the failure and no calls. |
| DeltaAssembly.SlotsAppend | engine/satquery-ai/satquery/agent_openai.py:161-170 | Assembling two stretches of fragments is assembling each and gluing index by index. |
| DeltaAssembly.FailsExactlyWhen | engine/satquery-ai/satquery/agent_openai.py:174-180 | Well-formed fragments fail exactly when some index got nothing at all, or got something that is not a call. |
| DeltaAssembly.AssemblyIgnoresFragmentation | engine/satquery-ai/satquery/agent_openai.py:152-190 | Two streams with the same text and the same per-index concatenations give the same reply if and only if a call is broken in both, or both or neither have a blank index. |
| DeltaAssembly.BlankIndexChangesReply | engine/satquery-ai/satquery/agent_openai.py:161-177 | The failing family by example: opening an index and sending nothing. |
| RouteProfile.DistanceIntegratesSpeed | APP/earth-view/src/cameraVerbs.js:195-210 | The closed form is the integral of the speed curve: bounds on the speed between two instants bound the distance covered. |
| RouteProfile.ProfileEnds | APP/earth-view/src/cameraVerbs.js:195-210 | The profile starts at 0 and ends at 1 exactly. |
| RouteProfile.ProfileIsUnit | APP/earth-view/src/cameraVerbs.js:195-210 | Every input, out of range included, maps into [0,1]. |
| RouteProfile.ProfileIsSymmetric | APP/earth-view/src/cameraVerbs.js:182-210 | d(t) + d(1-t) = 1. |
| RouteProfile.JoinsAgree | APP/earth-view/src/cameraVerbs.js:201-209 | The three pieces agree in distance and speed at both ramp joins. |
| RouteProfile.ProfileIsLipschitz | APP/earth-view/src/cameraVerbs.js:195-210 | Distance never decreases and grows at most 1/(1-r) per unit of time. |
| RouteProfile.SpeedIsUnit | APP/earth-view/src/cameraVerbs.js:195-210 | Speed is a fraction of cruise speed, zero at both ends. |
| RouteProfile.RampFractionIsRamp | APP/earth-view/src/cameraVerbs.js:177-180 | The ramp fraction lies in [0, 0.35], is positive exactly for positive durations and never takes more than 2.4 s. |
| RouteFlight.PlanFor | APP/earth-view/src/cameraVerbs.js:600-640 | The plan has a usable ramp; its duration is the route at the mean speed, except below half a second. |
| RouteFrames.PlanIsAsAsked | APP/earth-view/src/cameraVerbs.js:600-640 | Every field of a plan from its inputs: mean-speed duration, ramp of 2.4 s or 35 %, launch altitude, and a cold seed 260 m under the camera within 5 km over the path. |
| RouteFrames.CreatedHasLooked | APP/earth-view/src/cameraVerbs.js:612-662 | A created flight stands at the start with wings level, having looked at the corridor exactly once. |
| CameraVerbs.ArcPoint | APP/earth-view/src/cameraVerbs.js:326-340 | The binary search ends on the last segment starting at or before the clamped arc length, at a fraction in [0,1] that lands on it to within a micrometre. |
| CameraVerbs.CorridorCells | APP/earth-view/src/cameraVerbs.js:389-419 | The cells are the distinct ones sampled every 55 m in travel order, never more than the cap, and all of the stretch unless the cap was reached. |
| CameraVerbs.OccurrencesAreDistinct | APP/earth-view/src/cameraVerbs.js:400-417 | Keeping first occurrences keeps every cell once. |
| CameraVerbs.CorridorIsShort | APP/earth-view/src/cameraVerbs.js:481-506 | The floor acquisition looks at no more than eight corridor cells, all distinct and at least one, reads one floor for each, and takes none but those to the mesh probe. |
| RouteTerrain.CorridorIsExact | APP/earth-view/src/cameraVerbs.js:481-519 | The corridor is the first distinct cells met every 55 m over 4 km ahead, eight at most, in travel order, each with its own cached floor; the probe is sent exactly the cold ones, in order. |
| RouteTerrain.FrameIsAsRead | APP/earth-view/src/cameraVerbs.js:848-872 | A frame reads the floor where it takes the camera and half a lookahead on (6.5 s of cruise, between 120 m and 600 m), both or none, and looks at the corridor from where the flight stood. |
| RouteSafety.AcquireResolves | APP/earth-view/src/cameraVerbs.js:481-538 | The corridor resolves exactly when there is a floor to adopt and no cell is unaccounted for; the adopted floor is one of the readings and at least all of them. |
| RouteSafety.ProbeIsSpent | APP/earth-view/src/cameraVerbs.js:508-526 | Consulting the mesh probe spends it, and a spent probe's answer never changes. |
| RouteFrames.AcquireIsExact | APP/earth-view/src/cameraVerbs.js:481-538 | One look at the corridor, exactly: the probe is asked once, for the cold cells, and covers them when it sampled as many; the highest reading in hand is adopted, whole or only upwards; it resolves when no cold cell is uncovered. |
| RouteSafety.HeightIsSafe | APP/earth-view/src/cameraVerbs.js:906-928 | The clamp stack gives a height 90 m over the sample and over the held floor, at the launch altitude while no floor is known, and at most 10 m/s below the last. |
| RouteSafety.HeightIsBounded | APP/earth-view/src/cameraVerbs.js:906-928 | No clamp lifts the eye above the launch altitude or 286 m over the highest floor. |
| RouteFrames.HeightIsLargest | APP/earth-view/src/cameraVerbs.js:906-928 | The height is the largest of cruise (260 m and the offset over the held floor), 90 m over the sample, the launch hold while no floor is known, and the descent cap, and equals one of them. |
| RouteFrames.NothingClamps | APP/earth-view/src/cameraVerbs.js:258-263 | With the floor known, the sample at most 150 m over it and no descent to cap, the eye is exactly 260 m plus the offset over the held floor, hence between 240 m and 286 m. |
| RouteSafety.ApproachClosesGap | APP/earth-view/src/cameraVerbs.js:165-170 | One smoothing step closes exactly the share k of the gap and never overshoots; a missing value adopts the other. |
| RouteSafety.FloorHoldLags | APP/earth-view/src/cameraVerbs.js:280-284 | The held floor stays between the old one and the sample, keeps its value on a missing sample and adopts the first. |
| RouteSafety.ColdSeedIsDefended | APP/earth-view/src/cameraVerbs.js:448-453 | The cold seed never goes below the path nor above the cap, and cruising over a raised seed starts at or below the camera, exactly at it when the cap allows. |
| RouteSafety.BankFollowsTurn | APP/earth-view/src/cameraVerbs.js:218-222 | The bank target is on the side of the turn, monotone in it, mirrored left to right, capped, and 0 under reduced motion. |
| RouteSafety.BreathFadesIntoLift | APP/earth-view/src/cameraVerbs.js:233-250 | The breath fades linearly as the lift comes in: only lift at full bank, only breath with wings level, nothing under reduced motion. |
| RouteSafety.RollIsCapped | APP/earth-view/src/cameraVerbs.js:738-754 | The cascaded roll smoothers stay within 10 degrees, and the applied roll is 0 at zero speed. |
| RouteSafety.OffsetIsBounded | APP/earth-view/src/cameraVerbs.js:233-250 | Altitude shaping asks for between 20 m down and 26 m up. |
| RouteSafety.FloorIsBounded | APP/earth-view/src/cameraVerbs.js:873-891 | After a departed frame there is a held floor, no higher than what was held, seeded or sampled. |
| RouteSafety.TravelIsExact | APP/earth-view/src/cameraVerbs.js:697-703 | A step moves forward by at most cruise speed times the step and lands exactly on the total, at rest. |
| RouteFrames.StepIsClamped | APP/earth-view/src/cameraVerbs.js:675 | A frame's time is what elapsed, between nothing and a quarter of a second. |
| RouteFrames.SampleIsHighest | APP/earth-view/src/cameraVerbs.js:850-872 | The sampled floor is the larger of the readings there are, and missing exactly when there is none. |
| RouteRuns.AdvanceIsSafe | APP/earth-view/src/cameraVerbs.js:674-947 | Every frame keeps the flight sound; an arming frame changes nothing but what is known of the ground; any other frame's pose is safe. |
| RouteRuns.EveryFrameIsSafe | APP/earth-view/src/cameraVerbs.js:674-947 | After any run of a created flight, the next pose is 90 m over its sample, at least the launch altitude while no floor is known, at most 10 m/s below the last, rolled at most 10 degrees, and level, at rest and at the end when final. |
| RouteFrames.EveryFrameIsExact | APP/earth-view/src/cameraVerbs.js:674-947 | The next frame after any run, exactly: it waits if and only if the ground can answer, has not, and 1.2 s are not over; otherwise place, speed, each smoother, floor, offset and height are as the profile, the shares and the largest demand say, and unclamped it cruises between 240 m and 286 m over its floor. |
| RouteRuns.StretchIsGentle | APP/earth-view/src/cameraVerbs.js:921-928 | Over any stretch the eye sinks at most 10 m per second and the camera advances by between nothing and cruise speed times the time. |
| RouteRuns.NeverAboveCeiling | APP/earth-view/src/cameraVerbs.js:873-928 | On every run the eye stays at or below the launch altitude or 286 m over the largest floor read, whichever is higher: corridors count where a frame arms, the probe where it is consulted, samples in flight, the cold seed if a frame adopted it. |
| RouteRuns.ProbedAtMostOnce | APP/earth-view/src/cameraVerbs.js:508-526 | Over every run the mesh probe is consulted at most once, creation included. |
| RouteRuns.FlightLands | APP/earth-view/src/cameraVerbs.js:684-703 | Once the steps add up to the duration plus 1.45 s the flight is over, exactly at the end of the route. |
| RouteRuns.FlightLandsWithin | APP/earth-view/src/cameraVerbs.js:1084-1087 | With the render loop's 1 ms floor that bounds the number of ticks. |
| CameraVerbs.RouteMotion.constructor | APP/earth-view/src/cameraVerbs.js:590-663 | A created motion is the model's created flight after its own first look at the corridor. |
| CameraVerbs.RouteMotion.AcquireCorridorFloor | APP/earth-view/src/cameraVerbs.js:481-538 | The in-place acquisition, which walks the corridor, asks the cache and consults the probe itself, updates the ground fields and no others as the model does. |
| CameraVerbs.RouteMotion.AdvanceRouteFlight | APP/earth-view/src/cameraVerbs.js:674-947 | One in-place frame, its terrain lookups included, is the model's frame; the looked-up segment brackets the distance travelled. |
| CameraVerbs.FlyRoute | APP/earth-view/src/cameraVerbs.js:1187-1203 | The render loop applies exactly the poses of the run, stops only at the end, and does end once its ticks take the duration and the longest arm. |
| ShareText.SplitJoin | APP/earth-view/src/sharelink.js:444-445 | Splitting undoes joining for parts without the delimiter. |
| ShareText.PrintParses | APP/earth-view/src/sharelink.js:652-671 | A printed integer matches the decoder's pattern and reads back as itself. |
| SharePanels.RoundTrip | APP/earth-view/src/sharelink.js:426-447 | A link decodes to the canonical form of the panel state it was made from, or to nothing when that is empty. |
| SharePanels.ReencodingIsFixed | APP/earth-view/src/sharelink.js:426-447 | Re-encoding a decoded panel state writes the same link. |
| SharePanels.AnyLinkIsLawful | APP/earth-view/src/sharelink.js:680-706 | Any string at all decodes only to registered panels, each once, with a collapsed state, and pinned only where pinnable. |
| SharePanels.RegistryIsOk | APP/earth-view/src/sharelink.js:35-46 | The registry's tokens and panels are pairwise distinct and its tokens hold no delimiter. |
| ShareWire.PanelIsWritten | APP/earth-view/src/sharelink.js:436-443 | A registered panel is written as `token.c.flag` and, for the two that can be pinned, `token.p.flag`; without a collapsed state it is not written. |
| ShareWire.AssignmentIsRead | APP/earth-view/src/sharelink.js:685-700 | One assignment of any text sets exactly one flag of one registered panel, or, in any other form, does nothing. |
| ShareWire.LayoutIsUi | APP/earth-view/src/sharelink.js:426-447 | Only the `ui` parameter changes, and it is there exactly when a registered panel has a state to tell. |
| ShareLink.EncodePanelStateParam | APP/earth-view/src/sharelink.js:426-447 | The encoder's loop writes that link into the parameters, or deletes it. |
| ShareLink.DecodePanelStateParams | APP/earth-view/src/sharelink.js:680-706 | The decoder's loop over assignments fills the table the model decodes to. |
| ShareStyles.RoundTrip | APP/earth-view/src/sharelink.js:640-677 | A link decodes to its parameters, clamped and rounded to hundredths. |
| ShareStyles.QuantizedIsClose | APP/earth-view/src/sharelink.js:650-653 | Each decoded value is in range and within 0.005 of the clamped original, and exactly the registered finite parameters are present. |
| ShareStyles.ReencodingIsFixed | APP/earth-view/src/sharelink.js:640-677 | Re-encoding decoded parameters writes the same link. |
| ShareStyles.AnyLinkIsLawful | APP/earth-view/src/sharelink.js:659-677 | Any string decodes only to registered parameters in range, and encoding those again decodes to the same. |
| ShareStyles.RegistriesAreOk | APP/earth-view/src/sharelink.js:56-84 | Every preset's tokens and keys are pairwise distinct and free of delimiters. |
| ShareWire.PresetIs | APP/earth-view/src/sharelink.js:52-84 | Each preset lists exactly its parameters, with their letters and ranges. |
| ShareWire.ParameterIsWritten | APP/earth-view/src/sharelink.js:647-652 | A parameter is written as its token and the nearest hundredths of its clamped value, a half going up. |
| ShareWire.ParameterIsRead | APP/earth-view/src/sharelink.js:666-675 | One assignment of any text sets exactly one registered parameter to its hundredths, held in range, or does nothing. |
| ShareWire.ParametersAreSp | APP/earth-view/src/sharelink.js:640-656 | Only the `sp` parameter changes, and it is there exactly when a parameter of the preset has a value. |
| ShareLink.EncodeStyleParamState | APP/earth-view/src/sharelink.js:640-656 | The encoder's loop writes that link into the parameters, or deletes it. |
| ShareLink.DecodeStyleParamState | APP/earth-view/src/sharelink.js:659-677 | The decoder's loop fills the table the model decodes to. |
| SplitFlap.PlanSplitFlap | APP/earth-view/src/splitFlap.js:137-198 | The two passes compute the plan: first and last changed column, stagger, cells and duration. |
| SplitFlap.PlanShape | APP/earth-view/src/splitFlap.js:147-165 | A plan is empty exactly when the texts are equal; otherwise it has one column per index of the longer text. |
| SplitFlap.CascadeIsPlanned | APP/earth-view/src/splitFlap.js:147-198 | A plan field by field from the two texts: each column's characters, change, vacancy and delay, the count of changed columns, the stagger (as asked when the sweep then fits the budget, else the largest that fits) and the rounded duration. |
| SplitFlap.TimingIsAsAsked | APP/earth-view/src/splitFlap.js:138-140 | Each timing is the caller's when that is a positive number, and else 190, 26 and 620 ms. |
| SplitFlap.ColumnShows | APP/earth-view/src/splitFlap.js:208-247 | At every instant a column shows its new character from half its flip on and its old one before, a blank where there is none. |
| SplitFlap.StartsWhereItWas | APP/earth-view/src/splitFlap.js:208-247 | At time 0 a cascade shows the text it starts from, padded with blanks. |
| SplitFlap.TurnsSweepAndStay | APP/earth-view/src/splitFlap.js:168-186 | Changed columns turn left to right, and one that has turned stays turned. |
| SplitFlap.LandsExactlyWhen | APP/earth-view/src/splitFlap.js:188-194 | From the planned duration on the board reads the target if and only if no column has to look different, or the rounded duration exceeds the rounded delay of the last one that does. |
| SplitFlap.ColumnsTurnExactlyWhen | APP/earth-view/src/splitFlap.js:188-194 | By the planned duration every changed column has turned if and only if the last delay, with a character's time added, rounds to more than it does without. |
| SplitFlap.SettledReadsTarget | APP/earth-view/src/splitFlap.js:524-533 | However short the flips, the board reads the target by the time the settle timer is due. |
| SplitFlap.LandsOnTarget | APP/earth-view/src/splitFlap.js:188-194 | With at least 2 ms per character the board reads the target from the planned duration on. |
| SplitFlap.TinyFlipsLandLate | APP/earth-view/src/splitFlap.js:188-194 | A 0.4 ms flip plans 0 ms and still shows the old glyph then. |
| SplitFlap.CascadeFitsBudget | APP/earth-view/src/splitFlap.js:167-170 | No cascade outlasts the rounded budget; an integer budget of at least one character is never exceeded. |
| SplitFlap.VisibleGlyphs | APP/earth-view/src/splitFlap.js:234-247 | The loop builds one character per column. |
| SplitFlap.ChipLabel.SetText | APP/earth-view/src/splitFlap.js:447-533 | Writing the settled text again changes nothing; a started cascade begins at exactly what was on screen, whatever was interrupted and whatever the options. |
| SplitFlap.ChipLabel.Settle | APP/earth-view/src/splitFlap.js:421-433 | Settling leaves the text; the board already read it, padded, whatever the timing. |
| CyberSonar.RunRemembers | APP/earth-view/src/cyberSonar.js:81-156 | On every interleaving of owner writes, paints and deactivations, either the owner's colour shows or the sonar's over a faithful copy of it, at the floor of the last paint that was not skipped. |
| CyberSonar.DeactivationRestores | APP/earth-view/src/cyberSonar.js:100-108 | Deactivation leaves the last owner-written colour, `undefined` included; only a `null` painted over becomes white. |
| CyberSonar.NullComesBackWhite | APP/earth-view/src/cyberSonar.js:100-108 | The failing input: a `null` colour, painted over once, is handed back as white. |
| CyberSonar.ApplyNeverCompounds | APP/earth-view/src/cyberSonar.js:109-156 | On every interleaving, with a sampler or without, what a paint shows is the owner's channels and alpha, tinted and dimmed once, at exactly the factor asked for, or, when the paint is skipped, one within 0.002 of it, and at one floor: the sampler's, else the page's, else, when skipped, the one last used. |
| CyberSonar.ComposedShows | APP/earth-view/src/cyberSonar.js:138-150 | A paint keeps an opaque model's alpha and multiplies its tinted channels by the factor; anything else shows the tinted channels and the owner's alpha times the factor. Outlines and backgrounds are not tinted. |
| CyberSonar.PaintIsStaleExactlyWhen | APP/earth-view/src/cyberSonar.js:114-120 | The colour on screen is not the one the floor in force gives if and only if there is no sampler, the paint is skipped, and the page's floor has moved so that the tint of a tinted, visible property changes. |
| CyberSonar.FloorMattersExactlyWhen | APP/earth-view/src/cyberSonar.js:131-150 | Two floors give different composites if and only if they give different coverages and the property is tinted and not dimmed to black. |
| CyberSonar.PageFloorIsNotRechecked | APP/earth-view/src/cyberSonar.js:114-120 | The failing input: white painted at 0.9 over a page floor of 0.5 stays as it is when the floor falls to 0.2. |
| CyberSonar.ComposedIsDisplayable | APP/earth-view/src/cyberSonar.js:138-150 | A composite of a displayable colour is displayable, never more opaque than its owner made it, and keeps an opaque model's alpha. |
| CyberSonar.BaseAlphaIsTheOwners | APP/earth-view/src/cyberSonar.js:66-78 | The opacity read before a restyle is the owner's, never the composited one. |
| CyberSonar.Contact.ApplyCyberSonarPrimitive | APP/earth-view/src/cyberSonar.js:81-156 | The in-place primitive is the model's paint or deactivation. |
| SonarSampler.SamplerRefinesIntensity | APP/earth-view/src/cyberSonar.js:159-207 | The per-paint sampler equals the simple per-contact intensity for every point, viewport, clock and setting in range. |
| SonarSampler.DeltasAgree | APP/earth-view/src/cyberSonar.js:185-187 | One wrapped difference equals the twice-wrapped one, and lies in [0,360). |
| SonarSampler.TintsAgree | APP/earth-view/src/cyberSonar.js:196-205 | The sampler's tint and neutral level equal the simple ones for every colour and factor. |
| SonarSampler.SectorFades | APP/earth-view/src/cyberSonar.js:442-449 | A contact is fully lit up to ten degrees (42 % of a narrow sector) before the sector's edge, falls linearly to the floor there and stays at it beyond. |
| SonarSampler.LabelsAgreeExactlyWhen | APP/earth-view/src/cyberSonar.js:453-463 | The two label formulas agree if and only if the intensity lies between the floor and 1. |
| SonarSampler.ContactLabelsAgree | APP/earth-view/src/cyberSonar.js:193-195 | So they agree on every intensity the sampler can give. |
| SonarSampler.AngleIsHeading | APP/earth-view/src/cyberSonar.js:388-399 | Any clock, negative ones included, is a whole number of sweeps plus the heading, which lies in [0,360). |
| PanelStack.AllocationConserves | APP/earth-view/src/panelStackLayout.js:12-44 | The heights add up to the smaller of what is wanted and what there is, none exceeds its natural height, and each keeps its floor whenever the floors fit. |
| PanelStack.ShortageIsShared | APP/earth-view/src/panelStackLayout.js:27-43 | When space is short, any two panels keep the same share of their floors or, the floors fitting, get the same share of what they miss over them; heights that are not positive numbers ask for nothing. |
| PanelStack.SomethingIsUnmet | APP/earth-view/src/panelStackLayout.js:40 | The exit for nothing unmet is unreachable. |
| PanelStack.ResolvePanelStackCorridor | APP/earth-view/src/panelStackLayout.js:120-158 | The corridor stays between its obstacles and is centred, aligned or, when neither leaves the minimum, exactly as high as the minimum and the obstacles allow, grown upwards before downwards. |
| LoadingFeedback.BatchEndsWithWorst | APP/earth-view/src/loadingFeedback.js:291-374 | A batch ends, field by field, with the worst of what any participant's event or record said in it, whatever the order, names the layers whose events failed, dwells 5 s or 2.2 s, and is never shown if clean and under 160 ms. |
| LoadingFeedback.BatchSoFar | APP/earth-view/src/loadingFeedback.js:291-340 | A running batch, field by field, from its samples: start, reveal time, visibility, participants, worst outcome so far, operation and failed layers. |
| LoadingFeedback.QuickBatchIsNeverShown | APP/earth-view/src/loadingFeedback.js:315-318 | No sample before the reveal delay shows a running batch. |
| LoadingFeedback.FailureIsShown | APP/earth-view/src/loadingFeedback.js:350-374 | A batch in which anything failed is shown, as failed, for five seconds unless a new one starts. |
| LoadingFeedback.TerminalDwells | APP/earth-view/src/loadingFeedback.js:372-373 | A finished batch does not change until its dwell is over and is forgotten at the first sample after it. |
| ScopeMask.AlphaIsAntitone | APP/earth-view/src/scopeMask.js:130-143 | The opacity never rises with height and stays in [0.94, 1]. |
| ScopeMask.AlphaIs | APP/earth-view/src/scopeMask.js:130-143 | The opacity is 0.94 from 10,000 km up and for an unknown height, 1 up to 7,000 km, and a smoothstep between. |
| ScopeMask.ThirteenValues | APP/earth-view/src/scopeMask.js:151-161 | Quantised, it is one of the 13 grid values of that band. |
| ScopeMask.OneWayRunRepaintsFew | APP/earth-view/src/scopeMask.js:191-200 | A climb or descent repaints at most 12 times, however many samples it has. |
| ScopeMask.Mask.UpdateForHeight | APP/earth-view/src/scopeMask.js:191-200 | A sample repaints exactly when the grid value moves, and then shows the new one. |
| ScopeMask.Mask.FollowHeights | APP/earth-view/src/scopeMask.js:191-200 | A run of samples repaints as often as the gate counts. |
| ScopeMask.Mask.SetOverride | APP/earth-view/src/scopeMask.js:242-261 | An override is floored to the supported band and painted at once. |
| ScopeMask.Mask.OnPixelRatioChange | APP/earth-view/src/scopeMask.js:308-318 | A pixel-ratio change and a terminus step together paint the canvas once, with the newest opacity. |

## Left out

- The checks on a request before its turn begins: blank text, attachments, the choice of model.
- HTTP, routing, SQLite pragmas, digests, pydantic validation and logging; a stored session that fails its digest is not modelled.
- Timestamps, model IDs, attachments and the bytes of images; message and error texts are shortened to codes.
- Asyncio locks: one turn per session per service is not needed for any proof, and turns of different services interleave freely.
- Freshness of turn IDs is the guard of `Begin` in the step system, standing for `uuid4`.
- `_stream_model_events` and its deadline appear as the model's timeout input.
- Arguments of tools and the `earth.command` checks on them: a rejected argument is a tool that raises.
- JSON parsing in the provider adapter is the parameter `parse`, and a line that is not JSON is `Garbage`.
- The execution journal's own source is not part of this model; it is assumed append-only with increasing sequences.
- JSON objects in `InvestigationIds` are field lists with distinct names.
- Floating-point rounding: all JavaScript and Python floats are reals, and `None` stands for values that are not finite.
- `exp`, `sin` and `atan2` are inputs with their range facts; distance and heading of a sonar contact are given with the point.
- Heading and quaternion geometry, warm batches and their timer, `coldFrames` reporting and HUD fields of the route flight.
- Orbit, pan, tilt and once-only camera motions.
- The order of IDs in the loading state, and its labels and retry records.
- The DOM, widths, reduced-motion queries and timers of the split-flap (its one timer is `Settle`), and turn ratios other than one half.
- Sonar colours with a non-finite alpha, visuals whose setter does not copy, and an owner writing exactly the last applied colour.
- Canvas geometry, feathering and the camera sampling throttle of the scope mask.
- The remaining parameters of a share link (camera, toggles, layers, timestamp) and restore authority.
- Bottom boundary and auto-collapse helpers of the panel stack.
- PanelStack.Measure: a panel height is a finite number or not a number; the source would pass an infinite height through.
