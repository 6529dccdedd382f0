# Verified model of leartech-go-common

This project models the parts of leartech-go-common that carry state or arithmetic worth proving:

- **The agent loop and its driver** (`pkg/agentloop/loop.go`, `runner.go`). `LoopMachine` is the
  event-to-action state machine on values; `AgentLoop.Loop` is the mutable object that refines it.
  `Drive` is the FIFO queue that turns actions into events, `AgentRunner.Runner` the object that runs
  it, and `Session` a whole run over many lines with a checkpoint at every turn boundary. `DriveTrace`
  says what driving comes to as a run of the machine, `OperatorAnswers` what the operator's numbers do to
  the ceiling, `Segments` what one input appends whatever conversation it follows, `Coverage` what a
  whole session writes and `SessionEnds` how it stops and what it reports.
  The gateway and the tools are an arbitrary `World` of functions, the command layer and the checkpoint
  writes are functions of which attempt it is; the operator is the finite list of grants still to be
  given, so an empty list is a runner with nobody to ask.
- **The stream that feeds it** (`pkg/aigateway/stream.go`). `SseLines` says what payload a line carries;
  `Stream` reads the lines into chunks; `StreamDiscipline` says exactly when what the runner hears ends once and last;
  `StreamContent` says what it then carries; `LateCut` says exactly when a stream that breaks after its
  finish leaves a conversation malformed.
- **Checkpoints** (`checkpoint.go`): the hashed form, the chain and what its last hash pins
  (`Checkpoints`), when a restored loop is the loop it was taken from (`Resume`), and that a session
  taken up again from its last file goes on as if it had not stopped (`Restart`).
- **Compaction** (`compact.go`): `Eligibility` and `Compaction` on values, with what is true of them in
  `CompactionFacts` (shape, verdict), `CompactionBodies` (what goes and what stands there instead, in
  counts and texts), `ProtectedTurns`, `GreedyCompaction` (how few results go),
  `CompactionSize` (growth) and `Recompaction`; `Compactor` as it runs over a copied buffer.
- **The approval diff** (`diff.go`): `Lines`, `Lcs`, `Diff`, `DiffText`, `UnifiedDiff`, and which changed
  lines its text holds (`Visibility`).
- **Sticky comments** (`pkg/forge/sticky.go` with the paginated list of the GitHub driver),
  **migrations** (`pkg/mongo/migration/migration.go`: `Migration` one run, `Batches` many runs as
  their attempts, `Retries` and `BatchedRuns` many runs against one) and **the script that waits
  for a command** (`wait.go`: `ShellQuote`, `WaitLoop`).

A Go string is a sequence of bytes; a `char` stands for one byte here, so `|s|` is `len(s)`. Go's `int`
is modelled as unbounded. JSON decoding, JSON validity, SHA-256, the database and the network are
parameters. The hash is any function; collision-freedom is asked only of the texts two chains
actually hash.

Where the code and its comments differ, the model follows the code. Properties that fail, each with
a concrete input and the exact condition under which they hold:

- A well-formed conversation after every input. `HeardDisciplinedIff`: which streams are heard as
  ending exactly once. `InputEndsWellFormedIff`, `LateCutIff`, `BrokenStreamOrphansIff`: for every gateway
  that says nothing after a frame that ends the turn, however its streams break off, the conversation
  is malformed exactly when the last stream finished with whole calls that fit under the ceiling and
  then broke. `CheckpointsCoverTheRun`: over a whole session, exactly when no input so far was cut like
  that; one that was is never repaired (`OrphanIsPermanent`). Input: `CutAfterFinishOrphansTheCall`.
- Calls within the ceiling. `CeilingIsTheSum` says where the ceiling stands after any run;
  `CeilingHoldsIff`: over any run, exactly when every accepted yes covers what
  it lets through. Input: `AYesCanOverrunTheCeiling`.
- A hash that pins the conversation. `LastHashPinsTheChain`: of any two chains, turns, hashes and hashed
  forms. `SameKeyIff`, `CleanSideIff`, `LastHashPinsTheMessagesIff`: the messages up to call arguments,
  exactly where the edited side holds no separator. Inputs: `ArgumentsAreNotSealed`,
  `SeparatorsAreNotEscaped`, and for every conversation of two or more messages
  `EveryConversationHasATwin`.
- Protected turns left alone. `ProtectedTouchedIff`. Input: `RepeatedIdReachesProtectedTurn`.
- A conversation that only shrinks. `CompactionGrowsIff`. Input: `CompactionCanGrow`.
- Compacting again changes nothing. `RecompactingIsStableIff`. Input: `CompactingAgainCanChange`.
- As few results elided as possible. `GreedyIsMinimalIff`. Input: `HeaviestFirstTakesTooMuch`.
- Every changed line visible in the prompt. `EveryChangeShownIff`: exactly when the trimmed script has no
  changed line past its first 120 lines; always for a change of at most fifteen lines
  (`SmallChangesAreShown`). Input: `HiddenPastTheCut`.
- Every change presented as a change. `InvisibleChangeIff`: a change is presented as nothing added and
  nothing removed exactly when it is a final newline. Input: `AddedNewlineIsInvisible`.
- Comments of others left alone. `ForeignKeptIff`: exactly when none quotes the marker of a key used.
- Batches that add up to one run. `BatchesDoNoLess`: they never do less. `BatchesRecordTheSameIff`,
  `BatchesCarryOutTheSameIff`: they do the same exactly when no retry at the first failing migration gets
  it recorded, or carries it out. Input: `ARetryIsRecorded`.
- Each migration carried out once. `AcceptedOnce`: over batches, whenever every record is accepted.
  `SteadyBatchesCarryOutOnceIff`: when outcomes never change, exactly when no refused record is met twice.
  `UnreadableRecordsRerunIff`: in one run, whatever part of the records was read. Input:
  `ARecordedMigrationRunsAgain`.

## Model

| member | source | states |
|---|---|---|
| AgentLoop.Loop.constructor | pkg/agentloop/loop.go:237-243 | a new loop is the machine's initial state: idle, the system message only when there is one |
| AgentLoop.Loop.Restored | pkg/agentloop/checkpoint.go:128-130 | a restored loop is a new one holding the given history |
| AgentLoop.Loop.Step | pkg/agentloop/loop.go:258-312 | one event moves the object and emits actions exactly as the value machine does |
| AgentLoop.Loop.TurnEnded | pkg/agentloop/loop.go:315-363 | the end of a turn refines the machine's: hand back, ask, or dispatch |
| AgentLoop.Loop.BudgetAnswered | pkg/agentloop/loop.go:370-406 | the operator's reply refines the machine's: ignored, declined, or dispatched under a ceiling raised by the number given, else by the starting ceiling, else twofold |
| AgentLoop.Loop.RunPending | pkg/agentloop/loop.go:417-429 | one RunTool for each pending call, in order, after recording the assistant turn |
| AgentLoop.Loop.ToolReturned | pkg/agentloop/loop.go:432-447 | results are collected and sent only once there is one for every pending call |
| AgentLoop.Loop.Checkpoint | pkg/agentloop/checkpoint.go:75-90 | refused in every state but idle, naming the state; otherwise the turn, the previous hash and all messages, sealed |
| AgentLoop.Loop.CheckpointChainedFrom | pkg/agentloop/checkpoint.go:144-149 | continues the restored file's hash, or starts a chain |
| AgentLoop.RestoreCheckpoint | pkg/agentloop/checkpoint.go:115-131 | undecodable files refused, then other versions, then empty conversations; otherwise a fresh loop with the conversation |
| LoopMachine.StepReachable | pkg/agentloop/loop.go:258-447 | asking or running always has calls pending; idle or awaiting never has half-collected answers |
| Budget.CeilingIsTheSum | pkg/agentloop/loop.go:395-405 | after any events, the ceiling of a loop started at a positive one is that, plus for every accepted yes its number, or the starting ceiling when it gives none |
| Budget.CeilingWithoutStart | pkg/agentloop/loop.go:395-405 | started without a positive ceiling, a yes with a number adds it and a plain yes doubles what there is |
| Budget.SpendIsBounded | pkg/agentloop/loop.go:345-362 | for any event sequence: calls dispatched since the input equal used and stay within the start, what all yeses granted, and what those since the input let through beyond their grants; turns sent are at most one more |
| Budget.CeilingHoldsIff | pkg/agentloop/loop.go:400-405 | over any run of a fresh loop: used stays within maxTools after every prefix exactly when every accepted yes covers the calls it lets through |
| Budget.AYesCanOverrunTheCeiling | pkg/agentloop/loop.go:400-405 | six events after which a fresh loop has used more than its raised ceiling |
| Budget.YesResumesTheTurn | pkg/agentloop/loop.go:345-405 | asking and then a sufficient yes is the same outcome as having had the raised ceiling all along |
| Budget.CallsRunInOrder | pkg/agentloop/loop.go:283-288 | calls within the ceiling are dispatched all at once, in the order the model asked |
| Budget.TurnEndSaysWhy | pkg/agentloop/loop.go:315-343 | a turn with nothing to run warns exactly when cut, and notes silence exactly when no text was shown since the input |
| Drive.DriveStepDescends | pkg/agentloop/runner.go:271-368 | every step of the queue lowers a lexicographic rank, so driving ends for every gateway and every finite list of grants |
| DriveTrace.EveryActionIsAnswered | pkg/agentloop/runner.go:255-370 | driving is a run of the machine over the events queued at the start and then what came of each action, in the order emitted; every turn is sent, every call run, every error reported once, in order, and every question takes the operator's next number, a yes when positive |
| DriveTrace.FailuresAreComplaints | pkg/agentloop/runner.go:275-303 | what an input fails at is every error heard and every question declined, in order |
| OperatorAnswers.AnswersRaiseTheCeiling | pkg/agentloop/runner.go:304-318 | with replies that end once, an input takes the operator's answers from the front and leaves the ceiling raised by every positive one of them |
| DriveSpending.UnattendedSpend | pkg/agentloop/runner.go:304-318 | with nobody to ask, an input runs at most maxTools tools and sends at most one turn more than it ran tools, disciplined streams or not |
| DriveConversation.InputEndsAtRest | pkg/agentloop/runner.go:255-370 | with streams that end once: back to idle with nothing pending, every sent conversation well-formed and a prefix of what is kept, and the recorded calls and outputs exactly the tools run |
| DriveConversation.OrderlyStep | pkg/agentloop/runner.go:271-368 | whatever the world, each step keeps the invariant tying state, queue, open block and record of runs, up to the next reply, which it leaves unread |
| AgentRunner.Runner.Send | pkg/agentloop/runner.go:399-445 | the events of a reply in order, usage dropped, ended as incomplete when nothing ends it |
| AgentRunner.Runner.CheckEndsTheTurn | pkg/agentloop/runner.go:447-454 | some event is a done or an error |
| AgentRunner.Runner.CarryOut | pkg/agentloop/runner.go:275-367 | carrying out one batch of actions queues exactly what each of them produces, in order |
| AgentRunner.Runner.Drive | pkg/agentloop/runner.go:255-370 | the loop with its queue terminates in the final configuration of the value-level run |
| AgentRunner.Runner.RunOneTool | pkg/agentloop/runner.go:373-391 | one call becomes one result event for that call |
| AgentRunner.Runner.WriteBoundary | pkg/agentloop/runner.go:159-183 | the turn is counted, and a sealed link written whose failure stops the run |
| AgentRunner.Runner.RunWithLoop | pkg/agentloop/runner.go:147-241 | the whole run over its lines is the value-level run, resumed place in the chain included |
| Session.CheckpointsLink | pkg/agentloop/runner.go:147-241 | consecutive turn numbers, each link names the hash before it, each conversation a prefix of the next, wherever the run stops |
| Segments.InputAppends | pkg/agentloop/runner.go:255-370 | with replies that end once or twice, after any conversation whatever: an input comes back with nothing outstanding, having appended itself and then complete turns exactly when its last reply did not orphan calls |
| Coverage.CheckpointsCoverTheRun | pkg/agentloop/runner.go:190-233 | with such replies, started from any conversation: one link for each line that reached the model, none for skipped, interrupted or intercepted ones, each strictly longer, and well-formed exactly when the session started so and no input up to it was orphaned |
| Coverage.OrphanIsPermanent | pkg/agentloop/loop.go:293-296 | a call left unanswered when the next input arrives keeps the conversation malformed whatever is appended |
| Coverage.DisciplinedSessionIsWellFormed | pkg/agentloop/runner.go:190-233 | with replies that end once, a session that starts well-formed writes only well-formed links |
| Session.RunExtendsTheChain | pkg/agentloop/runner.go:147-158 | a run resumed from the last link of a hash chain extends that chain, so the last hash pins everything across the restart |
| Session.FreshRunIsAChain | pkg/agentloop/checkpoint.go:44-50 | what a fresh run writes is a hash chain |
| SessionEnds.SessionStopsAsItsLines | pkg/agentloop/runner.go:190-233 | with replies that end once or twice, whatever they say: a session stops exactly at the first line that cannot be read, command that fails, or turn whose checkpoint cannot be written, and says which |
| SessionEnds.SessionReportsEverything | pkg/agentloop/runner.go:232-240 | its failures are every error its inputs heard and every question they declined, in order, but for those of an input whose checkpoint could not be written |
| SseLines.PayloadIs | pkg/aigateway/stream.go:181-185 | a line has a payload exactly when it is `data:` and that payload, itself without blanks at its ends, with any blanks around and between |
| Stream.ScanSSE | pkg/aigateway/stream.go:178-236 | sends what the lines' payloads come to: `[DONE]` ends the reading cleanly, one that does not decode or holds an error ends it with that, any other is sent as its frame; then a read error if the scanner holds one, sentinel or not, and otherwise a truncation unless the sentinel came |
| Stream.DataLineReads | pkg/aigateway/stream.go:185-219 | a data line, whatever blanks it has, read so |
| Stream.OtherLineIsPassedOver | pkg/aigateway/stream.go:182-184 | every line that is not a data line adds nothing |
| Stream.EmitDelta | pkg/aigateway/stream.go:238-273 | one chunk for each call up to the first with incomplete arguments, which is refused by name; past them all, the reasoning, the text and the finish that are there |
| StreamDiscipline.HeardDisciplinedIff | pkg/aigateway/stream.go:178-273 | one terminal event, last, if and only if nothing is said after an ending frame of a complete unbroken stream, and no ending frame precedes the error of any other |
| StreamContent.CompleteStreamIsHeard | pkg/agentloop/runner.go:414-445 | a complete unbroken tidy stream carries exactly the text, reasoning and calls of its frames, in frame order |
| StreamContent.CutStreamIsOneError | pkg/aigateway/stream.go:221-235 | a stream cut before its finish carries what its frames carried and then one error, last, naming what was sent last |
| StreamContent.LateCutIsHeardTwice | pkg/aigateway/stream.go:221-235 | a stream that finished and then broke carries what its frames carried, is done, and then fails |
| StreamContent.UsageIsMetered | pkg/aigateway/stream.go:205-212 | every frame read is metered once, in order, choices or not |
| StreamContent.ShownIsSaid | pkg/agentloop/loop.go:268-282 | over any run, the text shown is the text of the replies and the reasoning shown their reasoning, in order |
| StreamContent.TidyGatewayIsDisciplined | pkg/agentloop/runner.go:438-444 | a gateway meeting the exact condition meets the hypothesis of InputEndsAtRest |
| LateCut.TidyEndsOnceOrTwice | pkg/aigateway/stream.go:221-235 | every stream with nothing said after its ending frame is heard as ending once, or as ending and then failing, and which |
| LateCut.LateCutIff | pkg/agentloop/loop.go:293-296 | read at any turn, a reply that ends twice always hands back, and leaves the conversation malformed exactly when it ended well and its calls fit |
| LateCut.FirstReplyCutIff | pkg/agentloop/loop.go:293-296 | the same for the first reply to an input, whatever the world does later |
| LateCut.InputEndsWellFormedIff | pkg/agentloop/runner.go:255-370 | a whole input with replies that end once or twice: every conversation sent is well-formed, and the last one kept is exactly when the last reply did not orphan calls |
| LateCut.TidyGatewayEndsOnceOrTwice | pkg/agentloop/runner.go:438-444 | every gateway with tidy streams, however they break off, meets that hypothesis |
| LateCut.BrokenStreamOrphansIff | pkg/aigateway/stream.go:221-235 | the same condition on the lines: incomplete, finished, with whole calls that fit |
| LateCut.CutAfterFinishIsHeardTwice | pkg/aigateway/stream.go:227-235 | a concrete stream: one frame with a call and a finish, and no sentinel |
| LateCut.CutAfterFinishOrphansTheCall | pkg/agentloop/loop.go:293-296 | the smallest case: such a reply runs its one call, drops the result and leaves the conversation malformed |
| Checkpoints.BuildMessagesKey | pkg/agentloop/checkpoint.go:162-172 | the nested loops build the hashed form |
| Checkpoints.HashedForm | pkg/agentloop/checkpoint.go:156-172 | the hashed text byte for byte: separators, brackets, and the order of fields, calls and messages |
| Checkpoints.SameKeyIff | pkg/agentloop/checkpoint.go:161-172 | separator-free conversations share a hashed form exactly when they differ at most in call arguments |
| Checkpoints.CleanSideIff | pkg/agentloop/checkpoint.go:161-172 | when a separator-free conversation shares its hashed form with another, they are equal up to arguments exactly when the other is separator-free too |
| Checkpoints.EveryConversationHasATwin | pkg/agentloop/checkpoint.go:161-172 | every sealed conversation of two or more messages can be replaced by one of a single message under the same hash, whatever the hash |
| Checkpoints.SeparatorsAreNotEscaped | pkg/agentloop/checkpoint.go:165 | two different messages with the same hashed form |
| Checkpoints.PreimagesAgree | pkg/agentloop/checkpoint.go:156-159 | the hashed text determines turn, previous hash and hashed messages |
| Checkpoints.LastHashPinsTheChain | pkg/agentloop/checkpoint.go:44-53 | any two chains ending in the same hash have the same length and agree, link by link, on turn, previous hash and hashed messages |
| Checkpoints.LastHashPinsTheMessagesIff | pkg/agentloop/checkpoint.go:44-53 | against a chain of separator-free conversations, they agree on a link's messages up to arguments exactly when the other link's messages are separator-free |
| Checkpoints.ArgumentsAreNotSealed | pkg/agentloop/checkpoint.go:46-53 | a conversation edited only in arguments keeps its hash |
| Resume.CheckpointRoundTrip | pkg/agentloop/checkpoint.go:75-131 | a loop has a checkpoint exactly when idle, and its file restores exactly when it holds a message, to an idle loop with the same conversation |
| Resume.RestoresIff | pkg/agentloop/checkpoint.go:115-131 | a file restores exactly when it decodes to version 1 with some message |
| Resume.InterruptHandsBack | pkg/agentloop/loop.go:304-312 | interrupted in any state without sending, a loop takes the next input and sends all it holds and that |
| Resume.RestoreResumesIff | pkg/agentloop/checkpoint.go:92-131 | a restored loop is indistinguishable on every continuation exactly when nothing was pending, the ceiling is the same, and a plain yes grants the same |
| Restart.RestartChangesNothing | pkg/agentloop/runner.go:147-158 | under that condition a session over some lines, then one over the rest with the loop restored from the last file, writes, sends, runs, reports and stops as one session over all the lines |
| Eligibility.EligibleToolResults | pkg/agentloop/compact.go:263-309 | the loop returns the eligible indices of the turn-counting definition, in order |
| Eligibility.Bounds | pkg/agentloop/compact.go:272-293 | the two computed boundaries enclose exactly the unprotected messages |
| Eligibility.EligibleBelowAll | pkg/agentloop/compact.go:295-308 | an index is listed exactly when it is a non-empty tool message outside the first and last protected turns |
| Compaction.OrderIsRight | pkg/agentloop/compact.go:170-179 | the order holds each eligible index once, heaviest first, ties by position |
| Sorting.SortedIsUnique | pkg/agentloop/compact.go:173-179 | any correct sort yields this order |
| Compactor.StubResult | pkg/agentloop/compact.go:223-228 | replaces one body and returns exactly the characters that saved |
| Compactor.ElideResults | pkg/agentloop/compact.go:181-194 | the running size is the true size at every turn of the loop, which stops at the first prefix that fits |
| Compactor.StubCallArgs | pkg/agentloop/compact.go:235-253 | stubs long arguments of elided calls, leaves the given calls alone, returns exactly what that saved |
| Compactor.ElideArguments | pkg/agentloop/compact.go:199-214 | the second pass with its exact running size |
| Compaction.SizeIsText | pkg/agentloop/compact.go:336-357 | the size of a conversation is the length of every content, tool call id, call id, call name and call arguments written out one after another |
| Compactor.Compact | pkg/agentloop/compact.go:130-219 | the error cases, and otherwise the compacted messages re-chained, unchanged when they fit already, with sizes and verdict that are the lengths of those texts |
| CompactionBodies.EligibleIffMayGo | pkg/agentloop/compact.go:263-309 | eligible is: a non-empty tool result with more user messages up to it than the head keeps, and enough after it for the tail |
| CompactionBodies.BodiesThatGo | pkg/agentloop/compact.go:170-228 | a body changes only if eligible, and then reads as the stub and the number of characters it had; the longest go first, ties by position; all go when the target is missed |
| CompactionBodies.ArgumentsThatGo | pkg/agentloop/compact.go:199-253 | calls keep id, name and place; arguments go only from assistant turns, when asked to, when longer than what replaces them, and when a result of that call went |
| CompactionBodies.ElidedCountCounts | pkg/agentloop/compact.go:181-214 | the count reported is the results elided and the messages whose calls were stripped |
| Compactor.CompactionExtendsTheChain | pkg/agentloop/compact.go:311-334 | compacting the last checkpoint of a chain yields the chain's next link |
| Compactor.CompactionKeepsClean | pkg/agentloop/compact.go:223-253 | a separator-free stub keeps a separator-free conversation so, and its last hash goes on pinning its messages |
| CompactionFacts.CompactionKeepsShape | pkg/agentloop/compact.go:71-98 | count, roles, ids and call names are kept; only elided tool bodies and the arguments of calls whose result was elided change |
| CompactionFacts.CompactionKeepsWellFormed | pkg/agentloop/compact.go:87-93 | a well-formed conversation stays well-formed |
| ProtectedTurns.ProtectedTurnsAreUntouched | pkg/agentloop/compact.go:25-38 | protected turns of a well-formed conversation come through identical, arguments included, when call ids are unique |
| ProtectedTurns.ProtectedTouchedIff | pkg/agentloop/compact.go:199-213 | for any conversation: a protected message changes exactly when it is an assistant turn the second pass reaches, with a long call whose id an elided result carries |
| ProtectedTurns.RepeatedIdReachesProtectedTurn | pkg/agentloop/compact.go:199-213 | a well-formed conversation with a repeated id whose protected first turn is changed |
| CompactionFacts.MissedTargetMeansExhausted | pkg/agentloop/compact.go:66-71 | a missed target means every eligible result elided and no elided call left with long arguments |
| Recompaction.RecompactingIsStableIff | pkg/agentloop/compact.go:155-216 | compacting again changes nothing exactly when the result fits or every eligible result was as long as its stub |
| Recompaction.CompactingAgainCanChange | pkg/agentloop/compact.go:223-228 | a conversation whose compacted form is changed by compacting it again |
| CompactionSize.CompactionGrowsIff | pkg/agentloop/compact.go:181-217 | the conversation gets longer exactly when no number of elided results meets the target and all stubs, less all arguments stubbed, cost more than they replace |
| CompactionSize.CompactionCanGrow | pkg/agentloop/compact.go:223-228 | a well-formed conversation with a two-character result that compaction lengthens |
| CompactionSize.CompactionShrinks | pkg/agentloop/compact.go:216-217 | the size never grows when eligible results are at least as long as their stubs |
| GreedyCompaction.FewestElisions | pkg/agentloop/compact.go:170-193 | with ids of one length, no smaller set of eligible results would fit |
| GreedyCompaction.GreedyIsMinimalIff | pkg/agentloop/compact.go:170-193 | minimal for every target exactly when no positive saving rises along the weight order |
| GreedyCompaction.HeaviestFirstTakesTooMuch | pkg/agentloop/compact.go:170-193 | a well-formed conversation with ids of different length where two results are elided and one would do |
| Lcs.Lcs | pkg/agentloop/diff.go:140-171 | the result is common to both line lists and no common subsequence is longer |
| Lcs.FillTable | pkg/agentloop/diff.go:144-156 | every cell holds the length for its two suffixes |
| Lcs.CommonIsBounded | pkg/agentloop/diff.go:136-156 | no common subsequence is longer than the table says |
| Lcs.WalkIsCommon | pkg/agentloop/diff.go:157-170 | the walk finds a common subsequence of that length |
| Diff.BestScriptIsMinimal | pkg/agentloop/diff.go:36-59 | its lines marked `- ` or with two spaces are the old text's, those marked `+ ` or with two spaces the new one's; it counts what the common subsequence leaves over, and no script between them changes less |
| Diff.TrimmingKeepsChanges | pkg/agentloop/diff.go:68-94 | trimming drops, adds and moves no changed line |
| Diff.TrimmingLayout | pkg/agentloop/diff.go:68-94 | exactly the lines with one not starting in two spaces at most three away, in order, one marker before each kept line after a drop and none elsewhere |
| Diff.TrimmedIsShort | pkg/agentloop/diff.go:64-94 | at most eight lines are shown for each change |
| UnifiedDiff.WriteScript | pkg/agentloop/diff.go:39-59 | the walk along the common lines writes the script |
| UnifiedDiff.TrimContext | pkg/agentloop/diff.go:68-94 | the keep array and the skipping flag compute the trimmed lines |
| DiffText.Render | pkg/agentloop/diff.go:96-127 | the text's lines, read back at its newlines: exact counts over all lines in words, the first 120 lines whole and in order, and the number cut after a blank line when there are more |
| DiffText.LayoutIsLines | pkg/agentloop/diff.go:115-127 | dropping trailing newlines takes no more than the one after the last line |
| Text.DecimalReads | pkg/agentloop/diff.go:116 | a number is written in digits that amount to it, without leading zeros |
| DiffText.LayoutShowsCounts | pkg/agentloop/diff.go:116 | equal texts show equal counts |
| UnifiedDiff.UnifiedDiff | pkg/agentloop/diff.go:32-62 | empty exactly for equal contents, otherwise a text whose lines are the counts of what the longest common subsequence leaves over on each side, the first 120 lines of the trimmed minimal script, and what was cut |
| Lines.SplitIs | pkg/agentloop/diff.go:133 | cut at newlines: pieces without any that, put together with newlines, are the text, and no other pieces are |
| UnifiedDiff.SplitLinesReadBack | pkg/agentloop/diff.go:129-134 | the lines of a content, put together, are it but for a final newline; none exactly for the empty one |
| UnifiedDiff.SameLinesIff | pkg/agentloop/diff.go:129-134 | different contents split to the same lines exactly when they differ in a final newline |
| UnifiedDiff.InvisibleChangeIff | pkg/agentloop/diff.go:17-30 | the text says nothing added, nothing removed and shows no line exactly when a final newline is all that changed |
| UnifiedDiff.AddedNewlineIsInvisible | pkg/agentloop/diff.go:129-134 | a newline added at the end of a file is such a change |
| Visibility.EveryChangeShownIff | pkg/agentloop/diff.go:17-30 | the changed lines the text holds are always the first of the minimal script's, and all of them exactly when the trimmed script has none past its 120th line |
| Visibility.SmallChangesAreShown | pkg/agentloop/diff.go:64-127 | a change counted at most fifteen lines added and removed is never cut and shows all of them |
| Visibility.NewFilesLookAlikeIff | pkg/agentloop/diff.go:96-127 | two new files have the same text exactly when they have equally many lines and the same first 120 |
| Visibility.HiddenPastTheCut | pkg/agentloop/diff.go:96-127 | two new files of 121 lines that part in the last, with the same text |
| Sticky.MarkerFoundIff | pkg/forge/sticky.go:17-19 | a marked body contains a key's marker exactly when it is that key's or its content quotes it |
| Sticky.UpsertSticky | pkg/forge/sticky.go:29-51 | edits the first comment with the marker or adds one; an error exactly when a request failed, and then no comment changed |
| Sticky.Forge.ListIssueComments | pkg/forge/drivers/github/github.go:123-141 | the page loop ends with every comment in order, after one request per full page and one more |
| Sticky.UpsertRefines | pkg/forge/sticky.go:38-50 | one upsert is one map update: the key's own comment and no other |
| Sticky.StickiesAreAMap | pkg/forge/sticky.go:9-51 | among comments that quote no marker of a key used, after any upserts: those comments untouched, exactly one comment for each key, holding the last body |
| Sticky.ForeignKeptIff | pkg/forge/sticky.go:38-45 | comments the upserts did not write stay as they were exactly when none of them quotes the marker of a key used |
| Migration.Manager.Register | pkg/mongo/migration/migration.go:63-65 | appends to the registered migrations |
| Migration.Manager.ReadApplied | pkg/mongo/migration/migration.go:77-87 | the versions of the records that were read and decoded; none when the query fails |
| Migration.Manager.RunMigrations | pkg/mongo/migration/migration.go:73-121 | puts what was registered in order and runs as the value-level run does, taking what was not read as not applied; what it carries out is in order, strictly when versions are distinct |
| Migration.LessIsComesFirst | pkg/mongo/migration/migration.go:89-91 | the order is: equal up to a place where the first text ends or has the smaller byte |
| Migration.SortedInOrder | pkg/mongo/migration/migration.go:89-91 | whatever was registered: of two steps of different versions, the one whose version comes first so stands first, and no step is lost or added |
| Migration.CarriedOutInOrder | pkg/mongo/migration/migration.go:93-118 | what one run carries out is in that order, whatever was read and whatever fails |
| Migration.SortedByVersion | pkg/mongo/migration/migration.go:89-91 | distinct versions come out in strictly increasing order |
| Migration.RunPasses | pkg/mongo/migration/migration.go:93-118 | whatever was read: records and carries out exactly the versions not read, up to the limit and short of the first that fails or is already recorded, which it names, with so many attempts |
| Migration.WholeReadPasses | pkg/mongo/migration/migration.go:93-118 | with everything read, records exactly the first pending versions up to the limit and short of the first failure, which it names |
| Migration.PendingOnce | pkg/mongo/migration/migration.go:98-100 | nothing pending is recorded already or listed twice |
| Batches.RunsAreTheirAttempts | pkg/mongo/migration/migration.go:93-118 | whatever fails and is retried: after k runs, records, what was carried out and attempts are those of so many attempts, each at the first pending version not yet recorded |
| BatchedRuns.BatchesDoNoLess | pkg/mongo/migration/migration.go:93-118 | k runs with limit L record, carry out and attempt no less than one run with limit k*L |
| BatchedRuns.BatchesRecordTheSameIff | pkg/mongo/migration/migration.go:93-118 | they leave the same records exactly when no run that meets the first failing migration again gets it recorded |
| BatchedRuns.BatchesCarryOutTheSameIff | pkg/mongo/migration/migration.go:102-114 | they carry out the same exactly when none of those runs carries it out |
| BatchedRuns.WhatBatchesCarryOut | pkg/mongo/migration/migration.go:93-118 | while no retry gets recorded: each migration short of the first failure once, and the failing one once for every attempt that carries it out |
| BatchedRuns.AcceptedOnce | pkg/mongo/migration/migration.go:93-118 | when every insert succeeds, whatever fails and whenever it succeeds: what is carried out is what gets recorded, in order, each once |
| BatchedRuns.BatchesAddUp | pkg/mongo/migration/migration.go:93-118 | with the same outcome at every attempt, k runs with limit L leave the records of one run with limit k*L |
| BatchedRuns.SteadyBatchesCarryOutOnceIff | pkg/mongo/migration/migration.go:102-114 | with the same outcome at every attempt, they carry out what that run does, and each once, exactly when no refused record is met by two of them |
| BatchedRuns.BatchesCarryOutTheSame | pkg/mongo/migration/migration.go:93-118 | so when every insert succeeds too, the same migrations in the same order, each once |
| BatchedRuns.ARetryIsRecorded | pkg/mongo/migration/migration.go:102-114 | a migration that fails once and then succeeds: two runs with limit 1 record it, one with limit 2 does not |
| Migration.UnreadableRecordsRerunIff | pkg/mongo/migration/migration.go:78-114 | whatever part of the records was read: exactly when a recorded migration is carried out again, and how the run then ends |
| Migration.ARecordedMigrationRunsAgain | pkg/mongo/migration/migration.go:82-86 | one record of two that does not decode: its migration runs again and the next is not reached |
| ShellQuote.QuotedRunsOn | pkg/agentloop/wait.go:301-308 | the quoted text is read as that text whatever follows, and the word runs on from there |
| ShellQuote.QuotedIsOneWord | pkg/agentloop/wait.go:301-308 | the quoted text is read as exactly that one word, stopping at the delimiter |
| WaitLoop.WaitLoopScript | pkg/agentloop/wait.go:282-299 | read as sh reads it, the script is: that very command, tried until it succeeds and exits 0, or 97 after the timeout, at least a second; at least a second slept between tries |
| WaitLoop.WaitEnds | pkg/agentloop/wait.go:270-299 | run against any command and any clock that counts the sleeps, it ends: with 0 exactly when the command succeeded in a round no earlier round found too late, with 97 otherwise |

## Left out

- InputEndsWellFormedIff: covers every gateway that says nothing after a frame that ends the turn; one that goes on talking after its finish is covered by termination and the spend bounds only.
- DriveStepDescends: an operator who says yes forever is not modelled; the list of grants is finite, so the run always ends.
- StickiesAreAMap: keys hold no angle bracket and contents do not quote the marker's prefix; which quoting contents confuse two keys is MarkerFoundIff.
- RunsAreTheirAttempts: each of the k runs reads every record; a run that reads only some of them is covered on its own by UnreadableRecordsRerunIff.
- Error texts: failure messages are abbreviated; only which failure it is matters here.
- Cancellation, failed writes, the transcript, the UI and line-break output: only normal returns of the driver are modelled.
- JSON: checkpoint files and frames are decoded by an arbitrary function, and invalid UTF-8 and the compaction of raw arguments are not modelled.
- Sharing of call slices between messages: messages hold their calls by value, so the source cannot be reached through a shared backing array.
- `toWire`, `lastMarkable` and usage arithmetic: the cache marking and metering of what is sent.
- Unicode spaces in TrimSpace; lines of input arrive already trimmed.
- Concurrent editors of an issue, and comments deleted between the list and the edit.
- WaitEnds: of sh, only this loop: the quoted word, the exit codes, the clock test and the sleep; how long the command itself takes is in the clock.
- Two migrations registered under one version; Go's sort leaves their order open.
- File, search and exec tools, the permission gate, auth, web sockets, queues, caches and the other forge driver methods.
