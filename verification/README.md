# Verified model of the agent harness

A Dafny model of the parts of the harness whose correctness is a matter of protocol or of
algorithm rather than of I/O: the session actor's commit pipeline, the adjacency of tool calls
and their results, turn-end accounting and bounded buffers, the `/goal` engine, and four
self-contained algorithms (civil dates, token joining with a source map, server-sent event
splitting, stagnation detectors).

`dafny verify dfyconfig.toml` checks everything.

## Modules

| module | what it holds |
|---|---|
| `Items`, `Repair` | projection items, the adjacency law, and the repair of resumed history |
| `Compaction` | the fold planner, the splice, clearing, and the store's replay |
| `Contents` | what folds and clears leave of the words they touch |
| `HeldBuffer`, `Disclosure` | held steers and queued prompts under their caps, and whether what they drop is told |
| `WaitingRooms` | the bounds of both waiting rooms over whole runs of the session |
| `Session` | the actor as a transition system: log, writer, queue, head, commands |
| `CommitLaws`, `CommitTheorems`, `History` | what every run keeps of head, log, tickets and visible heads, and exactly which steps break what |
| `Stranding` | what becomes of a log that holds a fold its head never took |
| `Verdicts` | what every ticket's holder is told |
| `Effects`, `Sealed` | what every command writes and whom it lets in, word for word, on a live log and on a sealed one |
| `Admission` | that every prompt is started once, or waits, in the order it came |
| `PairingLaws`, `TurnEnds`, `Restart` | adjacency over whole runs, when a turn dies, and across restarts |
| `SessionActor` | the actor in its own imperative form: each method moves the session as `Session` says, and its contract says what became of the fields |
| `TurnUsage` | token accounting across folds, clears, goals and reports |
| `CommandLedger`, `Wildcard`, `Condition`, `ConditionParser`, `ConditionTokens` | the `/goal` engine |
| `CivilDate`, `Sse`, `Utf8`, `SourceTokens`, `Join`, `SourceMap`, `Relex`, `GoLines`, `PythonIndent`, `Reindent`, `Nudge` | the self-contained algorithms |

## What the environment is taken to do

- The log writer answers in order and, once it has failed, never commits again. `Session.State.fate`
  is the number of messages it will still take; every theorem holds for every value of it.
- Calls into the model, hooks, clocks and cancellation are inputs of the commands: a digest's
  text, pins, whether a fold was skipped and where a cancel caught it, what an evaluator cost and
  said, and whether it was cut short.
- The adjacency theorem needs what the turn promises (`PairingLaws.Allowed`), which its three
  barriers provide (`crates/hotl-engine/src/turn.rs:1530-1588`, `2901-2956`, `185-193`): it answers
  its own open batch and nothing else; it pipelines nothing past an open batch still in flight;
  it reports that it wants a fold or a clear with nothing in flight. That every call is answered by
  its own id needs, in addition, that the turn answers its calls one each and in order
  (`crates/hotl-engine/src/turn.rs:1514-1640`). The path that reports a turn that died
  (`crates/hotl-engine/src/actor.rs:4312-4330`) has no barrier, so such an end may come with units
  in flight; the theorem covers it as long as the head waits for the calls everything forwarded
  waits for, which `TurnEnds.DeadTurnKeepsLawExactly` shows to be exactly what it takes.
- A prompt command brings what a person said, and a turn's proposals say nothing in a person's name
  (`Admission.Honest`).
- Text is a sequence of characters with UTF-8 widths; server-sent streams are bytes, decoded as
  the splitter decodes them (`Sse.Lossy`).

## Where the code does less than it says

Each of these is a theorem that names the exact condition, or a concrete run or input beside one.

- A fold's log entry carries indices into the repaired projection, but the repair is never
  logged and the store replays the raw history. If a call left unanswered lies before the cut, or
  the cut falls between a call and results the repair moved up to it, the next resume folds away
  items the live session kept; a fold that keeps no tail is safe (`Restart.FoldOverRepairExactly`,
  `Restart.FoldOverRepairLosesText`).
- Tickets resolve out of commit order when an ack arrives with younger units behind it and
  steers to release: the release drains, and so resolves, the younger ones first. That is the
  only way (`CommitTheorems.RunResolvesInOrderExactly`), and a turn whose reply calls nothing and is
  followed by a reminder brings it about (`CommitTheorems.TicketsCanOvertake`).
- A turn cancelled while its fold's entry waits for the ack drops the fold
  (`crates/hotl-engine/src/actor.rs:2934-2938`): the entry is in the log, the head never takes it,
  and the next resume shows another conversation than the session did. No other step does this
  (`History.StepContinues`, `CommitTheorems.StrandedFoldDiverges`,
  `CommitTheorems.StrandedFoldLosesText`). What follows is logged on top of both, so the two stay
  apart until another fold keeps nothing the two differ in, and agree from then on
  (`Stranding.LaterFoldHealsExactly`, `Stranding.AgreementLasts`, `Stranding.LogComesTogether`).
- A plan change mid-batch puts a reminder between calls and results
  (`PairingLaws.SetPlanKeepsLawExactly`, `PairingLaws.PlanChangeSplitsBatch`).
- Closing the open batch answers the calls the head waits for, which are not the calls everything
  forwarded waits for if a unit in flight ends on others (`PairingLaws.CloseOpenBatchExactly`). A
  turn that dies on its own call, still in flight, therefore leaves the call unanswered with a
  message right behind it (`TurnEnds.DeadTurnKeepsLawExactly`, `TurnEnds.DeadTurnSplitsBatch`).
- Withdrawing a notification takes along whatever was folded into its entry, a human's steer
  included, and leaves a notification that was folded into another's (`HeldBuffer.HeldInGroups`,
  `HeldBuffer.WithdrawalTakesOthers`).
- The goal gate asks the evaluator about the *conjunction* of the open prose leaves, also when
  they stand under an `or` (`Condition.QuestionIsFaithfulExactly`, `Condition.OrIsAskedAsAnd`). It
  never accepts a goal wrongly, but can refuse one already met.
- A goal's running total leaves out the last stretch of any turn that does not meet the gate
  (`TurnUsage.GoalBilledAtTheGateOnly`, `TurnUsage.StoppedTurnIsUnbilled`), though it is documented
  as what the loop actually cost.
- Spending reaches no report when an evaluator is cancelled or runs out of time, when summarizing
  runs out of time behind a blank but billed attempt, when a fold is interrupted or refused, when
  a turn dies, and when work done ahead of need comes to nothing
  (`TurnUsage.OnlySpeculationIsLostExactly` and the causes in `TurnUsage.Cause`).
- The image cap on held steers is measured on the last entry only; twice the cap can be held
  (`HeldBuffer.ImageCapKeptExactly`, `HeldBuffer.TwiceTheCapIsReached`).
- The truncation mark stacks when a message quotes it where the cut falls
  (`HeldBuffer.FoldKeepsHeadAndDiscloses`, `HeldBuffer.QuotedMarkStacks`,
  `HeldBuffer.MarksCanStack`); it never does for messages that do not (`HeldBuffer.MarksNeverStack`).
- Truncated text is said to be disclosed (`crates/hotl-engine/src/actor.rs:3114-3119`). A cut at a
  character of several bytes leaves room for a message of one byte, and that one takes the mark
  away: what the earlier fold lost is told no more (`Disclosure.MarkFollowsExactly`,
  `Disclosure.MarkCanGo`). Messages of two bytes or more never do that
  (`Disclosure.UnmarkedHoldsAll`).
- On a sealed log a turn's end still lets go of what is held, and takes the first prompt off the
  queue without running it (`Sealed.StepSealed`).
- A server-sent `data` line with no colon is ignored, where the standard reads an empty value, and
  so is a `data` field behind a byte order mark, which the standard takes off first
  (`Sse.StandardExactly`, `Sse.BareDataGoesMissing`, `Sse.MarkHidesFirstField`).
- An ill-formed byte in such a stream is said to move the consumed boundary only ever earlier
  (`crates/hotl-mcp/src/http.rs:308-309`). On no bytes does it move it earlier. It moves it later
  exactly when some ill-formed stretch before the last blank line is not three bytes long, as the
  replacement character is, and something follows that line (`Sse.BoundaryExactly`); what is dropped
  with it can be the start of the next event (`Sse.SpoiledByteSwallows`).
- Joined tokens are said never to lex into something else (`crates/hotl-minify/src/join.rs:1-6`). A
  word and a string literal are joined with nothing between them, so the literal takes up a word
  that can be its prefix, and a word behind it as its suffix where the lexer knows suffixes; nothing
  else goes wrong (`Relex.RustReadsBackExactly`, `Relex.PrefixIsTakenUp`).
- The joiner's rule for Go's semicolons is said to be the language's
  (`crates/hotl-minify/src/join.rs:154-156`). It also ends a statement on every other keyword, as
  between `import` and a string on the next line, and does not end one on a number that opens on its
  point; nothing else is different (`GoLines.SemicolonsExactly`). A comment that is kept between a
  statement's last token and the end of its line takes the semicolon
  (`GoLines.KeptCommentTakesSemicolon`).

One more place where documentation and code part: that of `compaction::apply` says pinned results
come back as standalone results items; the code makes them user text
(`crates/hotl-types/src/lib.rs:618-624`), which the model follows and the pairing proof needs.

## Model

| member | source | states |
|---|---|---|
| Items.PairedAppend | crates/hotl-engine/src/actor.rs:3165-3175 | appending to a paired projection keeps it paired exactly when the run starts with results iff results are owed, and is itself paired |
| Items.ToolUsesExactly | crates/hotl-types/src/lib.rs:289-301 | every well-formed call is listed by its id, in order and as often as it is made, and nothing else is |
| Items.CallsExactly | crates/hotl-engine/src/actor.rs:3165-3175 | an assistant turn calls exactly if one of its blocks is a well-formed call |
| Repair.PairToolResults | crates/hotl-engine/src/actor.rs:3358-3387 | the single-pass repair loop computes the regrouping: behind each calling turn the first results before the next assistant turn move up to it |
| Repair.RegroupIsStablePermutation | crates/hotl-engine/src/actor.rs:3358-3361 | nothing is dropped or invented, and results, non-results, and assistant turns against results each keep their order |
| Repair.RegroupIdempotent | crates/hotl-engine/src/actor.rs:3358-3387 | regrouping twice is regrouping once |
| Repair.UnansweredResults | crates/hotl-engine/src/actor.rs:3322-3334 | one error result per call, in call order, with the call's id |
| Repair.CloseDanglingBatches | crates/hotl-engine/src/actor.rs:3389-3410 | the closing loop computes the closed history: an error result behind every calling turn nothing answers |
| Repair.CloseErases | crates/hotl-engine/src/actor.rs:3389-3394 | erasing what was inserted gives back the input |
| Repair.ClosedFixed | crates/hotl-engine/src/actor.rs:3391-3393 | closing changes nothing exactly on answered histories |
| Repair.ResumeAnswersAndSettles | crates/hotl-engine/src/actor.rs:1236-1252 | the composed repair answers every call, is idempotent, and leaves answered histories alone |
| Repair.ResumeInventsOnlyMissingResults | crates/hotl-engine/src/actor.rs:3389-3393 | results are inserted only for calls with no real results before the next assistant turn |
| Repair.ResumePairsExactlyAttributable | crates/hotl-engine/src/actor.rs:3358-3410 | repair yields a history in which every results item also follows its calls exactly when each results item belongs to the assistant turn before it |
| Repair.ResumeMatchesExactly | crates/hotl-engine/src/actor.rs:3322-3334 | repair answers every call by its id exactly when the regrouped history's own results do |
| Repair.ResumeOfPaired | crates/hotl-engine/src/actor.rs:3389-3393 | a paired log needs at most one inserted item, at its end |
| Compaction.PlanFold | crates/hotl-context/src/compaction.rs:22-58 | the planner loop returns the longest tail that may start there and that both budgets afford, the shortest if they afford none, behind everything that is never folded; and none exactly when no tail may start anywhere |
| Compaction.BestPlanUnique | crates/hotl-context/src/compaction.rs:22-58 | that description determines the plan |
| Compaction.PlansExactly | crates/hotl-context/src/compaction.rs:22-58 | the choice told over the items alone, without the planner's boundaries, is the one it makes |
| Compaction.ApplyKeepsPairing | crates/hotl-context/src/compaction.rs:61-100 | a fold keeps a paired projection paired exactly when its tail does not open on results, pins included |
| Compaction.PlannedFoldKeepsPairing | crates/hotl-engine/src/actor.rs:3621-3656 | a planned cut still keeps the pairing after the projection has grown past the one it was planned on |
| Compaction.ReplayFoldIsApply | crates/hotl-store/src/lib.rs:1907-1925 | on the indices a live fold writes, the store's clamped splice and the live splice agree; what either leaves is `Contents.FoldKeepsPins` |
| Contents.FoldKeepsPins | crates/hotl-types/src/lib.rs:618-652 | a fold leaves the prefix, the digest, the tail, and between them one synthetic user item for each result of the folded span that a pin names, by pin, item and place, quoting its id and its content in full; and nothing else is such a fold |
| Contents.ReplayKeepsPins | crates/hotl-store/src/lib.rs:1907-1925 | so does the store's replay on any indices, clamped to what is there |
| Compaction.ReplayConcat | crates/hotl-store/src/lib.rs:1895-1935 | replaying a log in two parts is replaying it whole |
| Compaction.ReplayAppends | crates/hotl-store/src/lib.rs:1906-1906 | without folds and clears a replay appends the logged items and nothing else |
| Compaction.ClearKeepsPairing | crates/hotl-store/src/lib.rs:1926-1931 | clearing changes contents only: every index still names the same item and the pairing survives |
| Contents.ClearsExactly | crates/hotl-types/src/lib.rs:654-700 | a clear stubs exactly the results it is asked to that are no stubs yet; each stub names its own id, its size in bytes and how many things people said before it; every other result and item is unchanged |
| Compaction.ClearIdempotent | crates/hotl-types/src/lib.rs:608-616 | a stub is never cleared again |
| CommitLaws.RunInv | crates/hotl-engine/src/actor.rs:1153-1179 | every run from every repaired history keeps the whole commit invariant, whatever the writer's fate and wherever a fold is cancelled |
| CommitLaws.DrainCore | crates/hotl-engine/src/actor.rs:517-543 | draining from any lawful state ends with an empty queue and a lawful, published head |
| CommitLaws.DrainEffect | crates/hotl-engine/src/actor.rs:524-543 | what a drain computes, told without its loop: the committed units' items land in order and nothing else moves |
| CommitLaws.DrainResolvesInOrder | crates/hotl-engine/src/actor.rs:524-528 | a drain resolves every outstanding ticket, oldest first, behind those already resolved |
| CommitLaws.RepointCore | crates/hotl-engine/src/actor.rs:3697-3714 | a fold or clear keeps the invariant across its two published heads: log entry first, re-point second |
| CommitLaws.ForwardCore | crates/hotl-engine/src/actor.rs:3486-3567 | forwarding moves no head, resolves nothing, and issues one ticket bearing the last commit order |
| CommitLaws.AckLine | crates/hotl-engine/src/actor.rs:1377-1411 | the exact order in which an ack and the release behind it resolve tickets |
| CommitTheorems.RunReplays | crates/hotl-engine/src/actor.rs:596-621 | after any run the head is the replay of the acked units over the repaired seed, head plus queue is the replay of the log less the folds stranded in it (of the whole log if there are none), the running estimate is exact, and queued commit orders ascend past the head's |
| CommitTheorems.LogReplaysToHeadAndQueue | crates/hotl-engine/src/actor.rs:1153-1179 | in every lawful state the log, less the folds stranded in it, replays to the head followed by what is in flight |
| CommitTheorems.RunResolvesOnce | crates/hotl-engine/src/actor.rs:579-594 | every ticket issued is either resolved exactly once or still queued, and no other ticket ever resolves |
| CommitTheorems.RunResolvesInOrderExactly | crates/hotl-engine/src/actor.rs:1377-1411 | after any run tickets have resolved, and the rest wait, in the order issued, exactly when no ack overtook |
| CommitTheorems.AckKeepsOrderExactly | crates/hotl-engine/src/actor.rs:1377-1411 | settling an ack keeps that order exactly when it has nothing behind it, or no steer to release, or an open batch holds the release |
| CommitTheorems.TicketsCanOvertake | crates/hotl-engine/src/actor.rs:1377-1411 | a run in which a reply that calls nothing, a reminder pipelined behind it and a held steer make the younger ticket resolve before the older one |
| Restart.OvertakingRunIsAllowed | crates/hotl-engine/src/turn.rs:1270-1283 | that run is one the turn's own promises allow |
| CommitTheorems.RunPublishesBeforeResolving | crates/hotl-engine/src/actor.rs:596-621 | a ticket resolves otherwise than sealed only behind a published head that is exactly the projection after a number of acked units, the ticket's own among them |
| CommitTheorems.RunSealedNeverLands | crates/hotl-engine/src/actor.rs:579-594 | a ticket resolved as sealed names a unit that is in no head, before or after, of any run |
| CommitTheorems.ContainedIsOld | crates/hotl-engine/src/actor.rs:481-488 | a head that contains a ticket's unit has an epoch of at least the ticket's order, so comparing epochs waits long enough |
| CommitTheorems.RunPublishesWholeUnits | crates/hotl-engine/src/actor.rs:3508-3530 | every published head is the projection after a whole number of units; only a head between a fold's entry and its re-point lags, and the next event corrects it |
| CommitTheorems.PublishedEpochsRise | crates/hotl-engine/src/actor.rs:409-425 | published epochs never go back |
| CommitTheorems.DrainIgnoresVerdict | crates/hotl-engine/src/actor.rs:524-543 | acknowledging and aborting end in the same session but for what the tickets are told |
| Verdicts.DrainTells | crates/hotl-engine/src/actor.rs:524-543 | a drain tells every outstanding ticket, oldest first: in, refused by the log, or in but cut short |
| Verdicts.AppendTells | crates/hotl-engine/src/actor.rs:1153-1179 | an entry of the actor's own tells every ticket before it, none of them cut short |
| Verdicts.AckTells | crates/hotl-engine/src/actor.rs:1377-1411 | an ack's own ticket is told what the writer said of its unit, behind those the release of held steers lets in |
| Verdicts.CompactTells | crates/hotl-engine/src/actor.rs:3617-3623 | a fold tells those whose units it drains that their turn was cut short |
| Verdicts.ClearTells | crates/hotl-engine/src/actor.rs:2959-3007 | so does a clear |
| CommitTheorems.StrandedFoldDiverges | crates/hotl-engine/src/actor.rs:2934-2938 | a fold cancelled while its entry waits for the ack leaves a head the log does not replay to, except where it replaces a digest by the very same digest |
| CommitTheorems.StrandedFoldLosesText | crates/hotl-engine/src/actor.rs:2934-2938 | a two-command run after which the head shows two messages and the log replays to a digest in place of the first |
| Restart.StrandingRunIsAllowed | crates/hotl-engine/src/actor.rs:2927-2938 | that run is one the turn's own promises allow, with the planner's own cut |
| History.StepContinues | crates/hotl-engine/src/actor.rs:1412-2064 | every step only adds to log, acked units, visible events and tickets; an ack that drains younger units is the only one that overtakes, and a fold cancelled with its entry on the way the only one that strands |
| History.RunStrandsExactly | crates/hotl-engine/src/actor.rs:2927-2938 | the log entries a run's head never took are exactly those of the folds its commands strand, each where its command's outcome begins |
| Stranding.AgreementLasts | crates/hotl-engine/src/actor.rs:1153-1179 | over every run that strands nothing more: log and session, once they agree, agree ever after, and without a fold or clear in between they never come to agree |
| Stranding.LaterFoldHealsExactly | crates/hotl-store/src/lib.rs:1907-1925 | a later fold without pins, behind a preserved prefix both have, makes log and head agree again exactly when it keeps nothing and the log has no more than the head, or both are equally long and the same from its cut on |
| Stranding.LogComesTogether | crates/hotl-engine/src/actor.rs:3669-3714 | a run that strands a fold and then folds everything: its log replays to its head with the stranded entry still in it |
| History.RunGrows | crates/hotl-engine/src/actor.rs:1153-1179 | log, acked units, visible events and tickets are append-only over every run, and a failed writer stays failed |
| PairingLaws.RunKeepsAdjacency | crates/hotl-engine/src/actor.rs:3165-3175 | over every run the environment promises, turns that die with units in flight included, from any history: nothing but results lands behind open calls in the head or in flight, an idle session on a live log is answered, an attributable history stays fully paired, and where history and turn answer by id every call is answered by its own id |
| PairingLaws.RunPairs | crates/hotl-engine/src/actor.rs:1973-1993 | the inductive form: the law for everything forwarded, with the turn's own record of its open batch |
| PairingLaws.StepPairs | crates/hotl-engine/src/actor.rs:1412-2064 | each command keeps it, under the promise made for that command |
| PairingLaws.AckPairs | crates/hotl-engine/src/actor.rs:1377-1411 | settling an ack and releasing held steers never splits a batch, although the release tests the head before it drains |
| PairingLaws.SteerPairs | crates/hotl-engine/src/actor.rs:3177-3210 | a steer admitted at any time keeps the law |
| PairingLaws.StartTurnPairs | crates/hotl-engine/src/actor.rs:4121-4250 | a prompt started by either path keeps it |
| PairingLaws.PipelinedPairs | crates/hotl-engine/src/actor.rs:3486-3531 | a pipelined proposal keeps it |
| PairingLaws.SyncPairs | crates/hotl-engine/src/actor.rs:3412-3426 | a synchronous proposal keeps it, also when the log seals partway through a group |
| PairingLaws.CompactRests | crates/hotl-engine/src/actor.rs:3603-3721 | a fold keeps it, adopted digest, reset mode and pins included |
| PairingLaws.ClearRests | crates/hotl-engine/src/actor.rs:2985-3004 | a clear keeps it |
| PairingLaws.TurnFinishedPairs | crates/hotl-engine/src/actor.rs:1973-2056 | the whole end of a turn keeps it: closing, releasing, folding or clearing, goal continuation, promotion; also with units in flight, where the head waits for the calls everything forwarded waits for |
| PairingLaws.SetPlanKeepsLawExactly | crates/hotl-engine/src/actor.rs:1659-1693 | a plan reminder keeps the law exactly when no batch is open (on a log that takes both entries) |
| PairingLaws.PlanChangeSplitsBatch | crates/hotl-engine/src/actor.rs:1680-1693 | a three-command run that leaves the reminder between a call and its result |
| PairingLaws.CloseOpenBatchExactly | crates/hotl-engine/src/actor.rs:3336-3356 | closing the open batch without draining leaves everything forwarded paired, answered, and answered by id exactly when head and queue wait for the same calls |
| TurnEnds.DeadTurnKeepsLawExactly | crates/hotl-engine/src/actor.rs:4312-4330 | a turn that dies on a live log, whatever is in flight, leaves every call answered by its own results exactly when the head waits for the calls everything forwarded waits for |
| TurnEnds.DeadTurnSplitsBatch | crates/hotl-engine/src/turn.rs:1429-1447 | a run in which the turn dies with its calling reply in flight and a steer held: the session goes idle on an unanswered call with the steer right behind it |
| Restart.ResumeConcat | crates/hotl-engine/src/actor.rs:3389-3393 | repair distributes over an appended run that does not open on results |
| Restart.RunOpensClean | crates/hotl-engine/src/actor.rs:3165-3175 | over every run the environment promises, what stands behind the repaired history never opens on results, until something folds or clears |
| Restart.RestartAgreesWithoutFolds | crates/hotl-engine/src/actor.rs:1246-1251 | until a fold, from any history, resuming from the raw log gives what resuming from the live session gives |
| Restart.FoldOverRepairExactly | crates/hotl-engine/src/actor.rs:3391-3393 | for any history: a fold logged by the repaired session, replayed over the raw history and repaired again, gives the live projection exactly when it keeps no tail, or its cut has no unanswered call before it and tears no batch the repair regroups |
| Restart.FoldOverRepairKeepsPins | crates/hotl-store/src/lib.rs:1917-1924 | where the cut meets that condition, pinned results come back the same too; that they come back at all is `Contents.ReplayKeepsPins` |
| Restart.FoldOverRepairLosesText | crates/hotl-store/src/lib.rs:1907-1925 | a concrete history and a cut the planner chooses where that replay loses a user message |
| SessionActor.Actor.constructor | crates/hotl-engine/src/actor.rs:1236-1257 | opens on the repaired history with nothing in flight or logged |
| SessionActor.Actor.ApplyAck | crates/hotl-engine/src/actor.rs:596-621 | the unit's items are all the head gains, and only if the log took it; nothing forwarded is lost, an exact estimate stays exact, the head moves to the ticket's own order or nowhere, and the ticket is told sealed, aborted or acked accordingly |
| SessionActor.Actor.Drain | crates/hotl-engine/src/actor.rs:529-543 | the loop empties the queue into the head, tells every ticket in order behind those told before, touches no log, and keeps the commit laws |
| SessionActor.Actor.Append | crates/hotl-engine/src/actor.rs:1153-1179 | everything in flight lands first, then the entry, exactly when it is durable; every outstanding ticket is resolved before it |
| SessionActor.Actor.AppendAll | crates/hotl-engine/src/actor.rs:3411-3426 | append in turn, stop at the first refusal: the log gains as many of the entries as the writer still takes; the commit laws survive |
| SessionActor.Actor.Forward | crates/hotl-engine/src/actor.rs:3486-3567 | one ticket bearing the last commit order; no head moves, no ticket resolves, and the group is in the log and in flight whole or not at all |
| SessionActor.Actor.ReleaseSteers | crates/hotl-engine/src/actor.rs:3276-3320 | mid-batch nothing moves; otherwise all that is held lands behind everything forwarded, oldest first, as many as the writer takes |
| SessionActor.Actor.AckArrives | crates/hotl-engine/src/actor.rs:1377-1411 | which tickets are resolved, in which order and with which verdict, with and without a release; nothing forwarded is lost and the commit laws survive |
| SessionActor.Actor.AdmitSteer | crates/hotl-engine/src/actor.rs:3177-3210 | while a turn runs or a batch is open nothing lands and the steer waits as `PushOrFoldSteer` says; otherwise its own words and images land behind everything forwarded |
| SessionActor.Actor.CloseOpenBatch | crates/hotl-engine/src/actor.rs:3336-3356 | the new last item answers exactly the calls the head was waiting for, by id, behind everything forwarded |
| SessionActor.Actor.Compact | crates/hotl-engine/src/actor.rs:3589-3721 | the cut is made on what the drain landed, by an adoptable digest or the planner; the entry logged carries it, and the head becomes prefix, digest, every pinned result of the folded span quoted in full, and tail; a fold that does not happen leaves the drained head and an untouched log |
| SessionActor.Actor.CompactCut | crates/hotl-engine/src/actor.rs:2927-2938 | a fold dropped at its entry grows the log by one exactly when it would have gone through, and the head not at all |
| SessionActor.Actor.TryClear | crates/hotl-engine/src/actor.rs:2959-3007 | exactly the results asked for that are no stubs become stubs that name them; nothing else changes, an open batch stays open, a refused clear leaves the drained head |
| SessionActor.Actor.StartTurn | crates/hotl-engine/src/actor.rs:4121-4250 | on a live log the turn runs, its prompt's words and images are the very next entry and item, and a reminder is the one after, or none; on a sealed one nothing is logged and only an unrefused forward still runs |
| SessionActor.Actor.AdmitPrompt | crates/hotl-engine/src/actor.rs:4038-4098 | behind a running turn only the queue moves, as `QueuePrompt` says; otherwise a turn starts on the prompt |
| SessionActor.Actor.CommitPrepared | crates/hotl-engine/src/actor.rs:3427-3531 | a stale proposal changes nothing; a pipelined one moves no head and resolves no ticket, its items only join what is in flight |
| SessionActor.Actor.EndTurn | crates/hotl-engine/src/actor.rs:3050-3084 | with nothing parked on a live log: the old queue's first prompt lands and the queue is its tail; or the queue is empty and the session idles |
| SessionActor.Actor.TurnFinished | crates/hotl-engine/src/actor.rs:1973-2056 | the whole end of a turn on a live log, entry by entry, from the old session alone |
| SessionActor.Actor.Handle | crates/hotl-engine/src/actor.rs:1412-2064 | any command does what `Effects.StepDid` or, on a sealed log, `Sealed.StepSealed` says, only adds to the log and the resolved tickets, keeps the commit laws if proposals are plain, and keeps adjacency if the turn keeps its promises |
| SessionActor.Actor.Serve | crates/hotl-engine/src/actor.rs:1228-2064 | so does any run of commands |
| SessionActor.Session | crates/hotl-engine/src/actor.rs:1228-2064 | an opened session driven by allowed commands ends adjacent in its fields, with its log, less the folds stranded in it, replaying to head plus queue |
| Effects.StepDid | crates/hotl-engine/src/actor.rs:1412-2064 | on a log that lives through it every command writes exactly these entries, word for word and each under the next commit order, and leaves exactly these steers, prompts, turn and parked fold; a turn's end answers its open calls, lets in all that is held in order, folds or clears as it asked, and goes on to its goal, or else to a parked fold and the prompt that has waited longest, which it takes off the queue |
| Effects.ChoiceSays | crates/hotl-engine/src/actor.rs:3625-3668 | a fold cuts as an adoptable digest made ahead planned it, or else as the planner does, with no tail for a reset; its digest quotes the summary in full or says there is none |
| Sealed.StepSealed | crates/hotl-engine/src/actor.rs:1153-1179 | on a sealed log no command writes anything or adds an item, and each leaves exactly these steers, prompts, turn and parked fold |
| Admission.RunAccounts | crates/hotl-engine/src/actor.rs:3067-3084 | over every run the log lives through: the prompts started, in order, followed by those that wait, are all the prompts that came, in order, each its own entry or, past the queue's limit, folded into the last; none is lost and none starts twice |
| Admission.RunKeepsPrompts | crates/hotl-engine/src/actor.rs:4038-4098 | where none met a full queue each is started or waits word for word, images included |
| Admission.GroupDiscloses | crates/hotl-engine/src/actor.rs:3114-3141 | a folded prompt without the mark is the words of all the prompts folded into it, in order, if none is shorter than two bytes or quotes the mark |
| HeldBuffer.FoldInto | crates/hotl-engine/src/actor.rs:3126-3141 | the loop of strip, join and cut: from the two texts and the cap alone, if the old text less one mark, a blank line where that is not empty, and the new text fit, the result is these and nothing else; otherwise it is their longest fitting beginning, and the mark |
| HeldBuffer.FoldsExactly | crates/hotl-engine/src/actor.rs:3114-3141 | that description determines the text |
| HeldBuffer.FoldKeepsHeadAndDiscloses | crates/hotl-engine/src/actor.rs:3114-3141 | a fold is bounded, ends in the mark if it cut, keeps a beginning of the words it was given, and stacks a second mark exactly when the words kept end in one |
| HeldBuffer.FoldMarksOnce | crates/hotl-engine/src/actor.rs:3126-3141 | folding a message that does not quote the mark, or open on its tail, leaves at most the one mark at the end |
| HeldBuffer.MarksNeverStack | crates/hotl-engine/src/actor.rs:3227-3228 | so over every mix of operations on such messages |
| HeldBuffer.QuotedMarkStacks | crates/hotl-engine/src/actor.rs:3126-3141 | a message that quotes the mark where the cut falls comes out with two |
| HeldBuffer.MarksCanStack | crates/hotl-engine/src/actor.rs:3215-3239 | two pushes after which the one held text ends in two marks |
| HeldBuffer.FoldImages | crates/hotl-engine/src/actor.rs:3144-3163 | keeps images first come first served under the cap and counts the rest |
| HeldBuffer.KeptImagesBounds | crates/hotl-engine/src/actor.rs:3144-3163 | nothing is both kept and dropped, and order is kept |
| HeldBuffer.KeptImagesExactly | crates/hotl-engine/src/actor.rs:3144-3163 | each image is kept exactly when it fits beside those kept before it, and the count is that of the others |
| HeldBuffer.PushOrFoldSteer | crates/hotl-engine/src/actor.rs:3212-3239 | a steer gets an entry of its own while text and images fit, and otherwise goes into the last, whose words stay in front and whose key and kind stay; its words and those images that fit are there as `FoldInto` and `FoldImages` say, with a count of the others; no other entry is touched, and bounds and marks are kept |
| HeldBuffer.HeldStaysBounded | crates/hotl-engine/src/actor.rs:3118-3119 | text and image totals stay bounded over every mix of pushes, folds, withdrawals and releases |
| HeldBuffer.HeldInGroups | crates/hotl-engine/src/actor.rs:1544-1548 | over every mix of operations each held entry is its group of messages folded in order (what one fold makes is `HeldBuffer.PushOrFoldSteer`), and a withdrawal takes exactly the groups whose first message carries the key |
| HeldBuffer.WithdrawalTakesOthers | crates/hotl-engine/src/actor.rs:1544-1548 | a human's steer folded behind a heavy notification is gone when the notification is withdrawn |
| HeldBuffer.ImageCapKeptExactly | crates/hotl-engine/src/actor.rs:3144-3163 | a buffer within the image cap stays within it, whatever message comes next, exactly when no entry but the last carries image bytes |
| HeldBuffer.TwiceTheCapIsReached | crates/hotl-engine/src/actor.rs:3144-3163 | a run that holds twice the image cap |
| HeldBuffer.QueuePrompt | crates/hotl-engine/src/actor.rs:4054-4081 | a prompt gets the last place while there are fewer than the limit, and otherwise goes into the last one, with its words and those images that fit as `FoldInto` and `FoldImages` say; no other is touched, and bounds and marks are kept |
| HeldBuffer.QueueStaysBounded | crates/hotl-engine/src/actor.rs:4054-4081 | the prompt queue keeps its length and per-entry bounds |
| Disclosure.MarkFollowsExactly | crates/hotl-engine/src/actor.rs:3126-3141 | among messages that do not quote it, the mark follows a fold exactly when the words do not fit beside what an earlier cut kept |
| Disclosure.UnmarkedHoldsAll | crates/hotl-engine/src/actor.rs:3212-3239 | over every mix of operations on messages of two bytes or more, a held entry without the mark is every word of every message folded into it, in order |
| Disclosure.MarkCanGo | crates/hotl-engine/src/actor.rs:3126-3141 | three steers, the first cut at a character of four bytes and the last a single letter, after which neither the lost words nor a mark is there |
| WaitingRooms.RunRoomsBounded | crates/hotl-engine/src/actor.rs:3118-3119 | over every run of the session, with messages within their per-message limits: held text, held images, queue length and every queued prompt stay bounded |
| WaitingRooms.RunMarksOnce | crates/hotl-engine/src/actor.rs:3227-3228 | over every run on messages that do not quote the mark, no waiting text has more than the one at its end |
| TurnUsage.UsageIsConserved | crates/hotl-engine/src/actor.rs:2484-2558 | over every run, everything spent is reported, carried, or lost for a named cause, cut-off evaluations, timed-out summaries, dead turns and unclaimed digests included; and a goal's total plus what it leaves out is everything spent under it |
| TurnUsage.OnlySpeculationIsLostExactly | crates/hotl-engine/src/actor.rs:2903-2925 | over every run, nothing but work done ahead that nothing came to need is lost exactly when no operation met one of the guards: a paid fold refused, out of time or cancelled below the streak cap, a paid evaluator cut short at an open gate, a paid turn dead |
| TurnUsage.SmoothRunsLoseNothingElse | crates/hotl-engine/src/actor.rs:2903-2955 | so over every run in which no fold is refused, out of time or interrupted, no evaluator cut short and no turn dies |
| TurnUsage.GoalBilledAtTheGateOnly | crates/hotl-engine/src/actor.rs:2610-2616 | a goal's own total covers a turn's last stretch exactly when the turn meets the gate |
| TurnUsage.StoppedTurnIsUnbilled | crates/hotl-engine/src/actor.rs:2601-2616 | a stopped turn of any cost, reported in full, leaves its goal's total at zero |
| TurnUsage.FinishedSays | crates/hotl-engine/src/actor.rs:2486-2882 | when a turn's end reports and when it does not; what it adds to the carry when not, and when it does that the report is all that was carried, all the turn brings and what its goal's evaluator cost |
| TurnUsage.Accounts.OnTurnFinished | crates/hotl-engine/src/actor.rs:2486-2882 | the same of the fields the actor keeps; conservation survives, and a report leaves nothing carried but a fold that waited for it |
| TurnUsage.Accounts.TryFold | crates/hotl-engine/src/actor.rs:2890-2955 | no account moves; what is handed back and how the turn ends by it, as cap, cancel and log decide; the streak counts folds with no progress between them |
| TurnUsage.Accounts.JudgeGoal | crates/hotl-engine/src/actor.rs:2605-2847 | what the goal's total grows by, when the goal is laid down, when the loop runs on with everything carried, and what the report says when it does not |
| TurnUsage.Accounts.FoldHere | crates/hotl-engine/src/actor.rs:2198-2223 | the digest's cost joins the carry and no goal; nothing is reported; conservation survives |
| TurnUsage.Serve | crates/hotl-engine/src/actor.rs:2486-2882 | conservation holds of the fields the actor keeps after any run |
| Wildcard.Match | crates/hotl-context/src/goal.rs:648-684 | the single-backtrack loop decides the recursive meaning of `*` and `?` within (text+1)(pattern+1) steps |
| Wildcard.NewerStarSuffices | crates/hotl-context/src/goal.rs:652-653 | forgetting all but the latest star loses no match |
| Wildcard.StarredIsContains | crates/hotl-context/src/goal.rs:648-653 | `*x*` matches exactly the texts that contain the literal x |
| Condition.SettledIsExact | crates/hotl-context/src/goal.rs:588-646 | the machine decides a condition exactly when no judgement of the prose could change it, rightly, and leaves prose exactly when it does not decide |
| Condition.ListedProseSuffices | crates/hotl-context/src/goal.rs:588-646 | judging every listed leaf true makes the condition true |
| Condition.QuestionIsFaithfulExactly | crates/hotl-engine/src/actor.rs:2671-2677 | the conjunction the evaluator is asked is the condition itself exactly when each listed leaf is indispensable |
| Condition.OrIsAskedAsAnd | crates/hotl-engine/src/actor.rs:2671-2677 | an `or` of two prose leaves is asked as their conjunction |
| Condition.HoldsGrows | crates/hotl-context/src/goal.rs:320-349 | more true prose never makes a condition false |
| Condition.Oracle.MachineLeaf | crates/hotl-context/src/goal.rs:686-707 | each machine leaf is true exactly when the recorded history bears it out |
| Condition.Oracle.EvaluateMachine | crates/hotl-context/src/goal.rs:588-646 | the recursive evaluator returns the specified settlement |
| Condition.Oracle.EvaluateRun | crates/hotl-context/src/goal.rs:601-644 | so does the loop of both operators, early exits included |
| ConditionParser.ParseOrLoop | crates/hotl-context/src/goal.rs:467-478 | the `or` loop parses as the grammar says |
| ConditionParser.ParseAndLoop | crates/hotl-context/src/goal.rs:480-490 | the `and` loop likewise |
| ConditionParser.ParseOfPrint | crates/hotl-context/src/goal.rs:392-405 | every proper tree, printed with parentheses only under an operator that binds at least as tightly, parses back to itself |
| ConditionParser.ParseIsProper | crates/hotl-context/src/goal.rs:392-405 | any token list parses, to a tree whose operators join at least two parts |
| ConditionTokens.ParsesExactly | crates/hotl-context/src/goal.rs:376-388 | a token list is prose exactly when a closing parenthesis is unmatched or two operands stand side by side; otherwise the tree's leaves, left to right, are the readings of all its atoms in order, and empty prose for each missing operand |
| ConditionParser.AndBindsTighter | crates/hotl-context/src/goal.rs:467-490 | without parentheses the result is an `or` of `and`s of leaves |
| CommandLedger.Ledger.RecordRun | crates/hotl-context/src/goal.rs:115-130 | a run is numbered and kept clipped; a run of nothing is not a run |
| CommandLedger.Ledger.RecordEdit | crates/hotl-context/src/goal.rs:141-145 | an edit moves the staleness line |
| CommandLedger.Ledger.Status | crates/hotl-context/src/goal.rs:147-157 | green, stale, red and unrun exactly by the newest run of the command and the edits after it |
| CommandLedger.Ledger.Output | crates/hotl-context/src/goal.rs:159-167 | what the newest run printed, if anything, cut to the limit at a character boundary and no shorter |
| CommandLedger.Ledger.NoEditsSinceVerify | crates/hotl-context/src/goal.rs:132-139 | true exactly when some zero-exit run has no edit after it |
| CommandLedger.NumbersTellEdits | crates/hotl-context/src/goal.rs:60-69 | comparing counters is comparing positions in the history |
| CivilDate.CivilOfIsExact | crates/hotl-context/src/lib.rs:236-249 | for every day the closed form gives a calendar date whose day number is that day |
| CivilDate.DatesAreDistinct | crates/hotl-context/src/lib.rs:236-249 | no two dates share a day number |
| CivilDate.ConsecutiveDays | crates/hotl-context/src/lib.rs:236-249 | day 0 is 1970-01-01 and the next day is the calendar's next date, across leap days and eras |
| CivilDate.YearOfEraIs | crates/hotl-context/src/lib.rs:243-243 | the year-of-era quotient is the calendar's, on every day of an era |
| CivilDate.TextReadsBack | crates/hotl-context/src/lib.rs:239-250 | the text has the promised shape and reads back to the date |
| Sse.SplitSse | crates/hotl-mcp/src/http.rs:285-310 | the loop over the decoded text returns exactly its complete events, and drops as many bytes as those take, at most all |
| Utf8.CharExactly | crates/hotl-mcp/src/http.rs:286-286 | a character is taken exactly when the encoding of some scalar value in section 3 of RFC 3629 stands there, and it is that one |
| Utf8.WellFormedExactly | crates/hotl-mcp/src/http.rs:286-286 | what counts as well-formed is what encodes some text |
| Utf8.ReplacedExactly | crates/hotl-mcp/src/http.rs:286-286 | one replacement character stands for the longest stretch that begins some character, or for a byte that begins none |
| Utf8.BytesCountEncoding | crates/hotl-types/src/lib.rs:686-686 | sizes in stubs, caps and clips are those of that encoding |
| Sse.LossyIsHarmless | crates/hotl-mcp/src/http.rs:286-286 | on what has arrived of a well-formed stream, cut anywhere, decoding changes neither the events nor the boundary |
| Sse.BoundaryExactly | crates/hotl-mcp/src/http.rs:308-310 | on any bytes the consumed boundary is never before the last blank line, and right behind it exactly when nothing follows or every ill-formed stretch before it is three bytes long |
| Sse.SpoiledByteSwallows | crates/hotl-mcp/src/http.rs:308-310 | an ill-formed byte moves the boundary later: a stream whose one event is delivered whole and lost when cut in two |
| Sse.SplitExtends | crates/hotl-mcp/src/http.rs:281-284 | what was split off stays split off; the rest is split again with what follows |
| Sse.ForwardSse | crates/hotl-mcp/src/http.rs:200-219 | however a stream is chunked, also inside characters, the events of the whole stream are delivered in order if the boundary is right at every chunk, as it is on well-formed UTF-8; the loop gives up exactly at the first chunk that overflows, having delivered exactly what came before |
| Sse.StandardExactly | crates/hotl-mcp/src/http.rs:281-310 | on LF and CRLF streams the events are those of section 9.2.6 of the WHATWG HTML standard exactly when no event it delivers has a line reading only `data`, or a `data` field behind a byte order mark |
| Sse.BareDataGoesMissing | crates/hotl-mcp/src/http.rs:299-307 | the two-line stream `data`, blank: the standard delivers an empty event, the splitter none |
| Sse.MarkHidesFirstField | crates/hotl-mcp/src/http.rs:299-307 | a byte order mark, `data:x`, blank: the standard delivers `x`, the splitter nothing |
| Join.JoinTokens | crates/hotl-minify/src/join.rs:48-91 | the joining loop emits the specified pieces and one segment per copied piece |
| Join.SeparatorIsInvented | crates/hotl-minify/src/join.rs:105-190 | every separator is nothing, a space, a semicolon, a newline with indentation, or a copied gap; a kept line comment ends its line; a script's gap is copied, or its statement ended, exactly where its grammar says |
| SourceMap.JoinIsFaithful | crates/hotl-minify/src/join.rs:48-91 | segments are byte copies, in order and disjoint in text and source alike, one for each kept token; all else is invented separators |
| SourceMap.ProjectSpan | crates/hotl-minify/src/lib.rs:46-77 | a span projects to the least source range covering every byte it copies, and is refused exactly when it copies none |
| SourceMap.WithinOneSegment | crates/hotl-minify/src/lib.rs:48-51 | inside one segment the projection is exact |
| SourceMap.OnlyWhitespaceChanges | crates/hotl-minify/src/tokens.rs:234-246 | with comments kept and the leaf walk's coverage, joining Rust or Python changes whitespace only |
| Relex.RustReadsBackExactly | crates/hotl-minify/src/join.rs:1-6 | joined Rust, comments dropped, lexes to exactly the code tokens it was made from exactly when no word stands in front of a string literal that takes it up, and no literal in front of a word it takes up |
| Relex.PrefixIsTakenUp | crates/hotl-minify/src/join.rs:34-46 | the tokens `b` and `"x"`, joined, lex to the one literal `b"x"` |
| Relex.SeparatorIsNeededExactly | crates/hotl-minify/src/join.rs:34-46 | two tokens read back side by side exactly when the base separator is empty and neither takes the other up |
| GoLines.EndsAlikeExactly | crates/hotl-minify/src/join.rs:196-204 | the joiner's test for a line's last token is the one of The Go Programming Language Specification, section "Semicolons", but for the other keywords and numbers that open on their point |
| GoLines.SemicolonsExactly | crates/hotl-minify/src/join.rs:154-163 | between two tokens of code a semicolon is written exactly where the language has one and no closing bracket follows, but for those |
| GoLines.KeptCommentTakesSemicolon | crates/hotl-minify/src/join.rs:154-163 | two Go statements on two lines, the first with a comment behind it: joined with a semicolon if the comment is dropped, and with nothing if it is kept |
| PythonIndent.PushLevel | crates/hotl-minify/src/join.rs:253-262 | the pop-then-push loop, on a stack rising from zero |
| PythonIndent.PyLines | crates/hotl-minify/src/join.rs:206-238 | each line start is levelled by the logical lines alone; comments take the level in force |
| PythonIndent.LogicalLinesExactly | crates/hotl-minify/src/join.rs:220-237 | a token is given a level exactly when it stands first on its line and nothing in front of it has left a bracket open |
| PythonIndent.RewriteIsFixed | crates/hotl-minify/src/join.rs:187-193 | feeding the levels back in as widths gives the same levels |
| PythonIndent.RewriteKeepsBlocksExactly | crates/hotl-minify/src/join.rs:206-217 | the rewrite shows the tokenizer the same indents and dedents exactly when every dedent returns to an open indentation |
| PythonIndent.LinesAlonePlace | crates/hotl-minify/src/join.rs:206-238 | the levels of a token list are those of its logical lines' widths, so the rewrite keeps the blocks of whole sources exactly when their dedents are consistent |
| Reindent.MinifiesOnce | crates/hotl-minify/src/join.rs:185-193 | minified Python, comments kept or dropped, minified again is the very same text, and its lines are as wide as the levels of the source's |
| PythonIndent.SameBlocksExactly | crates/hotl-minify/src/join.rs:253-262 | the same, one line at a time |
| Nudge.Detectors.Observe | crates/hotl-engine/src/nudge.rs:74-101 | a batch yields exactly the reminders its calls deserve given the whole turn before it |
| Nudge.Detectors.ObserveAll | crates/hotl-engine/src/nudge.rs:74-101 | reminders do not depend on how calls were batched |
| Nudge.Detectors.ObserveOne | crates/hotl-engine/src/nudge.rs:78-100 | one call: count, slide the window, say what is new |
| Nudge.ToldExactlyOnce | crates/hotl-engine/src/nudge.rs:103-106 | over a whole turn each kind and signature is told exactly once if any call ever completes its pattern, at the first that does, and never otherwise |
| Nudge.ChurnAtFourthEdit | crates/hotl-engine/src/nudge.rs:16-18 | where files do not share a hash, churn is named exactly at the fourth edit |
| Nudge.ReportsSplit | crates/hotl-engine/src/nudge.rs:74-76 | the reminders of a turn are those of its parts in order |

## Left out

- Restart.FoldOverRepairExactly: stated for the first fold after a resume; later folds of the same session shift by the same insertions. The exact half is without pins, because pinned text of an inserted result could stand in for a lost item by accident.
- TurnEnds.DeadTurnKeepsLawExactly: where a fold waits for the turn's end only the half of `PairingLaws.TurnFinishedPairs` is proved, because that fold can fold the trouble away.
- Stranding.LaterFoldHealsExactly: without pins, which are read out of the folded span and so can differ between log and head.
- Reindent.MinifiesOnce: takes the second run's tokens to be the first run's, and of the source that a line comment ends its line and that a first line behind dropped comments is not indented, as the language demands.
- SourceMap.OnlyWhitespaceChanges: not for Go and the scripts, whose separators add semicolons.
- Relex.RustReadsBackExactly: a lexer of words, operators, punctuation and string literals; raw strings with number signs, character literals, lifetimes and numbers with a point are not lexed.
- PairingLaws.SetPlanKeepsLawExactly: the command is allowed in the run theorem only while no batch is open.
- Effects.StepDid: a log that fails in the middle of one command is covered by the single steps (`SessionActor.Actor.AppendAll`, `SessionActor.Actor.ReleaseSteers`, `SessionActor.Actor.StartTurn`), not as a whole.
- Admission.RunAccounts: on a log that lives; on a sealed one a prompt can leave the queue unrun (`Sealed.StepSealed`).
- CommandLedger.Ledger.Output: output is text clipped at a character boundary by its UTF-8 width; the clip constant is in bytes as in the code.
- Todos: `SetTodos` and `PresentPlan` move the checklist before their durable append, so "never ahead of the log" is a law of items, estimate and epoch only.
- Leaf ids, `last_fold` and a fold's `source_range`, which name entries rather than order them.
- The bytes a failing writer may have left for a unit it never acked, and rotation or truncation of the log file.
- Masking, serialization, blobs and the rules epoch, beyond "a stale proposal commits nothing"; the sample-stage assertion on releases.
- Titles, asides, model switches, jobs and children, hook dispatch and event sending; they enter as log-only entries or not at all.
- Token profiles: one conservative profile with integer thirds stands for the configurable estimator, and only blocks' ids or texts are weighed.
- Misprediction counters, carried exactly as usage is.
- The parent chain a stranded fold breaks: the store only warns about it and replays in file order.
- Overflow of 64-bit token counters and commit orders: both are unbounded here.
- The condition lexer and the recognition of single atoms: the parser works on tokens, with reading an atom as a parameter.
- `files_block`, `enforce_files`, the budget and prompt texts, and the wording of reminders.
- The syntax trees that say where a script's statements end and which gaps are copied: parameters of the joiner.
- Reconnection, trust, configuration, memory and plan files: I/O.
