# Durable Hosts, modelled and proved

The repository ships two example Hosts that drive remote agent executions
through an untrusted, asynchronous server: `GoalBtwHost`, which runs a goal as a
budgeted sequence of executions and asks side questions beside it, and
`ClarificationHost`, which alternates executions, questions and answers. Both
keep one JSON record per goal, side question or run in a compare-and-set store,
reserve every task id for ever, and may be interrupted at every `await` by
another caller, another process or a crash. This project models them, the store
and the server, and proves what survives every interleaving. It also models four
smaller components of the SDK: sealed frames, the approval timeline, the device
mailbox and the member store of end-to-end encryption.

## How it is built

| file | content |
|---|---|
| `Json.dfy` | JSON values, `JSON.stringify` of scalars, the key-sorting serializer and the proof that it decides JSON equality |
| `JsonReader.dfy` | a reader of JSON text, and the proof that it reads canonical text back |
| `Documents.dfy`, `ClarificationDocuments.dfy` | the result-document readers, exact against a declarative reading and against the published schema |
| `Executions.dfy` | targets, the input built from a target, the target rebuilt from an input |
| `Goals.dfy`, `Runs.dfy` | what each operation makes of a loaded record, and what every write keeps |
| `Utf8.dfy` | the size of a document: what is counted is an encoding that can be decoded, whatever the member order |
| `GoalMeanings.dfy`, `RunMeanings.dfy` | exactly when each operation is accepted, what it is for, and what a reserved execution carries |
| `LoadedRecords.dfy` | the same operations as the source writes them: objects changed field by field |
| `CasStore.dfy` | the store: a class with two tables, and its transaction as one step |
| `Servers.dfy`, `Protocol.dfy` | the transition system: server facts, calls with explicit positions between awaits, every store read and write a step of its own |
| `Invariants.dfy`, `Preservation.dfy`, `Decisions.dfy` | the inductive invariant of every reachable state |
| `Chase.dfy`, `Guarantees.dfy`, `GoalGuarantees.dfy`, `RunGuarantees.dfy`, `Questions.dfy`, `Answers.dfy`, `Readability.dfy` | the theorems about whole runs |
| `Bindings.dfy`, `Ownership.dfy`, `Submissions.dfy`, `Respondents.dfy` | more theorems about whole runs: every execution is for its own target, every call acts on its own execution, nothing is sent twice, only the respondent answers |
| `Progress.dfy` | what a call achieves when nothing disturbs it |
| `Closing.dfy`, `Repair.dfy` | the chase as a property of states, and after a crash |
| `ResumeExample.dfy` | the run behind the first finding below, step by step |
| `SealedFrame.dfy`, `Approvals.dfy`, `Mailbox.dfy`, `MailboxMeanings.dfy`, `TenantMailbox.dfy`, `MemberStore.dfy` | the four smaller components |

A run is any finite sequence of actions: a call is invoked, a call in progress
takes its next step with any clock reading, callback result or fresh id, a call
crashes, or the server learns something. `IsRun(run)` says that `run` lists the
states of such a sequence, and the theorems are about every state of every run.
A state carries history beside the store, the server and the calls: every
version of every record, what each task id was reserved for, every submission,
the completions seen while no cancellation was requested, and the verdicts the
Host accepted.

The server is an environment. It may do anything at any time but take a fact
back: attempts, offers, terminals, cancellations and ended executions stay. Two
facts about it are assumed: an offer is readable only with its attempt
(`packages/cloud/src/api/task-reads.ts`), and a submission that returned without
an error has made its attempt visible. `ended` is defined as the executions that
need no cancellation any more; those with a device terminal are among them.

Both Hosts are put into one system over one table; a run that invokes only one
Host's operations is that Host alone, and whatever else happens on the server is
the environment. Only clarification runs wait, so only they meet the cap.

JSON numbers are integers and strings are sequences of UTF-16 code units. An
object is a list of members; a value that came from JavaScript repeats no key.

## Findings

- `resumeGoal` stops a goal without chasing its execution. A paused goal that
  still holds an execution and has spent its steps, or passed its deadline,
  becomes exhausted and keeps the execution, and nothing asks for its
  cancellation. `Goals.ResumeStopsUnchased` gives the exact condition,
  `Chase.StopsAreChased` shows it is the only such write and
  `Closing.NothingLeftRunning` that nothing else leaves an execution running.
  `Chase.ResumeLeavesRunning` continues every run that meets the condition to
  that end, and `ResumeExample.StopWithoutChase` is such a run from the first
  step on. `tickGoal` does not help afterwards, and `cancelGoal` refuses an
  exhausted goal; `sendGoalStep` or `recoverGoalStep` cancels it
  (`Repair.LaterCallRepairs`).
- A field list compared as a comma-joined string is ambiguous: a key may contain
  a comma (`Documents.KeyLineIsAmbiguous`). The readers are still exact, because
  each also looks up every field it compares (`Documents.KeyLineIsExact`).
- The comment on `pendingApprovalObservation` says a resolution without an id
  resolves the single outstanding request. The code does so only if that request
  has no id either (`Approvals.UnnamedResolution`, an if and only if, with the log
  `Approvals.UnnamedResolutionExample` on which the comment fails); the model
  follows the code.

## Model

| member | source | states |
|---|---|---|
| `Json.CanonicalDecidesEquality` | examples/basic/goal-btw.ts:66-70 | two JSON values have the same canonical text exactly when they are equal up to the order of object members, at any nesting and whatever the strings contain |
| `Json.CanonicalUnique` | examples/basic/clarification.ts:72-76 | a canonical text is self-delimiting: followed by anything, equal texts come from equal values and leave equal rests |
| `Json.SameJsonSameText` | examples/basic/clarification.ts:72-76 | values equal up to member order have the same text |
| `Json.SortSorts` | examples/basic/goal-btw.ts:68 | sorting the keys gives a sorted rearrangement of them |
| `Json.EscapeUnique` | examples/basic/goal-btw.ts:68-69 | the escaped form of a string determines the string, surrogates and control characters included |
| `Json.BeforeIsExact` | examples/basic/goal-btw.ts:68 | the key order is the one of the first differing code unit, a prefix first |
| `JsonReader.CanonicalRoundTrips` | examples/basic/goal-btw.ts:66-70 | canonical text is JSON: an independent reader gives back the same value up to member order, with an object's keys ascending |
| `JsonReader.ValueReads` | examples/basic/clarification.ts:72-76 | wherever it stands in a longer text, the canonical text of a value is read back whole and the rest is left |
| `JsonReader.EscapeReads` | examples/basic/goal-btw.ts:68-69 | an escaped string is read back by the escapes of section 7 of RFC 8259 |
| `Documents.KeyLineIsAmbiguous` | examples/basic/clarification.ts:68-70 | two different key sets with the same comma-joined line |
| `Documents.KeyLineIsExact` | examples/basic/clarification.ts:68-70 | once every expected key is present, the comma-joined lines agree exactly when the key sets do |
| `Documents.ParseDecisionIsExact` | examples/basic/goal-btw.ts:74-95 | a verdict is read exactly when the document says it and has no other field |
| `Documents.ParseAnswerIsExact` | examples/basic/goal-btw.ts:309-313 | a side answer is read exactly from a document with those two fields and a non-blank answer |
| `ClarificationDocuments.ReadChoices` | examples/basic/clarification.ts:94-99 | the loop over the options with its set of seen ids computes the choices, or refuses |
| `ClarificationDocuments.ParseChoicesIsExact` | examples/basic/clarification.ts:94-99 | options are accepted exactly when each is a well-formed choice and no id repeats |
| `ClarificationDocuments.ParseClarificationIsExact` | examples/basic/clarification.ts:83-103 | a document is accepted as a step result exactly when it is small enough and says exactly that |
| `Utf8.DocumentSize` | examples/basic/clarification.ts:84 | the size the limit is applied to is that of the UTF-8 encoding of the document as `JSON.stringify` writes it, in its own member order |
| `Utf8.EncodeDecodes` | examples/basic/clarification.ts:84 | that encoding, by section 3 of RFC 3629, decodes to the text |
| `ClarificationDocuments.AcceptedFitsOneBranch` | examples/basic/clarification.ts:20-33 | every accepted document matches one branch of the published schema, field set included, and no other |
| `Executions.RebuiltIsReordered` | examples/basic/goal-btw.ts:118-122 | the target rebuilt from a reserved payload is the original one with its device id moved to the front |
| `Executions.ReorderedIsTarget` | examples/basic/goal-btw.ts:124-125 | that reordering is the same JSON value |
| `Goals.BuiltIsReadable` | examples/basic/goal-btw.ts:112-130 | an input built from a valid target passes every check of a reload |
| `Goals.ReserveKeeps` | examples/basic/goal-btw.ts:147-160 | reserving a step keeps the shape of a goal and is an allowed successor: one more step, newly reserved, within the budget |
| `Goals.ResumeKeeps` | examples/basic/goal-btw.ts:261-267 | resuming is an allowed successor |
| `Goals.SettleKeeps` | examples/basic/goal-btw.ts:233-241 | clearing a settled execution, or blocking on it, is an allowed successor |
| `Goals.ConcludeKeeps` | examples/basic/goal-btw.ts:242-254 | acting on an accepted verdict is an allowed successor; completion needs evidence |
| `GoalMeanings.TargetIsExact` | examples/basic/goal-btw.ts:59-65 | exactly which targets are valid, field by field |
| `GoalMeanings.StartIsExact` | examples/basic/goal-btw.ts:138-146 | exactly which goals start, and that the goal is as asked |
| `GoalMeanings.ReserveIsExact` | examples/basic/goal-btw.ts:147-160 | exactly which steps are reserved; the execution carries the goal's own target, objective and context under the id given |
| `GoalMeanings.PauseIsExact` | examples/basic/goal-btw.ts:256-260 | only active and waiting goals pause, and a paused goal reserves nothing |
| `GoalMeanings.ResumeGoesOn` | examples/basic/goal-btw.ts:261-267 | a paused, waiting or blocked goal with steps and time left is active after a resume, keeps its execution, and takes the next step if it has none |
| `GoalMeanings.ResumeIsExact` | examples/basic/goal-btw.ts:261-267 | exactly which goals resume, and into what |
| `GoalMeanings.PauseResume` | examples/basic/goal-btw.ts:256-267 | pausing and resuming within the budget gives the goal back |
| `GoalMeanings.CancelIsExact` | examples/basic/goal-btw.ts:268-273 | exactly which goals are cancelled; after that nothing is admitted |
| `GoalMeanings.ReserveBtwIsExact` | examples/basic/goal-btw.ts:282-299 | a side question is reserved exactly for another agent, destination and task than the main one, and its execution carries its own target and question |
| `GoalMeanings.SettleBtwMeans` | examples/basic/goal-btw.ts:302-316 | a side question is answered exactly by an exact answer document, and is otherwise blocked with the reason |
| `GoalMeanings.ReadableMeans` | examples/basic/goal-btw.ts:101-132 | a goal that loads holds an execution for its own target, whatever was stored |
| `Goals.ResumeStopsUnchased` | examples/basic/goal-btw.ts:261-267 | resuming leaves a stopped goal with an execution exactly when a paused goal holds one and its budget is spent |
| `Goals.ReserveIsReadable` | examples/basic/goal-btw.ts:147-160 | the goal a reservation writes passes the reload validation |
| `Goals.ReserveBtwIsReadable` | examples/basic/goal-btw.ts:282-299 | the side question a reservation writes passes the reload validation |
| `Runs.RunShape` | examples/basic/clarification.ts:167-245 | one generation per answered question plus one, question i of generation i+1, waiting exactly when the last question is open |
| `Runs.CloseKeeps` | examples/basic/clarification.ts:241-264 | closing keeps the execution and the shape, and closes the open question |
| `Runs.ConsumeKeepsOk` | examples/basic/clarification.ts:230-240 | consuming an answer keeps the shape: receipts with different ids, one more generation |
| `Runs.ReconcileKeeps` | examples/basic/clarification.ts:167-204 | reconciliation settles the execution and is an allowed successor |
| `Runs.ReconcileMeans` | examples/basic/clarification.ts:184-204 | a completion finishes the run exactly when its document says so, asks exactly when it asks and the budget allows, and blocks it otherwise |
| `Runs.AnswerIsExact` | examples/basic/clarification.ts:218-240 | exactly which new answers are accepted, the binding compared as JSON |
| `RunMeanings.StartIsExact` | examples/basic/clarification.ts:124-131 | exactly which runs start, and that the run is as asked with its first execution reserved |
| `RunMeanings.NextInputCarries` | examples/basic/clarification.ts:118-123 | every execution of a run is built from the run's own target; what a reload would rebuild is that target, device first |
| `RunMeanings.InstructionSays` | examples/basic/clarification.ts:118-120 | the instruction names objective, context revision and context, and then question and answer |
| `RunMeanings.AskBinds` | examples/basic/clarification.ts:191-198 | a new question is bound to its run, its generation and context, and to task, device and agent of the execution that asked |
| `RunMeanings.QuestionIsAnswerable` | examples/basic/clarification.ts:218-240 | the open question of a run accepts the respondent's valid answer in time under its own binding |
| `RunMeanings.AnswerContinues` | examples/basic/clarification.ts:230-240 | an accepted answer closes its question with the receipt and reserves the continuation of the next generation, with question and answer in its instruction |
| `RunMeanings.ReconcileRecords` | examples/basic/clarification.ts:184-200 | the run records what the document says: complete, the reason it is stuck, or the question |
| `RunMeanings.ReconcileWithout` | examples/basic/clarification.ts:179-187 | without a document the run is blocked with the reason |
| `RunMeanings.CloseMeans` | examples/basic/clarification.ts:241-245 | a close stops the run for its reason and withdraws the open question, nothing else |
| `RunMeanings.ChangeContextIsExact` | examples/basic/clarification.ts:252-257 | exactly which context changes are taken, and that they make the run obsolete |
| `Runs.DigestDecides` | examples/basic/clarification.ts:223 | digests agree exactly when binding and value do |
| `Runs.RecordedAnswer` | examples/basic/clarification.ts:224-228 | under a recorded id the same body replays the receipt and any other is refused, at any time |
| `LoadedRecords.LoadedGoal.ReserveStep` | examples/basic/goal-btw.ts:147-160 | the field updates compute the reserved goal, or refuse |
| `LoadedRecords.LoadedGoal.Resume` | examples/basic/goal-btw.ts:261-267 | the field updates compute the resumed goal, or refuse |
| `LoadedRecords.LoadedGoal.Reconcile` | examples/basic/goal-btw.ts:229-255 | the field updates compute the reconciled goal, or fail on the clock |
| `LoadedRecords.ReconciledMeans` | examples/basic/goal-btw.ts:229-255 | the status after a completion, in terms of what the document says, the pause and the budget |
| `LoadedRecords.ReconciledReasons` | examples/basic/goal-btw.ts:242-254 | reason and time to resume are the document's own; a spent budget and a refused result say so |
| `LoadedRecords.ReconciledFrame` | examples/basic/goal-btw.ts:229-255 | nothing else of the goal changes, and a stopped goal only settles |
| `LoadedRecords.ReconciledInSteps` | examples/basic/goal-btw.ts:229-255 | the interleaved form around the Host's judgement saves the same goal as the straight-line form |
| `LoadedRecords.LoadedRun.Close` | examples/basic/clarification.ts:241-245 | closing in place |
| `LoadedRecords.LoadedRun.Reconcile` | examples/basic/clarification.ts:178-200 | reconciliation in place, a new question pushed at the end |
| `LoadedRecords.LoadedRun.Answer` | examples/basic/clarification.ts:218-240 | replay without a write, refusal, or the in-place consumption of the question |
| `CasStore.Store.Write` | examples/basic/clarification-store.ts:32-54 | insert or compare-and-set, then the id, with roll-back: the transaction as one step |
| `CasStore.CommitSavesExactly` | examples/basic/goal-btw-store.ts:36-62 | a write is accepted exactly when its snapshot is current, there is room and its id is new |
| `CasStore.CommitKeepsCap` | examples/basic/clarification-store.ts:32-54 | no write takes the waiting records over the cap |
| `CasStore.WaitingRecordHasRoom` | examples/basic/clarification-store.ts:38-41 | a record that already waits is never refused for the cap |
| `Invariants.StoppedStays` | examples/basic/goal-btw.ts:180-182 | a stopped record stays stopped and keeps its execution until it is settled |
| `Decisions.Reachable` | examples/basic/goal-btw.ts:97-323 | every reachable state satisfies the invariant: rows are last versions, versions are allowed successors, ids are bound, submissions were announced, every call stands on facts |
| `Chase.StopCatchesSubmission` | examples/basic/goal-btw.ts:170-211 | when a sender of a task, submitting or recovering, and a stopper of its record have both returned, the task has a cancellation request or had ended |
| `Chase.SenderSeesStop` | examples/basic/clarification.ts:147-166 | a sender or recoverer that re-read a version stopped with its task has seen to the cancellation itself |
| `Chase.SendersReread` | examples/basic/goal-btw.ts:200-211 | a sender that returns has re-read the record after its submission |
| `Chase.SubmitterRereads` | examples/basic/goal-btw.ts:200-211 | so a call that submitted and returned is a sender in the sense of the two theorems above |
| `Closing.NothingLeftRunning` | examples/basic/goal-btw.ts:170-280 | when a sender of a task a stopped record still holds and whoever stopped it have returned, the task is cancelled or ended, unless the stop is the version a returned resume made of a goal paused on that task |
| `Closing.SubmittedIsSettled` | examples/basic/clarification.ts:139-166 | the same for a task that was submitted, once its submitters and stoppers have returned |
| `Closing.AlwaysAttributed` | examples/basic/goal-btw.ts:183-280 | every stop of a held execution was written by a call that went on to chase it, or is what a returned resume made of the version before, and every submission has its call |
| `Repair.LaterCallRepairs` | examples/basic/clarification.ts:147-170 | after any stop, crashed or resumed, a send, run reconciliation, run tick or cancellation that is made on the record while the attempt is visible, and returns, leaves the task cancelled or ended |
| `Chase.StopsAreChased` | examples/basic/goal-btw.ts:268-280 | every write that leaves a record stopped with an execution is followed by its cancellation, except a resume |
| `Chase.ResumeLeavesRunning` | examples/basic/goal-btw.ts:261-267 | every run in which a goal spends its budget while paused on a running execution continues by a resume that leaves it running unchased |
| `ResumeExample.StopWithoutChase` | examples/basic/goal-btw.ts:147-267 | for every target, the run that reserves, sends, pauses and resumes a one-step goal and ends with its execution running unchased |
| `Guarantees.SubmissionIsBound` | examples/basic/goal-btw.ts:183-211 | a submission carries the input its id was reserved with and follows a durable version that says it is being sent |
| `Servers.ReadOfferIsExact` | examples/basic/goal-btw.ts:161-169 | an offer differs exactly when its device or, as JSON, its payload does; otherwise it counts as delivered exactly when it is |
| `Ownership.DeliveredIsReserved` | examples/basic/clarification.ts:132-161 | a sender that goes on without submitting, or after a submission in doubt, has seen a delivered offer equal, as JSON, to the input its record reserved |
| `Ownership.RereadIsOwn` | examples/basic/goal-btw.ts:183-211 | every sender that re-read its record did so for its own submission or for a delivered offer of the reserved input |
| `Ownership.OfferDecides` | examples/basic/clarification.ts:132-173 | before sending, cancelling and reconciling a run, a call stops exactly at an offer that is not its input |
| `Ownership.MatchesIsExact` | examples/basic/clarification.ts:139-145 | an attempt is taken exactly when it is on the input's device and for its agent |
| `Ownership.CancelsOwn` | examples/basic/goal-btw.ts:170-179 | a cancellation is requested only for the execution of a stopped version of the call's own record, on an attempt on its device for its agent |
| `Ownership.ReconcilesOwn` | examples/basic/goal-btw.ts:215-228 | a record is reconciled only from an attempt at its reserved input |
| `Ownership.SubmitsLive` | examples/basic/goal-btw.ts:199-205 | a sender that finds its record stopped, or its goal no longer active, does not submit |
| `Ownership.MainIsRunning` | examples/basic/goal-btw.ts:286-288 | a side question is prepared only beside a visible, uncancelled main task, with that task's agent |
| `Bindings.RunCarriesItsTarget` | examples/basic/clarification.ts:118-123 | in every version of every run the target rebuilt from the pending input is the run's target as JSON, and the instruction is of its objective and context |
| `Bindings.GoalCarriesItsTarget` | examples/basic/goal-btw.ts:112-130 | the same for goals |
| `Bindings.SideCarriesItsTarget` | examples/basic/goal-btw.ts:282-299 | a side question's execution is for a target of its own, whose agent is not the main one |
| `Bindings.SubmissionCarries` | examples/basic/goal-btw.ts:198-206 | whatever is submitted is the execution of such a version |
| `Submissions.SubmittedOnce` | examples/basic/goal-btw.ts:183-206 | however many senders race, no task is submitted twice unless somebody recovers |
| `Respondents.OnlyRespondentAnswers` | examples/basic/clarification.ts:218-222 | every receipt went to a principal of the tenant who is the respondent of the run |
| `Guarantees.OneInputForEver` | examples/basic/goal-btw-store.ts:53-58 | two submissions under one task id, at any two times, carry the same input for the same record |
| `Guarantees.OneStretchPerTask` | examples/basic/clarification.ts:115-166 | a task id is pending in one record, over one unbroken stretch of versions |
| `Guarantees.RunsGrow` | examples/basic/goal-btw-store.ts:36-62 | versions, reservations, submissions and server facts of a run are there in every continuation |
| `Guarantees.NoLostUpdate` | examples/basic/goal-btw-store.ts:36-62 | the row is the last of versions 0, 1, 2, ..., each an allowed successor of the one before |
| `Guarantees.WriteFollowsLast` | examples/basic/goal-btw.ts:135-137 | between two states of a run at most one record gains one version, written by a call whose snapshot was still the latest, and equal to what the call computes from it |
| `Guarantees.FailureChangesNothing` | examples/basic/clarification-store.ts:45-54 | when a call fails, on a refused write or anything else, store, ids, submissions and server are as they were |
| `Guarantees.WaitingWithinCap` | examples/basic/clarification-store.ts:32-54 | however writers interleave, at most the cap of runs wait |
| `Guarantees.RefusedQuestionStays` | examples/basic/clarification.ts:201-204 | a refused reconciliation leaves the run with its source execution and reserves nothing |
| `GoalGuarantees.GoalWithinBudget` | examples/basic/goal-btw.ts:147-160 | a goal has reserved exactly `steps` distinct ids, at most its budget, all settled but the one it holds |
| `GoalGuarantees.EndedForEver` | examples/basic/goal-btw.ts:256-280 | complete, cancelled and exhausted are each final, and a complete goal is never written again |
| `GoalGuarantees.RestingHoldsNothing` | examples/basic/goal-btw.ts:233-254 | waiting, blocked and complete goals hold no execution |
| `GoalGuarantees.CompleteIsEarned` | examples/basic/goal-btw.ts:215-255 | a goal completes only on a device completion that reads as complete, that the Host accepted, and that was seen in an earlier state without a cancellation request |
| `GoalGuarantees.CompletionWasSeen` | examples/basic/goal-btw.ts:215-228 | every completion a record relies on was, in an earlier state of the run, the unsealed terminal of that task, with its attempt visible and no cancellation requested |
| `GoalGuarantees.GoalOnTime` | examples/basic/goal-btw.ts:138-280 | in any state any call, the judged step included, starts, reserves and sends only before the deadline, wakes only when due, and exhausts only when spent |
| `GoalGuarantees.SideQuestionForEver` | examples/basic/goal-btw.ts:282-322 | a side question keeps its binding and input; cancelled and answered are final; an answer is what the device reported, seen uncancelled |
| `RunGuarantees.ShapeAlways` | examples/basic/clarification.ts:124-131 | every version of every run has the shape of a run |
| `RunGuarantees.StoppedForEver` | examples/basic/clarification.ts:246-264 | a stopped run keeps execution, questions and generation and is at most relabelled cancelled; complete is final |
| `RunGuarantees.CompletionIsReported` | examples/basic/clarification.ts:176-189 | a run completes only on a device completion that says so, seen uncancelled |
| `RunGuarantees.AnsweredInTime` | examples/basic/clarification.ts:230-233 | an accepted answer comes strictly before its question's expiry, which is never after the deadline |
| `RunGuarantees.RunOnTime` | examples/basic/clarification.ts:124-264 | any call of any run, reconciliation included, sends only before the deadline, expires only when due, continues only by a timely answer, dates a question from its own clock, and writes a stopped run only to cancel it |
| `Answers.AnsweredOnce` | examples/basic/clarification.ts:218-240 | two calls that answered a run hold the same receipt exactly when they used one answer id and exactly when they answered one question, and then gave the same answer: one receipt per id and one per question |
| `Questions.ReceiptsAreSigned` | examples/basic/clarification.ts:230-240 | in every version of every run a receipt is of an answer to the binding of the ticket that carries it |
| `Questions.OneReceiptPerQuestion` | examples/basic/clarification.ts:224-240 | two receipts of one run for answers to equal bindings are one receipt |
| `Answers.ReplayedForEver` | examples/basic/clarification.ts:224-228 | in every later state the same body gets that receipt back without a write, and any other body is refused |
| `Answers.EveryReceiptRecorded` | examples/basic/clarification.ts:235-240 | a receipt that was returned is in a stored version of the run |
| `Readability.NeverLockedOut` | examples/basic/goal-btw.ts:101-132 | in every reachable state a load returns the last version of every record ever written |
| `Progress.GoalCallStores` | examples/basic/goal-btw.ts:147-267 | reserving, pausing and resuming on the current version store what the operation makes of the goal, or fail and change nothing |
| `Progress.SendSubmits` | examples/basic/goal-btw.ts:183-206 | a send on a live record in time marks the reserved execution and submits it |
| `Progress.ResumedGoalSends` | examples/basic/goal-btw.ts:183-267 | a paused goal that holds an execution is resumed and then sends it |
| `Progress.RecoverySubmits` | examples/basic/clarification.ts:146-160 | recovery submits again what left no offer; without recovery a marked execution is not sent |
| `Progress.RecoveryFinds` | examples/basic/clarification.ts:146-160 | recovery that finds its offer delivered submits nothing |
| `Progress.SubmissionReturns` | examples/basic/clarification.ts:156-166 | an answered submission, or one whose offer was delivered, returns; any other fails |
| `Progress.StopCancels` | examples/basic/clarification.ts:246-264 | cancelling, changing the context or a due tick stops the record, keeps its execution and asks for its cancellation |
| `Progress.StoppedIsChased` | examples/basic/clarification.ts:147-170 | the execution of a stopped record is cancelled by whichever call finds it |
| `Progress.EarlyTick` | examples/basic/clarification.ts:258-264 | before its time a tick changes nothing |
| `Progress.LateCallExpires` | examples/basic/clarification.ts:147-213 | a run whose time is up expires, whichever call notices it |
| `Progress.GoalReconciles` | examples/basic/goal-btw.ts:215-255 | what the server reports of its execution settles the goal as reconciliation says |
| `Progress.RunReconciles` | examples/basic/clarification.ts:167-204 | the same for a run, if the tenant may wait for one more answer |
| `Progress.SideReconciles` | examples/basic/goal-btw.ts:302-316 | the same for a side question |
| `Progress.ReconcileWaits` | examples/basic/goal-btw.ts:215-232 | without an attempt or a report a reconciliation returns, and on a foreign or sealed report it fails, changing nothing |
| `Progress.NotifyMarks` | examples/basic/clarification.ts:205-217 | a delivered notification is marked; one that fails stays to be notified |
| `Progress.OvertakenNotify` | examples/basic/clarification.ts:212-216 | a notification overtaken by another write of the run returns and writes nothing |
| `Progress.IdleReturns` | examples/basic/clarification.ts:167-217 | with nothing to reconcile, or a question already notified, a call returns and changes nothing |
| `Progress.AnswerStores` | examples/basic/clarification.ts:218-240 | an accepted answer is stored and its receipt returned |
| `Progress.AnswerReturns` | examples/basic/clarification.ts:224-228 | a replay returns the receipt and a refusal fails, neither writing anything |
| `Progress.SideStarts` | examples/basic/goal-btw.ts:282-299 | a side question beside a running main task is stored under that task's agent |
| `Progress.StaleCallFails` | examples/basic/goal-btw.ts:101-137 | a call on another revision than the current one, or on no record, fails and changes nothing |
| `Progress.BrokenClockFails` | examples/basic/goal-btw.ts:56-58 | on an invalid clock reading a tick, a run reconciliation and a notification fail and change nothing |
| `Progress.RestartFails` | examples/basic/goal-btw-store.ts:36-62 | nothing is started twice |
| `Progress.ReusedIdFails` | examples/basic/goal-btw-store.ts:53-58 | a task id that was ever reserved reserves no step again |
| `SealedFrame.PaddedIsExact` | packages/core/src/sealed-payload/sealed-content.ts:100-114 | up to 16 KiB the least multiple of 256, above it the least multiple of 2^(e-s), with e and s given by their bounds |
| `SealedFrame.LegalIsPadded` | packages/core/src/sealed-payload/sealed-content.ts:116-124 | the legal lengths are exactly the padded lengths of frames |
| `SealedFrame.FloorLog2` | packages/core/src/sealed-payload/sealed-content.ts:94-98 | the loop computes the integer logarithm |
| `SealedFrame.SealedPaddedLength` | packages/core/src/sealed-payload/sealed-content.ts:106-114 | the method computes the padded length, or refuses |
| `SealedFrame.PaddedMonotone` | packages/core/src/sealed-payload/sealed-content.ts:106-114 | longer frames never get shorter paddings |
| `SealedFrame.PaddedIdempotent` | packages/core/src/sealed-payload/sealed-content.ts:106-124 | a padded length is its own padding |
| `SealedFrame.OverheadBelowSixteenth` | packages/core/src/sealed-payload/sealed-content.ts:100-114 | above 16 KiB the padding adds less than a sixteenth |
| `SealedFrame.EncodeFrame` | packages/core/src/sealed-payload/sealed-content.ts:127-133 | the buffer is the frame of the content |
| `SealedFrame.DecodeFrame` | packages/core/src/sealed-payload/sealed-content.ts:141-151 | the five checks with the scan of the padding |
| `SealedFrame.FramesAreCanonical` | packages/core/src/sealed-payload/sealed-content.ts:127-151 | a frame decodes to a content exactly when it is byte for byte its encoding and within the limit |
| `Approvals.PendingApproval` | packages/cloud/src/approval-timeline.ts:244-256 | the loop computes the one-slot fold |
| `Approvals.PendingIsLatest` | packages/cloud/src/approval-timeline.ts:240-256 | the pending request is the latest one, unless it has no id and was resolved, or its id was |
| `Approvals.UnnamedResolution` | packages/cloud/src/approval-timeline.ts:240-256 | a resolution without an id leaves nothing pending exactly when nothing was or the pending request has no id |
| `Approvals.UnnamedResolutionExample` | packages/cloud/src/approval-timeline.ts:240-256 | a log of one request with an id and an unnamed resolution, after which the request is still pending |
| `Approvals.RetainObservations` | packages/cloud/src/approval-timeline.ts:268-283 | the eviction loop with its byte count computes the retained window |
| `Approvals.WindowAgrees` | packages/cloud/src/approval-timeline.ts:262-283 | for every stream and capacities of at least two, window and log agree on what is pending, and the window is within both limits and ends with the newest |
| `Approvals.RetainsMost` | packages/cloud/src/approval-timeline.ts:268-283 | what is retained is everything newer than some point and the pending observation, and with one observation more it would not have fitted |
| `Mailbox.Device.Append` | packages/core/src/in-memory/mailbox.ts:75-120 | closed, known, over the limit given what the other devices hold, or one new row |
| `Mailbox.Device.UsedBytes` | packages/core/src/in-memory/mailbox.ts:316-326 | the loop sums the pending rows |
| `Mailbox.QuotaHolds` | packages/core/src/in-memory/mailbox.ts:84-101 | only an append raises what a device holds, by its size, and a limited one stays within the tenant's limit |
| `Mailbox.Device.AdvanceCursor` | packages/core/src/in-memory/mailbox.ts:152-189 | refuses to go back or past the delivery; otherwise marks rows in place |
| `Mailbox.Device.RecordDelivery` | packages/core/src/in-memory/mailbox.ts:191-207 | the delivery cursor only rises |
| `Mailbox.Device.ExpireMessages` | packages/core/src/in-memory/mailbox.ts:386-396 | the selected pending rows are dead-lettered, and the result is the number of rows changed |
| `Mailbox.Device.CloseStream` | packages/core/src/in-memory/mailbox.ts:278-284 | closes and dead-letters every pending row, and returns how many |
| `Mailbox.SweepRows` | packages/core/src/in-memory/mailbox.ts:233-253 | one phase on one device, splicing rows out within its budget: every row of another state, or not older than the cutoff, stays; without more, no row the cutoff covers is left but the last dead letter; with more, one is and the budget is spent |
| `Mailbox.Device.Collect` | packages/core/src/in-memory/mailbox.ts:233-253 | that sweep on the device's own rows, with the same promises |
| `Mailbox.SweepTakesOld` | packages/core/src/in-memory/mailbox.ts:239-242 | a row that is not of the phase's state, or not older than its cutoff, is there unchanged after any sweep |
| `Mailbox.SweepAddsDead` | packages/core/src/in-memory/mailbox.ts:243-252 | whatever is new after a sweep is the dead letter of a pending row older than the cutoff |
| `MailboxMeanings.AppendIsExact` | packages/core/src/in-memory/mailbox.ts:75-114 | in every run: which appends add a row, under which number, and that a message it holds is answered with the one row it is stored as |
| `MailboxMeanings.AckIsExact` | packages/core/src/in-memory/mailbox.ts:152-180 | exactly which acknowledgements are accepted, and what becomes of each row |
| `MailboxMeanings.ExpireIsExact` | packages/core/src/in-memory/mailbox.ts:271-276 | exactly the named pending rows expire |
| `MailboxMeanings.ReopenRevives` | packages/core/src/in-memory/mailbox.ts:286-292 | a reopened stream takes messages again and brings nothing back |
| `MailboxMeanings.FloorIsExact` | packages/core/src/in-memory/mailbox.ts:358-364 | the floor is just above the highest dead letter |
| `Mailbox.Device.RecoverableFrom` | packages/core/src/in-memory/mailbox.ts:358-364 | the loop computes the floor |
| `Mailbox.NoSilentLoss` | api-surface/core.d.ts:1543-1563 | in every run a reader at or above the acknowledged cursor and the floor is handed exactly the rows ever appended above its cursor, unchanged and in order, page by page, with the cursor of the next page |
| `Mailbox.FloorNeverFalls` | api-surface/core.d.ts:1550-1559 | floor, cursors and log only grow, and no acknowledgement passes the delivery |
| `Mailbox.ClosedStreamIsDead` | api-surface/core.d.ts:1670-1682 | a closed stream has nothing to deliver and refuses every append, even of a known message |
| `Mailbox.AckConsumes` | packages/core/src/in-memory/mailbox.ts:152-189 | an accepted acknowledgement consumes what it covers and touches nothing above |
| `TenantMailbox.UsedBytes` | packages/core/src/in-memory/mailbox.ts:312-326 | the nested loops sum the pending rows of all devices |
| `TenantMailbox.Store.AppendMessage` | packages/core/src/in-memory/mailbox.ts:75-120 | the append with the entitlement and the sum over all devices |
| `TenantMailbox.AppendWithinLimit` | packages/core/src/in-memory/mailbox.ts:82-98 | an append adds its size exactly when it adds a row, and a limited one ends within the tenant's limit |
| `TenantMailbox.TenantWithinLimit` | packages/core/src/in-memory/mailbox.ts:11-14 | over every run of appends and other operations a tenant holds at most its limit and what came in as exempt |
| `TenantMailbox.Store.CollectExpired` | packages/core/src/in-memory/mailbox.ts:217-269 | three phases over all devices on one budget, with the last look: without more, no acknowledged, pending or dead-lettered row older than its cutoff is left but each device's last dead letter; no row that is not older is touched; the counts are the rows removed and retired, within the limit |
| `TenantMailbox.AppendIsLocal` | packages/core/src/in-memory/mailbox.ts:75-114 | an append changes only its own device's mailbox, against what all the others hold; exactly when the entitlement is missed |
| `TenantMailbox.DoIsLocal` | packages/core/src/in-memory/mailbox.ts:152-292 | every other operation changes only its own device's mailbox, and only three of them create one |
| `TenantMailbox.CollectIsSteps` | packages/core/src/in-memory/mailbox.ts:229-258 | for each device such a call is three collection steps of its own, so the theorems about its runs hold |
| `MemberStore.Store.AppendChainEntries` | packages/cloud/src/stores/in-memory/e2ee-member.ts:97-126 | replay, conflict, gap, or the new entries with their shreds and rotations |
| `MemberStore.Store.PutScopeKeyPackages` | packages/cloud/src/stores/in-memory/e2ee-member.ts:137-163 | shredded, stale, clashing, or all rows written, by the specification the next rows characterise |
| `MemberStore.Store.FindClash` | packages/cloud/src/stores/in-memory/e2ee-member.ts:148-157 | the loop with the key ids fixed in this call finds the first clash |
| `MemberStore.AppendIsExact` | packages/cloud/src/stores/in-memory/e2ee-member.ts:97-126 | an append is accepted exactly when it agrees with what it overlaps and leaves no gap; then the chain holds all of it; a refusal names the first disagreement or the gap |
| `MemberStore.PutIsExact` | api-surface/cloud.d.ts:2671-2679 | in every run a put is accepted exactly when the chain shredded none of its scopes, no row is below the highest epoch its recipient rotated to, and each scope epoch keeps one key id; then each key holds the last row written to it and all else is as it was |
| `MemberStore.PutRefusals` | packages/cloud/src/stores/in-memory/e2ee-member.ts:142-157 | a refused put names the first shredded scope, else the first stale row, else a clashing one |
| `MemberStore.AppendShreds` | packages/cloud/src/stores/in-memory/e2ee-member.ts:115-119 | an accepted append deletes packages and epochs of exactly the scopes its new entries shred |
| `MemberStore.StoreFollowsChain` | api-surface/cloud.d.ts:2648-2679 | over every run no package is of a shredded scope, a scope epoch has one key id, shreds and floors are what the chain says |
| `MemberStore.ChainOnlyGrows` | api-surface/cloud.d.ts:2640-2665 | stored entries and recorded requests never change |
| `MemberStore.DoKeeps` | api-surface/cloud.d.ts:2636-2658 | a refused write and a recorded request change nothing, and an append of stored rows changes nothing but the record of its request |
| `MemberStore.RequestsReplay` | packages/cloud/src/stores/in-memory/e2ee-member.ts:45-54 | a repeated device request gets its first result for ever; another body under its id is refused |

## Left out

- Decisions.Reachable: does not model what a call returns besides an answer's receipt; the load that some operations make only to return a snapshot is not a step.
- Goals.BuiltIsReadable: the instruction text of goals, side questions and runs is what varies in it; the fixed prompt around that, the egress policy and the result schemas are values carried unchanged.
- Runs.AnswerIsExact: fresh question ids, clock readings and callbacks are inputs of a step, so nothing is said about their quality.
- Utf8.DocumentSize: a lone surrogate in a string is escaped, as in canonical text, so every text can be encoded.
- Approvals.WindowAgrees: the size of an observation is given, at most half the byte limit; the duplicate check, host resolutions and expiry of the timeline store are not modelled.
- Mailbox.Device.Append: what the tenant's other devices hold is given; TenantMailbox computes it. The index by message id is a search over the rows.
- TenantMailbox.Store.CollectExpired: the devices are swept without a pause, so operations that come between two devices are covered only by the runs of each device.
- MemberStore.Store.AppendChainEntries: an entry carries what its bytes mean; rows are contiguous by construction, as the contract demands of callers; shred receipts go to another store.
- SQLite, SQL text, the encoding of records as JSON text and the paging of waiting runs.
- Liveness: nothing in the Hosts drives a timer. `Progress.dfy` says what one undisturbed call achieves; nothing is said about calls that are never made.
- JsonReader.CanonicalRoundTrips: strings consist of units below 0x10000, as in JavaScript; fractions, exponents and whitespace are not in canonical text and are not read.
- HTTP routes, event streams, pairing, registration and their MACs, cryptography, packaging and service upgrade.
- Two Hosts of different kinds sharing task ids: each store reserves ids for itself, and the combined system is more restrictive there.
