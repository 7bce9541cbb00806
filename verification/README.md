# Governed work, verified

This project models the governed-work kernel of the platform in Dafny and proves what it promises, for
every sequence of transactions, crashes, retries and cancellations.

An organisation's tables are one value, `Tables.Db`. `WithOrg` holds a lock per organisation for the whole
transaction (`internal/store/store.go:46-64`), so every transaction is one atomic step of the state machine in
`Kernel.dfy`. Work that spans several transactions is split into as many steps: a worker claims a run, gathers
its context, and parks, publishes or fails in transactions of their own; an execution job is applied in one and
its failure recorded in another. The job queue is a multiset of unacknowledged deliveries, each at the point
its handler has reached; a handler may die at any of them, and its delivery is then handed out again, or it may live
on beside the handler of a second delivery.

| file | what it holds |
|---|---|
| `Tables.dfy` | the rows, and the value `Db` of one organisation |
| `Connectors.dfy`, `GateSchemas.dfy`, `Floats.dfy`, `Graph.dfy` | what one operation does to a record; questions and answers; the rounding of JSON numbers; reachability |
| `Proposals.dfy`, `Decisions.dfy`, `Execution.dfy` | proposals, business keys, decisions, effects, the ledger |
| `Runs.dfy`, `RunInvariants.dfy` | agent runs, leases, parking, publication, recovery |
| `Handoffs.dfy`, `Releases.dfy` | offers of responsibility; releases and capabilities |
| `Kernel.dfy` | the whole state machine: `Step`, `Next`, `Reachable` |
| `Invariant.dfy` | the invariant, and that every step keeps it |
| `Monotone.dfy` | what no sequence of steps can undo |
| `Frames.dfy` | what one step leaves alone |
| `Guarantees.dfy` | the promises, for every run from an empty organisation |
| `Verdicts.dfy`, `RunVerdicts.dfy`, `OfficeVerdicts.dfy` | when each transaction does what, spelled out by the rows a caller can see |
| `RepeatedIds.dfy` | a run in which two operations share an id |
| `Transactions.dfy` | the transactions as imperative code with loops and rollbacks, proved against the functions |
| `Organization.dfy`, `Milestones.dfy`, `Recovery.dfy`, `Cli.dfy` | the management graph, milestones, the recovery cursor, and the sequential parts of the harness runner |

A refused transaction leaves the tables as they were. SHA-256 digests and fingerprints are modelled by the
content they are taken of, generated ids by fresh nonzero numbers, clocks and the choices of callers, runners and
the database (which row first, which id next) by the parameters of a step. Constraints of the schema that the
code relies on are part of the functions that insert the rows.

Where code and commentary disagree, the model follows the code:

- A gate schema of white space alone passes the check at creation and then refuses every answer
  (`internal/store/gates.go:340-344` against `157-163`). `GateSchemas.ValidSchemaAnswerableIff` shows it is the only
  such schema without repeated members. Storing one as JSON fails, so in the model the run is retried rather than parked.
- The public failure codes `stale_record` and `unknown_operation` (`internal/store/agent_runs.go:358-369`) are never
  recorded for a publication: proposal creation reports both conditions with errors of its own
  (`Proposals.PublicationFailureCodes`).
- Operations that share an id lose all but the first effect, silently (`internal/store/store.go:520`);
  `Guarantees.AllOperationsAreEffectsIff` says exactly when that happens, and `RepeatedIds.dfy` is a run in which it does.
- A replayed answer is said to be compared by value (`internal/store/gates.go:140-150`, `210-216`). The comparison decodes
  numbers into float64: an answer with a number out of range is not equal even to itself
  (`GateSchemas.HugeAnswerIsNotItself`), and two that round alike are equal (`GateSchemas.RoundedAnswerIsTheSame`).
  `GateSchemas.SameAnswerIff` is the exact condition.
- Accepting or answering an overdue offer marks it expired and then rolls the mark back with the refusal
  (`internal/store/store.go:697-735`).
- The comment on `CreateRelationship` promises an acyclic management graph. A self line and a loop of more than 65
  people are accepted (`Organization.SelfLineIsAccepted`, `Organization.LongLoopIsAccepted`);
  `Organization.AcceptedStaysAcyclicIff` gives the exact condition.
- A failure anywhere in the output stream is said to win outright (`internal/runner/cli.go:617-620`). Inside the text of
  an envelope the first reply wins (`Cli.FailureInsideEnvelopeIsLost`, `Cli.EnvelopeFailsIff`).
- An empty write into an exactly full `capWriter` counts as an overflow (`Cli.EmptyWriteOverflows`).
- The latency promised for the recovery sweep (`internal/store/recovery.go:37`), the directory divided into batches, is
  met exactly when the last batch is not full (`Recovery.PromisedLatencyIff`). When it is, the walk spends a pass on an
  empty page, and `Recovery.FullPagesMissTheLast` names the organisation that is missed.

## Model

| member | source | states |
|---|---|---|
| Guarantees.ApprovedShareNoKey | internal/store/business_operations.go:34-76 | in every reachable state, two proposals that were ever approved share no integration, action and business key, nor do two operations of one |
| Guarantees.PendingHoldsItsKeys | internal/store/business_operations.go:42-69 | a pending proposal holds each of its keys: bound to it, reserved, with its own content |
| Guarantees.KeyStatusTells | internal/store/store.go:502-527 | verified, dispatching, released or reserved says exactly whether the holder is done, was approved, or was rejected |
| Guarantees.KeyMovesOnIff | internal/store/business_operations.go:51-68 | a key can be taken over within a task exactly when its holder was never approved and is not pending, by another task only if it was rejected too |
| Guarantees.KeyIsForEver | internal/store/business_operations.go:48-69 | over any run a key keeps its content, and once dispatched its proposal |
| Guarantees.RevisionsAreConsecutive | internal/store/store.go:368-371 | the revisions of a task run from 1 without gap or repetition |
| Guarantees.VersionCountsEffects | internal/store/store.go:953-976 | a record's version is one plus the number of receipts for it, and receipts match verified effects one to one, however jobs are retried |
| Guarantees.QuantityIsConserved | internal/connectors/connectors.go:248-267 | between any two moments a quantity moves by exactly the deltas of the receipts written between them and stays exact and nonnegative |
| Guarantees.OnlyReceiptsMoveRecords | internal/store/store.go:939-976 | a record that no newer receipt names is unchanged |
| Guarantees.NoRunIsStranded | internal/store/agent_runs.go:158-197 | a queued run has a delivery still to try its claim, a running one a delivery that holds it or will look again; the token is set exactly while running |
| Guarantees.OneHolder | internal/store/agent_runs.go:150-175 | two handlers never hold one run |
| Guarantees.LeaseIsKept | internal/store/agent_runs.go:160-174 | a worker within its lease still holds its run, unless it was cancelled |
| Guarantees.DisplacedWorkerIsHarmless | internal/store/agent_runs.go:255-260 | a worker that lost its run asks nothing, publishes nothing and records no failure |
| Guarantees.EndedRunIsFrozen | internal/store/agent_runs.go:348-357 | a succeeded, failed or cancelled run never changes again, though the failure update does not look at the status |
| Guarantees.RunPublishesOnce | internal/store/agent_runs.go:299-335 | a run has one proposal at most, and has one exactly when it succeeded |
| Guarantees.OnlyTheHolderPublishes | internal/store/agent_runs.go:299-335 | whatever step makes a proposal of a run is the publication by the holder of its claim, with task open, release active, owner and initiator active |
| Guarantees.NoLostWakeUp | internal/store/store.go:268-293 | an approved proposal whose task's parents are all done has an unacknowledged job |
| Guarantees.SomeTaskCanProceed | internal/store/store.go:294-317 | dependencies stay acyclic, and while no task is cancelled some open task waits for none |
| Guarantees.CarriedOutWhenPermitted | internal/store/store.go:887-991 | records only move when every recorded parent is done, the owner is active, and so are an approver who still has the role and an endorser; and then every authorised operation steps its own record by one and the proposal is done |
| Guarantees.EveryEffectIsAuthorised | internal/store/store.go:467-531 | every receipt carries out an operation of a proposal its creator endorsed and another approver or admin approved, for that revision and content |
| Guarantees.DecidedContentIsFixed | internal/store/store.go:406-420 | a proposal keeps its content, a settled one its status, and decisions are never withdrawn |
| Guarantees.AllOperationsAreEffectsIff | internal/store/store.go:520 | every operation of an approved proposal is an effect exactly when the operation ids differ |
| Guarantees.DoneTouchesEachRecordOnce | internal/store/store.go:939-982 | a done proposal with distinct ids has a receipt for every operation and no two on one record |
| Guarantees.OneLiveProposal | internal/store/store.go:406-408 | a task has one live proposal at most, and none once done or cancelled |
| Guarantees.SupersededBySuccessorIff | internal/store/store.go:406-414 | over every enabled step, a proposal becomes superseded exactly when it was live and a new one with a greater revision is made for its task, by a person or by a run, in the name of its owner and while it is open |
| Guarantees.StepConcernsOneTask | internal/store/store.go:46-64 | every enabled step adds and changes tasks, proposals, keys, effects, receipts, runs and questions of the one task it is about; a sweep changes only the runs it takes back |
| Guarantees.CancelledIsFinal | internal/store/store.go:318-338 | after a cancellation no record moves for the task, nothing is published, admitted, asked or answered for it, in any run |
| Guarantees.QuestionsMatchWaitingRuns | internal/store/agent_runs.go:276-289 | pending questions of runs and waiting runs correspond one to one |
| Guarantees.WaitingRunCanResume | internal/store/gates.go:194-252 | every waiting run's question has an answer; given by the active respondent it queues the run with one delivery, and given again in any later state it changes nothing, or is refused to a respondent no longer active |
| Guarantees.AnswerIsFinal | internal/store/gates.go:206-222 | in every later state the active respondent may repeat the recorded answer in any form that decodes to the same values, which changes nothing; everything else is refused |
| Guarantees.OwnAnswerReplaysIff | internal/store/gates.go:206-222 | the very answer recorded is taken again exactly when all its numbers are in the range of a float64, as they are whenever the question declares its fields |
| Guarantees.SweepSparesWorkers | internal/store/recovery.go:146-193 | in every reachable state a sweep takes exactly the chosen runs from workers past their lease, each with one delivery of its own, leaves every worker within its lease in possession, and leaves eligible exactly the others, none of which was due earlier |
| Guarantees.OwnershipMovesAreBounded | internal/store/store.go:634-682 | a task has five accepted ownership transfers at most, with distinct offered versions, and hop depth counts them in order |
| Guarantees.AcceptanceOutdatesOffers | internal/store/store.go:697-735 | acceptance moves the responsibility to the recipient, and in every later state no other offer then open for the task can be accepted |
| Guarantees.RunStaysWithinGrants | internal/store/capabilities.go:189-216 | an admitted run's declared capabilities stay within what its release grants in every later state, and the release went through vetting in order |
| Verdicts.ExecutionVerdict | internal/store/store.go:887-991 | the four fates of an approved proposal whose job is handled, by the rows: blocked while a parent is not done; set aside when the task's owner, every approver who still may approve, or every endorser is inactive; left to the second transaction when an operation is refused; otherwise carried out in full |
| Verdicts.ReceiptNeedsAuthority | internal/store/store.go:898-912 | a receipt is written only for an approved proposal of an open task with active owner, active creator who endorsed it, an active approver with the role now, and all recorded parents done |
| Verdicts.WakeUpVerdict | internal/store/store.go:268-293 | exactly one job for each proposal that only waited for this task, none for any other, and what becomes of the handled job |
| Verdicts.FailureVerdict | internal/store/store.go:867-882 | what recording a connector's error changes: proposal set aside, task blocked with a new version, authorised effects marked, and nothing if the proposal was overtaken |
| Verdicts.NewDecisionIsAllowed | internal/store/store.go:467-491 | whatever the step, a new decision comes from an active principal: the creator of a proposal pending endorsement, or another with the role, for a proposal pending approval whose task is not cancelled, or to reject; for its revision and content, and in the role of that moment |
| Verdicts.DecisionVerdict | internal/store/store.go:467-531 | such a decision, if new, is taken with the status and job that follow from it; anything else changes nothing |
| Verdicts.CreatedIff | internal/store/store.go:353-417 | exactly which proposals are created: owner, open task, shape, no run-scoped key, support, existing record at its version, connector, business key grammar, distinct keys, each new or given up by a holder never approved |
| Verdicts.CreatedRow | internal/store/store.go:368-412 | what is created: its task, creator, run, and the draft's operations each with an id |
| Verdicts.NoRunScopedKey | internal/store/store.go:379-385 | in every reachable state no business key of a run's proposal contains the id of the run |
| Verdicts.GoodKeyIff | internal/store/business_operations.go:19-26 | the business key grammar, character by character |
| RunVerdicts.ClaimVerdict | internal/store/agent_runs.go:158-175 | a claim takes its run exactly when it is queued, or running past its lease, and what it then is; otherwise only the delivery moves |
| RunVerdicts.ExpiredRunIsTakenOver | internal/store/agent_runs.go:160-174 | in every reachable state a running run past its lease is taken by the next claim under a fresh token |
| RunVerdicts.PeekVerdict | internal/store/agent_runs.go:176-197 | a running run's delivery is retried, any other's acknowledged |
| RunVerdicts.GatherVerdict | internal/store/agent_runs.go:199-243 | the worker goes on with the owner the task has now, or fails |
| RunVerdicts.RunnerVerdict | internal/store/agent_runs.go:244-294 | the reason a run fails for when its runner gives no draft |
| RunVerdicts.FailVerdict | internal/store/agent_runs.go:348-357 | a failure is recorded exactly while the worker holds its run |
| RunVerdicts.ParkVerdict | internal/store/agent_runs.go:255-291 | the question stored and the run waiting on it, or the delivery back in the queue, or nothing, each exactly when |
| RunVerdicts.PublicationVerdict | internal/store/agent_runs.go:299-340 | a held run's draft is published exactly when the task is open, the release active, owner and initiator active and the proposal may be created; and the code recorded at once, or left to the second transaction, in each other case |
| RunVerdicts.AnswerVerdict | internal/store/gates.go:194-252 | a pending question is settled exactly by a suitable answer, at its revision, of its active respondent, and its run queued |
| RunVerdicts.SchemaVerdict | internal/store/gates.go:333-373 | exactly which schemas are accepted |
| RunVerdicts.SuitsIff | internal/store/gates.go:152-192 | exactly which answers suit a question, kind by kind |
| RunVerdicts.SweepVerdict | internal/store/recovery.go:129-193 | the runs running past their lease for an open task, as many as the limit, the earliest lease first, and what each becomes |
| RunVerdicts.AdmissionVerdict | internal/store/agent_runs.go:68-120 | exactly who may start a run under which release |
| OfficeVerdicts.AcceptVerdict | internal/store/store.go:697-735 | an offer is accepted exactly by its recipient, not overdue, while its creator owns the task at the version offered |
| OfficeVerdicts.OfferVerdict | internal/store/store.go:634-682 | exactly who may offer what to whom |
| OfficeVerdicts.ReplyVerdict | internal/store/store.go:737-807 | exactly who may decline, ask or withdraw, and until when |
| OfficeVerdicts.ExpiryVerdict | internal/store/store.go:684-696 | expiry touches exactly open overdue offers |
| OfficeVerdicts.TransitionVerdict | internal/store/registry.go:129-171 | a release moves exactly along the lifecycle, by an admin at the expected revision, with one active release a family |
| OfficeVerdicts.RevokedIsFinal | internal/registry/registry.go:4-13 | in every later state a revoked release is revoked |
| OfficeVerdicts.GrantVerdict | internal/store/capabilities.go:92-126 | grants are added exactly by an admin who names some at the expected revision |
| OfficeVerdicts.CancelVerdict | internal/store/store.go:318-338 | exactly when a task is cancelled, and every row that changes with it |
| OfficeVerdicts.DependVerdict | internal/store/store.go:294-317 | exactly which dependencies are recorded |
| Invariant.StepInv | internal/store/store.go:46-64 | every transaction, taken or refused, completed or crashed, keeps the invariant |
| Invariant.RunInv | internal/store/store.go:46-64 | every reachable state satisfies it |
| Monotone.StepForward | internal/store/store.go:46-64 | no transaction undoes what was settled: content, decisions, receipts, ended runs, closed tasks, answered questions |
| Monotone.RunForward | internal/store/store.go:46-64 | nor does any run |
| Connectors.CheckNames | internal/connectors/connectors.go:146-178 | the scan with a seen-set accepts exactly objects without unknown or repeated members |
| Connectors.PrepareKeepsQuantity | internal/connectors/connectors.go:179-191 | an accepted operation of any connector moves a quantity by its delta and keeps it exact and in range |
| Connectors.AdjustAcceptedIff | internal/connectors/connectors.go:248-267 | exactly which inventory adjustments are accepted, of any record |
| Connectors.MailAcceptedIff | internal/connectors/connectors.go:286-312 | exactly which mails are accepted, and that each member goes to the field of its name |
| Connectors.DocumentAcceptedIff | internal/connectors/connectors.go:329-349 | exactly which revisions of a document are accepted, and what they replace |
| GateSchemas.AnswerableIff | internal/store/gates.go:152-192 | exactly which schemas have an answer |
| GateSchemas.ValidSchemaAnswerableIff | internal/store/gates.go:340-373 | an accepted schema has an answer exactly when it is not blank |
| GateSchemas.ValidSchemaFullyAnswerable | internal/store/gates.go:340-373 | all declared fields of an accepted schema can be answered at once |
| GateSchemas.SameAnswerIff | internal/store/gates.go:140-150 | two documents compare equal exactly when all numbers of both are in range and they differ at most in numbers with one float64, at any depth |
| GateSchemas.OwnAnswerIff | internal/store/gates.go:140-150 | a document compares equal to itself exactly when all its numbers are in range |
| GateSchemas.ExactAnswersDiffer | internal/store/gates.go:140-150 | among documents whose numbers are integers within 2^53, equal is identical |
| GateSchemas.DeclaredAnswerInRange | internal/store/gates.go:152-192 | an accepted answer to declared fields has all its numbers in range |
| GateSchemas.HugeAnswerIsNotItself | internal/store/gates.go:144-150 | 1e400 is an accepted answer to a question without fields, and its own replay is refused |
| GateSchemas.RoundedAnswerIsTheSame | internal/store/gates.go:144-150 | 2^53+1 and 2^53 are different accepted answers, and the one passes for a replay of the other |
| GateSchemas.FractionsAreTold | internal/store/gates.go:144-150 | one half does not pass for one quarter |
| Floats.Float64Iff | internal/store/gates.go:144-150 | exactly which JSON numbers decode: those below 2^1024 by more than half a unit of the last place |
| Floats.Float64Near | internal/store/gates.go:144-150 | the decoded number is off by at most one part in 2^53, or half of the smallest double |
| Floats.ExactFraction | internal/store/gates.go:144-150 | integers within 2^53 and dyadic fractions of 53 bits decode to themselves |
| Graph.ReachQuery | internal/store/store.go:306-313 | the recursive query ends, on cyclic data too, and returns exactly the reachable nodes |
| Graph.AcyclicAfterEdgeIff | internal/store/store.go:294-317 | a new edge closes a loop exactly when the guard refuses it |
| Graph.SomeNodeUnblocked | internal/store/store.go:294-317 | every nonempty set of nodes of an acyclic graph has one with no parent in the set |
| Proposals.FirstFaultIff | internal/store/store.go:372-405 | the validation loop accepts exactly when each operation is accepted |
| Proposals.PublicationFailureCodes | internal/store/agent_runs.go:358-369 | a failed publication is recorded as an invalid operation or an internal error, never anything else |
| Proposals.ReserveAllEffect | internal/store/business_operations.go:34-76 | a reservation pass takes all keys or fails, takes only rebindable ones, and keeps every content |
| Proposals.CreateProposalKeeps | internal/store/store.go:353-421 | an accepted proposal leaves one live proposal a task, no revision twice, operations that fit their records, and every pending proposal holding all its keys, though the superseded one loses its own |
| Decisions.DecideKeeps | internal/store/store.go:467-531 | an endorsement, approval, rejection or replay keeps those and the decisions behind every status: approval only after the creator's endorsement and by another, effects exactly for what was approved |
| Decisions.InsertEffectsIs | internal/store/store.go:520 | without foreign conflicts the insert adds exactly the first operation of each id |
| Decisions.NoForeignConflict | internal/store/store.go:520 | effects of other proposals never stand in the way |
| Decisions.RepeatedIdLosesEffect | internal/store/store.go:520 | whatever effects and keys other proposals have, an operation becomes an effect exactly when none before it has its id |
| RepeatedIds.DoneWithoutItsSecondOperation | internal/store/store.go:520 | a run from the empty organisation in which such a proposal is endorsed, approved, carried out and done, with the record of its second operation untouched |
| Execution.ApplyOpsIff | internal/store/store.go:939-977 | operations validated against one snapshot all apply exactly when their targets differ and each is accepted as records stand |
| Execution.ApplyOpsSteps | internal/store/store.go:939-977 | then, in whatever order, each target takes the one step of its operation and no other record moves |
| Execution.ApplyOpsMoves | internal/store/store.go:953-976 | versions and quantities move by exactly the receipts written |
| Execution.CommitKeeps | internal/store/store.go:978-989 | a successful application keeps them together with the ledger: exactly one receipt for each verified effect, and the verified effects of one proposal on different records |
| Execution.ApplyKeeps | internal/store/store.go:887-991 | so does every handling of a job, applied, blocked, refused for revoked actors or repeated after completion |
| Execution.CommitWakes | internal/store/store.go:268-293 | finishing a parent wakes every child it was the last to block |
| Execution.RunJobWakes | internal/store/store.go:865-885 | handling a job, acknowledged or not, leaves no due proposal without one |
| Execution.MarkJobWakes | internal/store/store.go:867-882 | recording a connectors error and acknowledging the job leaves no due proposal without a job either |
| Runs.LeaseSeconds | internal/store/agent_runs.go:165-168 | the lease outlasts the runner's budget by a minute and is two minutes at least |
| RunInvariants.ClaimKeeps | internal/store/agent_runs.go:174 | a claim, taken or not, leaves the token set exactly on running runs, one holder each with its lease ahead, and no queued or running run without a delivery that will serve it |
| RunInvariants.PeekKeeps | internal/store/agent_runs.go:176-197 | acknowledging after the second look strands no run, even one that has just become queued |
| RunInvariants.EndFailedKeeps | internal/store/agent_runs.go:348-351 | whoever holds a matching claim token finds the run running, so the update that looks at the token alone ends no run that waits, was requeued or has ended |
| RunInvariants.FailKeeps | internal/store/agent_runs.go:348-357 | recording a failure keeps tokens, leases, deliveries, questions and published runs in order, whether the worker still holds its run or lost it |
| RunInvariants.ParkKeeps | internal/store/agent_runs.go:255-291 | parking, refused schema or adopted question included, keeps waiting runs and pending questions matched one to one and every stored schema answerable |
| RunInvariants.PublishKeeps | internal/store/agent_runs.go:299-340 | publication in all its outcomes keeps succeeded runs and their proposals matched one to one and strands no run |
| RunInvariants.ResolveGateKeeps | internal/store/gates.go:194-252 | an answer settles the question and its run together and gives the queued run a delivery, so that none waits without a question or is queued unserved |
| RunInvariants.ReclaimKeeps | internal/store/recovery.go:146-193 | recovery takes the token and lease from the runs it requeues, gives each a delivery, and disturbs no worker within its lease |
| RunInvariants.CancelKeeps | internal/store/store.go:330-336 | a cancellation leaves no live run on the task, no pending question without its run, and no worker of another task without its lease |
| Handoffs.AcceptKeeps | internal/store/store.go:697-735 | acceptance appends the next place to the chain, because only an offer at the present version can be accepted |
| Handoffs.OfferKeeps | internal/store/store.go:653-666 | an offer carries the next place and never a sixth |
| Releases.ActiveIsVetted | internal/registry/registry.go:4-16 | an active release was verified, approved and installed first, in that order |
| Releases.TransitionKeeps | internal/store/registry.go:129-171 | a transition follows the lifecycle and never narrows grants |
| Releases.AdmittedOk | internal/store/agent_runs.go:68-98 | an admitted run's agent declares only what its release grants |
| Transactions.Store.CheckOperations | internal/store/store.go:372-405 | the loop names and checks operations in place and reports the first fault |
| Transactions.Store.ReserveBusinessOperations | internal/store/business_operations.go:34-76 | the loop over key rows computes ReserveAll |
| Transactions.Store.LatestRevision | internal/store/store.go:368-371 | the greatest revision of the task, 0 when there is none |
| Transactions.Store.CreateProposal | internal/store/store.go:353-431 | createProposalTx under WithOrg: the new tables, or the error and nothing changed |
| Transactions.Store.Decide | internal/store/store.go:467-531 | the decision's new tables, or a refusal that changes nothing |
| Transactions.Store.AuthoriseEffects | internal/store/store.go:520 | the insert with its conflict rule |
| Transactions.Store.AuthorisedEffects | internal/store/store.go:916-938 | some order of exactly the authorised effects |
| Transactions.Store.ApplyEffects | internal/store/store.go:939-977 | the loop over records, effects and receipts computes ApplyOps |
| Transactions.Store.EnqueueEligibleChildren | internal/store/store.go:268-293 | one job for each proposal that only waited for this parent |
| Transactions.Store.ApplyProposal | internal/store/store.go:887-991 | the transaction commits what Apply says, or returns its error with everything rolled back |
| Transactions.Store.MarkFailed | internal/store/store.go:867-882 | the second transaction after a connectors error |
| Transactions.Store.ExecuteProposal | internal/store/store.go:865-885 | both transactions in sequence: all tables after a success, after a recorded error and after one that goes back to the queue |
| Transactions.Store.AddDependency | internal/store/store.go:294-317 | the edge is added exactly when it joins two tasks and closes no loop |
| Transactions.Store.CancelTask | internal/store/store.go:318-338 | task, proposals, questions and runs change together or not at all |
| Transactions.Store.CreateHandoff | internal/store/store.go:634-682 | the offer with its hop depth, or a refusal |
| Transactions.Store.AcceptHandoff | internal/store/store.go:697-735 | the transfer, or a refusal that rolls the expiry mark back |
| Transactions.Store.ReplyToHandoff | internal/store/store.go:737-807 | declining, asking and withdrawing, with the same rollback |
| Transactions.Store.ClaimRun | internal/store/agent_runs.go:158-175 | the claim with its lease, or the second look |
| Transactions.Store.FailRun | internal/store/agent_runs.go:352-357 | failRun |
| Transactions.Store.Question | internal/store/agent_runs.go:257-287 | what becomes of a question: lost, unusable, adopted or new; with one already pending, adopted exactly when the run is held and the schema usable |
| Transactions.Store.ParkRun | internal/store/agent_runs.go:255-291 | the parking transaction, all tables, for every outcome of the question |
| Transactions.Store.RefusePublication | internal/store/agent_runs.go:300-324 | the checks before a draft is looked at, in their order |
| Transactions.Store.PublishRun | internal/store/agent_runs.go:299-340 | the publication transaction in all its outcomes |
| Transactions.Store.ResolveGate | internal/store/gates.go:194-252 | the answer, its replay, or a refusal |
| Transactions.Store.TakeFirst | internal/store/recovery.go:146-160 | at most the limit of the eligible runs, those whose lease ended first |
| Transactions.Store.Candidates | internal/store/recovery.go:146-160 | the candidate query |
| Transactions.Store.ReclaimInOrg | internal/store/recovery.go:129-205 | the runs go back to the queue and each gets a continuation in the same transaction |
| Transactions.Store.AdmissionMissing | internal/store/capabilities.go:197-216 | exactly the declared capabilities that are not granted |
| Transactions.Store.CreateAgentRun | internal/store/agent_runs.go:68-120 | admission with its first delivery, or a refusal |
| Transactions.Store.GrantCapabilities | internal/store/capabilities.go:92-126 | the merge loop computes the union |
| Transactions.Store.TransitionRelease | internal/store/registry.go:129-171 | the lifecycle step with its revision check and grants |
| Organization.ManagementStaysAHierarchy | internal/store/organization.go:140-241 | over every history, at no instant do the reporting lines in force close a loop of 2 to 65 people, and nobody has two managers |
| Organization.AcceptedStaysAcyclicIff | internal/store/organization.go:193-217 | an accepted line keeps an acyclic graph acyclic exactly when it is no self line and its manager does not reach its subject by more than 64 lines |
| Organization.AcceptedIff | internal/store/organization.go:140-185 | in every history, exactly which relationships are accepted, by what is in force when |
| Organization.EndedMeans | internal/store/organization.go:221-241 | ending takes a relationship out of force from that instant and changes nothing else |
| Organization.SelfLineIsAccepted | internal/store/organization.go:204-207 | a self line is accepted |
| Organization.LongLoopIsAccepted | internal/store/organization.go:204-207 | a loop of 66 people can be built from accepted lines |
| Organization.Directory.DetectManagementCycle | internal/store/organization.go:193-217 | the recursive query refuses exactly when 1 to 64 lines overlapping the window lead up to the subject |
| Organization.Directory.CreateRelationship | internal/store/organization.go:140-185 | exactly which relationships are accepted |
| Organization.Directory.EndRelationship | internal/store/organization.go:221-241 | ending closes an interval and never reopens one |
| Milestones.Planner.AddMilestoneDependency | internal/store/milestones.go:172-204 | recorded exactly when it joins two milestones and closes no loop |
| Milestones.ForecastOnlyOutdates | internal/store/milestones.go:147-167 | a new forecast changes no status and no readiness, and refuses exactly the completions of its milestone prepared before it |
| Milestones.Planner.CompleteMilestone | internal/store/milestones.go:212-251 | met exactly when evidenced, current, neither met nor cancelled, and every prerequisite is met |
| Milestones.MetAfterItsPrerequisites | internal/store/milestones.go:206-251 | in every history a milestone becomes met only by completion, after every prerequisite recorded by then, and both stay met |
| Milestones.SomethingIsReady | internal/store/milestones.go:169-204 | as long as something is unmet, something unmet can be completed |
| Milestones.LatePrerequisite | internal/store/milestones.go:172-204 | a prerequisite may be added to a milestone that is already met |
| Recovery.OrgsAfter | internal/store/recovery.go:90-112 | the page of the directory after the cursor, and whether it is the last |
| Recovery.ReclaimSweep | internal/store/recovery.go:64-86 | the total over the organisations that succeeded, and the next cursor |
| Recovery.ExaminedIff | internal/store/recovery.go:38-112 | from any cursor a sweep can have, an organisation is examined exactly when more passes could read their page than there are pages before its own |
| Recovery.EveryOrganisationIsExamined | internal/store/recovery.go:38-60 | from any cursor a sweep can have, any passes of which floor(n/50)+1 read their page examine all n organisations, even if some fail |
| Recovery.PassesSufficeIff | internal/store/recovery.go:38-112 | that many passes are always enough, and no fewer are |
| Recovery.PromisedLatencyIff | internal/store/recovery.go:37 | one pass for each page it takes to hold the directory is always enough exactly when the last page is not full |
| Recovery.FullPagesMissTheLast | internal/store/recovery.go:81-86 | when it is full, n/50 further passes from the end of the last page do not get to the last organisation |
| Cli.SplitWords | internal/runner/cli.go:202-251 | the scan agrees with the grammar of words, quotes, escapes and separators on every input, errors included |
| Cli.EscapingRoundTrips | internal/runner/cli.go:199-251 | nonempty words escaped and joined with spaces split into themselves |
| Cli.SpelledLineSplits | internal/runner/cli.go:202-251 | words spelled in any mixture of plain, escaped and quoted pieces, with any blanks between them, split into their meanings; an empty one refuses the line |
| Cli.CapWriter.Write | internal/runner/cli.go:263-292 | the buffer holds the first bytes up to the limit, overflow is exact, onOverflow is called once at most, every write is reported complete |
| Cli.NonemptyOverflowIff | internal/runner/cli.go:263-292 | for nonempty writes, overflow means more bytes than the limit |
| Cli.EmptyWriteOverflows | internal/runner/cli.go:263-292 | an empty write into a full buffer overflows though nothing is lost |
| Cli.ExtractProtocol | internal/runner/cli.go:609-646 | a failure anywhere in the stream wins, otherwise the last reply counts |
| Cli.FailureInsideEnvelopeIsLost | internal/runner/cli.go:705-724 | inside an envelope's text a success before a failure wins |
| Cli.EnvelopeFailsIff | internal/runner/cli.go:665-724 | an envelope counts as a failure exactly when it reports one itself, or a document in it is a failure and none before that one replies |
| Cli.UnwrapDepth | internal/runner/cli.go:661-682 | a reply is found in up to three envelopes and in no more |

## Left out

- HTTP routing, sessions, sign-in, CSRF, the web client, read-only boards and templates: wiring and presentation.
- Row-level security, the migrations as such, and more than one organisation at a time in one database.
- Audit event rows, including the fixed version of the reclaim event; summaries, timestamps and display fields.
- The queue's limit on attempts and its back-off: a delivery stays until it is acknowledged.
- When the queue hands work out again while its worker lives on, each of the two acknowledges its own attempt: that the
  first worker's acknowledgement could end the second attempt too is not modelled.
- The JSON decoder: payloads, schemas, answers and protocol documents are modelled after decoding. Keys that a Go
  struct would match without regard to case are taken as written.
- Members repeated in a schema's text. The check at creation merges repeated `properties` while jsonb keeps the last, so that
  a schema of that kind can pass the check and, once stored, have a required field that is not declared any more.
- What jsonb refuses to store (a NUL character, a number beyond its own range) and how it spells a number again.
- `clone` in the connectors: values are immutable in the model, so that a prepared record shares nothing with the old
  one goes without saying.
- The simulator's readback of a record it has just written.
- Generated ids are numbers; their text, which the run-scoped key check searches for, is their decimal form.
- The order of ties: runs whose leases end at the same instant, rows a query returns unordered, capabilities in a list.
- Which active release the release query prefers when several match: the step names the row it returned.
- The uniqueness of release versions, and releases other than in their lifecycle and grants.
- Creating projects, positions, principals and identity links; principals change by an administrative step.
- Launching, killing and isolating the harness process; the runner is an arbitrary result.
- The mutex of `capWriter`: each write is one step.
- Transactions.Store.ExecuteProposal: two transactions with nothing between them; the state machine interleaves them.
- Cli.CapWriter.Write: the callback is counted, what it does to the process is not modelled.
