/** The rows of one organisation. A transaction is atomic (WithOrg holds the organisation's lock), so a
    value of Db is what the database holds between two transactions. SHA-256 digests and fingerprints
    are modelled by the content they are taken of. */
module Tables {
  import opened Wrappers
  import opened Connectors
  import opened GateSchemas

  datatype Role = Requester | Approver | Admin

  datatype Principal = Principal(role: Role, active: bool)

  datatype TaskStatus = Draft | InProgress | InReview | Blocked | TaskDone | TaskCancelled

  datatype Task = Task(status: TaskStatus, owner: Id, assignee: Id, version: int)

  datatype ProposalStatus =
    | PendingEndorsement | PendingApproval | Approved
    | Rejected | Superseded | Executing | ProposalDone | NeedsAttention

  datatype Digest = Digest(content: seq<Operation>)

  datatype Proposal = Proposal(
    task: Id, revision: int, digest: Digest, status: ProposalStatus,
    ops: seq<Operation>, createdBy: Id, originRun: Id)

  datatype DecisionKind = Endorse | Approve | Reject | OtherKind

  datatype DecisionKey = DecisionKey(proposal: Id, actor: Id, kind: DecisionKind)

  /** `role` is the role Decide read for the actor; the source checks it but does not store it. */
  datatype Decision = Decision(revision: int, digest: Digest, role: Role)

  datatype Key = Key(integration: string, action: string, businessKey: string)

  datatype Fingerprint = Fingerprint(
    integration: string, action: string, target: Id, version: int, payload: Payload)

  datatype KeyStatus = Reserved | Dispatching | KeyVerified | Released

  datatype KeyRow = KeyRow(fingerprint: Fingerprint, proposal: Id, status: KeyStatus)

  datatype EffectKey = EffectKey(proposal: Id, op: Id)

  datatype EffectState = Authorized | Verified | EffectNeedsAttention

  datatype Effect = Effect(op: Operation, state: EffectState)

  datatype Receipt = Receipt(effect: EffectKey, op: Operation, result: Data)

  /** A delivery of a proposal's execution job: not yet applied, or applied with an error that its
      handler is about to record. */
  datatype JobPhase = Delivered | ToMark

  datatype Job = Job(proposal: Id, phase: JobPhase)

  datatype Agent = Agent(harness: string, capabilities: set<string>)

  datatype ReleaseState =
    | Quarantined | ReleaseVerified | ReleaseApproved | Installed
    | Active | Draining | Disabled | Revoked

  /** `history` lists the states a release has been in, oldest first; the source keeps only the last. */
  datatype Release = Release(
    family: string, harness: bool, runner: string, requested: set<string>, granted: set<string>,
    revision: int, history: seq<ReleaseState>)
  {
    function State(): ReleaseState {
      if history == [] then Quarantined else history[|history| - 1]
    }
  }

  datatype RunStatus = Queued | Running | Waiting | Succeeded | Failed | RunCancelled

  datatype Run = Run(
    task: Id, agent: Id, release: Id, createdBy: Id, status: RunStatus, attempt: int,
    token: Id, lease: Option<int>, gate: Id, proposal: Id, failure: string)

  datatype GateStatus = GatePending | GateResolved | GateCancelled

  datatype Gate = Gate(
    task: Id, run: Id, schema: Schema, respondent: Id, revision: int,
    status: GateStatus, response: Response, respondedBy: Id)

  /** Where the handler of a run delivery is. The handler's token, the owner it gathered and the end of
      the lease it took are local to the worker and lost when it crashes. */
  datatype Phase =
    | Idle
    | Peeking
    | Claimed(token: Id, deadline: int)
    | Working(token: Id, deadline: int, owner: Id)
    | Failing(token: Id, deadline: int, code: string)
    | Returned

  datatype Delivery = Delivery(run: Id, phase: Phase)

  datatype HandoffState = Offered | ClarificationRequested | Accepted | Declined | Expired | Withdrawn

  datatype HandoffRole = OwnerRole | AssigneeRole | OtherRole

  datatype Handoff = Handoff(
    task: Id, recipient: Id, createdBy: Id, role: HandoffRole, state: HandoffState,
    offeredVersion: int, hopDepth: int, expiresAt: Option<int>)

  datatype Db = Db(
    now: int,
    principals: map<Id, Principal>,
    tasks: map<Id, Task>,
    deps: set<(Id, Id)>,
    handoffs: map<Id, Handoff>,
    records: map<Id, Record>,
    proposals: map<Id, Proposal>,
    decisions: map<DecisionKey, Decision>,
    keys: map<Key, KeyRow>,
    effects: map<EffectKey, Effect>,
    receipts: seq<Receipt>,
    jobs: multiset<Job>,
    agents: map<Id, Agent>,
    releases: map<Id, Release>,
    runs: map<Id, Run>,
    gates: map<Id, Gate>,
    deliveries: multiset<Delivery>,
    issued: set<Id>)

  const EMPTY := Db(0, map[], map[], {}, map[], map[], map[], map[], map[], map[], [], multiset{},
                    map[], map[], map[], map[], multiset{}, {})

  predicate Open(status: TaskStatus) {
    !status.TaskDone? && !status.TaskCancelled?
  }

  predicate Pending(status: ProposalStatus) {
    status.PendingEndorsement? || status.PendingApproval?
  }

  /** The statuses a new revision supersedes and a cancellation rejects. */
  predicate Live(status: ProposalStatus) {
    Pending(status) || status.Approved?
  }

  predicate ActivePrincipal(principals: map<Id, Principal>, id: Id) {
    id in principals && principals[id].active
  }

  predicate MayApprove(role: Role) {
    role.Approver? || role.Admin?
  }

  function DigestOf(ops: seq<Operation>): Digest {
    Digest(ops)
  }

  function KeyOf(op: Operation): Key {
    Key(op.integration, op.action, op.businessKey)
  }

  function FingerprintOf(op: Operation): Fingerprint {
    Fingerprint(op.integration, op.action, op.target, op.expectedVersion, op.payload)
  }

  /** Every parent recorded for the task is done. */
  predicate ParentsDone(tasks: map<Id, Task>, deps: set<(Id, Id)>, task: Id) {
    forall d | d in deps && d.0 == task :: d.1 in tasks ==> tasks[d.1].status.TaskDone?
  }

  ghost predicate EverApproved(decisions: map<DecisionKey, Decision>, proposal: Id) {
    exists actor :: DecisionKey(proposal, actor, Approve) in decisions
  }

  ghost predicate Endorsed(decisions: map<DecisionKey, Decision>, proposal: Id, actor: Id) {
    DecisionKey(proposal, actor, Endorse) in decisions
  }
}
