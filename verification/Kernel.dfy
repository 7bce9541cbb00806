/** The whole state machine of one organisation: every transaction as one step, in any order. */
module Kernel {
  import opened Wrappers
  import opened Connectors
  import opened GateSchemas
  import opened Tables
  import opened Proposals
  import opened Decisions
  import opened Execution
  import opened Runs
  import opened RunInvariants
  import opened Graph
  import H = Handoffs
  import R = Releases

  // ---- The remaining transactions ------------------------------------------------------------

  function CreateTask(s: Db, id: Id, owner: Id, assignee: Id): Option<Db> {
    if id in s.tasks then None else Some(s.(tasks := s.tasks[id := Task(Draft, owner, assignee, 1)]))
  }

  function AddRecord(s: Db, id: Id, integration: string, data: Data): Option<Db> {
    if id in s.records then None else Some(s.(records := s.records[id := Record(integration, 1, data)]))
  }

  function CreateAgent(s: Db, id: Id, agent: Agent): Option<Db> {
    if id in s.agents then None else Some(s.(agents := s.agents[id := agent]))
  }

  ghost function AddDependency(s: Db, task: Id, parent: Id): Option<Db> {
    if task == parent || task !in s.tasks || parent !in s.tasks || Reaches(s.deps, parent, task) then None
    else Some(s.(deps := s.deps + {(task, parent)}))
  }

  function RejectLive(proposals: map<Id, Proposal>, task: Id): map<Id, Proposal> {
    map p | p in proposals ::
      if proposals[p].task == task && (Live(proposals[p].status) || proposals[p].status.Executing?)
      then proposals[p].(status := Rejected) else proposals[p]
  }

  /** A cancelled task may be cancelled again; only a done one may not. */
  function CancelTask(s: Db, task: Id, version: int): Option<Db> {
    if task !in s.tasks || s.tasks[task].version != version || s.tasks[task].status.TaskDone? then None
    else
      Some(s.(tasks := s.tasks[task := s.tasks[task].(status := TaskCancelled, version := version + 1)],
              proposals := RejectLive(s.proposals, task),
              gates := CancelGates(s.gates, task),
              runs := CancelRuns(s.runs, task)))
  }

  // ---- Steps ---------------------------------------------------------------------------------

  /** Time passes; people, agents, tasks and records are administered. */
  datatype AdminStep =
    | Tick(seconds: nat)
    | SetPrincipal(id: Id, principal: Principal)
    | NewAgent(id: Id, agent: Agent)
    | NewTask(id: Id, owner: Id, assignee: Id)
    | NewRecord(id: Id, integration: string, data: Data)
    | Depend(task: Id, parent: Id)
    | Cancel(task: Id, version: int)

  /** Releases and handoffs. */
  datatype OfficeStep =
    | Submit(id: Id, family: string, harness: bool, runner: string, requested: set<string>)
    | Transition(id: Id, authority: Role, target: ReleaseState, expected: int)
    | Grant(id: Id, authority: Role, caps: set<string>, expected: int)
    | Offer(id: Id, task: Id, actor: Id, recipient: Id, role: HandoffRole, expiresAt: int)
    | Expire(due: set<Id>)
    | Accept(id: Id, actor: Id)
    | Reply(id: Id, actor: Id, state: HandoffState)

  /** Proposals, decisions, and the worker that executes them: it applies a job or records its failure,
      and dies before or after its acknowledgement, or goes on while the job is handed out again. */
  datatype WorkStep =
    | Propose(pid: Id, task: Id, actor: Id, draft: seq<Operation>, ids: seq<Id>)
    | MakeDecision(pid: Id, actor: Id, kind: DecisionKind, revision: int, digest: Digest)
    | Execute(pid: Id, order: seq<Id>, acknowledged: bool)
    | MarkFailed(pid: Id, acknowledged: bool)
    | CrashExecution(pid: Id)
    | DuplicateJob(pid: Id)

  /** The transactions of a run's handler, wherever it stands. It may die and its delivery be handed out
      again (Retry), or live on beside the handler of the second delivery (HandOutAgain). */
  datatype HandlerStep =
    | ClaimRun(id: Id, token: Id, budget: int)
    | PeekRun(id: Id)
    | GatherContext(d: Delivery, ok: bool)
    | RunnerFails(d: Delivery, code: string)
    | FailRun(d: Delivery)
    | ParkRun(d: Delivery, gate: Id, schema: Schema, respondent: Id)
    | Retry(d: Delivery)
    | HandOutAgain(d: Delivery)
    | Acknowledge(d: Delivery)

  /** Admission, publication, answers and recovery. */
  datatype RunStep =
    | StartRun(id: Id, task: Id, actor: Id, agent: Id, release: Id, runners: set<string>)
    | PublishRun(d: Delivery, pid: Id, draft: seq<Operation>, ids: seq<Id>)
    | Answer(gate: Id, actor: Id, revision: int, response: Response)
    | Sweep(limit: int, chosen: set<Id>)

  datatype Step =
    | Admin(admin: AdminStep)
    | Office(office: OfficeStep)
    | Work(work: WorkStep)
    | Handler(handler: HandlerStep)
    | Fleet(run: RunStep)

  /** A refused transaction is rolled back. */
  function OrElse(t: Option<Db>, s: Db): Db {
    if t.Some? then t.value else s
  }

  ghost function AdminNext(s: Db, step: AdminStep): Db {
    match step
    case Tick(seconds) => s.(now := s.now + seconds)
    case SetPrincipal(id, principal) => s.(principals := s.principals[id := principal])
    case NewAgent(id, agent) => OrElse(CreateAgent(s, id, agent), s)
    case NewTask(id, owner, assignee) => OrElse(CreateTask(s, id, owner, assignee), s)
    case NewRecord(id, integration, data) => OrElse(AddRecord(s, id, integration, data), s)
    case Depend(task, parent) => OrElse(AddDependency(s, task, parent), s)
    case Cancel(task, version) => OrElse(CancelTask(s, task, version), s)
  }

  function OfficeNext(s: Db, step: OfficeStep): Db {
    match step
    case Submit(id, family, harness, runner, requested) =>
      OrElse(R.Submit(s, id, family, harness, runner, requested), s)
    case Transition(id, role, target, expected) => OrElse(R.Transition(s, id, role, target, expected), s)
    case Grant(id, role, caps, expected) => OrElse(R.Grant(s, id, role, caps, expected), s)
    case Offer(id, task, actor, recipient, role, expiresAt) =>
      OrElse(H.Offer(s, id, task, actor, recipient, role, expiresAt), s)
    case Expire(due) => H.ExpireDue(s, due)
    case Accept(id, actor) => OrElse(H.Accept(s, id, actor), s)
    case Reply(id, actor, state) => OrElse(H.Reply(s, id, actor, state), s)
  }

  ghost predicate WorkEnabled(s: Db, step: WorkStep) {
    match step
    case Propose(_, _, _, draft, ids) => |ids| == |draft|
    case MakeDecision(_, _, _, _, _) => true
    case Execute(pid, order, _) => Job(pid, Delivered) in s.jobs && IsOrder(s.effects, pid, order)
    case MarkFailed(pid, _) => Job(pid, ToMark) in s.jobs
    case CrashExecution(pid) => Job(pid, ToMark) in s.jobs
    case DuplicateJob(pid) => HasJob(s.jobs, pid)
  }

  ghost function WorkNext(s: Db, step: WorkStep): Db
    requires WorkEnabled(s, step)
  {
    match step
    case Propose(pid, task, actor, draft, ids) =>
      var made := CreateProposal(s, pid, task, actor, NO_ID, draft, ids);
      if made.Ok? then made.value else s
    case MakeDecision(pid, actor, kind, revision, digest) => OrElse(Decide(s, pid, actor, kind, revision, digest), s)
    case Execute(pid, order, acknowledged) => RunJob(s, pid, order, acknowledged)
    case MarkFailed(pid, acknowledged) => MarkJob(s, pid, acknowledged)
    case CrashExecution(pid) => CrashJob(s, pid)
    case DuplicateJob(pid) => RedeliverJob(s, pid)
  }

  ghost predicate HandlerEnabled(s: Db, step: HandlerStep) {
    match step
    case ClaimRun(id, token, _) => Delivery(id, Idle) in s.deliveries && token != NO_ID && token !in s.issued
    case PeekRun(id) => Delivery(id, Peeking) in s.deliveries
    case GatherContext(d, _) => d in s.deliveries && d.phase.Claimed?
    case RunnerFails(d, _) => d in s.deliveries && d.phase.Working?
    case FailRun(d) => d in s.deliveries && d.phase.Failing?
    case ParkRun(d, _, _, _) => d in s.deliveries && d.phase.Working?
    case Retry(d) => d in s.deliveries
    case HandOutAgain(d) => d in s.deliveries
    case Acknowledge(d) => d in s.deliveries && d.phase.Returned?
  }

  ghost function HandlerNext(s: Db, step: HandlerStep): Db
    requires HandlerEnabled(s, step)
  {
    match step
    case ClaimRun(id, token, budget) => Claim(s, id, token, budget)
    case PeekRun(id) => Peek(s, id)
    case GatherContext(d, ok) => Gather(s, d, ok)
    case RunnerFails(d, code) => RunnerFailed(s, d, code)
    case FailRun(d) => Fail(s, d)
    case ParkRun(d, gate, schema, respondent) => Park(s, d, gate, schema, respondent)
    case Retry(d) => Move(s, d, Idle)
    case HandOutAgain(d) => Redeliver(s, d.run)
    case Acknowledge(d) => s.(deliveries := s.deliveries - multiset{d})
  }

  ghost predicate RunEnabled(s: Db, step: RunStep) {
    match step
    case PublishRun(d, _, draft, ids) =>
      d in s.deliveries && d.phase.Working? && draft != [] && |ids| == |draft|
    case Sweep(limit, chosen) => FirstEligible(s, limit, chosen)
    case _ => true
  }

  ghost function RunNext(s: Db, step: RunStep): Db
    requires RunEnabled(s, step)
  {
    match step
    case StartRun(id, task, actor, agent, release, runners) =>
      OrElse(CreateRun(s, id, task, actor, agent, release, runners), s)
    case PublishRun(d, pid, draft, ids) => Publish(s, d, pid, draft, ids)
    case Answer(gate, actor, revision, response) => OrElse(ResolveGate(s, gate, actor, revision, response), s)
    case Sweep(_, chosen) => Reclaim(s, chosen)
  }

  /** A step can be taken only where the handler that takes it stands. */
  ghost predicate Enabled(s: Db, step: Step) {
    match step
    case Admin(_) => true
    case Office(_) => true
    case Work(work) => WorkEnabled(s, work)
    case Handler(handler) => HandlerEnabled(s, handler)
    case Fleet(run) => RunEnabled(s, run)
  }

  ghost function Next(s: Db, step: Step): Db
    requires Enabled(s, step)
  {
    match step
    case Admin(admin) => AdminNext(s, admin)
    case Office(office) => OfficeNext(s, office)
    case Work(work) => WorkNext(s, work)
    case Handler(handler) => HandlerNext(s, handler)
    case Fleet(run) => RunNext(s, run)
  }

  /** A run of the platform: each step enabled where it is taken. */
  ghost predicate Reachable(s: Db, steps: seq<Step>, t: Db)
    decreases |steps|
  {
    if steps == [] then t == s
    else Enabled(s, steps[0]) && Reachable(Next(s, steps[0]), steps[1..], t)
  }
}
