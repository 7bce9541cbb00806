/** Agent runs, their leases, the gates they park on and their recovery (agent_runs.go, gates.go, recovery.go).
    Each function is one transaction of one handler; between two of them anything else may happen. */
module Runs {
  import opened Wrappers
  import opened Connectors
  import opened GateSchemas
  import opened Tables
  import opened Proposals

  const MAX_RECOVER_PER_ORG := 20

  /** The token a handler at this point holds, NO_ID when none. */
  function TokenOf(phase: Phase): Id {
    match phase
    case Claimed(token, _) => token
    case Working(token, _, _) => token
    case Failing(token, _, _) => token
    case _ => NO_ID
  }

  function DeadlineOf(phase: Phase): int {
    match phase
    case Claimed(_, deadline) => deadline
    case Working(_, deadline, _) => deadline
    case Failing(_, deadline, _) => deadline
    case _ => 0
  }

  /** How a transaction of a handler ends: its delivery moves on, and its run may become another. */
  function Settle(s: Db, d: Delivery, run: Option<Run>, phase: Phase): Db {
    s.(runs := if run.Some? then s.runs[d.run := run.value] else s.runs,
       deliveries := s.deliveries - multiset{d} + multiset{d.(phase := phase)})
  }

  function Move(s: Db, d: Delivery, phase: Phase): Db {
    Settle(s, d, None, phase)
  }

  // ---- Admission and claiming ----------------------------------------------------------------

  /** CreateAgentRun. `release` is the row the release query returned, `runners` what this binary runs. */
  function CreateRun(
    s: Db, id: Id, task: Id, actor: Id, agent: Id, release: Id, runners: set<string>): Option<Db>
  {
    if agent !in s.agents then None
    else if release !in s.releases then None
    else
      var rel := s.releases[release];
      if !rel.harness || !rel.State().Active? || rel.runner != s.agents[agent].harness then None
      else if rel.runner !in runners then None
      else if !(s.agents[agent].capabilities <= rel.granted) then None
      else if task !in s.tasks then None
      else if s.tasks[task].owner != actor
        && !(ActivePrincipal(s.principals, actor) && s.principals[actor].role.Admin?) then None
      else if !Open(s.tasks[task].status) then None
      else if id == NO_ID || id in s.runs then None
      else
        Some(s.(runs := s.runs[id := Run(task, agent, release, actor, Queued, 0, NO_ID, None, NO_ID, NO_ID, "")],
                deliveries := s.deliveries + multiset{Delivery(id, Idle)}))
  }

  /** The lease outlasts the longest run its runner is allowed by a minute, and is two minutes at least. */
  function LeaseSeconds(budget: int): (seconds: int)
    ensures seconds >= budget + 60 && seconds >= 120
  {
    if budget + 60 < 120 then 120 else budget + 60
  }

  predicate LeaseExpired(run: Run, now: int) {
    run.lease.None? || run.lease.value < now
  }

  predicate Claimable(run: Run, now: int) {
    run.status.Queued? || (run.status.Running? && LeaseExpired(run, now))
  }

  function Taken(run: Run, token: Id, deadline: int): Run {
    run.(status := Running, attempt := run.attempt + 1, token := token, lease := Some(deadline))
  }

  /** The claim transaction of a handler that was just given the delivery. */
  function Claim(s: Db, id: Id, token: Id, budget: int): Db {
    var deadline := s.now + LeaseSeconds(budget);
    var taken := id in s.runs && Claimable(s.runs[id], s.now);
    Settle(s.(issued := if taken then s.issued + {token} else s.issued), Delivery(id, Idle),
           if taken then Some(Taken(s.runs[id], token, deadline)) else None,
           if taken then Claimed(token, deadline) else Peeking)
  }

  /** The second look after nothing was claimable: a running run is retried, any other is acknowledged. */
  function Peek(s: Db, id: Id): Db {
    Move(s, Delivery(id, Peeking), if id !in s.runs || s.runs[id].status.Running? then Idle else Returned)
  }

  /** The queue hands the run out again while the worker that has it lives on. */
  function Redeliver(s: Db, id: Id): Db {
    s.(deliveries := s.deliveries + multiset{Delivery(id, Idle)})
  }

  /** Collecting the context for the runner; it also notes who owns the task now. */
  function Gather(s: Db, d: Delivery, ok: bool): Db
    requires d.phase.Claimed?
  {
    Move(s, d,
         if ok && d.run in s.runs && s.runs[d.run].task in s.tasks
         then Working(d.phase.token, d.phase.deadline, s.tasks[s.runs[d.run].task].owner)
         else Failing(d.phase.token, d.phase.deadline, "internal_error"))
  }

  /** The handler holds the run it works for. */
  predicate Holding(s: Db, d: Delivery) {
    d.run in s.runs && s.runs[d.run].token == TokenOf(d.phase) && s.runs[d.run].status.Running?
  }

  function AsFailed(run: Run, code: string): Run {
    run.(status := Failed, failure := code, token := NO_ID, lease := None)
  }

  /** The runner gave no usable draft. */
  function RunnerFailed(s: Db, d: Delivery, code: string): Db
    requires d.phase.Working?
  {
    Move(s, d, Failing(d.phase.token, d.phase.deadline, if code == "" then "internal_error" else code))
  }

  /** failRun: the update looks at the token only, not at the status. */
  function Fail(s: Db, d: Delivery): Db
    requires d.phase.Failing?
  {
    var mine := d.run in s.runs && s.runs[d.run].token == d.phase.token;
    Settle(s, d, if mine then Some(AsFailed(s.runs[d.run], d.phase.code)) else None, Returned)
  }

  // ---- Parking -------------------------------------------------------------------------------

  predicate PendingFor(gates: map<Id, Gate>, gate: Id, run: Id) {
    gate in gates && gates[gate].run == run && gates[gate].status.GatePending?
  }

  function AsWaiting(run: Run, gate: Id): Run {
    run.(status := Waiting, gate := gate, token := NO_ID, lease := None)
  }

  /** What becomes of a question: the handler lost its run; the question cannot be stored; one that is
      already pending is adopted; or a new row is inserted. */
  datatype Question = Lost | Unusable | Asked(gate: Id) | New(row: Gate)

  /** A question that can be stored: valid, and JSON at all. */
  predicate Usable(schema: Schema) {
    var tag := if schema.Absent? then EmptyObject else schema;
    ValidSchema(tag) && !tag.Blank?
  }

  ghost function Ask(s: Db, d: Delivery, gate: Id, schema: Schema, respondent: Id): Question
    requires d.phase.Working?
  {
    var tag := if schema.Absent? then EmptyObject else schema;
    var asked := if respondent == NO_ID then d.phase.owner else respondent;
    if !Holding(s, d) then Lost
    else if !Usable(schema) then Unusable
    else if g :| PendingFor(s.gates, g, d.run) then Asked(g)
    else if gate in s.gates || gate == NO_ID || asked !in s.principals then Unusable
    else New(Gate(s.runs[d.run].task, d.run, tag, asked, 1, GatePending, NotAnObject, NO_ID))
  }

  ghost function Park(s: Db, d: Delivery, gate: Id, schema: Schema, respondent: Id): Db
    requires d.phase.Working?
  {
    ParkWith(s, d, gate, Ask(s, d, gate, schema, respondent))
  }

  /** The runner asks a question. An unusable schema, or a row the database refuses, is an error that
      goes back to the queue: the delivery is idle again and the run stays as it is. */
  function ParkWith(s: Db, d: Delivery, gate: Id, q: Question): Db
    requires q.New? || q.Asked? ==> d.run in s.runs
  {
    Settle(s.(gates := if q.New? then s.gates[gate := q.row] else s.gates), d,
           if q.New? then Some(AsWaiting(s.runs[d.run], gate))
           else if q.Asked? then Some(AsWaiting(s.runs[d.run], q.gate)) else None,
           if q.Unusable? then Idle else Returned)
  }

  // ---- Publishing ----------------------------------------------------------------------------

  /** What becomes of a draft: the handler lost its run; the task is not there; the failure is recorded
      in this transaction; the transaction is aborted and the failure left to a second one; or the
      proposal is created. */
  datatype Publication =
    | Gone
    | TaskUnread
    | Recorded(code: string)
    | Aborted(code: string)
    | Made(proposals: map<Id, Proposal>, keys: map<Key, KeyRow>)

  ghost function Judge(s: Db, d: Delivery, pid: Id, draft: seq<Operation>, ids: seq<Id>): Publication
    requires d.phase.Working? && |ids| == |draft|
  {
    if !Holding(s, d) then Gone
    else
      var run := s.runs[d.run];
      if run.task !in s.tasks then TaskUnread
      else if !Open(s.tasks[run.task].status) then Recorded("task_no_longer_active")
      else if run.release !in s.releases || !s.releases[run.release].State().Active? then Recorded("internal_error")
      else if !ActivePrincipal(s.principals, d.phase.owner) || !ActivePrincipal(s.principals, run.createdBy)
        then Recorded("actor_revoked")
      else
        match CreateProposal(s, pid, run.task, d.phase.owner, d.run, draft, ids)
        case Err(e) => Aborted(PublicFailure(e))
        case Ok(t) => Made(t.proposals, t.keys)
  }

  function AsPublished(run: Run, pid: Id): Run {
    run.(status := Succeeded, proposal := pid, token := NO_ID, lease := None)
  }

  ghost function Publish(s: Db, d: Delivery, pid: Id, draft: seq<Operation>, ids: seq<Id>): Db
    requires d.phase.Working? && |ids| == |draft|
  {
    PublishWith(s, d, pid, Judge(s, d, pid, draft, ids))
  }

  /** The runner returned a draft. */
  function PublishWith(s: Db, d: Delivery, pid: Id, p: Publication): Db
    requires d.phase.Working? && (p.Made? || p.Recorded? ==> d.run in s.runs)
  {
    Settle(s.(proposals := if p.Made? then p.proposals else s.proposals,
              keys := if p.Made? then p.keys else s.keys), d,
           if p.Made? then Some(AsPublished(s.runs[d.run], pid))
           else if p.Recorded? then Some(AsFailed(s.runs[d.run], p.code)) else None,
           if p.TaskUnread? then Idle
           else if p.Aborted? then Failing(d.phase.token, d.phase.deadline, p.code) else Returned)
  }

  // ---- Answers, recovery, cancellation -------------------------------------------------------

  function Resumed(run: Run): Run {
    run.(status := Queued, token := NO_ID, lease := None)
  }

  function ResolveGate(s: Db, gate: Id, actor: Id, revision: int, response: Response): Option<Db> {
    if gate !in s.gates then None
    else
      var g := s.gates[gate];
      if !ActivePrincipal(s.principals, actor) || g.respondent != actor then None
      else if g.status.GateResolved? then
        if g.respondedBy == actor && SameAnswer(g.response, response) then Some(s) else None
      else if !g.status.GatePending? || g.revision != revision || !ValidResponse(g.schema, response) then None
      else
        var resumes := g.run in s.runs && s.runs[g.run].status.Waiting? && s.runs[g.run].gate == gate;
        Some(s.(gates := s.gates[gate := g.(status := GateResolved, response := response, respondedBy := actor)],
                runs := if resumes then s.runs[g.run := Resumed(s.runs[g.run])] else s.runs,
                deliveries := if resumes then s.deliveries + multiset{Delivery(g.run, Idle)} else s.deliveries))
  }

  predicate Eligible(s: Db, id: Id) {
    && id in s.runs
    && s.runs[id].status.Running?
    && LeaseExpired(s.runs[id], s.now)
    && s.runs[id].task in s.tasks
    && Open(s.tasks[s.runs[id].task].status)
  }

  predicate NotLater(a: Option<int>, b: Option<int>) {
    a.None? || (b.Some? && a.value <= b.value)
  }

  function EligibleRuns(s: Db): set<Id> {
    set id | id in s.runs && Eligible(s, id)
  }

  /** The first `limit` eligible runs by the end of their lease; ties are broken either way. */
  predicate FirstEligible(s: Db, limit: int, chosen: set<Id>) {
    var most := if limit <= 0 then MAX_RECOVER_PER_ORG else limit;
    && chosen <= EligibleRuns(s)
    && |chosen| == (if |EligibleRuns(s)| <= most then |EligibleRuns(s)| else most)
    && forall a, b | a in chosen && b in EligibleRuns(s) - chosen ::
         NotLater(s.runs[a].lease, s.runs[b].lease)
  }

  function Continuations(ids: set<Id>): multiset<Delivery> {
    multiset(set id | id in ids :: Delivery(id, Idle))
  }

  function Reclaim(s: Db, chosen: set<Id>): Db {
    s.(runs := map id | id in s.runs ::
         if id in chosen then Resumed(s.runs[id]).(attempt := s.runs[id].attempt + 1) else s.runs[id],
       deliveries := s.deliveries + Continuations(chosen))
  }

  predicate LiveRun(status: RunStatus) {
    status.Queued? || status.Running? || status.Waiting?
  }

  function CancelGates(gates: map<Id, Gate>, task: Id): map<Id, Gate> {
    map g | g in gates ::
      if gates[g].task == task && gates[g].status.GatePending? then gates[g].(status := GateCancelled) else gates[g]
  }

  function CancelRuns(runs: map<Id, Run>, task: Id): map<Id, Run> {
    map r | r in runs ::
      if runs[r].task == task && LiveRun(runs[r].status)
      then runs[r].(status := RunCancelled, token := NO_ID, lease := None) else runs[r]
  }

  // ---- What the tables keep ------------------------------------------------------------------

  /** A run has a claim token exactly while it is running, and then a lease too. */
  ghost predicate TokensOk(runs: map<Id, Run>) {
    forall r | r in runs :: r != NO_ID && (runs[r].token != NO_ID <==> runs[r].status.Running?)
      && (runs[r].status.Running? ==> runs[r].lease.Some?)
  }

  /** This delivery keeps the run from being stranded. */
  ghost predicate Witness(id: Id, run: Run, d: Delivery) {
    && d.run == id
    && (run.status.Queued? ==> d.phase.Idle?)
    && (run.status.Running? ==> d.phase.Idle? || d.phase.Peeking? || TokenOf(d.phase) == run.token)
  }

  ghost predicate Accounted(id: Id, run: Run, deliveries: multiset<Delivery>) {
    run.status.Queued? || run.status.Running? ==> exists d :: d in deliveries && Witness(id, run, d)
  }

  /** No run is lost: a queued one has a delivery that has not yet tried its claim, a running one an
      unacknowledged delivery that either holds it or will look at it again. */
  ghost predicate NoRunLost(runs: map<Id, Run>, deliveries: multiset<Delivery>) {
    forall r | r in runs :: Accounted(r, runs[r], deliveries)
  }

  /** Tokens are never reissued, and no two handlers hold the same one. */
  ghost predicate HoldersOk(runs: map<Id, Run>, deliveries: multiset<Delivery>, issued: set<Id>) {
    && NO_ID !in issued
    && (forall r | r in runs && runs[r].status.Running? :: runs[r].token in issued)
    && (forall d | d in deliveries && TokenOf(d.phase) != NO_ID :: TokenOf(d.phase) in issued && deliveries[d] == 1)
    && (forall d, e | d in deliveries && e in deliveries && TokenOf(d.phase) != NO_ID
          && TokenOf(d.phase) == TokenOf(e.phase) ::
          d == e)
    && (forall d | d in deliveries && (d.phase.Claimed? || d.phase.Working? || d.phase.Failing?) ::
          TokenOf(d.phase) != NO_ID && d.run in runs)
  }

  /** A handler keeps its run until its lease ends, unless the task is cancelled. */
  ghost predicate LeaseOk(runs: map<Id, Run>, d: Delivery, now: int) {
    TokenOf(d.phase) != NO_ID && d.run in runs ==>
      && (runs[d.run].token == TokenOf(d.phase) ==> runs[d.run].lease == Some(DeadlineOf(d.phase)))
      && (now <= DeadlineOf(d.phase) ==> runs[d.run].token == TokenOf(d.phase) || runs[d.run].status.RunCancelled?)
  }

  ghost predicate LeasesOk(runs: map<Id, Run>, deliveries: multiset<Delivery>, now: int) {
    forall d | d in deliveries :: LeaseOk(runs, d, now)
  }

  /** Pending gates and waiting runs correspond one to one, every gate can be answered, and the recorded
      answers are valid ones of their respondents. */
  ghost predicate GatesOk(runs: map<Id, Run>, gates: map<Id, Gate>) {
    && (forall g | g in gates && gates[g].status.GatePending? ::
          && gates[g].run in runs
          && runs[gates[g].run].status.Waiting?
          && runs[gates[g].run].gate == g
          && runs[gates[g].run].task == gates[g].task)
    && (forall r | r in runs && runs[r].status.Waiting? :: PendingFor(gates, runs[r].gate, r))
    && (forall g | g in gates :: ValidSchema(gates[g].schema) && !gates[g].schema.Blank? && gates[g].revision == 1)
    && (forall g | g in gates && gates[g].status.GateResolved? ::
          gates[g].respondedBy == gates[g].respondent && ValidResponse(gates[g].schema, gates[g].response))
  }

  /** A cancelled task has no live run. */
  ghost predicate RunTasksOk(tasks: map<Id, Task>, runs: map<Id, Run>) {
    forall r | r in runs ::
      runs[r].task in tasks && (LiveRun(runs[r].status) ==> !tasks[runs[r].task].status.TaskCancelled?)
  }

  /** A run that published names its one proposal, and no other run has any. */
  ghost predicate OriginsOk(proposals: map<Id, Proposal>, runs: map<Id, Run>) {
    && (forall p | p in proposals && proposals[p].originRun != NO_ID ::
          && proposals[p].originRun in runs
          && runs[proposals[p].originRun].status.Succeeded?
          && runs[proposals[p].originRun].proposal == p)
    && (forall r | r in runs && runs[r].status.Succeeded? ::
          && runs[r].proposal in proposals
          && proposals[runs[r].proposal].originRun == r
          && proposals[runs[r].proposal].task == runs[r].task)
  }

  ghost predicate RunsOk(s: Db) {
    && TokensOk(s.runs)
    && NoRunLost(s.runs, s.deliveries)
    && HoldersOk(s.runs, s.deliveries, s.issued)
    && LeasesOk(s.runs, s.deliveries, s.now)
    && GatesOk(s.runs, s.gates)
    && RunTasksOk(s.tasks, s.runs)
    && OriginsOk(s.proposals, s.runs)
  }

  /** Replacing one delivery strands no run for which it was not needed. */
  lemma MoveKeepsAccounted(id: Id, run: Run, deliveries: multiset<Delivery>, d: Delivery, e: Delivery)
    requires Accounted(id, run, deliveries) && d in deliveries
    requires Witness(id, run, d) ==> Witness(id, run, e)
    ensures Accounted(id, run, deliveries - multiset{d} + multiset{e})
  {
    var after := deliveries - multiset{d} + multiset{e};
    if run.status.Queued? || run.status.Running? {
      var w :| w in deliveries && Witness(id, run, w);
      assert e in after;
      assert w == d || w in after;
    }
  }

  /** The tables after one handler moved from d to `phase` and its run became `run`. */
  lemma HandlerKeepsDeliveries(s: Db, d: Delivery, phase: Phase, run: Run)
    requires d in s.deliveries && d.run in s.runs
    requires NoRunLost(s.runs, s.deliveries)
    requires Accounted(d.run, run, s.deliveries - multiset{d} + multiset{d.(phase := phase)})
    ensures NoRunLost(s.runs[d.run := run], s.deliveries - multiset{d} + multiset{d.(phase := phase)})
  {
    forall r | r in s.runs && r != d.run
      ensures Accounted(r, s.runs[r], s.deliveries - multiset{d} + multiset{d.(phase := phase)})
    {
      MoveKeepsAccounted(r, s.runs[r], s.deliveries, d, d.(phase := phase));
    }
  }
}
