/** What one step leaves alone: everything but the rows of a single task. */
module Frames {
  import opened Wrappers
  import opened Connectors
  import opened GateSchemas
  import opened Tables
  import opened Proposals
  import opened Decisions
  import opened Execution
  import opened Runs
  import opened RunInvariants
  import opened Kernel
  import opened Invariant
  import opened Monotone
  import H = Handoffs
  import R = Releases

  // ---- One task at a time --------------------------------------------------------------------

  ghost predicate TasksOnly(tasks: map<Id, Task>, after: map<Id, Task>, task: Id) {
    forall k | k in after && k != task :: k in tasks && after[k] == tasks[k]
  }

  ghost predicate ProposalsOnly(proposals: map<Id, Proposal>, after: map<Id, Proposal>, task: Id) {
    forall p | p in after && after[p].task != task :: p in proposals && after[p] == proposals[p]
  }

  predicate IsOf(proposals: map<Id, Proposal>, p: Id, task: Id) {
    p in proposals && proposals[p].task == task
  }

  /** Keys that are new or changed are bound to a proposal of the task. */
  ghost predicate KeysOnly(
    keys: map<Key, KeyRow>, after: map<Key, KeyRow>, proposals: map<Id, Proposal>, task: Id)
  {
    forall k | k in after && !(k in keys && after[k] == keys[k]) :: IsOf(proposals, after[k].proposal, task)
  }

  ghost predicate EffectsOnly(
    effects: map<EffectKey, Effect>, after: map<EffectKey, Effect>, proposals: map<Id, Proposal>, task: Id)
  {
    forall e | e in after && !(e in effects && after[e] == effects[e]) :: IsOf(proposals, e.proposal, task)
  }

  ghost predicate RunsOnly(runs: map<Id, Run>, after: map<Id, Run>, task: Id) {
    forall r | r in after && after[r].task != task :: r in runs && after[r] == runs[r]
  }

  ghost predicate GatesOnly(gates: map<Id, Gate>, after: map<Id, Gate>, task: Id) {
    forall g | g in after && after[g].task != task :: g in gates && after[g] == gates[g]
  }

  /** New and changed rows belong to this task. (Rows are never removed: Monotone.StepForward.) */
  ghost predicate OnlyTask(s: Db, t: Db, task: Id) {
    && TasksOnly(s.tasks, t.tasks, task)
    && ProposalsOnly(s.proposals, t.proposals, task)
    && KeysOnly(s.keys, t.keys, t.proposals, task)
    && EffectsOnly(s.effects, t.effects, t.proposals, task)
    && RunsOnly(s.runs, t.runs, task)
    && GatesOnly(s.gates, t.gates, task)
  }

  /** Handoffs and decisions are as they were. */
  ghost predicate SameElsewhere(s: Db, t: Db) {
    t.handoffs == s.handoffs && t.decisions == s.decisions
  }

  function ProposalTask(s: Db, p: Id): Id {
    if p in s.proposals then s.proposals[p].task else NO_ID
  }

  function RunTask(s: Db, r: Id): Id {
    if r in s.runs then s.runs[r].task else NO_ID
  }

  /** The task a step is about, NO_ID when it is about none. */
  function TaskOf(s: Db, step: Step): Id {
    match step
    case Admin(NewTask(id, _, _)) => id
    case Admin(Cancel(task, _)) => task
    case Office(Accept(id, _)) => if id in s.handoffs then s.handoffs[id].task else NO_ID
    case Work(Propose(_, task, _, _, _)) => task
    case Work(MakeDecision(pid, _, _, _, _)) => ProposalTask(s, pid)
    case Work(Execute(pid, _, _)) => ProposalTask(s, pid)
    case Work(MarkFailed(pid, _)) => ProposalTask(s, pid)
    case Handler(ClaimRun(id, _, _)) => RunTask(s, id)
    case Handler(FailRun(d)) => RunTask(s, d.run)
    case Handler(ParkRun(d, _, _, _)) => RunTask(s, d.run)
    case Fleet(StartRun(_, task, _, _, _, _)) => task
    case Fleet(PublishRun(d, _, _, _)) => RunTask(s, d.run)
    case Fleet(Answer(gate, _, _, _)) => if gate in s.gates then s.gates[gate].task else NO_ID
    case _ => NO_ID
  }

  /** What a step does not touch is of no task. */
  lemma Untouched(s: Db, t: Db, task: Id)
    ensures t.tasks == s.tasks ==> TasksOnly(s.tasks, t.tasks, task)
    ensures t.proposals == s.proposals ==> ProposalsOnly(s.proposals, t.proposals, task)
    ensures t.keys == s.keys ==> KeysOnly(s.keys, t.keys, t.proposals, task)
    ensures t.effects == s.effects ==> EffectsOnly(s.effects, t.effects, t.proposals, task)
    ensures t.runs == s.runs ==> RunsOnly(s.runs, t.runs, task)
    ensures t.gates == s.gates ==> GatesOnly(s.gates, t.gates, task)
  {
  }

  /** One run changes and goes on being for its task. */
  lemma OneRun(runs: map<Id, Run>, id: Id, run: Run)
    requires id in runs && run.task == runs[id].task
    ensures RunsOnly(runs, runs[id := run], run.task)
  {
  }

  lemma CancelFrame(s: Db, t: Db, task: Id, version: int)
    requires CancelTask(s, task, version) == Some(t)
    ensures OnlyTask(s, t, task) && SameElsewhere(s, t)
  {
  }

  lemma CreatedFrame(s: Db, t: Db, pid: Id, task: Id, actor: Id, origin: Id, draft: seq<Operation>, ids: seq<Id>)
    requires |ids| == |draft| && CreateProposal(s, pid, task, actor, origin, draft, ids) == Ok(t)
    ensures ProposalsOnly(s.proposals, t.proposals, task) && KeysOnly(s.keys, t.keys, t.proposals, task)
    ensures EffectsOnly(s.effects, s.effects, t.proposals, task)
  {
    hide FirstFault, ReserveAll, Revisions, Greatest, Rebindable;
    var ops := WithIds(draft, ids);
    var row := NewRow(s, task, actor, origin, ops);
    assert t.proposals == Supersede(s.proposals, task)[pid := row];
    ReserveAllEffect(t.proposals, s.keys, pid, ops);
  }

  lemma {:induction false} InsertedFrame(
    effects: map<EffectKey, Effect>, keys: map<Key, KeyRow>, pid: Id, ops: seq<Operation>)
    ensures var after := InsertEffects(effects, keys, pid, ops);
      forall e | e in after :: e.proposal == pid || (e in effects && after[e] == effects[e])
    decreases |ops|
  {
    if ops != [] {
      var more := if EffectConflict(effects, keys, pid, ops[0]) then effects
                  else effects[EffectKey(pid, ops[0].id) := Effect(ops[0], Authorized)];
      InsertedFrame(more, keys, pid, ops[1..]);
    }
  }

  lemma SettledKeysFrame(keys: map<Key, KeyRow>, proposals: map<Id, Proposal>, pid: Id, task: Id)
    requires IsOf(proposals, pid, task)
    ensures KeysOnly(keys, keys, proposals, task)
    ensures KeysOnly(keys, Dispatch(keys, pid), proposals, task)
    ensures KeysOnly(keys, ReleaseKeys(keys, pid), proposals, task)
    ensures KeysOnly(keys, VerifyKeys(keys, pid), proposals, task)
  {
  }

  lemma SettledEffectsFrame(effects: map<EffectKey, Effect>, proposals: map<Id, Proposal>, pid: Id, task: Id)
    requires IsOf(proposals, pid, task)
    ensures forall state :: EffectsOnly(effects, VerifyEffects(effects, pid, state), proposals, task)
  {
  }

  lemma StatusFrame(proposals: map<Id, Proposal>, pid: Id)
    requires pid in proposals
    ensures forall status :: var after := SetStatus(proposals, pid, status);
      ProposalsOnly(proposals, after, proposals[pid].task) && IsOf(after, pid, proposals[pid].task)
  {
  }

  lemma BlockFrame(tasks: map<Id, Task>, task: Id)
    ensures TasksOnly(tasks, Finish(tasks, task), task)
    ensures forall bump :: TasksOnly(tasks, Block(tasks, task, bump), task)
  {
  }

  lemma DecidedFrame(s: Db, t: Db, pid: Id, actor: Id, kind: DecisionKind, revision: int, digest: Digest)
    requires Decide(s, pid, actor, kind, revision, digest) == Some(t)
    ensures pid in s.proposals && OnlyTask(s, t, s.proposals[pid].task) && t.handoffs == s.handoffs
    ensures Settles(s.proposals, t.proposals)
  {
    hide OnlyTask, Settles, WithDecision;
    if DecisionKey(pid, actor, kind) in s.decisions {
      SameFrame(s, t, s.proposals[pid].task);
    } else {
      RecordedFrame(s, t, pid, actor, kind, revision, digest);
    }
  }

  lemma RecordedFrame(s: Db, t: Db, pid: Id, actor: Id, kind: DecisionKind, revision: int, digest: Digest)
    requires actor in s.principals && pid in s.proposals
    requires t == WithDecision(s, pid, actor, kind, revision, digest)
    ensures OnlyTask(s, t, s.proposals[pid].task) && t.handoffs == s.handoffs
    ensures Settles(s.proposals, t.proposals)
  {
    hide InsertEffects, Dispatch, ReleaseKeys, ProposalsOnly, KeysOnly, IsOf, SetStatus, Settles, TasksOnly, RunsOnly,
      GatesOnly, EffectsOnly;
    var task := s.proposals[pid].task;
    Untouched(s, t, task);
    StatusFrame(s.proposals, pid);
    StatusSettles(s.proposals, pid);
    SettledKeysFrame(s.keys, t.proposals, pid, task);
    ApprovedEffectsFrame(s, t.proposals, pid, task);
  }

  lemma ApprovedEffectsFrame(s: Db, proposals: map<Id, Proposal>, pid: Id, task: Id)
    requires IsOf(proposals, pid, task) && pid in s.proposals
    ensures EffectsOnly(s.effects, InsertEffects(s.effects, s.keys, pid, s.proposals[pid].ops), proposals, task)
  {
    hide InsertEffects, IsOf;
    InsertedFrame(s.effects, s.keys, pid, s.proposals[pid].ops);
  }

  /** The proposals stay the same ones, and none becomes superseded. */
  ghost predicate Settles(proposals: map<Id, Proposal>, after: map<Id, Proposal>) {
    && after.Keys == proposals.Keys
    && (forall p | p in proposals && after[p].status.Superseded? :: proposals[p].status.Superseded?)
  }

  lemma SameSettles(proposals: map<Id, Proposal>)
    ensures Settles(proposals, proposals)
  {
  }

  lemma StatusSettles(proposals: map<Id, Proposal>, pid: Id)
    requires pid in proposals
    ensures forall status: ProposalStatus | !status.Superseded? || status == proposals[pid].status ::
      Settles(proposals, SetStatus(proposals, pid, status))
  {
  }

  lemma CommitFrame(s: Db, t: Db, pid: Id, records: map<Id, Record>, receipts: seq<Receipt>)
    requires pid in s.proposals && t == Commit(s, pid, records, receipts)
    ensures OnlyTask(s, t, s.proposals[pid].task) && SameElsewhere(s, t) && Settles(s.proposals, t.proposals)
  {
    hide Finish, VerifyEffects, VerifyKeys, SetStatus, Woken, Deliveries, TasksOnly, ProposalsOnly, KeysOnly,
      EffectsOnly, RunsOnly, GatesOnly, IsOf, Settles;
    var task := s.proposals[pid].task;
    Untouched(s, t, task);
    BlockFrame(s.tasks, task);
    StatusFrame(s.proposals, pid);
    StatusSettles(s.proposals, pid);
    SettledKeysFrame(s.keys, t.proposals, pid, task);
    SettledEffectsFrame(s.effects, t.proposals, pid, task);
  }

  lemma SetBackFrame(s: Db, t: Db, pid: Id)
    requires pid in s.proposals && t == SetBack(s, pid)
    ensures OnlyTask(s, t, s.proposals[pid].task) && SameElsewhere(s, t) && Settles(s.proposals, t.proposals)
  {
    hide Block, Blocking, SetStatus, TasksOnly, ProposalsOnly, KeysOnly, EffectsOnly, RunsOnly, GatesOnly, IsOf,
      Settles;
    var task := s.proposals[pid].task;
    Untouched(s, t, task);
    BlockFrame(s.tasks, task);
    StatusFrame(s.proposals, pid);
    StatusSettles(s.proposals, pid);
    SameSettles(s.proposals);
  }

  lemma MarkFrame(s: Db, t: Db, pid: Id)
    requires t == Mark(s, pid)
    ensures OnlyTask(s, t, ProposalTask(s, pid)) && SameElsewhere(s, t) && Settles(s.proposals, t.proposals)
  {
    hide Block, VerifyEffects, SetStatus, TasksOnly, ProposalsOnly, KeysOnly, EffectsOnly, RunsOnly, GatesOnly, IsOf,
      Settles;
    var task := ProposalTask(s, pid);
    Untouched(s, t, task);
    SameSettles(s.proposals);
    if pid in s.proposals {
      BlockFrame(s.tasks, task);
      StatusFrame(s.proposals, pid);
      StatusSettles(s.proposals, pid);
      SettledEffectsFrame(s.effects, t.proposals, pid, task);
    }
  }

  lemma AppliedFrame(s: Db, t: Db, pid: Id, order: seq<Id>)
    requires forall i | 0 <= i < |order| :: EffectKey(pid, order[i]) in s.effects
    requires Apply(s, pid, order) == Handled(t)
    ensures OnlyTask(s, t, ProposalTask(s, pid)) && SameElsewhere(s, t) && Settles(s.proposals, t.proposals)
  {
    hide SetBack, Commit, ApplyOps, Permitted, OnlyTask, Settles;
    SameFrame(s, s, ProposalTask(s, pid));
    if s.proposals[pid].status.Approved? || s.proposals[pid].status.Executing? {
      if Permitted(s, s.proposals[pid].task, pid) {
        var out := ApplyOps(s.records, pid, OpsInOrder(s.effects, pid, order));
        CommitFrame(s, t, pid, out.records, out.receipts);
      } else {
        SetBackFrame(s, t, pid);
      }
    }
  }

  /** The tables that belong to tasks are as they were. */
  ghost predicate SameTables(s: Db, t: Db) {
    && t.tasks == s.tasks && t.proposals == s.proposals && t.keys == s.keys && t.effects == s.effects
    && t.runs == s.runs && t.gates == s.gates && t.decisions == s.decisions
  }

  lemma SameItself(s: Db)
    ensures SameTables(s, s)
  {
  }

  lemma SameFrame(s: Db, t: Db, task: Id)
    requires SameTables(s, t)
    ensures OnlyTask(s, t, task) && Settles(s.proposals, t.proposals) && t.decisions == s.decisions
  {
    hide TasksOnly, ProposalsOnly, KeysOnly, EffectsOnly, RunsOnly, GatesOnly, Settles;
    Untouched(s, t, task);
    SameSettles(s.proposals);
  }

  lemma ExecutedFrame(s: Db, t: Db, pid: Id, order: seq<Id>, acknowledged: bool)
    requires IsOrder(s.effects, pid, order) && t == RunJob(s, pid, order, acknowledged)
    ensures OnlyTask(s, t, ProposalTask(s, pid)) && SameElsewhere(s, t) && Settles(s.proposals, t.proposals)
  {
    hide Apply, OnlyTask, Settles;
    SameFrame(s, s, ProposalTask(s, pid));
    if Apply(s, pid, order).Handled? {
      var m := Apply(s, pid, order).db;
      AppliedFrame(s, m, pid, order);
      SameButJobsFrame(s, m, t, ProposalTask(s, pid));
    } else {
      SameButJobsFrame(s, s, t, ProposalTask(s, pid));
    }
  }

  lemma SameButJobsFrame(s: Db, m: Db, t: Db, task: Id)
    requires OnlyTask(s, m, task) && t == m.(jobs := t.jobs)
    ensures OnlyTask(s, t, task)
  {
    hide TasksOnly, ProposalsOnly, KeysOnly, EffectsOnly, RunsOnly, GatesOnly;
  }

  lemma MarkedFrame(s: Db, t: Db, pid: Id, acknowledged: bool)
    requires t == MarkJob(s, pid, acknowledged)
    ensures OnlyTask(s, t, ProposalTask(s, pid)) && SameElsewhere(s, t) && Settles(s.proposals, t.proposals)
  {
    hide Mark, OnlyTask, Settles;
    var m := Mark(s, pid);
    MarkFrame(s, m, pid);
    SameButJobsFrame(s, m, t, ProposalTask(s, pid));
  }

  // ---- Runs and questions --------------------------------------------------------------------

  lemma ClaimFrame(s: Db, t: Db, id: Id, token: Id, budget: int)
    requires t == Claim(s, id, token, budget)
    ensures OnlyTask(s, t, RunTask(s, id)) && SameElsewhere(s, t) && t.proposals == s.proposals
  {
    hide TasksOnly, ProposalsOnly, KeysOnly, EffectsOnly, RunsOnly, GatesOnly, Claimable;
    Untouched(s, t, RunTask(s, id));
    if id in s.runs && Claimable(s.runs[id], s.now) {
      OneRun(s.runs, id, t.runs[id]);
    }
  }

  lemma FailFrame(s: Db, t: Db, d: Delivery)
    requires d.phase.Failing? && t == Fail(s, d)
    ensures OnlyTask(s, t, RunTask(s, d.run)) && SameElsewhere(s, t) && t.proposals == s.proposals
  {
    hide TasksOnly, ProposalsOnly, KeysOnly, EffectsOnly, RunsOnly, GatesOnly;
    Untouched(s, t, RunTask(s, d.run));
    if d.run in s.runs && s.runs[d.run].token == d.phase.token {
      OneRun(s.runs, d.run, t.runs[d.run]);
    }
  }

  lemma OneGate(gates: map<Id, Gate>, id: Id, gate: Gate)
    requires id in gates ==> gates[id].task == gate.task
    ensures GatesOnly(gates, gates[id := gate], gate.task)
  {
  }

  lemma ParkFrame(s: Db, t: Db, d: Delivery, gate: Id, schema: Schema, respondent: Id)
    requires d.phase.Working? && t == Park(s, d, gate, schema, respondent)
    ensures OnlyTask(s, t, RunTask(s, d.run)) && SameElsewhere(s, t) && t.proposals == s.proposals
  {
    hide TasksOnly, ProposalsOnly, KeysOnly, EffectsOnly, RunsOnly, GatesOnly, Usable, PendingFor;
    Untouched(s, t, RunTask(s, d.run));
    var q := Ask(s, d, gate, schema, respondent);
    if q.New? || q.Asked? {
      OneRun(s.runs, d.run, t.runs[d.run]);
    }
    if q.New? {
      OneGate(s.gates, gate, q.row);
    }
  }

  lemma PublishFrame(s: Db, t: Db, d: Delivery, pid: Id, draft: seq<Operation>, ids: seq<Id>)
    requires d.phase.Working? && |ids| == |draft| && t == Publish(s, d, pid, draft, ids)
    ensures OnlyTask(s, t, RunTask(s, d.run)) && SameElsewhere(s, t)
    ensures Settles(s.proposals, t.proposals) || Revised(s, t, pid, RunTask(s, d.run))
  {
    hide TasksOnly, ProposalsOnly, KeysOnly, EffectsOnly, RunsOnly, GatesOnly, Judge, CreateProposal, Settles, Revised;
    var task := RunTask(s, d.run);
    Untouched(s, t, task);
    SameSettles(s.proposals);
    JudgeIs(s, d, pid, draft, ids);
    var p := Judge(s, d, pid, draft, ids);
    if p.Made? || p.Recorded? {
      OneRun(s.runs, d.run, t.runs[d.run]);
    }
    if p.Made? {
      var m := CreateProposal(s, pid, task, d.phase.owner, d.run, draft, ids).value;
      CreatedFrame(s, m, pid, task, d.phase.owner, d.run, draft, ids);
      CreatedRevises(s, m, pid, task, d.phase.owner, d.run, draft, ids);
      RevisedLike(s, m, t, pid, task);
    }
  }

  lemma AnswerFrame(s: Db, t: Db, gate: Id, actor: Id, revision: int, response: Response)
    requires GatesOk(s.runs, s.gates) && ResolveGate(s, gate, actor, revision, response) == Some(t)
    ensures gate in s.gates && OnlyTask(s, t, s.gates[gate].task)
    ensures SameElsewhere(s, t) && t.proposals == s.proposals
  {
    hide TasksOnly, ProposalsOnly, KeysOnly, EffectsOnly, RunsOnly, GatesOnly, ResolveGate, ValidSchema;
    AnswerShape(s, t, gate, actor, revision, response);
    Untouched(s, t, s.gates[gate].task);
    if s.gates[gate].status.GatePending? {
      var run := s.gates[gate].run;
      OneGate(s.gates, gate, Answered(s.gates[gate], actor, response));
      OneRun(s.runs, run, Resumed(s.runs[run]));
    }
  }

  lemma StartFrame(
    s: Db, t: Db, id: Id, task: Id, actor: Id, agent: Id, release: Id, runners: set<string>)
    requires CreateRun(s, id, task, actor, agent, release, runners) == Some(t)
    ensures OnlyTask(s, t, task) && SameElsewhere(s, t) && t.proposals == s.proposals
  {
    hide TasksOnly, ProposalsOnly, KeysOnly, EffectsOnly, GatesOnly, ActivePrincipal;
    Untouched(s, t, task);
  }

  // ---- Every step ----------------------------------------------------------------------------

  /** A new proposal `q` of the task, numbered above all others, superseded its live one, and nothing else
      happened to any proposal. */
  ghost predicate Revised(s: Db, t: Db, q: Id, task: Id) {
    && q !in s.proposals && t.proposals.Keys == s.proposals.Keys + {q}
    && t.proposals[q].task == task && t.proposals[q].status.PendingEndorsement?
    && task in s.tasks && Open(s.tasks[task].status) && t.proposals[q].createdBy == s.tasks[task].owner
    && (forall p | p in s.proposals :: t.proposals[p] == SupersededBy(s.proposals[p], task))
    && (forall p | p in s.proposals && s.proposals[p].task == task ::
          s.proposals[p].revision < t.proposals[q].revision)
  }

  function SupersededBy(p: Proposal, task: Id): Proposal {
    if p.task == task && Live(p.status) then p.(status := Superseded) else p
  }

  lemma RevisedLike(s: Db, m: Db, t: Db, q: Id, task: Id)
    requires Revised(s, m, q, task) && t.proposals == m.proposals
    ensures Revised(s, t, q, task)
  {
  }

  lemma CreatedRevises(s: Db, t: Db, pid: Id, task: Id, actor: Id, origin: Id, draft: seq<Operation>, ids: seq<Id>)
    requires |ids| == |draft| && CreateProposal(s, pid, task, actor, origin, draft, ids) == Ok(t)
    ensures Revised(s, t, pid, task)
  {
    hide FirstFault, ReserveAll, Greatest;
    var row := NewRow(s, task, actor, origin, WithIds(draft, ids));
    assert t.proposals == Supersede(s.proposals, task)[pid := row];
    forall p | p in s.proposals && s.proposals[p].task == task ensures s.proposals[p].revision < row.revision {
      assert s.proposals[p].revision in Revisions(s.proposals, task);
    }
  }

  /** What becomes of the proposals: a step either settles some or adds a revision of its task. */
  ghost predicate Progress(s: Db, t: Db, step: Step) {
    || Settles(s.proposals, t.proposals)
    || (step.Work? && step.work.Propose? && Revised(s, t, step.work.pid, TaskOf(s, step)))
    || (step.Fleet? && step.run.PublishRun? && Revised(s, t, step.run.pid, TaskOf(s, step)))
  }

  lemma AdminFrame(s: Db, t: Db, step: AdminStep)
    requires t == AdminNext(s, step)
    ensures OnlyTask(s, t, TaskOf(s, Step.Admin(step))) && SameElsewhere(s, t) && Settles(s.proposals, t.proposals)
  {
    hide CancelTask, CreateTask, AddDependency, CreateAgent, AddRecord, OnlyTask, Settles, SameTables;
    var task := TaskOf(s, Step.Admin(step));
    SameItself(s);
    match step
    case Cancel(id, version) => CancelledFrame(s, t, id, version);
    case NewTask(id, owner, assignee) =>
      SameFrame(s, s, task);
      if CreateTask(s, id, owner, assignee).Some? { NewTaskFrame(s, t, id, owner, assignee); }
    case NewAgent(id, definition) => AgentShape(s, id, definition); SameFrame(s, t, task);
    case NewRecord(id, integration, data) => RecordShape(s, id, integration, data); SameFrame(s, t, task);
    case Depend(id, parent) => DependShape(s, id, parent); SameFrame(s, t, task);
    case Tick(seconds) => TickShape(s, seconds); SameFrame(s, t, task);
    case SetPrincipal(id, principal) => PrincipalShape(s, id, principal); SameFrame(s, t, task);
  }

  lemma TickShape(s: Db, seconds: nat)
    ensures var t := s.(now := s.now + seconds); SameTables(s, t) && SameElsewhere(s, t)
  {
  }

  lemma PrincipalShape(s: Db, id: Id, principal: Principal)
    ensures var t := s.(principals := s.principals[id := principal]); SameTables(s, t) && SameElsewhere(s, t)
  {
  }

  lemma AgentShape(s: Db, id: Id, definition: Agent)
    ensures var t := CreateAgent(s, id, definition);
      t.Some? ==> SameTables(s, t.value) && SameElsewhere(s, t.value)
  {
  }

  lemma RecordShape(s: Db, id: Id, integration: string, data: Data)
    ensures var t := AddRecord(s, id, integration, data);
      t.Some? ==> SameTables(s, t.value) && SameElsewhere(s, t.value)
  {
  }

  lemma DependShape(s: Db, id: Id, parent: Id)
    ensures var t := AddDependency(s, id, parent);
      t.Some? ==> SameTables(s, t.value) && SameElsewhere(s, t.value)
  {
    hide Graph.Reaches;
  }

  lemma CancelledFrame(s: Db, t: Db, task: Id, version: int)
    requires t == OrElse(CancelTask(s, task, version), s)
    ensures OnlyTask(s, t, task) && SameElsewhere(s, t) && Settles(s.proposals, t.proposals)
  {
    hide CancelTask, OnlyTask, Settles;
    SameFrame(s, s, task);
    if CancelTask(s, task, version).Some? {
      CancelFrame(s, t, task, version);
      CancelSettles(s, t, task, version);
    }
  }

  lemma CancelSettles(s: Db, t: Db, task: Id, version: int)
    requires CancelTask(s, task, version) == Some(t)
    ensures Settles(s.proposals, t.proposals)
  {
    hide CancelRuns, CancelGates;
  }

  lemma NewTaskFrame(s: Db, t: Db, id: Id, owner: Id, assignee: Id)
    requires CreateTask(s, id, owner, assignee) == Some(t)
    ensures OnlyTask(s, t, id) && SameElsewhere(s, t) && Settles(s.proposals, t.proposals)
  {
    hide ProposalsOnly, KeysOnly, EffectsOnly, RunsOnly, GatesOnly, Settles;
    Untouched(s, t, id);
    SameSettles(s.proposals);
  }

  lemma OfficeFrame(s: Db, t: Db, step: OfficeStep)
    requires t == OfficeNext(s, step)
    ensures OnlyTask(s, t, TaskOf(s, Office(step))) && Settles(s.proposals, t.proposals)
    ensures t.decisions == s.decisions
  {
    hide OnlyTask, Settles, SameTables, R.Submit, R.Transition, R.Grant, H.Offer, H.Accept, H.Reply, H.ExpireDue;
    var task := TaskOf(s, Office(step));
    SameItself(s);
    SameFrame(s, s, task);
    match step
    case Submit(id, family, harness, runner, requested) =>
      SubmitShape(s, id, family, harness, runner, requested);
      SameFrame(s, t, task);
    case Transition(id, role, target, expected) =>
      TransitionShape(s, id, role, target, expected);
      SameFrame(s, t, task);
    case Grant(id, role, caps, expected) => GrantShape(s, id, role, caps, expected); SameFrame(s, t, task);
    case Offer(id, about, actor, recipient, role, expiresAt) =>
      OfferShape(s, id, about, actor, recipient, role, expiresAt);
      SameFrame(s, t, task);
    case Expire(due) => ExpireShape(s, due); SameFrame(s, t, task);
    case Accept(id, actor) => if H.Accept(s, id, actor).Some? { AcceptedFrame(s, t, id, actor); }
    case Reply(id, actor, state) => ReplyShape(s, id, actor, state); SameFrame(s, t, task);
  }

  lemma AcceptedFrame(s: Db, t: Db, id: Id, actor: Id)
    requires H.Accept(s, id, actor) == Some(t)
    ensures id in s.handoffs && OnlyTask(s, t, s.handoffs[id].task) && Settles(s.proposals, t.proposals)
    ensures t.decisions == s.decisions
  {
    hide OnlyTask, Settles, H.Due;
    var h := s.handoffs[id];
    if h.state.Accepted? {
      SameItself(s);
      SameFrame(s, s, h.task);
    } else {
      MovedOn(s, h.task, t.tasks[h.task], t.handoffs);
    }
  }

  lemma MovedOn(s: Db, task: Id, moved: Task, handoffs: map<Id, Handoff>)
    ensures var t := s.(tasks := s.tasks[task := moved], handoffs := handoffs);
      OnlyTask(s, t, task) && Settles(s.proposals, t.proposals)
  {
    hide ProposalsOnly, KeysOnly, EffectsOnly, RunsOnly, GatesOnly, Settles;
    Untouched(s, s, task);
    SameSettles(s.proposals);
  }

  lemma SubmitShape(s: Db, id: Id, family: string, harness: bool, runner: string, requested: set<string>)
    ensures var t := R.Submit(s, id, family, harness, runner, requested);
      t.Some? ==> SameTables(s, t.value) && SameElsewhere(s, t.value)
  {
  }

  lemma TransitionShape(s: Db, id: Id, role: Role, target: ReleaseState, expected: int)
    ensures var t := R.Transition(s, id, role, target, expected);
      t.Some? ==> SameTables(s, t.value) && SameElsewhere(s, t.value)
  {
  }

  lemma GrantShape(s: Db, id: Id, role: Role, caps: set<string>, expected: int)
    ensures var t := R.Grant(s, id, role, caps, expected);
      t.Some? ==> SameTables(s, t.value) && SameElsewhere(s, t.value)
  {
  }

  lemma OfferShape(s: Db, id: Id, task: Id, actor: Id, recipient: Id, role: HandoffRole, expiresAt: int)
    ensures var t := H.Offer(s, id, task, actor, recipient, role, expiresAt);
      t.Some? ==>
        && SameTables(s, t.value)
        && id !in s.handoffs && id in t.value.handoffs && t.value.handoffs == s.handoffs[id := t.value.handoffs[id]]
  {
    hide H.AcceptedOwner, ActivePrincipal;
  }

  lemma ExpireShape(s: Db, due: set<Id>)
    ensures var t := H.ExpireDue(s, due);
      && SameTables(s, t)
      && forall h | h in s.handoffs ::
           h in t.handoffs && (t.handoffs[h].state.Accepted? ==> s.handoffs[h].state.Accepted?)
  {
  }

  /** Only an offer at the task's version is accepted. */
  lemma AcceptShape(s: Db, id: Id, actor: Id)
    ensures var t := H.Accept(s, id, actor);
      t.Some? ==>
        forall h | h in s.handoffs ::
             && h in t.value.handoffs
             && (t.value.handoffs[h].state.Accepted? ==> s.handoffs[h].state.Accepted? || !Outdated(s, h))
  {
  }

  lemma ReplyShape(s: Db, id: Id, actor: Id, state: HandoffState)
    ensures var t := H.Reply(s, id, actor, state);
      t.Some? ==>
        && SameTables(s, t.value)
        && forall h | h in s.handoffs ::
             h in t.value.handoffs && (t.value.handoffs[h].state.Accepted? ==> s.handoffs[h].state.Accepted?)
  {
  }

  lemma ProposedFrame(s: Db, t: Db, pid: Id, task: Id, actor: Id, draft: seq<Operation>, ids: seq<Id>)
    requires |ids| == |draft| && CreateProposal(s, pid, task, actor, NO_ID, draft, ids) == Ok(t)
    ensures OnlyTask(s, t, task) && SameElsewhere(s, t) && Revised(s, t, pid, task)
  {
    hide ProposalsOnly, KeysOnly, EffectsOnly, RunsOnly, GatesOnly, TasksOnly, Revised, CreateProposal;
    CreatedKept(s, t, pid, task, actor, NO_ID, draft, ids);
    CreatedFrame(s, t, pid, task, actor, NO_ID, draft, ids);
    CreatedRevises(s, t, pid, task, actor, NO_ID, draft, ids);
    Untouched(s, t, task);
  }

  lemma WorkFrame(s: Db, t: Db, step: WorkStep)
    requires WorkEnabled(s, step) && t == WorkNext(s, step)
    ensures OnlyTask(s, t, TaskOf(s, Work(step))) && t.handoffs == s.handoffs && Progress(s, t, Work(step))
    ensures !step.MakeDecision? ==> t.decisions == s.decisions
  {
    hide CreateProposal, Decide, RunJob, MarkJob, IsOrder, HasJob, OnlyTask, Settles, Revised;
    var task := TaskOf(s, Work(step));
    SameFrame(s, s, task);
    match step
    case Propose(pid, _, actor, draft, ids) =>
      if CreateProposal(s, pid, task, actor, NO_ID, draft, ids).Ok? {
        ProposedFrame(s, t, pid, task, actor, draft, ids);
      }
    case MakeDecision(pid, actor, kind, revision, digest) =>
      if Decide(s, pid, actor, kind, revision, digest).Some? {
        DecidedFrame(s, t, pid, actor, kind, revision, digest);
      }
    case Execute(pid, order, acknowledged) => ExecutedFrame(s, t, pid, order, acknowledged);
    case MarkFailed(pid, acknowledged) => MarkedFrame(s, t, pid, acknowledged);
    case CrashExecution(pid) => SameFrame(s, t, task);
    case DuplicateJob(pid) => SameFrame(s, t, task);
  }

  lemma HandlerFrame(s: Db, t: Db, step: HandlerStep)
    requires HandlerEnabled(s, step) && t == HandlerNext(s, step)
    ensures OnlyTask(s, t, TaskOf(s, Handler(step))) && SameElsewhere(s, t) && t.proposals == s.proposals
  {
    hide Claim, Fail, Park, OnlyTask, Settles;
    var task := TaskOf(s, Handler(step));
    match step
    case ClaimRun(id, token, budget) => ClaimFrame(s, t, id, token, budget);
    case FailRun(d) => FailFrame(s, t, d);
    case ParkRun(d, gate, schema, respondent) => ParkFrame(s, t, d, gate, schema, respondent);
    case _ => SameFrame(s, t, task);
  }

  /** A sweep is the one step that may reach several tasks, and then only their runs. */
  ghost predicate Sweeps(step: Step) {
    step.Fleet? && step.run.Sweep?
  }

  lemma RunStepFrame(s: Db, t: Db, step: RunStep)
    requires GatesOk(s.runs, s.gates) && RunEnabled(s, step) && t == RunNext(s, step)
    ensures OnlyTask(s, if step.Sweep? then t.(runs := s.runs) else t, TaskOf(s, Fleet(step)))
    ensures SameElsewhere(s, t) && Progress(s, t, Fleet(step))
  {
    hide CreateRun, Publish, ResolveGate, OnlyTask, Settles, Revised, GatesOk, EligibleRuns, FirstEligible;
    var task := TaskOf(s, Fleet(step));
    SameFrame(s, s, task);
    match step
    case StartRun(id, _, actor, agent, release, runners) =>
      if CreateRun(s, id, task, actor, agent, release, runners).Some? {
        StartFrame(s, t, id, task, actor, agent, release, runners);
      }
    case PublishRun(d, pid, draft, ids) => PublishFrame(s, t, d, pid, draft, ids);
    case Answer(gate, actor, revision, response) =>
      if ResolveGate(s, gate, actor, revision, response).Some? {
        AnswerFrame(s, t, gate, actor, revision, response);
      }
    case Sweep(limit, chosen) => SameFrame(s, t.(runs := s.runs), task);
  }

  /** Every step adds and changes rows of one task only; a sweep changes runs only. */
  lemma StepFrame(s: Db, step: Step)
    requires Inv(s) && Enabled(s, step)
    ensures var t := Next(s, step);
      && OnlyTask(s, if Sweeps(step) then t.(runs := s.runs) else t, TaskOf(s, step))
      && (!step.Office? ==> t.handoffs == s.handoffs)
      && (!(step.Work? && step.work.MakeDecision?) ==> t.decisions == s.decisions)
      && Progress(s, t, step)
  {
    hide BooksOk, AdminNext, OfficeNext, WorkNext, HandlerNext, RunNext, WorkEnabled, HandlerEnabled, RunEnabled,
      OnlyTask, TaskOf, RunsOk, ExecOk, WakeOk, DepsOk, H.HandoffsOk, R.ReleasesOk, R.AdmissionsOk, Settles, Revised;
    var t := Next(s, step);
    match step
    case Admin(admin) => AdminFrame(s, t, admin);
    case Office(office) => OfficeFrame(s, t, office);
    case Work(work) => WorkFrame(s, t, work);
    case Handler(handler) =>
      HandlerFrame(s, t, handler);
      SameSettles(s.proposals);
    case Fleet(run) =>
      InvGates(s);
      RunStepFrame(s, t, run);
  }

  lemma InvGates(s: Db)
    requires Inv(s)
    ensures GatesOk(s.runs, s.gates)
  {
    hide Inv, GatesOk, TokensOk, NoRunLost, HoldersOk, LeasesOk, OriginsOk, RunTasksOk;
    InvRuns(s);
  }

  /** The receipts a step writes are for proposals of its task: each verifies an effect. */
  lemma ReceiptsFrame(s: Db, t: Db, task: Id)
    requires ReceiptsOk(s.effects, s.receipts) && ReceiptsOk(t.effects, t.receipts) && s.receipts <= t.receipts
    requires EffectsOnly(s.effects, t.effects, t.proposals, task)
    ensures forall i | |s.receipts| <= i < |t.receipts| :: IsOf(t.proposals, t.receipts[i].effect.proposal, task)
  {
    hide IsOf;
    forall i | |s.receipts| <= i < |t.receipts| ensures IsOf(t.proposals, t.receipts[i].effect.proposal, task) {
      var e := t.receipts[i].effect;
      forall j | 0 <= j < |s.receipts| ensures s.receipts[j].effect != e {
        assert t.receipts[j] == s.receipts[j];
      }
      assert !HasReceipt(s.receipts, e);
    }
  }

  // ---- Outdated offers -----------------------------------------------------------------------

  /** The task moved on since the offer was made, and the offer was not accepted. */
  ghost predicate Outdated(s: Db, id: Id) {
    && id in s.handoffs && !s.handoffs[id].state.Accepted?
    && s.handoffs[id].task in s.tasks && s.handoffs[id].offeredVersion < s.tasks[s.handoffs[id].task].version
  }

  lemma OutdatedRefused(s: Db, id: Id, actor: Id)
    requires Outdated(s, id)
    ensures H.Accept(s, id, actor) == None
  {
  }

  /** No step on the office tables accepts an outdated offer. */
  lemma OfficeAccepts(s: Db, t: Db, step: OfficeStep, id: Id)
    requires t == OfficeNext(s, step) && Outdated(s, id)
    ensures id in t.handoffs && !t.handoffs[id].state.Accepted?
  {
    hide R.Submit, R.Transition, R.Grant, H.Offer, H.Accept, H.Reply, H.ExpireDue, SameTables;
    match step
    case Submit(other, family, harness, runner, requested) =>
      SubmitShape(s, other, family, harness, runner, requested);
    case Transition(other, role, target, expected) => TransitionShape(s, other, role, target, expected);
    case Grant(other, role, caps, expected) => GrantShape(s, other, role, caps, expected);
    case Offer(other, task, actor, recipient, role, expiresAt) =>
      OfferShape(s, other, task, actor, recipient, role, expiresAt);
    case Expire(due) => ExpireShape(s, due);
    case Accept(other, actor) => AcceptShape(s, other, actor);
    case Reply(other, actor, state) => ReplyShape(s, other, actor, state);
  }

  lemma StaysOutdated(s: Db, step: Step, id: Id)
    requires Inv(s) && Enabled(s, step) && Outdated(s, id)
    ensures Outdated(Next(s, step), id)
  {
    hide Inv, AdminNext, OfficeNext, WorkNext, HandlerNext, RunNext, WorkEnabled, HandlerEnabled, RunEnabled, OnlyTask,
      TaskOf, Progress, ProposalsForward, KeysForward, DecisionsForward, EffectsForward, OpenOnly, AgentsForward,
      R.Widened, RunsForward, GatesForward, FreshWork, LedgerForward;
    StepForward(s, step);
    StepFrame(s, step);
    if step.Office? {
      OfficeAccepts(s, Next(s, step), step.office, id);
    }
  }

  /** An outdated offer stays so for ever. */
  lemma {:induction false} OutdatedForGood(s: Db, steps: seq<Step>, t: Db, id: Id)
    requires Inv(s) && Reachable(s, steps, t) && Outdated(s, id)
    ensures Outdated(t, id)
    decreases |steps|
  {
    hide Inv, Next, Enabled, Outdated;
    if steps != [] {
      StepInv(s, steps[0]);
      StaysOutdated(s, steps[0], id);
      OutdatedForGood(Next(s, steps[0]), steps[1..], t, id);
    }
  }
}
