/** What any number of steps leaves as it was: the two-state half of the guarantees. */
module Monotone {
  import opened Wrappers
  import opened Connectors
  import opened GateSchemas
  import opened Tables
  import opened Proposals
  import opened Decisions
  import opened Execution
  import opened Runs
  import opened RunInvariants
  import opened Kernel
  import opened Invariant
  import H = Handoffs
  import R = Releases

  /** A proposal's content never changes, and one that is no longer live is frozen. */
  ghost predicate ProposalsForward(proposals: map<Id, Proposal>, after: map<Id, Proposal>) {
    && proposals.Keys <= after.Keys
    && (forall p | p in proposals ::
          && after[p] == proposals[p].(status := after[p].status)
          && (!Live(proposals[p].status) ==> after[p] == proposals[p]))
  }

  /** A key keeps its content, and once dispatched its proposal too. */
  ghost predicate KeysForward(keys: map<Key, KeyRow>, after: map<Key, KeyRow>) {
    && keys.Keys <= after.Keys
    && (forall k | k in keys ::
          && after[k].fingerprint == keys[k].fingerprint
          && (keys[k].status.KeyVerified? ==> after[k] == keys[k])
          && (keys[k].status.Dispatching? ==>
                after[k].proposal == keys[k].proposal
                  && (after[k].status.Dispatching? || after[k].status.KeyVerified?)))
  }

  ghost predicate DecisionsForward(decisions: map<DecisionKey, Decision>, after: map<DecisionKey, Decision>) {
    forall d | d in decisions :: d in after && after[d] == decisions[d]
  }

  ghost predicate EffectsForward(effects: map<EffectKey, Effect>, after: map<EffectKey, Effect>) {
    forall e | e in effects ::
      && e in after && after[e].op == effects[e].op
      && (!effects[e].state.Authorized? ==> after[e] == effects[e])
  }

  /** Records change only by what the newer receipts say. */
  ghost predicate LedgerForward(
    records: map<Id, Record>, receipts: seq<Receipt>, after: map<Id, Record>, more: seq<Receipt>)
  {
    && receipts <= more
    && (forall r | r in records :: r in after && Moved(records[r], after[r], more[|receipts|..], r))
    && (forall r | r in after && r !in records :: after[r].version == 1 + Steps(more, r))
  }

  ghost predicate TasksForward(tasks: map<Id, Task>, after: map<Id, Task>) {
    && tasks.Keys <= after.Keys
    && (forall k | k in tasks ::
          && after[k].version >= tasks[k].version
          && (!Open(tasks[k].status) ==> after[k].status == tasks[k].status))
  }

  ghost predicate OpenIn(tasks: map<Id, Task>, task: Id) {
    task in tasks ==> Open(tasks[task].status)
  }

  ghost predicate UncancelledIn(tasks: map<Id, Task>, task: Id) {
    task in tasks ==> !tasks[task].status.TaskCancelled?
  }

  /** Only tasks that were still open got new receipts, proposals or runs, and cancelled ones no new question. */
  ghost predicate OpenOnly(
    tasks: map<Id, Task>, proposals: map<Id, Proposal>, receipts: seq<Receipt>,
    after: map<Id, Proposal>, more: seq<Receipt>)
  {
    && (forall p | p in after && p !in proposals :: OpenIn(tasks, after[p].task))
    && (forall i | |receipts| <= i < |more| ::
          more[i].effect.proposal in after && OpenIn(tasks, after[more[i].effect.proposal].task))
  }

  ghost predicate FreshWork(
    tasks: map<Id, Task>, runs: map<Id, Run>, gates: map<Id, Gate>, after: map<Id, Run>, more: map<Id, Gate>)
  {
    && (forall r | r in after && r !in runs :: OpenIn(tasks, after[r].task))
    && (forall g | g in more && g !in gates :: UncancelledIn(tasks, more[g].task))
  }

  /** An offer that is no longer open is frozen. */
  ghost predicate HandoffsForward(handoffs: map<Id, Handoff>, after: map<Id, Handoff>) {
    && handoffs.Keys <= after.Keys
    && (forall h | h in handoffs ::
          && after[h] == handoffs[h].(state := after[h].state)
          && (!H.OpenOffer(handoffs[h]) ==> after[h] == handoffs[h]))
  }

  ghost predicate AgentsForward(agents: map<Id, Agent>, after: map<Id, Agent>) {
    forall a | a in agents :: a in after && after[a] == agents[a]
  }

  ghost predicate Forward(s: Db, t: Db) {
    && ProposalsForward(s.proposals, t.proposals)
    && KeysForward(s.keys, t.keys)
    && DecisionsForward(s.decisions, t.decisions)
    && EffectsForward(s.effects, t.effects)
    && LedgerForward(s.records, s.receipts, t.records, t.receipts)
    && TasksForward(s.tasks, t.tasks)
    && OpenOnly(s.tasks, s.proposals, s.receipts, t.proposals, t.receipts)
    && HandoffsForward(s.handoffs, t.handoffs)
    && AgentsForward(s.agents, t.agents)
    && R.Widened(s.releases, t.releases)
    && RunsForward(s.runs, t.runs)
    && GatesForward(s.gates, t.gates)
    && FreshWork(s.tasks, s.runs, s.gates, t.runs, t.gates)
    && s.deps <= t.deps && s.issued <= t.issued && s.now <= t.now
  }

  /** What a step does not touch goes forward. */
  lemma Unchanged(s: Db, t: Db)
    ensures t.proposals == s.proposals ==> ProposalsForward(s.proposals, t.proposals)
    ensures t.keys == s.keys ==> KeysForward(s.keys, t.keys)
    ensures t.decisions == s.decisions ==> DecisionsForward(s.decisions, t.decisions)
    ensures t.effects == s.effects ==> EffectsForward(s.effects, t.effects)
    ensures t.tasks == s.tasks ==> TasksForward(s.tasks, t.tasks)
    ensures t.handoffs == s.handoffs ==> HandoffsForward(s.handoffs, t.handoffs)
    ensures t.agents == s.agents ==> AgentsForward(s.agents, t.agents)
    ensures t.releases == s.releases ==> R.Widened(s.releases, t.releases)
    ensures t.runs == s.runs ==> RunsForward(s.runs, t.runs)
    ensures t.gates == s.gates ==> GatesForward(s.gates, t.gates)
    ensures t.runs.Keys == s.runs.Keys && t.gates.Keys == s.gates.Keys ==>
      FreshWork(s.tasks, s.runs, s.gates, t.runs, t.gates)
    ensures t.proposals.Keys == s.proposals.Keys && t.receipts == s.receipts ==>
      OpenOnly(s.tasks, s.proposals, s.receipts, t.proposals, t.receipts)
  {
  }

  lemma SameLedger(records: map<Id, Record>, after: map<Id, Record>, receipts: seq<Receipt>)
    requires after.Keys == records.Keys && forall r | r in records :: after[r] == records[r]
    ensures LedgerForward(records, receipts, after, receipts)
  {
    assert receipts[|receipts|..] == [];
  }

  lemma LedgerTransitive(
    a: map<Id, Record>, x: seq<Receipt>, b: map<Id, Record>, y: seq<Receipt>, c: map<Id, Record>, z: seq<Receipt>)
    requires LedgerForward(a, x, b, y) && LedgerForward(b, y, c, z)
    ensures LedgerForward(a, x, c, z)
  {
    forall r | r in a ensures r in c && Moved(a[r], c[r], z[|x|..], r) {
      assert z[|x|..] == y[|x|..] + z[|y|..];
      LedgerAppend(y[|x|..], z[|y|..], r);
    }
    forall r | r in c && r !in a ensures c[r].version == 1 + Steps(z, r) {
      assert z == y + z[|y|..];
      LedgerAppend(y, z[|y|..], r);
    }
  }

  lemma OpenOnlyTransitive(s: Db, t: Db, u: Db)
    requires TasksForward(s.tasks, t.tasks) && ProposalsForward(t.proposals, u.proposals)
    requires s.receipts <= t.receipts <= u.receipts
    requires OpenOnly(s.tasks, s.proposals, s.receipts, t.proposals, t.receipts)
    requires OpenOnly(t.tasks, t.proposals, t.receipts, u.proposals, u.receipts)
    ensures OpenOnly(s.tasks, s.proposals, s.receipts, u.proposals, u.receipts)
  {
    forall i | |s.receipts| <= i < |u.receipts|
      ensures u.receipts[i].effect.proposal in u.proposals
      ensures OpenIn(s.tasks, u.proposals[u.receipts[i].effect.proposal].task)
    {
      if i < |t.receipts| {
        assert u.receipts[i] == t.receipts[i];
      }
    }
  }

  lemma FreshTransitive(s: Db, t: Db, u: Db)
    requires TasksForward(s.tasks, t.tasks) && RunsForward(t.runs, u.runs) && GatesForward(t.gates, u.gates)
    requires FreshWork(s.tasks, s.runs, s.gates, t.runs, t.gates)
    requires FreshWork(t.tasks, t.runs, t.gates, u.runs, u.gates)
    ensures FreshWork(s.tasks, s.runs, s.gates, u.runs, u.gates)
  {
  }

  lemma ProposalsTransitive(a: map<Id, Proposal>, b: map<Id, Proposal>, c: map<Id, Proposal>)
    requires ProposalsForward(a, b) && ProposalsForward(b, c)
    ensures ProposalsForward(a, c)
  {
  }

  lemma KeysTransitive(a: map<Key, KeyRow>, b: map<Key, KeyRow>, c: map<Key, KeyRow>)
    requires KeysForward(a, b) && KeysForward(b, c)
    ensures KeysForward(a, c)
  {
  }

  lemma HistoryTransitive(s: Db, t: Db, u: Db)
    requires DecisionsForward(s.decisions, t.decisions) && DecisionsForward(t.decisions, u.decisions)
    requires EffectsForward(s.effects, t.effects) && EffectsForward(t.effects, u.effects)
    requires TasksForward(s.tasks, t.tasks) && TasksForward(t.tasks, u.tasks)
    requires HandoffsForward(s.handoffs, t.handoffs) && HandoffsForward(t.handoffs, u.handoffs)
    requires AgentsForward(s.agents, t.agents) && AgentsForward(t.agents, u.agents)
    ensures DecisionsForward(s.decisions, u.decisions) && EffectsForward(s.effects, u.effects)
    ensures TasksForward(s.tasks, u.tasks) && HandoffsForward(s.handoffs, u.handoffs)
    ensures AgentsForward(s.agents, u.agents)
  {
  }

  lemma FleetTransitive(s: Db, t: Db, u: Db)
    requires R.Widened(s.releases, t.releases) && R.Widened(t.releases, u.releases)
    requires RunsForward(s.runs, t.runs) && RunsForward(t.runs, u.runs)
    requires GatesForward(s.gates, t.gates) && GatesForward(t.gates, u.gates)
    ensures R.Widened(s.releases, u.releases) && RunsForward(s.runs, u.runs) && GatesForward(s.gates, u.gates)
  {
  }

  lemma ForwardTransitive(s: Db, t: Db, u: Db)
    requires Forward(s, t) && Forward(t, u)
    ensures Forward(s, u)
  {
    hide ProposalsForward, KeysForward, DecisionsForward, EffectsForward, TasksForward, OpenOnly, HandoffsForward,
      AgentsForward, R.Widened, RunsForward, GatesForward, FreshWork, Moved;
    ProposalsTransitive(s.proposals, t.proposals, u.proposals);
    KeysTransitive(s.keys, t.keys, u.keys);
    HistoryTransitive(s, t, u);
    FleetTransitive(s, t, u);
    LedgerTransitive(s.records, s.receipts, t.records, t.receipts, u.records, u.receipts);
    OpenOnlyTransitive(s, t, u);
    FreshTransitive(s, t, u);
  }

  lemma ForwardReflexive(s: Db)
    ensures Forward(s, s)
  {
    hide ProposalsForward, KeysForward, DecisionsForward, EffectsForward, TasksForward, OpenOnly, HandoffsForward,
      AgentsForward, R.Widened, RunsForward, GatesForward, FreshWork, LedgerForward;
    Unchanged(s, s);
    SameLedger(s.records, s.records, s.receipts);
  }

  // ---- Every step goes forward ---------------------------------------------------------------

  lemma CancelledForward(s: Db, t: Db, task: Id, version: int)
    requires RowsOk(s.tasks, s.proposals) && CancelTask(s, task, version) == Some(t)
    ensures ProposalsForward(s.proposals, t.proposals) && TasksForward(s.tasks, t.tasks)
    ensures RunsForward(s.runs, t.runs) && GatesForward(s.gates, t.gates)
    ensures t.proposals.Keys == s.proposals.Keys && t.runs.Keys == s.runs.Keys && t.gates.Keys == s.gates.Keys
    ensures t == s.(tasks := t.tasks, proposals := t.proposals, gates := t.gates, runs := t.runs)
  {
  }

  lemma AdministeredForward(s: Db, t: Db)
    requires t == s.(now := t.now, principals := t.principals, deps := t.deps, tasks := t.tasks,
                     agents := t.agents, records := t.records)
    requires s.now <= t.now && s.deps <= t.deps
    requires TasksForward(s.tasks, t.tasks) && AgentsForward(s.agents, t.agents)
    requires LedgerForward(s.records, s.receipts, t.records, s.receipts)
    ensures Forward(s, t)
  {
    hide ProposalsForward, KeysForward, DecisionsForward, EffectsForward, TasksForward, OpenOnly, HandoffsForward,
      AgentsForward, R.Widened, RunsForward, GatesForward, FreshWork, LedgerForward;
    Unchanged(s, t);
  }

  lemma CancelForward(s: Db, t: Db, task: Id, version: int)
    requires RowsOk(s.tasks, s.proposals) && CancelTask(s, task, version) == Some(t)
    ensures Forward(s, t)
  {
    hide ProposalsForward, KeysForward, DecisionsForward, EffectsForward, TasksForward, OpenOnly, HandoffsForward,
      AgentsForward, R.Widened, RunsForward, GatesForward, FreshWork, LedgerForward, RowsOk, CancelTask;
    CancelledForward(s, t, task, version);
    Unchanged(s, t);
    SameLedger(s.records, t.records, s.receipts);
  }

  lemma NewTaskForward(s: Db, t: Db, id: Id, owner: Id, assignee: Id)
    requires CreateTask(s, id, owner, assignee) == Some(t)
    ensures Forward(s, t)
  {
    hide AgentsForward;
    Unchanged(s, s);
    AdministeredForward(s, t);
  }

  lemma NewAgentForward(s: Db, t: Db, id: Id, agent: Agent)
    requires CreateAgent(s, id, agent) == Some(t)
    ensures Forward(s, t)
  {
    hide TasksForward;
    Unchanged(s, s);
    AdministeredForward(s, t);
  }

  lemma NewRecordForward(s: Db, t: Db, id: Id, integration: string, data: Data)
    requires AddRecord(s, id, integration, data) == Some(t)
    requires EffectsOk(s.proposals, s.decisions, s.effects) && AllOpsOk(s.records, s.proposals)
    requires ReceiptsOk(s.effects, s.receipts)
    ensures Forward(s, t)
  {
    hide TasksForward, AgentsForward, LedgerForward;
    Unchanged(s, s);
    NewLedger(s, t, id);
    AdministeredForward(s, t);
  }

  /** No receipt names a record that does not exist yet. */
  lemma NewLedger(s: Db, t: Db, id: Id)
    requires EffectsOk(s.proposals, s.decisions, s.effects) && AllOpsOk(s.records, s.proposals)
    requires ReceiptsOk(s.effects, s.receipts)
    requires id !in s.records && t.records.Keys == s.records.Keys + {id} && t.records[id].version == 1
    requires forall r | r in s.records :: t.records[r] == s.records[r]
    ensures LedgerForward(s.records, s.receipts, t.records, s.receipts)
  {
    assert s.receipts[|s.receipts|..] == [];
    forall i | 0 <= i < |s.receipts| ensures s.receipts[i].op.target in s.records {
      ReceiptTarget(s, i);
    }
    NoSteps(s.receipts, id);
  }

  lemma ReceiptTarget(s: Db, i: nat)
    requires EffectsOk(s.proposals, s.decisions, s.effects) && AllOpsOk(s.records, s.proposals)
    requires ReceiptsOk(s.effects, s.receipts) && i < |s.receipts|
    ensures s.receipts[i].op.target in s.records
  {
    var e := s.receipts[i].effect;
    var ops := s.proposals[e.proposal].ops;
    FirstOpIs(ops, e.op);
    assert OpsOk(s.records, ops);
  }

  lemma {:induction false} NoSteps(receipts: seq<Receipt>, record: Id)
    requires forall i | 0 <= i < |receipts| :: receipts[i].op.target != record
    ensures Steps(receipts, record) == 0 && Total(receipts, record) == 0
  {
    if receipts != [] {
      NoSteps(receipts[1..], record);
    }
  }

  lemma AdminForward(s: Db, t: Db, step: AdminStep)
    requires Inv(s) && t == AdminNext(s, step)
    ensures Forward(s, t)
  {
    hide Inv, CancelTask, CreateTask, AddDependency, CreateAgent, AddRecord, Forward, TasksForward, AgentsForward,
      LedgerForward, RowsOk, OneLive, DecisionsOk, EffectsOk, KeysOk, AllOpsOk, ReceiptsOk, TargetsOk, RunsOk;
    InvRows(s);
    Unchanged(s, s);
    ForwardReflexive(s);
    SameLedger(s.records, s.records, s.receipts);
    match step
    case Tick(_) => AdministeredForward(s, t);
    case SetPrincipal(_, _) => AdministeredForward(s, t);
    case NewAgent(id, agent) => if CreateAgent(s, id, agent).Some? { NewAgentForward(s, t, id, agent); }
    case NewTask(id, owner, assignee) =>
      if CreateTask(s, id, owner, assignee).Some? { NewTaskForward(s, t, id, owner, assignee); }
    case NewRecord(id, integration, data) => if AddRecord(s, id, integration, data).Some? {
      NewRecordForward(s, t, id, integration, data);
    }
    case Depend(task, parent) => if AddDependency(s, task, parent).Some? { DependForward(s, t, task, parent); }
    case Cancel(task, version) => if CancelTask(s, task, version).Some? { CancelForward(s, t, task, version); }
  }

  lemma DependForward(s: Db, t: Db, task: Id, parent: Id)
    requires AddDependency(s, task, parent) == Some(t)
    ensures Forward(s, t)
  {
    hide TasksForward, AgentsForward, Graph.Reaches;
    Unchanged(s, s);
    AdministeredForward(s, t);
  }

  lemma InvRows(s: Db)
    requires Inv(s)
    ensures RowsOk(s.tasks, s.proposals) && OneLive(s.proposals)
    ensures DecisionsOk(s.proposals, s.decisions) && EffectsOk(s.proposals, s.decisions, s.effects)
    ensures KeysOk(s.proposals, s.decisions, s.keys) && AllOpsOk(s.records, s.proposals)
    ensures ReceiptsOk(s.effects, s.receipts) && TargetsOk(s.effects)
    ensures RunsOk(s)
  {
    hide RunsOk, WakeOk, DepsOk, H.HandoffsOk, R.ReleasesOk, R.AdmissionsOk, RowsOk, OneLive, DecisionsOk, EffectsOk,
      KeysOk, AllOpsOk, ReceiptsOk, TargetsOk;
  }

  // Releases and handoffs.

  lemma ReleasesForward(s: Db, t: Db)
    requires t == s.(releases := t.releases) && R.Widened(s.releases, t.releases)
    ensures Forward(s, t)
  {
    hide ProposalsForward, KeysForward, DecisionsForward, EffectsForward, TasksForward, OpenOnly, HandoffsForward,
      AgentsForward, R.Widened, RunsForward, GatesForward, FreshWork, LedgerForward;
    Unchanged(s, t);
    SameLedger(s.records, t.records, s.receipts);
  }

  lemma HandedForward(s: Db, t: Db)
    requires t == s.(tasks := t.tasks, handoffs := t.handoffs)
    requires TasksForward(s.tasks, t.tasks) && HandoffsForward(s.handoffs, t.handoffs)
    ensures Forward(s, t)
  {
    hide ProposalsForward, KeysForward, DecisionsForward, EffectsForward, TasksForward, OpenOnly, HandoffsForward,
      AgentsForward, R.Widened, RunsForward, GatesForward, FreshWork, LedgerForward;
    Unchanged(s, t);
    SameLedger(s.records, t.records, s.receipts);
  }

  lemma TransitionForward(s: Db, t: Db, id: Id, role: Role, target: ReleaseState, expected: int)
    requires R.ReleasesOk(s.releases) && R.Transition(s, id, role, target, expected) == Some(t)
    ensures Forward(s, t)
  {
    hide R.ReleasesOk, R.Widened;
    R.TransitionKeeps(s, t, id, role, target, expected);
    ReleasesForward(s, t);
  }

  lemma AcceptForward(s: Db, t: Db, id: Id, actor: Id)
    requires H.Accept(s, id, actor) == Some(t)
    ensures Forward(s, t)
  {
    hide Forward;
    if s.handoffs[id].state.Accepted? {
      ForwardReflexive(s);
    } else {
      HandedForward(s, t);
    }
  }

  lemma OfferForward(s: Db, t: Db, id: Id, task: Id, actor: Id, recipient: Id, role: HandoffRole, expiresAt: int)
    requires H.Offer(s, id, task, actor, recipient, role, expiresAt) == Some(t)
    ensures Forward(s, t)
  {
    hide H.AcceptedOwner, TasksForward;
    Unchanged(s, s);
    HandedForward(s, t);
  }

  lemma ReplyForward(s: Db, t: Db, id: Id, actor: Id, state: HandoffState)
    requires H.Reply(s, id, actor, state) == Some(t)
    ensures Forward(s, t)
  {
    hide TasksForward;
    Unchanged(s, s);
    HandedForward(s, t);
  }

  lemma ExpireForward(s: Db, t: Db, due: set<Id>)
    requires t == H.ExpireDue(s, due)
    ensures Forward(s, t)
  {
    hide TasksForward;
    Unchanged(s, s);
    HandedForward(s, t);
  }

  lemma SubmitForward(s: Db, t: Db, id: Id, family: string, harness: bool, runner: string, requested: set<string>)
    requires R.Submit(s, id, family, harness, runner, requested) == Some(t)
    ensures Forward(s, t)
  {
    hide Forward;
    ReleasesForward(s, t);
  }

  lemma GrantForward(s: Db, t: Db, id: Id, role: Role, caps: set<string>, expected: int)
    requires R.Grant(s, id, role, caps, expected) == Some(t)
    ensures Forward(s, t)
  {
    hide Forward;
    ReleasesForward(s, t);
  }

  lemma OfficeForward(s: Db, t: Db, step: OfficeStep)
    requires R.ReleasesOk(s.releases) && t == OfficeNext(s, step)
    ensures Forward(s, t)
  {
    hide R.ReleasesOk, R.Submit, R.Grant, R.Transition, H.Accept, H.Offer, H.Reply, H.ExpireDue, Forward;
    ForwardReflexive(s);
    match step
    case Submit(id, family, harness, runner, requested) =>
      if R.Submit(s, id, family, harness, runner, requested).Some? {
        SubmitForward(s, t, id, family, harness, runner, requested);
      }
    case Transition(id, role, target, expected) =>
      if R.Transition(s, id, role, target, expected).Some? { TransitionForward(s, t, id, role, target, expected); }
    case Grant(id, role, caps, expected) =>
      if R.Grant(s, id, role, caps, expected).Some? { GrantForward(s, t, id, role, caps, expected); }
    case Offer(id, task, actor, recipient, role, expiresAt) =>
      if H.Offer(s, id, task, actor, recipient, role, expiresAt).Some? {
        OfferForward(s, t, id, task, actor, recipient, role, expiresAt);
      }
    case Expire(due) => ExpireForward(s, t, due);
    case Accept(id, actor) => if H.Accept(s, id, actor).Some? { AcceptForward(s, t, id, actor); }
    case Reply(id, actor, state) => if H.Reply(s, id, actor, state).Some? { ReplyForward(s, t, id, actor, state); }
  }

  // Proposals, decisions, execution.

  lemma CreatedForward(s: Db, t: Db, pid: Id, task: Id, actor: Id, origin: Id, draft: seq<Operation>, ids: seq<Id>)
    requires |ids| == |draft| && CreateProposal(s, pid, task, actor, origin, draft, ids) == Ok(t)
    requires RowsOk(s.tasks, s.proposals)
    ensures ProposalsForward(s.proposals, t.proposals) && KeysForward(s.keys, t.keys)
    ensures OpenOnly(s.tasks, s.proposals, s.receipts, t.proposals, s.receipts)
    ensures t == s.(proposals := t.proposals, keys := t.keys)
  {
    hide CreateProposal, RowsOk;
    CreateProposalShape(s, pid, task, actor, origin, draft, ids);
    CreatedOpen(s, t, pid, task, actor, origin, draft, ids);
    forall k | k in s.keys
      ensures k in t.keys && t.keys[k].fingerprint == s.keys[k].fingerprint
      ensures s.keys[k].status.Dispatching? || s.keys[k].status.KeyVerified? ==> t.keys[k] == s.keys[k]
    {
      CreateProposalKeepsKeys(s, pid, task, actor, origin, draft, ids, k);
    }
  }

  lemma CreatedOpen(s: Db, t: Db, pid: Id, task: Id, actor: Id, origin: Id, draft: seq<Operation>, ids: seq<Id>)
    requires |ids| == |draft| && CreateProposal(s, pid, task, actor, origin, draft, ids) == Ok(t)
    ensures task in s.tasks && Open(s.tasks[task].status) && s.tasks[task].owner == actor
    ensures forall p | p in s.proposals && !Live(s.proposals[p].status) ::
      p in t.proposals && t.proposals[p] == s.proposals[p]
  {
    hide FirstFault, ReserveAll, Greatest, Revisions;
  }

  lemma ProposeForward(s: Db, t: Db, pid: Id, task: Id, actor: Id, draft: seq<Operation>, ids: seq<Id>)
    requires |ids| == |draft| && CreateProposal(s, pid, task, actor, NO_ID, draft, ids) == Ok(t)
    requires RowsOk(s.tasks, s.proposals)
    ensures Forward(s, t)
  {
    hide ProposalsForward, KeysForward, DecisionsForward, EffectsForward, TasksForward, OpenOnly, HandoffsForward,
      AgentsForward, R.Widened, RunsForward, GatesForward, FreshWork, LedgerForward, RowsOk, CreateProposal;
    CreatedForward(s, t, pid, task, actor, NO_ID, draft, ids);
    Unchanged(s, t);
    SameLedger(s.records, t.records, s.receipts);
  }

  lemma DecidedForward(s: Db, t: Db, pid: Id, actor: Id, kind: DecisionKind, revision: int, digest: Digest)
    requires Decide(s, pid, actor, kind, revision, digest) == Some(t) && t != s
    ensures ProposalsForward(s.proposals, t.proposals) && KeysForward(s.keys, t.keys)
    ensures DecisionsForward(s.decisions, t.decisions)
  {
    hide InsertEffects, Dispatch, ReleaseKeys, SetStatus, ProposalsForward, KeysForward;
    KeysSettleForward(s.keys, pid);
    StatusForward(s.proposals);
  }

  lemma KeysSettleForward(keys: map<Key, KeyRow>, pid: Id)
    ensures KeysForward(keys, keys) && KeysForward(keys, Dispatch(keys, pid))
      && KeysForward(keys, ReleaseKeys(keys, pid))
  {
  }

  lemma StatusForward(proposals: map<Id, Proposal>)
    ensures forall p, status | p in proposals && (Live(proposals[p].status) || status == proposals[p].status) ::
      ProposalsForward(proposals, SetStatus(proposals, p, status))
  {
  }

  lemma InsertedForward(s: Db, t: Db, pid: Id, actor: Id, kind: DecisionKind, revision: int, digest: Digest)
    requires Decide(s, pid, actor, kind, revision, digest) == Some(t)
    ensures EffectsForward(s.effects, t.effects)
  {
    hide Decide, InsertEffects;
    DecideShape(s, t, pid, actor, kind, revision, digest);
    InsertedAuthorized(s.effects, s.keys, pid, s.proposals[pid].ops);
  }

  lemma DecideForward(s: Db, t: Db, pid: Id, actor: Id, kind: DecisionKind, revision: int, digest: Digest)
    requires Decide(s, pid, actor, kind, revision, digest) == Some(t)
    ensures Forward(s, t)
  {
    hide ProposalsForward, KeysForward, DecisionsForward, EffectsForward, TasksForward, OpenOnly, HandoffsForward,
      AgentsForward, R.Widened, RunsForward, GatesForward, FreshWork, LedgerForward, Decide;
    if t == s {
      ForwardReflexive(s);
    } else {
      DecidedForward(s, t, pid, actor, kind, revision, digest);
      InsertedForward(s, t, pid, actor, kind, revision, digest);
      DecideShape(s, t, pid, actor, kind, revision, digest);
      Unchanged(s, t);
      SameLedger(s.records, t.records, s.receipts);
    }
  }

  lemma ExecutedForward(s: Db, t: Db)
    requires Worked(s, t)
    requires ProposalsForward(s.proposals, t.proposals) && KeysForward(s.keys, t.keys)
    requires EffectsForward(s.effects, t.effects) && TasksForward(s.tasks, t.tasks)
    requires LedgerForward(s.records, s.receipts, t.records, t.receipts)
    requires OpenOnly(s.tasks, s.proposals, s.receipts, t.proposals, t.receipts)
    ensures Forward(s, t)
  {
    hide ProposalsForward, KeysForward, DecisionsForward, EffectsForward, TasksForward, OpenOnly, HandoffsForward,
      AgentsForward, R.Widened, RunsForward, GatesForward, FreshWork, LedgerForward;
    Unchanged(s, t);
  }

  lemma CommitTables(s: Db, t: Db, pid: Id, records: map<Id, Record>, receipts: seq<Receipt>)
    requires RowsOk(s.tasks, s.proposals) && pid in s.proposals && s.proposals[pid].status.Approved?
    requires t == Commit(s, pid, records, receipts)
    ensures ProposalsForward(s.proposals, t.proposals) && KeysForward(s.keys, t.keys)
    ensures EffectsForward(s.effects, t.effects) && TasksForward(s.tasks, t.tasks)
  {
    hide Woken, Deliveries, Finish, VerifyEffects, VerifyKeys, SetStatus, RowsOk, ProposalsForward, KeysForward,
      EffectsForward, TasksForward;
    FinishForward(s, pid);
    StatusForward(s.proposals);
    VerifyForward(s.keys, s.effects, pid);
  }

  lemma FinishForward(s: Db, pid: Id)
    requires RowsOk(s.tasks, s.proposals) && pid in s.proposals && s.proposals[pid].status.Approved?
    ensures TasksForward(s.tasks, Finish(s.tasks, s.proposals[pid].task))
  {
  }

  lemma VerifyForward(keys: map<Key, KeyRow>, effects: map<EffectKey, Effect>, pid: Id)
    ensures KeysForward(keys, VerifyKeys(keys, pid)) && EffectsForward(effects, VerifyEffects(effects, pid, Verified))
  {
  }

  lemma CommitLedger(s: Db, t: Db, pid: Id, records: map<Id, Record>, receipts: seq<Receipt>)
    requires RowsOk(s.tasks, s.proposals) && pid in s.proposals && s.proposals[pid].status.Approved?
    requires t == Commit(s, pid, records, receipts)
    requires records.Keys == s.records.Keys
    requires forall r | r in s.records :: Moved(s.records[r], records[r], receipts, r)
    requires forall i | 0 <= i < |receipts| :: receipts[i].effect.proposal == pid
    ensures LedgerForward(s.records, s.receipts, t.records, t.receipts)
    ensures OpenOnly(s.tasks, s.proposals, s.receipts, t.proposals, t.receipts)
  {
    hide Woken, Deliveries, Moved, VerifyEffects, VerifyKeys, Finish;
    assert t.receipts[|s.receipts|..] == receipts;
    forall i | |s.receipts| <= i < |t.receipts| ensures t.receipts[i].effect.proposal == pid {
      assert t.receipts[i] == receipts[i - |s.receipts|];
    }
  }

  lemma CommitForward(s: Db, t: Db, pid: Id, order: seq<Id>)
    requires EffectsOk(s.proposals, s.decisions, s.effects) && AllOpsOk(s.records, s.proposals)
    requires RowsOk(s.tasks, s.proposals) && pid in s.proposals && s.proposals[pid].status.Approved?
    requires forall i | 0 <= i < |order| :: EffectKey(pid, order[i]) in s.effects
    requires ApplyOps(s.records, pid, OpsInOrder(s.effects, pid, order)).Applied?
    requires var out := ApplyOps(s.records, pid, OpsInOrder(s.effects, pid, order));
      t == Commit(s, pid, out.records, out.receipts)
    ensures Forward(s, t)
  {
    hide ProposalsForward, KeysForward, EffectsForward, TasksForward, OpenOnly, LedgerForward, Forward, Commit,
      ApplyOps, Moved, Worked, RowsOk, EffectsOk, AllOpsOk;
    var out := ApplyOps(s.records, pid, OpsInOrder(s.effects, pid, order));
    CommitMoves(s, pid, order);
    CommitTables(s, t, pid, out.records, out.receipts);
    CommitLedger(s, t, pid, out.records, out.receipts);
    CommitWorked(s, t, pid, out.records, out.receipts);
    ExecutedForward(s, t);
  }

  /** Setting back and marking touch no record and write no receipt. */
  lemma SetBackForward(s: Db, t: Db, pid: Id)
    requires Worked(s, t) && t.receipts == s.receipts && t.records == s.records && t.keys == s.keys
    requires RowsOk(s.tasks, s.proposals) && pid in s.proposals && s.proposals[pid].status.Approved?
    requires t.tasks == s.tasks || exists bump | 0 <= bump <= 1 ::
      t.tasks == Block(s.tasks, s.proposals[pid].task, bump)
    requires t.proposals == s.proposals || t.proposals == SetStatus(s.proposals, pid, NeedsAttention)
    requires t.effects == s.effects || t.effects == VerifyEffects(s.effects, pid, EffectNeedsAttention)
    ensures Forward(s, t)
  {
    hide Forward, Worked, KeysForward, OpenOnly, LedgerForward, ProposalsForward, EffectsForward, TasksForward, RowsOk,
      VerifyEffects, SetStatus, Block;
    Unchanged(s, t);
    SameLedger(s.records, t.records, s.receipts);
    SameKeys(s, t);
    SetBackTablesForward(s, pid);
    ExecutedForward(s, t);
  }

  lemma SetBackTablesForward(s: Db, pid: Id)
    requires RowsOk(s.tasks, s.proposals) && pid in s.proposals && s.proposals[pid].status.Approved?
    ensures forall bump | 0 <= bump <= 1 :: TasksForward(s.tasks, Block(s.tasks, s.proposals[pid].task, bump))
    ensures ProposalsForward(s.proposals, SetStatus(s.proposals, pid, NeedsAttention))
    ensures EffectsForward(s.effects, VerifyEffects(s.effects, pid, EffectNeedsAttention))
  {
  }

  lemma SameKeys(s: Db, t: Db)
    requires Worked(s, t)
    ensures t.proposals.Keys == s.proposals.Keys
  {
  }

  lemma AppliedForward(s: Db, t: Db, pid: Id, order: seq<Id>)
    requires Inv(s) && forall i | 0 <= i < |order| :: EffectKey(pid, order[i]) in s.effects
    requires Apply(s, pid, order) == Handled(t)
    ensures Forward(s, t)
  {
    hide Inv, Forward, SetBack, Commit, ApplyOps, Permitted, Worked, RowsOk, EffectsOk, AllOpsOk, OneLive, KeysOk,
      DecisionsOk, ReceiptsOk, TargetsOk, RunsOk;
    InvRows(s);
    ApplyWorked(s, t, pid, order);
    if s.proposals[pid].status.Approved? || s.proposals[pid].status.Executing? {
      NeverExecuting(s.tasks, s.proposals, pid);
      if Permitted(s, s.proposals[pid].task, pid) {
        CommitForward(s, t, pid, order);
      } else {
        SetBackTables(s, t, pid);
        SetBackForward(s, t, pid);
      }
    } else {
      ForwardReflexive(s);
    }
  }

  lemma SetBackTables(s: Db, t: Db, pid: Id)
    requires pid in s.proposals && t == SetBack(s, pid)
    ensures t.receipts == s.receipts && t.records == s.records && t.keys == s.keys && t.effects == s.effects
    ensures t.tasks == s.tasks || t.tasks == Block(s.tasks, s.proposals[pid].task, 0)
    ensures t.proposals == s.proposals || t.proposals == SetStatus(s.proposals, pid, NeedsAttention)
  {
    hide Blocking;
  }

  lemma SameButJobs(s: Db, m: Db, t: Db)
    requires Forward(s, m) && t == m.(jobs := t.jobs)
    ensures Forward(s, t)
  {
    hide ProposalsForward, KeysForward, DecisionsForward, EffectsForward, TasksForward, OpenOnly, HandoffsForward,
      AgentsForward, R.Widened, RunsForward, GatesForward, FreshWork, LedgerForward;
  }

  lemma ExecuteForward(s: Db, t: Db, pid: Id, order: seq<Id>, acknowledged: bool)
    requires Inv(s) && IsOrder(s.effects, pid, order) && t == RunJob(s, pid, order, acknowledged)
    ensures Forward(s, t)
  {
    hide Inv, Forward, Apply;
    match Apply(s, pid, order)
    case Handled(m) =>
      AppliedForward(s, m, pid, order);
      SameButJobs(s, m, t);
    case Fault(_) =>
      ForwardReflexive(s);
      SameButJobs(s, s, t);
    case OtherFault => ForwardReflexive(s);
  }

  lemma MarkForward(s: Db, t: Db, pid: Id)
    requires Inv(s) && t == Mark(s, pid)
    ensures Forward(s, t)
  {
    hide Inv, Forward, Worked, RowsOk, EffectsOk, AllOpsOk, OneLive, KeysOk, DecisionsOk, ReceiptsOk, TargetsOk, RunsOk,
      VerifyEffects, Block;
    InvRows(s);
    MarkWorked(s, t, pid);
    if pid in s.proposals && (s.proposals[pid].status.Approved? || s.proposals[pid].status.Executing?) {
      NeverExecuting(s.tasks, s.proposals, pid);
      SetBackForward(s, t, pid);
    } else {
      ForwardReflexive(s);
    }
  }

  lemma MarkedForward(s: Db, t: Db, pid: Id, acknowledged: bool)
    requires Inv(s) && t == MarkJob(s, pid, acknowledged)
    ensures Forward(s, t)
  {
    hide Inv, Forward, Mark;
    MarkForward(s, Mark(s, pid), pid);
    SameButJobs(s, Mark(s, pid), t);
  }

  lemma CrashForward(s: Db, t: Db, pid: Id)
    requires t == CrashJob(s, pid)
    ensures Forward(s, t)
  {
    hide Forward;
    ForwardReflexive(s);
    SameButJobs(s, s, t);
  }

  lemma DuplicateForward(s: Db, t: Db, pid: Id)
    requires t == RedeliverJob(s, pid)
    ensures Forward(s, t)
  {
    hide Forward;
    ForwardReflexive(s);
    SameButJobs(s, s, t);
  }

  lemma WorkForward(s: Db, t: Db, step: WorkStep)
    requires Inv(s) && WorkEnabled(s, step) && t == WorkNext(s, step)
    ensures Forward(s, t)
  {
    hide Inv, Forward, CreateProposal, Decide, RunJob, MarkJob, CrashJob, RedeliverJob, HasJob, IsOrder, RowsOk,
      EffectsOk, AllOpsOk, OneLive, KeysOk, DecisionsOk, ReceiptsOk, TargetsOk, RunsOk;
    InvRows(s);
    ForwardReflexive(s);
    match step
    case Propose(pid, task, actor, draft, ids) =>
      if CreateProposal(s, pid, task, actor, NO_ID, draft, ids).Ok? {
        ProposeForward(s, t, pid, task, actor, draft, ids);
      }
    case MakeDecision(pid, actor, kind, revision, digest) =>
      if Decide(s, pid, actor, kind, revision, digest).Some? {
        DecideForward(s, t, pid, actor, kind, revision, digest);
      }
    case Execute(pid, order, acknowledged) => ExecuteForward(s, t, pid, order, acknowledged);
    case MarkFailed(pid, acknowledged) => MarkedForward(s, t, pid, acknowledged);
    case CrashExecution(pid) => CrashForward(s, t, pid);
    case DuplicateJob(pid) => DuplicateForward(s, t, pid);
  }

  // Agent runs.

  lemma RunMovedForward(s: Db, t: Db)
    requires RunMoved(s, t) && s.issued <= t.issued && FreshWork(s.tasks, s.runs, s.gates, t.runs, t.gates)
    ensures Forward(s, t)
  {
    hide ProposalsForward, KeysForward, DecisionsForward, EffectsForward, TasksForward, OpenOnly, HandoffsForward,
      AgentsForward, R.Widened, RunsForward, GatesForward, FreshWork, LedgerForward;
    Unchanged(s, t);
    SameLedger(s.records, t.records, s.receipts);
  }

  lemma HandlerForward(s: Db, t: Db, step: HandlerStep)
    requires Inv(s) && HandlerEnabled(s, step) && t == HandlerNext(s, step)
    ensures Forward(s, t)
  {
    hide Inv, Forward, HandlerNext, HandlerEnabled, RunMoved, RunsOk;
    InvRuns(s);
    HandlerMoves(s, t, step);
    HandlerIssues(s, t, step);
    HandlerFresh(s, t, step);
    RunMovedForward(s, t);
  }

  lemma InvRuns(s: Db)
    requires Inv(s)
    ensures RunsOk(s)
  {
    hide BooksOk, RunsOk, ExecOk, WakeOk, DepsOk, H.HandoffsOk, R.ReleasesOk, R.AdmissionsOk;
  }

  /** Only parking adds a row: a question of a running run, whose task is not cancelled. */
  lemma HandlerFresh(s: Db, t: Db, step: HandlerStep)
    requires RunsOk(s) && HandlerEnabled(s, step) && t == HandlerNext(s, step) && RunMoved(s, t)
    ensures FreshWork(s.tasks, s.runs, s.gates, t.runs, t.gates)
  {
    hide FreshWork, RunsOk, HandlerNext, RunsForward, GatesForward;
    if step.ParkRun? {
      HandlerParks(s, t, step);
      ParkFresh(s, t, step.d, step.gate, step.schema, step.respondent);
    } else {
      HandlerAsksNothing(s, t, step);
      Unchanged(s, t);
    }
  }

  lemma HandlerParks(s: Db, t: Db, step: HandlerStep)
    requires HandlerEnabled(s, step) && t == HandlerNext(s, step) && step.ParkRun?
    ensures t == Park(s, step.d, step.gate, step.schema, step.respondent)
  {
    hide Park;
  }

  lemma HandlerAsksNothing(s: Db, t: Db, step: HandlerStep)
    requires HandlerEnabled(s, step) && t == HandlerNext(s, step) && !step.ParkRun?
    ensures t.gates == s.gates
  {
    hide Park, Claimable;
  }

  lemma ParkFresh(s: Db, t: Db, d: Delivery, gate: Id, schema: Schema, respondent: Id)
    requires RunsOk(s) && d in s.deliveries && d.phase.Working? && t == Park(s, d, gate, schema, respondent)
    ensures FreshWork(s.tasks, s.runs, s.gates, t.runs, t.gates)
  {
    hide TokensOk, NoRunLost, HoldersOk, LeasesOk, GatesOk, OriginsOk, ValidSchema, PendingFor;
  }

  lemma HandlerIssues(s: Db, t: Db, step: HandlerStep)
    requires HandlerEnabled(s, step) && t == HandlerNext(s, step)
    ensures s.issued <= t.issued
  {
    hide Ask, Claimable;
  }

  lemma PublishedForward(s: Db, t: Db, d: Delivery, pid: Id, draft: seq<Operation>, ids: seq<Id>)
    requires RowsOk(s.tasks, s.proposals)
    requires d.phase.Working? && |ids| == |draft| && t == Publish(s, d, pid, draft, ids)
    ensures Forward(s, t)
  {
    hide ProposalsForward, KeysForward, DecisionsForward, EffectsForward, TasksForward, OpenOnly, HandoffsForward,
      AgentsForward, R.Widened, RunsForward, GatesForward, FreshWork, LedgerForward, Publish, Judge, RowsOk,
      CreateProposal;
    PublishShape(s, t, d, pid, draft, ids);
    JudgeIs(s, d, pid, draft, ids);
    Unchanged(s, t);
    SameLedger(s.records, t.records, s.receipts);
    if Judge(s, d, pid, draft, ids).Made? {
      var m := CreateProposal(s, pid, s.runs[d.run].task, d.phase.owner, d.run, draft, ids).value;
      CreatedForward(s, m, pid, s.runs[d.run].task, d.phase.owner, d.run, draft, ids);
    }
  }

  lemma StartForward(s: Db, t: Db, id: Id, task: Id, actor: Id, agent: Id, release: Id, runners: set<string>)
    requires CreateRun(s, id, task, actor, agent, release, runners) == Some(t)
    ensures Forward(s, t)
  {
    hide ProposalsForward, KeysForward, DecisionsForward, EffectsForward, TasksForward, OpenOnly, HandoffsForward,
      AgentsForward, R.Widened, GatesForward, LedgerForward;
    assert FreshWork(s.tasks, s.runs, s.gates, t.runs, t.gates);
    Unchanged(s, t);
    SameLedger(s.records, t.records, s.receipts);
  }

  lemma RunStepForward(s: Db, t: Db, step: RunStep)
    requires Inv(s) && RunEnabled(s, step) && t == RunNext(s, step)
    ensures Forward(s, t)
  {
    hide Inv, Forward, CreateRun, Publish, ResolveGate, Reclaim, RowsOk, EffectsOk, AllOpsOk, OneLive, KeysOk,
      DecisionsOk, ReceiptsOk, TargetsOk, RunsOk, RunMoved, EligibleRuns;
    InvRows(s);
    ForwardReflexive(s);
    match step
    case StartRun(id, task, actor, agent, release, runners) =>
      if CreateRun(s, id, task, actor, agent, release, runners).Some? {
        StartForward(s, t, id, task, actor, agent, release, runners);
      }
    case PublishRun(d, pid, draft, ids) => PublishedForward(s, t, d, pid, draft, ids);
    case Answer(gate, actor, revision, response) =>
      if ResolveGate(s, gate, actor, revision, response).Some? {
        AnsweredForward(s, t, gate, actor, revision, response);
      }
    case Sweep(limit, chosen) => SweepForward(s, t, chosen);
  }

  lemma AnsweredForward(s: Db, t: Db, gate: Id, actor: Id, revision: int, response: Response)
    requires ResolveGate(s, gate, actor, revision, response) == Some(t)
    ensures Forward(s, t)
  {
    hide Forward, FreshWork, ResolveGate, RunsForward, GatesForward;
    AnswerForward(s, t, gate, actor, revision, response);
    AnswerAddsNone(s, t, gate, actor, revision, response);
    Unchanged(s, t);
    RunMovedForward(s, t);
  }

  lemma AnswerAddsNone(s: Db, t: Db, gate: Id, actor: Id, revision: int, response: Response)
    requires ResolveGate(s, gate, actor, revision, response) == Some(t)
    ensures t.gates.Keys == s.gates.Keys && t.issued == s.issued
  {
    hide ValidResponse;
  }

  lemma SweepForward(s: Db, t: Db, chosen: set<Id>)
    requires chosen <= EligibleRuns(s) && t == Reclaim(s, chosen)
    ensures Forward(s, t)
  {
    hide Forward, RunMoved, EligibleRuns, FreshWork;
    ReclaimForward(s, t, chosen);
    Unchanged(s, t);
    RunMovedForward(s, t);
  }

  /** Every step goes forward. */
  lemma StepForward(s: Db, step: Step)
    requires Inv(s) && Enabled(s, step)
    ensures Forward(s, Next(s, step))
  {
    hide BooksOk, Forward, AdminNext, OfficeNext, WorkNext, HandlerNext, RunNext, WorkEnabled, HandlerEnabled,
      RunEnabled, RunsOk, ExecOk, WakeOk, DepsOk, H.HandoffsOk, R.ReleasesOk, R.AdmissionsOk;
    var t := Next(s, step);
    match step
    case Admin(admin) => AdminForward(s, t, admin);
    case Office(office) => OfficeForward(s, t, office);
    case Work(work) => WorkForward(s, t, work);
    case Handler(handler) => HandlerForward(s, t, handler);
    case Fleet(run) => RunStepForward(s, t, run);
  }

  /** So does every run. */
  lemma {:induction false} RunForward(s: Db, steps: seq<Step>, t: Db)
    requires Inv(s) && Reachable(s, steps, t)
    ensures Forward(s, t)
    decreases |steps|
  {
    hide Forward, Inv, Next, Enabled;
    if steps == [] {
      ForwardReflexive(s);
    } else {
      var m := Next(s, steps[0]);
      StepForward(s, steps[0]);
      StepInv(s, steps[0]);
      RunForward(m, steps[1..], t);
      ForwardTransitive(s, m, t);
    }
  }
}
