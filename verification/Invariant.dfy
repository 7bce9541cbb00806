/** What every step of the machine keeps, and hence every run. */
module Invariant {
  import opened Wrappers
  import opened Connectors
  import opened GateSchemas
  import opened Tables
  import opened Proposals
  import opened Decisions
  import opened Execution
  import opened Runs
  import opened RunInvariants
  import opened Graph
  import opened Kernel
  import H = Handoffs
  import R = Releases

  /** Dependencies join existing tasks and close no loop. */
  ghost predicate DepsOk(tasks: map<Id, Task>, deps: set<(Id, Id)>) {
    Acyclic(deps) && forall d | d in deps :: d.0 in tasks && d.1 in tasks
  }

  /** Business keys and revision numbers tell what became of the proposals. */
  ghost predicate BooksOk(
    proposals: map<Id, Proposal>, decisions: map<DecisionKey, Decision>, keys: map<Key, KeyRow>)
  {
    KeyRowsOk(proposals, decisions, keys) && RevisionsOk(proposals)
  }

  ghost predicate Inv(s: Db) {
    && ExecOk(s)
    && BooksOk(s.proposals, s.decisions, s.keys)
    && RunsOk(s)
    && DepsOk(s.tasks, s.deps)
    && WakeOk(s.tasks, s.deps, s.proposals, s.jobs)
    && H.HandoffsOk(s.tasks, s.handoffs)
    && R.ReleasesOk(s.releases)
    && R.AdmissionsOk(s.runs, s.agents, s.releases)
  }

  lemma EmptyDeps()
    ensures DepsOk(EMPTY.tasks, EMPTY.deps)
  {
    hide Acyclic;
    NoEdgesAcyclic();
  }

  lemma EmptyInv()
    ensures Inv(EMPTY)
  {
    hide DepsOk;
    EmptyDeps();
  }

  // ---- Frames: what a step does not touch ----------------------------------------------------

  /** ExecOk speaks of these tables only. */
  lemma SameExec(s: Db, t: Db)
    requires ExecOk(s)
    requires t.tasks == s.tasks && t.records == s.records && t.proposals == s.proposals && t.decisions == s.decisions
    requires t.keys == s.keys && t.effects == s.effects && t.receipts == s.receipts
    ensures ExecOk(t)
  {
    hide RowsOk, OneLive, AllOpsOk, KeysOk, DecisionsOk, EffectsOk, ReceiptsOk, TargetsOk;
  }

  /** RunsOk speaks of these tables only. */
  lemma SameRuns(s: Db, t: Db)
    requires RunsOk(s)
    requires t.runs == s.runs && t.gates == s.gates && t.deliveries == s.deliveries && t.issued == s.issued
    requires t.now == s.now && t.tasks == s.tasks && t.proposals == s.proposals
    ensures RunsOk(t)
  {
    hide TokensOk, NoRunLost, HoldersOk, LeasesOk, GatesOk, RunTasksOk, OriginsOk;
  }

  /** Tasks that are added, move on in version, and are neither finished, cancelled nor reopened. */
  ghost predicate TasksKept(tasks: map<Id, Task>, after: map<Id, Task>) {
    && tasks.Keys <= after.Keys
    && forall k | k in tasks :: after[k].status == tasks[k].status && after[k].version >= tasks[k].version
  }

  lemma TasksKeptKeeps(s: Db, t: Db)
    requires Inv(s) && TasksKept(s.tasks, t.tasks) && t == s.(tasks := t.tasks, handoffs := t.handoffs)
    requires H.HandoffsOk(t.tasks, t.handoffs)
    ensures Inv(t)
  {
    hide BooksOk, H.HandoffsOk, R.ReleasesOk, R.AdmissionsOk, Acyclic, WakeOk, RunsOk, OneLive, AllOpsOk, KeysOk,
      DecisionsOk, EffectsOk, ReceiptsOk, TargetsOk;
    TasksKeptWakes(s, t);
    TasksKeptRuns(s, t);
  }

  lemma TasksKeptWakes(s: Db, t: Db)
    requires TasksKept(s.tasks, t.tasks) && t.deps == s.deps && t.proposals == s.proposals && t.jobs == s.jobs
    requires RowsOk(s.tasks, s.proposals) && WakeOk(s.tasks, s.deps, s.proposals, s.jobs)
    ensures WakeOk(t.tasks, t.deps, t.proposals, t.jobs)
  {
    hide WakeOk;
    OtherStepWakes(s, t);
  }

  lemma TasksKeptRuns(s: Db, t: Db)
    requires RunsOk(s) && TasksKept(s.tasks, t.tasks) && t == s.(tasks := t.tasks, handoffs := t.handoffs)
    ensures RunsOk(t)
  {
    hide RunsOk;
    OtherTablesKeep(s, t);
  }

  // ---- Administration ------------------------------------------------------------------------

  lemma TickInv(s: Db, t: Db, seconds: nat)
    requires Inv(s) && t == s.(now := s.now + seconds)
    ensures Inv(t)
  {
    hide BooksOk, ExecOk, RunsOk, DepsOk, WakeOk, H.HandoffsOk, R.ReleasesOk, R.AdmissionsOk;
    TickKeeps(s, t, seconds);
    SameExec(s, t);
  }

  lemma PrincipalInv(s: Db, t: Db)
    requires Inv(s) && t == s.(principals := t.principals)
    ensures Inv(t)
  {
    hide BooksOk, ExecOk, RunsOk, DepsOk, WakeOk, H.HandoffsOk, R.ReleasesOk, R.AdmissionsOk;
    SameExec(s, t);
    SameRuns(s, t);
  }

  lemma AgentInv(s: Db, t: Db, id: Id, agent: Agent)
    requires Inv(s) && CreateAgent(s, id, agent) == Some(t)
    ensures Inv(t)
  {
    hide BooksOk, ExecOk, RunsOk, DepsOk, WakeOk, H.HandoffsOk, R.ReleasesOk;
    SameExec(s, t);
    SameRuns(s, t);
  }

  lemma TaskInv(s: Db, t: Db, id: Id, owner: Id, assignee: Id)
    requires Inv(s) && CreateTask(s, id, owner, assignee) == Some(t)
    ensures Inv(t)
  {
    hide BooksOk, ExecOk, RunsOk, DepsOk, WakeOk, H.HandoffsOk, R.ReleasesOk, R.AdmissionsOk;
    H.AdvanceKeepsHandoffs(s.tasks, t.tasks, s.handoffs);
    TasksKeptKeeps(s, t);
  }

  lemma RecordInv(s: Db, t: Db, id: Id, integration: string, data: Data)
    requires Inv(s) && AddRecord(s, id, integration, data) == Some(t)
    ensures Inv(t)
  {
    hide BooksOk, RunsOk, DepsOk, WakeOk, H.HandoffsOk, R.ReleasesOk, R.AdmissionsOk, RowsOk, OneLive, AllOpsOk, KeysOk,
      DecisionsOk, EffectsOk, ReceiptsOk, TargetsOk;
    RecordKeepsOps(s.records, t.records, s.proposals);
    SameRuns(s, t);
  }

  lemma RecordKeepsOps(records: map<Id, Record>, after: map<Id, Record>, proposals: map<Id, Proposal>)
    requires AllOpsOk(records, proposals)
    requires forall r | r in records :: r in after && after[r].version >= records[r].version
    ensures AllOpsOk(after, proposals)
  {
    forall p | p in proposals ensures OpsOk(after, proposals[p].ops) {
      assert OpsOk(records, proposals[p].ops);
    }
  }

  lemma DependInv(s: Db, t: Db, task: Id, parent: Id)
    requires Inv(s) && AddDependency(s, task, parent) == Some(t)
    ensures Inv(t)
  {
    hide BooksOk, ExecOk, RunsOk, WakeOk, H.HandoffsOk, R.ReleasesOk, R.AdmissionsOk, Acyclic, Reaches;
    AcyclicAfterEdgeIff(s.deps, task, parent);
    DependWakes(s, t);
    SameExec(s, t);
    SameRuns(s, t);
  }

  lemma DependWakes(s: Db, t: Db)
    requires ExecOk(s) && WakeOk(s.tasks, s.deps, s.proposals, s.jobs)
    requires s.deps <= t.deps && t == s.(deps := t.deps)
    ensures WakeOk(t.tasks, t.deps, t.proposals, t.jobs)
  {
    hide WakeOk;
    assert RowsOk(s.tasks, s.proposals);
    OtherStepWakes(s, t);
  }

  // ---- Cancellation --------------------------------------------------------------------------

  lemma RejectKeepsProposals(s: Db, t: Db, task: Id)
    requires RowsOk(s.tasks, s.proposals) && OneLive(s.proposals) && AllOpsOk(s.records, s.proposals)
    requires s.tasks.Keys == t.tasks.Keys && t.proposals == RejectLive(s.proposals, task)
    requires forall k | k in s.tasks && k != task :: t.tasks[k].status == s.tasks[k].status
    requires task in s.tasks && !s.tasks[task].status.TaskDone?
    ensures RowsOk(t.tasks, t.proposals) && OneLive(t.proposals) && AllOpsOk(s.records, t.proposals)
  {
    hide OpsOk;
  }

  lemma RejectLiveKeepsKeys(
    proposals: map<Id, Proposal>, decisions: map<DecisionKey, Decision>, keys: map<Key, KeyRow>, task: Id)
    requires KeysOk(proposals, decisions, keys)
    ensures KeysOk(RejectLive(proposals, task), decisions, keys)
  {
    hide HoldsAll, DistinctKeys;
  }

  lemma RejectKeepsDecisions(
    proposals: map<Id, Proposal>, decisions: map<DecisionKey, Decision>, effects: map<EffectKey, Effect>, task: Id)
    requires DecisionsOk(proposals, decisions) && EffectsOk(proposals, decisions, effects)
    ensures DecisionsOk(RejectLive(proposals, task), decisions)
    ensures EffectsOk(RejectLive(proposals, task), decisions, effects)
  {
    hide EverApproved, Endorsed, FirstOp, HasAllEffects;
  }

  lemma CancelExec(s: Db, t: Db, task: Id, version: int)
    requires ExecOk(s) && CancelTask(s, task, version) == Some(t)
    ensures ExecOk(t)
  {
    hide RowsOk, OneLive, AllOpsOk, KeysOk, DecisionsOk, EffectsOk, ReceiptsOk, TargetsOk, RejectLive, CancelGates,
      CancelRuns;
    RejectKeepsProposals(s, t, task);
    RejectLiveKeepsKeys(s.proposals, s.decisions, s.keys, task);
    RejectKeepsDecisions(s.proposals, s.decisions, s.effects, task);
  }

  lemma RejectLiveBooks(
    proposals: map<Id, Proposal>, decisions: map<DecisionKey, Decision>, keys: map<Key, KeyRow>, task: Id)
    requires BooksOk(proposals, decisions, keys)
    ensures BooksOk(RejectLive(proposals, task), decisions, keys)
  {
    hide EverApproved, RejectDecided, RevisionsOk;
    SameRevisions(proposals, RejectLive(proposals, task));
  }

  lemma CancelBooks(s: Db, t: Db, task: Id, version: int)
    requires BooksOk(s.proposals, s.decisions, s.keys) && CancelTask(s, task, version) == Some(t)
    ensures BooksOk(t.proposals, t.decisions, t.keys)
  {
    hide BooksOk, RejectLive, CancelGates, CancelRuns;
    RejectLiveBooks(s.proposals, s.decisions, s.keys, task);
  }

  lemma CancelWakes(s: Db, t: Db, task: Id, version: int)
    requires ExecOk(s) && WakeOk(s.tasks, s.deps, s.proposals, s.jobs) && CancelTask(s, task, version) == Some(t)
    ensures WakeOk(t.tasks, t.deps, t.proposals, t.jobs)
  {
    hide WakeOk, CancelGates, CancelRuns, OneLive, AllOpsOk, KeysOk, DecisionsOk, EffectsOk, ReceiptsOk, TargetsOk;
    OtherStepWakes(s, t);
  }

  lemma CancelInv(s: Db, t: Db, task: Id, version: int)
    requires Inv(s) && CancelTask(s, task, version) == Some(t)
    ensures Inv(t)
  {
    hide BooksOk, ExecOk, RunsOk, WakeOk, H.HandoffsOk, R.ReleasesOk, Acyclic, CancelGates;
    CancelExec(s, t, task, version);
    CancelBooks(s, t, task, version);
    CancelWakes(s, t, task, version);
    CancelKeeps(s, t, task);
    H.AdvanceKeepsHandoffs(s.tasks, t.tasks, s.handoffs);
  }

  // ---- Releases and handoffs -----------------------------------------------------------------

  lemma ReleasesInv(s: Db, t: Db)
    requires Inv(s) && t == s.(releases := t.releases)
    requires R.ReleasesOk(t.releases) && R.Widened(s.releases, t.releases)
    ensures Inv(t)
  {
    hide BooksOk, ExecOk, RunsOk, DepsOk, WakeOk, H.HandoffsOk, R.ReleasesOk, R.AdmissionsOk, R.Widened;
    R.WidenedKeeps(s.runs, s.agents, s.releases, t.releases);
    SameExec(s, t);
    SameRuns(s, t);
  }

  lemma HandoffsInv(s: Db, t: Db)
    requires Inv(s) && t == s.(handoffs := t.handoffs) && H.HandoffsOk(t.tasks, t.handoffs)
    ensures Inv(t)
  {
    hide BooksOk, ExecOk, RunsOk, DepsOk, WakeOk, H.HandoffsOk, R.ReleasesOk, R.AdmissionsOk;
    SameExec(s, t);
    SameRuns(s, t);
  }

  lemma AcceptInv(s: Db, t: Db, id: Id, actor: Id)
    requires Inv(s) && H.Accept(s, id, actor) == Some(t)
    ensures Inv(t)
  {
    hide BooksOk, ExecOk, RunsOk, DepsOk, WakeOk, H.HandoffsOk, R.ReleasesOk, R.AdmissionsOk;
    H.AcceptKeeps(s, t, id, actor);
    TasksKeptKeeps(s, t);
  }

  // ---- Proposals, decisions, execution -------------------------------------------------------

  /** Proposals change status and are added; none becomes approved. */
  ghost predicate ProposalsKept(s: Db, t: Db) {
    && s.proposals.Keys <= t.proposals.Keys
    && (forall p | p in s.proposals :: t.proposals[p] == s.proposals[p].(status := t.proposals[p].status))
    && (forall p | p in t.proposals && t.proposals[p].status.Approved? ::
          p in s.proposals && s.proposals[p].status.Approved?)
  }

  lemma ProposalsKeptWakes(s: Db, t: Db)
    requires RowsOk(s.tasks, s.proposals) && WakeOk(s.tasks, s.deps, s.proposals, s.jobs)
    requires ProposalsKept(s, t) && t.tasks == s.tasks && t.deps == s.deps && t.jobs == s.jobs
    ensures WakeOk(t.tasks, t.deps, t.proposals, t.jobs)
  {
    hide WakeOk;
    OtherStepWakes(s, t);
  }

  lemma CreatedKept(s: Db, t: Db, pid: Id, task: Id, actor: Id, origin: Id, draft: seq<Operation>, ids: seq<Id>)
    requires |ids| == |draft| && CreateProposal(s, pid, task, actor, origin, draft, ids) == Ok(t)
    ensures ProposalsKept(s, t) && t == s.(proposals := t.proposals, keys := t.keys)
    ensures t.proposals.Keys == s.proposals.Keys + {pid} && t.proposals[pid].originRun == origin
  {
    hide CreateProposal, Greatest, Revisions;
    CreateProposalShape(s, pid, task, actor, origin, draft, ids);
  }

  lemma ProposeInv(s: Db, t: Db, pid: Id, task: Id, actor: Id, draft: seq<Operation>, ids: seq<Id>)
    requires Inv(s) && |ids| == |draft| && CreateProposal(s, pid, task, actor, NO_ID, draft, ids) == Ok(t)
    ensures Inv(t)
  {
    hide BooksOk, RunsOk, DepsOk, WakeOk, H.HandoffsOk, R.ReleasesOk, R.AdmissionsOk, Core, ReceiptsOk, TargetsOk,
      CreateProposal;
    CreatedKept(s, t, pid, task, actor, NO_ID, draft, ids);
    CreateKeepsCore(s, t, pid, task, actor, NO_ID, draft, ids);
    CreateBooks(s, t, pid, task, actor, NO_ID, draft, ids);
    CoreRows(s);
    ProposalsKeptWakes(s, t);
    OtherTablesKeep(s, t);
  }

  lemma CreateBooks(s: Db, t: Db, pid: Id, task: Id, actor: Id, origin: Id, draft: seq<Operation>, ids: seq<Id>)
    requires |ids| == |draft| && CreateProposal(s, pid, task, actor, origin, draft, ids) == Ok(t)
    requires Core(s) && BooksOk(s.proposals, s.decisions, s.keys)
    ensures BooksOk(t.proposals, t.decisions, t.keys)
  {
    hide CreateProposal, KeyRowsOk, RevisionsOk, Greatest, Core;
    CoreRows(s);
    CreateProposalShape(s, pid, task, actor, origin, draft, ids);
    CreatedKeepsKeyRows(s, t, pid, task, actor, origin, draft, ids);
    NewRevisionKeeps(s.proposals, t.proposals, pid);
  }

  lemma CoreRows(s: Db)
    requires Core(s)
    ensures RowsOk(s.tasks, s.proposals) && OneLive(s.proposals) && DecisionsOk(s.proposals, s.decisions)
  {
  }

  /** What a decision writes. */
  lemma DecideShape(s: Db, t: Db, pid: Id, actor: Id, kind: DecisionKind, revision: int, digest: Digest)
    requires Decide(s, pid, actor, kind, revision, digest) == Some(t)
    ensures t == s.(decisions := t.decisions, proposals := t.proposals, keys := t.keys, effects := t.effects,
      jobs := t.jobs)
    ensures pid in s.proposals && t.proposals == SetStatus(s.proposals, pid, t.proposals[pid].status)
    ensures if kind.Approve? && t.decisions != s.decisions then
        && t.proposals[pid].status.Approved? && t.jobs == s.jobs + multiset{Job(pid, Delivered)}
        && t.effects == InsertEffects(s.effects, s.keys, pid, s.proposals[pid].ops)
      else
        && t.effects == s.effects && t.jobs == s.jobs
        && (t.proposals[pid].status.Approved? ==> s.proposals[pid].status.Approved?)
  {
    hide InsertEffects, Dispatch, ReleaseKeys;
    if DecisionKey(pid, actor, kind) in s.decisions {
      assert t == s;
    } else {
      assert DecisionKey(pid, actor, kind) in t.decisions;
    }
  }

  lemma {:induction false} InsertedAuthorized(
    effects: map<EffectKey, Effect>, keys: map<Key, KeyRow>, pid: Id, ops: seq<Operation>)
    ensures var after := InsertEffects(effects, keys, pid, ops);
      && (forall e | e in effects :: e in after && after[e] == effects[e])
      && (forall e | e in after && e !in effects :: after[e].state.Authorized?)
    decreases |ops|
  {
    if ops != [] {
      var more := if EffectConflict(effects, keys, pid, ops[0]) then effects
                  else effects[EffectKey(pid, ops[0].id) := Effect(ops[0], Authorized)];
      InsertedAuthorized(more, keys, pid, ops[1..]);
    }
  }

  lemma MoreAuthorizedKeeps(effects: map<EffectKey, Effect>, after: map<EffectKey, Effect>, receipts: seq<Receipt>)
    requires ReceiptsOk(effects, receipts) && TargetsOk(effects)
    requires forall e | e in effects :: e in after && after[e] == effects[e]
    requires forall e | e in after && e !in effects :: after[e].state.Authorized?
    ensures ReceiptsOk(after, receipts) && TargetsOk(after)
  {
    hide HasReceipt;
  }

  lemma DecideReceipts(s: Db, t: Db, pid: Id, actor: Id, kind: DecisionKind, revision: int, digest: Digest)
    requires ReceiptsOk(s.effects, s.receipts) && TargetsOk(s.effects)
    requires Decide(s, pid, actor, kind, revision, digest) == Some(t)
    ensures ReceiptsOk(t.effects, t.receipts) && TargetsOk(t.effects)
  {
    hide Decide, InsertEffects, ReceiptsOk, TargetsOk;
    DecideShape(s, t, pid, actor, kind, revision, digest);
    InsertedAuthorized(s.effects, s.keys, pid, s.proposals[pid].ops);
    if kind.Approve? && t.decisions != s.decisions {
      MoreAuthorizedKeeps(s.effects, t.effects, s.receipts);
    }
  }

  lemma DecideWakes(s: Db, t: Db, pid: Id, actor: Id, kind: DecisionKind, revision: int, digest: Digest)
    requires RowsOk(s.tasks, s.proposals) && WakeOk(s.tasks, s.deps, s.proposals, s.jobs)
    requires Decide(s, pid, actor, kind, revision, digest) == Some(t)
    ensures WakeOk(t.tasks, t.deps, t.proposals, t.jobs)
  {
    hide Decide, InsertEffects, WakeOk;
    DecideShape(s, t, pid, actor, kind, revision, digest);
    if kind.Approve? && t.decisions != s.decisions {
      ApproveWakes(s, t, pid);
    } else {
      ProposalsKeptWakes(s, t);
    }
  }

  lemma DecideBooks(s: Db, t: Db, pid: Id, actor: Id, kind: DecisionKind, revision: int, digest: Digest)
    requires Decide(s, pid, actor, kind, revision, digest) == Some(t)
    requires DecisionsOk(s.proposals, s.decisions) && BooksOk(s.proposals, s.decisions, s.keys)
    ensures BooksOk(t.proposals, t.decisions, t.keys)
  {
    hide Decide, InsertEffects, KeyRowsOk, RevisionsOk, DecisionsOk;
    DecidedKeepsKeyRows(s, t, pid, actor, kind, revision, digest);
    DecideShape(s, t, pid, actor, kind, revision, digest);
    SameRevisions(s.proposals, t.proposals);
  }

  lemma DecideInv(s: Db, t: Db, pid: Id, actor: Id, kind: DecisionKind, revision: int, digest: Digest)
    requires Inv(s) && Decide(s, pid, actor, kind, revision, digest) == Some(t)
    ensures Inv(t)
  {
    hide BooksOk, RunsOk, DepsOk, WakeOk, H.HandoffsOk, R.ReleasesOk, R.AdmissionsOk, Core, ReceiptsOk, TargetsOk,
      Decide, InsertEffects;
    DecideKeeps(s, t, pid, actor, kind, revision, digest);
    DecideShape(s, t, pid, actor, kind, revision, digest);
    DecideReceipts(s, t, pid, actor, kind, revision, digest);
    CoreRows(s);
    DecideBooks(s, t, pid, actor, kind, revision, digest);
    DecideWakes(s, t, pid, actor, kind, revision, digest);
    OtherTablesKeep(s, t);
  }

  /** What the execution worker may change: tasks are finished or blocked, proposals change status. */
  ghost predicate Worked(s: Db, t: Db) {
    && t == s.(records := t.records, receipts := t.receipts, effects := t.effects, keys := t.keys,
               proposals := t.proposals, tasks := t.tasks, jobs := t.jobs)
    && t.tasks.Keys == s.tasks.Keys
    && (forall k | k in s.tasks ::
          && t.tasks[k].version >= s.tasks[k].version
          && (t.tasks[k].status.TaskCancelled? ==> s.tasks[k].status.TaskCancelled?))
    && t.proposals.Keys == s.proposals.Keys
    && (forall p | p in s.proposals :: t.proposals[p] == s.proposals[p].(status := t.proposals[p].status))
  }

  lemma WorkedInv(s: Db, t: Db)
    requires Inv(s) && Worked(s, t) && ExecOk(t) && WakeOk(t.tasks, t.deps, t.proposals, t.jobs)
    requires BooksOk(t.proposals, t.decisions, t.keys)
    ensures Inv(t)
  {
    hide BooksOk, ExecOk, RunsOk, WakeOk, H.HandoffsOk, R.ReleasesOk, R.AdmissionsOk, Acyclic;
    OtherTablesKeep(s, t);
    H.AdvanceKeepsHandoffs(s.tasks, t.tasks, s.handoffs);
  }

  lemma CommitWorked(s: Db, t: Db, pid: Id, records: map<Id, Record>, receipts: seq<Receipt>)
    requires pid in s.proposals && t == Commit(s, pid, records, receipts)
    ensures Worked(s, t)
  {
    hide Woken, Deliveries, VerifyEffects, VerifyKeys;
  }

  lemma SetBackWorked(s: Db, t: Db, pid: Id)
    requires pid in s.proposals && t == SetBack(s, pid)
    ensures Worked(s, t)
  {
    hide Blocking;
  }

  lemma ApplyWorked(s: Db, t: Db, pid: Id, order: seq<Id>)
    requires forall i | 0 <= i < |order| :: EffectKey(pid, order[i]) in s.effects
    requires Apply(s, pid, order) == Handled(t)
    ensures Worked(s, t)
  {
    hide SetBack, Commit, ApplyOps, Permitted;
    if s.proposals[pid].status.Approved? || s.proposals[pid].status.Executing? {
      if Permitted(s, s.proposals[pid].task, pid) {
        var out := ApplyOps(s.records, pid, OpsInOrder(s.effects, pid, order));
        CommitWorked(s, t, pid, out.records, out.receipts);
      } else {
        SetBackWorked(s, t, pid);
      }
    }
  }

  lemma AsideBooks(
    proposals: map<Id, Proposal>, decisions: map<DecisionKey, Decision>, keys: map<Key, KeyRow>, pid: Id)
    requires BooksOk(proposals, decisions, keys)
    requires pid in proposals && proposals[pid].status.Approved?
    ensures BooksOk(SetStatus(proposals, pid, NeedsAttention), decisions, keys)
  {
    hide RejectDecided, EverApproved, RevisionsOk;
    SameRevisions(proposals, SetStatus(proposals, pid, NeedsAttention));
  }

  lemma FinishBooks(
    proposals: map<Id, Proposal>, decisions: map<DecisionKey, Decision>, keys: map<Key, KeyRow>, pid: Id)
    requires BooksOk(proposals, decisions, keys) && DecisionsOk(proposals, decisions)
    requires pid in proposals && proposals[pid].status.Approved?
    ensures BooksOk(SetStatus(proposals, pid, ProposalDone), decisions, VerifyKeys(keys, pid))
  {
    hide RejectDecided, EverApproved, RevisionsOk;
    SameRevisions(proposals, SetStatus(proposals, pid, ProposalDone));
    var more := VerifyKeys(keys, pid);
    forall k | k in keys ensures KeyRowOk(SetStatus(proposals, pid, ProposalDone), decisions, more[k]) {
      assert KeyRowOk(proposals, decisions, keys[k]);
    }
  }

  lemma CommitBooks(s: Db, t: Db, pid: Id, records: map<Id, Record>, receipts: seq<Receipt>)
    requires BooksOk(s.proposals, s.decisions, s.keys) && DecisionsOk(s.proposals, s.decisions)
    requires pid in s.proposals && s.proposals[pid].status.Approved? && t == Commit(s, pid, records, receipts)
    ensures BooksOk(t.proposals, t.decisions, t.keys)
  {
    hide BooksOk, Finish, VerifyKeys, VerifyEffects, SetStatus, DecisionsOk, Woken, Deliveries;
    FinishBooks(s.proposals, s.decisions, s.keys, pid);
  }

  lemma SetBackBooks(s: Db, t: Db, pid: Id)
    requires BooksOk(s.proposals, s.decisions, s.keys)
    requires pid in s.proposals && s.proposals[pid].status.Approved? && t == SetBack(s, pid)
    ensures BooksOk(t.proposals, t.decisions, t.keys)
  {
    hide BooksOk, Blocking, Block, SetStatus;
    AsideBooks(s.proposals, s.decisions, s.keys, pid);
  }

  lemma ApplyBooks(s: Db, t: Db, pid: Id, order: seq<Id>)
    requires Core(s) && BooksOk(s.proposals, s.decisions, s.keys)
    requires forall i | 0 <= i < |order| :: EffectKey(pid, order[i]) in s.effects
    requires Apply(s, pid, order) == Handled(t)
    ensures BooksOk(t.proposals, t.decisions, t.keys)
  {
    hide BooksOk, ApplyOps, Permitted, Commit, SetBack, Core, RowsOk, DecisionsOk, OneLive;
    CoreRows(s);
    if s.proposals[pid].status.Approved? || s.proposals[pid].status.Executing? {
      NeverExecuting(s.tasks, s.proposals, pid);
      if Permitted(s, s.proposals[pid].task, pid) {
        var out := ApplyOps(s.records, pid, OpsInOrder(s.effects, pid, order));
        CommitBooks(s, t, pid, out.records, out.receipts);
      } else {
        SetBackBooks(s, t, pid);
      }
    }
  }

  lemma MarkBooks(s: Db, t: Db, pid: Id)
    requires Core(s) && BooksOk(s.proposals, s.decisions, s.keys) && t == Mark(s, pid)
    ensures BooksOk(t.proposals, t.decisions, t.keys)
  {
    hide BooksOk, Block, VerifyEffects, SetStatus, Core, RowsOk, DecisionsOk, OneLive;
    CoreRows(s);
    if pid in s.proposals && (s.proposals[pid].status.Approved? || s.proposals[pid].status.Executing?) {
      NeverExecuting(s.tasks, s.proposals, pid);
      AsideBooks(s.proposals, s.decisions, s.keys, pid);
    }
  }

  lemma ExecuteInv(s: Db, t: Db, pid: Id, order: seq<Id>, acknowledged: bool)
    requires Inv(s) && IsOrder(s.effects, pid, order) && t == RunJob(s, pid, order, acknowledged)
    ensures Inv(t)
  {
    hide BooksOk, RunsOk, DepsOk, WakeOk, H.HandoffsOk, R.ReleasesOk, R.AdmissionsOk, Core, ReceiptsOk, TargetsOk,
      Apply;
    CoreRows(s);
    RunJobWakes(s, t, pid, order, acknowledged);
    match Apply(s, pid, order)
    case Handled(m) =>
      ApplyKeeps(s, m, pid, order);
      ApplyBooks(s, m, pid, order);
      ApplyWorked(s, m, pid, order);
      SameExec(m, t);
      WorkedInv(s, t);
    case Fault(_) => JobsInv(s, t);
    case OtherFault =>
  }

  lemma JobsInv(s: Db, t: Db)
    requires Inv(s) && t == s.(jobs := t.jobs) && WakeOk(t.tasks, t.deps, t.proposals, t.jobs)
    ensures Inv(t)
  {
    hide BooksOk, ExecOk, RunsOk, DepsOk, WakeOk, H.HandoffsOk, R.ReleasesOk, R.AdmissionsOk;
    SameExec(s, t);
    SameRuns(s, t);
  }

  lemma MarkWorked(s: Db, t: Db, pid: Id)
    requires t == Mark(s, pid)
    ensures Worked(s, t)
  {
    hide VerifyEffects;
  }

  lemma MarkInv(s: Db, t: Db, pid: Id, acknowledged: bool)
    requires Inv(s) && t == MarkJob(s, pid, acknowledged)
    ensures Inv(t)
  {
    hide BooksOk, RunsOk, DepsOk, WakeOk, H.HandoffsOk, R.ReleasesOk, R.AdmissionsOk, Core, ReceiptsOk, TargetsOk, Mark;
    CoreRows(s);
    var m := Mark(s, pid);
    MarkKeeps(s, m, pid);
    MarkBooks(s, m, pid);
    MarkJobWakes(s, t, pid, acknowledged);
    SameExec(m, t);
    MarkWorked(s, m, pid);
    WorkedInv(s, t);
  }

  lemma CrashInv(s: Db, t: Db, pid: Id)
    requires Inv(s) && t == CrashJob(s, pid)
    ensures Inv(t)
  {
    hide BooksOk, ExecOk, RunsOk, DepsOk, WakeOk, H.HandoffsOk, R.ReleasesOk, R.AdmissionsOk;
    CrashJobWakes(s, t, pid);
    JobsInv(s, t);
  }

  lemma DuplicateInv(s: Db, t: Db, pid: Id)
    requires Inv(s) && t == RedeliverJob(s, pid)
    ensures Inv(t)
  {
    hide BooksOk, ExecOk, RunsOk, DepsOk, WakeOk, H.HandoffsOk, R.ReleasesOk, R.AdmissionsOk;
    RedeliverJobWakes(s, t, pid);
    JobsInv(s, t);
  }

  // ---- Agent runs ----------------------------------------------------------------------------

  /** Runs are added and move on; what they are for never changes, and an ended one is frozen. */
  ghost predicate RunsForward(runs: map<Id, Run>, after: map<Id, Run>) {
    && runs.Keys <= after.Keys
    && (forall r | r in runs ::
          && after[r].task == runs[r].task && after[r].agent == runs[r].agent && after[r].release == runs[r].release
          && after[r].createdBy == runs[r].createdBy
          && (!LiveRun(runs[r].status) ==> after[r] == runs[r]))
  }

  /** Questions stay as they were asked, and an answered or cancelled one is frozen. */
  ghost predicate GatesForward(gates: map<Id, Gate>, after: map<Id, Gate>) {
    && gates.Keys <= after.Keys
    && (forall g | g in gates ::
          && after[g].task == gates[g].task && after[g].run == gates[g].run && after[g].schema == gates[g].schema
          && after[g].respondent == gates[g].respondent
          && (!gates[g].status.GatePending? ==> after[g] == gates[g]))
  }

  /** What a handler may change: runs, gates and deliveries. */
  ghost predicate RunMoved(s: Db, t: Db) {
    && t == s.(runs := t.runs, gates := t.gates, deliveries := t.deliveries, issued := t.issued)
    && RunsForward(s.runs, t.runs) && GatesForward(s.gates, t.gates) && t.runs.Keys == s.runs.Keys
  }

  lemma RunMovedInv(s: Db, t: Db)
    requires Inv(s) && RunMoved(s, t) && RunsOk(t)
    ensures Inv(t)
  {
    hide BooksOk, ExecOk, RunsOk, DepsOk, WakeOk, H.HandoffsOk, R.ReleasesOk, GatesForward;
    SameExec(s, t);
  }

  lemma SameGates(gates: map<Id, Gate>)
    ensures GatesForward(gates, gates)
  {
  }

  lemma SameRunsForward(runs: map<Id, Run>)
    ensures RunsForward(runs, runs)
  {
  }

  /** One live run becomes `run`. */
  lemma LiveRunForward(runs: map<Id, Run>, id: Id, run: Run)
    requires id in runs && LiveRun(runs[id].status)
    requires run.task == runs[id].task && run.agent == runs[id].agent && run.release == runs[id].release
    requires run.createdBy == runs[id].createdBy
    ensures RunsForward(runs, runs[id := run])
  {
  }

  lemma MovedForward(s: Db, t: Db, d: Delivery, phase: Phase)
    requires t == Move(s, d, phase)
    ensures RunMoved(s, t)
  {
    hide GatesForward, RunsForward;
    SameGates(s.gates);
    SameRunsForward(s.runs);
  }

  lemma ClaimForward(s: Db, t: Db, id: Id, token: Id, budget: int)
    requires t == Claim(s, id, token, budget)
    ensures RunMoved(s, t)
  {
    hide GatesForward, RunsForward;
    SameGates(s.gates);
    SameRunsForward(s.runs);
    if id in s.runs && Claimable(s.runs[id], s.now) {
      LiveRunForward(s.runs, id, t.runs[id]);
    }
  }

  lemma FailForward(s: Db, t: Db, d: Delivery)
    requires RunsOk(s) && d in s.deliveries && d.phase.Failing? && t == Fail(s, d)
    ensures RunMoved(s, t)
  {
    hide GatesForward, RunsForward, RunsOk;
    HolderHasToken(s, d);
    SameGates(s.gates);
    SameRunsForward(s.runs);
    if s.runs[d.run].token == d.phase.token {
      LiveRunForward(s.runs, d.run, t.runs[d.run]);
    }
  }

  lemma NewGateForward(gates: map<Id, Gate>, id: Id, gate: Gate)
    requires id !in gates
    ensures GatesForward(gates, gates[id := gate])
  {
  }

  /** One pending question is settled. */
  lemma SettledGateForward(gates: map<Id, Gate>, id: Id, gate: Gate)
    requires id in gates && gates[id].status.GatePending?
    requires gate.task == gates[id].task && gate.run == gates[id].run && gate.schema == gates[id].schema
    requires gate.respondent == gates[id].respondent
    ensures GatesForward(gates, gates[id := gate])
  {
  }

  lemma ParkForward(s: Db, t: Db, d: Delivery, gate: Id, schema: Schema, respondent: Id)
    requires d.phase.Working? && t == Park(s, d, gate, schema, respondent)
    ensures RunMoved(s, t)
  {
    hide GatesForward, RunsForward, PendingFor, ValidSchema;
    SameGates(s.gates);
    SameRunsForward(s.runs);
    if t.runs != s.runs {
      LiveRunForward(s.runs, d.run, t.runs[d.run]);
    }
    if t.gates != s.gates {
      NewGateForward(s.gates, gate, t.gates[gate]);
    }
  }

  lemma AnswerForward(s: Db, t: Db, gate: Id, actor: Id, revision: int, response: Response)
    requires ResolveGate(s, gate, actor, revision, response) == Some(t)
    ensures RunMoved(s, t)
  {
    hide RunsForward, GatesForward, ResolveGate;
    AnswerShape(s, t, gate, actor, revision, response);
    SameRunsForward(s.runs);
    SameGates(s.gates);
    if s.gates[gate].status.GatePending? {
      var run := s.gates[gate].run;
      SettledGateForward(s.gates, gate, Answered(s.gates[gate], actor, response));
      if run in s.runs && s.runs[run].status.Waiting? {
        LiveRunForward(s.runs, run, Resumed(s.runs[run]));
      }
    }
  }

  lemma ReclaimForward(s: Db, t: Db, chosen: set<Id>)
    requires chosen <= EligibleRuns(s) && t == Reclaim(s, chosen)
    ensures RunMoved(s, t)
  {
    hide GatesForward, Continuations;
    SameGates(s.gates);
  }

  lemma StartRunInv(s: Db, t: Db, id: Id, task: Id, actor: Id, agent: Id, release: Id, runners: set<string>)
    requires Inv(s) && CreateRun(s, id, task, actor, agent, release, runners) == Some(t)
    ensures Inv(t)
  {
    hide BooksOk, ExecOk, RunsOk, DepsOk, WakeOk, H.HandoffsOk, R.ReleasesOk, R.AdmissionsOk;
    CreateRunKeeps(s, t, id, task, actor, agent, release, runners);
    R.AdmittedOk(s, t, id, task, actor, agent, release, runners);
    SameExec(s, t);
  }

  // ---- Publication ---------------------------------------------------------------------------

  /** A published draft becomes a proposal of the task, created by the owner the handler noted; in every
      other case the proposals stay as they are. */
  lemma PublishShape(s: Db, t: Db, d: Delivery, pid: Id, draft: seq<Operation>, ids: seq<Id>)
    requires d.phase.Working? && |ids| == |draft| && t == Publish(s, d, pid, draft, ids)
    ensures t == s.(runs := t.runs, deliveries := t.deliveries, proposals := t.proposals, keys := t.keys)
    ensures RunsForward(s.runs, t.runs) && t.runs.Keys == s.runs.Keys
    ensures var p := Judge(s, d, pid, draft, ids);
      if p.Made? then t.proposals == p.proposals && t.keys == p.keys
      else t.proposals == s.proposals && t.keys == s.keys
  {
    hide Judge, RunsForward;
    JudgeIs(s, d, pid, draft, ids);
    SameRunsForward(s.runs);
    if Holding(s, d) {
      LiveRunForward(s.runs, d.run, s.runs[d.run]);
      LiveRunForward(s.runs, d.run, AsPublished(s.runs[d.run], pid));
      match Judge(s, d, pid, draft, ids)
      case Recorded(code) => LiveRunForward(s.runs, d.run, AsFailed(s.runs[d.run], code));
      case _ =>
    }
  }

  /** Creating a proposal as part of publishing keeps everything but the runs' own tables in order. */
  lemma PublishInv(s: Db, t: Db, d: Delivery, pid: Id, draft: seq<Operation>, ids: seq<Id>)
    requires Inv(s) && d in s.deliveries && d.phase.Working? && |ids| == |draft|
    requires t == Publish(s, d, pid, draft, ids)
    ensures Inv(t)
  {
    hide BooksOk, RunsOk, DepsOk, WakeOk, H.HandoffsOk, R.ReleasesOk, Core, ReceiptsOk, TargetsOk, Publish, Judge,
      CreateProposal;
    PublishShape(s, t, d, pid, draft, ids);
    PublishKeeps(s, t, d, pid, draft, ids);
    JudgeIs(s, d, pid, draft, ids);
    if Judge(s, d, pid, draft, ids).Made? {
      var m := CreateProposal(s, pid, s.runs[d.run].task, d.phase.owner, d.run, draft, ids).value;
      var task := s.runs[d.run].task;
      CreatedKept(s, m, pid, task, d.phase.owner, d.run, draft, ids);
      CreateKeepsCore(s, m, pid, task, d.phase.owner, d.run, draft, ids);
      CreateBooks(s, m, pid, task, d.phase.owner, d.run, draft, ids);
      CoreRows(s);
      ProposalsKeptWakes(s, m);
      SameExec(m, t);
    } else {
      SameExec(s, t);
    }
  }

  // ---- Every step, every run -----------------------------------------------------------------

  lemma AdminStepInv(s: Db, t: Db, step: AdminStep)
    requires Inv(s) && t == AdminNext(s, step)
    ensures Inv(t)
  {
    hide Inv, CreateAgent, CreateTask, AddRecord, AddDependency, CancelTask;
    match step
    case Tick(seconds) => TickInv(s, t, seconds);
    case SetPrincipal(_, _) => PrincipalInv(s, t);
    case NewAgent(id, agent) => if CreateAgent(s, id, agent).Some? { AgentInv(s, t, id, agent); }
    case NewTask(id, owner, assignee) =>
      if CreateTask(s, id, owner, assignee).Some? { TaskInv(s, t, id, owner, assignee); }
    case NewRecord(id, integration, data) =>
      if AddRecord(s, id, integration, data).Some? { RecordInv(s, t, id, integration, data); }
    case Depend(task, parent) => if AddDependency(s, task, parent).Some? { DependInv(s, t, task, parent); }
    case Cancel(task, version) => if CancelTask(s, task, version).Some? { CancelInv(s, t, task, version); }
  }

  lemma SubmitInv(s: Db, t: Db, id: Id, family: string, harness: bool, runner: string, requested: set<string>)
    requires Inv(s) && R.Submit(s, id, family, harness, runner, requested) == Some(t)
    ensures Inv(t)
  {
    hide BooksOk, ExecOk, RunsOk, DepsOk, WakeOk, H.HandoffsOk, R.AdmissionsOk;
    ReleasesInv(s, t);
  }

  lemma TransitionInv(s: Db, t: Db, id: Id, role: Role, target: ReleaseState, expected: int)
    requires Inv(s) && R.Transition(s, id, role, target, expected) == Some(t)
    ensures Inv(t)
  {
    hide BooksOk, ExecOk, RunsOk, DepsOk, WakeOk, H.HandoffsOk, R.AdmissionsOk, R.ReleasesOk;
    R.TransitionKeeps(s, t, id, role, target, expected);
    ReleasesInv(s, t);
  }

  lemma GrantInv(s: Db, t: Db, id: Id, role: Role, caps: set<string>, expected: int)
    requires Inv(s) && R.Grant(s, id, role, caps, expected) == Some(t)
    ensures Inv(t)
  {
    hide BooksOk, ExecOk, RunsOk, DepsOk, WakeOk, H.HandoffsOk, R.AdmissionsOk;
    ReleasesInv(s, t);
  }

  lemma OfferInv(s: Db, t: Db, id: Id, task: Id, actor: Id, recipient: Id, role: HandoffRole, expiresAt: int)
    requires Inv(s) && H.Offer(s, id, task, actor, recipient, role, expiresAt) == Some(t)
    ensures Inv(t)
  {
    hide BooksOk, ExecOk, RunsOk, DepsOk, WakeOk, H.HandoffsOk, R.ReleasesOk, R.AdmissionsOk, H.AcceptedOwner;
    H.OfferKeeps(s, t, id, task, actor, recipient, role, expiresAt);
    HandoffsInv(s, t);
  }

  lemma ReplyInv(s: Db, t: Db, id: Id, actor: Id, state: HandoffState)
    requires Inv(s) && H.Reply(s, id, actor, state) == Some(t)
    ensures Inv(t)
  {
    hide BooksOk, ExecOk, RunsOk, DepsOk, WakeOk, H.HandoffsOk, R.ReleasesOk, R.AdmissionsOk;
    H.ReplyKeeps(s, t, id, actor, state);
    HandoffsInv(s, t);
  }

  lemma ExpireInv(s: Db, t: Db, due: set<Id>)
    requires Inv(s) && t == H.ExpireDue(s, due)
    ensures Inv(t)
  {
    hide BooksOk, ExecOk, RunsOk, DepsOk, WakeOk, H.HandoffsOk, R.ReleasesOk, R.AdmissionsOk;
    H.ExpireKeeps(s, due);
    HandoffsInv(s, t);
  }

  lemma OfficeStepInv(s: Db, t: Db, step: OfficeStep)
    requires Inv(s) && t == OfficeNext(s, step)
    ensures Inv(t)
  {
    hide Inv, R.Submit, R.Transition, R.Grant, H.Offer, H.ExpireDue, H.Accept, H.Reply;
    match step
    case Submit(id, family, harness, runner, requested) =>
      if R.Submit(s, id, family, harness, runner, requested).Some? {
        SubmitInv(s, t, id, family, harness, runner, requested);
      }
    case Transition(id, role, target, expected) =>
      if R.Transition(s, id, role, target, expected).Some? { TransitionInv(s, t, id, role, target, expected); }
    case Grant(id, role, caps, expected) =>
      if R.Grant(s, id, role, caps, expected).Some? { GrantInv(s, t, id, role, caps, expected); }
    case Offer(id, task, actor, recipient, role, expiresAt) =>
      if H.Offer(s, id, task, actor, recipient, role, expiresAt).Some? {
        OfferInv(s, t, id, task, actor, recipient, role, expiresAt);
      }
    case Expire(due) => ExpireInv(s, t, due);
    case Accept(id, actor) => if H.Accept(s, id, actor).Some? { AcceptInv(s, t, id, actor); }
    case Reply(id, actor, state) => if H.Reply(s, id, actor, state).Some? { ReplyInv(s, t, id, actor, state); }
  }

  lemma WorkStepInv(s: Db, t: Db, step: WorkStep)
    requires Inv(s) && WorkEnabled(s, step) && t == WorkNext(s, step)
    ensures Inv(t)
  {
    hide Inv, CreateProposal, Decide, RunJob, MarkJob, CrashJob, RedeliverJob, HasJob, IsOrder;
    match step
    case Propose(pid, task, actor, draft, ids) =>
      if CreateProposal(s, pid, task, actor, NO_ID, draft, ids).Ok? { ProposeInv(s, t, pid, task, actor, draft, ids); }
    case MakeDecision(pid, actor, kind, revision, digest) =>
      if Decide(s, pid, actor, kind, revision, digest).Some? { DecideInv(s, t, pid, actor, kind, revision, digest); }
    case Execute(pid, order, acknowledged) => ExecuteInv(s, t, pid, order, acknowledged);
    case MarkFailed(pid, acknowledged) => MarkInv(s, t, pid, acknowledged);
    case CrashExecution(pid) => CrashInv(s, t, pid);
    case DuplicateJob(pid) => DuplicateInv(s, t, pid);
  }

  /** The handlers' own steps move runs, gates and deliveries forward and keep them in order. */
  lemma HandlerMoves(s: Db, t: Db, step: HandlerStep)
    requires RunsOk(s) && HandlerEnabled(s, step) && t == HandlerNext(s, step)
    ensures RunsOk(t) && RunMoved(s, t)
  {
    hide RunsOk, Claim, Peek, Gather, RunnerFailed, Fail, Park, Move, Redeliver, RunMoved;
    match step
    case ClaimRun(id, token, budget) => ClaimKeeps(s, id, token, budget); ClaimForward(s, t, id, token, budget);
    case PeekRun(id) => PeekKeeps(s, id); PeekForward(s, t, id);
    case GatherContext(d, ok) => GatherKeeps(s, d, ok); GatherForward(s, t, d, ok);
    case RunnerFails(d, code) => RunnerFailedKeeps(s, d, code); RunnerFailedForward(s, t, d, code);
    case FailRun(d) => FailKeeps(s, t, d); FailForward(s, t, d);
    case ParkRun(d, gate, schema, respondent) =>
      ParkKeeps(s, t, d, gate, schema, respondent);
      ParkForward(s, t, d, gate, schema, respondent);
    case Retry(d) => RetryKeeps(s, d); MovedForward(s, t, d, Idle);
    case HandOutAgain(d) => RedeliverKeeps(s, d.run); RedeliverForward(s, t, d.run);
    case Acknowledge(d) => AcknowledgeKeeps(s, t, d); AcknowledgeForward(s, t, d);
  }

  lemma PeekForward(s: Db, t: Db, id: Id)
    requires t == Peek(s, id)
    ensures RunMoved(s, t)
  {
    hide RunMoved, Move;
    MovedForward(s, t, Delivery(id, Peeking), if id !in s.runs || s.runs[id].status.Running? then Idle else Returned);
  }

  lemma GatherForward(s: Db, t: Db, d: Delivery, ok: bool)
    requires d.phase.Claimed? && t == Gather(s, d, ok)
    ensures RunMoved(s, t)
  {
    hide GatesForward, RunsForward;
    SameGates(s.gates);
    SameRunsForward(s.runs);
  }

  lemma RunnerFailedForward(s: Db, t: Db, d: Delivery, code: string)
    requires d.phase.Working? && t == RunnerFailed(s, d, code)
    ensures RunMoved(s, t)
  {
    hide GatesForward, RunsForward;
    SameGates(s.gates);
    SameRunsForward(s.runs);
  }

  lemma RedeliverForward(s: Db, t: Db, id: Id)
    requires t == Redeliver(s, id)
    ensures RunMoved(s, t)
  {
    hide GatesForward, RunsForward;
    SameGates(s.gates);
    SameRunsForward(s.runs);
  }

  lemma AcknowledgeForward(s: Db, t: Db, d: Delivery)
    requires t == s.(deliveries := s.deliveries - multiset{d})
    ensures RunMoved(s, t)
  {
    hide GatesForward, RunsForward;
    SameGates(s.gates);
    SameRunsForward(s.runs);
  }

  lemma HandlerStepInv(s: Db, t: Db, step: HandlerStep)
    requires Inv(s) && HandlerEnabled(s, step) && t == HandlerNext(s, step)
    ensures Inv(t)
  {
    hide BooksOk, HandlerNext, RunsOk, RunMoved, HandlerEnabled, ExecOk, DepsOk, WakeOk, H.HandoffsOk, R.ReleasesOk,
      R.AdmissionsOk;
    HandlerMoves(s, t, step);
    RunMovedInv(s, t);
  }

  lemma AnswerInv(s: Db, t: Db, gate: Id, actor: Id, revision: int, response: Response)
    requires Inv(s) && ResolveGate(s, gate, actor, revision, response) == Some(t)
    ensures Inv(t)
  {
    hide BooksOk, RunsOk, RunMoved, ResolveGate, ExecOk, DepsOk, WakeOk, H.HandoffsOk, R.ReleasesOk, R.AdmissionsOk;
    ResolveGateKeeps(s, t, gate, actor, revision, response);
    AnswerForward(s, t, gate, actor, revision, response);
    RunMovedInv(s, t);
  }

  lemma SweepInv(s: Db, t: Db, chosen: set<Id>)
    requires Inv(s) && chosen <= EligibleRuns(s) && t == Reclaim(s, chosen)
    ensures Inv(t)
  {
    hide BooksOk, RunsOk, RunMoved, Reclaim, EligibleRuns, ExecOk, DepsOk, WakeOk, H.HandoffsOk, R.ReleasesOk,
      R.AdmissionsOk;
    ReclaimKeeps(s, t, chosen);
    ReclaimForward(s, t, chosen);
    RunMovedInv(s, t);
  }

  lemma RunStepInv(s: Db, t: Db, step: RunStep)
    requires Inv(s) && RunEnabled(s, step) && t == RunNext(s, step)
    ensures Inv(t)
  {
    hide Inv, CreateRun, Publish, ResolveGate, Reclaim, EligibleRuns;
    match step
    case StartRun(id, task, actor, agent, release, runners) =>
      if CreateRun(s, id, task, actor, agent, release, runners).Some? {
        StartRunInv(s, t, id, task, actor, agent, release, runners);
      }
    case PublishRun(d, pid, draft, ids) => PublishInv(s, t, d, pid, draft, ids);
    case Answer(gate, actor, revision, response) =>
      if ResolveGate(s, gate, actor, revision, response).Some? { AnswerInv(s, t, gate, actor, revision, response); }
    case Sweep(limit, chosen) => SweepInv(s, t, chosen);
  }

  /** Every transaction of the platform, taken or refused, completed or crashed, keeps the invariant. */
  lemma StepInv(s: Db, step: Step)
    requires Inv(s) && Enabled(s, step)
    ensures Inv(Next(s, step))
  {
    hide Inv, AdminNext, OfficeNext, WorkNext, HandlerNext, RunNext, WorkEnabled, HandlerEnabled, RunEnabled;
    var t := Next(s, step);
    match step
    case Admin(admin) => AdminStepInv(s, t, admin);
    case Office(office) => OfficeStepInv(s, t, office);
    case Work(work) => WorkStepInv(s, t, work);
    case Handler(handler) => HandlerStepInv(s, t, handler);
    case Fleet(run) => RunStepInv(s, t, run);
  }

  /** Every reachable state satisfies it. */
  lemma {:induction false} RunInv(s: Db, steps: seq<Step>, t: Db)
    requires Inv(s) && Reachable(s, steps, t)
    ensures Inv(t)
    decreases |steps|
  {
    hide Inv, Next, Enabled;
    if steps != [] {
      StepInv(s, steps[0]);
      RunInv(Next(s, steps[0]), steps[1..], t);
    }
  }
}
