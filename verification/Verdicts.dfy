/** When the transactions on proposals do what they do, spelled out by the rows a caller can look at: creation,
    decisions, execution. */
module Verdicts {
  import opened Wrappers
  import opened Connectors
  import opened Tables
  import opened Proposals
  import opened Decisions
  import opened Execution
  import opened Runs
  import opened RunInvariants
  import opened Kernel
  import opened Invariant
  import opened Monotone
  import opened Frames
  import opened Guarantees
  import H = Handoffs
  import R = Releases

  ghost predicate IsActive(s: Db, who: Id) {
    who in s.principals && s.principals[who].active
  }

  ghost predicate Decides(s: Db, who: Id) {
    IsActive(s, who) && (s.principals[who].role.Approver? || s.principals[who].role.Admin?)
  }

  ghost predicate OpenTask(s: Db, task: Id) {
    task in s.tasks && !s.tasks[task].status.TaskDone? && !s.tasks[task].status.TaskCancelled?
  }

  // ---- Execution -----------------------------------------------------------------------------

  /** The people behind a proposal still stand behind it: the owner of its open task, someone who approved it
      and may still approve, and someone who endorsed it. */
  ghost predicate StillAuthorised(s: Db, p: Id)
    requires p in s.proposals
  {
    var task := s.proposals[p].task;
    && OpenTask(s, task) && IsActive(s, s.tasks[task].owner)
    && (exists a :: DecisionKey(p, a, Approve) in s.decisions && Decides(s, a))
    && (exists a :: DecisionKey(p, a, Endorse) in s.decisions && IsActive(s, a))
  }

  /** A recorded parent of its task is not done. */
  ghost predicate Waits(s: Db, p: Id)
    requires p in s.proposals
  {
    exists parent :: (s.proposals[p].task, parent) in s.deps && parent in s.tasks && !s.tasks[parent].status.TaskDone?
  }

  lemma PermittedIff(s: Db, p: Id)
    requires p in s.proposals
    ensures Permitted(s, s.proposals[p].task, p) <==> StillAuthorised(s, p) && !Waits(s, p)
    ensures Blocking(s.tasks, s.deps, s.proposals[p].task) <==> Waits(s, p)
  {
    var task := s.proposals[p].task;
    assert forall d | d in s.deps && d.0 == task :: (task, d.1) in s.deps;
    assert forall d | d in s.decisions && d.proposal == p && d.kind.Approve? :: d == DecisionKey(p, d.actor, Approve);
    assert forall d | d in s.decisions && d.proposal == p && d.kind.Endorse? :: d == DecisionKey(p, d.actor, Endorse);
    assert forall a | DecisionKey(p, a, Approve) in s.decisions && Decides(s, a) ::
      ActivePrincipal(s.principals, DecisionKey(p, a, Approve).actor);
    assert forall a | DecisionKey(p, a, Endorse) in s.decisions && IsActive(s, a) ::
      ActivePrincipal(s.principals, DecisionKey(p, a, Endorse).actor);
  }

  /** No record, receipt, effect or key is touched. */
  ghost predicate NothingCarriedOut(s: Db, t: Db) {
    t.records == s.records && t.receipts == s.receipts && t.effects == s.effects && t.keys == s.keys
  }

  /** A proposal that waits: its task is blocked, and nothing else happens. */
  ghost predicate TaskBlocked(s: Db, t: Db, p: Id)
    requires p in s.proposals
  {
    var task := s.proposals[p].task;
    && task in s.tasks && t.tasks == s.tasks[task := s.tasks[task].(status := Blocked)]
    && t.proposals == s.proposals && NothingCarriedOut(s, t)
  }

  ghost predicate SetAside(s: Db, t: Db, p: Id)
    requires p in s.proposals
  {
    && t.proposals == s.proposals[p := s.proposals[p].(status := NeedsAttention)]
    && t.tasks == s.tasks && NothingCarriedOut(s, t)
  }

  ghost predicate CarriedOut(s: Db, t: Db, p: Id, ops: seq<Operation>)
    requires p in s.proposals
  {
    var task := s.proposals[p].task;
    && task in s.tasks
    && t.proposals == s.proposals[p := s.proposals[p].(status := ProposalDone)]
    && t.tasks == s.tasks[task := s.tasks[task].(status := TaskDone, version := s.tasks[task].version + 1)]
    && s.receipts <= t.receipts
    && EachStepped(s.records, p, ops, Applied(t.records, t.receipts[|s.receipts|..]))
  }

  /** What becomes of an approved proposal when its job is handled, in the four cases there are: a parent is not
      done; an authority is gone; an operation is refused; none of these. */
  lemma ExecutionVerdict(
    steps: seq<Step>, s: Db, p: Id, order: seq<Id>, acknowledged: bool, t: Db, ops: seq<Operation>)
    requires Reachable(EMPTY, steps, s) && IsOrder(s.effects, p, order) && t == RunJob(s, p, order, acknowledged)
    requires p in s.proposals && s.proposals[p].status.Approved? && ops == OpsInOrder(s.effects, p, order)
    ensures Waits(s, p) ==> TaskBlocked(s, t, p)
    ensures !Waits(s, p) && !StillAuthorised(s, p) ==> SetAside(s, t, p)
    ensures !Waits(s, p) && StillAuthorised(s, p) && !Acceptable(s.records, ops) ==>
      && t.proposals == s.proposals && t.tasks == s.tasks && NothingCarriedOut(s, t)
      && t.jobs == s.jobs - multiset{Job(p, Delivered)} + multiset{Job(p, ToMark)}
    ensures !Waits(s, p) && StillAuthorised(s, p) && Acceptable(s.records, ops) ==> CarriedOut(s, t, p, ops)
  {
    hide Reachable, Inv, Permitted, Blocking, StillAuthorised, Waits, Acceptable, EachStepped, ApplyOps, IsOrder,
      RowsOk, OneLive, DecisionsOk, EffectsOk, KeysOk, AllOpsOk, ReceiptsOk, TargetsOk, RunsOk, OpsInOrder, Commit,
      SetBack, CarriedOut, TaskBlocked, SetAside;
    Reached(steps, s);
    InvRows(s);
    OrderListed(s, p, order);
    PermittedIff(s, p);
    OpenWhileLive(s, p);
    if Waits(s, p) || !StillAuthorised(s, p) {
      NotPermitted(s, SetBack(s, p), t, p);
    } else {
      OrderedOps(s, p, order);
      ApplyOpsIff(s.records, p, ops);
      if Acceptable(s.records, ops) {
        CommitVerdict(s, t, p, order, ops);
      } else {
        OrderedTargets(s, p, order);
        NeverBroken(s.records, p, ops);
      }
    }
  }

  lemma OpenWhileLive(s: Db, p: Id)
    requires RowsOk(s.tasks, s.proposals) && p in s.proposals && s.proposals[p].status.Approved?
    ensures OpenTask(s, s.proposals[p].task)
  {
  }

  lemma NotPermitted(s: Db, m: Db, t: Db, p: Id)
    requires p in s.proposals && OpenTask(s, s.proposals[p].task) && m == SetBack(s, p)
    requires t == m.(jobs := t.jobs)
    ensures if Blocking(s.tasks, s.deps, s.proposals[p].task) then TaskBlocked(s, t, p) else SetAside(s, t, p)
  {
    hide Blocking;
  }

  lemma CommitVerdict(s: Db, t: Db, p: Id, order: seq<Id>, ops: seq<Operation>)
    requires EffectsOk(s.proposals, s.decisions, s.effects) && AllOpsOk(s.records, s.proposals)
    requires p in s.proposals && OpenTask(s, s.proposals[p].task)
    requires forall i | 0 <= i < |order| :: EffectKey(p, order[i]) in s.effects
    requires ops == OpsInOrder(s.effects, p, order) && ApplyOps(s.records, p, ops).Applied?
    requires var out := ApplyOps(s.records, p, ops);
      var m := Commit(s, p, out.records, out.receipts);
      t == m.(jobs := t.jobs)
    ensures CarriedOut(s, t, p, ops)
  {
    hide ApplyOps, EffectsOk, AllOpsOk, EachStepped, OpsInOrder, VerifyKeys, VerifyEffects, Woken, Deliveries, Moved;
    CommitMoves(s, p, order);
    var out := ApplyOps(s.records, p, ops);
    assert (s.receipts + out.receipts)[|s.receipts|..] == out.receipts;
  }

  lemma OrderedTargets(s: Db, p: Id, order: seq<Id>)
    requires EffectsOk(s.proposals, s.decisions, s.effects) && AllOpsOk(s.records, s.proposals)
    requires p in s.proposals && forall i | 0 <= i < |order| :: EffectKey(p, order[i]) in s.effects
    ensures var ops := OpsInOrder(s.effects, p, order);
      forall i | 0 <= i < |ops| :: ops[i].target in s.records
  {
    hide EverApproved, FirstOp, HasAllEffects;
    forall i | 0 <= i < |order| ensures s.effects[EffectKey(p, order[i])].op.target in s.records {
      FirstOpIs(s.proposals[p].ops, order[i]);
      assert OpsOk(s.records, s.proposals[p].ops);
    }
  }

  /** With every target at hand the loop fails only with a connector's error. */
  lemma {:induction false} NeverBroken(records: map<Id, Record>, p: Id, ops: seq<Operation>)
    requires forall i | 0 <= i < |ops| :: ops[i].target in records
    ensures !ApplyOps(records, p, ops).Broken?
    decreases |ops|
  {
    hide Prepare;
    if ops != [] && Prepare(ops[0].target, records[ops[0].target], ops[0]).Ready? {
      var next := records[ops[0].target := Prepare(ops[0].target, records[ops[0].target], ops[0]).record];
      assert forall i | 0 <= i < |ops[1..]| :: ops[1..][i] == ops[i + 1];
      NeverBroken(next, p, ops[1..]);
    }
  }

  /** Nothing is carried out but with every authority in force at that moment; the creator is the endorser. */
  lemma ReceiptNeedsAuthority(steps: seq<Step>, s: Db, p: Id, order: seq<Id>, acknowledged: bool, t: Db)
    requires Reachable(EMPTY, steps, s) && IsOrder(s.effects, p, order) && t == RunJob(s, p, order, acknowledged)
    requires t.receipts != s.receipts
    ensures p in s.proposals && s.proposals[p].status.Approved? && StillAuthorised(s, p) && !Waits(s, p)
    ensures DecisionKey(p, s.proposals[p].createdBy, Endorse) in s.decisions && IsActive(s, s.proposals[p].createdBy)
  {
    hide Reachable, Inv, Permitted, Waits, Acceptable, ApplyOps, IsOrder, RowsOk, OneLive, EffectsOk, KeysOk, AllOpsOk,
      ReceiptsOk, TargetsOk, RunsOk, OpsInOrder, Commit, SetBack, CarriedOut, DecisionsOk, StillAuthorised, RunJob;
    Reached(steps, s);
    InvRows(s);
    OrderListed(s, p, order);
    ReceiptsOnlyIfApproved(s, p, order, acknowledged, t);
    ExecutionVerdict(steps, s, p, order, acknowledged, t, OpsInOrder(s.effects, p, order));
    CreatorEndorses(s, p);
  }

  lemma ReceiptsOnlyIfApproved(s: Db, p: Id, order: seq<Id>, acknowledged: bool, t: Db)
    requires RowsOk(s.tasks, s.proposals) && forall i | 0 <= i < |order| :: EffectKey(p, order[i]) in s.effects
    requires t == RunJob(s, p, order, acknowledged) && t.receipts != s.receipts
    ensures p in s.proposals && s.proposals[p].status.Approved?
  {
    hide Permitted, ApplyOps, OpsInOrder, Commit, SetBack, RowsOk;
    NeverExecuting(s.tasks, s.proposals, if p in s.proposals then p else NO_ID);
  }

  lemma CreatorEndorses(s: Db, p: Id)
    requires DecisionsOk(s.proposals, s.decisions) && p in s.proposals && StillAuthorised(s, p)
    ensures DecisionKey(p, s.proposals[p].createdBy, Endorse) in s.decisions && IsActive(s, s.proposals[p].createdBy)
  {
    var a :| DecisionKey(p, a, Endorse) in s.decisions && IsActive(s, a);
    assert a == s.proposals[p].createdBy;
  }

  /** An approved proposal of an open task that only waited for this one's task. */
  ghost predicate Freed(s: Db, p: Id, q: Id)
    requires p in s.proposals
  {
    var task := s.proposals[p].task;
    && q in s.proposals && q != p && s.proposals[q].status.Approved?
    && (s.proposals[q].task, task) in s.deps && s.proposals[q].task != task && OpenTask(s, s.proposals[q].task)
    && forall parent | (s.proposals[q].task, parent) in s.deps && parent in s.tasks && parent != task ::
         s.tasks[parent].status.TaskDone?
  }

  /** What is done in full delivers one job for each proposal it frees, and for no other; in any case the handled
      job goes if it is acknowledged, or is about to have its failure recorded. */
  lemma WakeUpVerdict(steps: seq<Step>, s: Db, p: Id, order: seq<Id>, acknowledged: bool, t: Db, q: Id)
    requires Reachable(EMPTY, steps, s) && WorkEnabled(s, Execute(p, order, acknowledged))
    requires t == WorkNext(s, Execute(p, order, acknowledged)) && p in s.proposals && s.proposals[p].status.Approved?
    ensures var done := !Waits(s, p) && StillAuthorised(s, p) && Acceptable(s.records, OpsInOrder(s.effects, p, order));
      var failed := !Waits(s, p) && StillAuthorised(s, p) && !done;
      && t.jobs[Job(q, Delivered)]
           == s.jobs[Job(q, Delivered)] + (if done && Freed(s, p, q) then 1 else 0)
              - (if q == p && (acknowledged || failed) then 1 else 0)
      && t.jobs[Job(q, ToMark)] == s.jobs[Job(q, ToMark)] + (if q == p && failed then 1 else 0)
  {
    hide Reachable, Inv, Permitted, Blocking, StillAuthorised, Waits, Acceptable, ApplyOps, IsOrder, RowsOk, OneLive,
      DecisionsOk, EffectsOk, KeysOk, AllOpsOk, ReceiptsOk, TargetsOk, RunsOk, OpsInOrder, Commit, SetBack, Freed,
      RunJob;
    Reached(steps, s);
    InvRows(s);
    OrderListed(s, p, order);
    PermittedIff(s, p);
    OpenWhileLive(s, p);
    if Waits(s, p) || !StillAuthorised(s, p) {
      SetBackJobs(s, p);
      HandledJobs(s, SetBack(s, p), p, order, acknowledged, t, q);
    } else {
      OrderedOps(s, p, order);
      var ops := OpsInOrder(s.effects, p, order);
      ApplyOpsIff(s.records, p, ops);
      if Acceptable(s.records, ops) {
        var out := ApplyOps(s.records, p, ops);
        CommitJobs(s, p, out.records, out.receipts, q);
        CommitJobs(s, p, out.records, out.receipts, p);
        HandledJobs(s, Commit(s, p, out.records, out.receipts), p, order, acknowledged, t, q);
      } else {
        OrderedTargets(s, p, order);
        NeverBroken(s.records, p, ops);
        FaultyJobs(s, p, order, acknowledged, t, q);
      }
    }
  }

  lemma HandledJobs(s: Db, m: Db, p: Id, order: seq<Id>, acknowledged: bool, t: Db, q: Id)
    requires forall i | 0 <= i < |order| :: EffectKey(p, order[i]) in s.effects
    requires Apply(s, p, order) == Handled(m) && t == RunJob(s, p, order, acknowledged) && Job(p, Delivered) in m.jobs
    ensures t.jobs[Job(q, Delivered)] == m.jobs[Job(q, Delivered)] - if q == p && acknowledged then 1 else 0
    ensures t.jobs[Job(q, ToMark)] == m.jobs[Job(q, ToMark)]
  {
    hide Apply;
  }

  lemma FaultyJobs(s: Db, p: Id, order: seq<Id>, acknowledged: bool, t: Db, q: Id)
    requires forall i | 0 <= i < |order| :: EffectKey(p, order[i]) in s.effects
    requires Apply(s, p, order).Fault? && t == RunJob(s, p, order, acknowledged) && Job(p, Delivered) in s.jobs
    ensures t.jobs[Job(q, Delivered)] == s.jobs[Job(q, Delivered)] - if q == p then 1 else 0
    ensures t.jobs[Job(q, ToMark)] == s.jobs[Job(q, ToMark)] + if q == p then 1 else 0
  {
    hide Apply;
  }

  lemma SetBackJobs(s: Db, p: Id)
    requires p in s.proposals
    ensures SetBack(s, p).jobs == s.jobs
  {
    hide Blocking, Block, SetStatus;
  }

  lemma CommitJobs(s: Db, p: Id, records: map<Id, Record>, receipts: seq<Receipt>, q: Id)
    requires p in s.proposals && OpenTask(s, s.proposals[p].task)
    ensures var t := Commit(s, p, records, receipts);
      && t.jobs[Job(q, Delivered)] == s.jobs[Job(q, Delivered)] + (if Freed(s, p, q) then 1 else 0)
      && t.jobs[Job(q, ToMark)] == s.jobs[Job(q, ToMark)]
  {
    hide VerifyEffects, VerifyKeys;
    var task := s.proposals[p].task;
    var tasks, proposals := Finish(s.tasks, task), SetStatus(s.proposals, p, ProposalDone);
    var woken := Woken(tasks, s.deps, proposals, task);
    assert q in woken <==> Freed(s, p, q) by { WokenIff(s, p, q); }
    JobsOf(woken, q);
  }

  lemma WokenIff(s: Db, p: Id, q: Id)
    requires p in s.proposals && OpenTask(s, s.proposals[p].task)
    ensures var task := s.proposals[p].task;
      var woken := Woken(Finish(s.tasks, task), s.deps, SetStatus(s.proposals, p, ProposalDone), task);
      q in woken <==> Freed(s, p, q)
  {
    var task := s.proposals[p].task;
    var tasks := Finish(s.tasks, task);
    if q in s.proposals {
      var own := s.proposals[q].task;
      assert Blocking(tasks, s.deps, own) <==>
        exists parent :: (own, parent) in s.deps && parent in tasks && !tasks[parent].status.TaskDone? by {
        assert forall d | d in s.deps && d.0 == own :: (own, d.1) in s.deps;
      }
    }
  }

  lemma JobsOf(pids: set<Id>, q: Id)
    ensures Deliveries(pids)[Job(q, Delivered)] == (if q in pids then 1 else 0) && Deliveries(pids)[Job(q, ToMark)] == 0
  {
    var jobs := set p | p in pids :: Job(p, Delivered);
    assert Job(q, Delivered) in jobs <==> q in pids;
    assert Job(q, ToMark) !in jobs;
  }

  /** After a connector's error: the proposal is set aside, its task blocked with a new version, its authorised
      effects marked; no record, receipt or key changes. Unless the proposal was overtaken meanwhile. */
  lemma FailureVerdict(steps: seq<Step>, s: Db, p: Id, acknowledged: bool, t: Db)
    requires Reachable(EMPTY, steps, s) && t == MarkJob(s, p, acknowledged)
    ensures t.records == s.records && t.receipts == s.receipts && t.keys == s.keys && t.effects.Keys == s.effects.Keys
    ensures p in s.proposals && s.proposals[p].status.Approved? ==>
      var task := s.proposals[p].task;
      && task in s.tasks
      && t.proposals == s.proposals[p := s.proposals[p].(status := NeedsAttention)]
      && t.tasks == s.tasks[task := s.tasks[task].(status := Blocked, version := s.tasks[task].version + 1)]
      && forall e | e in s.effects ::
           t.effects[e] == if e.proposal == p && s.effects[e].state.Authorized?
                           then Effect(s.effects[e].op, EffectNeedsAttention) else s.effects[e]
    ensures !(p in s.proposals && s.proposals[p].status.Approved?) ==>
      t.proposals == s.proposals && t.tasks == s.tasks && t.effects == s.effects
    ensures t.jobs == s.jobs - multiset{Job(p, ToMark)}
      + if acknowledged then multiset{} else multiset{Job(p, Delivered)}
  {
    hide Reachable, Inv, OneLive, DecisionsOk, EffectsOk, KeysOk, AllOpsOk, ReceiptsOk, TargetsOk, RunsOk, RowsOk;
    Reached(steps, s);
    InvRows(s);
    if p in s.proposals {
      NeverExecuting(s.tasks, s.proposals, p);
      if s.proposals[p].status.Approved? {
        OpenWhileLive(s, p);
      }
    }
  }

  // ---- Decisions -----------------------------------------------------------------------------

  /** Who may decide what, now. */
  ghost predicate MayNow(s: Db, p: Id, actor: Id, kind: DecisionKind) {
    && IsActive(s, actor) && p in s.proposals
    && match kind
       case Endorse => actor == s.proposals[p].createdBy && s.proposals[p].status.PendingEndorsement?
       case Approve =>
         && actor != s.proposals[p].createdBy && Decides(s, actor)
         && s.proposals[p].status.PendingApproval?
         && s.proposals[p].task in s.tasks && !s.tasks[s.proposals[p].task].status.TaskCancelled?
       case Reject => actor != s.proposals[p].createdBy && Decides(s, actor)
       case OtherKind => false
  }

  /** Whatever the step, a new decision is one its actor may take now, in the role he has now, for the revision
      and content the proposal has. */
  lemma NewDecisionIsAllowed(steps: seq<Step>, s: Db, step: Step, t: Db, d: DecisionKey)
    requires Reachable(EMPTY, steps, s) && Enabled(s, step) && t == Next(s, step)
    requires d in t.decisions && d !in s.decisions
    ensures MayNow(s, d.proposal, d.actor, d.kind)
    ensures var p := s.proposals[d.proposal];
      t.decisions[d] == Decision(p.revision, DigestOf(p.ops), s.principals[d.actor].role)
  {
    hide Reachable, Inv, AdminNext, OfficeNext, WorkNext, HandlerNext, RunNext, WorkEnabled, HandlerEnabled, RunEnabled,
      OnlyTask, TaskOf, Progress, MayNow, RowsOk, OneLive, DecisionsOk, EffectsOk, KeysOk, AllOpsOk, ReceiptsOk,
      TargetsOk, RunsOk;
    Reached(steps, s);
    InvRows(s);
    StepFrame(s, step);
    MadeByDecision(s, step.work, t, d);
  }

  lemma MadeByDecision(s: Db, step: WorkStep, t: Db, d: DecisionKey)
    requires RowsOk(s.tasks, s.proposals) && step.MakeDecision? && WorkEnabled(s, step) && t == WorkNext(s, step)
    requires d in t.decisions && d !in s.decisions
    ensures MayNow(s, d.proposal, d.actor, d.kind)
    ensures var p := s.proposals[d.proposal];
      t.decisions[d] == Decision(p.revision, DigestOf(p.ops), s.principals[d.actor].role)
  {
    hide InsertEffects, Dispatch, ReleaseKeys, SetStatus;
  }

  ghost predicate DecisionTaken(
    s: Db, p: Id, actor: Id, kind: DecisionKind, revision: int, digest: Digest)
  {
    && MayNow(s, p, actor, kind) && DecisionKey(p, actor, kind) !in s.decisions
    && revision == s.proposals[p].revision && digest == DigestOf(s.proposals[p].ops)
  }

  ghost predicate DecisionRecorded(s: Db, t: Db, p: Id, actor: Id, kind: DecisionKind) {
    && p in s.proposals && p in t.proposals && DecisionKey(p, actor, kind) in t.decisions
    && t.proposals[p].status == (
         if kind.Endorse? then PendingApproval else if kind.Approve? then Approved
         else if s.proposals[p].status.PendingEndorsement? || s.proposals[p].status.PendingApproval? then Rejected
         else s.proposals[p].status)
    && t.jobs == s.jobs + if kind.Approve? then multiset{Job(p, Delivered)} else multiset{}
  }

  /** And what he may decide is decided, unless he did so before: the decision is recorded, and the proposal
      takes the status that follows from it. Anything else changes nothing. */
  lemma DecisionVerdict(
    steps: seq<Step>, s: Db, p: Id, actor: Id, kind: DecisionKind, revision: int, digest: Digest, t: Db)
    requires Reachable(EMPTY, steps, s) && t == WorkNext(s, MakeDecision(p, actor, kind, revision, digest))
    ensures DecisionTaken(s, p, actor, kind, revision, digest) ==> DecisionRecorded(s, t, p, actor, kind)
    ensures !DecisionTaken(s, p, actor, kind, revision, digest) ==> t == s
  {
    hide Reachable, Inv, OneLive, DecisionsOk, EffectsOk, KeysOk, AllOpsOk, ReceiptsOk, TargetsOk, RunsOk, RowsOk,
      Decide, DecisionTaken, DecisionRecorded;
    Reached(steps, s);
    InvRows(s);
    DecisionIff(s, p, actor, kind, revision, digest);
  }

  lemma DecisionIff(s: Db, p: Id, actor: Id, kind: DecisionKind, revision: int, digest: Digest)
    requires RowsOk(s.tasks, s.proposals)
    ensures var t := Decide(s, p, actor, kind, revision, digest);
      && (DecisionTaken(s, p, actor, kind, revision, digest) ==>
            t.Some? && DecisionRecorded(s, t.value, p, actor, kind))
      && (!DecisionTaken(s, p, actor, kind, revision, digest) ==> t.None? || t.value == s)
  {
    hide WithDecision, DecisionRecorded;
    if DecisionTaken(s, p, actor, kind, revision, digest) {
      DecisionWrites(s, p, actor, kind, revision, digest);
    }
  }

  lemma DecisionWrites(s: Db, p: Id, actor: Id, kind: DecisionKind, revision: int, digest: Digest)
    requires p in s.proposals && actor in s.principals && !kind.OtherKind?
    ensures DecisionRecorded(s, WithDecision(s, p, actor, kind, revision, digest), p, actor, kind)
  {
    hide InsertEffects, Dispatch, ReleaseKeys;
  }

  // ---- Creation ------------------------------------------------------------------------------

  /** The text occurs in the key. */
  ghost predicate Occurs(text: string, key: string) {
    exists i :: OccursAt(text, key, i)
  }

  ghost predicate OccursAt(text: string, key: string, i: int) {
    0 <= i <= |key| - |text| && key[i..i + |text|] == text
  }

  lemma OccursShifted(text: string, key: string, i: int)
    requires key != []
    ensures OccursAt(text, key, i) ==> i >= 0
    ensures i > 0 ==> (OccursAt(text, key, i) <==> OccursAt(text, key[1..], i - 1))
  {
    if 0 < i <= |key| - |text| {
      assert key[1..][i - 1..i - 1 + |text|] == key[i..i + |text|];
    }
  }

  lemma OccursFirst(text: string, key: string)
    ensures OccursAt(text, key, 0) <==> text <= key
    ensures key == [] ==> forall i :: OccursAt(text, key, i) ==> text <= key
  {
    if |text| <= |key| {
      assert key[0..0 + |text|] == key[..|text|];
    }
  }

  lemma {:induction false} ContainsIff(key: string, text: string)
    ensures Contains(key, text) <==> Occurs(text, key)
  {
    hide OccursAt;
    OccursFirst(text, key);
    if !(text <= key) && key != [] {
      ContainsIff(key[1..], text);
      if i :| OccursAt(text, key[1..], i) {
        OccursNatural(text, key[1..], i);
        OccursShifted(text, key, i + 1);
      }
      if i :| OccursAt(text, key, i) {
        OccursShifted(text, key, i);
        assert i > 0;
        assert OccursAt(text, key[1..], i - 1);
      }
    }
  }

  lemma OccursNatural(text: string, key: string, i: int)
    requires OccursAt(text, key, i)
    ensures i >= 0
  {
  }

  /** Well formed, not scoped to the run it comes from, supported, and made for the record as it stands. */
  ghost predicate WellMade(s: Db, origin: Id, op: Operation) {
    && op.integration != "" && op.action != "" && op.target != NO_ID && op.expectedVersion >= 1
    && (origin != NO_ID ==> !Occurs(IdText(origin), op.businessKey))
    && (op.integration, op.action) in {("inventory", "adjust"), ("mail", "send"), ("documents", "update")}
    && op.target in s.records && s.records[op.target].version == op.expectedVersion
  }

  ghost predicate ConnectorAccepts(s: Db, op: Operation) {
    op.target in s.records && Prepare(op.target, s.records[op.target], op).Ready?
  }

  lemma FaultIff(s: Db, origin: Id, op: Operation)
    ensures OperationFault(s.records, origin, op).None? <==> WellMade(s, origin, op) && ConnectorAccepts(s, op)
    ensures OperationFault(s.records, origin, op) == Some(ConnectorFault(Invalid)) <==>
      WellMade(s, origin, op) && !ConnectorAccepts(s, op)
  {
    hide Contains, Occurs, Change;
    ContainsIff(op.businessKey, IdText(origin));
  }

  predicate Alphanumeric(c: char) {
    'a' <= c <= 'z' || 'A' <= c <= 'Z' || '0' <= c <= '9'
  }

  /** ^[A-Za-z0-9+][A-Za-z0-9._:/+@-]{0,199}$ */
  ghost predicate GoodKey(key: string) {
    && 1 <= |key| <= 200
    && (Alphanumeric(key[0]) || key[0] == '+')
    && forall i | 0 < i < |key| :: Alphanumeric(key[i]) || key[i] in "._:/+@-"
  }

  lemma GoodKeyIff(key: string)
    ensures ValidBusinessKey(key) <==> GoodKey(key)
  {
    forall c ensures KeyTail(c) <==> Alphanumeric(c) || c in "._:/+@-" {
      assert "._:/+@-"[0] == '.' && "._:/+@-"[1] == '_' && "._:/+@-"[2] == ':' && "._:/+@-"[3] == '/';
      assert "._:/+@-"[4] == '+' && "._:/+@-"[5] == '@' && "._:/+@-"[6] == '-';
    }
  }

  /** The key is new, or its holder had this very content and may give it up: never approved, and of this task
      or rejected. */
  ghost predicate KeyFree(s: Db, task: Id, op: Operation) {
    KeyOf(op) in s.keys ==>
      var row := s.keys[KeyOf(op)];
      && row.fingerprint == FingerprintOf(op)
      && row.proposal in s.proposals && !EverApproved(s.decisions, row.proposal)
      && (|| s.proposals[row.proposal].task == task
          || s.proposals[row.proposal].status.Rejected?
          || RejectDecided(s.decisions, row.proposal))
  }

  ghost predicate MayCreate(s: Db, pid: Id, task: Id, actor: Id, origin: Id, ops: seq<Operation>) {
    && OpenTask(s, task) && s.tasks[task].owner == actor
    && pid != NO_ID && pid !in s.proposals
    && (forall i | 0 <= i < |ops| :: WellMade(s, origin, ops[i]) && ConnectorAccepts(s, ops[i]))
    && (forall i | 0 <= i < |ops| :: GoodKey(ops[i].businessKey) && KeyFree(s, task, ops[i]))
    && (forall i, j | 0 <= i < j < |ops| :: KeyOf(ops[i]) != KeyOf(ops[j]))
  }

  /** Exactly which proposals are created. */
  lemma CreatedIff(
    steps: seq<Step>, s: Db, pid: Id, task: Id, actor: Id, origin: Id, draft: seq<Operation>, ids: seq<Id>)
    requires Reachable(EMPTY, steps, s) && |ids| == |draft|
    ensures CreateProposal(s, pid, task, actor, origin, draft, ids).Ok? <==>
      MayCreate(s, pid, task, actor, origin, WithIds(draft, ids))
  {
    hide Reachable, Inv, OperationFault, FirstFault, WellMade, ConnectorAccepts, GoodKey, KeyFree, ReserveAll, RowsOk,
      OneLive, DecisionsOk, EffectsOk, KeysOk, AllOpsOk, ReceiptsOk, TargetsOk, RunsOk, KeyRowsOk, RevisionsOk, WithIds,
      Supersede, NewRow, Takes;
    Reached(steps, s);
    InvRows(s);
    InvBooks(s);
    var ops := WithIds(draft, ids);
    NoFaultIff(s, origin, ops);
    if OpenTask(s, task) && pid != NO_ID && pid !in s.proposals {
      ReservedIff(s, pid, task, actor, origin, ops);
    }
  }

  lemma NoFaultIff(s: Db, origin: Id, ops: seq<Operation>)
    ensures FirstFault(s.records, origin, ops).None? <==>
      forall i | 0 <= i < |ops| :: WellMade(s, origin, ops[i]) && ConnectorAccepts(s, ops[i])
  {
    hide FirstFault, OperationFault, WellMade, ConnectorAccepts;
    FirstFaultIff(s.records, origin, ops);
    forall i | 0 <= i < |ops|
      ensures OperationFault(s.records, origin, ops[i]).None? <==>
        WellMade(s, origin, ops[i]) && ConnectorAccepts(s, ops[i])
    {
      FaultIff(s, origin, ops[i]);
    }
  }

  /** One operation's key can be reserved as the key table stands. */
  ghost predicate Takes(proposals: map<Id, Proposal>, keys: map<Key, KeyRow>, task: Id, op: Operation) {
    && GoodKey(op.businessKey)
    && (KeyOf(op) in keys ==>
          keys[KeyOf(op)].fingerprint == FingerprintOf(op) && Rebindable(proposals, keys[KeyOf(op)], task))
  }

  lemma {:induction false} ReserveAllIff(
    proposals: map<Id, Proposal>, keys: map<Key, KeyRow>, pid: Id, ops: seq<Operation>)
    requires pid in proposals && Pending(proposals[pid].status)
    ensures ReserveAll(proposals, keys, pid, ops).Ok? <==>
      && (forall i | 0 <= i < |ops| :: Takes(proposals, keys, proposals[pid].task, ops[i]))
      && DistinctKeys(ops)
    decreases |ops|
  {
    hide Rebindable, GoodKey, FingerprintOf, ValidBusinessKey;
    if ops != [] {
      var task := proposals[pid].task;
      GoodKeyIff(ops[0].businessKey);
      assert Reserve(proposals, keys, pid, ops[0]).Ok? <==> Takes(proposals, keys, task, ops[0]);
      if Reserve(proposals, keys, pid, ops[0]).Ok? {
        var next := Reserve(proposals, keys, pid, ops[0]).value;
        ReserveAllIff(proposals, next, pid, ops[1..]);
        HeldByPending(proposals, next[KeyOf(ops[0])], pid);
        forall i | 1 <= i < |ops|
          ensures Takes(proposals, next, task, ops[1..][i - 1]) <==>
            Takes(proposals, keys, task, ops[i]) && KeyOf(ops[i]) != KeyOf(ops[0])
        {
        }
        RestOfKeys(proposals, keys, next, task, ops);
      }
    }
  }

  lemma RestOfKeys(
    proposals: map<Id, Proposal>, keys: map<Key, KeyRow>, next: map<Key, KeyRow>, task: Id, ops: seq<Operation>)
    requires ops != [] && Takes(proposals, keys, task, ops[0])
    requires forall i | 1 <= i < |ops| ::
      Takes(proposals, next, task, ops[1..][i - 1]) <==>
        Takes(proposals, keys, task, ops[i]) && KeyOf(ops[i]) != KeyOf(ops[0])
    ensures (forall i | 0 <= i < |ops[1..]| :: Takes(proposals, next, task, ops[1..][i])) && DistinctKeys(ops[1..])
      <==> (forall i | 0 <= i < |ops| :: Takes(proposals, keys, task, ops[i])) && DistinctKeys(ops)
  {
    hide Takes;
    var rest := ops[1..];
    assert forall i | 0 <= i < |rest| :: rest[i] == ops[i + 1];
    assert forall i | 1 <= i < |ops| :: ops[i] == rest[i - 1];
    if (forall i | 0 <= i < |rest| :: Takes(proposals, next, task, rest[i])) && DistinctKeys(rest) {
      forall i | 1 <= i < |ops| ensures Takes(proposals, keys, task, ops[i]) && KeyOf(ops[i]) != KeyOf(ops[0]) {
        assert Takes(proposals, next, task, rest[i - 1]);
      }
      forall i, j | 0 <= i < j < |ops| ensures KeyOf(ops[i]) != KeyOf(ops[j]) {
        if i > 0 {
          assert KeyOf(rest[i - 1]) != KeyOf(rest[j - 1]);
        }
      }
    }
    if (forall i | 0 <= i < |ops| :: Takes(proposals, keys, task, ops[i])) && DistinctKeys(ops) {
      forall i | 0 <= i < |rest| ensures Takes(proposals, next, task, rest[i]) {
        assert KeyOf(ops[0]) != KeyOf(ops[i + 1]);
        assert Takes(proposals, keys, task, ops[i + 1]);
        assert ops[1..][i + 1 - 1] == rest[i];
      }
    }
  }

  lemma ReservedIff(s: Db, pid: Id, task: Id, actor: Id, origin: Id, ops: seq<Operation>)
    requires KeyRowsOk(s.proposals, s.decisions, s.keys) && DecisionsOk(s.proposals, s.decisions)
    requires RowsOk(s.tasks, s.proposals) && pid !in s.proposals
    ensures var proposals := Supersede(s.proposals, task)[pid := NewRow(s, task, actor, origin, ops)];
      ReserveAll(proposals, s.keys, pid, ops).Ok? <==>
        && (forall i | 0 <= i < |ops| :: GoodKey(ops[i].businessKey) && KeyFree(s, task, ops[i]))
        && (forall i, j | 0 <= i < j < |ops| :: KeyOf(ops[i]) != KeyOf(ops[j]))
  {
    hide ReserveAll, GoodKey, KeyFree, KeyRowsOk, DecisionsOk, RowsOk, Takes, Greatest, Revisions;
    var proposals := Supersede(s.proposals, task)[pid := NewRow(s, task, actor, origin, ops)];
    ReserveAllIff(proposals, s.keys, pid, ops);
    forall i | 0 <= i < |ops|
      ensures Takes(proposals, s.keys, task, ops[i]) <==> GoodKey(ops[i].businessKey) && KeyFree(s, task, ops[i])
    {
      TakesIff(s, proposals, pid, task, ops[i]);
    }
  }

  /** Creation supersedes the live proposal of the task before it looks at the keys. */
  lemma TakesIff(s: Db, proposals: map<Id, Proposal>, pid: Id, task: Id, op: Operation)
    requires KeyRowsOk(s.proposals, s.decisions, s.keys) && DecisionsOk(s.proposals, s.decisions)
    requires RowsOk(s.tasks, s.proposals) && pid !in s.proposals && pid in proposals
    requires proposals == Supersede(s.proposals, task)[pid := proposals[pid]]
    ensures Takes(proposals, s.keys, task, op) <==> GoodKey(op.businessKey) && KeyFree(s, task, op)
  {
    hide GoodKey, EverApproved, RejectDecided, DecisionsOk, FingerprintOf;
    NotYetApproved(s.proposals, s.decisions);
    if KeyOf(op) in s.keys {
      assert KeyRowOk(s.proposals, s.decisions, s.keys[KeyOf(op)]);
    }
  }

  /** A created proposal is for its task, by its creator, of its run, and has the operations of the draft, each
      with an id. */
  lemma CreatedRow(
    steps: seq<Step>, s: Db, pid: Id, task: Id, actor: Id, origin: Id, draft: seq<Operation>, ids: seq<Id>, t: Db)
    requires Reachable(EMPTY, steps, s) && |ids| == |draft|
    requires CreateProposal(s, pid, task, actor, origin, draft, ids) == Ok(t)
    ensures pid in t.proposals
    ensures var p := t.proposals[pid];
      && p.task == task && p.createdBy == actor && p.originRun == origin && p.status.PendingEndorsement?
      && p.digest == DigestOf(p.ops) && |p.ops| == |draft|
      && forall i | 0 <= i < |draft| ::
           p.ops[i] == if draft[i].id != NO_ID then draft[i] else draft[i].(id := ids[i])
  {
    hide Reachable, CreateProposal, Greatest, Revisions;
    CreateProposalShape(s, pid, task, actor, origin, draft, ids);
  }

  // ---- Keys scoped to a run ------------------------------------------------------------------

  /** No business key of a run's proposal contains the id of the run. */
  ghost predicate KeysUnscoped(s: Db) {
    forall p | p in s.proposals && s.proposals[p].originRun != NO_ID :: UnscopedOps(s.proposals[p])
  }

  ghost predicate UnscopedOps(p: Proposal) {
    forall i | 0 <= i < |p.ops| :: !Occurs(IdText(p.originRun), p.ops[i].businessKey)
  }

  lemma CreatedUnscoped(
    s: Db, pid: Id, task: Id, actor: Id, origin: Id, draft: seq<Operation>, ids: seq<Id>, t: Db)
    requires |ids| == |draft| && CreateProposal(s, pid, task, actor, origin, draft, ids) == Ok(t)
    ensures pid in t.proposals && (t.proposals[pid].originRun != NO_ID ==> UnscopedOps(t.proposals[pid]))
  {
    hide FirstFault, ReserveAll, Greatest, Revisions, Supersede, Occurs, WellMade, ConnectorAccepts;
    NoFaultIff(s, origin, WithIds(draft, ids));
    if origin != NO_ID {
      forall i | 0 <= i < |t.proposals[pid].ops| ensures !Occurs(IdText(origin), t.proposals[pid].ops[i].businessKey) {
        WellMadeUnscoped(s, origin, t.proposals[pid].ops[i]);
      }
    }
  }

  lemma WellMadeUnscoped(s: Db, origin: Id, op: Operation)
    requires WellMade(s, origin, op) && origin != NO_ID
    ensures !Occurs(IdText(origin), op.businessKey)
  {
    hide Occurs;
  }

  lemma StepUnscoped(s: Db, step: Step)
    requires Inv(s) && Enabled(s, step) && KeysUnscoped(s)
    ensures KeysUnscoped(Next(s, step))
  {
    hide Inv, AdminNext, OfficeNext, WorkNext, HandlerNext, RunNext, WorkEnabled, HandlerEnabled, RunEnabled, OnlyTask,
      TaskOf, UnscopedOps, KeysForward, DecisionsForward, EffectsForward, TasksForward, OpenOnly, HandoffsForward,
      AgentsForward, R.Widened, RunsForward, GatesForward, FreshWork, LedgerForward;
    var t := Next(s, step);
    StepForward(s, step);
    StepFrame(s, step);
    forall p | p in t.proposals && t.proposals[p].originRun != NO_ID ensures UnscopedOps(t.proposals[p]) {
      if p in s.proposals {
        SameUnscoped(s.proposals[p], t.proposals[p]);
      } else if step.Work? {
        ProposedByHand(s, t, step.work, p);
      } else {
        PublishedUnscoped(s, t, step.run, p);
      }
    }
  }

  lemma SameUnscoped(p: Proposal, q: Proposal)
    requires q == p.(status := q.status) && UnscopedOps(p)
    ensures UnscopedOps(q)
  {
    hide Occurs;
  }

  lemma PublishedUnscoped(s: Db, t: Db, step: RunStep, p: Id)
    requires RunEnabled(s, step) && t == RunNext(s, step) && step.PublishRun?
    requires p in t.proposals && p !in s.proposals && p == step.pid
    ensures t.proposals[p].originRun != NO_ID ==> UnscopedOps(t.proposals[p])
  {
    hide Publish, Judge, CreateProposal, UnscopedOps;
    var d, draft, ids := step.d, step.draft, step.ids;
    PublishShape(s, t, d, p, draft, ids);
    JudgeIs(s, d, p, draft, ids);
    var task := s.runs[d.run].task;
    var m := CreateProposal(s, p, task, d.phase.owner, d.run, draft, ids).value;
    CreatedUnscoped(s, p, task, d.phase.owner, d.run, draft, ids, m);
  }

  lemma {:induction false} RunUnscoped(s: Db, steps: seq<Step>, t: Db)
    requires Inv(s) && KeysUnscoped(s) && Reachable(s, steps, t)
    ensures KeysUnscoped(t)
    decreases |steps|
  {
    hide Inv, Next, Enabled, KeysUnscoped;
    if steps != [] {
      StepInv(s, steps[0]);
      StepUnscoped(s, steps[0]);
      RunUnscoped(Next(s, steps[0]), steps[1..], t);
    }
  }

  /** In every reachable state no operation of a run's proposal has a business key in which the id of the run
      occurs. */
  lemma NoRunScopedKey(steps: seq<Step>, s: Db, p: Id, i: nat)
    requires Reachable(EMPTY, steps, s) && p in s.proposals && s.proposals[p].originRun != NO_ID
    requires i < |s.proposals[p].ops|
    ensures !Occurs(IdText(s.proposals[p].originRun), s.proposals[p].ops[i].businessKey)
  {
    hide Inv, Reachable, Occurs;
    EmptyInv();
    RunUnscoped(EMPTY, steps, s);
    assert UnscopedOps(s.proposals[p]);
  }
}
