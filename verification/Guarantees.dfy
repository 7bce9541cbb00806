/** What the platform promises, for every run of it from an empty organisation. */
module Guarantees {
  import opened Wrappers
  import opened Connectors
  import opened GateSchemas
  import opened Tables
  import opened Proposals
  import opened Decisions
  import opened Execution
  import opened Runs
  import opened RunInvariants
  import opened Graph
  import opened Kernel
  import opened Invariant
  import opened Monotone
  import opened Frames
  import H = Handoffs
  import R = Releases

  lemma Reached(steps: seq<Step>, s: Db)
    requires Reachable(EMPTY, steps, s)
    ensures Inv(s) && Forward(EMPTY, s)
  {
    hide Inv, Forward, Reachable;
    EmptyInv();
    RunInv(EMPTY, steps, s);
    RunForward(EMPTY, steps, s);
  }

  lemma ReachedOn(steps: seq<Step>, s: Db, more: seq<Step>, t: Db)
    requires Reachable(EMPTY, steps, s) && Reachable(s, more, t)
    ensures Inv(s) && Inv(t) && Forward(s, t)
  {
    hide Inv, Forward, Reachable;
    Reached(steps, s);
    RunInv(s, more, t);
    RunForward(s, more, t);
  }

  // ---- Business keys -------------------------------------------------------------------------

  /** Two proposals that were ever approved share no business key, whatever tasks, revisions, rejections
      and cancellations lie between them. */
  lemma ApprovedShareNoKey(steps: seq<Step>, s: Db, p: Id, q: Id, i: nat, j: nat)
    requires Reachable(EMPTY, steps, s)
    requires p in s.proposals && q in s.proposals && EverApproved(s.decisions, p) && EverApproved(s.decisions, q)
    requires i < |s.proposals[p].ops| && j < |s.proposals[q].ops|
    requires p != q || i != j
    ensures KeyOf(s.proposals[p].ops[i]) != KeyOf(s.proposals[q].ops[j])
  {
    hide Reachable, Inv, RowsOk, OneLive, DecisionsOk, EffectsOk, AllOpsOk, ReceiptsOk, TargetsOk, RunsOk, KeysOk;
    Reached(steps, s);
    InvRows(s);
    var a :| DecisionKey(p, a, Approve) in s.decisions;
    var b :| DecisionKey(q, b, Approve) in s.decisions;
    KeptKeys(s, DecisionKey(p, a, Approve), i);
    KeptKeys(s, DecisionKey(q, b, Approve), j);
  }

  lemma KeptKeys(s: Db, d: DecisionKey, i: nat)
    requires KeysOk(s.proposals, s.decisions, s.keys)
    requires d in s.decisions && d.kind.Approve? && d.proposal in s.proposals && i < |s.proposals[d.proposal].ops|
    ensures Holds(s.keys, d.proposal, s.proposals[d.proposal].ops[i], true)
    ensures DistinctKeys(s.proposals[d.proposal].ops)
  {
    hide DistinctKeys, Holds;
  }

  /** A pending proposal holds each of its keys: bound to it, reserved, and with its content. */
  lemma PendingHoldsItsKeys(steps: seq<Step>, s: Db, p: Id, i: nat)
    requires Reachable(EMPTY, steps, s)
    requires p in s.proposals && Pending(s.proposals[p].status) && i < |s.proposals[p].ops|
    ensures var op := s.proposals[p].ops[i];
      KeyOf(op) in s.keys && s.keys[KeyOf(op)] == KeyRow(FingerprintOf(op), p, Reserved)
  {
    hide Reachable, Inv;
    Reached(steps, s);
    InvRows(s);
    assert HoldsAll(s.keys, p, s.proposals[p].ops, false);
    assert Holds(s.keys, p, s.proposals[p].ops[i], false);
  }

  /** A key never changes its content, and once dispatched it stays with its proposal for ever. */
  lemma KeyIsForEver(steps: seq<Step>, s: Db, more: seq<Step>, t: Db, k: Key)
    requires Reachable(EMPTY, steps, s) && Reachable(s, more, t) && k in s.keys
    ensures k in t.keys && t.keys[k].fingerprint == s.keys[k].fingerprint
    ensures s.keys[k].status.Dispatching? || s.keys[k].status.KeyVerified? ==>
      t.keys[k].proposal == s.keys[k].proposal && !t.keys[k].status.Reserved? && !t.keys[k].status.Released?
  {
    hide Reachable, Inv;
    ReachedOn(steps, s, more, t);
  }

  /** The status of a key tells exactly what became of the proposal it is bound to. */
  lemma KeyStatusTells(steps: seq<Step>, s: Db, k: Key)
    requires Reachable(EMPTY, steps, s) && k in s.keys
    ensures var p := s.keys[k].proposal;
      && p in s.proposals
      && (s.keys[k].status.KeyVerified? <==> s.proposals[p].status.ProposalDone?)
      && (s.keys[k].status.Dispatching? <==> EverApproved(s.decisions, p) && !s.proposals[p].status.ProposalDone?)
      && (s.keys[k].status.Released? <==> !EverApproved(s.decisions, p) && RejectDecided(s.decisions, p))
      && (s.keys[k].status.Reserved? <==> !EverApproved(s.decisions, p) && !RejectDecided(s.decisions, p))
  {
    hide Reachable, Inv, EverApproved, RejectDecided;
    Reached(steps, s);
    InvBooks(s);
    assert KeyRowOk(s.proposals, s.decisions, s.keys[k]);
  }

  lemma InvBooks(s: Db)
    requires Inv(s)
    ensures KeyRowsOk(s.proposals, s.decisions, s.keys) && RevisionsOk(s.proposals)
  {
    hide RunsOk, WakeOk, ExecOk, DepsOk, H.HandoffsOk, R.ReleasesOk, R.AdmissionsOk, KeyRowsOk, RevisionsOk;
  }

  /** A key moves on within its task exactly when its holder was never approved and is no longer pending;
      to another task, only if that holder was rejected too. */
  lemma KeyMovesOnIff(steps: seq<Step>, s: Db, k: Key, task: Id)
    requires Reachable(EMPTY, steps, s) && k in s.keys
    ensures var p := s.keys[k].proposal;
      && p in s.proposals
      && (s.proposals[p].task == task ==>
            (Rebindable(s.proposals, s.keys[k], task) <==>
               !EverApproved(s.decisions, p) && !Pending(s.proposals[p].status)))
      && (s.proposals[p].task != task ==>
            (Rebindable(s.proposals, s.keys[k], task) <==>
               && !EverApproved(s.decisions, p)
               && (s.proposals[p].status.Rejected? || RejectDecided(s.decisions, p))))
  {
    hide Reachable, Inv, RowsOk, OneLive, EffectsOk, KeysOk, AllOpsOk, ReceiptsOk, TargetsOk, RunsOk, DecisionsOk,
      EverApproved, RejectDecided, KeyRowOk, Rebindable;
    Reached(steps, s);
    InvBooks(s);
    InvRows(s);
    RebindableIff(s, k, task);
  }

  lemma RebindableIff(s: Db, k: Key, task: Id)
    requires KeyRowsOk(s.proposals, s.decisions, s.keys) && DecisionsOk(s.proposals, s.decisions)
    requires RowsOk(s.tasks, s.proposals) && k in s.keys
    ensures var p := s.keys[k].proposal;
      && p in s.proposals
      && (s.proposals[p].task == task ==>
            (Rebindable(s.proposals, s.keys[k], task) <==>
               !EverApproved(s.decisions, p) && !Pending(s.proposals[p].status)))
      && (s.proposals[p].task != task ==>
            (Rebindable(s.proposals, s.keys[k], task) <==>
               && !EverApproved(s.decisions, p)
               && (s.proposals[p].status.Rejected? || RejectDecided(s.decisions, p))))
  {
    hide EverApproved, RejectDecided, DecisionsOk;
    NotYetApproved(s.proposals, s.decisions);
    assert KeyRowOk(s.proposals, s.decisions, s.keys[k]);
  }

  /** The revisions of a task run from 1 without a gap, and no two proposals share one. */
  lemma RevisionsAreConsecutive(steps: seq<Step>, s: Db, p: Id)
    requires Reachable(EMPTY, steps, s) && p in s.proposals
    ensures s.proposals[p].revision >= 1
    ensures s.proposals[p].revision > 1 ==> exists q ::
      && q in s.proposals
      && s.proposals[q].task == s.proposals[p].task && s.proposals[q].revision == s.proposals[p].revision - 1
    ensures forall q | q in s.proposals && q != p && s.proposals[q].task == s.proposals[p].task ::
      s.proposals[q].revision != s.proposals[p].revision
  {
    hide Reachable, Inv, KeyRowsOk, EffectsOk, KeysOk, AllOpsOk, ReceiptsOk, TargetsOk, RunsOk, DecisionsOk;
    Reached(steps, s);
    InvBooks(s);
    InvRows(s);
  }

  // ---- The ledger ----------------------------------------------------------------------------

  /** A record's version counts its verified effects, however jobs were retried, duplicated or lost. */
  lemma VersionCountsEffects(steps: seq<Step>, s: Db, r: Id)
    requires Reachable(EMPTY, steps, s) && r in s.records
    ensures s.records[r].version == 1 + Steps(s.receipts, r)
    ensures ReceiptsOk(s.effects, s.receipts)
  {
    hide Reachable, Inv, ReceiptsOk;
    Reached(steps, s);
    InvRows(s);
  }

  /** Between any two moments a quantity moves by exactly the deltas of the receipts written between
      them, and stays an exact non-negative integer. */
  lemma QuantityIsConserved(steps: seq<Step>, s: Db, more: seq<Step>, t: Db, r: Id)
    requires Reachable(EMPTY, steps, s) && Reachable(s, more, t)
    requires r in s.records && HasQuantity(s.records[r].data)
    ensures s.receipts <= t.receipts
    ensures r in t.records && HasQuantity(t.records[r].data)
    ensures Quantity(t.records[r].data) == Quantity(s.records[r].data) + Total(t.receipts[|s.receipts|..], r)
    ensures t.records[r].version == s.records[r].version + Steps(t.receipts[|s.receipts|..], r)
  {
    hide Reachable, Inv;
    ReachedOn(steps, s, more, t);
  }

  // ---- Runs ----------------------------------------------------------------------------------

  /** No run is stranded: a queued one has a delivery still to try its claim, a running one a delivery
      that holds it or will look at it again; and a run has a claim token exactly while it is running. */
  lemma NoRunIsStranded(steps: seq<Step>, s: Db, r: Id)
    requires Reachable(EMPTY, steps, s) && r in s.runs
    ensures s.runs[r].status.Queued? ==> Delivery(r, Idle) in s.deliveries
    ensures s.runs[r].status.Running? ==>
      exists d | d in s.deliveries ::
        d.run == r && (d.phase.Idle? || d.phase.Peeking? || TokenOf(d.phase) == s.runs[r].token)
    ensures s.runs[r].token != NO_ID <==> s.runs[r].status.Running?
  {
    hide Reachable, Inv, HoldersOk, LeasesOk, GatesOk, RunTasksOk, OriginsOk;
    Reached(steps, s);
    InvRuns(s);
    assert Accounted(r, s.runs[r], s.deliveries);
    if s.runs[r].status.Queued? || s.runs[r].status.Running? {
      var d :| d in s.deliveries && Witness(r, s.runs[r], d);
      assert s.runs[r].status.Queued? ==> d == Delivery(r, Idle);
    }
  }

  /** Two handlers never hold one run: of those that work on it, at most one has its token. */
  lemma OneHolder(steps: seq<Step>, s: Db, d: Delivery, e: Delivery)
    requires Reachable(EMPTY, steps, s) && d in s.deliveries && e in s.deliveries
    requires d.run == e.run && TokenOf(d.phase) != NO_ID && TokenOf(e.phase) != NO_ID
    requires Holding(s, d) && Holding(s, e)
    ensures d == e && s.deliveries[d] == 1
  {
    hide Reachable, Inv, TokensOk, NoRunLost, LeasesOk, GatesOk, RunTasksOk, OriginsOk;
    Reached(steps, s);
    InvRuns(s);
  }

  /** A worker that claimed a run holds it until its lease ends: it is displaced only by a cancellation. */
  lemma LeaseIsKept(steps: seq<Step>, s: Db, d: Delivery)
    requires Reachable(EMPTY, steps, s) && d in s.deliveries && TokenOf(d.phase) != NO_ID
    requires s.now <= DeadlineOf(d.phase)
    ensures d.run in s.runs && (Holding(s, d) || s.runs[d.run].status.RunCancelled?)
  {
    hide Reachable, Inv, NoRunLost, GatesOk, RunTasksOk, OriginsOk;
    Reached(steps, s);
    InvRuns(s);
    assert LeaseOk(s.runs, d, s.now);
    assert d.phase.Claimed? || d.phase.Working? || d.phase.Failing?;
    HolderHasToken(s, d);
  }

  /** A worker that lost its run to a reclaim, another claim or a cancellation changes nothing any more: it
      asks no question, publishes nothing and records no failure. */
  lemma DisplacedWorkerIsHarmless(
    steps: seq<Step>, s: Db, d: Delivery, gate: Id, schema: Schema, respondent: Id,
    pid: Id, draft: seq<Operation>, ids: seq<Id>)
    requires Reachable(EMPTY, steps, s) && d in s.deliveries && TokenOf(d.phase) != NO_ID && !Holding(s, d)
    requires |ids| == |draft|
    ensures d.phase.Failing? ==> Fail(s, d) == Move(s, d, Returned)
    ensures d.phase.Working? ==> Park(s, d, gate, schema, respondent) == Move(s, d, Returned)
    ensures d.phase.Working? ==> Publish(s, d, pid, draft, ids) == Move(s, d, Returned)
  {
    hide Reachable, Inv, RunsOk, Fail, Park, Publish, Move, Holding;
    Reached(steps, s);
    InvRuns(s);
    HolderHasToken(s, d);
    if d.phase.Failing? {
      DisplacedFails(s, d);
    } else if d.phase.Working? {
      DisplacedAsks(s, d, gate, schema, respondent);
      DisplacedPublishes(s, d, pid, draft, ids);
    }
  }

  lemma DisplacedFails(s: Db, d: Delivery)
    requires d.phase.Failing? && (d.run in s.runs ==> s.runs[d.run].token != d.phase.token)
    ensures Fail(s, d) == Move(s, d, Returned)
  {
  }

  lemma DisplacedAsks(s: Db, d: Delivery, gate: Id, schema: Schema, respondent: Id)
    requires d.phase.Working? && !Holding(s, d)
    ensures Park(s, d, gate, schema, respondent) == Move(s, d, Returned)
  {
    hide Usable, PendingFor, Holding;
  }

  lemma DisplacedPublishes(s: Db, d: Delivery, pid: Id, draft: seq<Operation>, ids: seq<Id>)
    requires d.phase.Working? && |ids| == |draft| && !Holding(s, d)
    ensures Publish(s, d, pid, draft, ids) == Move(s, d, Returned)
  {
    hide Judge, Holding;
    JudgeIs(s, d, pid, draft, ids);
  }

  /** A run that ended never changes again. */
  lemma EndedRunIsFrozen(steps: seq<Step>, s: Db, more: seq<Step>, t: Db, r: Id)
    requires Reachable(EMPTY, steps, s) && Reachable(s, more, t) && r in s.runs && !LiveRun(s.runs[r].status)
    ensures r in t.runs && t.runs[r] == s.runs[r]
  {
    hide Reachable, Inv;
    ReachedOn(steps, s, more, t);
  }

  /** A run publishes once at most, and exactly when it succeeds. */
  lemma RunPublishesOnce(steps: seq<Step>, s: Db, r: Id)
    requires Reachable(EMPTY, steps, s) && r in s.runs
    ensures forall p, q | p in s.proposals && q in s.proposals
      && s.proposals[p].originRun == r && s.proposals[q].originRun == r :: p == q
    ensures s.runs[r].status.Succeeded? <==> exists p :: p in s.proposals && s.proposals[p].originRun == r
  {
    hide Reachable, Inv, NoRunLost, HoldersOk, LeasesOk, GatesOk, RunTasksOk;
    Reached(steps, s);
    InvRuns(s);
    assert r != NO_ID;
  }

  /** A proposal of a run is only ever made by the worker that holds its claim, for an open task it
      noted the owner of, under an active release, with owner and initiator active. */
  lemma OnlyTheHolderPublishes(steps: seq<Step>, s: Db, step: Step, t: Db, p: Id)
    requires Reachable(EMPTY, steps, s) && Enabled(s, step) && t == Next(s, step)
    requires p in t.proposals && p !in s.proposals && t.proposals[p].originRun != NO_ID
    ensures step.Fleet? && step.run.PublishRun? && step.run.pid == p
    ensures var d := step.run.d;
      && d in s.deliveries && Holding(s, d) && t.proposals[p].originRun == d.run
      && s.runs[d.run].task in s.tasks && Open(s.tasks[s.runs[d.run].task].status)
      && s.tasks[s.runs[d.run].task].owner == d.phase.owner
      && s.runs[d.run].release in s.releases && s.releases[s.runs[d.run].release].State().Active?
      && ActivePrincipal(s.principals, d.phase.owner) && ActivePrincipal(s.principals, s.runs[d.run].createdBy)
  {
    hide Reachable, AdminNext, OfficeNext, WorkNext, HandlerNext, RunNext, WorkEnabled, HandlerEnabled, RunEnabled, Inv,
      OnlyTask, TaskOf, ActivePrincipal, Holding;
    Reached(steps, s);
    StepFrame(s, step);
    if step.Work? {
      ProposedByHand(s, t, step.work, p);
    } else {
      PublishMakes(s, t, step.run, p);
    }
  }

  lemma ProposedByHand(s: Db, t: Db, step: WorkStep, p: Id)
    requires WorkEnabled(s, step) && t == WorkNext(s, step) && step.Propose?
    requires p in t.proposals && p !in s.proposals
    ensures t.proposals[p].originRun == NO_ID
  {
    hide CreateProposal;
    if CreateProposal(s, step.pid, step.task, step.actor, NO_ID, step.draft, step.ids).Ok? {
      CreatedKept(s, t, step.pid, step.task, step.actor, NO_ID, step.draft, step.ids);
    }
  }

  lemma PublishMakes(s: Db, t: Db, step: RunStep, p: Id)
    requires RunEnabled(s, step) && t == RunNext(s, step) && step.PublishRun?
    requires p in t.proposals && p !in s.proposals && p == step.pid
    ensures var d := step.d;
      && d in s.deliveries && Holding(s, d) && t.proposals[p].originRun == d.run
      && d.phase.Working?
      && s.runs[d.run].task in s.tasks && Open(s.tasks[s.runs[d.run].task].status)
      && s.tasks[s.runs[d.run].task].owner == d.phase.owner
      && s.runs[d.run].release in s.releases && s.releases[s.runs[d.run].release].State().Active?
      && ActivePrincipal(s.principals, d.phase.owner) && ActivePrincipal(s.principals, s.runs[d.run].createdBy)
  {
    hide Publish, Judge, CreateProposal, ActivePrincipal;
    var d, draft, ids := step.d, step.draft, step.ids;
    PublishShape(s, t, d, p, draft, ids);
    JudgeIs(s, d, p, draft, ids);
    var task := s.runs[d.run].task;
    var m := CreateProposal(s, p, task, d.phase.owner, d.run, draft, ids).value;
    CreatedKept(s, m, p, task, d.phase.owner, d.run, draft, ids);
    CreatedOpen(s, m, p, task, d.phase.owner, d.run, draft, ids);
  }

  // ---- Wake-ups, dependencies ----------------------------------------------------------------

  /** No lost wake-up: an approved proposal whose task's parents are all done has an unacknowledged job,
      although blocked jobs are acknowledged without doing the work. */
  lemma NoLostWakeUp(steps: seq<Step>, s: Db, p: Id)
    requires Reachable(EMPTY, steps, s) && p in s.proposals && s.proposals[p].status.Approved?
    requires ParentsDone(s.tasks, s.deps, s.proposals[p].task)
    ensures Job(p, Delivered) in s.jobs || Job(p, ToMark) in s.jobs
  {
    hide Reachable, Inv, OneLive, DecisionsOk, EffectsOk, KeysOk, AllOpsOk, ReceiptsOk, TargetsOk, RunsOk, DepsOk,
      H.HandoffsOk, R.ReleasesOk, R.AdmissionsOk;
    Reached(steps, s);
    InvRows(s);
    InvWakes(s);
    assert Due(s.tasks, s.deps, s.proposals, p);
  }

  lemma InvWakes(s: Db)
    requires Inv(s)
    ensures WakeOk(s.tasks, s.deps, s.proposals, s.jobs) && DepsOk(s.tasks, s.deps)
    ensures H.HandoffsOk(s.tasks, s.handoffs)
    ensures R.ReleasesOk(s.releases) && R.AdmissionsOk(s.runs, s.agents, s.releases)
  {
    hide BooksOk, RunsOk, WakeOk, ExecOk, DepsOk, H.HandoffsOk, R.ReleasesOk, R.AdmissionsOk;
  }

  /** The dependency graph stays acyclic, so while no task is cancelled some open task is not waiting for
      any other. */
  lemma SomeTaskCanProceed(steps: seq<Step>, s: Db, open: Id) returns (free: Id)
    requires Reachable(EMPTY, steps, s) && open in s.tasks && Open(s.tasks[open].status)
    requires forall k | k in s.tasks :: !s.tasks[k].status.TaskCancelled?
    ensures Acyclic(s.deps)
    ensures free in s.tasks && Open(s.tasks[free].status) && ParentsDone(s.tasks, s.deps, free)
  {
    hide Reachable, Inv, Acyclic, WakeOk, H.HandoffsOk, R.ReleasesOk, R.AdmissionsOk;
    Reached(steps, s);
    InvWakes(s);
    var waiting := set k | k in s.tasks && Open(s.tasks[k].status);
    free := SomeNodeUnblocked(s.deps, waiting, open);
  }

  /** A proposal is only carried out while every parent then recorded for its task is done, its owner is
      active, and an active approver and an active endorser stand behind it; and then as a whole: each
      authorised operation, accepted by its record as it stood, takes its own record one step. */
  lemma CarriedOutWhenPermitted(
    steps: seq<Step>, s: Db, p: Id, order: seq<Id>, acknowledged: bool, t: Db, ops: seq<Operation>, out: Outcome)
    requires Reachable(EMPTY, steps, s) && IsOrder(s.effects, p, order) && t == RunJob(s, p, order, acknowledged)
    requires ops == OpsInOrder(s.effects, p, order) && t.receipts != s.receipts
    requires out == Applied(t.records, t.receipts[if |s.receipts| <= |t.receipts| then |s.receipts| else 0..])
    ensures p in s.proposals && s.proposals[p].status.Approved?
    ensures p in t.proposals && t.proposals[p].status.ProposalDone?
    ensures Permitted(s, s.proposals[p].task, p) && ParentsDone(s.tasks, s.deps, s.proposals[p].task)
    ensures Behind(s, p)
    ensures Acceptable(s.records, ops) && EachStepped(s.records, p, ops, out) && t.receipts == s.receipts + out.receipts
  {
    hide Reachable, Inv, Apply, IsOrder, Permitted, EachStepped, Acceptable, ParentsDone, RowsOk, OneLive, DecisionsOk,
      EffectsOk, KeysOk, AllOpsOk, ReceiptsOk, TargetsOk, RunsOk, OpsInOrder;
    Reached(steps, s);
    InvRows(s);
    OrderListed(s, p, order);
    match Apply(s, p, order)
    case Handled(m) => AppliedWhenPermitted(s, m, p, order, ops, out); PermittedBehind(s, p);
    case Fault(_) =>
    case OtherFault =>
  }

  /** The task's owner is active, and so are someone who approved the proposal and still has the role for it and
      someone who endorsed it. */
  ghost predicate Behind(s: Db, p: Id)
    requires p in s.proposals
  {
    var task := s.proposals[p].task;
    && task in s.tasks && s.tasks[task].owner in s.principals && s.principals[s.tasks[task].owner].active
    && (exists d | d in s.decisions ::
          && d.proposal == p && d.kind.Approve? && d.actor in s.principals && s.principals[d.actor].active
          && (s.principals[d.actor].role.Approver? || s.principals[d.actor].role.Admin?))
    && (exists d | d in s.decisions ::
          d.proposal == p && d.kind.Endorse? && d.actor in s.principals && s.principals[d.actor].active)
  }

  lemma PermittedBehind(s: Db, p: Id)
    requires p in s.proposals && Permitted(s, s.proposals[p].task, p)
    ensures Behind(s, p)
  {
  }

  lemma OrderListed(s: Db, p: Id, order: seq<Id>)
    requires IsOrder(s.effects, p, order)
    ensures forall i | 0 <= i < |order| :: EffectKey(p, order[i]) in s.effects
  {
    assert forall i | 0 <= i < |order| :: order[i] in order;
  }

  lemma AppliedWhenPermitted(s: Db, m: Db, p: Id, order: seq<Id>, ops: seq<Operation>, out: Outcome)
    requires EffectsOk(s.proposals, s.decisions, s.effects) && AllOpsOk(s.records, s.proposals)
    requires RowsOk(s.tasks, s.proposals)
    requires forall i | 0 <= i < |order| :: EffectKey(p, order[i]) in s.effects
    requires Apply(s, p, order) == Handled(m) && m.receipts != s.receipts && ops == OpsInOrder(s.effects, p, order)
    requires out == Applied(m.records, m.receipts[if |s.receipts| <= |m.receipts| then |s.receipts| else 0..])
    ensures p in s.proposals && s.proposals[p].status.Approved?
    ensures p in m.proposals && m.proposals[p].status.ProposalDone?
    ensures Permitted(s, s.proposals[p].task, p) && ParentsDone(s.tasks, s.deps, s.proposals[p].task)
    ensures Acceptable(s.records, ops) && EachStepped(s.records, p, ops, out) && m.receipts == s.receipts + out.receipts
  {
    hide ApplyOps, RowsOk, EffectsOk, AllOpsOk, EachStepped, SetBack, Acceptable, Woken, Deliveries, Permitted,
      ParentsDone, Finish, VerifyEffects, VerifyKeys, SetStatus;
    NeverExecuting(s.tasks, s.proposals, p);
    if Permitted(s, s.proposals[p].task, p) {
      PermittedParents(s, s.proposals[p].task, p);
      CommitMoves(s, p, order);
      OrderedOps(s, p, order);
      ApplyOpsIff(s.records, p, ops);
      var applied := ApplyOps(s.records, p, ops);
      assert m.receipts == s.receipts + applied.receipts;
      assert m.receipts[|s.receipts|..] == applied.receipts;
      assert out == applied;
      SettledDone(s.proposals, p);
    } else {
      SetBackTables(s, m, p);
    }
  }

  lemma SettledDone(proposals: map<Id, Proposal>, p: Id)
    requires p in proposals
    ensures var after := SetStatus(proposals, p, ProposalDone); p in after && after[p].status.ProposalDone?
  {
  }

  lemma PermittedParents(s: Db, task: Id, p: Id)
    requires Permitted(s, task, p)
    ensures ParentsDone(s.tasks, s.deps, task)
  {
  }

  /** Nothing else moves a record: as long as no receipt names it, it stays exactly as it is. */
  lemma OnlyReceiptsMoveRecords(steps: seq<Step>, s: Db, more: seq<Step>, t: Db, r: Id)
    requires Reachable(EMPTY, steps, s) && Reachable(s, more, t) && r in s.records
    requires forall i | |s.receipts| <= i < |t.receipts| :: t.receipts[i].op.target != r
    ensures r in t.records && t.records[r] == s.records[r]
  {
    hide Reachable, Inv;
    ReachedOn(steps, s, more, t);
    var newer := t.receipts[|s.receipts|..];
    assert forall i | 0 <= i < |newer| :: newer[i] == t.receipts[|s.receipts| + i];
    NoSteps(newer, r);
  }

  // ---- Authority -----------------------------------------------------------------------------

  /** Every receipt carries out an operation of a proposal that its creator endorsed and a different
      principal, approver or admin when deciding, approved, both for that very revision and content. */
  lemma EveryEffectIsAuthorised(steps: seq<Step>, s: Db, i: nat) returns (approver: Id)
    requires Reachable(EMPTY, steps, s) && i < |s.receipts|
    ensures var p := s.receipts[i].effect.proposal;
      && p in s.proposals && s.receipts[i].op in s.proposals[p].ops && s.receipts[i].op.id == s.receipts[i].effect.op
      && DecisionKey(p, s.proposals[p].createdBy, Endorse) in s.decisions
      && DecisionKey(p, approver, Approve) in s.decisions
      && approver != s.proposals[p].createdBy
      && MayApprove(s.decisions[DecisionKey(p, approver, Approve)].role)
      && (forall d | d in s.decisions && d.proposal == p ::
            s.decisions[d].revision == s.proposals[p].revision
            && s.decisions[d].digest == DigestOf(s.proposals[p].ops))
  {
    hide Reachable, Inv, FirstOp, OneLive, KeysOk, AllOpsOk, TargetsOk, RunsOk;
    Reached(steps, s);
    InvRows(s);
    var p := s.receipts[i].effect.proposal;
    FirstOpIs(s.proposals[p].ops, s.receipts[i].effect.op);
    approver :| DecisionKey(p, approver, Approve) in s.decisions;
  }

  /** What was decided on never changes: a proposal keeps its content, and a decision is never withdrawn. */
  lemma DecidedContentIsFixed(steps: seq<Step>, s: Db, more: seq<Step>, t: Db, p: Id)
    requires Reachable(EMPTY, steps, s) && Reachable(s, more, t) && p in s.proposals
    ensures p in t.proposals && t.proposals[p] == s.proposals[p].(status := t.proposals[p].status)
    ensures !Live(s.proposals[p].status) ==> t.proposals[p].status == s.proposals[p].status
    ensures forall d | d in s.decisions :: d in t.decisions && t.decisions[d] == s.decisions[d]
  {
    hide Reachable, Inv;
    ReachedOn(steps, s, more, t);
  }

  ghost predicate DistinctIds(ops: seq<Operation>) {
    forall i, j | 0 <= i < j < |ops| :: ops[i].id != ops[j].id
  }

  /** An approved proposal carries all its operations as effects exactly when their ids differ: of several
      with one id, only the first becomes an effect. */
  lemma AllOperationsAreEffectsIff(steps: seq<Step>, s: Db, p: Id)
    requires Reachable(EMPTY, steps, s) && p in s.proposals
    requires s.proposals[p].status.Approved? || s.proposals[p].status.ProposalDone?
    ensures var ops := s.proposals[p].ops;
      DistinctIds(ops) <==>
        forall i | 0 <= i < |ops| ::
          EffectKey(p, ops[i].id) in s.effects && s.effects[EffectKey(p, ops[i].id)].op == ops[i]
  {
    hide Reachable, Inv, RowsOk, OneLive, DecisionsOk, AllOpsOk, ReceiptsOk, TargetsOk, RunsOk, EffectsOk, KeysOk,
      DistinctIds;
    Reached(steps, s);
    InvRows(s);
    EffectsAreFirst(s, p);
    EffectsAreAllIff(s.effects, p, s.proposals[p].ops);
  }

  lemma EffectsAreFirst(s: Db, p: Id)
    requires EffectsOk(s.proposals, s.decisions, s.effects) && KeysOk(s.proposals, s.decisions, s.keys)
    requires p in s.proposals && (s.proposals[p].status.Approved? || s.proposals[p].status.ProposalDone?)
    ensures var ops := s.proposals[p].ops;
      DistinctKeys(ops) && forall i | 0 <= i < |ops| ::
        var e := EffectKey(p, ops[i].id); e in s.effects && FirstOp(ops, ops[i].id) == Some(s.effects[e].op)
  {
    hide FirstOp, EverApproved;
    assert HasAllEffects(s.effects, p, s.proposals[p].ops);
  }

  lemma EffectsAreAllIff(effects: map<EffectKey, Effect>, p: Id, ops: seq<Operation>)
    requires DistinctKeys(ops)
    requires forall i | 0 <= i < |ops| ::
      var e := EffectKey(p, ops[i].id); e in effects && FirstOp(ops, ops[i].id) == Some(effects[e].op)
    ensures DistinctIds(ops) <==> forall i | 0 <= i < |ops| :: effects[EffectKey(p, ops[i].id)].op == ops[i]
  {
    hide FirstOp;
    if DistinctIds(ops) {
      forall i | 0 <= i < |ops| ensures effects[EffectKey(p, ops[i].id)].op == ops[i] {
        FirstOpIs(ops, ops[i].id);
      }
    }
    if forall i | 0 <= i < |ops| :: effects[EffectKey(p, ops[i].id)].op == ops[i] {
      forall i, j | 0 <= i < j < |ops| ensures ops[i].id != ops[j].id {
        assert KeyOf(ops[i]) != KeyOf(ops[j]);
        assert effects[EffectKey(p, ops[i].id)].op == ops[i] && effects[EffectKey(p, ops[j].id)].op == ops[j];
      }
    }
  }

  /** A done proposal has every effect verified, with one receipt each, all on different records; so it
      never lists two operations on one record, unless they share an id. */
  lemma DoneTouchesEachRecordOnce(steps: seq<Step>, s: Db, p: Id, i: nat, j: nat)
    requires Reachable(EMPTY, steps, s) && p in s.proposals && s.proposals[p].status.ProposalDone?
    requires i < j < |s.proposals[p].ops| && DistinctIds(s.proposals[p].ops)
    ensures s.proposals[p].ops[i].target != s.proposals[p].ops[j].target
    ensures HasReceipt(s.receipts, EffectKey(p, s.proposals[p].ops[i].id))
  {
    hide Reachable, Inv, DistinctIds;
    Reached(steps, s);
    InvRows(s);
    AllOperationsAreEffectsIff(steps, s, p);
    var ops := s.proposals[p].ops;
    assert ops[i].id != ops[j].id by {
      DistinctAt(ops, i, j);
    }
    assert s.effects[EffectKey(p, ops[i].id)].op == ops[i] && s.effects[EffectKey(p, ops[j].id)].op == ops[j];
  }

  lemma DistinctAt(ops: seq<Operation>, i: nat, j: nat)
    requires DistinctIds(ops) && i < j < |ops|
    ensures ops[i].id != ops[j].id
  {
  }

  // ---- Tasks ---------------------------------------------------------------------------------

  /** A task has one live proposal at most, and none once it is done or cancelled. */
  lemma OneLiveProposal(steps: seq<Step>, s: Db, p: Id, q: Id)
    requires Reachable(EMPTY, steps, s) && p in s.proposals && q in s.proposals
    requires Live(s.proposals[p].status) && Live(s.proposals[q].status) && s.proposals[p].task == s.proposals[q].task
    ensures p == q
    ensures s.proposals[p].task in s.tasks && Open(s.tasks[s.proposals[p].task].status)
  {
    hide Reachable, Inv;
    Reached(steps, s);
    InvRows(s);
  }

  /** Every step, whatever it is and whether it is taken or refused, adds and changes tasks, proposals, keys,
      effects, receipts, runs and questions of a single task. Only a sweep reaches further, and it changes
      nothing but the runs it takes back. */
  lemma StepConcernsOneTask(steps: seq<Step>, s: Db, step: Step, t: Db)
    requires Reachable(EMPTY, steps, s) && Enabled(s, step) && t == Next(s, step)
    ensures OnlyTask(s, if Sweeps(step) then t.(runs := s.runs) else t, TaskOf(s, step))
    ensures s.receipts <= t.receipts && forall i | |s.receipts| <= i < |t.receipts| ::
      IsOf(t.proposals, t.receipts[i].effect.proposal, TaskOf(s, step))
    ensures Sweeps(step) ==> forall r | r in s.runs && r !in step.run.chosen :: r in t.runs && t.runs[r] == s.runs[r]
  {
    hide Reachable, Inv, Next, Enabled, TaskOf, TasksOnly, ProposalsOnly, KeysOnly, EffectsOnly, RunsOnly, GatesOnly,
      IsOf, Progress, ReceiptsOk, RowsOk, OneLive, DecisionsOk, EffectsOk, KeysOk, AllOpsOk, TargetsOk, RunsOk,
      ProposalsForward, KeysForward, DecisionsForward, EffectsForward, TasksForward, OpenOnly, HandoffsForward,
      AgentsForward, R.Widened, RunsForward, GatesForward, FreshWork;
    Reached(steps, s);
    StepInv(s, step);
    StepFrame(s, step);
    StepForward(s, step);
    InvRows(s);
    InvRows(t);
    ReceiptsFrame(s, t, TaskOf(s, step));
    if Sweeps(step) {
      SweptOnly(s, step, t);
    }
  }

  lemma SweptOnly(s: Db, step: Step, t: Db)
    requires Enabled(s, step) && t == Next(s, step) && Sweeps(step)
    ensures forall r | r in s.runs && r !in step.run.chosen :: r in t.runs && t.runs[r] == s.runs[r]
  {
    hide EligibleRuns, FirstEligible, Continuations;
  }

  /** The step has made a new proposal for the task. */
  ghost predicate NewFor(s: Db, t: Db, q: Id, task: Id) {
    q in t.proposals && q !in s.proposals && t.proposals[q].task == task
  }

  /** Whatever the step: a proposal becomes superseded exactly when it was live and a new one is made for its
      task, by its owner or for him by a run, while the task is open; and the new one has a greater revision. */
  lemma SupersededBySuccessorIff(steps: seq<Step>, s: Db, step: Step, t: Db, p: Id)
    requires Reachable(EMPTY, steps, s) && Enabled(s, step) && t == Next(s, step)
    requires p in s.proposals && !s.proposals[p].status.Superseded?
    ensures p in t.proposals
    ensures t.proposals[p].status.Superseded? <==>
      Live(s.proposals[p].status) && exists q :: NewFor(s, t, q, s.proposals[p].task)
    ensures forall q | NewFor(s, t, q, s.proposals[p].task) ::
      && ((step.Work? && step.work.Propose? && step.work.pid == q)
          || (step.Fleet? && step.run.PublishRun? && step.run.pid == q))
      && t.proposals[q].revision > s.proposals[p].revision && t.proposals[q].status.PendingEndorsement?
      && s.proposals[p].task in s.tasks && Open(s.tasks[s.proposals[p].task].status)
      && t.proposals[q].createdBy == s.tasks[s.proposals[p].task].owner
  {
    hide Reachable, Inv, Next, Enabled, TaskOf, OnlyTask, Settles, Revised, NewFor;
    Reached(steps, s);
    StepFrame(s, step);
    if Settles(s.proposals, t.proposals) {
      NoneSuperseded(s, t, p);
    } else {
      RevisedSupersedes(s, t, if step.Work? then step.work.pid else step.run.pid, TaskOf(s, step), p);
    }
  }

  lemma NoneSuperseded(s: Db, t: Db, p: Id)
    requires Settles(s.proposals, t.proposals) && p in s.proposals && !s.proposals[p].status.Superseded?
    ensures p in t.proposals && !t.proposals[p].status.Superseded?
    ensures forall q, task :: !NewFor(s, t, q, task)
  {
  }

  lemma RevisedSupersedes(s: Db, t: Db, made: Id, task: Id, p: Id)
    requires Revised(s, t, made, task) && p in s.proposals && !s.proposals[p].status.Superseded?
    ensures p in t.proposals
    ensures t.proposals[p].status.Superseded? <==>
      Live(s.proposals[p].status) && exists q :: NewFor(s, t, q, s.proposals[p].task)
    ensures forall q | NewFor(s, t, q, s.proposals[p].task) ::
      && q == made && s.proposals[p].task == task
      && t.proposals[q].revision > s.proposals[p].revision && t.proposals[q].status.PendingEndorsement?
      && task in s.tasks && Open(s.tasks[task].status) && t.proposals[q].createdBy == s.tasks[task].owner
  {
    assert NewFor(s, t, made, task);
  }

  /** Cancellation is final: whatever happens later, no record changes for the task, nothing is published
      for it, its runs stay ended, no run of it is admitted and no question of it is asked or answered. */
  lemma CancelledIsFinal(steps: seq<Step>, s: Db, more: seq<Step>, t: Db, task: Id)
    requires Reachable(EMPTY, steps, s) && Reachable(s, more, t)
    requires task in s.tasks && s.tasks[task].status.TaskCancelled?
    ensures task in t.tasks && t.tasks[task].status.TaskCancelled?
    ensures s.receipts <= t.receipts && forall i | |s.receipts| <= i < |t.receipts| ::
      t.receipts[i].effect.proposal in t.proposals && t.proposals[t.receipts[i].effect.proposal].task != task
    ensures forall p | p in t.proposals && t.proposals[p].task == task ::
      p in s.proposals && t.proposals[p] == s.proposals[p] && !Live(t.proposals[p].status)
    ensures forall r | r in t.runs && t.runs[r].task == task ::
      r in s.runs && t.runs[r] == s.runs[r] && !LiveRun(t.runs[r].status)
    ensures forall g | g in t.gates && t.gates[g].task == task ::
      g in s.gates && t.gates[g] == s.gates[g] && !t.gates[g].status.GatePending?
  {
    hide Reachable, Inv, OneLive, DecisionsOk, EffectsOk, KeysOk, AllOpsOk, ReceiptsOk, TargetsOk, RunsOk, KeysForward,
      DecisionsForward, EffectsForward, HandoffsForward, AgentsForward, R.Widened, Moved;
    ReachedOn(steps, s, more, t);
    InvRows(s);
    CancelledRuns(s, task);
  }

  lemma CancelledRuns(s: Db, task: Id)
    requires RunsOk(s) && task in s.tasks && s.tasks[task].status.TaskCancelled?
    ensures forall r | r in s.runs && s.runs[r].task == task :: !LiveRun(s.runs[r].status)
    ensures forall g | g in s.gates && s.gates[g].task == task :: !s.gates[g].status.GatePending?
  {
    hide TokensOk, NoRunLost, HoldersOk, LeasesOk, OriginsOk;
  }

  // ---- Questions -----------------------------------------------------------------------------

  /** Pending questions and waiting runs correspond one to one. */
  lemma QuestionsMatchWaitingRuns(steps: seq<Step>, s: Db)
    requires Reachable(EMPTY, steps, s)
    ensures forall g | g in s.gates && s.gates[g].status.GatePending? ::
      s.gates[g].run in s.runs && s.runs[s.gates[g].run].status.Waiting? && s.runs[s.gates[g].run].gate == g
    ensures forall r | r in s.runs && s.runs[r].status.Waiting? ::
      s.runs[r].gate in s.gates && s.gates[s.runs[r].gate].status.GatePending? && s.gates[s.runs[r].gate].run == r
  {
    hide Reachable, Inv, TokensOk, NoRunLost, HoldersOk, LeasesOk, OriginsOk, RunTasksOk;
    Reached(steps, s);
    InvRuns(s);
  }

  /** No waiting run is stuck: its question has an answer that its respondent, while active, can give.
      That answer queues the run with exactly one new delivery, and given again at any later time it is
      refused or changes nothing. */
  lemma WaitingRunCanResume(steps: seq<Step>, s: Db, r: Id) returns (response: Response)
    requires Reachable(EMPTY, steps, s) && r in s.runs && s.runs[r].status.Waiting?
    ensures s.runs[r].gate in s.gates
    ensures var g := s.gates[s.runs[r].gate];
      ActivePrincipal(s.principals, g.respondent) ==>
        && var t := ResolveGate(s, s.runs[r].gate, g.respondent, g.revision, response);
        && t.Some?
        && t.value.runs == s.runs[r := Resumed(s.runs[r])] && t.value.runs[r].status.Queued?
        && t.value.deliveries == s.deliveries + multiset{Delivery(r, Idle)}
        && forall more, u, revision | Reachable(t.value, more, u) ::
             var again := ResolveGate(u, s.runs[r].gate, g.respondent, revision, response);
             again == if ActivePrincipal(u.principals, g.respondent) then Some(u) else None
  {
    hide Reachable, Inv, TokensOk, NoRunLost, HoldersOk, LeasesOk, OriginsOk, RunTasksOk, ValidSchema, ValidResponse,
      SameAnswer, ActivePrincipal;
    Reached(steps, s);
    InvRuns(s);
    var gate := s.runs[r].gate;
    var g := s.gates[gate];
    response := AnswerInRange(g.schema);
    if ActivePrincipal(s.principals, g.respondent) {
      var t := ResolveGate(s, gate, g.respondent, g.revision, response).value;
      AnswerInv(s, t, gate, g.respondent, g.revision, response);
      forall more, u, revision | Reachable(t, more, u)
        ensures ResolveGate(u, gate, g.respondent, revision, response)
          == if ActivePrincipal(u.principals, g.respondent) then Some(u) else None
      {
        SettledForGood(t, more, u, gate);
        ReplayOnly(u, gate, g.respondent, revision, response);
      }
    }
  }

  /** Every question that can be asked has an answer whose numbers are all in range. */
  lemma AnswerInRange(schema: Schema) returns (response: Response)
    requires ValidSchema(schema) && !schema.Blank?
    ensures ValidResponse(schema, response) && SameAnswer(response, response)
  {
    hide SameAnswer, AllInRange;
    if schema.Spec? {
      response := ValidSchemaFullyAnswerable(schema);
      DeclaredAnswerInRange(schema, response);
    } else {
      response := Response(map[]);
      assert AllInRange(ObjectAnswer(response.values)) by { NothingInRange(); }
    }
    OwnAnswerIff(response);
  }

  lemma NothingInRange()
    ensures AllInRange(ObjectAnswer(map[]))
  {
  }

  lemma SettledForGood(s: Db, more: seq<Step>, t: Db, gate: Id)
    requires Inv(s) && Reachable(s, more, t) && gate in s.gates && !s.gates[gate].status.GatePending?
    ensures gate in t.gates && t.gates[gate] == s.gates[gate]
  {
    hide Reachable, Inv;
    RunForward(s, more, t);
  }

  lemma ReplayOnly(s: Db, gate: Id, actor: Id, revision: int, response: Response)
    requires gate in s.gates && s.gates[gate].status.GateResolved? && s.gates[gate].respondent == actor
    ensures ResolveGate(s, gate, actor, revision, response)
      == if ActivePrincipal(s.principals, actor)
            && s.gates[gate].respondedBy == actor && SameAnswer(s.gates[gate].response, response)
         then Some(s) else None
  {
    hide ValidResponse, SameAnswer, ActivePrincipal;
  }

  /** An answer is final: at any later time the respondent who gave it, while active, may repeat it in a form
      that decodes to the same values, which changes nothing, and everything else is refused. */
  lemma AnswerIsFinal(
    steps: seq<Step>, s: Db, more: seq<Step>, t: Db, gate: Id, actor: Id, revision: int, response: Response)
    requires Reachable(EMPTY, steps, s) && Reachable(s, more, t)
    requires gate in s.gates && s.gates[gate].status.GateResolved?
    ensures var g := s.gates[gate];
      ResolveGate(t, gate, actor, revision, response)
        == if ActivePrincipal(t.principals, actor) && actor == g.respondent && SameAnswer(g.response, response)
           then Some(t) else None
  {
    hide Reachable, Inv, ActivePrincipal, ValidResponse, SameAnswer, GatesOk;
    Reached(steps, s);
    InvGates(s);
    ResolvedValid(s, gate);
    SettledForGood(s, more, t, gate);
  }

  /** The very answer that was recorded is taken again exactly when all its numbers are in the range of a
      float64; they are whenever the question declares its fields. */
  lemma OwnAnswerReplaysIff(
    steps: seq<Step>, s: Db, more: seq<Step>, t: Db, gate: Id, revision: int)
    requires Reachable(EMPTY, steps, s) && Reachable(s, more, t)
    requires gate in s.gates && s.gates[gate].status.GateResolved?
    requires ActivePrincipal(t.principals, s.gates[gate].respondent)
    ensures var g := s.gates[gate];
      && g.response.Response?
      && (ResolveGate(t, gate, g.respondent, revision, g.response) == Some(t) <==>
            AllInRange(ObjectAnswer(g.response.values)))
      && (g.schema.Spec? ==> AllInRange(ObjectAnswer(g.response.values)))
  {
    hide Reachable, Inv, ActivePrincipal, SameAnswer, AllInRange, GatesOk, ValidResponse, ResolveGate;
    Reached(steps, s);
    InvGates(s);
    var g := s.gates[gate];
    AnswerIsFinal(steps, s, more, t, gate, g.respondent, revision, g.response);
    ResolvedValid(s, gate);
    OwnAnswerIff(g.response);
    if g.schema.Spec? {
      DeclaredAnswerInRange(g.schema, g.response);
    }
  }

  lemma ResolvedValid(s: Db, gate: Id)
    requires GatesOk(s.runs, s.gates) && gate in s.gates && s.gates[gate].status.GateResolved?
    ensures ValidResponse(s.gates[gate].schema, s.gates[gate].response) && s.gates[gate].response.Response?
    ensures s.gates[gate].respondedBy == s.gates[gate].respondent
  {
    hide ValidSchema;
  }

  /** A sweep takes exactly the chosen runs from workers whose lease has ended, and gives each a delivery of
      its own. Every worker still within its lease keeps its run, every other eligible run has a lease that
      ended no earlier, and those are what is left for the next sweep. */
  lemma SweepSparesWorkers(steps: seq<Step>, s: Db, limit: int, chosen: set<Id>, t: Db)
    requires Reachable(EMPTY, steps, s) && FirstEligible(s, limit, chosen) && t == Reclaim(s, chosen)
    ensures forall r | r in s.runs ::
      && r in t.runs
      && (t.runs[r].status.Queued? && s.runs[r].status.Running? <==> r in chosen)
      && t.deliveries[Delivery(r, Idle)] == s.deliveries[Delivery(r, Idle)] + if r in chosen then 1 else 0
    ensures forall d | d in s.deliveries && TokenOf(d.phase) != NO_ID && s.now <= DeadlineOf(d.phase) ::
      Holding(s, d) ==> Holding(t, d)
    ensures forall d | d in t.deliveries && TokenOf(d.phase) != NO_ID && d.run in chosen :: !Holding(t, d)
    ensures EligibleRuns(t) == EligibleRuns(s) - chosen
    ensures forall a, b | a in chosen && b in EligibleRuns(t) :: NotLater(s.runs[a].lease, s.runs[b].lease)
  {
    hide Reachable, Inv, RunsOk, Continuations, Reclaim, EligibleRuns, Holding;
    Reached(steps, s);
    InvRuns(s);
    SweptRuns(s, chosen, t);
    SweptHolders(s, chosen, t);
  }

  lemma SweptRuns(s: Db, chosen: set<Id>, t: Db)
    requires chosen <= EligibleRuns(s) && t == Reclaim(s, chosen)
    ensures forall r | r in s.runs ::
      && r in t.runs
      && (t.runs[r].status.Queued? && s.runs[r].status.Running? <==> r in chosen)
      && t.deliveries[Delivery(r, Idle)] == s.deliveries[Delivery(r, Idle)] + if r in chosen then 1 else 0
    ensures EligibleRuns(t) == EligibleRuns(s) - chosen
  {
    hide Continuations;
    forall r | r in s.runs
      ensures t.deliveries[Delivery(r, Idle)] == s.deliveries[Delivery(r, Idle)] + if r in chosen then 1 else 0
    {
      OneContinuation(chosen, r);
    }
  }

  lemma SweptHolders(s: Db, chosen: set<Id>, t: Db)
    requires RunsOk(s) && chosen <= EligibleRuns(s) && t == Reclaim(s, chosen)
    ensures forall d | d in s.deliveries && TokenOf(d.phase) != NO_ID && s.now <= DeadlineOf(d.phase) ::
      Holding(s, d) ==> Holding(t, d)
    ensures forall d: Delivery | TokenOf(d.phase) != NO_ID && d.run in chosen :: !Holding(t, d)
  {
    hide TokensOk, NoRunLost, HoldersOk, GatesOk, RunTasksOk, OriginsOk, Continuations;
    forall d | d in s.deliveries && TokenOf(d.phase) != NO_ID && s.now <= DeadlineOf(d.phase) && Holding(s, d)
      ensures Holding(t, d)
    {
      assert LeaseOk(s.runs, d, s.now);
    }
  }

  lemma OneContinuation(chosen: set<Id>, r: Id)
    ensures Continuations(chosen)[Delivery(r, Idle)] == if r in chosen then 1 else 0
  {
    if r in chosen {
      assert Delivery(r, Idle) in (set id | id in chosen :: Delivery(id, Idle));
    } else {
      assert Delivery(r, Idle) !in (set id | id in chosen :: Delivery(id, Idle));
    }
  }

  // ---- Handoffs and admission ----------------------------------------------------------------

  /** Ownership of a task moves five times at most, however many offers were open at once, and the k-th
      accepted transfer carries hop depth k. */
  lemma OwnershipMovesAreBounded(steps: seq<Step>, s: Db, task: Id, accepted: set<Id>)
    requires Reachable(EMPTY, steps, s) && task in s.tasks && accepted == H.AcceptedOwner(s.handoffs, task)
    ensures |accepted| <= 5
    ensures forall a | a in accepted :: 1 <= s.handoffs[a].hopDepth <= |accepted|
    ensures forall a, b | a in accepted && b in accepted && a != b ::
      && s.handoffs[a].offeredVersion != s.handoffs[b].offeredVersion
      && (s.handoffs[a].offeredVersion < s.handoffs[b].offeredVersion <==>
            s.handoffs[a].hopDepth < s.handoffs[b].hopDepth)
  {
    hide Reachable, Inv, H.HandoffsOk, H.AcceptedOwner, DepsOk, WakeOk, R.ReleasesOk, R.AdmissionsOk;
    Reached(steps, s);
    InvWakes(s);
    HopsOrdered(s.tasks, s.handoffs, task, accepted);
  }

  /** Accepting an offer moves the responsibility from its creator to its recipient, and outdates every
      other open offer for the task: none of them can be accepted at any later time. */
  lemma AcceptanceOutdatesOffers(
    steps: seq<Step>, s: Db, id: Id, actor: Id, t: Db, other: Id, more: seq<Step>, u: Db, anyone: Id)
    requires Reachable(EMPTY, steps, s) && H.Accept(s, id, actor) == Some(t) && Reachable(t, more, u)
    requires id in s.handoffs && !s.handoffs[id].state.Accepted?
    requires other in s.handoffs && other != id && s.handoffs[other].task == s.handoffs[id].task
    ensures var h := s.handoffs[id];
      && h.task in s.tasks && h.createdBy == s.tasks[h.task].owner && h.recipient == actor
      && t.tasks[h.task].owner == (if h.role.OwnerRole? then actor else s.tasks[h.task].owner)
      && t.tasks[h.task].assignee == (if h.role.OwnerRole? then s.tasks[h.task].assignee else actor)
    ensures !s.handoffs[other].state.Accepted? ==>
      other in u.handoffs && !u.handoffs[other].state.Accepted? && H.Accept(u, other, anyone) == None
  {
    hide Reachable, Inv, H.AcceptedOwner, H.AcceptedUpTo, DepsOk, WakeOk, R.ReleasesOk, R.AdmissionsOk;
    Reached(steps, s);
    InvWakes(s);
    assert H.HandoffOk(s.tasks, s.handoffs, other);
    AcceptInv(s, t, id, actor);
    if !s.handoffs[other].state.Accepted? {
      OutdatedForGood(t, more, u, other);
      OutdatedRefused(u, other, anyone);
    }
  }

  lemma HopPlace(tasks: map<Id, Task>, handoffs: map<Id, Handoff>, accepted: set<Id>, a: Id)
    requires a in handoffs && H.HandoffOk(tasks, handoffs, a)
    requires accepted == H.AcceptedOwner(handoffs, handoffs[a].task) && a in accepted
    ensures 1 <= handoffs[a].hopDepth <= |accepted|
  {
    var upTo := H.AcceptedUpTo(handoffs, handoffs[a].task, handoffs[a].offeredVersion);
    assert a in upTo && upTo <= accepted;
    Cardinality(upTo, accepted);
    Cardinality({a}, upTo);
  }

  lemma HopOrder(tasks: map<Id, Task>, handoffs: map<Id, Handoff>, accepted: set<Id>, a: Id, b: Id)
    requires a in handoffs && b in handoffs && H.HandoffOk(tasks, handoffs, a) && H.HandoffOk(tasks, handoffs, b)
    requires handoffs[a].task == handoffs[b].task && accepted == H.AcceptedOwner(handoffs, handoffs[a].task)
    requires a in accepted && b in accepted && handoffs[a].offeredVersion < handoffs[b].offeredVersion
    ensures handoffs[a].hopDepth < handoffs[b].hopDepth
  {
    var x := H.AcceptedUpTo(handoffs, handoffs[a].task, handoffs[a].offeredVersion);
    var y := H.AcceptedUpTo(handoffs, handoffs[a].task, handoffs[b].offeredVersion);
    assert b in y && x <= y - {b};
    Cardinality(x, y - {b});
  }

  lemma HopsOrdered(tasks: map<Id, Task>, handoffs: map<Id, Handoff>, task: Id, accepted: set<Id>)
    requires H.HandoffsOk(tasks, handoffs) && task in tasks && accepted == H.AcceptedOwner(handoffs, task)
    ensures |accepted| <= 5
    ensures forall a | a in accepted :: 1 <= handoffs[a].hopDepth <= |accepted|
    ensures forall a, b | a in accepted && b in accepted && a != b ::
      && handoffs[a].offeredVersion != handoffs[b].offeredVersion
      && (handoffs[a].offeredVersion < handoffs[b].offeredVersion <==> handoffs[a].hopDepth < handoffs[b].hopDepth)
  {
    hide H.HandoffOk;
    forall a | a in accepted ensures 1 <= handoffs[a].hopDepth <= |accepted| {
      HopPlace(tasks, handoffs, accepted, a);
    }
    forall a, b | a in accepted && b in accepted && handoffs[a].offeredVersion < handoffs[b].offeredVersion
      ensures handoffs[a].hopDepth < handoffs[b].hopDepth
    {
      HopOrder(tasks, handoffs, accepted, a, b);
    }
  }

  lemma {:induction false} Cardinality(a: set<Id>, b: set<Id>)
    requires a <= b
    ensures |a| <= |b|
  {
    assert b == a + (b - a);
  }

  /** A run may do what its agent declares only within what an operator granted its release, now and in
      every later state; and the release went through verification, approval and installation, in order,
      before it was active. */
  lemma RunStaysWithinGrants(steps: seq<Step>, s: Db, more: seq<Step>, t: Db, r: Id)
    requires Reachable(EMPTY, steps, s) && Reachable(s, more, t) && r in s.runs
    ensures r in t.runs && t.runs[r].agent == s.runs[r].agent && t.runs[r].release == s.runs[r].release
    ensures var run := t.runs[r];
      && run.agent in s.agents && run.agent in t.agents && t.agents[run.agent] == s.agents[run.agent]
      && run.release in s.releases && run.release in t.releases
      && t.agents[run.agent].capabilities <= s.releases[run.release].granted <= t.releases[run.release].granted
      && R.VETTING <= t.releases[run.release].history
  {
    hide Reachable, Inv, R.ReleasesOk, DepsOk, WakeOk, H.HandoffsOk;
    ReachedOn(steps, s, more, t);
    InvWakes(s);
    InvWakes(t);
  }
}
