/** Carrying out approved proposals (applyProposal, executeProposal and enqueueEligibleChildren in store.go). */
module Execution {
  import opened Wrappers
  import opened Connectors
  import opened Tables
  import opened Proposals
  import opened Decisions

  // ---- Applying the operations ---------------------------------------------------------------

  /** The loop over the authorised effects: every record advanced, or the first error. */
  datatype Outcome =
    | Applied(records: map<Id, Record>, receipts: seq<Receipt>)
    | Faulted(error: ConnectorError)
    | Broken

  function ApplyOps(records: map<Id, Record>, pid: Id, ops: seq<Operation>): Outcome
    decreases |ops|
  {
    if ops == [] then Applied(records, [])
    else if ops[0].target !in records then Broken
    else
      match Prepare(ops[0].target, records[ops[0].target], ops[0])
      case Refused(e) => Faulted(e)
      case Ready(next) =>
        var rest := ApplyOps(records[ops[0].target := next], pid, ops[1..]);
        if rest.Applied?
        then rest.(receipts := [Receipt(EffectKey(pid, ops[0].id), ops[0], next.data)] + rest.receipts)
        else rest
  }

  ghost predicate Accepts(records: map<Id, Record>, op: Operation) {
    op.target in records && Prepare(op.target, records[op.target], op).Ready?
  }

  ghost predicate DistinctTargets(ops: seq<Operation>) {
    forall i, j | 0 <= i < j < |ops| :: ops[i].target != ops[j].target
  }

  ghost predicate SameVersions(ops: seq<Operation>) {
    forall i, j | 0 <= i < j < |ops| ::
      ops[i].target == ops[j].target ==> ops[i].expectedVersion == ops[j].expectedVersion
  }

  /** Each operation took its target one step, with one receipt, and no other record moved. */
  ghost predicate EachStepped(records: map<Id, Record>, pid: Id, ops: seq<Operation>, out: Outcome)
    requires out.Applied?
  {
    && out.records.Keys == records.Keys
    && (forall i | 0 <= i < |ops| ::
          && ops[i].target in records
          && Prepare(ops[i].target, records[ops[i].target], ops[i]) == Ready(out.records[ops[i].target]))
    && (forall r | r in records && (forall i | 0 <= i < |ops| :: ops[i].target != r) ::
          out.records[r] == records[r])
    && |out.receipts| == |ops|
    && (forall i | 0 <= i < |ops| ::
          out.receipts[i].effect == EffectKey(pid, ops[i].id) && out.receipts[i].op == ops[i])
  }

  ghost predicate Acceptable(records: map<Id, Record>, ops: seq<Operation>) {
    DistinctTargets(ops) && forall i | 0 <= i < |ops| :: Accepts(records, ops[i])
  }

  /** What the first operation changes for the others: only those on its own target, which become stale. */
  lemma FirstStep(records: map<Id, Record>, ops: seq<Operation>, i: nat)
    requires SameVersions(ops) && 1 <= i < |ops| && Accepts(records, ops[0])
    ensures var next := records[ops[0].target := Prepare(ops[0].target, records[ops[0].target], ops[0]).record];
      Accepts(next, ops[i]) <==> ops[i].target != ops[0].target && Accepts(records, ops[i])
  {
    if ops[i].target == ops[0].target {
      assert ops[i].expectedVersion == ops[0].expectedVersion;
    }
  }

  /** All or nothing, exactly: operations validated against one snapshot all apply if and only if their
      targets differ and each is accepted by its record as it stands. */
  lemma {:induction false} ApplyOpsIff(records: map<Id, Record>, pid: Id, ops: seq<Operation>)
    requires SameVersions(ops)
    ensures ApplyOps(records, pid, ops).Applied? <==> Acceptable(records, ops)
    decreases |ops|
  {
    if ops != [] {
      var first, rest := ops[0], ops[1..];
      assert forall i | 0 <= i < |rest| :: rest[i] == ops[i + 1];
      assert forall i | 1 <= i < |ops| :: ops[i] == rest[i - 1];
      if Accepts(records, first) {
        var next := records[first.target := Prepare(first.target, records[first.target], first).record];
        ApplyOpsIff(next, pid, rest);
        forall i | 1 <= i < |ops|
          ensures Accepts(next, rest[i - 1]) <==> ops[i].target != first.target && Accepts(records, ops[i])
        {
          FirstStep(records, ops, i);
        }
        RestAcceptable(records, next, ops);
      } else {
        assert !Acceptable(records, ops);
      }
    }
  }

  lemma RestAcceptable(records: map<Id, Record>, next: map<Id, Record>, ops: seq<Operation>)
    requires ops != [] && Accepts(records, ops[0])
    requires forall i | 1 <= i < |ops| ::
      Accepts(next, ops[1..][i - 1]) <==> ops[i].target != ops[0].target && Accepts(records, ops[i])
    ensures Acceptable(next, ops[1..]) <==> Acceptable(records, ops)
  {
    var rest := ops[1..];
    if Acceptable(next, rest) {
      forall i | 0 <= i < |ops| ensures Accepts(records, ops[i]) {
        if i > 0 {
          assert Accepts(next, rest[i - 1]);
        }
      }
      forall i, j | 0 <= i < j < |ops| ensures ops[i].target != ops[j].target {
        assert Accepts(next, rest[j - 1]);
        if i > 0 {
          assert rest[i - 1].target != rest[j - 1].target;
        }
      }
    }
    if Acceptable(records, ops) {
      forall i | 0 <= i < |rest| ensures Accepts(next, rest[i]) {
        assert Accepts(records, ops[i + 1]) && ops[0].target != ops[i + 1].target;
        assert rest[i + 1 - 1] == rest[i];
      }
    }
  }

  /** When they apply, each target takes the one step of its own operation, whatever the order. */
  lemma {:induction false} ApplyOpsSteps(records: map<Id, Record>, pid: Id, ops: seq<Operation>)
    requires DistinctTargets(ops) && ApplyOps(records, pid, ops).Applied?
    ensures EachStepped(records, pid, ops, ApplyOps(records, pid, ops))
    decreases |ops|
  {
    if ops != [] {
      var first, rest := ops[0], ops[1..];
      assert forall i | 0 <= i < |rest| :: rest[i] == ops[i + 1];
      assert forall i | 1 <= i < |ops| :: ops[i] == rest[i - 1];
      var next := records[first.target := Prepare(first.target, records[first.target], first).record];
      ApplyOpsSteps(next, pid, rest);
      var out, tail := ApplyOps(records, pid, ops), ApplyOps(next, pid, rest);
      assert out.records == tail.records && out.receipts[1..] == tail.receipts;
      assert tail.records[first.target] == next[first.target];
      forall i | 1 <= i < |ops|
        ensures ops[i].target in records
          && Prepare(ops[i].target, records[ops[i].target], ops[i]) == Ready(out.records[ops[i].target])
        ensures out.receipts[i].effect == EffectKey(pid, ops[i].id) && out.receipts[i].op == ops[i]
      {
        assert out.receipts[i] == tail.receipts[i - 1];
        assert ops[0].target != ops[i].target;
      }
    }
  }

  // ---- One handling of an execution job ------------------------------------------------------

  /** An order in which the database may return the authorised effects of a proposal. */
  ghost predicate IsOrder(effects: map<EffectKey, Effect>, pid: Id, order: seq<Id>) {
    && (forall i, j | 0 <= i < j < |order| :: order[i] != order[j])
    && (forall id :: id in order <==> EffectKey(pid, id) in effects && effects[EffectKey(pid, id)].state.Authorized?)
  }

  function OpsInOrder(effects: map<EffectKey, Effect>, pid: Id, order: seq<Id>): seq<Operation>
    requires forall i | 0 <= i < |order| :: EffectKey(pid, order[i]) in effects
  {
    seq(|order|, i requires 0 <= i < |order| => effects[EffectKey(pid, order[i])].op)
  }

  predicate Blocking(tasks: map<Id, Task>, deps: set<(Id, Id)>, task: Id) {
    exists d | d in deps :: d.0 == task && d.1 in tasks && !tasks[d.1].status.TaskDone?
  }

  predicate Permitted(s: Db, task: Id, pid: Id) {
    && task in s.tasks
    && Open(s.tasks[task].status)
    && ActivePrincipal(s.principals, s.tasks[task].owner)
    && (exists d | d in s.decisions ::
          d.proposal == pid && d.kind.Approve? && ActivePrincipal(s.principals, d.actor)
          && MayApprove(s.principals[d.actor].role))
    && (exists d | d in s.decisions ::
          d.proposal == pid && d.kind.Endorse? && ActivePrincipal(s.principals, d.actor))
    && !Blocking(s.tasks, s.deps, task)
  }

  function VerifyEffects(effects: map<EffectKey, Effect>, pid: Id, state: EffectState): map<EffectKey, Effect> {
    map e | e in effects ::
      if e.proposal == pid && effects[e].state.Authorized? then effects[e].(state := state) else effects[e]
  }

  function VerifyKeys(keys: map<Key, KeyRow>, pid: Id): map<Key, KeyRow> {
    map k | k in keys ::
      if keys[k].proposal == pid && keys[k].status.Dispatching? then keys[k].(status := KeyVerified) else keys[k]
  }

  function Finish(tasks: map<Id, Task>, task: Id): map<Id, Task> {
    if task in tasks && !tasks[task].status.TaskCancelled?
    then tasks[task := tasks[task].(status := TaskDone, version := tasks[task].version + 1)]
    else tasks
  }

  /** enqueueEligibleChildren: the approved proposals that only waited for this parent. */
  function Woken(tasks: map<Id, Task>, deps: set<(Id, Id)>, proposals: map<Id, Proposal>, parent: Id): set<Id> {
    set p | p in proposals
      && (proposals[p].task, parent) in deps
      && proposals[p].status.Approved?
      && proposals[p].task in tasks
      && Open(tasks[proposals[p].task].status)
      && !Blocking(tasks, deps, proposals[p].task)
  }

  function Deliveries(pids: set<Id>): multiset<Job> {
    multiset(set p | p in pids :: Job(p, Delivered))
  }

  /** What one transaction of applyProposal returns: nil with new tables, a connectors error, or
      another error. Both errors roll the transaction back. */
  datatype Handling = Handled(db: Db) | Fault(error: ConnectorError) | OtherFault

  /** The writes that end a successful application. */
  function Commit(s: Db, pid: Id, records: map<Id, Record>, receipts: seq<Receipt>): Db
    requires pid in s.proposals
  {
    var tasks := Finish(s.tasks, s.proposals[pid].task);
    var proposals := SetStatus(s.proposals, pid, ProposalDone);
    s.(records := records, receipts := s.receipts + receipts,
       effects := VerifyEffects(s.effects, pid, Verified), keys := VerifyKeys(s.keys, pid),
       proposals := proposals, tasks := tasks,
       jobs := s.jobs + Deliveries(Woken(tasks, s.deps, proposals, s.proposals[pid].task)))
  }

  function Block(tasks: map<Id, Task>, task: Id, bump: int): map<Id, Task> {
    if task in tasks && Open(tasks[task].status)
    then tasks[task := tasks[task].(status := Blocked, version := tasks[task].version + bump)]
    else tasks
  }

  /** What is done with an approved proposal that is not permitted now: its task waits for the parents,
      or the proposal is left for a person to look at. */
  function SetBack(s: Db, pid: Id): Db
    requires pid in s.proposals
  {
    var task := s.proposals[pid].task;
    var blocked := Blocking(s.tasks, s.deps, task);
    s.(tasks := if blocked then Block(s.tasks, task, 0) else s.tasks,
       proposals := if blocked then s.proposals else SetStatus(s.proposals, pid, NeedsAttention))
  }

  function Apply(s: Db, pid: Id, order: seq<Id>): Handling
    requires forall i | 0 <= i < |order| :: EffectKey(pid, order[i]) in s.effects
  {
    if pid !in s.proposals then OtherFault
    else
      var p := s.proposals[pid];
      if !p.status.Approved? && !p.status.Executing? then Handled(s)
      else if !Permitted(s, p.task, pid) then
        Handled(SetBack(s, pid))
      else
        match ApplyOps(s.records, pid, OpsInOrder(s.effects, pid, order))
        case Faulted(e) => Fault(e)
        case Broken => OtherFault
        case Applied(records, receipts) => Handled(Commit(s, pid, records, receipts))
  }

  /** The second transaction of executeProposal, after a connectors error. */
  function Mark(s: Db, pid: Id): Db {
    var hit := pid in s.proposals && (s.proposals[pid].status.Approved? || s.proposals[pid].status.Executing?);
    s.(proposals := if hit then SetStatus(s.proposals, pid, NeedsAttention) else s.proposals,
       tasks := if hit then Block(s.tasks, s.proposals[pid].task, 1) else s.tasks,
       effects := if hit then VerifyEffects(s.effects, pid, EffectNeedsAttention) else s.effects)
  }

  /** A worker applies a delivered job. Nil acknowledges the delivery, unless the worker dies first; a
      connectors error is still to be recorded; any other error leaves the delivery to be retried. */
  function RunJob(s: Db, pid: Id, order: seq<Id>, acknowledged: bool): Db
    requires forall i | 0 <= i < |order| :: EffectKey(pid, order[i]) in s.effects
  {
    var job := multiset{Job(pid, Delivered)};
    var handling := Apply(s, pid, order);
    var t := if handling.Handled? then handling.db else s;
    t.(jobs := if handling.Fault? then s.jobs - job + multiset{Job(pid, ToMark)}
               else if handling.Handled? && acknowledged then t.jobs - job else t.jobs)
  }

  function MarkJob(s: Db, pid: Id, acknowledged: bool): Db {
    var t := Mark(s, pid);
    t.(jobs := t.jobs - multiset{Job(pid, ToMark)}
        + (if acknowledged then multiset{} else multiset{Job(pid, Delivered)}))
  }

  /** The worker dies between the two transactions. */
  function CrashJob(s: Db, pid: Id): Db {
    s.(jobs := s.jobs - multiset{Job(pid, ToMark)} + multiset{Job(pid, Delivered)})
  }

  /** The queue hands the job out again while its worker lives on. */
  function RedeliverJob(s: Db, pid: Id): Db {
    s.(jobs := s.jobs + multiset{Job(pid, Delivered)})
  }

  // ---- The ledger ----------------------------------------------------------------------------

  /** How many receipts advanced this record. */
  function Steps(receipts: seq<Receipt>, record: Id): nat {
    if receipts == [] then 0
    else (if receipts[0].op.target == record then 1 else 0) + Steps(receipts[1..], record)
  }

  /** The sum of the deltas the receipts applied to this record. */
  function Total(receipts: seq<Receipt>, record: Id): int {
    if receipts == [] then 0
    else (if receipts[0].op.target == record then Delta(receipts[0].op) else 0) + Total(receipts[1..], record)
  }

  lemma {:induction false} LedgerAppend(a: seq<Receipt>, b: seq<Receipt>, record: Id)
    ensures Steps(a + b, record) == Steps(a, record) + Steps(b, record)
    ensures Total(a + b, record) == Total(a, record) + Total(b, record)
  {
    if a == [] {
      assert a + b == b;
    } else {
      assert (a + b)[1..] == a[1..] + b;
      LedgerAppend(a[1..], b, record);
    }
  }

  /** A record moved by exactly these receipts. */
  ghost predicate Moved(before: Record, after: Record, receipts: seq<Receipt>, record: Id) {
    && after.integration == before.integration
    && after.version == before.version + Steps(receipts, record)
    && (Steps(receipts, record) == 0 ==> after == before)
    && (HasQuantity(before.data) ==>
          && HasQuantity(after.data)
          && Quantity(after.data) == Quantity(before.data) + Total(receipts, record))
  }

  lemma {:induction false} ApplyOpsMoves(records: map<Id, Record>, pid: Id, ops: seq<Operation>, record: Id)
    requires ApplyOps(records, pid, ops).Applied? && record in records
    ensures var out := ApplyOps(records, pid, ops);
      record in out.records && Moved(records[record], out.records[record], out.receipts, record)
    decreases |ops|
  {
    if ops != [] {
      var op := ops[0];
      var next := Prepare(op.target, records[op.target], op).record;
      var rest := ApplyOps(records[op.target := next], pid, ops[1..]);
      ApplyOpsMoves(records[op.target := next], pid, ops[1..], record);
      if op.target == record && HasQuantity(records[record].data) {
        PrepareKeepsQuantity(record, records[record], op);
      }
      var receipts := ApplyOps(records, pid, ops).receipts;
      assert receipts[1..] == rest.receipts;
    }
  }

  // ---- What the tables keep ------------------------------------------------------------------

  /** Receipts and verified effects correspond one to one. */
  ghost predicate ReceiptsOk(effects: map<EffectKey, Effect>, receipts: seq<Receipt>) {
    && (forall i | 0 <= i < |receipts| ::
          && receipts[i].effect in effects
          && effects[receipts[i].effect] == Effect(receipts[i].op, Verified))
    && (forall i, j | 0 <= i < j < |receipts| :: receipts[i].effect != receipts[j].effect)
    && (forall e | e in effects && effects[e].state.Verified? :: HasReceipt(receipts, e))
  }

  ghost predicate HasReceipt(receipts: seq<Receipt>, e: EffectKey) {
    exists i | 0 <= i < |receipts| :: receipts[i].effect == e
  }

  /** The verified effects of one proposal changed different records. */
  ghost predicate TargetsOk(effects: map<EffectKey, Effect>) {
    forall e, f | e in effects && f in effects && e.proposal == f.proposal && e != f
      && effects[e].state.Verified? && effects[f].state.Verified? ::
      effects[e].op.target != effects[f].op.target
  }

  ghost predicate HasJob(jobs: multiset<Job>, pid: Id) {
    Job(pid, Delivered) in jobs || Job(pid, ToMark) in jobs
  }

  /** An approved proposal of an existing task whose parents are all done. */
  ghost predicate Due(tasks: map<Id, Task>, deps: set<(Id, Id)>, proposals: map<Id, Proposal>, p: Id) {
    && p in proposals && proposals[p].status.Approved?
    && proposals[p].task in tasks && !Blocking(tasks, deps, proposals[p].task)
  }

  /** No lost wake-up: a proposal that is due has an unacknowledged job. */
  ghost predicate WakeOk(
    tasks: map<Id, Task>, deps: set<(Id, Id)>, proposals: map<Id, Proposal>, jobs: multiset<Job>)
  {
    forall p :: Due(tasks, deps, proposals, p) ==> HasJob(jobs, p)
  }

  lemma VerifyKeysKeeps(
    proposals: map<Id, Proposal>, decisions: map<DecisionKey, Decision>, keys: map<Key, KeyRow>, pid: Id)
    requires pid in proposals && KeysOk(proposals, decisions, keys)
    ensures KeysOk(SetStatus(proposals, pid, ProposalDone), decisions, VerifyKeys(keys, pid))
  {
    var after := SetStatus(proposals, pid, ProposalDone);
    forall p | p in after && Pending(after[p].status) ensures HoldsAll(VerifyKeys(keys, pid), p, after[p].ops, false) {
      forall i | 0 <= i < |after[p].ops| ensures Holds(VerifyKeys(keys, pid), p, after[p].ops[i], false) {
        assert Holds(keys, p, proposals[p].ops[i], false);
      }
    }
    forall d | d in decisions && d.kind.Approve? && d.proposal in after
      ensures HoldsAll(VerifyKeys(keys, pid), d.proposal, after[d.proposal].ops, true)
    {
      var ops := proposals[d.proposal].ops;
      forall i | 0 <= i < |ops| ensures Holds(VerifyKeys(keys, pid), d.proposal, ops[i], true) {
        assert Holds(keys, d.proposal, ops[i], true);
      }
    }
  }

  /** An approved proposal is finished or set aside. */
  lemma SettleKeepsDecisions(
    proposals: map<Id, Proposal>, decisions: map<DecisionKey, Decision>, pid: Id, status: ProposalStatus)
    requires pid in proposals && proposals[pid].status.Approved? && (status.ProposalDone? || status.NeedsAttention?)
    requires DecisionsOk(proposals, decisions)
    ensures DecisionsOk(SetStatus(proposals, pid, status), decisions)
  {
    hide EverApproved, Endorsed;
  }

  /** Its effects are then verified, or not, with it. */
  lemma SettleKeepsEffects(
    proposals: map<Id, Proposal>, decisions: map<DecisionKey, Decision>, effects: map<EffectKey, Effect>,
    pid: Id, status: ProposalStatus, more: map<EffectKey, Effect>)
    requires pid in proposals && proposals[pid].status.Approved? && (status.ProposalDone? || status.NeedsAttention?)
    requires EffectsOk(proposals, decisions, effects)
    requires more.Keys == effects.Keys
    requires forall e | e in effects && e.proposal != pid :: more[e] == effects[e]
    requires forall e | e in effects && e.proposal == pid ::
      more[e].op == effects[e].op && (more[e].state.Verified? <==> status.ProposalDone?)
    ensures EffectsOk(SetStatus(proposals, pid, status), decisions, more)
  {
    hide EverApproved, FirstOp, HasAllEffects;
    var after := SetStatus(proposals, pid, status);
    forall p | p in after && (after[p].status.Approved? || after[p].status.ProposalDone?)
      ensures HasAllEffects(more, p, after[p].ops)
    {
      SameKeysHasAll(effects, more, p, proposals[p].ops);
    }
  }

  lemma SameKeysHasAll(effects: map<EffectKey, Effect>, more: map<EffectKey, Effect>, pid: Id, ops: seq<Operation>)
    requires HasAllEffects(effects, pid, ops) && effects.Keys <= more.Keys
    ensures HasAllEffects(more, pid, ops)
  {
  }

  lemma FinishKeepsEffects(
    proposals: map<Id, Proposal>, decisions: map<DecisionKey, Decision>, effects: map<EffectKey, Effect>, pid: Id)
    requires pid in proposals && proposals[pid].status.Approved?
    requires DecisionsOk(proposals, decisions) && EffectsOk(proposals, decisions, effects)
    ensures DecisionsOk(SetStatus(proposals, pid, ProposalDone), decisions)
    ensures EffectsOk(SetStatus(proposals, pid, ProposalDone), decisions, VerifyEffects(effects, pid, Verified))
  {
    SettleKeepsDecisions(proposals, decisions, pid, ProposalDone);
    SettleKeepsEffects(proposals, decisions, effects, pid, ProposalDone, VerifyEffects(effects, pid, Verified));
  }

  lemma AsideKeepsEffects(
    proposals: map<Id, Proposal>, decisions: map<DecisionKey, Decision>, effects: map<EffectKey, Effect>, pid: Id)
    requires pid in proposals && proposals[pid].status.Approved?
    requires DecisionsOk(proposals, decisions) && EffectsOk(proposals, decisions, effects)
    ensures var after := SetStatus(proposals, pid, NeedsAttention);
      && DecisionsOk(after, decisions)
      && EffectsOk(after, decisions, effects)
      && EffectsOk(after, decisions, VerifyEffects(effects, pid, EffectNeedsAttention))
  {
    SettleKeepsDecisions(proposals, decisions, pid, NeedsAttention);
    SettleKeepsEffects(proposals, decisions, effects, pid, NeedsAttention, effects);
    SettleKeepsEffects(proposals, decisions, effects, pid, NeedsAttention,
                       VerifyEffects(effects, pid, EffectNeedsAttention));
  }

  /** Leaving `approved` without being done. */
  lemma SetAsideKeepsKeys(
    proposals: map<Id, Proposal>, decisions: map<DecisionKey, Decision>, keys: map<Key, KeyRow>, pid: Id)
    requires pid in proposals && KeysOk(proposals, decisions, keys)
    ensures KeysOk(SetStatus(proposals, pid, NeedsAttention), decisions, keys)
  {
  }

  /** Finishing the task of its one live proposal. */
  lemma FinishKeepsRows(
    tasks: map<Id, Task>, proposals: map<Id, Proposal>, pid: Id)
    requires RowsOk(tasks, proposals) && OneLive(proposals)
    requires pid in proposals && proposals[pid].status.Approved?
    ensures RowsOk(Finish(tasks, proposals[pid].task), SetStatus(proposals, pid, ProposalDone))
    ensures OneLive(SetStatus(proposals, pid, ProposalDone))
  {
  }

  lemma MovedKeepsOps(
    before: map<Id, Record>, after: map<Id, Record>, proposals: map<Id, Proposal>, pid: Id, status: ProposalStatus)
    requires AllOpsOk(before, proposals) && pid in proposals
    requires forall r | r in before :: r in after && after[r].version >= before[r].version
    ensures AllOpsOk(after, SetStatus(proposals, pid, status))
  {
    forall p | p in proposals ensures OpsOk(after, proposals[p].ops) {
      assert OpsOk(before, proposals[p].ops);
    }
  }

  /** The receipts of one application complete the correspondence. */
  lemma AppendReceiptsKeeps(
    effects: map<EffectKey, Effect>, receipts: seq<Receipt>, pid: Id, order: seq<Id>, more: seq<Receipt>)
    requires ReceiptsOk(effects, receipts) && IsOrder(effects, pid, order)
    requires |more| == |order|
    requires forall i | 0 <= i < |order| ::
      && EffectKey(pid, order[i]) in effects
      && more[i].effect == EffectKey(pid, order[i])
      && more[i].op == effects[EffectKey(pid, order[i])].op
    ensures ReceiptsOk(VerifyEffects(effects, pid, Verified), receipts + more)
  {
    var after, all := VerifyEffects(effects, pid, Verified), receipts + more;
    assert forall i | 0 <= i < |order| :: order[i] in order;
    forall e | e in after && after[e].state.Verified? ensures HasReceipt(all, e) {
      if effects[e].state.Verified? {
        assert HasReceipt(receipts, e);
        var i :| 0 <= i < |receipts| && receipts[i].effect == e;
        assert all[i].effect == e;
      } else {
        assert e == EffectKey(pid, e.op) && e.op in order;
        var i :| 0 <= i < |order| && order[i] == e.op;
        assert all[|receipts| + i].effect == e;
      }
    }
  }

  /** Operations taken in any order from effects of one proposal agree on versions. */
  lemma OrderedOps(s: Db, pid: Id, order: seq<Id>)
    requires EffectsOk(s.proposals, s.decisions, s.effects) && AllOpsOk(s.records, s.proposals)
    requires pid in s.proposals
    requires forall i | 0 <= i < |order| :: EffectKey(pid, order[i]) in s.effects
    ensures SameVersions(OpsInOrder(s.effects, pid, order))
  {
    var ops := OpsInOrder(s.effects, pid, order);
    var listed := s.proposals[pid].ops;
    assert OpsOk(s.records, listed);
    forall i | 0 <= i < |order| ensures exists k | 0 <= k < |listed| :: listed[k] == ops[i] {
      FirstOpIs(listed, order[i]);
    }
  }

  lemma VerifiedTargets(s: Db, pid: Id, order: seq<Id>)
    requires EffectsOk(s.proposals, s.decisions, s.effects) && TargetsOk(s.effects)
    requires IsOrder(s.effects, pid, order) && pid in s.proposals && s.proposals[pid].status.Approved?
    requires forall i | 0 <= i < |order| :: EffectKey(pid, order[i]) in s.effects
    requires DistinctTargets(OpsInOrder(s.effects, pid, order))
    ensures TargetsOk(VerifyEffects(s.effects, pid, Verified))
  {
    var after := VerifyEffects(s.effects, pid, Verified);
    forall e, f | e in after && f in after && e.proposal == f.proposal && e != f
      && after[e].state.Verified? && after[f].state.Verified?
      ensures after[e].op.target != after[f].op.target
    {
      if e.proposal == pid {
        assert e == EffectKey(pid, e.op) && f == EffectKey(pid, f.op);
        assert e.op in order && f.op in order;
        var i :| 0 <= i < |order| && order[i] == e.op;
        var j :| 0 <= j < |order| && order[j] == f.op;
        var ops := OpsInOrder(s.effects, pid, order);
        assert ops[i].target != ops[j].target;
      }
    }
  }

  ghost predicate ExecOk(s: Db) {
    && Core(s)
    && ReceiptsOk(s.effects, s.receipts)
    && TargetsOk(s.effects)
  }

  /** A successful application: the records move by the new receipts alone, each target by one. */
  lemma CommitMoves(s: Db, pid: Id, order: seq<Id>)
    requires EffectsOk(s.proposals, s.decisions, s.effects) && AllOpsOk(s.records, s.proposals)
    requires pid in s.proposals
    requires forall i | 0 <= i < |order| :: EffectKey(pid, order[i]) in s.effects
    requires ApplyOps(s.records, pid, OpsInOrder(s.effects, pid, order)).Applied?
    ensures var ops := OpsInOrder(s.effects, pid, order);
      var out := ApplyOps(s.records, pid, ops);
      && DistinctTargets(ops)
      && EachStepped(s.records, pid, ops, out)
      && forall r | r in s.records :: Moved(s.records[r], out.records[r], out.receipts, r)
  {
    var ops := OpsInOrder(s.effects, pid, order);
    OrderedOps(s, pid, order);
    ApplyOpsIff(s.records, pid, ops);
    ApplyOpsSteps(s.records, pid, ops);
    var out := ApplyOps(s.records, pid, ops);
    forall r | r in s.records ensures Moved(s.records[r], out.records[r], out.receipts, r) {
      ApplyOpsMoves(s.records, pid, ops, r);
    }
  }

  lemma CommitKeepsCore(s: Db, pid: Id, records: map<Id, Record>, receipts: seq<Receipt>)
    requires Core(s) && pid in s.proposals && s.proposals[pid].status.Approved?
    requires forall r | r in s.records :: r in records && records[r].version >= s.records[r].version
    ensures Core(Commit(s, pid, records, receipts))
  {
    hide RowsOk, OneLive, AllOpsOk, KeysOk, DecisionsOk, EffectsOk, Finish, VerifyKeys, VerifyEffects, SetStatus;
    FinishKeepsRows(s.tasks, s.proposals, pid);
    MovedKeepsOps(s.records, records, s.proposals, pid, ProposalDone);
    VerifyKeysKeeps(s.proposals, s.decisions, s.keys, pid);
    FinishKeepsEffects(s.proposals, s.decisions, s.effects, pid);
  }

  lemma CommitKeepsReceipts(s: Db, pid: Id, order: seq<Id>, more: seq<Receipt>)
    requires EffectsOk(s.proposals, s.decisions, s.effects)
    requires ReceiptsOk(s.effects, s.receipts) && TargetsOk(s.effects) && IsOrder(s.effects, pid, order)
    requires pid in s.proposals && s.proposals[pid].status.Approved?
    requires forall i | 0 <= i < |order| :: EffectKey(pid, order[i]) in s.effects
    requires var ops := OpsInOrder(s.effects, pid, order);
      && DistinctTargets(ops)
      && |more| == |ops|
      && forall i | 0 <= i < |ops| :: more[i].effect == EffectKey(pid, ops[i].id) && more[i].op == ops[i]
    ensures ReceiptsOk(VerifyEffects(s.effects, pid, Verified), s.receipts + more)
    ensures TargetsOk(VerifyEffects(s.effects, pid, Verified))
  {
    forall i | 0 <= i < |order| ensures s.effects[EffectKey(pid, order[i])].op.id == order[i] {
      FirstOpIs(s.proposals[pid].ops, order[i]);
    }
    AppendReceiptsKeeps(s.effects, s.receipts, pid, order, more);
    VerifiedTargets(s, pid, order);
  }

  lemma CommitKeeps(s: Db, pid: Id, order: seq<Id>)
    requires ExecOk(s) && IsOrder(s.effects, pid, order)
    requires pid in s.proposals && s.proposals[pid].status.Approved?
    requires forall i | 0 <= i < |order| :: EffectKey(pid, order[i]) in s.effects
    requires ApplyOps(s.records, pid, OpsInOrder(s.effects, pid, order)).Applied?
    ensures var out := ApplyOps(s.records, pid, OpsInOrder(s.effects, pid, order));
      ExecOk(Commit(s, pid, out.records, out.receipts))
  {
    hide RowsOk, OneLive, KeysOk, AllOpsOk, DecisionsOk, EffectsOk, ReceiptsOk, TargetsOk, IsOrder, ApplyOps, SetStatus,
      Finish, VerifyKeys, VerifyEffects, Woken, Deliveries, DistinctTargets;
    var out := ApplyOps(s.records, pid, OpsInOrder(s.effects, pid, order));
    CommitMoves(s, pid, order);
    CommitKeepsReceipts(s, pid, order, out.receipts);
    CommitKeepsCore(s, pid, out.records, out.receipts);
  }

  lemma AsideKeepsReceipts(effects: map<EffectKey, Effect>, receipts: seq<Receipt>, pid: Id)
    requires ReceiptsOk(effects, receipts) && TargetsOk(effects)
    ensures ReceiptsOk(VerifyEffects(effects, pid, EffectNeedsAttention), receipts)
    ensures TargetsOk(VerifyEffects(effects, pid, EffectNeedsAttention))
  {
  }

  lemma BlockKeepsRows(tasks: map<Id, Task>, proposals: map<Id, Proposal>, task: Id, bump: int)
    requires RowsOk(tasks, proposals)
    ensures RowsOk(Block(tasks, task, bump), proposals)
  {
  }

  lemma AsideKeepsProposals(s: Db, pid: Id)
    requires ExecOk(s) && pid in s.proposals && s.proposals[pid].status.Approved?
    ensures var after := SetStatus(s.proposals, pid, NeedsAttention);
      && RowsOk(s.tasks, after) && OneLive(after) && AllOpsOk(s.records, after)
      && KeysOk(after, s.decisions, s.keys)
  {
    SetStatusKeeps(s.tasks, s.records, s.proposals, pid, NeedsAttention);
    SetAsideKeepsKeys(s.proposals, s.decisions, s.keys, pid);
  }

  lemma SetBackKeeps(s: Db, t: Db, pid: Id)
    requires ExecOk(s) && pid in s.proposals && s.proposals[pid].status.Approved? && t == SetBack(s, pid)
    ensures ExecOk(t)
  {
    hide Block, Blocking, SetStatus, RowsOk, OneLive, AllOpsOk, KeysOk, DecisionsOk, EffectsOk, VerifyEffects;
    BlockKeepsRows(s.tasks, s.proposals, s.proposals[pid].task, 0);
    AsideKeepsProposals(s, pid);
    AsideKeepsEffects(s.proposals, s.decisions, s.effects, pid);
  }

  /** Every transaction of applyProposal and executeProposal keeps the tables in order. */
  lemma ApplyKeeps(s: Db, t: Db, pid: Id, order: seq<Id>)
    requires ExecOk(s) && IsOrder(s.effects, pid, order)
    requires forall i | 0 <= i < |order| :: EffectKey(pid, order[i]) in s.effects
    requires Apply(s, pid, order) == Handled(t)
    ensures ExecOk(t)
  {
    hide SetBack, Commit, ApplyOps, Permitted;
    if s.proposals[pid].status.Approved? {
      if Permitted(s, s.proposals[pid].task, pid) {
        CommitKeeps(s, pid, order);
      } else {
        SetBackKeeps(s, t, pid);
      }
    }
  }

  lemma MarkKeeps(s: Db, t: Db, pid: Id)
    requires ExecOk(s) && t == Mark(s, pid)
    ensures ExecOk(t)
  {
    hide RowsOk, OneLive, AllOpsOk, KeysOk, DecisionsOk, EffectsOk, ReceiptsOk, TargetsOk, SetStatus, Block,
      VerifyEffects;
    if pid in s.proposals && (s.proposals[pid].status.Approved? || s.proposals[pid].status.Executing?) {
      NeverExecuting(s.tasks, s.proposals, pid);
      AsideKeepsProposals(s, pid);
      BlockKeepsRows(s.tasks, t.proposals, s.proposals[pid].task, 1);
      AsideKeepsEffects(s.proposals, s.decisions, s.effects, pid);
      AsideKeepsReceipts(s.effects, s.receipts, pid);
    } else {
      assert t == s;
    }
  }

  /** The status `executing` is written and overwritten inside one transaction. */
  lemma NeverExecuting(tasks: map<Id, Task>, proposals: map<Id, Proposal>, pid: Id)
    requires RowsOk(tasks, proposals) && pid in proposals
    ensures !proposals[pid].status.Executing?
  {
  }

  /** Finishing a parent wakes every child it was the last to block. */
  lemma CommitWakesOne(s: Db, t: Db, pid: Id, records: map<Id, Record>, receipts: seq<Receipt>, p: Id)
    requires RowsOk(s.tasks, s.proposals) && OneLive(s.proposals)
    requires pid in s.proposals && s.proposals[pid].status.Approved?
    requires t == Commit(s, pid, records, receipts) && Due(t.tasks, t.deps, t.proposals, p)
    ensures p != pid
    ensures Job(p, Delivered) in t.jobs || Due(s.tasks, s.deps, s.proposals, p)
  {
    var task, parent := s.proposals[p].task, s.proposals[pid].task;
    if (task, parent) in s.deps {
      var woken := Woken(t.tasks, s.deps, t.proposals, parent);
      assert task != parent && Open(s.tasks[task].status);
      assert p in woken;
      assert Job(p, Delivered) in Deliveries(woken);
    } else {
      assert !Blocking(s.tasks, s.deps, task);
    }
  }

  lemma CommitWakes(s: Db, t: Db, pid: Id, records: map<Id, Record>, receipts: seq<Receipt>)
    requires RowsOk(s.tasks, s.proposals) && OneLive(s.proposals)
    requires WakeOk(s.tasks, s.deps, s.proposals, s.jobs)
    requires pid in s.proposals && s.proposals[pid].status.Approved?
    requires t == Commit(s, pid, records, receipts)
    ensures WakeOk(t.tasks, t.deps, t.proposals, t.jobs) && !Due(t.tasks, t.deps, t.proposals, pid)
  {
    assert s.jobs <= t.jobs;
    hide Due, RowsOk, OneLive, Commit;
    forall p | Due(t.tasks, t.deps, t.proposals, p) ensures p != pid && HasJob(t.jobs, p) {
      CommitWakesOne(s, t, pid, records, receipts, p);
    }
  }

  ghost predicate NoneFinished(tasks: map<Id, Task>, after: map<Id, Task>) {
    tasks.Keys <= after.Keys
    && forall k | k in tasks && after[k].status.TaskDone? :: tasks[k].status.TaskDone?
  }

  ghost predicate NoneApproved(tasks: map<Id, Task>, proposals: map<Id, Proposal>, after: map<Id, Proposal>) {
    forall p | p in after && after[p].status.Approved? ::
      p in proposals && proposals[p].status.Approved? && proposals[p].task == after[p].task && after[p].task in tasks
  }

  /** No task was finished, no dependency removed, and no proposal approved. */
  ghost predicate NothingNew(
    tasks: map<Id, Task>, deps: set<(Id, Id)>, proposals: map<Id, Proposal>,
    after: map<Id, Task>, more: set<(Id, Id)>, later: map<Id, Proposal>)
  {
    NoneFinished(tasks, after) && deps <= more && NoneApproved(tasks, proposals, later)
  }

  /** Then whatever is due was due before. */
  lemma DueBefore(
    tasks: map<Id, Task>, deps: set<(Id, Id)>, proposals: map<Id, Proposal>,
    after: map<Id, Task>, more: set<(Id, Id)>, later: map<Id, Proposal>, p: Id)
    requires NothingNew(tasks, deps, proposals, after, more, later) && Due(after, more, later, p)
    ensures Due(tasks, deps, proposals, p)
  {
    assert forall d | d in deps && d.1 in tasks && !tasks[d.1].status.TaskDone? ::
      d in more && !after[d.1].status.TaskDone?;
  }

  /** Blocking a task, putting a proposal aside, or both. */
  lemma SetBackNothingNew(
    tasks: map<Id, Task>, deps: set<(Id, Id)>, proposals: map<Id, Proposal>, task: Id, bump: int, pid: Id)
    requires RowsOk(tasks, proposals) && pid in proposals
    ensures var after, later := Block(tasks, task, bump), SetStatus(proposals, pid, NeedsAttention);
      && NothingNew(tasks, deps, proposals, tasks, deps, proposals)
      && NothingNew(tasks, deps, proposals, after, deps, proposals)
      && NothingNew(tasks, deps, proposals, tasks, deps, later)
      && NothingNew(tasks, deps, proposals, after, deps, later)
  {
  }

  /** Any other step: nothing becomes due that was not, and no job goes. */
  lemma OtherStepWakes(s: Db, t: Db)
    requires WakeOk(s.tasks, s.deps, s.proposals, s.jobs) && s.jobs <= t.jobs
    requires NothingNew(s.tasks, s.deps, s.proposals, t.tasks, t.deps, t.proposals)
    ensures WakeOk(t.tasks, t.deps, t.proposals, t.jobs)
  {
    forall p | Due(t.tasks, t.deps, t.proposals, p) ensures HasJob(t.jobs, p) {
      DueBefore(s.tasks, s.deps, s.proposals, t.tasks, t.deps, t.proposals, p);
    }
  }

  lemma JobTaken(jobs: multiset<Job>, gone: Job, back: multiset<Job>, after: multiset<Job>, p: Id)
    requires after == jobs - multiset{gone} + back && p != gone.proposal && HasJob(jobs, p)
    ensures HasJob(after, p)
  {
  }

  /** A delivery may go when its proposal is not due. */
  lemma JobTakenWakes(
    tasks: map<Id, Task>, deps: set<(Id, Id)>, proposals: map<Id, Proposal>,
    jobs: multiset<Job>, gone: Job, back: multiset<Job>, after: multiset<Job>)
    requires WakeOk(tasks, deps, proposals, jobs) && !Due(tasks, deps, proposals, gone.proposal)
    requires after == jobs - multiset{gone} + back
    ensures WakeOk(tasks, deps, proposals, after)
  {
    hide Due;
    forall p | Due(tasks, deps, proposals, p) ensures HasJob(after, p) {
      JobTaken(jobs, gone, back, after, p);
    }
  }

  lemma StillBlocking(tasks: map<Id, Task>, deps: set<(Id, Id)>, task: Id, bump: int)
    requires Blocking(tasks, deps, task)
    ensures Blocking(Block(tasks, task, bump), deps, task)
  {
    var d :| d in deps && d.0 == task && d.1 in tasks && !tasks[d.1].status.TaskDone?;
    assert !Block(tasks, task, bump)[d.1].status.TaskDone?;
  }

  lemma SetBackShape(s: Db, t: Db, pid: Id)
    requires RowsOk(s.tasks, s.proposals) && pid in s.proposals && t == SetBack(s, pid)
    ensures NothingNew(s.tasks, s.deps, s.proposals, t.tasks, t.deps, t.proposals)
    ensures !Due(t.tasks, t.deps, t.proposals, pid) && t.jobs == s.jobs
  {
    var task := s.proposals[pid].task;
    SetBackNothingNew(s.tasks, s.deps, s.proposals, task, 0, pid);
    hide Block, Blocking, NothingNew, RowsOk;
    if Blocking(s.tasks, s.deps, task) {
      StillBlocking(s.tasks, s.deps, task, 0);
    }
  }

  lemma HandledWakes(s: Db, m: Db, pid: Id, order: seq<Id>)
    requires RowsOk(s.tasks, s.proposals) && OneLive(s.proposals)
    requires WakeOk(s.tasks, s.deps, s.proposals, s.jobs)
    requires forall i | 0 <= i < |order| :: EffectKey(pid, order[i]) in s.effects
    requires Apply(s, pid, order) == Handled(m)
    ensures WakeOk(m.tasks, m.deps, m.proposals, m.jobs) && !Due(m.tasks, m.deps, m.proposals, pid)
  {
    hide ApplyOps, Permitted, OneLive, WakeOk, Commit, SetBack;
    if s.proposals[pid].status.Approved? {
      hide RowsOk, Due, NothingNew;
      if Permitted(s, s.proposals[pid].task, pid) {
        var out := ApplyOps(s.records, pid, OpsInOrder(s.effects, pid, order));
        CommitWakes(s, m, pid, out.records, out.receipts);
      } else {
        SetBackShape(s, m, pid);
        OtherStepWakes(s, m);
      }
    }
  }

  lemma RunJobWakes(s: Db, t: Db, pid: Id, order: seq<Id>, acknowledged: bool)
    requires RowsOk(s.tasks, s.proposals) && OneLive(s.proposals)
    requires WakeOk(s.tasks, s.deps, s.proposals, s.jobs)
    requires forall i | 0 <= i < |order| :: EffectKey(pid, order[i]) in s.effects
    requires t == RunJob(s, pid, order, acknowledged)
    ensures WakeOk(t.tasks, t.deps, t.proposals, t.jobs)
  {
    hide Apply, RowsOk, OneLive, Due, WakeOk, NothingNew;
    var handling := Apply(s, pid, order);
    if handling.Handled? {
      var m := handling.db;
      HandledWakes(s, m, pid, order);
      JobGoneWakes(m, pid);
    } else if handling.Fault? {
      FaultedWakes(s, t, pid);
    }
  }

  lemma JobGoneWakes(m: Db, pid: Id)
    requires WakeOk(m.tasks, m.deps, m.proposals, m.jobs) && !Due(m.tasks, m.deps, m.proposals, pid)
    ensures WakeOk(m.tasks, m.deps, m.proposals, m.jobs - multiset{Job(pid, Delivered)})
  {
    hide Due;
  }

  /** Between its two transactions a failed job still stands for its proposal. */
  lemma FaultedWakes(s: Db, t: Db, pid: Id)
    requires WakeOk(s.tasks, s.deps, s.proposals, s.jobs)
    requires t.tasks == s.tasks && t.deps == s.deps && t.proposals == s.proposals
    requires t.jobs == s.jobs || t.jobs == s.jobs - multiset{Job(pid, Delivered)} + multiset{Job(pid, ToMark)}
      || t.jobs == s.jobs - multiset{Job(pid, ToMark)} + multiset{Job(pid, Delivered)}
    ensures WakeOk(t.tasks, t.deps, t.proposals, t.jobs)
  {
  }

  lemma MarkShape(s: Db, t: Db, pid: Id, acknowledged: bool)
    requires RowsOk(s.tasks, s.proposals) && t == MarkJob(s, pid, acknowledged)
    ensures NothingNew(s.tasks, s.deps, s.proposals, t.tasks, t.deps, t.proposals)
    ensures !Due(t.tasks, t.deps, t.proposals, pid)
    ensures t.jobs == s.jobs - multiset{Job(pid, ToMark)}
      + if acknowledged then multiset{} else multiset{Job(pid, Delivered)}
  {
    if pid in s.proposals {
      SetBackNothingNew(s.tasks, s.deps, s.proposals, s.proposals[pid].task, 1, pid);
    }
  }

  lemma MarkJobWakes(s: Db, t: Db, pid: Id, acknowledged: bool)
    requires RowsOk(s.tasks, s.proposals) && WakeOk(s.tasks, s.deps, s.proposals, s.jobs)
    requires t == MarkJob(s, pid, acknowledged)
    ensures WakeOk(t.tasks, t.deps, t.proposals, t.jobs)
  {
    hide MarkJob, NothingNew, Due, WakeOk, RowsOk;
    MarkShape(s, t, pid, acknowledged);
    OtherStepWakes(s, t.(jobs := s.jobs));
    JobTakenWakes(t.tasks, t.deps, t.proposals, s.jobs, Job(pid, ToMark),
                  if acknowledged then multiset{} else multiset{Job(pid, Delivered)}, t.jobs);
  }

  lemma CrashJobWakes(s: Db, t: Db, pid: Id)
    requires WakeOk(s.tasks, s.deps, s.proposals, s.jobs) && t == CrashJob(s, pid)
    ensures WakeOk(t.tasks, t.deps, t.proposals, t.jobs)
  {
    FaultedWakes(s, t, pid);
  }

  lemma RedeliverJobWakes(s: Db, t: Db, pid: Id)
    requires WakeOk(s.tasks, s.deps, s.proposals, s.jobs) && t == RedeliverJob(s, pid)
    ensures WakeOk(t.tasks, t.deps, t.proposals, t.jobs)
  {
    hide Due;
    assert forall p | HasJob(s.jobs, p) :: HasJob(t.jobs, p);
  }

  lemma ApproveWakes(s: Db, t: Db, pid: Id)
    requires WakeOk(s.tasks, s.deps, s.proposals, s.jobs) && pid in s.proposals
    requires t.tasks == s.tasks && t.deps == s.deps
    requires t.proposals == SetStatus(s.proposals, pid, Approved)
    requires t.jobs == s.jobs + multiset{Job(pid, Delivered)}
    ensures WakeOk(t.tasks, t.deps, t.proposals, t.jobs)
  {
    forall p | Due(t.tasks, t.deps, t.proposals, p) ensures HasJob(t.jobs, p) {
      if p != pid {
        assert Due(s.tasks, s.deps, s.proposals, p);
      }
    }
  }
}
