/** The transactions as the source runs them: tables updated in place, loops over rows, and a rollback
    when one fails. Each is proved to do what its function on Db says. */
module Transactions {
  import opened Wrappers
  import opened Connectors
  import opened GateSchemas
  import opened Tables
  import opened Proposals
  import opened Decisions
  import opened Execution
  import opened Runs
  import opened Graph
  import opened Kernel
  import H = Handoffs
  import R = Releases

  lemma CreateProposalCases(
    s: Db, pid: Id, task: Id, actor: Id, origin: Id, draft: seq<Operation>, ids: seq<Id>)
    requires |ids| == |draft|
    ensures var r := Proposals.CreateProposal(s, pid, task, actor, origin, draft, ids);
      var ops := WithIds(draft, ids);
      if task !in s.tasks then r == Err(TaskMissing)
      else if s.tasks[task].owner != actor then r == Err(NotOwner)
      else if !Open(s.tasks[task].status) then r == Err(TerminalTask)
      else if FirstFault(s.records, origin, ops).Some? then r == Err(FirstFault(s.records, origin, ops).value)
      else if pid == NO_ID || pid in s.proposals then r == Err(DuplicateId)
      else
        var after := Supersede(s.proposals, task)[pid := NewRow(s, task, actor, origin, ops)];
        var reserved := ReserveAll(after, s.keys, pid, ops);
        && (reserved.Err? ==> r == Err(reserved.error))
        && (reserved.Ok? ==> r == Ok(s.(proposals := after, keys := reserved.value)))
  {
    hide ReserveAll, FirstFault, NewRow, Supersede, WithIds;
  }

  /** applyProposal before its loop: a proposal that is not to be carried out now. */
  lemma ApplyEarly(s: Db, pid: Id, order: seq<Id>)
    requires forall i | 0 <= i < |order| :: EffectKey(pid, order[i]) in s.effects
    ensures pid !in s.proposals ==> Apply(s, pid, order) == OtherFault
    ensures pid in s.proposals && !s.proposals[pid].status.Approved? && !s.proposals[pid].status.Executing? ==>
      Apply(s, pid, order) == Handled(s)
    ensures (&& pid in s.proposals && (s.proposals[pid].status.Approved? || s.proposals[pid].status.Executing?)
             && !Permitted(s, s.proposals[pid].task, pid)) ==> Apply(s, pid, order) == Handled(SetBack(s, pid))
  {
    hide Permitted, SetBack, ApplyOps;
  }

  lemma SetBackRest(s: Db, pid: Id)
    requires pid in s.proposals
    ensures var t := SetBack(s, pid);
      t.records == s.records && t.effects == s.effects && t.receipts == s.receipts && t.keys == s.keys
        && t.jobs == s.jobs
  {
  }

  /** applyProposal after its loop. */
  lemma ApplyLate(s: Db, pid: Id, order: seq<Id>, out: Outcome)
    requires forall i | 0 <= i < |order| :: EffectKey(pid, order[i]) in s.effects
    requires pid in s.proposals && (s.proposals[pid].status.Approved? || s.proposals[pid].status.Executing?)
    requires Permitted(s, s.proposals[pid].task, pid)
    requires out == ApplyOps(s.records, pid, OpsInOrder(s.effects, pid, order))
    ensures out.Faulted? ==> Apply(s, pid, order) == Fault(out.error)
    ensures out.Broken? ==> Apply(s, pid, order) == OtherFault
    ensures out.Applied? ==> Apply(s, pid, order) == Handled(Commit(s, pid, out.records, out.receipts))
  {
    hide Permitted, SetBack, ApplyOps, Commit;
  }

  lemma NewRowIs(s: Db, task: Id, actor: Id, origin: Id, ops: seq<Operation>, revision: int)
    requires revision == Greatest(Revisions(s.proposals, task))
    ensures NewRow(s, task, actor, origin, ops)
      == Proposal(task, revision + 1, DigestOf(ops), PendingEndorsement, ops, actor, origin)
  {
  }

  /** What a job's handler returns to the queue. */
  datatype Reply = Nil | ConnectorFailure(error: ConnectorError) | OtherFailure

  lemma DeliveriesAdd(pids: set<Id>, p: Id)
    requires p !in pids
    ensures Deliveries(pids + {p}) == Deliveries(pids) + multiset{Job(p, Delivered)}
  {
    var jobs := set q | q in pids :: Job(q, Delivered);
    assert (set q | q in pids + {p} :: Job(q, Delivered)) == jobs + {Job(p, Delivered)};
  }

  lemma NoDeliveries()
    ensures Deliveries({}) == multiset{}
  {
  }

  lemma ClaimTaken(s: Db, id: Id, token: Id, budget: int)
    requires id in s.runs && Claimable(s.runs[id], s.now)
    ensures var t := Claim(s, id, token, budget);
      var deadline := s.now + LeaseSeconds(budget);
      && t.runs == s.runs[id := Taken(s.runs[id], token, deadline)] && t.issued == s.issued + {token}
      && t.deliveries
           == s.deliveries - multiset{Delivery(id, Idle)} + multiset{Delivery(id, Claimed(token, deadline))}
  {
    hide Claimable;
  }

  lemma ClaimMissed(s: Db, id: Id, token: Id, budget: int)
    requires !(id in s.runs && Claimable(s.runs[id], s.now))
    ensures var t := Claim(s, id, token, budget);
      && t.runs == s.runs && t.issued == s.issued
      && t.deliveries == s.deliveries - multiset{Delivery(id, Idle)} + multiset{Delivery(id, Peeking)}
  {
    hide Claimable;
  }

  lemma PublicationProposals(s: Db, d: Delivery, pid: Id, p: Publication)
    requires d.phase.Working? && (p.Made? || p.Recorded? ==> d.run in s.runs)
    ensures var t := PublishWith(s, d, pid, p);
      && t.proposals == (if p.Made? then p.proposals else s.proposals)
      && t.keys == (if p.Made? then p.keys else s.keys)
  {
  }

  lemma PublicationCases(s: Db, d: Delivery, pid: Id, p: Publication)
    requires d.phase.Working? && (p.Made? || p.Recorded? ==> d.run in s.runs)
    ensures var t := PublishWith(s, d, pid, p);
      && (p.Made? ==> t.runs == s.runs[d.run := AsPublished(s.runs[d.run], pid)])
      && (p.Recorded? ==> t.runs == s.runs[d.run := AsFailed(s.runs[d.run], p.code)])
      && (!p.Made? && !p.Recorded? ==> t.runs == s.runs)
      && t.deliveries == s.deliveries - multiset{d} + multiset{d.(phase :=
           if p.TaskUnread? then Idle
           else if p.Aborted? then Failing(d.phase.token, d.phase.deadline, p.code) else Returned)}
  {
  }

  /** The run and the delivery are left alike before and after the proposal was made. */
  lemma PublicationEnds(s: Db, m: Db, d: Delivery, pid: Id, p: Publication)
    requires d.phase.Working? && (p.Made? || p.Recorded? ==> d.run in s.runs)
    requires m.runs == s.runs && m.deliveries == s.deliveries
    ensures PublishWith(m, d, pid, p).runs == PublishWith(s, d, pid, p).runs
    ensures PublishWith(m, d, pid, p).deliveries == PublishWith(s, d, pid, p).deliveries
  {
  }

  lemma NoContinuations()
    ensures Continuations({}) == multiset{}
  {
  }

  lemma ContinuationsAdd(ids: set<Id>, id: Id)
    requires id !in ids
    ensures Continuations(ids + {id}) == Continuations(ids) + multiset{Delivery(id, Idle)}
  {
    var some := set q | q in ids :: Delivery(q, Idle);
    assert (set q | q in ids + {id} :: Delivery(q, Idle)) == some + {Delivery(id, Idle)};
  }

  lemma SubsetSize(a: set<Id>, b: set<Id>)
    requires a <= b
    ensures |a| <= |b| && (|a| == |b| ==> a == b)
  {
    assert b == a + (b - a);
  }

  function IdsOf(order: seq<Id>): set<Id> {
    set id | id in order
  }

  /** The effects of one application, after the first of them. */
  function VerifiedSome(effects: map<EffectKey, Effect>, pid: Id, some: set<Id>): map<EffectKey, Effect> {
    map e | e in effects ::
      if e.proposal == pid && e.op in some then effects[e].(state := Verified) else effects[e]
  }

  lemma VerifiedNext(effects: map<EffectKey, Effect>, pid: Id, order: seq<Id>, i: nat)
    requires IsOrder(effects, pid, order) && i < |order|
    ensures var some := IdsOf(order[..i]);
      var more := IdsOf(order[..i + 1]);
      var e := EffectKey(pid, order[i]);
      && e in effects && order[i] !in some
      && VerifiedSome(effects, pid, more) == VerifiedSome(effects, pid, some)[e := Effect(effects[e].op, Verified)]
  {
    assert order[i] in order;
    assert order[..i + 1] == order[..i] + [order[i]];
    assert IdsOf(order[..i + 1]) == IdsOf(order[..i]) + {order[i]};
  }

  lemma NoneVerified(effects: map<EffectKey, Effect>, pid: Id, order: seq<Id>)
    ensures VerifiedSome(effects, pid, IdsOf(order[..0])) == effects
  {
  }

  lemma VerifiedAll(effects: map<EffectKey, Effect>, pid: Id, order: seq<Id>)
    requires IsOrder(effects, pid, order)
    ensures VerifiedSome(effects, pid, IdsOf(order)) == VerifyEffects(effects, pid, Verified)
  {
  }

  lemma OpsListed(effects: map<EffectKey, Effect>, pid: Id, order: seq<Id>)
    requires forall i | 0 <= i < |order| :: EffectKey(pid, order[i]) in effects
    ensures var ops := OpsInOrder(effects, pid, order);
      |ops| == |order| && forall i | 0 <= i < |order| :: ops[i] == effects[EffectKey(pid, order[i])].op
  {
  }

  /** One turn of the loop over the effects. */
  lemma ApplyOpsNext(records: map<Id, Record>, pid: Id, ops: seq<Operation>, i: nat)
    requires i < |ops|
    ensures var op := ops[i];
      ApplyOps(records, pid, ops[i..])
        == if op.target !in records then Broken
           else match Prepare(op.target, records[op.target], op)
             case Refused(e) => Faulted(e)
             case Ready(next) =>
               var rest := ApplyOps(records[op.target := next], pid, ops[i + 1..]);
               if rest.Applied?
               then rest.(receipts := [Receipt(EffectKey(pid, op.id), op, next.data)] + rest.receipts)
               else rest
  {
    hide Prepare;
    assert ops[i..][0] == ops[i] && ops[i..][1..] == ops[i + 1..];
  }

  /** What parking writes, by what became of the question. */
  lemma ParkWithIs(s: Db, d: Delivery, gate: Id, q: Runs.Question)
    requires q.New? || q.Asked? ==> d.run in s.runs
    ensures var t := ParkWith(s, d, gate, q);
      && t.gates == (if q.New? then s.gates[gate := q.row] else s.gates)
      && t.runs == (if q.New? then s.runs[d.run := AsWaiting(s.runs[d.run], gate)]
                    else if q.Asked? then s.runs[d.run := AsWaiting(s.runs[d.run], q.gate)] else s.runs)
      && t.deliveries
           == s.deliveries - multiset{d} + multiset{d.(phase := if q.Unusable? then Idle else Returned)}
  {
    hide AsWaiting;
  }

  lemma MarkTables(s: Db, pid: Id)
    ensures var t := Mark(s, pid);
      t.records == s.records && t.receipts == s.receipts && t.keys == s.keys && t.jobs == s.jobs
  {
    hide VerifyEffects, SetStatus, Block;
  }

  lemma ApplyOpsNone(records: map<Id, Record>, pid: Id, ops: seq<Operation>)
    ensures ApplyOps(records, pid, ops[|ops|..]) == Applied(records, [])
  {
    assert ops[|ops|..] == [];
  }

  class Store {
    var now: int
    var principals: map<Id, Principal>
    var tasks: map<Id, Task>
    var deps: set<(Id, Id)>
    var handoffs: map<Id, Handoff>
    var records: map<Id, Record>
    var proposals: map<Id, Proposal>
    var decisions: map<DecisionKey, Decision>
    var keys: map<Key, KeyRow>
    var effects: map<EffectKey, Effect>
    var receipts: seq<Receipt>
    var jobs: multiset<Job>
    var agents: map<Id, Agent>
    var releases: map<Id, Release>
    var runs: map<Id, Run>
    var gates: map<Id, Gate>
    var deliveries: multiset<Delivery>
    var issued: set<Id>

    ghost function Db(): Db
      reads this
    {
      Tables.Db(now, principals, tasks, deps, handoffs, records, proposals, decisions, keys, effects, receipts, jobs,
                agents, releases, runs, gates, deliveries, issued)
    }

    constructor ()
      ensures Db() == EMPTY
    {
      now, principals, tasks, deps, handoffs, records := 0, map[], map[], {}, map[], map[];
      proposals, decisions, keys, effects, receipts, jobs := map[], map[], map[], map[], [], multiset{};
      agents, releases, runs, gates, deliveries, issued := map[], map[], map[], map[], multiset{}, {};
    }

    // ---- Proposals -------------------------------------------------------------------------

    /** The first loop of createProposalTx: it names the operations that have no id yet and checks each. */
    method CheckOperations(ops: array<Operation>, ids: seq<Id>, origin: Id) returns (fault: Option<CreateError>)
      requires |ids| == ops.Length
      modifies ops
      ensures fault == FirstFault(records, origin, WithIds(old(ops[..]), ids))
      ensures fault.None? ==> ops[..] == WithIds(old(ops[..]), ids)
    {
      hide OperationFault;
      ghost var was := ops[..];
      ghost var named := WithIds(was, ids);
      for i := 0 to ops.Length
        invariant forall j | 0 <= j < i :: ops[j] == named[j]
        invariant forall j | i <= j < ops.Length :: ops[j] == was[j]
        invariant FirstFault(records, origin, named) == FirstFault(records, origin, named[i..])
      {
        if ops[i].id == NO_ID {
          ops[i] := ops[i].(id := ids[i]);
        }
        assert named[i..][0] == named[i] == ops[i] && named[i..][1..] == named[i + 1..];
        var found := OperationFault(records, origin, ops[i]);
        if found.Some? {
          return found;
        }
      }
      assert named[ops.Length..] == [];
      assert ops[..] == named;
      return None;
    }

    /** reserveBusinessOperations; what a failure leaves is rolled back by the caller. */
    method ReserveBusinessOperations(pid: Id, ops: seq<Operation>) returns (failure: Option<CreateError>)
      requires pid in proposals
      modifies this`keys
      ensures failure.None? ==> ReserveAll(proposals, old(keys), pid, ops) == Ok(keys)
      ensures failure.Some? ==> ReserveAll(proposals, old(keys), pid, ops) == Err(failure.value)
    {
      for i := 0 to |ops|
        invariant ReserveAll(proposals, old(keys), pid, ops) == ReserveAll(proposals, keys, pid, ops[i..])
      {
        var op := ops[i];
        assert ops[i..][0] == op && ops[i..][1..] == ops[i + 1..];
        var key := KeyOf(op);
        if !ValidBusinessKey(op.businessKey) {
          return Some(BadKey);
        }
        if key !in keys {
          keys := keys[key := KeyRow(FingerprintOf(op), pid, Reserved)];
        } else {
          var row := keys[key];
          if row.fingerprint != FingerprintOf(op) {
            return Some(DifferentContent);
          }
          var rebindable := row.status.Released?;
          if !rebindable && row.status.Reserved? && row.proposal != NO_ID && row.proposal in proposals {
            var holder := proposals[row.proposal];
            rebindable := holder.status.Rejected? || (holder.status.Superseded? && holder.task == proposals[pid].task);
          }
          if !rebindable {
            return Some(KeyClaimed);
          }
          keys := keys[key := row.(proposal := pid, status := Reserved, fingerprint := FingerprintOf(op))];
        }
      }
      assert ops[|ops|..] == [];
      return None;
    }

    /** select coalesce(max(revision),0). */
    method LatestRevision(task: Id) returns (revision: int)
      ensures revision == Greatest(Revisions(proposals, task))
    {
      revision := 0;
      var rest := proposals.Keys;
      while rest != {}
        invariant rest <= proposals.Keys && revision >= 0
        invariant revision == 0 || revision in Revisions(proposals, task)
        invariant forall p | p in proposals.Keys - rest && proposals[p].task == task ::
          proposals[p].revision <= revision
      {
        var p :| p in rest;
        if proposals[p].task == task && proposals[p].revision > revision {
          revision := proposals[p].revision;
        }
        rest := rest - {p};
      }
      GreatestIs(Revisions(proposals, task), revision);
    }

    /** Superseding the task's live proposals, inserting the new row and reserving its keys; the caller's
        WithOrg undoes it all when a key cannot be reserved. */
    method InsertProposal(pid: Id, row: Proposal) returns (failure: Option<CreateError>)
      modifies this`proposals, this`keys
      ensures var after := Supersede(old(proposals), row.task)[pid := row];
        var reserved := ReserveAll(after, old(keys), pid, row.ops);
        if failure.None? then reserved == Ok(keys) && proposals == after
        else reserved == Err(failure.value) && proposals == old(proposals) && keys == old(keys)
    {
      var saved, savedKeys := proposals, keys;
      proposals := Supersede(proposals, row.task);
      proposals := proposals[pid := row];
      failure := ReserveBusinessOperations(pid, row.ops);
      if failure.Some? {
        proposals, keys := saved, savedKeys;
      }
    }

    /** createProposalTx under WithOrg: all of it, or nothing. */
    method CreateProposal(pid: Id, task: Id, actor: Id, origin: Id, ops: array<Operation>, ids: seq<Id>)
      returns (failure: Option<CreateError>)
      requires |ids| == ops.Length
      modifies this`proposals, this`keys, ops
      ensures var r := Proposals.CreateProposal(old(Db()), pid, task, actor, origin, old(ops[..]), ids);
        r == if failure.None? then Ok(Db()) else Err(failure.value)
      ensures failure.Some? ==> unchanged(this)
    {
      hide Proposals.CreateProposal, ReserveAll, FirstFault, NewRow, Supersede, WithIds;
      CreateProposalCases(Db(), pid, task, actor, origin, ops[..], ids);
      if task !in tasks {
        return Some(TaskMissing);
      }
      if tasks[task].owner != actor {
        return Some(NotOwner);
      }
      if !Open(tasks[task].status) {
        return Some(TerminalTask);
      }
      var revision := LatestRevision(task);
      failure := CheckOperations(ops, ids, origin);
      if failure.Some? {
        return;
      }
      if pid == NO_ID || pid in proposals {
        return Some(DuplicateId);
      }
      NewRowIs(Db(), task, actor, origin, ops[..], revision);
      var row := Proposal(task, revision + 1, DigestOf(ops[..]), PendingEndorsement, ops[..], actor, origin);
      failure := InsertProposal(pid, row);
    }

    // ---- Decisions -------------------------------------------------------------------------

    /** insert into effects ... select ... on conflict do nothing. */
    method AuthoriseEffects(pid: Id, ops: seq<Operation>)
      modifies this`effects
      ensures effects == InsertEffects(old(effects), keys, pid, ops)
    {
      hide EffectConflict;
      for i := 0 to |ops|
        invariant InsertEffects(old(effects), keys, pid, ops) == InsertEffects(effects, keys, pid, ops[i..])
      {
        assert ops[i..][0] == ops[i] && ops[i..][1..] == ops[i + 1..];
        if !EffectConflict(effects, keys, pid, ops[i]) {
          effects := effects[EffectKey(pid, ops[i].id) := Effect(ops[i], Authorized)];
        }
      }
      assert ops[|ops|..] == [];
    }

    /** Recording a decision, by its kind. */
    method Record(pid: Id, actor: Id, kind: DecisionKind, revision: int, digest: Digest)
      requires actor in principals && pid in proposals && !kind.OtherKind?
      modifies this`decisions, this`proposals, this`keys, this`effects, this`jobs
      ensures var t := WithDecision(old(Db()), pid, actor, kind, revision, digest);
        && decisions == t.decisions && proposals == t.proposals && keys == t.keys
        && effects == t.effects && jobs == t.jobs
    {
      hide InsertEffects, Dispatch, ReleaseKeys, SetStatus;
      var p := proposals[pid];
      decisions := decisions[DecisionKey(pid, actor, kind) := Decision(revision, digest, principals[actor].role)];
      match kind {
        case Endorse =>
          proposals := SetStatus(proposals, pid, PendingApproval);
        case Reject =>
          proposals := SetStatus(proposals, pid, if Pending(p.status) then Rejected else p.status);
          keys := ReleaseKeys(keys, pid);
        case Approve =>
          proposals := SetStatus(proposals, pid, Approved);
          AuthoriseEffects(pid, p.ops);
          keys := Dispatch(keys, pid);
          jobs := jobs + multiset{Job(pid, Delivered)};
      }
    }

    /** The checks before the decision is inserted. */
    method CheckDecision(pid: Id, actor: Id, kind: DecisionKind, revision: int, digest: Digest) returns (ok: bool)
      ensures ok <==> MayDecide(Db(), pid, actor, kind, revision, digest)
      ensures ok ==> pid in proposals && actor in principals && !kind.OtherKind?
    {
      if !ActivePrincipal(principals, actor) || pid !in proposals {
        return false;
      }
      var role, p := principals[actor].role, proposals[pid];
      if p.revision != revision || p.digest != digest {
        return false;
      }
      if kind.Endorse? && (actor != p.createdBy || !p.status.PendingEndorsement?) {
        return false;
      }
      if (kind.Approve? || kind.Reject?) && (actor == p.createdBy || !MayApprove(role)) {
        return false;
      }
      return !kind.OtherKind?;
    }

    method Decide(pid: Id, actor: Id, kind: DecisionKind, revision: int, digest: Digest) returns (ok: bool)
      modifies this`decisions, this`proposals, this`keys, this`effects, this`jobs
      ensures var t := Decisions.Decide(old(Db()), pid, actor, kind, revision, digest);
        && (ok <==> t.Some?)
        && (ok ==> decisions == t.value.decisions && proposals == t.value.proposals && keys == t.value.keys
                   && effects == t.value.effects && jobs == t.value.jobs)
      ensures !ok ==> unchanged(this)
    {
      hide MayDecide, WithDecision;
      var permitted := CheckDecision(pid, actor, kind, revision, digest);
      if !permitted {
        return false;
      }
      if DecisionKey(pid, actor, kind) in decisions {
        return true;
      }
      var p := proposals[pid];
      if kind.Approve? && ((p.task in tasks && tasks[p.task].status.TaskCancelled?) || !p.status.PendingApproval?) {
        return false;
      }
      Record(pid, actor, kind, revision, digest);
      return true;
    }

    // ---- Execution -------------------------------------------------------------------------

    /** The authorised effects of a proposal, in whatever order the database returns them. */
    method AuthorisedEffects(pid: Id) returns (order: seq<Id>)
      ensures IsOrder(effects, pid, order)
      ensures forall i | 0 <= i < |order| :: EffectKey(pid, order[i]) in effects
    {
      order := [];
      var all := set e | e in effects && e.proposal == pid && effects[e].state.Authorized? :: e.op;
      assert forall id :: id in all ==> EffectKey(pid, id) in effects && effects[EffectKey(pid, id)].state.Authorized?;
      assert forall e | e in effects && e.proposal == pid && effects[e].state.Authorized? :: e.op in all;
      assert forall id :: EffectKey(pid, id) in effects && effects[EffectKey(pid, id)].state.Authorized? ==> id in all;
      var rest := all;
      while rest != {}
        invariant rest <= all && forall id :: id in order <==> id in all - rest
        invariant forall i, j | 0 <= i < j < |order| :: order[i] != order[j]
      {
        var id :| id in rest;
        assert id !in order;
        order := order + [id];
        rest := rest - {id};
      }
      assert forall i | 0 <= i < |order| :: order[i] in order;
    }

    method WriteEffect(pid: Id, id: Id, op: Operation, next: Record)
      modifies this`records, this`effects, this`receipts
      ensures records == old(records)[op.target := next]
      ensures effects == old(effects)[EffectKey(pid, id) := Effect(op, Verified)]
      ensures receipts == old(receipts) + [Receipt(EffectKey(pid, op.id), op, next.data)]
    {
      records := records[op.target := next];
      effects := effects[EffectKey(pid, id) := Effect(op, Verified)];
      receipts := receipts + [Receipt(EffectKey(pid, op.id), op, next.data)];
    }

    /** The loop of applyProposal over those effects: each record, effect and receipt in turn. What a
        failure leaves behind is rolled back by the caller. */
    method ApplyEffects(pid: Id, order: seq<Id>) returns (reply: Reply)
      requires IsOrder(effects, pid, order)
      requires forall i | 0 <= i < |order| :: EffectKey(pid, order[i]) in effects
      modifies this`records, this`effects, this`receipts
      ensures var out := ApplyOps(old(records), pid, OpsInOrder(old(effects), pid, order));
        match reply
        case Nil =>
          out.Applied? && records == out.records && receipts == old(receipts) + out.receipts
          && effects == VerifyEffects(old(effects), pid, Verified)
        case ConnectorFailure(e) => out == Faulted(e)
        case OtherFailure => out == Broken
    {
      hide IsOrder, VerifyEffects, VerifiedSome, Prepare, IdsOf, ApplyOps, OpsInOrder;
      var pending := OpsInOrder(effects, pid, order);
      OpsListed(effects, pid, order);
      NoneVerified(effects, pid, order);
      ghost var done: seq<Receipt> := [];
      for i := 0 to |pending|
        invariant receipts == old(receipts) + done
        invariant effects == VerifiedSome(old(effects), pid, IdsOf(order[..i]))
        invariant var rest := ApplyOps(records, pid, pending[i..]);
          ApplyOps(old(records), pid, pending)
            == if rest.Applied? then Applied(rest.records, done + rest.receipts) else rest
      {
        var op := pending[i];
        ApplyOpsNext(records, pid, pending, i);
        if op.target !in records {
          return OtherFailure;
        }
        var prepared := Prepare(op.target, records[op.target], op);
        if prepared.Refused? {
          return ConnectorFailure(prepared.error);
        }
        VerifiedNext(old(effects), pid, order, i);
        done := done + [Receipt(EffectKey(pid, op.id), op, prepared.record.data)];
        WriteEffect(pid, order[i], op, prepared.record);
      }
      assert order[..|pending|] == order;
      ApplyOpsNone(records, pid, pending);
      VerifiedAll(old(effects), pid, order);
      return Nil;
    }

    /** enqueueEligibleChildren: one job for each proposal that only waited for this parent. */
    method EnqueueEligibleChildren(parent: Id)
      modifies this`jobs
      ensures jobs == old(jobs) + Deliveries(Woken(tasks, deps, proposals, parent))
    {
      hide Deliveries;
      var woken := Woken(tasks, deps, proposals, parent);
      var rest := woken;
      NoDeliveries();
      assert woken - rest == {};
      while rest != {}
        invariant rest <= woken && jobs == old(jobs) + Deliveries(woken - rest)
      {
        var p :| p in rest;
        DeliveriesAdd(woken - rest, p);
        assert woken - (rest - {p}) == (woken - rest) + {p};
        jobs := jobs + multiset{Job(p, Delivered)};
        rest := rest - {p};
      }
      assert woken - {} == woken;
    }

    /** The writes that end a successful application. */
    method FinishProposal(pid: Id)
      requires pid in proposals
      modifies this`keys, this`proposals, this`tasks, this`jobs
      ensures keys == VerifyKeys(old(keys), pid) && proposals == SetStatus(old(proposals), pid, ProposalDone)
      ensures tasks == Finish(old(tasks), old(proposals)[pid].task)
      ensures jobs == old(jobs) + Deliveries(Woken(tasks, deps, proposals, old(proposals)[pid].task))
    {
      hide Woken, Deliveries;
      var task := proposals[pid].task;
      keys := VerifyKeys(keys, pid);
      proposals := SetStatus(proposals, pid, ProposalDone);
      if task in tasks && !tasks[task].status.TaskCancelled? {
        tasks := tasks[task := tasks[task].(status := TaskDone, version := tasks[task].version + 1)];
      }
      EnqueueEligibleChildren(task);
    }

    /** Not permitted now: the task is blocked by a parent, or a person has to look. */
    method PutBack(pid: Id)
      requires pid in proposals
      modifies this`tasks, this`proposals
      ensures tasks == SetBack(old(Db()), pid).tasks && proposals == SetBack(old(Db()), pid).proposals
    {
      var task := proposals[pid].task;
      if Blocking(tasks, deps, task) {
        if task in tasks && Open(tasks[task].status) {
          tasks := tasks[task := tasks[task].(status := Blocked)];
        }
      } else {
        proposals := SetStatus(proposals, pid, NeedsAttention);
      }
    }

    /** The part of applyProposal that writes, and WithOrg's rollback of it. */
    method CarryOut(pid: Id, order: seq<Id>) returns (reply: Reply)
      requires pid in proposals && IsOrder(effects, pid, order)
      requires forall i | 0 <= i < |order| :: EffectKey(pid, order[i]) in effects
      modifies this`records, this`effects, this`receipts, this`keys, this`proposals, this`tasks, this`jobs
      ensures var out := ApplyOps(old(records), pid, OpsInOrder(old(effects), pid, order));
        match reply
        case Nil =>
          var t := if out.Applied? then Commit(old(Db()), pid, out.records, out.receipts) else old(Db());
          && out.Applied?
          && records == t.records && effects == t.effects && receipts == t.receipts && keys == t.keys
          && proposals == t.proposals && tasks == t.tasks && jobs == t.jobs
        case ConnectorFailure(e) => out == Faulted(e) && unchanged(this)
        case OtherFailure => out == Broken && unchanged(this)
    {
      hide ApplyOps, IsOrder, OpsInOrder, VerifyEffects, Finish, Woken, Deliveries, VerifyKeys;
      var savedRecords, savedEffects, savedReceipts := records, effects, receipts;
      reply := ApplyEffects(pid, order);
      if reply.Nil? {
        FinishProposal(pid);
      } else {
        records, effects, receipts := savedRecords, savedEffects, savedReceipts;
      }
    }

    predicate MayApply(pid: Id): (permitted: bool)
      reads this
      requires pid in proposals
      ensures permitted == Permitted(Db(), proposals[pid].task, pid)
    {
      var task := proposals[pid].task;
      && task in tasks && Open(tasks[task].status) && ActivePrincipal(principals, tasks[task].owner)
      && (exists d | d in decisions ::
            d.proposal == pid && d.kind.Approve? && ActivePrincipal(principals, d.actor)
            && MayApprove(principals[d.actor].role))
      && (exists d | d in decisions :: d.proposal == pid && d.kind.Endorse? && ActivePrincipal(principals, d.actor))
      && !Blocking(tasks, deps, task)
    }

    /** applyProposal: one transaction, committed on Nil and rolled back on either error. */
    method ApplyProposal(pid: Id) returns (reply: Reply, ghost order: seq<Id>)
      modifies this`records, this`effects, this`receipts, this`keys, this`proposals, this`tasks, this`jobs
      ensures IsOrder(old(effects), pid, order)
      ensures forall i | 0 <= i < |order| :: EffectKey(pid, order[i]) in old(effects)
      ensures var r := Apply(old(Db()), pid, order);
        match reply
        case Nil =>
          && r.Handled?
          && records == r.db.records && effects == r.db.effects && receipts == r.db.receipts && keys == r.db.keys
          && proposals == r.db.proposals && tasks == r.db.tasks && jobs == r.db.jobs
        case ConnectorFailure(e) => r == Fault(e) && unchanged(this)
        case OtherFailure => r == OtherFault && unchanged(this)
    {
      hide Apply, ApplyOps, IsOrder, OpsInOrder, VerifyEffects, Finish, Woken, Deliveries, VerifyKeys, SetBack, Commit,
        MayApply, Permitted;
      ghost var s := Db();
      var listed := AuthorisedEffects(pid);
      order := listed;
      ApplyEarly(s, pid, listed);
      if pid !in proposals {
        return OtherFailure, order;
      }
      if !proposals[pid].status.Approved? && !proposals[pid].status.Executing? {
        return Nil, order;
      }
      if !MayApply(pid) {
        SetBackRest(s, pid);
        PutBack(pid);
        return Nil, order;
      }
      ApplyLate(s, pid, listed, ApplyOps(s.records, pid, OpsInOrder(s.effects, pid, listed)));
      reply := CarryOut(pid, listed);
    }

    /** The second transaction of executeProposal, after a connectors error. */
    method MarkFailed(pid: Id)
      modifies this`proposals, this`tasks, this`effects
      ensures var t := Mark(old(Db()), pid); proposals == t.proposals && tasks == t.tasks && effects == t.effects
    {
      hide VerifyEffects;
      if pid in proposals && (proposals[pid].status.Approved? || proposals[pid].status.Executing?) {
        var task := proposals[pid].task;
        proposals := SetStatus(proposals, pid, NeedsAttention);
        if task in tasks && Open(tasks[task].status) {
          tasks := tasks[task := tasks[task].(status := Blocked, version := tasks[task].version + 1)];
        }
        effects := VerifyEffects(effects, pid, EffectNeedsAttention);
      }
    }

    /** executeProposal when nothing comes between its two transactions: a connectors error is recorded
        and acknowledged, any other error goes back to the queue. */
    method ExecuteProposal(pid: Id) returns (acknowledged: bool, ghost order: seq<Id>)
      modifies this`records, this`effects, this`receipts, this`keys, this`proposals, this`tasks, this`jobs
      ensures IsOrder(old(effects), pid, order)
      ensures forall i | 0 <= i < |order| :: EffectKey(pid, order[i]) in old(effects)
      ensures acknowledged <==> !Apply(old(Db()), pid, order).OtherFault?
      ensures !acknowledged ==> unchanged(this)
      ensures Apply(old(Db()), pid, order).Fault? ==>
        var t := Mark(old(Db()), pid);
        && records == t.records && effects == t.effects && receipts == t.receipts && keys == t.keys
        && proposals == t.proposals && tasks == t.tasks && jobs == t.jobs
      ensures Apply(old(Db()), pid, order).Handled? ==>
        var t := Apply(old(Db()), pid, order).db;
        && records == t.records && effects == t.effects && receipts == t.receipts && keys == t.keys
        && proposals == t.proposals && tasks == t.tasks && jobs == t.jobs
    {
      hide Apply, IsOrder, Mark;
      var reply;
      reply, order := ApplyProposal(pid);
      if reply.ConnectorFailure? {
        MarkTables(Db(), pid);
        MarkFailed(pid);
        return true, order;
      }
      return reply.Nil?, order;
    }

    // ---- Tasks -----------------------------------------------------------------------------

    method AddDependency(task: Id, parent: Id) returns (ok: bool)
      modifies this`deps
      ensures var t := Kernel.AddDependency(old(Db()), task, parent);
        (ok <==> t.Some?) && (ok ==> deps == t.value.deps)
      ensures !ok ==> unchanged(this)
    {
      hide Reaches;
      if task == parent || task !in tasks || parent !in tasks {
        return false;
      }
      var reach := ReachQuery(deps, parent);
      if task in reach {
        return false;
      }
      deps := deps + {(task, parent)};
      return true;
    }

    method CancelTask(task: Id, version: int) returns (ok: bool)
      modifies this`tasks, this`proposals, this`gates, this`runs
      ensures var t := Kernel.CancelTask(old(Db()), task, version);
        && (ok <==> t.Some?)
        && (ok ==>
              tasks == t.value.tasks && proposals == t.value.proposals && gates == t.value.gates
              && runs == t.value.runs)
      ensures !ok ==> unchanged(this)
    {
      hide RejectLive, CancelGates, CancelRuns;
      if task !in tasks || tasks[task].version != version || tasks[task].status.TaskDone? {
        return false;
      }
      tasks := tasks[task := tasks[task].(status := TaskCancelled, version := version + 1)];
      proposals := RejectLive(proposals, task);
      gates := CancelGates(gates, task);
      runs := CancelRuns(runs, task);
      return true;
    }

    // ---- Handoffs --------------------------------------------------------------------------

    method CreateHandoff(id: Id, task: Id, actor: Id, recipient: Id, role: HandoffRole, expiresAt: int)
      returns (ok: bool)
      modifies this`handoffs
      ensures var t := H.Offer(old(Db()), id, task, actor, recipient, role, expiresAt);
        (ok <==> t.Some?) && (ok ==> handoffs == t.value.handoffs)
      ensures !ok ==> unchanged(this)
    {
      hide H.AcceptedOwner;
      if role.OtherRole? || task !in tasks {
        return false;
      }
      if (actor != tasks[task].owner && actor != tasks[task].assignee) || !ActivePrincipal(principals, recipient) {
        return false;
      }
      var hops := 0;
      if role.OwnerRole? {
        hops := |H.AcceptedOwner(handoffs, task)|;
        if hops >= H.MAX_HOPS {
          return false;
        }
      }
      if id in handoffs {
        return false;
      }
      handoffs := handoffs[id := Handoff(task, recipient, actor, role, Offered, tasks[task].version, hops + 1,
        Some(expiresAt))];
      return true;
    }

    /** AcceptHandoff first marks a due offer as expired, and then refuses it: the mark is rolled back. */
    method AcceptHandoff(id: Id, actor: Id) returns (ok: bool)
      modifies this`tasks, this`handoffs
      ensures var t := H.Accept(old(Db()), id, actor);
        (ok <==> t.Some?) && (ok ==> tasks == t.value.tasks && handoffs == t.value.handoffs)
      ensures !ok ==> unchanged(this)
    {
      var saved := handoffs;
      if id in handoffs && H.Due(handoffs[id], now) {
        handoffs := handoffs[id := handoffs[id].(state := Expired)];
      }
      if id !in handoffs || handoffs[id].recipient != actor {
        handoffs := saved;
        return false;
      }
      var h := handoffs[id];
      if h.state.Accepted? {
        return true;
      }
      if !H.OpenOffer(h) || h.task !in tasks {
        handoffs := saved;
        return false;
      }
      var task := tasks[h.task];
      if h.createdBy != task.owner || task.version != h.offeredVersion {
        handoffs := saved;
        return false;
      }
      if h.role.OwnerRole? {
        tasks := tasks[h.task := task.(owner := actor, version := task.version + 1)];
      } else {
        tasks := tasks[h.task := task.(assignee := actor, version := task.version + 1)];
      }
      handoffs := handoffs[id := h.(state := Accepted)];
      return true;
    }

    /** DeclineHandoff, ClarifyHandoff and CancelHandoff: they too expire a due offer and then refuse. */
    method ReplyToHandoff(id: Id, actor: Id, state: HandoffState) returns (ok: bool)
      requires state.Declined? || state.ClarificationRequested? || state.Withdrawn?
      modifies this`handoffs
      ensures var t := H.Reply(old(Db()), id, actor, state);
        (ok <==> t.Some?) && (ok ==> handoffs == t.value.handoffs)
      ensures !ok ==> unchanged(this)
    {
      var saved := handoffs;
      if id in handoffs && H.Due(handoffs[id], now) {
        handoffs := handoffs[id := handoffs[id].(state := Expired)];
      }
      if id in handoffs {
        var replier := if state.Withdrawn? then handoffs[id].createdBy else handoffs[id].recipient;
        if replier == actor && H.OpenOffer(handoffs[id]) {
          handoffs := handoffs[id := handoffs[id].(state := state)];
          return true;
        }
      }
      handoffs := saved;
      return false;
    }

    // ---- Agent runs ------------------------------------------------------------------------

    method TakeRun(id: Id, token: Id, deadline: int)
      requires id in runs
      modifies this`runs, this`deliveries, this`issued
      ensures runs == old(runs)[id := Taken(old(runs)[id], token, deadline)] && issued == old(issued) + {token}
      ensures deliveries
        == old(deliveries) - multiset{Delivery(id, Idle)} + multiset{Delivery(id, Claimed(token, deadline))}
    {
      runs := runs[id := runs[id].(status := Running, attempt := runs[id].attempt + 1, token := token,
        lease := Some(deadline))];
      issued := issued + {token};
      deliveries := deliveries - multiset{Delivery(id, Idle)} + multiset{Delivery(id, Claimed(token, deadline))};
    }

    /** The claim: one update, whose row count tells whether it took the run. */
    method ClaimRun(id: Id, token: Id, budget: int)
      modifies this`runs, this`deliveries, this`issued
      ensures var t := Claim(old(Db()), id, token, budget);
        runs == t.runs && deliveries == t.deliveries && issued == t.issued
    {
      hide Claimable, Claim, Taken;
      var seconds := budget + 60;
      if seconds < 120 {
        seconds := 120;
      }
      if id in runs && Claimable(runs[id], now) {
        ClaimTaken(Db(), id, token, budget);
        TakeRun(id, token, now + seconds);
      } else {
        ClaimMissed(Db(), id, token, budget);
        deliveries := deliveries - multiset{Delivery(id, Idle)} + multiset{Delivery(id, Peeking)};
      }
    }

    /** updateFailureTx looks at the claim token only. */
    method UpdateFailure(id: Id, token: Id, code: string)
      modifies this`runs
      ensures runs == if id in old(runs) && old(runs)[id].token == token
                      then old(runs)[id := AsFailed(old(runs)[id], code)] else old(runs)
    {
      if id in runs && runs[id].token == token {
        runs := runs[id := runs[id].(status := Failed, failure := code, token := NO_ID, lease := None)];
      }
    }

    method FailRun(d: Delivery)
      requires d.phase.Failing?
      modifies this`runs, this`deliveries
      ensures var t := Fail(old(Db()), d); runs == t.runs && deliveries == t.deliveries
    {
      UpdateFailure(d.run, d.phase.token, d.phase.code);
      deliveries := deliveries - multiset{d} + multiset{d.(phase := Returned)};
    }

    method ResolveGate(gate: Id, actor: Id, revision: int, response: Response) returns (ok: bool)
      modifies this`gates, this`runs, this`deliveries
      ensures var t := Runs.ResolveGate(old(Db()), gate, actor, revision, response);
        && (ok <==> t.Some?)
        && (ok ==> gates == t.value.gates && runs == t.value.runs && deliveries == t.value.deliveries)
      ensures !ok ==> unchanged(this)
    {
      hide ValidResponse;
      if gate !in gates {
        return false;
      }
      var g := gates[gate];
      if !ActivePrincipal(principals, actor) || g.respondent != actor {
        return false;
      }
      if g.status.GateResolved? {
        return g.respondedBy == actor && SameAnswer(g.response, response);
      }
      if !g.status.GatePending? || g.revision != revision || !ValidResponse(g.schema, response) {
        return false;
      }
      gates := gates[gate := g.(status := GateResolved, response := response, respondedBy := actor)];
      if g.run in runs && runs[g.run].status.Waiting? && runs[g.run].gate == gate {
        runs := runs[g.run := Resumed(runs[g.run])];
        deliveries := deliveries + multiset{Delivery(g.run, Idle)};
      }
      return true;
    }

    /** Of these eligible runs, one whose lease ended first. */
    method EarliestLease(rest: set<Id>) returns (first: Id)
      requires rest != {} && rest <= runs.Keys
      ensures first in rest && forall b | b in rest :: NotLater(runs[first].lease, runs[b].lease)
    {
      first :| first in rest;
      var others := rest - {first};
      while others != {}
        invariant first in rest && others <= rest
        invariant forall b | b in rest - others :: NotLater(runs[first].lease, runs[b].lease)
      {
        var b :| b in others;
        if !NotLater(runs[first].lease, runs[b].lease) {
          first := b;
        }
        others := others - {b};
      }
    }

    /** ORDER BY claim_expires_at NULLS FIRST LIMIT. */
    method TakeFirst(eligible: set<Id>, most: int) returns (chosen: set<Id>)
      requires eligible <= runs.Keys && most > 0
      ensures chosen <= eligible && |chosen| == if |eligible| <= most then |eligible| else most
      ensures forall a, b | a in chosen && b in eligible - chosen :: NotLater(runs[a].lease, runs[b].lease)
    {
      hide NotLater;
      chosen := {};
      while |chosen| < most && chosen != eligible
        invariant chosen <= eligible && |chosen| <= most && |chosen| <= |eligible|
        invariant forall a, b | a in chosen && b in eligible - chosen :: NotLater(runs[a].lease, runs[b].lease)
        decreases most - |chosen|
      {
        assert eligible - chosen != {};
        var first := EarliestLease(eligible - chosen);
        chosen := chosen + {first};
        SubsetSize(chosen, eligible);
      }
      SubsetSize(chosen, eligible);
    }

    /** The candidates of reclaimInOrg: at most `limit` runs, ordered by the end of their lease. */
    method Candidates(limit: int) returns (chosen: set<Id>)
      ensures FirstEligible(Db(), limit, chosen)
    {
      hide NotLater;
      var eligible := set id | id in runs && runs[id].status.Running?
        && (runs[id].lease.None? || runs[id].lease.value < now)
        && runs[id].task in tasks && Open(tasks[runs[id].task].status);
      assert eligible == EligibleRuns(Db());
      chosen := TakeFirst(eligible, if limit <= 0 then MAX_RECOVER_PER_ORG else limit);
    }

    /** reclaimInOrg: the runs go back to the queue, and each gets a continuation in the same transaction. */
    method ReclaimInOrg(limit: int) returns (recovered: nat, ghost chosen: set<Id>)
      modifies this`runs, this`deliveries
      ensures FirstEligible(old(Db()), limit, chosen) && recovered == |chosen|
      ensures var t := Reclaim(old(Db()), chosen); runs == t.runs && deliveries == t.deliveries
    {
      hide FirstEligible, Continuations;
      var ids := Candidates(limit);
      chosen := ids;
      recovered := |ids|;
      runs := map id | id in runs ::
        if id in ids
        then runs[id].(status := Queued, token := NO_ID, lease := None, attempt := runs[id].attempt + 1)
        else runs[id];
      var rest := ids;
      NoContinuations();
      assert ids - rest == {};
      while rest != {}
        invariant runs == Reclaim(old(Db()), ids).runs
        invariant rest <= ids && deliveries == old(deliveries) + Continuations(ids - rest)
      {
        var id :| id in rest;
        ContinuationsAdd(ids - rest, id);
        assert ids - (rest - {id}) == (ids - rest) + {id};
        deliveries := deliveries + multiset{Delivery(id, Idle)};
        rest := rest - {id};
      }
      assert ids - rest == ids;
    }

    method MoveDelivery(d: Delivery, phase: Phase)
      modifies this`deliveries
      ensures deliveries == old(deliveries) - multiset{d} + multiset{d.(phase := phase)}
    {
      deliveries := deliveries - multiset{d} + multiset{d.(phase := phase)};
    }

    /** What becomes of a question: its row, unless the run is lost, the schema unusable, the row refused,
        or (on conflict do nothing) an earlier attempt's question is there to adopt. */
    method Question(d: Delivery, gate: Id, schema: Schema, respondent: Id) returns (q: Runs.Question)
      requires d.phase.Working?
      ensures (forall g :: !PendingFor(gates, g, d.run)) ==> q == Ask(Db(), d, gate, schema, respondent)
      ensures q.Asked? ==> PendingFor(gates, q.gate, d.run)
      ensures q.New? ==> gate !in gates && q.row.run == d.run && q.row.status.GatePending?
      ensures q.Asked? || q.New? ==> Holding(Db(), d)
      ensures (exists g :: PendingFor(gates, g, d.run)) ==>
        (q.Lost? <==> !Holding(Db(), d)) && (q.Asked? <==> Holding(Db(), d) && Usable(schema)) && !q.New?
    {
      hide ValidSchema;
      var tag := if schema.Absent? then EmptyObject else schema;
      var asked := if respondent == NO_ID then d.phase.owner else respondent;
      if !(d.run in runs && runs[d.run].token == d.phase.token && runs[d.run].status.Running?) {
        return Lost;
      }
      if !Usable(schema) {
        return Unusable;
      }
      var pending := set g | g in gates && gates[g].run == d.run && gates[g].status.GatePending?;
      if pending != {} {
        var g :| g in pending;
        assert PendingFor(gates, g, d.run);
        return Asked(g);
      }
      assert forall g :: PendingFor(gates, g, d.run) ==> g in pending;
      if gate in gates || gate == NO_ID || asked !in principals {
        return Unusable;
      }
      return New(Gate(runs[d.run].task, d.run, tag, asked, 1, GatePending, NotAnObject, NO_ID));
    }

    method WaitOn(d: Delivery, gate: Id)
      requires d.run in runs
      modifies this`runs, this`deliveries
      ensures runs == old(runs)[d.run := AsWaiting(old(runs)[d.run], gate)]
      ensures deliveries == old(deliveries) - multiset{d} + multiset{d.(phase := Returned)}
    {
      runs := runs[d.run := runs[d.run].(status := Waiting, gate := gate, token := NO_ID, lease := None)];
      MoveDelivery(d, Returned);
    }

    method StoreQuestion(d: Delivery, gate: Id, q: Runs.Question)
      requires q.New? || q.Asked? ==> d.run in runs
      modifies this`gates, this`runs, this`deliveries
      ensures var t := ParkWith(old(Db()), d, gate, q);
        gates == t.gates && runs == t.runs && deliveries == t.deliveries
    {
      hide ParkWith, AsWaiting;
      ParkWithIs(Db(), d, gate, q);
      match q {
        case Lost => MoveDelivery(d, Returned);
        case Unusable => MoveDelivery(d, Idle);
        case Asked(g) => WaitOn(d, g);
        case New(row) =>
          gates := gates[gate := row];
          WaitOn(d, gate);
      }
    }

    /** The transaction that parks a run on its question, and what became of the question. Of several that
        are pending the query takes any; by the invariant there is none. */
    method ParkRun(d: Delivery, gate: Id, schema: Schema, respondent: Id) returns (ghost q: Runs.Question)
      requires d.phase.Working?
      modifies this`gates, this`runs, this`deliveries
      ensures if exists g :: PendingFor(old(gates), g, d.run) then
          && (q.Lost? <==> !Holding(old(Db()), d))
          && (q.Asked? <==> Holding(old(Db()), d) && Usable(schema))
          && !q.New? && (q.Asked? ==> PendingFor(old(gates), q.gate, d.run))
        else q == Ask(old(Db()), d, gate, schema, respondent)
      ensures q.New? || q.Asked? ==> d.run in old(runs)
      ensures var t := ParkWith(old(Db()), d, gate, q);
        gates == t.gates && runs == t.runs && deliveries == t.deliveries
    {
      hide Ask, ParkWith, Usable;
      var asked := Question(d, gate, schema, respondent);
      StoreQuestion(d, gate, asked);
      q := asked;
    }

    /** Why a draft is not even looked at. */
    method RefusePublication(d: Delivery, ghost pid: Id, ghost draft: seq<Operation>, ghost ids: seq<Id>)
      returns (refusal: Option<Publication>)
      requires d.phase.Working? && |ids| == |draft|
      ensures refusal.Some? ==> Judge(Db(), d, pid, draft, ids) == refusal.value
      ensures refusal.None? ==> Holding(Db(), d)
      ensures refusal.None? ==>
        Judge(Db(), d, pid, draft, ids)
          == match Proposals.CreateProposal(Db(), pid, runs[d.run].task, d.phase.owner, d.run, draft, ids)
             case Err(e) => Aborted(PublicFailure(e))
             case Ok(t) => Made(t.proposals, t.keys)
      ensures refusal.Some? ==>
        refusal.value.Gone? || refusal.value.TaskUnread? || (refusal.value.Recorded? && Holding(Db(), d))
    {
      hide Proposals.CreateProposal;
      if !(d.run in runs && runs[d.run].token == d.phase.token && runs[d.run].status.Running?) {
        return Some(Gone);
      }
      var run := runs[d.run];
      if run.task !in tasks {
        return Some(TaskUnread);
      }
      if !Open(tasks[run.task].status) {
        return Some(Recorded("task_no_longer_active"));
      }
      if run.release !in releases || !releases[run.release].State().Active? {
        return Some(Recorded("internal_error"));
      }
      if !ActivePrincipal(principals, d.phase.owner) || !ActivePrincipal(principals, run.createdBy) {
        return Some(Recorded("actor_revoked"));
      }
      return None;
    }

    /** How a publication leaves its run and its delivery. */
    method EndPublication(d: Delivery, pid: Id, p: Publication)
      requires d.phase.Working? && (p.Recorded? || p.Made? ==> Holding(Db(), d))
      modifies this`runs, this`deliveries
      ensures var t := PublishWith(old(Db()), d, pid, p); runs == t.runs && deliveries == t.deliveries
    {
      hide PublishWith, AsPublished, AsFailed;
      PublicationCases(Db(), d, pid, p);
      var phase := if p.TaskUnread? then Idle
        else if p.Aborted? then Failing(d.phase.token, d.phase.deadline, p.code) else Returned;
      if p.Recorded? {
        UpdateFailure(d.run, d.phase.token, p.code);
      } else if p.Made? {
        runs := runs[d.run := AsPublished(runs[d.run], pid)];
      }
      MoveDelivery(d, phase);
    }

    /** The transaction that publishes a run's draft. An aborted one leaves the failure to a second. */
    method PublishRun(d: Delivery, pid: Id, ops: array<Operation>, ids: seq<Id>)
      requires d.phase.Working? && |ids| == ops.Length
      modifies this`proposals, this`keys, this`runs, this`deliveries, ops
      ensures var t := Publish(old(Db()), d, pid, old(ops[..]), ids);
        proposals == t.proposals && keys == t.keys && runs == t.runs && deliveries == t.deliveries
    {
      hide Proposals.CreateProposal, Judge, PublishWith;
      ghost var s, draft := Db(), ops[..];
      var refusal := RefusePublication(d, pid, ops[..], ids);
      PublicationProposals(s, d, pid, Judge(s, d, pid, draft, ids));
      if refusal.Some? {
        EndPublication(d, pid, refusal.value);
      } else {
        var failure := CreateProposal(pid, runs[d.run].task, d.phase.owner, d.run, ops, ids);
        if failure.Some? {
          EndPublication(d, pid, Aborted(PublicFailure(failure.value)));
        } else {
          PublicationEnds(s, Db(), d, pid, Made(proposals, keys));
          EndPublication(d, pid, Made(proposals, keys));
        }
      }
    }

    // ---- Admission and releases ------------------------------------------------------------

    /** admissionMissing: what the agent declares and the release does not grant. */
    method AdmissionMissing(agent: Id, release: Id) returns (missing: set<string>)
      requires agent in agents && release in releases
      ensures forall c :: c in missing <==> c in agents[agent].capabilities && c !in releases[release].granted
    {
      missing := {};
      var rest := agents[agent].capabilities;
      while rest != {}
        invariant rest <= agents[agent].capabilities
        invariant forall c ::
          c in missing <==> c in agents[agent].capabilities - rest && c !in releases[release].granted
      {
        var c :| c in rest;
        if c !in releases[release].granted {
          missing := missing + {c};
        }
        rest := rest - {c};
      }
    }

    /** CreateAgentRun; `release` is what the release query returned. */
    method CreateAgentRun(id: Id, task: Id, actor: Id, agent: Id, release: Id, runners: set<string>) returns (ok: bool)
      modifies this`runs, this`deliveries
      ensures var t := CreateRun(old(Db()), id, task, actor, agent, release, runners);
        (ok <==> t.Some?) && (ok ==> runs == t.value.runs && deliveries == t.value.deliveries)
      ensures !ok ==> unchanged(this)
    {
      if agent !in agents || release !in releases {
        return false;
      }
      var rel := releases[release];
      if !rel.harness || !rel.State().Active? || rel.runner != agents[agent].harness || rel.runner !in runners {
        return false;
      }
      var missing := AdmissionMissing(agent, release);
      assert missing == {} <==> agents[agent].capabilities <= rel.granted;
      if missing != {} || task !in tasks {
        return false;
      }
      if tasks[task].owner != actor && !(ActivePrincipal(principals, actor) && principals[actor].role.Admin?) {
        return false;
      }
      if !Open(tasks[task].status) || id == NO_ID || id in runs {
        return false;
      }
      runs := runs[id := Run(task, agent, release, actor, Queued, 0, NO_ID, None, NO_ID, NO_ID, "")];
      deliveries := deliveries + multiset{Delivery(id, Idle)};
      return true;
    }

    /** GrantRegistryCapabilities merges the new capabilities one by one into those granted before. */
    method GrantCapabilities(id: Id, role: Role, caps: seq<string>, expected: int) returns (ok: bool)
      modifies this`releases
      ensures var t := R.Grant(old(Db()), id, role, (set c | c in caps), expected);
        (ok <==> t.Some?) && (ok ==> releases == t.value.releases)
      ensures !ok ==> unchanged(this)
    {
      assert caps != [] ==> caps[0] in (set c | c in caps);
      if !role.Admin? || caps == [] || id !in releases || releases[id].revision != expected {
        return false;
      }
      var merged := releases[id].granted;
      for i := 0 to |caps|
        invariant forall c :: c in merged <==> c in releases[id].granted || c in caps[..i]
      {
        if caps[i] !in merged {
          merged := merged + {caps[i]};
        }
        assert caps[..i + 1] == caps[..i] + [caps[i]];
      }
      assert caps[..|caps|] == caps;
      assert merged == releases[id].granted + (set c | c in caps);
      releases := releases[id := releases[id].(granted := merged, revision := releases[id].revision + 1)];
      return true;
    }

    method TransitionRelease(id: Id, role: Role, target: ReleaseState, expected: int) returns (ok: bool)
      modifies this`releases
      ensures var t := R.Transition(old(Db()), id, role, target, expected);
        (ok <==> t.Some?) && (ok ==> releases == t.value.releases)
      ensures !ok ==> unchanged(this)
    {
      if id !in releases {
        return false;
      }
      var r := releases[id];
      if !R.CanTransition(r.State(), target) || !role.Admin? || r.revision != expected {
        return false;
      }
      if target.Active? {
        if exists o | o in releases :: o != id && releases[o].State().Active? && releases[o].family == r.family {
          return false;
        }
        releases := releases[id := r.(history := r.history + [target], revision := r.revision + 1,
                                      granted := r.requested + r.granted)];
      } else {
        releases := releases[id := r.(history := r.history + [target], revision := r.revision + 1)];
      }
      return true;
    }
  }
}
