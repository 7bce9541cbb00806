/** Endorsing, approving and rejecting proposals (Decide in store.go). */
module Decisions {
  import opened Wrappers
  import opened Connectors
  import opened Tables
  import opened Proposals

  /** The first operation with this id: the only one of several that becomes an effect. */
  function FirstOp(ops: seq<Operation>, id: Id): Option<Operation> {
    if ops == [] then None
    else if ops[0].id == id then Some(ops[0])
    else FirstOp(ops[1..], id)
  }

  /** An effect row for the operation would violate (proposal, operation) or (business operation, operation). */
  predicate EffectConflict(effects: map<EffectKey, Effect>, keys: map<Key, KeyRow>, pid: Id, op: Operation) {
    || EffectKey(pid, op.id) in effects
    || (KeyOf(op) in keys && exists e | e in effects :: e.op == op.id && KeyOf(effects[e].op) == KeyOf(op))
  }

  /** insert into effects ... on conflict do nothing. */
  function InsertEffects(
    effects: map<EffectKey, Effect>, keys: map<Key, KeyRow>, pid: Id, ops: seq<Operation>): map<EffectKey, Effect>
    decreases |ops|
  {
    if ops == [] then effects
    else
      var more := if EffectConflict(effects, keys, pid, ops[0]) then effects
                  else effects[EffectKey(pid, ops[0].id) := Effect(ops[0], Authorized)];
      InsertEffects(more, keys, pid, ops[1..])
  }

  function Dispatch(keys: map<Key, KeyRow>, pid: Id): map<Key, KeyRow> {
    map k | k in keys ::
      if keys[k].proposal == pid && keys[k].status.Reserved? then keys[k].(status := Dispatching) else keys[k]
  }

  function SetStatus(proposals: map<Id, Proposal>, pid: Id, status: ProposalStatus): map<Id, Proposal>
    requires pid in proposals
  {
    proposals[pid := proposals[pid].(status := status)]
  }

  /** The checks before a decision is recorded. */
  predicate MayDecide(s: Db, pid: Id, actor: Id, kind: DecisionKind, revision: int, digest: Digest) {
    && ActivePrincipal(s.principals, actor)
    && pid in s.proposals
    && s.proposals[pid].revision == revision && s.proposals[pid].digest == digest
    && (kind.Endorse? ==> actor == s.proposals[pid].createdBy && s.proposals[pid].status.PendingEndorsement?)
    && (kind.Approve? || kind.Reject? ==>
          actor != s.proposals[pid].createdBy && MayApprove(s.principals[actor].role))
    && !kind.OtherKind?
  }

  /** What recording a decision writes. */
  function WithDecision(s: Db, pid: Id, actor: Id, kind: DecisionKind, revision: int, digest: Digest): Db
    requires actor in s.principals && pid in s.proposals
  {
    var p := s.proposals[pid];
    var status :=
      if kind.Endorse? then PendingApproval
      else if kind.Approve? then Approved
      else if Pending(p.status) then Rejected else p.status;
    s.(decisions := s.decisions[DecisionKey(pid, actor, kind) := Decision(revision, digest, s.principals[actor].role)],
       proposals := SetStatus(s.proposals, pid, status),
       keys := if kind.Approve? then Dispatch(s.keys, pid)
         else if kind.Reject? then ReleaseKeys(s.keys, pid) else s.keys,
       effects := if kind.Approve? then InsertEffects(s.effects, s.keys, pid, p.ops) else s.effects,
       jobs := if kind.Approve? then s.jobs + multiset{Job(pid, Delivered)} else s.jobs)
  }

  /** A repeated decision is accepted and changes nothing. */
  function Decide(s: Db, pid: Id, actor: Id, kind: DecisionKind, revision: int, digest: Digest): Option<Db> {
    if !MayDecide(s, pid, actor, kind, revision, digest) then None
    else if DecisionKey(pid, actor, kind) in s.decisions then Some(s)
    else
      var p := s.proposals[pid];
      if kind.Approve?
        && ((p.task in s.tasks && s.tasks[p.task].status.TaskCancelled?) || !p.status.PendingApproval?) then None
      else Some(WithDecision(s, pid, actor, kind, revision, digest))
  }

  // ---- What the tables keep ------------------------------------------------------------------

  /** Every decision was made on the proposal as it stands, by someone entitled to make it. */
  ghost predicate DecisionsOk(proposals: map<Id, Proposal>, decisions: map<DecisionKey, Decision>) {
    && (forall d | d in decisions ::
          && d.proposal in proposals
          && decisions[d].revision == proposals[d.proposal].revision
          && decisions[d].digest == proposals[d.proposal].digest
          && (d.kind.Endorse? ==> d.actor == proposals[d.proposal].createdBy)
          && (d.kind.Approve? ==> d.actor != proposals[d.proposal].createdBy && MayApprove(decisions[d].role)))
    && (forall p | p in proposals ::
          && (Pending(proposals[p].status) ==> !EverApproved(decisions, p))
          && (proposals[p].status.Approved? || proposals[p].status.ProposalDone?
              || proposals[p].status.NeedsAttention? ==>
                EverApproved(decisions, p))
          && (proposals[p].status.PendingApproval? || EverApproved(decisions, p) ==>
                Endorsed(decisions, p, proposals[p].createdBy)))
  }

  /** Every effect is the operation an approved proposal lists under its id; it is verified exactly when
      the proposal is done, and an approved proposal has them all, still authorised. */
  ghost predicate EffectsOk(
    proposals: map<Id, Proposal>, decisions: map<DecisionKey, Decision>, effects: map<EffectKey, Effect>)
  {
    && (forall e | e in effects ::
          && e.proposal in proposals
          && EverApproved(decisions, e.proposal)
          && FirstOp(proposals[e.proposal].ops, e.op) == Some(effects[e].op)
          && (effects[e].state.Verified? <==> proposals[e.proposal].status.ProposalDone?)
          && (proposals[e.proposal].status.Approved? ==> effects[e].state.Authorized?))
    && (forall p | p in proposals && (proposals[p].status.Approved? || proposals[p].status.ProposalDone?) ::
          HasAllEffects(effects, p, proposals[p].ops))
  }

  ghost predicate RejectDecided(decisions: map<DecisionKey, Decision>, proposal: Id) {
    exists actor :: DecisionKey(proposal, actor, Reject) in decisions
  }

  /** The status of a key tells exactly what became of the proposal it is bound to. */
  ghost predicate KeyRowOk(proposals: map<Id, Proposal>, decisions: map<DecisionKey, Decision>, row: KeyRow) {
    && row.proposal in proposals
    && (row.status.KeyVerified? <==> proposals[row.proposal].status.ProposalDone?)
    && (row.status.Dispatching? || row.status.KeyVerified? <==> EverApproved(decisions, row.proposal))
    && (row.status.Released? ==> RejectDecided(decisions, row.proposal))
    && (row.status.Reserved? ==> !RejectDecided(decisions, row.proposal))
  }

  ghost predicate KeyRowsOk(
    proposals: map<Id, Proposal>, decisions: map<DecisionKey, Decision>, keys: map<Key, KeyRow>)
  {
    && (forall k | k in keys :: KeyRowOk(proposals, decisions, keys[k]))
    && (forall p | p in proposals && Pending(proposals[p].status) :: !RejectDecided(decisions, p))
  }

  ghost predicate HasAllEffects(effects: map<EffectKey, Effect>, pid: Id, ops: seq<Operation>) {
    forall i | 0 <= i < |ops| :: EffectKey(pid, ops[i].id) in effects
  }

  lemma {:induction false} FirstOpIs(ops: seq<Operation>, id: Id)
    ensures FirstOp(ops, id).Some? <==> exists i :: 0 <= i < |ops| && ops[i].id == id
    ensures FirstOp(ops, id).Some? ==>
      exists i :: 0 <= i < |ops| && ops[i] == FirstOp(ops, id).value && ops[i].id == id
        && forall j | 0 <= j < i :: ops[j].id != id
  {
    if ops != [] {
      assert forall i | 0 <= i < |ops[1..]| :: ops[i + 1] == ops[1..][i];
      if ops[0].id == id {
        assert ops[0] == FirstOp(ops, id).value;
      } else {
        FirstOpIs(ops[1..], id);
        assert forall i | 1 <= i < |ops| :: ops[i] == ops[1..][i - 1];
        if FirstOp(ops, id).Some? {
          var i :| 0 <= i < |ops[1..]| && ops[1..][i] == FirstOp(ops[1..], id).value && ops[1..][i].id == id
            && forall j | 0 <= j < i :: ops[1..][j].id != id;
          assert ops[i + 1] == FirstOp(ops, id).value;
        }
      }
    }
  }

  /** What inserting a proposal's effects does, when no other proposal shares a key with it. */
  lemma {:induction false} InsertEffectsIs(
    effects: map<EffectKey, Effect>, keys: map<Key, KeyRow>, pid: Id, ops: seq<Operation>)
    requires forall e, i | e in effects && e.proposal != pid && 0 <= i < |ops| ::
      KeyOf(effects[e].op) != KeyOf(ops[i])
    ensures var after := InsertEffects(effects, keys, pid, ops);
      && (forall e | e in effects :: e in after && after[e] == effects[e])
      && (forall e | e in after && e !in effects ::
            e.proposal == pid && FirstOp(ops, e.op).Some? && after[e] == Effect(FirstOp(ops, e.op).value, Authorized))
      && HasAllEffects(after, pid, ops)
    decreases |ops|
  {
    if ops != [] {
      var op := ops[0];
      var more := if EffectConflict(effects, keys, pid, op) then effects
                  else effects[EffectKey(pid, op.id) := Effect(op, Authorized)];
      assert forall e | e in effects && e.op == op.id && KeyOf(effects[e].op) == KeyOf(op) ::
        e == EffectKey(pid, op.id);
      forall e, i | e in more && e.proposal != pid && 0 <= i < |ops[1..]|
        ensures KeyOf(more[e].op) != KeyOf(ops[1..][i])
      {
        assert ops[1..][i] == ops[i + 1];
      }
      InsertEffectsIs(more, keys, pid, ops[1..]);
      var after := InsertEffects(effects, keys, pid, ops);
      forall i | 0 <= i < |ops| ensures EffectKey(pid, ops[i].id) in after {
        if i > 0 {
          assert ops[i] == ops[1..][i - 1];
        }
      }
    }
  }

  /** An operation of an approved proposal becomes an effect exactly when none before it has its id: of
      several given one id, all but the first are silently dropped. */
  lemma RepeatedIdLosesEffect(
    effects: map<EffectKey, Effect>, keys: map<Key, KeyRow>, pid: Id, ops: seq<Operation>, j: nat)
    requires forall e | e in effects :: e.proposal != pid
    requires forall e, i | e in effects && 0 <= i < |ops| :: KeyOf(effects[e].op) != KeyOf(ops[i])
    requires DistinctKeys(ops) && j < |ops|
    ensures var after := InsertEffects(effects, keys, pid, ops);
      (exists e | e in after :: after[e].op == ops[j]) <==> forall i | 0 <= i < j :: ops[i].id != ops[j].id
  {
    hide InsertEffects, DistinctKeys;
    var after := InsertEffects(effects, keys, pid, ops);
    InsertEffectsIs(effects, keys, pid, ops);
    FirstOpIs(ops, ops[j].id);
    if forall i | 0 <= i < j :: ops[i].id != ops[j].id {
      assert FirstOp(ops, ops[j].id) == Some(ops[j]);
      assert after[EffectKey(pid, ops[j].id)].op == ops[j];
    }
    forall e | e in after && after[e].op == ops[j] ensures forall i | 0 <= i < j :: ops[i].id != ops[j].id {
      FirstOpIs(ops, e.op);
      var k :| 0 <= k < |ops| && ops[k] == after[e].op && ops[k].id == e.op
        && forall i | 0 <= i < k :: ops[i].id != e.op;
      SameOperation(ops, k, j);
    }
  }

  lemma SameOperation(ops: seq<Operation>, i: nat, j: nat)
    requires DistinctKeys(ops) && i < |ops| && j < |ops| && ops[i] == ops[j]
    ensures i == j
  {
  }

  /** The effects of other proposals never stand in the way: approved proposals share no key. */
  lemma NoForeignConflict(
    proposals: map<Id, Proposal>, decisions: map<DecisionKey, Decision>, keys: map<Key, KeyRow>,
    effects: map<EffectKey, Effect>, pid: Id)
    requires pid in proposals && Pending(proposals[pid].status)
    requires KeysOk(proposals, decisions, keys) && EffectsOk(proposals, decisions, effects)
    ensures forall e, i | e in effects && e.proposal != pid && 0 <= i < |proposals[pid].ops| ::
      KeyOf(effects[e].op) != KeyOf(proposals[pid].ops[i])
  {
    forall e, i | e in effects && e.proposal != pid && 0 <= i < |proposals[pid].ops|
      ensures KeyOf(effects[e].op) != KeyOf(proposals[pid].ops[i])
    {
      var other := proposals[e.proposal].ops;
      FirstOpIs(other, e.op);
      var j :| 0 <= j < |other| && other[j] == effects[e].op;
      var actor :| DecisionKey(e.proposal, actor, Approve) in decisions;
      assert HoldsAll(keys, DecisionKey(e.proposal, actor, Approve).proposal, other, true);
      assert Holds(keys, e.proposal, other[j], true);
      assert Holds(keys, pid, proposals[pid].ops[i], false);
    }
  }

  ghost predicate Core(s: Db) {
    && RowsOk(s.tasks, s.proposals)
    && OneLive(s.proposals)
    && AllOpsOk(s.records, s.proposals)
    && KeysOk(s.proposals, s.decisions, s.keys)
    && DecisionsOk(s.proposals, s.decisions)
    && EffectsOk(s.proposals, s.decisions, s.effects)
  }

  /** A status change that makes no proposal live again. */
  lemma SetStatusKeeps(
    tasks: map<Id, Task>, records: map<Id, Record>, proposals: map<Id, Proposal>, pid: Id, status: ProposalStatus)
    requires pid in proposals
    requires RowsOk(tasks, proposals) && OneLive(proposals) && AllOpsOk(records, proposals)
    requires Live(status) ==> Live(proposals[pid].status)
    requires status.Executing? ==> proposals[pid].status.Executing?
    requires status.ProposalDone? ==> proposals[pid].status.ProposalDone?
    ensures var after := SetStatus(proposals, pid, status);
      RowsOk(tasks, after) && OneLive(after) && AllOpsOk(records, after)
  {
  }

  /** Adding a row leaves the other decisions of every proposal as they were. */
  lemma DecisionAdded(decisions: map<DecisionKey, Decision>, key: DecisionKey, d: Decision)
    ensures forall p :: EverApproved(decisions[key := d], p) <==>
      EverApproved(decisions, p) || (key.kind.Approve? && p == key.proposal)
    ensures forall p, a :: Endorsed(decisions[key := d], p, a) <==>
      Endorsed(decisions, p, a) || (key.kind.Endorse? && p == key.proposal && a == key.actor)
  {
    var after := decisions[key := d];
    forall p
      ensures EverApproved(after, p) <==> EverApproved(decisions, p) || (key.kind.Approve? && p == key.proposal)
    {
      if a :| DecisionKey(p, a, Approve) in decisions {
        assert DecisionKey(p, a, Approve) in after;
      }
      if key.kind.Approve? && p == key.proposal {
        assert DecisionKey(p, key.actor, Approve) in after;
      }
    }
  }

  /** Keys of once approved proposals are beyond the reach of ReleaseKeys and Dispatch. */
  lemma HeldStays(
    proposals: map<Id, Proposal>, decisions: map<DecisionKey, Decision>,
    keys: map<Key, KeyRow>, after: map<Key, KeyRow>)
    requires KeysOk(proposals, decisions, keys)
    requires forall k | k in keys && !keys[k].status.Reserved? :: k in after && after[k] == keys[k]
    ensures forall d | d in decisions && d.kind.Approve? && d.proposal in proposals ::
      HoldsAll(after, d.proposal, proposals[d.proposal].ops, true)
  {
    forall d | d in decisions && d.kind.Approve? && d.proposal in proposals
      ensures HoldsAll(after, d.proposal, proposals[d.proposal].ops, true)
    {
      var ops := proposals[d.proposal].ops;
      forall i | 0 <= i < |ops| ensures Holds(after, d.proposal, ops[i], true) {
        assert Holds(keys, d.proposal, ops[i], true);
      }
    }
  }

  /** Neither ReleaseKeys nor Dispatch of one proposal touches the keys another pending one holds. */
  lemma PendingStays(
    proposals: map<Id, Proposal>, decisions: map<DecisionKey, Decision>,
    keys: map<Key, KeyRow>, after: map<Key, KeyRow>, pid: Id)
    requires KeysOk(proposals, decisions, keys)
    requires forall k | k in keys && keys[k].proposal != pid :: k in after && after[k] == keys[k]
    ensures forall p | p in proposals && p != pid && Pending(proposals[p].status) ::
      HoldsAll(after, p, proposals[p].ops, false)
  {
    forall p | p in proposals && p != pid && Pending(proposals[p].status)
      ensures HoldsAll(after, p, proposals[p].ops, false)
    {
      var ops := proposals[p].ops;
      forall i | 0 <= i < |ops| ensures Holds(after, p, ops[i], false) {
        assert Holds(keys, p, ops[i], false);
      }
    }
  }

  lemma EndorseKeepsKeys(
    proposals: map<Id, Proposal>, decisions: map<DecisionKey, Decision>, keys: map<Key, KeyRow>,
    key: DecisionKey, d: Decision)
    requires key.proposal in proposals && proposals[key.proposal].status.PendingEndorsement? && key.kind.Endorse?
    requires KeysOk(proposals, decisions, keys)
    ensures KeysOk(SetStatus(proposals, key.proposal, PendingApproval), decisions[key := d], keys)
  {
  }

  lemma RejectKeepsKeys(
    proposals: map<Id, Proposal>, decisions: map<DecisionKey, Decision>, keys: map<Key, KeyRow>,
    key: DecisionKey, d: Decision, status: ProposalStatus)
    requires key.proposal in proposals && !Pending(status) && key.kind.Reject?
    requires KeysOk(proposals, decisions, keys)
    ensures KeysOk(SetStatus(proposals, key.proposal, status), decisions[key := d], ReleaseKeys(keys, key.proposal))
  {
    HeldStays(proposals, decisions, keys, ReleaseKeys(keys, key.proposal));
    PendingStays(proposals, decisions, keys, ReleaseKeys(keys, key.proposal), key.proposal);
  }

  lemma ApproveKeepsKeys(
    proposals: map<Id, Proposal>, decisions: map<DecisionKey, Decision>, keys: map<Key, KeyRow>,
    key: DecisionKey, d: Decision)
    requires key.proposal in proposals && proposals[key.proposal].status.PendingApproval? && key.kind.Approve?
    requires KeysOk(proposals, decisions, keys)
    ensures KeysOk(SetStatus(proposals, key.proposal, Approved), decisions[key := d], Dispatch(keys, key.proposal))
  {
    var pid := key.proposal;
    var ops := proposals[pid].ops;
    HeldStays(proposals, decisions, keys, Dispatch(keys, pid));
    PendingStays(proposals, decisions, keys, Dispatch(keys, pid), pid);
    forall i | 0 <= i < |ops| ensures Holds(Dispatch(keys, pid), pid, ops[i], true) {
      assert Holds(keys, pid, ops[i], false);
    }
    assert HoldsAll(Dispatch(keys, pid), pid, ops, true);
  }

  /** Adding a decision that is not an approval. */
  lemma OtherDecisionKeeps(
    proposals: map<Id, Proposal>, decisions: map<DecisionKey, Decision>, effects: map<EffectKey, Effect>,
    key: DecisionKey, d: Decision, status: ProposalStatus)
    requires key.proposal in proposals && (key.kind.Endorse? || key.kind.Reject?)
    requires d.revision == proposals[key.proposal].revision && d.digest == proposals[key.proposal].digest
    requires key.kind.Endorse? ==> key.actor == proposals[key.proposal].createdBy
    requires DecisionsOk(proposals, decisions) && EffectsOk(proposals, decisions, effects)
    requires status == proposals[key.proposal].status
      || (Pending(proposals[key.proposal].status)
        && (status.Rejected? || (status.PendingApproval? && key.kind.Endorse?)))
    ensures DecisionsOk(SetStatus(proposals, key.proposal, status), decisions[key := d])
    ensures EffectsOk(SetStatus(proposals, key.proposal, status), decisions[key := d], effects)
  {
    hide EverApproved, FirstOp, HasAllEffects, EffectsOk;
    DecisionAdded(decisions, key, d);
    OtherDecisionKeepsEffects(proposals, decisions, effects, key, d, status);
  }

  lemma OtherDecisionKeepsEffects(
    proposals: map<Id, Proposal>, decisions: map<DecisionKey, Decision>, effects: map<EffectKey, Effect>,
    key: DecisionKey, d: Decision, status: ProposalStatus)
    requires key.proposal in proposals && (key.kind.Endorse? || key.kind.Reject?)
    requires EffectsOk(proposals, decisions, effects)
    requires status == proposals[key.proposal].status
      || (Pending(proposals[key.proposal].status) && (status.Rejected? || status.PendingApproval?))
    ensures EffectsOk(SetStatus(proposals, key.proposal, status), decisions[key := d], effects)
  {
    hide EverApproved, FirstOp, HasAllEffects;
    DecisionAdded(decisions, key, d);
  }

  lemma ApproveKeepsDecisions(
    proposals: map<Id, Proposal>, decisions: map<DecisionKey, Decision>, key: DecisionKey, d: Decision)
    requires key.proposal in proposals && proposals[key.proposal].status.PendingApproval? && key.kind.Approve?
    requires d.revision == proposals[key.proposal].revision && d.digest == proposals[key.proposal].digest
    requires key.actor != proposals[key.proposal].createdBy && MayApprove(d.role)
    requires DecisionsOk(proposals, decisions)
    ensures DecisionsOk(SetStatus(proposals, key.proposal, Approved), decisions[key := d])
  {
    DecisionAdded(decisions, key, d);
  }

  lemma ApproveKeepsEffects(
    proposals: map<Id, Proposal>, decisions: map<DecisionKey, Decision>,
    effects: map<EffectKey, Effect>, more: map<EffectKey, Effect>, key: DecisionKey, d: Decision)
    requires key.proposal in proposals && key.kind.Approve?
    requires !EverApproved(decisions, key.proposal)
    requires EffectsOk(proposals, decisions, effects)
    requires forall e | e in effects :: e in more && more[e] == effects[e]
    requires forall e | e in more && e !in effects ::
      && e.proposal == key.proposal
      && FirstOp(proposals[key.proposal].ops, e.op).Some?
      && more[e] == Effect(FirstOp(proposals[key.proposal].ops, e.op).value, Authorized)
    requires HasAllEffects(more, key.proposal, proposals[key.proposal].ops)
    ensures EffectsOk(SetStatus(proposals, key.proposal, Approved), decisions[key := d], more)
  {
    DecisionAdded(decisions, key, d);
    var after := SetStatus(proposals, key.proposal, Approved);
    forall p | p in after && p != key.proposal && (after[p].status.Approved? || after[p].status.ProposalDone?)
      ensures HasAllEffects(more, p, after[p].ops)
    {
      assert HasAllEffects(effects, p, proposals[p].ops);
    }
  }

  /** Every decision keeps the core: an approval turns exactly the approved operations into effects. */
  lemma DecideKeeps(s: Db, t: Db, pid: Id, actor: Id, kind: DecisionKind, revision: int, digest: Digest)
    requires Core(s) && Decide(s, pid, actor, kind, revision, digest) == Some(t)
    ensures Core(t)
  {
    hide RowsOk, OneLive, AllOpsOk, KeysOk, DecisionsOk, EffectsOk, InsertEffects, Dispatch, ReleaseKeys;
    if DecisionKey(pid, actor, kind) !in s.decisions {
      var key := DecisionKey(pid, actor, kind);
      var d := Decision(revision, digest, s.principals[actor].role);
      SetStatusKeeps(s.tasks, s.records, s.proposals, pid, t.proposals[pid].status);
      if kind.Approve? {
        ApproveKeepsKeys(s.proposals, s.decisions, s.keys, key, d);
        ApproveKeepsDecisions(s.proposals, s.decisions, key, d);
        NoForeignConflict(s.proposals, s.decisions, s.keys, s.effects, pid);
        InsertEffectsIs(s.effects, s.keys, pid, s.proposals[pid].ops);
        FirstApproval(s.proposals, s.decisions, pid);
        ApproveKeepsEffects(s.proposals, s.decisions, s.effects, t.effects, key, d);
      } else {
        OtherDecisionKeeps(s.proposals, s.decisions, s.effects, key, d, t.proposals[pid].status);
        if kind.Endorse? {
          EndorseKeepsKeys(s.proposals, s.decisions, s.keys, key, d);
        } else {
          RejectKeepsKeys(s.proposals, s.decisions, s.keys, key, d, t.proposals[pid].status);
        }
      }
    }
  }

  lemma FirstApproval(proposals: map<Id, Proposal>, decisions: map<DecisionKey, Decision>, pid: Id)
    requires DecisionsOk(proposals, decisions) && pid in proposals && Pending(proposals[pid].status)
    ensures !EverApproved(decisions, pid)
  {
  }

  /** A new proposal leaves every decision and every effect justified. */
  lemma NewProposalKeepsDecisions(
    proposals: map<Id, Proposal>, decisions: map<DecisionKey, Decision>, effects: map<EffectKey, Effect>,
    pid: Id, row: Proposal)
    requires pid !in proposals && row.status.PendingEndorsement?
    requires DecisionsOk(proposals, decisions) && EffectsOk(proposals, decisions, effects)
    ensures DecisionsOk(Supersede(proposals, row.task)[pid := row], decisions)
    ensures EffectsOk(Supersede(proposals, row.task)[pid := row], decisions, effects)
  {
    hide EverApproved, Endorsed, FirstOp, HasAllEffects, EffectsOk;
    NotApproved(proposals, decisions, pid);
    NewProposalKeepsEffects(proposals, decisions, effects, pid, row);
  }

  lemma NotApproved(proposals: map<Id, Proposal>, decisions: map<DecisionKey, Decision>, pid: Id)
    requires DecisionsOk(proposals, decisions) && pid !in proposals
    ensures !EverApproved(decisions, pid)
  {
  }

  lemma NewProposalKeepsEffects(
    proposals: map<Id, Proposal>, decisions: map<DecisionKey, Decision>, effects: map<EffectKey, Effect>,
    pid: Id, row: Proposal)
    requires pid !in proposals && row.status.PendingEndorsement? && EffectsOk(proposals, decisions, effects)
    ensures EffectsOk(Supersede(proposals, row.task)[pid := row], decisions, effects)
  {
    hide EverApproved, FirstOp, HasAllEffects;
  }

  lemma CreateKeepsCore(
    s: Db, t: Db, pid: Id, task: Id, actor: Id, origin: Id, draft: seq<Operation>, ids: seq<Id>)
    requires |ids| == |draft| && CreateProposal(s, pid, task, actor, origin, draft, ids) == Ok(t) && Core(s)
    ensures Core(t)
  {
    hide RowsOk, OneLive, AllOpsOk, KeysOk, EffectsOk, ReserveAll, FirstFault;
    CreateProposalKeeps(s, pid, task, actor, origin, draft, ids);
    NewProposalKeepsDecisions(s.proposals, s.decisions, s.effects, pid,
                              NewRow(s, task, actor, origin, WithIds(draft, ids)));
  }

  // ---- The status of keys --------------------------------------------------------------------

  lemma RejectionAdded(decisions: map<DecisionKey, Decision>, key: DecisionKey, d: Decision)
    ensures forall p :: RejectDecided(decisions[key := d], p) <==>
      RejectDecided(decisions, p) || (key.kind.Reject? && p == key.proposal)
  {
    var after := decisions[key := d];
    forall p
      ensures RejectDecided(after, p) <==> RejectDecided(decisions, p) || (key.kind.Reject? && p == key.proposal)
    {
      if a :| DecisionKey(p, a, Reject) in decisions {
        assert DecisionKey(p, a, Reject) in after;
      }
      if key.kind.Reject? && p == key.proposal {
        assert DecisionKey(p, key.actor, Reject) in after;
      }
    }
  }

  lemma CreatedKeepsKeyRows(
    s: Db, t: Db, pid: Id, task: Id, actor: Id, origin: Id, draft: seq<Operation>, ids: seq<Id>)
    requires |ids| == |draft| && CreateProposal(s, pid, task, actor, origin, draft, ids) == Ok(t)
    requires DecisionsOk(s.proposals, s.decisions) && KeyRowsOk(s.proposals, s.decisions, s.keys)
    ensures KeyRowsOk(t.proposals, t.decisions, t.keys)
  {
    hide EverApproved, RejectDecided, ReserveAll, FirstFault, Greatest, Revisions, DecisionsOk;
    var ops := WithIds(draft, ids);
    ReserveAllEffect(t.proposals, s.keys, pid, ops);
    Undecided(s.proposals, s.decisions, pid);
    forall k | k in t.keys ensures KeyRowOk(t.proposals, t.decisions, t.keys[k]) {
      if k in s.keys && t.keys[k] == s.keys[k] {
        assert KeyRowOk(s.proposals, s.decisions, s.keys[k]);
      }
    }
  }

  lemma Undecided(proposals: map<Id, Proposal>, decisions: map<DecisionKey, Decision>, pid: Id)
    requires DecisionsOk(proposals, decisions) && pid !in proposals
    ensures !EverApproved(decisions, pid) && !RejectDecided(decisions, pid)
  {
  }

  lemma DecidedKeepsKeyRows(s: Db, t: Db, pid: Id, actor: Id, kind: DecisionKind, revision: int, digest: Digest)
    requires Decide(s, pid, actor, kind, revision, digest) == Some(t)
    requires DecisionsOk(s.proposals, s.decisions) && KeyRowsOk(s.proposals, s.decisions, s.keys)
    ensures KeyRowsOk(t.proposals, t.decisions, t.keys)
  {
    hide KeyRowsOk, InsertEffects, DecisionsOk, Dispatch, ReleaseKeys, SetStatus;
    var key := DecisionKey(pid, actor, kind);
    if key !in s.decisions {
      var d := Decision(revision, digest, s.principals[actor].role);
      NotYetApproved(s.proposals, s.decisions);
      if kind.Endorse? {
        EndorseKeepsKeyRows(s.proposals, s.decisions, s.keys, key, d);
      } else if kind.Reject? {
        RejectKeepsKeyRows(s.proposals, s.decisions, s.keys, key, d);
      } else {
        ApproveKeepsKeyRows(s.proposals, s.decisions, s.keys, key, d);
      }
    }
  }

  lemma EndorseKeepsKeyRows(
    proposals: map<Id, Proposal>, decisions: map<DecisionKey, Decision>, keys: map<Key, KeyRow>,
    key: DecisionKey, d: Decision)
    requires key.proposal in proposals && proposals[key.proposal].status.PendingEndorsement? && key.kind.Endorse?
    requires KeyRowsOk(proposals, decisions, keys)
    ensures KeyRowsOk(SetStatus(proposals, key.proposal, PendingApproval), decisions[key := d], keys)
  {
    hide EverApproved, RejectDecided;
    DecisionAdded(decisions, key, d);
    RejectionAdded(decisions, key, d);
  }

  lemma RejectKeepsKeyRows(
    proposals: map<Id, Proposal>, decisions: map<DecisionKey, Decision>, keys: map<Key, KeyRow>,
    key: DecisionKey, d: Decision)
    requires key.proposal in proposals && key.kind.Reject?
    requires KeyRowsOk(proposals, decisions, keys)
    ensures KeyRowsOk(
      SetStatus(proposals, key.proposal,
        if Pending(proposals[key.proposal].status) then Rejected else proposals[key.proposal].status),
      decisions[key := d], ReleaseKeys(keys, key.proposal))
  {
    hide EverApproved, RejectDecided;
    DecisionAdded(decisions, key, d);
    RejectionAdded(decisions, key, d);
  }

  lemma ApproveKeepsKeyRows(
    proposals: map<Id, Proposal>, decisions: map<DecisionKey, Decision>, keys: map<Key, KeyRow>,
    key: DecisionKey, d: Decision)
    requires key.proposal in proposals && proposals[key.proposal].status.PendingApproval? && key.kind.Approve?
    requires KeyRowsOk(proposals, decisions, keys) && !EverApproved(decisions, key.proposal)
    ensures KeyRowsOk(
      SetStatus(proposals, key.proposal, Approved), decisions[key := d], Dispatch(keys, key.proposal))
  {
    hide EverApproved, RejectDecided;
    DecisionAdded(decisions, key, d);
    RejectionAdded(decisions, key, d);
  }

  lemma NotYetApproved(proposals: map<Id, Proposal>, decisions: map<DecisionKey, Decision>)
    requires DecisionsOk(proposals, decisions)
    ensures forall p | p in proposals && Pending(proposals[p].status) :: !EverApproved(decisions, p)
    ensures forall p | p in proposals && !Pending(proposals[p].status) && !EverApproved(decisions, p) ::
      proposals[p].status.Rejected? || proposals[p].status.Superseded? || proposals[p].status.Executing?
  {
    hide EverApproved, Endorsed;
  }
}
