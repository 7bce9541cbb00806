/** Creating proposals and reserving their business keys (store.go, business_operations.go). */
module Proposals {
  import opened Wrappers
  import opened Connectors
  import opened Tables

  /** Why createProposalTx refuses. Only a ConnectorFault carries a connectors error value; the source
      builds its own error for a stale version or an unsupported operation. */
  datatype CreateError =
    | TaskMissing | NotOwner | TerminalTask | BadShape | RunScopedKey | Unsupported
    | RecordMissing | StaleRecord | ConnectorFault(cause: ConnectorError) | DuplicateId
    | BadKey | DifferentContent | KeyClaimed

  datatype Result<+T> = Ok(value: T) | Err(error: CreateError)

  // ---- Business keys -------------------------------------------------------------------------

  predicate KeyHead(c: char) {
    'A' <= c <= 'Z' || 'a' <= c <= 'z' || '0' <= c <= '9' || c == '+'
  }

  predicate KeyTail(c: char) {
    KeyHead(c) || c == '.' || c == '_' || c == ':' || c == '/' || c == '@' || c == '-'
  }

  predicate ValidBusinessKey(k: string) {
    1 <= |k| <= 200 && KeyHead(k[0]) && forall i | 1 <= i < |k| :: KeyTail(k[i])
  }

  predicate Contains(s: string, part: string) {
    part <= s || (s != [] && Contains(s[1..], part))
  }

  /** May a proposal of `task` take over this row? */
  predicate Rebindable(proposals: map<Id, Proposal>, row: KeyRow, task: Id) {
    || row.status.Released?
    || (row.status.Reserved? && row.proposal != NO_ID && row.proposal in proposals
        && (|| proposals[row.proposal].status.Rejected?
            || (proposals[row.proposal].status.Superseded? && proposals[row.proposal].task == task)))
  }

  function Reserve(proposals: map<Id, Proposal>, keys: map<Key, KeyRow>, pid: Id, op: Operation)
    : Result<map<Key, KeyRow>>
    requires pid in proposals
  {
    var key := KeyOf(op);
    if !ValidBusinessKey(op.businessKey) then Err(BadKey)
    else if key !in keys then Ok(keys[key := KeyRow(FingerprintOf(op), pid, Reserved)])
    else if keys[key].fingerprint != FingerprintOf(op) then Err(DifferentContent)
    else if !Rebindable(proposals, keys[key], proposals[pid].task) then Err(KeyClaimed)
    else Ok(keys[key := KeyRow(FingerprintOf(op), pid, Reserved)])
  }

  function ReserveAll(proposals: map<Id, Proposal>, keys: map<Key, KeyRow>, pid: Id, ops: seq<Operation>)
    : Result<map<Key, KeyRow>>
    requires pid in proposals
    decreases |ops|
  {
    if ops == [] then Ok(keys)
    else
      match Reserve(proposals, keys, pid, ops[0])
      case Err(e) => Err(e)
      case Ok(more) => ReserveAll(proposals, more, pid, ops[1..])
  }

  function ReleaseKeys(keys: map<Key, KeyRow>, pid: Id): map<Key, KeyRow> {
    map k | k in keys ::
      if keys[k].proposal == pid && keys[k].status.Reserved? then keys[k].(status := Released) else keys[k]
  }

  // ---- Creating a proposal -------------------------------------------------------------------

  function WithIds(ops: seq<Operation>, ids: seq<Id>): seq<Operation>
    requires |ids| == |ops|
  {
    seq(|ops|, i requires 0 <= i < |ops| => if ops[i].id == NO_ID then ops[i].(id := ids[i]) else ops[i])
  }

  /** The checks createProposalTx makes on one operation, in its order. */
  function OperationFault(records: map<Id, Record>, origin: Id, op: Operation): Option<CreateError> {
    if op.integration == "" || op.action == "" || op.target == NO_ID || op.expectedVersion < 1 then Some(BadShape)
    else if origin != NO_ID && Contains(op.businessKey, IdText(origin)) then Some(RunScopedKey)
    else if !Supported(op.integration, op.action) then Some(Unsupported)
    else if op.target !in records then Some(RecordMissing)
    else if op.expectedVersion != records[op.target].version then Some(StaleRecord)
    else
      match Prepare(op.target, records[op.target], op)
      case Refused(e) => Some(ConnectorFault(e))
      case Ready(_) => None
  }

  function FirstFault(records: map<Id, Record>, origin: Id, ops: seq<Operation>): Option<CreateError> {
    if ops == [] then None
    else if OperationFault(records, origin, ops[0]).Some? then OperationFault(records, origin, ops[0])
    else FirstFault(records, origin, ops[1..])
  }

  function Supersede(proposals: map<Id, Proposal>, task: Id): map<Id, Proposal> {
    map p | p in proposals ::
      if proposals[p].task == task && Live(proposals[p].status) then proposals[p].(status := Superseded)
      else proposals[p]
  }

  function Revisions(proposals: map<Id, Proposal>, task: Id): set<int> {
    set p | p in proposals && proposals[p].task == task :: proposals[p].revision
  }

  /** select coalesce(max(revision),0): revisions start at 1. */
  ghost function Greatest(revisions: set<int>): (m: int)
    ensures forall r | r in revisions :: r <= m
    ensures m == 0 || m in revisions
    ensures m >= 0
  {
    if r :| r in revisions then
      assert revisions == (revisions - {r}) + {r};
      var rest := Greatest(revisions - {r});
      if r > rest then r else rest
    else 0
  }

  lemma GreatestIs(revisions: set<int>, m: int)
    requires m >= 0 && (m == 0 || m in revisions)
    requires forall r | r in revisions :: r <= m
    ensures m == Greatest(revisions)
  {
  }

  /** The row createProposalTx inserts. */
  ghost function NewRow(s: Db, task: Id, actor: Id, origin: Id, ops: seq<Operation>): Proposal {
    Proposal(task, Greatest(Revisions(s.proposals, task)) + 1, DigestOf(ops), PendingEndorsement, ops, actor, origin)
  }

  ghost function CreateProposal(
    s: Db, pid: Id, task: Id, actor: Id, origin: Id, draft: seq<Operation>, ids: seq<Id>): Result<Db>
    requires |ids| == |draft|
  {
    var ops := WithIds(draft, ids);
    if task !in s.tasks then Err(TaskMissing)
    else if s.tasks[task].owner != actor then Err(NotOwner)
    else if !Open(s.tasks[task].status) then Err(TerminalTask)
    else if FirstFault(s.records, origin, ops).Some? then Err(FirstFault(s.records, origin, ops).value)
    else if pid == NO_ID || pid in s.proposals then Err(DuplicateId)
    else
      var proposals := Supersede(s.proposals, task)[pid := NewRow(s, task, actor, origin, ops)];
      match ReserveAll(proposals, s.keys, pid, ops)
      case Err(e) => Err(e)
      case Ok(keys) => Ok(s.(proposals := proposals, keys := keys))
  }

  /** The public code recorded for a run whose publication failed. */
  function PublicFailure(e: CreateError): string {
    match e
    case ConnectorFault(Stale) => "stale_record"
    case ConnectorFault(Invalid) => "invalid_operation"
    case ConnectorFault(Unknown) => "unknown_operation"
    case _ => "internal_error"
  }

  /** The first refused operation, and why. */
  lemma {:induction false} FirstFaultIff(records: map<Id, Record>, origin: Id, ops: seq<Operation>)
    ensures FirstFault(records, origin, ops).None? <==>
      forall i | 0 <= i < |ops| :: OperationFault(records, origin, ops[i]).None?
    ensures FirstFault(records, origin, ops).Some? ==>
      exists i | 0 <= i < |ops| :: OperationFault(records, origin, ops[i]) == FirstFault(records, origin, ops)
  {
    if ops != [] {
      FirstFaultIff(records, origin, ops[1..]);
      assert ops == [ops[0]] + ops[1..];
      if OperationFault(records, origin, ops[0]).None? && FirstFault(records, origin, ops[1..]).Some? {
        var i :| 0 <= i < |ops[1..]| &&
          OperationFault(records, origin, ops[1..][i]) == FirstFault(records, origin, ops[1..]);
        assert ops[i + 1] == ops[1..][i];
      }
    }
  }

  /** A stale version is caught by createProposalTx itself, before the connector can say so: a failed
      publication is only ever recorded as an invalid operation or an internal error. */
  lemma PublicationFailureCodes(
    s: Db, pid: Id, task: Id, actor: Id, origin: Id, draft: seq<Operation>, ids: seq<Id>)
    requires |ids| == |draft|
    requires CreateProposal(s, pid, task, actor, origin, draft, ids).Err?
    ensures var e := CreateProposal(s, pid, task, actor, origin, draft, ids).error;
      PublicFailure(e) == if e == ConnectorFault(Invalid) then "invalid_operation" else "internal_error"
  {
    var ops := WithIds(draft, ids);
    FirstFaultIff(s.records, origin, ops);
    var e := CreateProposal(s, pid, task, actor, origin, draft, ids).error;
    if e.ConnectorFault? && pid != NO_ID && pid !in s.proposals && FirstFault(s.records, origin, ops).None? {
      ReserveErrors(Supersede(s.proposals, task)[pid := NewRow(s, task, actor, origin, ops)], s.keys, pid, ops);
    }
  }

  lemma {:induction false} ReserveErrors(
    proposals: map<Id, Proposal>, keys: map<Key, KeyRow>, pid: Id, ops: seq<Operation>)
    requires pid in proposals
    ensures var r := ReserveAll(proposals, keys, pid, ops);
      r.Err? ==> r.error.BadKey? || r.error.DifferentContent? || r.error.KeyClaimed?
    decreases |ops|
  {
    if ops != [] && Reserve(proposals, keys, pid, ops[0]).Ok? {
      ReserveErrors(proposals, Reserve(proposals, keys, pid, ops[0]).value, pid, ops[1..]);
    }
  }

  // ---- What the tables keep ------------------------------------------------------------------

  ghost predicate Holds(keys: map<Key, KeyRow>, pid: Id, op: Operation, decided: bool) {
    && KeyOf(op) in keys
    && keys[KeyOf(op)].proposal == pid
    && keys[KeyOf(op)].fingerprint == FingerprintOf(op)
    && (if decided then keys[KeyOf(op)].status.Dispatching? || keys[KeyOf(op)].status.KeyVerified?
        else keys[KeyOf(op)].status.Reserved?)
  }

  ghost predicate HoldsAll(keys: map<Key, KeyRow>, pid: Id, ops: seq<Operation>, decided: bool) {
    forall i | 0 <= i < |ops| :: Holds(keys, pid, ops[i], decided)
  }

  ghost predicate DistinctKeys(ops: seq<Operation>) {
    forall i, j | 0 <= i < j < |ops| :: KeyOf(ops[i]) != KeyOf(ops[j])
  }

  /** No proposal row is malformed; a live one belongs to an open task; `executing` is never stored. */
  ghost predicate RowsOk(tasks: map<Id, Task>, proposals: map<Id, Proposal>) {
    forall p | p in proposals ::
      && p != NO_ID
      && proposals[p].task in tasks
      && proposals[p].digest == DigestOf(proposals[p].ops)
      && !proposals[p].status.Executing?
      && proposals[p].revision >= 1
      && (Live(proposals[p].status) ==> Open(tasks[proposals[p].task].status))
      && (proposals[p].status.ProposalDone? ==> tasks[proposals[p].task].status.TaskDone?)
  }

  /** A task has one live proposal at most, and numbers its proposals without repetition. */
  ghost predicate OneLive(proposals: map<Id, Proposal>) {
    forall p, q | p in proposals && q in proposals && p != q && proposals[p].task == proposals[q].task ::
      && !(Live(proposals[p].status) && Live(proposals[q].status))
      && proposals[p].revision != proposals[q].revision
  }

  /** Pending proposals hold all their keys as reserved; proposals once approved hold them for ever. */
  ghost predicate KeysOk(
    proposals: map<Id, Proposal>, decisions: map<DecisionKey, Decision>, keys: map<Key, KeyRow>)
  {
    && (forall p | p in proposals :: DistinctKeys(proposals[p].ops))
    && (forall p | p in proposals && Pending(proposals[p].status) ::
          HoldsAll(keys, p, proposals[p].ops, false))
    && (forall d | d in decisions && d.kind.Approve? && d.proposal in proposals ::
          HoldsAll(keys, d.proposal, proposals[d.proposal].ops, true))
  }

  /** Every operation ever proposed names a record that exists, at a version it has reached. */
  ghost predicate OpsOk(records: map<Id, Record>, ops: seq<Operation>) {
    && (forall i | 0 <= i < |ops| ::
          && Supported(ops[i].integration, ops[i].action)
          && ops[i].target != NO_ID
          && ops[i].target in records
          && 1 <= ops[i].expectedVersion <= records[ops[i].target].version)
    && (forall i, j | 0 <= i < j < |ops| ::
          ops[i].target == ops[j].target ==> ops[i].expectedVersion == ops[j].expectedVersion)
  }

  ghost predicate AllOpsOk(records: map<Id, Record>, proposals: map<Id, Proposal>) {
    forall p | p in proposals :: OpsOk(records, proposals[p].ops)
  }

  lemma HeldByPending(proposals: map<Id, Proposal>, row: KeyRow, pid: Id)
    requires pid in proposals && Pending(proposals[pid].status) && row.proposal == pid && row.status.Reserved?
    ensures !Rebindable(proposals, row, proposals[pid].task)
  {
  }

  /** What one reservation pass does to the key table. */
  lemma {:induction false} ReserveAllEffect(
    proposals: map<Id, Proposal>, keys: map<Key, KeyRow>, pid: Id, ops: seq<Operation>)
    requires pid in proposals && Pending(proposals[pid].status)
    requires ReserveAll(proposals, keys, pid, ops).Ok?
    ensures var after := ReserveAll(proposals, keys, pid, ops).value;
      && HoldsAll(after, pid, ops, false)
      && DistinctKeys(ops)
      && (forall k | k in keys ::
            && k in after
            && after[k].fingerprint == keys[k].fingerprint
            && (Rebindable(proposals, keys[k], proposals[pid].task) || after[k] == keys[k]))
      && (forall i | 0 <= i < |ops| && KeyOf(ops[i]) in keys ::
            Rebindable(proposals, keys[KeyOf(ops[i])], proposals[pid].task))
      && (forall k | k in after && after[k].proposal == pid && (k !in keys || after[k] != keys[k]) ::
            after[k].status.Reserved?)
      && (forall k | k in after && after[k].proposal != pid :: k in keys && after[k] == keys[k])
    decreases |ops|
  {
    hide Rebindable, ValidBusinessKey, FingerprintOf;
    if ops != [] {
      var next := Reserve(proposals, keys, pid, ops[0]).value;
      ReserveAllEffect(proposals, next, pid, ops[1..]);
      assert ops == [ops[0]] + ops[1..];
      HeldByPending(proposals, next[KeyOf(ops[0])], pid);
      forall i | 0 <= i < |ops| && KeyOf(ops[i]) in keys
        ensures Rebindable(proposals, keys[KeyOf(ops[i])], proposals[pid].task)
      {
        if i > 0 {
          assert ops[i] == ops[1..][i - 1];
          assert KeyOf(ops[i]) in next;
        }
      }
      forall i, j | 0 <= i < j < |ops| ensures KeyOf(ops[i]) != KeyOf(ops[j]) {
        assert ops[j] == ops[1..][j - 1];
        if i > 0 {
          assert ops[i] == ops[1..][i - 1];
        } else {
          assert KeyOf(ops[0]) in next;
        }
      }
    }
  }

  /** The revisions of a task are numbered without a gap. */
  ghost predicate RevisionsOk(proposals: map<Id, Proposal>) {
    forall p | p in proposals && proposals[p].revision != 1 ::
      proposals[p].revision - 1 in Revisions(proposals, proposals[p].task)
  }

  lemma SameRevisions(proposals: map<Id, Proposal>, after: map<Id, Proposal>)
    requires RevisionsOk(proposals) && after.Keys == proposals.Keys
    requires forall p | p in proposals :: after[p] == proposals[p].(status := after[p].status)
    ensures RevisionsOk(after)
  {
    forall p | p in after && after[p].revision != 1 ensures after[p].revision - 1 in Revisions(after, after[p].task) {
      assert proposals[p].revision - 1 in Revisions(proposals, proposals[p].task);
      var q :| q in proposals && proposals[q].task == proposals[p].task
        && proposals[q].revision == proposals[p].revision - 1;
      assert q in after && after[q].task == after[p].task;
    }
  }

  lemma NewRevisionKeeps(proposals: map<Id, Proposal>, after: map<Id, Proposal>, pid: Id)
    requires RevisionsOk(proposals) && pid !in proposals && after.Keys == proposals.Keys + {pid}
    requires forall p | p in proposals :: after[p] == proposals[p].(status := after[p].status)
    requires after[pid].revision == Greatest(Revisions(proposals, after[pid].task)) + 1
    ensures RevisionsOk(after)
  {
    hide Greatest;
    forall p | p in after && after[p].revision != 1 ensures after[p].revision - 1 in Revisions(after, after[p].task) {
      assert after[p].revision - 1 in Revisions(proposals, after[p].task);
      var q :| q in proposals && proposals[q].task == after[p].task && proposals[q].revision == after[p].revision - 1;
      assert q in after && after[q].task == after[p].task;
    }
  }

  lemma NewProposalOneLive(s: Db, pid: Id, task: Id, row: Proposal)
    requires OneLive(s.proposals) && pid !in s.proposals
    requires row.task == task && row.revision == Greatest(Revisions(s.proposals, task)) + 1
    ensures OneLive(Supersede(s.proposals, task)[pid := row])
  {
    hide Greatest;
    var after := Supersede(s.proposals, task)[pid := row];
    forall p | p in s.proposals && s.proposals[p].task == task
      ensures s.proposals[p].revision < row.revision && !Live(after[p].status)
    {
      assert s.proposals[p].revision in Revisions(s.proposals, task);
    }
  }

  lemma NewProposalKeysOk(
    s: Db, pid: Id, task: Id, row: Proposal, keys: map<Key, KeyRow>)
    requires KeysOk(s.proposals, s.decisions, s.keys) && pid !in s.proposals
    requires forall d | d in s.decisions :: d.proposal in s.proposals
    requires row.task == task && row.status.PendingEndorsement?
    requires ReserveAll(Supersede(s.proposals, task)[pid := row], s.keys, pid, row.ops) == Ok(keys)
    ensures KeysOk(Supersede(s.proposals, task)[pid := row], s.decisions, keys)
  {
    hide HoldsAll, DistinctKeys, ReserveAll;
    var after := Supersede(s.proposals, task)[pid := row];
    ReserveAllEffect(after, s.keys, pid, row.ops);
    forall p | p in s.proposals && p != pid && Pending(after[p].status)
      ensures HoldsAll(keys, p, after[p].ops, false)
    {
      HeldUnlessRebindable(after, s.keys, keys, pid, p, s.proposals[p].ops, false);
    }
    forall d | d in s.decisions && d.kind.Approve? && d.proposal in after
      ensures HoldsAll(keys, d.proposal, after[d.proposal].ops, true)
    {
      HeldUnlessRebindable(after, s.keys, keys, pid, d.proposal, s.proposals[d.proposal].ops, true);
    }
  }

  /** Reserving for one proposal leaves alone what a pending or once approved one holds. */
  lemma HeldUnlessRebindable(
    proposals: map<Id, Proposal>, keys: map<Key, KeyRow>, after: map<Key, KeyRow>,
    pid: Id, p: Id, ops: seq<Operation>, decided: bool)
    requires pid in proposals && HoldsAll(keys, p, ops, decided)
    requires decided || (p in proposals && Pending(proposals[p].status))
    requires forall k | k in keys ::
      k in after && (Rebindable(proposals, keys[k], proposals[pid].task) || after[k] == keys[k])
    ensures HoldsAll(after, p, ops, decided)
  {
    forall i | 0 <= i < |ops| ensures Holds(after, p, ops[i], decided) {
      assert Holds(keys, p, ops[i], decided);
    }
  }

  lemma CheckedOpsOk(records: map<Id, Record>, origin: Id, ops: seq<Operation>)
    requires FirstFault(records, origin, ops).None?
    ensures OpsOk(records, ops)
  {
    FirstFaultIff(records, origin, ops);
    forall i | 0 <= i < |ops|
      ensures Supported(ops[i].integration, ops[i].action) && ops[i].target != NO_ID && ops[i].target in records
      ensures 1 <= ops[i].expectedVersion == records[ops[i].target].version
    {
      assert OperationFault(records, origin, ops[i]).None?;
    }
  }

  lemma NewProposalRowsOk(s: Db, pid: Id, task: Id, row: Proposal)
    requires pid != NO_ID
    requires RowsOk(s.tasks, s.proposals) && AllOpsOk(s.records, s.proposals)
    requires task in s.tasks && Open(s.tasks[task].status)
    requires row.task == task && row.status.PendingEndorsement? && row.digest == DigestOf(row.ops)
    requires row.revision >= 1 && OpsOk(s.records, row.ops)
    ensures RowsOk(s.tasks, Supersede(s.proposals, task)[pid := row])
    ensures AllOpsOk(s.records, Supersede(s.proposals, task)[pid := row])
  {
  }

  /** A created proposal is the live one of its task, numbered above all earlier ones, and holds its keys. */
  lemma CreateProposalKeeps(
    s: Db, pid: Id, task: Id, actor: Id, origin: Id, draft: seq<Operation>, ids: seq<Id>)
    requires |ids| == |draft| && CreateProposal(s, pid, task, actor, origin, draft, ids).Ok?
    requires RowsOk(s.tasks, s.proposals) && OneLive(s.proposals) && AllOpsOk(s.records, s.proposals)
    requires KeysOk(s.proposals, s.decisions, s.keys)
    requires forall d | d in s.decisions :: d.proposal in s.proposals
    ensures var t := CreateProposal(s, pid, task, actor, origin, draft, ids).value;
      && RowsOk(t.tasks, t.proposals) && OneLive(t.proposals) && AllOpsOk(t.records, t.proposals)
      && KeysOk(t.proposals, t.decisions, t.keys)
  {
    var t := CreateProposal(s, pid, task, actor, origin, draft, ids).value;
    var ops := WithIds(draft, ids);
    var row := NewRow(s, task, actor, origin, ops);
    assert t.proposals == Supersede(s.proposals, task)[pid := row];
    NewProposalOneLive(s, pid, task, row);
    NewProposalKeysOk(s, pid, task, row, t.keys);
    CheckedOpsOk(s.records, origin, ops);
    NewProposalRowsOk(s, pid, task, row);
  }

  /** A key keeps its content and, while its proposal is pending or was ever approved, its proposal. */
  lemma CreateProposalKeepsKeys(
    s: Db, pid: Id, task: Id, actor: Id, origin: Id, draft: seq<Operation>, ids: seq<Id>, k: Key)
    requires |ids| == |draft| && CreateProposal(s, pid, task, actor, origin, draft, ids).Ok?
    requires k in s.keys
    ensures var t := CreateProposal(s, pid, task, actor, origin, draft, ids).value;
      && k in t.keys
      && t.keys[k].fingerprint == s.keys[k].fingerprint
      && (s.keys[k].status.Dispatching? || s.keys[k].status.KeyVerified? ==> t.keys[k] == s.keys[k])
  {
    var t := CreateProposal(s, pid, task, actor, origin, draft, ids).value;
    ReserveAllEffect(t.proposals, s.keys, pid, WithIds(draft, ids));
  }
}
