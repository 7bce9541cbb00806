/** A run in which a proposal that names two operations with one id is carried out for the first alone. */
module RepeatedIds {
  import opened Wrappers
  import opened Connectors
  import opened Tables
  import opened Proposals
  import opened Decisions
  import opened Execution
  import opened Kernel
  import opened Guarantees

  const OWNER: Id := 1
  const APPROVER: Id := 2
  const TASK: Id := 3
  const PROPOSAL: Id := 4
  const ONE_ID: Id := 5
  const FIRST: Id := 6
  const SECOND: Id := 7

  function AddOne(key: string, target: Id): Operation {
    Operation(ONE_ID, "inventory", "adjust", key, target, 1, Members("{\"delta\":1}", [("delta", Whole(1))]))
  }

  function Ops(): seq<Operation> {
    [AddOne("A", FIRST), AddOne("B", SECOND)]
  }

  function Stock(version: int, quantity: int): Record {
    Record("inventory", version, map["quantity" := Whole(quantity)])
  }

  function AtSetup(): Db {
    EMPTY.(principals := map[OWNER := Principal(Requester, true), APPROVER := Principal(Approver, true)],
           tasks := map[TASK := Task(Draft, OWNER, OWNER, 1)],
           records := map[FIRST := Stock(1, 1), SECOND := Stock(1, 1)])
  }

  function Row(status: ProposalStatus): Proposal {
    Proposal(TASK, 1, DigestOf(Ops()), status, Ops(), OWNER, NO_ID)
  }

  function Keys(status: KeyStatus): map<Key, KeyRow> {
    map[KeyOf(Ops()[0]) := KeyRow(FingerprintOf(Ops()[0]), PROPOSAL, status),
        KeyOf(Ops()[1]) := KeyRow(FingerprintOf(Ops()[1]), PROPOSAL, status)]
  }

  function AtProposal(): Db {
    AtSetup().(proposals := map[PROPOSAL := Row(PendingEndorsement)], keys := Keys(Reserved))
  }

  function AtEndorsement(): Db {
    AtProposal().(proposals := map[PROPOSAL := Row(PendingApproval)],
                decisions := map[DecisionKey(PROPOSAL, OWNER, Endorse) := Decision(1, DigestOf(Ops()), Requester)])
  }

  /** One effect, of the first operation. */
  function AtApproval(): Db {
    AtEndorsement().(proposals := map[PROPOSAL := Row(Approved)],
                  decisions := map[DecisionKey(PROPOSAL, OWNER, Endorse) := Decision(1, DigestOf(Ops()), Requester),
                                   DecisionKey(PROPOSAL, APPROVER, Approve) := Decision(1, DigestOf(Ops()), Approver)],
                  keys := Keys(Dispatching),
                  effects := map[EffectKey(PROPOSAL, ONE_ID) := Effect(Ops()[0], Authorized)],
                  jobs := multiset{Job(PROPOSAL, Delivered)})
  }

  lemma {:induction false} OneMore(s: Db, steps: seq<Step>, t: Db, step: Step)
    requires Reachable(s, steps, t) && Enabled(t, step)
    ensures Reachable(s, steps + [step], Next(t, step))
    decreases |steps|
  {
    hide Enabled, Next;
    if steps == [] {
      assert ([step])[1..] == [];
      assert steps + [step] == [step];
      assert Reachable(Next(t, step), [], Next(t, step));
    } else {
      OneMore(Next(s, steps[0]), steps[1..], t, step);
      assert (steps + [step])[1..] == steps[1..] + [step];
    }
  }

  function AtPeople(): Db {
    EMPTY.(principals := map[OWNER := Principal(Requester, true), APPROVER := Principal(Approver, true)])
  }

  lemma PeopleReached() returns (steps: seq<Step>)
    ensures Reachable(EMPTY, steps, AtPeople())
  {
    hide Reachable;
    steps := NothingDone();
    var owner := Step.Admin(SetPrincipal(OWNER, Principal(Requester, true)));
    var approver := Step.Admin(SetPrincipal(APPROVER, Principal(Approver, true)));
    OneMore(EMPTY, steps, EMPTY, owner);
    OneMore(EMPTY, steps + [owner], Next(EMPTY, owner), approver);
    steps := steps + [owner] + [approver];
  }

  lemma SetupReached() returns (steps: seq<Step>)
    ensures Reachable(EMPTY, steps, AtSetup())
  {
    hide Reachable;
    steps := PeopleReached();
    var task := Step.Admin(NewTask(TASK, OWNER, OWNER));
    var first := Step.Admin(NewRecord(FIRST, "inventory", map["quantity" := Whole(1)]));
    var second := Step.Admin(NewRecord(SECOND, "inventory", map["quantity" := Whole(1)]));
    var s := Next(AtPeople(), task);
    OneMore(EMPTY, steps, AtPeople(), task);
    OneMore(EMPTY, steps + [task], s, first);
    OneMore(EMPTY, steps + [task] + [first], Next(s, first), second);
    steps := steps + [task] + [first] + [second];
  }

  lemma NothingDone() returns (steps: seq<Step>)
    ensures Reachable(EMPTY, steps, EMPTY)
  {
    steps := [];
  }

  lemma Proposes()
    ensures CreateProposal(AtSetup(), PROPOSAL, TASK, OWNER, NO_ID, Ops(), [8, 9]) == Ok(AtProposal())
  {
    var s, ops := AtSetup(), WithIds(Ops(), [8, 9]);
    assert ops == Ops();
    assert Revisions(s.proposals, TASK) == {};
    assert Greatest({}) == 0;
    assert Accepted(ops[0]) && Accepted(ops[1]);
    assert FirstFault(s.records, NO_ID, ops[1..]).None?;
    var proposals := Supersede(s.proposals, TASK)[PROPOSAL := NewRow(s, TASK, OWNER, NO_ID, ops)];
    assert proposals == AtProposal().proposals;
    Reserves(proposals);
  }

  predicate Accepted(op: Operation) {
    OperationFault(AtSetup().records, NO_ID, op).None?
  }

  lemma Reserves(proposals: map<Id, Proposal>)
    requires PROPOSAL in proposals
    ensures ReserveAll(proposals, map[], PROPOSAL, Ops()) == Ok(Keys(Reserved))
  {
    var a, b := Ops()[0], Ops()[1];
    var one := map[KeyOf(a) := KeyRow(FingerprintOf(a), PROPOSAL, Reserved)];
    assert Ops()[1..] == [b] && [b][1..] == [];
    assert Reserve(proposals, map[], PROPOSAL, a) == Ok(one);
    assert KeyOf(a).businessKey != KeyOf(b).businessKey;
    assert Reserve(proposals, one, PROPOSAL, b) == Ok(Keys(Reserved));
    assert ReserveAll(proposals, one, PROPOSAL, [b]) == ReserveAll(proposals, Keys(Reserved), PROPOSAL, []);
  }

  lemma StatusOf(from: ProposalStatus, to: ProposalStatus)
    ensures SetStatus(map[PROPOSAL := Row(from)], PROPOSAL, to) == map[PROPOSAL := Row(to)]
  {
    hide Ops;
  }

  lemma Endorses()
    ensures Decide(AtProposal(), PROPOSAL, OWNER, Endorse, 1, DigestOf(Ops())) == Some(AtEndorsement())
  {
    hide Ops, Keys, SetStatus;
    StatusOf(PendingEndorsement, PendingApproval);
    var s, key := AtProposal(), DecisionKey(PROPOSAL, OWNER, Endorse);
    assert MayDecide(s, PROPOSAL, OWNER, Endorse, 1, DigestOf(Ops()));
    assert s.decisions == map[];
    assert s.decisions[key := Decision(1, DigestOf(Ops()), Requester)] == AtEndorsement().decisions;
  }

  lemma FirstIsInserted()
    ensures InsertEffects(map[], Keys(Reserved), PROPOSAL, Ops()) == AtApproval().effects
  {
    var a, b := Ops()[0], Ops()[1];
    var one := map[EffectKey(PROPOSAL, ONE_ID) := Effect(a, Authorized)];
    assert Ops()[1..] == [b] && [b][1..] == [];
    assert InsertEffects(map[], Keys(Reserved), PROPOSAL, Ops()) == InsertEffects(one, Keys(Reserved), PROPOSAL, [b]);
    assert EffectConflict(one, Keys(Reserved), PROPOSAL, b);
    assert InsertEffects(one, Keys(Reserved), PROPOSAL, [b]) == InsertEffects(one, Keys(Reserved), PROPOSAL, []);
  }

  lemma KeysDispatched()
    ensures Dispatch(Keys(Reserved), PROPOSAL) == Keys(Dispatching)
  {
  }

  lemma Approves()
    ensures Decide(AtEndorsement(), PROPOSAL, APPROVER, Approve, 1, DigestOf(Ops())) == Some(AtApproval())
  {
    hide Ops, Keys, SetStatus, InsertEffects, Dispatch;
    StatusOf(PendingApproval, Approved);
    FirstIsInserted();
    KeysDispatched();
    var s, key := AtEndorsement(), DecisionKey(PROPOSAL, APPROVER, Approve);
    assert MayDecide(s, PROPOSAL, APPROVER, Approve, 1, DigestOf(Ops()));
    assert key !in s.decisions;
    assert s.effects == map[] && s.jobs == multiset{};
    assert s.decisions[key := Decision(1, DigestOf(Ops()), Approver)] == AtApproval().decisions;
    assert s.jobs + multiset{Job(PROPOSAL, Delivered)} == AtApproval().jobs;
  }

  function Advanced(): Outcome {
    Applied(map[FIRST := Stock(2, 2), SECOND := Stock(1, 1)],
            [Receipt(EffectKey(PROPOSAL, ONE_ID), Ops()[0], Stock(2, 2).data)])
  }

  lemma FirstApplies()
    ensures ApplyOps(AtSetup().records, PROPOSAL, [Ops()[0]]) == Advanced()
  {
    var records, a := AtSetup().records, Ops()[0];
    assert Stock(1, 1).data["quantity" := Whole(2)] == Stock(2, 2).data;
    assert Prepare(FIRST, Stock(1, 1), a) == Ready(Stock(2, 2));
    assert [a][1..] == [];
    assert records[FIRST := Stock(2, 2)] == Advanced().records;
  }

  lemma MayGoAhead()
    ensures Permitted(AtApproval(), TASK, PROPOSAL)
  {
    hide Ops, Keys;
    var s := AtApproval();
    assert DecisionKey(PROPOSAL, APPROVER, Approve) in s.decisions;
    assert DecisionKey(PROPOSAL, OWNER, Endorse) in s.decisions;
  }

  lemma OneInOrder()
    ensures IsOrder(AtApproval().effects, PROPOSAL, [ONE_ID])
    ensures EffectKey(PROPOSAL, ONE_ID) in AtApproval().effects
    ensures OpsInOrder(AtApproval().effects, PROPOSAL, [ONE_ID]) == [Ops()[0]]
    ensures Job(PROPOSAL, Delivered) in AtApproval().jobs
  {
    hide Keys;
  }

  /** The one effect applies, and the proposal is done, with the second record as it was. */
  lemma Executes()
    ensures IsOrder(AtApproval().effects, PROPOSAL, [ONE_ID])
    ensures forall i | 0 <= i < |[ONE_ID]| :: EffectKey(PROPOSAL, [ONE_ID][i]) in AtApproval().effects
    ensures var t := RunJob(AtApproval(), PROPOSAL, [ONE_ID], true);
      t.proposals == map[PROPOSAL := Row(ProposalDone)] && t.records == Advanced().records
  {
    hide Woken, Deliveries, VerifyKeys, VerifyEffects, Finish, SetStatus, Ops, Keys, ApplyOps, Permitted, OpsInOrder,
      IsOrder, Advanced;
    OneInOrder();
    FirstApplies();
    MayGoAhead();
    StatusOf(Approved, ProposalDone);
    AdvancedIs();
  }

  lemma AdvancedIs()
    ensures Advanced().Applied?
  {
  }

  /** A proposal can be done in full while one of its operations was never carried out. */
  lemma DoneWithoutItsSecondOperation() returns (steps: seq<Step>, t: Db)
    ensures Reachable(EMPTY, steps, t)
    ensures PROPOSAL in t.proposals && t.proposals[PROPOSAL].status.ProposalDone? && t.proposals[PROPOSAL].ops == Ops()
    ensures FIRST in t.records && t.records[FIRST].version == 2
    ensures SECOND in t.records && t.records[SECOND].version == 1 && Ops()[1].target == SECOND
  {
    hide Reachable, CreateProposal, Decide, RunJob, IsOrder, AtProposal, AtEndorsement, AtApproval;
    steps := SetupReached();
    Proposes();
    Endorses();
    Approves();
    OneInOrder();
    Executes();
    var propose := Work(Propose(PROPOSAL, TASK, OWNER, Ops(), [8, 9]));
    var endorse := Work(MakeDecision(PROPOSAL, OWNER, Endorse, 1, DigestOf(Ops())));
    var approve := Work(MakeDecision(PROPOSAL, APPROVER, Approve, 1, DigestOf(Ops())));
    var execute := Work(Execute(PROPOSAL, [ONE_ID], true));
    OneMore(EMPTY, steps, AtSetup(), propose);
    OneMore(EMPTY, steps + [propose], AtProposal(), endorse);
    OneMore(EMPTY, steps + [propose] + [endorse], AtEndorsement(), approve);
    OneMore(EMPTY, steps + [propose] + [endorse] + [approve], AtApproval(), execute);
    steps := steps + [propose] + [endorse] + [approve] + [execute];
    t := RunJob(AtApproval(), PROPOSAL, [ONE_ID], true);
  }
}
