/** When the transactions on runs, questions, handoffs and releases do what they do, spelled out by the rows. */
module RunVerdicts {
  import opened Wrappers
  import opened Connectors
  import opened GateSchemas
  import Floats
  import opened Tables
  import opened Proposals
  import opened Decisions
  import opened Execution
  import opened Runs
  import opened RunInvariants
  import opened Graph
  import opened Kernel
  import opened Invariant
  import opened Monotone
  import opened Frames
  import opened Guarantees
  import opened Verdicts
  import H = Handoffs
  import R = Releases

  // ---- Claiming ------------------------------------------------------------------------------

  ghost predicate PastItsLease(s: Db, id: Id) {
    id in s.runs && s.runs[id].status.Running?
    && (s.runs[id].lease.None? || s.runs[id].lease.value < s.now)
  }

  ghost predicate FreeToTake(s: Db, id: Id) {
    id in s.runs && (s.runs[id].status.Queued? || PastItsLease(s, id))
  }

  /** A claim takes its run exactly when the run is queued, or running past its lease; then it runs one more
      attempt under the new token for the budget and a minute, two minutes at least. Otherwise nothing but the
      delivery moves, to the second look. */
  lemma ClaimVerdict(steps: seq<Step>, s: Db, id: Id, token: Id, budget: int, t: Db)
    requires Reachable(EMPTY, steps, s) && HandlerEnabled(s, ClaimRun(id, token, budget))
    requires t == HandlerNext(s, ClaimRun(id, token, budget))
    ensures var lease := s.now + if budget + 60 > 120 then budget + 60 else 120;
      && (Delivery(id, Claimed(token, lease)) in t.deliveries <==> FreeToTake(s, id))
      && (FreeToTake(s, id) ==>
            && t.runs == s.runs[id := s.runs[id].(status := Running, attempt := s.runs[id].attempt + 1,
                                                 token := token, lease := Some(lease))]
            && t.deliveries
                 == s.deliveries - multiset{Delivery(id, Idle)} + multiset{Delivery(id, Claimed(token, lease))})
      && (!FreeToTake(s, id) ==>
            && t.runs == s.runs
            && t.deliveries == s.deliveries - multiset{Delivery(id, Idle)} + multiset{Delivery(id, Peeking)})
  {
    hide Reachable, Inv, TokensOk, NoRunLost, LeasesOk, GatesOk, RunTasksOk, OriginsOk, HoldersOk, Claim, FreeToTake;
    Reached(steps, s);
    InvRuns(s);
    TokenIsNew(s, token);
    ClaimWrites(s, id, token, budget);
  }

  lemma ClaimWrites(s: Db, id: Id, token: Id, budget: int)
    requires Delivery(id, Idle) in s.deliveries && forall d | d in s.deliveries :: TokenOf(d.phase) != token
    ensures var t := Claim(s, id, token, budget);
      var lease := s.now + if budget + 60 > 120 then budget + 60 else 120;
      && (Delivery(id, Claimed(token, lease)) in t.deliveries <==> FreeToTake(s, id))
      && (FreeToTake(s, id) ==>
            && t.runs == s.runs[id := s.runs[id].(status := Running, attempt := s.runs[id].attempt + 1,
                                                 token := token, lease := Some(lease))]
            && t.deliveries
                 == s.deliveries - multiset{Delivery(id, Idle)} + multiset{Delivery(id, Claimed(token, lease))})
      && (!FreeToTake(s, id) ==>
            && t.runs == s.runs
            && t.deliveries == s.deliveries - multiset{Delivery(id, Idle)} + multiset{Delivery(id, Peeking)})
  {
    assert TokenOf(Claimed(token, s.now)) == token;
    assert forall lease :: TokenOf(Delivery(id, Claimed(token, lease)).phase) == token;
  }

  lemma TokenIsNew(s: Db, token: Id)
    requires HoldersOk(s.runs, s.deliveries, s.issued) && token != NO_ID && token !in s.issued
    ensures forall d | d in s.deliveries :: TokenOf(d.phase) != token
  {
  }

  /** A run whose worker is gone is taken over: past its lease, the next claim under a fresh token has it. */
  lemma ExpiredRunIsTakenOver(steps: seq<Step>, s: Db, id: Id, token: Id, budget: int)
    requires Reachable(EMPTY, steps, s) && PastItsLease(s, id) && Delivery(id, Idle) in s.deliveries
    requires token != NO_ID && token !in s.issued
    ensures HandlerEnabled(s, ClaimRun(id, token, budget))
    ensures var t := HandlerNext(s, ClaimRun(id, token, budget));
      && id in t.runs && t.runs[id].status.Running? && t.runs[id].token == token
      && t.runs[id].attempt == s.runs[id].attempt + 1 && !PastItsLease(t, id)
      && exists d | d in t.deliveries :: d.run == id && TokenOf(d.phase) == token
  {
    hide Reachable, Claim;
    var t := HandlerNext(s, ClaimRun(id, token, budget));
    ClaimVerdict(steps, s, id, token, budget, t);
    var lease := s.now + if budget + 60 > 120 then budget + 60 else 120;
    assert TokenOf(Delivery(id, Claimed(token, lease)).phase) == token;
    ClaimKeepsTime(s, id, token, budget);
  }

  lemma ClaimKeepsTime(s: Db, id: Id, token: Id, budget: int)
    ensures Claim(s, id, token, budget).now == s.now
  {
  }

  /** The second look: a running run's delivery goes back to the queue, any other's is acknowledged. */
  lemma PeekVerdict(s: Db, id: Id, t: Db)
    requires HandlerEnabled(s, PeekRun(id)) && t == HandlerNext(s, PeekRun(id)) && id in s.runs
    ensures t == s.(deliveries := s.deliveries - multiset{Delivery(id, Peeking)}
                      + multiset{Delivery(id, if s.runs[id].status.Running? then Idle else Returned)})
  {
  }

  // ---- Working -------------------------------------------------------------------------------

  /** The worker's token is the run's. */
  ghost predicate Holds(s: Db, d: Delivery) {
    d.run in s.runs && s.runs[d.run].status.Running? && s.runs[d.run].token == TokenOf(d.phase)
  }

  /** The context is gathered under the claim, with the owner the task has now; failing that, the run fails. */
  lemma GatherVerdict(steps: seq<Step>, s: Db, d: Delivery, ok: bool, t: Db)
    requires Reachable(EMPTY, steps, s) && HandlerEnabled(s, GatherContext(d, ok))
    requires t == HandlerNext(s, GatherContext(d, ok))
    ensures d.run in s.runs && s.runs[d.run].task in s.tasks && t.runs == s.runs
    ensures t.deliveries == s.deliveries - multiset{d} + multiset{Delivery(d.run,
      if ok then Working(d.phase.token, d.phase.deadline, s.tasks[s.runs[d.run].task].owner)
      else Failing(d.phase.token, d.phase.deadline, "internal_error"))}
  {
    hide Reachable, Inv, TokensOk, NoRunLost, LeasesOk, GatesOk, OriginsOk;
    Reached(steps, s);
    InvRuns(s);
  }

  /** A runner that gives no usable draft fails its run, for its reason or for want of one an internal error. */
  lemma RunnerVerdict(s: Db, d: Delivery, code: string, t: Db)
    requires HandlerEnabled(s, RunnerFails(d, code)) && t == HandlerNext(s, RunnerFails(d, code))
    ensures t == s.(deliveries := s.deliveries - multiset{d} + multiset{Delivery(d.run,
      Failing(d.phase.token, d.phase.deadline, if code != "" then code else "internal_error"))})
  {
  }

  /** A failure is recorded exactly while the worker holds its run: the run has failed for the reason given, and
      nobody holds it. Otherwise nothing but the delivery moves. */
  lemma FailVerdict(steps: seq<Step>, s: Db, d: Delivery, t: Db)
    requires Reachable(EMPTY, steps, s) && HandlerEnabled(s, FailRun(d)) && t == HandlerNext(s, FailRun(d))
    ensures t.deliveries == s.deliveries - multiset{d} + multiset{Delivery(d.run, Returned)}
    ensures Holds(s, d) ==> t.runs == s.runs[d.run :=
      s.runs[d.run].(status := Failed, failure := d.phase.code, token := NO_ID, lease := None)]
    ensures !Holds(s, d) ==> t.runs == s.runs
  {
    hide Reachable, Inv, RunsOk;
    Reached(steps, s);
    InvRuns(s);
    HolderHasToken(s, d);
  }

  /** What a question is stored for. */
  ghost predicate Storable(s: Db, d: Delivery, gate: Id, schema: Schema, respondent: Id) {
    && ValidSchema(schema) && !schema.Blank?
    && gate !in s.gates && gate != NO_ID
    && d.phase.Working? && (if respondent == NO_ID then d.phase.owner else respondent) in s.principals
  }

  /** Parking: a worker that holds its run stores the question, for the owner unless somebody else is asked, and the
      run waits on it without a holder. A question that cannot be stored sends the delivery back to the queue and
      leaves the run with its worker's token. A worker that lost its run asks nothing. */
  lemma ParkVerdict(steps: seq<Step>, s: Db, d: Delivery, gate: Id, schema: Schema, respondent: Id, t: Db)
    requires Reachable(EMPTY, steps, s) && HandlerEnabled(s, ParkRun(d, gate, schema, respondent))
    requires t == HandlerNext(s, ParkRun(d, gate, schema, respondent))
    ensures !Holds(s, d) ==>
      && t.runs == s.runs && t.gates == s.gates
      && t.deliveries == s.deliveries - multiset{d} + multiset{Delivery(d.run, Returned)}
    ensures Holds(s, d) && !Storable(s, d, gate, schema, respondent) ==>
      && t.runs == s.runs && t.gates == s.gates
      && t.deliveries == s.deliveries - multiset{d} + multiset{Delivery(d.run, Idle)}
    ensures Holds(s, d) && Storable(s, d, gate, schema, respondent) ==>
      && t.runs == s.runs[d.run := s.runs[d.run].(status := Waiting, gate := gate, token := NO_ID, lease := None)]
      && t.gates == s.gates[gate :=
           Gate(s.runs[d.run].task, d.run, if schema.Absent? then EmptyObject else schema,
                if respondent == NO_ID then d.phase.owner else respondent, 1, GatePending, NotAnObject, NO_ID)]
      && t.deliveries == s.deliveries - multiset{d} + multiset{Delivery(d.run, Returned)}
  {
    hide Reachable, Inv, TokensOk, NoRunLost, HoldersOk, LeasesOk, GatesOk, RunTasksOk, OriginsOk, ValidSchema,
      PendingFor, RunsOk;
    Reached(steps, s);
    InvRuns(s);
    if Holds(s, d) {
      NothingAskedYet(s, d);
    }
    AskVerdict(s, d, gate, schema, respondent);
  }

  lemma NothingAskedYet(s: Db, d: Delivery)
    requires RunsOk(s) && Holds(s, d)
    ensures forall g :: !PendingFor(s.gates, g, d.run)
  {
    hide TokensOk, NoRunLost, HoldersOk, LeasesOk, RunTasksOk, OriginsOk, ValidSchema, ValidResponse;
  }

  lemma AskVerdict(s: Db, d: Delivery, gate: Id, schema: Schema, respondent: Id)
    requires d.phase.Working? && (Holds(s, d) ==> forall g :: !PendingFor(s.gates, g, d.run))
    ensures var q := Ask(s, d, gate, schema, respondent);
      && (!Holds(s, d) ==> q == Lost)
      && (Holds(s, d) && !Storable(s, d, gate, schema, respondent) ==> q == Unusable)
      && (Holds(s, d) && Storable(s, d, gate, schema, respondent) ==>
            q == New(Gate(s.runs[d.run].task, d.run, if schema.Absent? then EmptyObject else schema,
                          if respondent == NO_ID then d.phase.owner else respondent,
                          1, GatePending, NotAnObject, NO_ID)))
  {
    hide PendingFor;
  }

  // ---- Publication ---------------------------------------------------------------------------

  ghost predicate ReleaseActive(s: Db, release: Id) {
    release in s.releases && s.releases[release].history != []
    && s.releases[release].history[|s.releases[release].history| - 1].Active?
  }

  /** All that may stand against a draft before it is looked at. */
  ghost predicate MayPublish(s: Db, d: Delivery)
    requires d.phase.Working? && d.run in s.runs
  {
    && OpenTask(s, s.runs[d.run].task) && ReleaseActive(s, s.runs[d.run].release)
    && IsActive(s, d.phase.owner) && IsActive(s, s.runs[d.run].createdBy)
  }

  /** Why a draft is not looked at, the first reason there is. */
  ghost function Obstacle(s: Db, d: Delivery): string
    requires d.phase.Working? && d.run in s.runs
  {
    if !OpenTask(s, s.runs[d.run].task) then "task_no_longer_active"
    else if !ReleaseActive(s, s.runs[d.run].release) then "internal_error"
    else "actor_revoked"
  }

  /** Some operation is refused by its connector, and by nothing else, and none before it is refused. */
  ghost predicate ConnectorRefuses(s: Db, origin: Id, ops: seq<Operation>) {
    exists i :: RefusesFirst(s, origin, ops, i)
  }

  ghost predicate RefusesFirst(s: Db, origin: Id, ops: seq<Operation>, i: int) {
    && 0 <= i < |ops| && WellMade(s, origin, ops[i]) && !ConnectorAccepts(s, ops[i])
    && forall j | 0 <= j < i :: WellMade(s, origin, ops[j]) && ConnectorAccepts(s, ops[j])
  }

  ghost predicate Published(s: Db, t: Db, d: Delivery, pid: Id, ops: seq<Operation>)
    requires d.phase.Working? && d.run in s.runs
  {
    && pid !in s.proposals && t.proposals.Keys == s.proposals.Keys + {pid}
    && t.proposals[pid].originRun == d.run && t.proposals[pid].task == s.runs[d.run].task
    && t.proposals[pid].createdBy == d.phase.owner && t.proposals[pid].ops == ops
    && t.runs == s.runs[d.run := s.runs[d.run].(status := Succeeded, proposal := pid, token := NO_ID, lease := None)]
    && t.deliveries == s.deliveries - multiset{d} + multiset{Delivery(d.run, Returned)}
  }

  ghost predicate RefusedHere(s: Db, t: Db, d: Delivery, code: string)
    requires d.phase.Working? && d.run in s.runs
  {
    && t.proposals == s.proposals && t.keys == s.keys
    && t.runs == s.runs[d.run := s.runs[d.run].(status := Failed, failure := code, token := NO_ID, lease := None)]
    && t.deliveries == s.deliveries - multiset{d} + multiset{Delivery(d.run, Returned)}
  }

  ghost predicate LeftToSecond(s: Db, t: Db, d: Delivery, code: string)
    requires d.phase.Working?
  {
    && t.proposals == s.proposals && t.keys == s.keys && t.runs == s.runs
    && t.deliveries == s.deliveries - multiset{d}
         + multiset{Delivery(d.run, Failing(d.phase.token, d.phase.deadline, code))}
  }

  /** What becomes of the draft of a worker that holds its run. It is published exactly when nothing stands
      against it and the proposal may be created; an obstacle fails the run with its code at once; a proposal
      that may not be created leaves the failure to a second transaction. */
  lemma PublicationVerdict(
    steps: seq<Step>, s: Db, d: Delivery, pid: Id, draft: seq<Operation>, ids: seq<Id>, t: Db)
    requires Reachable(EMPTY, steps, s) && RunEnabled(s, PublishRun(d, pid, draft, ids)) && Holds(s, d)
    requires t == RunNext(s, PublishRun(d, pid, draft, ids))
    ensures var ops := WithIds(draft, ids);
      var task := s.runs[d.run].task;
      && (!MayPublish(s, d) ==> RefusedHere(s, t, d, Obstacle(s, d)))
      && (MayPublish(s, d) && MayCreate(s, pid, task, d.phase.owner, d.run, ops) ==> Published(s, t, d, pid, ops))
      && (MayPublish(s, d) && !MayCreate(s, pid, task, d.phase.owner, d.run, ops) ==>
            LeftToSecond(s, t, d,
              if s.tasks[task].owner == d.phase.owner && ConnectorRefuses(s, d.run, ops) then "invalid_operation"
              else "internal_error"))
  {
    hide Reachable, Inv, Judge, CreateProposal, MayCreate, RunsOk, MayPublish, Obstacle, ConnectorRefuses, Published,
      RefusedHere, LeftToSecond, WithIds;
    Reached(steps, s);
    InvRuns(s);
    HeldTask(s, d);
    var task := s.runs[d.run].task;
    CreatedIff(steps, s, pid, task, d.phase.owner, d.run, draft, ids);
    JudgeVerdict(s, d, pid, draft, ids);
    var made := CreateProposal(s, pid, task, d.phase.owner, d.run, draft, ids);
    if !MayPublish(s, d) {
      RecordedVerdict(s, d, pid, Obstacle(s, d));
    } else if made.Ok? {
      MadeVerdict(s, d, pid, draft, ids, made.value);
    } else {
      AbortedVerdict(s, d, pid, PublicFailure(made.error));
      MayPublishOpen(s, d);
      RefusalCode(s, pid, task, d.phase.owner, d.run, draft, ids);
    }
  }

  lemma MayPublishOpen(s: Db, d: Delivery)
    requires d.phase.Working? && d.run in s.runs && MayPublish(s, d)
    ensures OpenTask(s, s.runs[d.run].task)
  {
  }

  lemma HeldTask(s: Db, d: Delivery)
    requires RunsOk(s) && d.run in s.runs
    ensures s.runs[d.run].task in s.tasks
  {
    hide TokensOk, NoRunLost, HoldersOk, LeasesOk, GatesOk, OriginsOk;
  }

  lemma JudgeVerdict(s: Db, d: Delivery, pid: Id, draft: seq<Operation>, ids: seq<Id>)
    requires d.phase.Working? && |ids| == |draft| && Holds(s, d) && s.runs[d.run].task in s.tasks
    ensures var p := Judge(s, d, pid, draft, ids);
      var made := CreateProposal(s, pid, s.runs[d.run].task, d.phase.owner, d.run, draft, ids);
      p == if !MayPublish(s, d) then Recorded(Obstacle(s, d))
           else if made.Ok? then Made(made.value.proposals, made.value.keys) else Aborted(PublicFailure(made.error))
  {
    hide CreateProposal, PublicFailure;
  }

  lemma RecordedVerdict(s: Db, d: Delivery, pid: Id, code: string)
    requires d.phase.Working? && d.run in s.runs
    ensures RefusedHere(s, PublishWith(s, d, pid, Recorded(code)), d, code)
  {
  }

  lemma AbortedVerdict(s: Db, d: Delivery, pid: Id, code: string)
    requires d.phase.Working? && d.run in s.runs
    ensures LeftToSecond(s, PublishWith(s, d, pid, Aborted(code)), d, code)
  {
  }

  lemma MadeVerdict(s: Db, d: Delivery, pid: Id, draft: seq<Operation>, ids: seq<Id>, m: Db)
    requires d.phase.Working? && d.run in s.runs && |ids| == |draft|
    requires CreateProposal(s, pid, s.runs[d.run].task, d.phase.owner, d.run, draft, ids) == Ok(m)
    ensures Published(s, PublishWith(s, d, pid, Made(m.proposals, m.keys)), d, pid, WithIds(draft, ids))
  {
    hide CreateProposal, Greatest, Revisions;
    CreateProposalShape(s, pid, s.runs[d.run].task, d.phase.owner, d.run, draft, ids);
  }

  lemma {:induction false} FirstFaultInvalid(s: Db, origin: Id, ops: seq<Operation>)
    ensures FirstFault(s.records, origin, ops) == Some(ConnectorFault(Invalid)) <==> ConnectorRefuses(s, origin, ops)
  {
    hide OperationFault, WellMade, ConnectorAccepts;
    if ops != [] {
      FaultIff(s, origin, ops[0]);
      FirstFaultInvalid(s, origin, ops[1..]);
      if i :| RefusesFirst(s, origin, ops, i) {
        if i == 0 {
          assert !ConnectorAccepts(s, ops[0]);
        } else {
          assert WellMade(s, origin, ops[0]) && ConnectorAccepts(s, ops[0]);
          assert forall j | 0 <= j < i :: ops[1..][j] == ops[j + 1];
          assert RefusesFirst(s, origin, ops[1..], i - 1);
        }
      }
      if OperationFault(s.records, origin, ops[0]).None? {
        if i :| RefusesFirst(s, origin, ops[1..], i) {
          assert forall j | 1 <= j <= i + 1 :: ops[j] == ops[1..][j - 1];
          assert RefusesFirst(s, origin, ops, i + 1);
        }
      } else if WellMade(s, origin, ops[0]) {
        assert RefusesFirst(s, origin, ops, 0);
      }
    }
  }

  lemma RefusalCode(
    s: Db, pid: Id, task: Id, actor: Id, origin: Id, draft: seq<Operation>, ids: seq<Id>)
    requires |ids| == |draft| && CreateProposal(s, pid, task, actor, origin, draft, ids).Err?
    requires OpenTask(s, task)
    ensures PublicFailure(CreateProposal(s, pid, task, actor, origin, draft, ids).error)
      == if s.tasks[task].owner == actor && ConnectorRefuses(s, origin, WithIds(draft, ids)) then "invalid_operation"
         else "internal_error"
  {
    hide FirstFault, ConnectorRefuses, ReserveAll, Supersede, Greatest, Revisions;
    var ops := WithIds(draft, ids);
    PublicationFailureCodes(s, pid, task, actor, origin, draft, ids);
    FirstFaultInvalid(s, origin, ops);
    if pid != NO_ID && pid !in s.proposals {
      ReserveErrors(Supersede(s.proposals, task)[pid := NewRow(s, task, actor, origin, ops)], s.keys, pid, ops);
    }
  }

  // ---- Answers -------------------------------------------------------------------------------

  /** A value of the declared kind: integers within 2^53, numbers a float64 can hold, arrays of at most 64. */
  ghost predicate Fits(v: Written, f: Field) {
    match f.kind
    case "array" =>
      && v.ArrayAnswer? && |v.items| <= 64 && f.items.Some?
      && forall i | 0 <= i < |v.items| :: FitsScalar(v.items[i], f.items.value)
    case kind => FitsScalar(v, kind)
  }

  ghost predicate FitsScalar(v: Written, kind: string) {
    || (kind == "string" && v.StringAnswer?)
    || (kind == "boolean" && v.BoolAnswer?)
    || (kind == "integer" && v.NumberAnswer? && v.n.Digits? && -0x20_0000_0000_0000 <= v.n.n <= 0x20_0000_0000_0000)
    || (kind == "number" && v.NumberAnswer? && Floats.InRange(ValueOf(v.n)))
  }

  /** The answer suits the question: any object if no field is declared; otherwise declared fields only, each of
      its kind, and all that are required. */
  ghost predicate Suits(schema: Schema, response: Response) {
    && response.Response?
    && (schema.Spec? ==>
          var fields := if schema.properties.Some? then schema.properties.value
                        else if schema.requested.Some? then schema.requested.value else map[];
          && (forall name | name in response.values :: name in fields && Fits(response.values[name], fields[name]))
          && (forall i | 0 <= i < |schema.required| :: schema.required[i] in response.values))
  }

  lemma FitsIff(v: Written, f: Field)
    ensures ValueAllowed(v, f) <==> Fits(v, f)
  {
    hide Floats.Float64, Floats.InRange;
    forall w: Written, kind ensures ScalarAllowed(w, kind) <==> FitsScalar(w, kind) {
      if w.NumberAnswer? {
        Floats.Float64Iff(ValueOf(w.n));
      }
    }
  }

  lemma SuitsIff(schema: Schema, response: Response)
    requires ValidSchema(schema) && !schema.Blank?
    ensures ValidResponse(schema, response) <==> Suits(schema, response)
  {
    hide ValueAllowed, Fits;
    forall v, f ensures ValueAllowed(v, f) <==> Fits(v, f) {
      FitsIff(v, f);
    }
  }

  /** A pending question is settled exactly by a suitable answer, at its revision, of its active respondent; then
      the run that waits on it, if it is a run's, is queued with one delivery. Anything else changes nothing. */
  lemma AnswerVerdict(
    steps: seq<Step>, s: Db, gate: Id, actor: Id, revision: int, response: Response, t: Db)
    requires Reachable(EMPTY, steps, s) && t == RunNext(s, Answer(gate, actor, revision, response))
    requires gate in s.gates && s.gates[gate].status.GatePending?
    ensures var g := s.gates[gate];
      if IsActive(s, actor) && actor == g.respondent && revision == g.revision && Suits(g.schema, response) then
        && g.run in s.runs
        && t.gates == s.gates[gate := g.(status := GateResolved, response := response, respondedBy := actor)]
        && t.runs == s.runs[g.run := s.runs[g.run].(status := Queued, token := NO_ID, lease := None)]
        && t.deliveries == s.deliveries + multiset{Delivery(g.run, Idle)}
      else t == s
  {
    hide Reachable, Inv, GatesOk, ValidResponse, Suits, ValidSchema, ResolveGate, IsActive;
    Reached(steps, s);
    InvGates(s);
    PendingGate(s, gate);
    SuitsIff(s.gates[gate].schema, response);
    AnswerTakenIff(s, gate, actor, revision, response);
    if ResolveGate(s, gate, actor, revision, response).Some? {
      AnswerShape(s, t, gate, actor, revision, response);
    }
  }

  lemma AnswerTakenIff(s: Db, gate: Id, actor: Id, revision: int, response: Response)
    requires gate in s.gates && s.gates[gate].status.GatePending?
    ensures ResolveGate(s, gate, actor, revision, response).Some? <==>
      && IsActive(s, actor) && actor == s.gates[gate].respondent && revision == s.gates[gate].revision
      && ValidResponse(s.gates[gate].schema, response)
  {
    hide ValidResponse;
  }

  lemma PendingGate(s: Db, gate: Id)
    requires GatesOk(s.runs, s.gates) && gate in s.gates && s.gates[gate].status.GatePending?
    ensures var g := s.gates[gate];
      && g.run in s.runs && s.runs[g.run].status.Waiting? && s.runs[g.run].gate == gate
      && ValidSchema(g.schema) && !g.schema.Blank?
  {
    hide ValidSchema, ValidResponse, PendingFor;
  }

  // ---- Recovery ------------------------------------------------------------------------------

  /** The runs a sweep is there for: running past their lease, for a task that is neither done nor cancelled. */
  ghost predicate Stranded(s: Db, id: Id) {
    PastItsLease(s, id) && OpenTask(s, s.runs[id].task)
  }

  ghost function StrandedRuns(s: Db): set<Id> {
    set id | id in s.runs && Stranded(s, id)
  }

  /** A sweep takes as many stranded runs as its limit allows (20 unless it is positive), those first whose lease
      ended first; each is queued for one more attempt. */
  lemma SweepVerdict(steps: seq<Step>, s: Db, limit: int, chosen: set<Id>, t: Db)
    requires Reachable(EMPTY, steps, s) && RunEnabled(s, Sweep(limit, chosen)) && t == RunNext(s, Sweep(limit, chosen))
    ensures chosen <= StrandedRuns(s)
    ensures var most := if limit > 0 then limit else 20;
      |chosen| == if |StrandedRuns(s)| < most then |StrandedRuns(s)| else most
    ensures forall a, b | a in chosen && b in StrandedRuns(s) - chosen && s.runs[a].lease.Some? ::
      s.runs[b].lease.Some? && s.runs[a].lease.value <= s.runs[b].lease.value
    ensures t.runs.Keys == s.runs.Keys
    ensures forall r | r in chosen ::
      t.runs[r] == s.runs[r].(status := Queued, token := NO_ID, lease := None, attempt := s.runs[r].attempt + 1)
    ensures forall r | r in s.runs && r !in chosen :: t.runs[r] == s.runs[r]
  {
    hide Continuations, Reachable;
    StrandedIff(s);
  }

  lemma StrandedIff(s: Db)
    ensures EligibleRuns(s) == StrandedRuns(s)
  {
  }

  // ---- Admission -----------------------------------------------------------------------------

  /** Exactly who may start a run: under an active harness release whose runner is the agent's and known to this
      process, and which grants all that the agent declares; for an open task, as its owner or as an active admin. */
  ghost predicate MayStart(s: Db, id: Id, task: Id, actor: Id, agent: Id, release: Id, runners: set<string>) {
    && agent in s.agents
    && release in s.releases && s.releases[release].harness && ReleaseActive(s, release)
    && s.releases[release].runner == s.agents[agent].harness && s.agents[agent].harness in runners
    && (forall c | c in s.agents[agent].capabilities :: c in s.releases[release].granted)
    && OpenTask(s, task)
    && (actor == s.tasks[task].owner || (IsActive(s, actor) && s.principals[actor].role.Admin?))
    && id != NO_ID && id !in s.runs
  }

  lemma AdmissionVerdict(
    steps: seq<Step>, s: Db, id: Id, task: Id, actor: Id, agent: Id, release: Id, runners: set<string>, t: Db)
    requires Reachable(EMPTY, steps, s) && t == RunNext(s, StartRun(id, task, actor, agent, release, runners))
    ensures !MayStart(s, id, task, actor, agent, release, runners) ==> t == s
    ensures MayStart(s, id, task, actor, agent, release, runners) ==>
      && t.runs == s.runs[id := Run(task, agent, release, actor, Queued, 0, NO_ID, None, NO_ID, NO_ID, "")]
      && t.deliveries == s.deliveries + multiset{Delivery(id, Idle)}
  {
    hide Reachable;
    AdmittedIff(s, id, task, actor, agent, release, runners);
  }

  lemma AdmittedIff(s: Db, id: Id, task: Id, actor: Id, agent: Id, release: Id, runners: set<string>)
    ensures var t := CreateRun(s, id, task, actor, agent, release, runners);
      && (t.Some? <==> MayStart(s, id, task, actor, agent, release, runners))
      && (t.Some? ==>
            && t.value.runs == s.runs[id := Run(task, agent, release, actor, Queued, 0, NO_ID, None, NO_ID, NO_ID, "")]
            && t.value.deliveries == s.deliveries + multiset{Delivery(id, Idle)})
  {
  }

  // ---- Questions that can be asked -----------------------------------------------------------

  ghost predicate Scalar(kind: string) {
    kind in {"string", "integer", "number", "boolean"}
  }

  /** Exactly which schemas are accepted: none, white space, an empty object; or an object that declares a field at
      least, each a scalar or an array of scalars, and requires only what it declares. */
  lemma SchemaVerdict(schema: Schema)
    ensures ValidSchema(schema) <==> match schema
      case Absent => true
      case Blank => true
      case EmptyObject => true
      case Unparsable => false
      case Spec(properties, requested, required) =>
        var fields := if properties.Some? then properties.value
                      else if requested.Some? then requested.value else map[];
        && (exists name :: name in fields)
        && (forall name | name in fields ::
              Scalar(fields[name].kind)
              || (fields[name].kind == "array" && fields[name].items.Some? && Scalar(fields[name].items.value)))
        && (forall i | 0 <= i < |required| :: required[i] in fields)
  {
    if schema.Spec? {
      var fields := Declared(schema);
      assert fields.Keys == {} <==> !exists name :: name in fields;
      assert |fields| == |fields.Keys|;
    }
  }
}
