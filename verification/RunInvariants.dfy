/** Every transaction of the run protocol keeps RunsOk. */
module RunInvariants {
  import opened Wrappers
  import opened Connectors
  import opened GateSchemas
  import opened Tables
  import opened Proposals
  import opened Runs

  /** One run and one delivery change; `run` is what the run becomes, `e` the delivery. */
  ghost predicate StepFits(s: Db, d: Delivery, run: Run, e: Delivery, issued: set<Id>) {
    && d in s.deliveries && d.run in s.runs && e.run == d.run
    && run.task == s.runs[d.run].task
    && (run.token != NO_ID <==> run.status.Running?)
    && (run.status.Running? ==> run.lease.Some? && run.token in issued)
    && s.issued <= issued && NO_ID !in issued
    && (TokenOf(e.phase) != NO_ID ==>
          TokenOf(e.phase) == TokenOf(d.phase) || (TokenOf(e.phase) in issued && TokenOf(e.phase) !in s.issued))
    && (e.phase.Claimed? || e.phase.Working? || e.phase.Failing? ==> TokenOf(e.phase) != NO_ID)
  }

  lemma StepKeepsHolders(s: Db, d: Delivery, run: Run, e: Delivery, issued: set<Id>)
    requires HoldersOk(s.runs, s.deliveries, s.issued) && StepFits(s, d, run, e, issued)
    ensures HoldersOk(s.runs[d.run := run], s.deliveries - multiset{d} + multiset{e}, issued)
  {
    var after := s.deliveries - multiset{d} + multiset{e};
    forall f | f in after && TokenOf(f.phase) != NO_ID
      ensures TokenOf(f.phase) in issued && after[f] == 1
    {
      if f != e {
        assert f in s.deliveries;
      }
    }
    forall f, g | f in after && g in after && TokenOf(f.phase) != NO_ID && TokenOf(f.phase) == TokenOf(g.phase)
      ensures f == g
    {
      if f != e {
        assert f in s.deliveries;
      }
      if g != e {
        assert g in s.deliveries;
      }
    }
  }

  /** Another handler of the same run has nothing left to lose. */
  ghost predicate Displaced(f: Delivery, run: Run, now: int) {
    TokenOf(f.phase) != NO_ID ==>
      run.token != TokenOf(f.phase) && (now > DeadlineOf(f.phase) || run.status.RunCancelled?)
  }

  lemma StepKeepsLeases(s: Db, d: Delivery, run: Run, e: Delivery)
    requires LeasesOk(s.runs, s.deliveries, s.now) && HoldersOk(s.runs, s.deliveries, s.issued)
    requires d in s.deliveries && d.run in s.runs && e.run == d.run
    requires LeaseOk(s.runs[d.run := run], e, s.now)
    requires run == s.runs[d.run] || forall f | f in s.deliveries && f != d && f.run == d.run ::
      Displaced(f, run, s.now)
    ensures LeasesOk(s.runs[d.run := run], s.deliveries - multiset{d} + multiset{e}, s.now)
  {
    var after := s.deliveries - multiset{d} + multiset{e};
    forall f | f in after ensures LeaseOk(s.runs[d.run := run], f, s.now) {
      if f != e {
        assert f in s.deliveries && LeaseOk(s.runs, f, s.now);
      }
    }
  }

  /** Once the holder ends its hold, or its lease has run out, every other handler is displaced. */
  lemma OthersDisplaced(s: Db, d: Delivery, run: Run)
    requires LeasesOk(s.runs, s.deliveries, s.now) && HoldersOk(s.runs, s.deliveries, s.issued)
    requires d in s.deliveries && d.run in s.runs && !s.runs[d.run].status.RunCancelled?
    requires || (TokenOf(d.phase) != NO_ID && s.runs[d.run].token == TokenOf(d.phase) && run.token == NO_ID)
             || (Claimable(s.runs[d.run], s.now) && run.token !in s.issued)
    requires s.runs[d.run].status.Queued? ==> s.runs[d.run].token == NO_ID
    requires s.runs[d.run].status.Running? ==> s.runs[d.run].lease.Some?
    ensures forall f | f in s.deliveries && f != d && f.run == d.run :: Displaced(f, run, s.now)
  {
    forall f | f in s.deliveries && f != d && f.run == d.run ensures Displaced(f, run, s.now) {
      assert LeaseOk(s.runs, f, s.now);
    }
  }

  lemma StepKeepsGates(runs: map<Id, Run>, gates: map<Id, Gate>, id: Id, run: Run)
    requires GatesOk(runs, gates) && id in runs && !runs[id].status.Waiting? && !run.status.Waiting?
    ensures GatesOk(runs[id := run], gates)
  {
  }

  lemma StepKeepsOrigins(proposals: map<Id, Proposal>, runs: map<Id, Run>, id: Id, run: Run)
    requires OriginsOk(proposals, runs) && id in runs && !runs[id].status.Succeeded? && !run.status.Succeeded?
    ensures OriginsOk(proposals, runs[id := run])
  {
  }

  lemma StepKeepsRows(tasks: map<Id, Task>, runs: map<Id, Run>, id: Id, run: Run)
    requires TokensOk(runs) && RunTasksOk(tasks, runs) && id in runs
    requires run.task == runs[id].task && (LiveRun(run.status) ==> LiveRun(runs[id].status))
    requires run.token != NO_ID <==> run.status.Running?
    requires run.status.Running? ==> run.lease.Some?
    ensures TokensOk(runs[id := run]) && RunTasksOk(tasks, runs[id := run])
  {
  }

  /** A handler step that leaves its run, or takes it between queued, running and failed. */
  lemma StepKeeps(s: Db, t: Db, d: Delivery, run: Run, phase: Phase, issued: set<Id>)
    requires t == Settle(s, d, Some(run), phase).(issued := issued)
    requires RunsOk(s) && StepFits(s, d, run, d.(phase := phase), issued)
    requires run == s.runs[d.run]
      || (&& !s.runs[d.run].status.Waiting? && !s.runs[d.run].status.Succeeded? && LiveRun(s.runs[d.run].status)
          && (run.status.Running? || run.status.Failed?)
          && (forall f | f in s.deliveries && f != d && f.run == d.run :: Displaced(f, run, s.now)))
    requires LeaseOk(s.runs[d.run := run], d.(phase := phase), s.now)
    requires Accounted(d.run, run, s.deliveries - multiset{d} + multiset{d.(phase := phase)})
    ensures RunsOk(t)
  {
    hide TokensOk, NoRunLost, HoldersOk, LeasesOk, LeaseOk, GatesOk, RunTasksOk, OriginsOk, Accounted, Displaced;
    var e := d.(phase := phase);
    StepKeepsHolders(s, d, run, e, issued);
    StepKeepsLeases(s, d, run, e);
    HandlerKeepsDeliveries(s, d, phase, run);
    StepKeepsRows(s.tasks, s.runs, d.run, run);
    if run != s.runs[d.run] {
      StepKeepsGates(s.runs, s.gates, d.run, run);
      StepKeepsOrigins(s.proposals, s.runs, d.run, run);
    } else {
      assert s.runs[d.run := run] == s.runs;
    }
  }

  /** A handler step that leaves every run as it is. */
  lemma MoveKeeps(s: Db, d: Delivery, phase: Phase)
    requires RunsOk(s) && d in s.deliveries
    requires TokenOf(phase) == NO_ID || (TokenOf(phase) == TokenOf(d.phase) && DeadlineOf(phase) == DeadlineOf(d.phase))
    requires TokenOf(phase) != NO_ID || phase.Idle? || phase.Peeking? || phase.Returned?
    requires d.run in s.runs ==> Witness(d.run, s.runs[d.run], d) ==> Witness(d.run, s.runs[d.run], d.(phase := phase))
    ensures RunsOk(Move(s, d, phase))
  {
    hide TokensOk, GatesOk, RunTasksOk, OriginsOk, Accounted, NoRunLost;
    var e, t := d.(phase := phase), Move(s, d, phase);
    MovedKeepsAccounted(s, d, e);
    MovedKeepsHolders(s, d, e);
    assert RunsOk(t);
  }

  lemma MovedKeepsAccounted(s: Db, d: Delivery, e: Delivery)
    requires NoRunLost(s.runs, s.deliveries) && d in s.deliveries && e.run == d.run
    requires d.run in s.runs ==> Witness(d.run, s.runs[d.run], d) ==> Witness(d.run, s.runs[d.run], e)
    ensures NoRunLost(s.runs, s.deliveries - multiset{d} + multiset{e})
  {
    forall r | r in s.runs ensures Accounted(r, s.runs[r], s.deliveries - multiset{d} + multiset{e}) {
      MoveKeepsAccounted(r, s.runs[r], s.deliveries, d, e);
    }
  }

  lemma MovedKeepsHolders(s: Db, d: Delivery, e: Delivery)
    requires HoldersOk(s.runs, s.deliveries, s.issued) && LeasesOk(s.runs, s.deliveries, s.now)
    requires d in s.deliveries && e.run == d.run
    requires TokenOf(e.phase) == NO_ID
      || (TokenOf(e.phase) == TokenOf(d.phase) && DeadlineOf(e.phase) == DeadlineOf(d.phase))
    requires TokenOf(e.phase) != NO_ID || e.phase.Idle? || e.phase.Peeking? || e.phase.Returned?
    ensures var after := s.deliveries - multiset{d} + multiset{e};
      HoldersOk(s.runs, after, s.issued) && LeasesOk(s.runs, after, s.now)
  {
    var after := s.deliveries - multiset{d} + multiset{e};
    assert LeaseOk(s.runs, d, s.now);
    assert forall f | f in after && f != e :: f in s.deliveries;
  }

  /** A handler that works has a token, and has lost its run exactly when the run has another. */
  lemma HolderHasToken(s: Db, d: Delivery)
    requires RunsOk(s) && d in s.deliveries && (d.phase.Claimed? || d.phase.Working? || d.phase.Failing?)
    ensures TokenOf(d.phase) != NO_ID && d.run in s.runs
    ensures Holding(s, d) <==> s.runs[d.run].token == TokenOf(d.phase)
  {
  }

  lemma ClaimTakesRun(s: Db, t: Db, id: Id, token: Id, budget: int)
    requires RunsOk(s) && Delivery(id, Idle) in s.deliveries && token != NO_ID && token !in s.issued
    requires id in s.runs && Claimable(s.runs[id], s.now) && t == Claim(s, id, token, budget)
    ensures RunsOk(t)
  {
    hide TokensOk, HoldersOk, NoRunLost, GatesOk, RunTasksOk, OriginsOk, LeasesOk, Displaced, Claim, Claimable,
      StepFits;
    var d, deadline := Delivery(id, Idle), s.now + LeaseSeconds(budget);
    var run, phase := Taken(s.runs[id], token, deadline), Claimed(token, deadline);
    ClaimFits(s, t, id, token, budget);
    OthersDisplaced(s, d, run);
    assert d.(phase := phase) in t.deliveries && Witness(id, run, d.(phase := phase));
    StepKeeps(s, t, d, run, phase, s.issued + {token});
  }

  lemma ClaimFits(s: Db, t: Db, id: Id, token: Id, budget: int)
    requires TokensOk(s.runs) && HoldersOk(s.runs, s.deliveries, s.issued)
    requires Delivery(id, Idle) in s.deliveries && token != NO_ID && token !in s.issued
    requires id in s.runs && Claimable(s.runs[id], s.now) && t == Claim(s, id, token, budget)
    ensures var d, deadline := Delivery(id, Idle), s.now + LeaseSeconds(budget);
      var run, phase := Taken(s.runs[id], token, deadline), Claimed(token, deadline);
      && t == Settle(s, d, Some(run), phase).(issued := s.issued + {token})
      && StepFits(s, d, run, d.(phase := phase), s.issued + {token})
      && LiveRun(s.runs[id].status) && !s.runs[id].status.Waiting?
      && (s.runs[id].status.Queued? ==> s.runs[id].token == NO_ID)
      && (s.runs[id].status.Running? ==> s.runs[id].lease.Some?)
  {
  }

  lemma ClaimKeeps(s: Db, id: Id, token: Id, budget: int)
    requires RunsOk(s) && Delivery(id, Idle) in s.deliveries && token != NO_ID && token !in s.issued
    ensures RunsOk(Claim(s, id, token, budget))
  {
    if id in s.runs && Claimable(s.runs[id], s.now) {
      ClaimTakesRun(s, Claim(s, id, token, budget), id, token, budget);
    } else {
      MoveKeeps(s, Delivery(id, Idle), Peeking);
    }
  }

  lemma PeekKeeps(s: Db, id: Id)
    requires RunsOk(s) && Delivery(id, Peeking) in s.deliveries
    ensures RunsOk(Peek(s, id))
  {
    MoveKeeps(s, Delivery(id, Peeking), if id !in s.runs || s.runs[id].status.Running? then Idle else Returned);
  }

  lemma GatherKeeps(s: Db, d: Delivery, ok: bool)
    requires RunsOk(s) && d in s.deliveries && d.phase.Claimed?
    ensures RunsOk(Gather(s, d, ok))
  {
    var phase :=
      if ok && d.run in s.runs && s.runs[d.run].task in s.tasks
      then Working(d.phase.token, d.phase.deadline, s.tasks[s.runs[d.run].task].owner)
      else Failing(d.phase.token, d.phase.deadline, "internal_error");
    MoveKeeps(s, d, phase);
  }

  lemma RunnerFailedKeeps(s: Db, d: Delivery, code: string)
    requires RunsOk(s) && d in s.deliveries && d.phase.Working?
    ensures RunsOk(RunnerFailed(s, d, code))
  {
    MoveKeeps(s, d, Failing(d.phase.token, d.phase.deadline, if code == "" then "internal_error" else code));
  }

  /** A crash, or an error returned to the queue: the delivery will be handed out again. */
  lemma RetryKeeps(s: Db, d: Delivery)
    requires RunsOk(s) && d in s.deliveries
    ensures RunsOk(Move(s, d, Idle))
  {
    MoveKeeps(s, d, Idle);
  }

  /** A handler that lost its run returns without touching it. */
  lemma GiveUpKeeps(s: Db, d: Delivery)
    requires RunsOk(s) && d in s.deliveries && TokenOf(d.phase) != NO_ID
    requires d.run in s.runs ==> s.runs[d.run].token != TokenOf(d.phase)
    ensures RunsOk(Move(s, d, Returned))
  {
    MoveKeeps(s, d, Returned);
  }

  /** The holder ends its run as failed. The update need not look at the status: only a running run has
      a token. */
  lemma EndFailedKeeps(s: Db, t: Db, d: Delivery, code: string)
    requires d.run in s.runs && t == Settle(s, d, Some(AsFailed(s.runs[d.run], code)), Returned)
    requires RunsOk(s) && d in s.deliveries && TokenOf(d.phase) != NO_ID
    requires d.run in s.runs && s.runs[d.run].token == TokenOf(d.phase)
    ensures s.runs[d.run].status.Running?
    ensures RunsOk(t)
  {
    hide NoRunLost, GatesOk, RunTasksOk, OriginsOk, Displaced;
    var run := AsFailed(s.runs[d.run], code);
    OthersDisplaced(s, d, run);
    StepKeeps(s, t, d, run, Returned, s.issued);
  }

  lemma FailKeeps(s: Db, t: Db, d: Delivery)
    requires RunsOk(s) && d in s.deliveries && d.phase.Failing? && t == Fail(s, d)
    ensures RunsOk(t)
  {
    hide RunsOk;
    HolderHasToken(s, d);
    if d.run in s.runs && s.runs[d.run].token == d.phase.token {
      EndFailedKeeps(s, t, d, d.phase.code);
    } else {
      GiveUpKeeps(s, d);
    }
  }

  lemma FewerKeepHolders(
    runs: map<Id, Run>, deliveries: multiset<Delivery>, fewer: multiset<Delivery>, issued: set<Id>, now: int)
    requires HoldersOk(runs, deliveries, issued) && LeasesOk(runs, deliveries, now) && fewer <= deliveries
    ensures HoldersOk(runs, fewer, issued) && LeasesOk(runs, fewer, now)
  {
    assert forall f | f in fewer :: f in deliveries && fewer[f] <= deliveries[f];
  }

  lemma AcknowledgeKeeps(s: Db, t: Db, d: Delivery)
    requires RunsOk(s) && d in s.deliveries && d.phase.Returned? && t == s.(deliveries := s.deliveries - multiset{d})
    ensures RunsOk(t)
  {
    var after := s.deliveries - multiset{d};
    hide TokensOk, GatesOk, RunTasksOk, OriginsOk;
    forall r | r in s.runs ensures Accounted(r, s.runs[r], after) {
      if s.runs[r].status.Queued? || s.runs[r].status.Running? {
        assert Accounted(r, s.runs[r], s.deliveries);
        var w :| w in s.deliveries && Witness(r, s.runs[r], w);
        assert w in after;
      }
    }
    FewerKeepHolders(s.runs, s.deliveries, after, s.issued, s.now);
    assert RunsOk(t);
  }

  // ---- Parking and publishing ----------------------------------------------------------------

  lemma ParkKeepsGates(runs: map<Id, Run>, gates: map<Id, Gate>, id: Id, gate: Id, row: Gate)
    requires GatesOk(runs, gates) && id in runs && !runs[id].status.Waiting? && gate !in gates
    requires row.run == id && row.task == runs[id].task && row.status.GatePending? && row.revision == 1
    requires ValidSchema(row.schema) && !row.schema.Blank?
    ensures GatesOk(runs[id := AsWaiting(runs[id], gate)], gates[gate := row])
  {
  }

  /** The holder ends its hold without failing: its run waits, or has published. */
  lemma ReleaseKeeps(s: Db, d: Delivery, run: Run)
    requires RunsOk(s) && d in s.deliveries && Holding(s, d) && TokenOf(d.phase) != NO_ID
    requires run.task == s.runs[d.run].task && run.token == NO_ID && (run.status.Waiting? || run.status.Succeeded?)
    ensures var runs, deliveries := s.runs[d.run := run], s.deliveries - multiset{d} + multiset{d.(phase := Returned)};
      && TokensOk(runs) && RunTasksOk(s.tasks, runs)
      && NoRunLost(runs, deliveries)
      && HoldersOk(runs, deliveries, s.issued)
      && LeasesOk(runs, deliveries, s.now)
  {
    var e := d.(phase := Returned);
    OthersDisplaced(s, d, run);
    StepKeepsRows(s.tasks, s.runs, d.run, run);
    StepKeepsHolders(s, d, run, e, s.issued);
    StepKeepsLeases(s, d, run, e);
    HandlerKeepsDeliveries(s, d, Returned, run);
  }

  lemma ParkWaits(s: Db, t: Db, d: Delivery, gate: Id, row: Gate)
    requires RunsOk(s) && d in s.deliveries && Holding(s, d) && TokenOf(d.phase) != NO_ID
    requires t == Settle(s.(gates := s.gates[gate := row]), d, Some(AsWaiting(s.runs[d.run], gate)), Returned)
    requires gate !in s.gates && row.run == d.run && row.task == s.runs[d.run].task
    requires row.status.GatePending? && row.revision == 1 && ValidSchema(row.schema) && !row.schema.Blank?
    ensures RunsOk(t)
  {
    ReleaseKeeps(s, d, AsWaiting(s.runs[d.run], gate));
    ParkKeepsGates(s.runs, s.gates, d.run, gate, row);
    StepKeepsOrigins(s.proposals, s.runs, d.run, AsWaiting(s.runs[d.run], gate));
  }

  /** A run that is running has no pending question, so adopting one does not arise. */
  lemma NoQuestionYet(s: Db, d: Delivery)
    requires GatesOk(s.runs, s.gates)
    ensures Holding(s, d) ==> forall g :: !PendingFor(s.gates, g, d.run)
  {
  }

  lemma ParkKeeps(s: Db, t: Db, d: Delivery, gate: Id, schema: Schema, respondent: Id)
    requires RunsOk(s) && d in s.deliveries && d.phase.Working?
    requires t == Park(s, d, gate, schema, respondent)
    ensures RunsOk(t)
  {
    hide TokensOk, NoRunLost, HoldersOk, LeasesOk, RunTasksOk, OriginsOk, GatesOk, ValidSchema;
    HolderHasToken(s, d);
    NoQuestionYet(s, d);
    match Ask(s, d, gate, schema, respondent)
    case Lost => GiveUpKeeps(s, d);
    case Unusable => RetryKeeps(s, d);
    case Asked(g) =>
    case New(row) => ParkWaits(s, t, d, gate, row);
  }

  lemma PublishKeepsOrigins(
    proposals: map<Id, Proposal>, after: map<Id, Proposal>, runs: map<Id, Run>, id: Id, run: Run, pid: Id)
    requires OriginsOk(proposals, runs) && id in runs && id != NO_ID
    requires !runs[id].status.Succeeded? && run.status.Succeeded? && run.proposal == pid
    requires pid !in proposals && after.Keys == proposals.Keys + {pid}
    requires after[pid].originRun == id && after[pid].task == run.task
    requires forall p | p in proposals ::
      after[p].originRun == proposals[p].originRun && after[p].task == proposals[p].task
    ensures OriginsOk(after, runs[id := run])
  {
  }

  /** What creating a proposal adds and leaves. */
  lemma CreateProposalShape(
    s: Db, pid: Id, task: Id, actor: Id, origin: Id, draft: seq<Operation>, ids: seq<Id>)
    requires |ids| == |draft| && CreateProposal(s, pid, task, actor, origin, draft, ids).Ok?
    ensures var t := CreateProposal(s, pid, task, actor, origin, draft, ids).value;
      && t == s.(proposals := t.proposals, keys := t.keys)
      && pid !in s.proposals && t.proposals.Keys == s.proposals.Keys + {pid}
      && t.proposals[pid] == NewRow(s, task, actor, origin, WithIds(draft, ids))
      && (forall p | p in s.proposals ::
            t.proposals[p] == s.proposals[p].(status := t.proposals[p].status)
            && (Live(t.proposals[p].status) ==> t.proposals[p] == s.proposals[p]))
  {
    hide FirstFault, ReserveAll, Greatest, Revisions;
  }

  lemma PublishSucceeds(s: Db, t: Db, d: Delivery, pid: Id, draft: seq<Operation>, ids: seq<Id>)
    requires RunsOk(s) && d in s.deliveries && d.phase.Working? && Holding(s, d) && |ids| == |draft|
    requires var run := s.runs[d.run];
      var created := CreateProposal(s, pid, run.task, d.phase.owner, d.run, draft, ids);
      && created.Ok?
      && t == Settle(s.(proposals := created.value.proposals, keys := created.value.keys), d,
                     Some(AsPublished(run, pid)), Returned)
    ensures RunsOk(t)
  {
    var run := t.runs[d.run];
    assert TokenOf(d.phase) != NO_ID;
    CreateProposalShape(s, pid, run.task, d.phase.owner, d.run, draft, ids);
    ReleaseKeeps(s, d, run);
    StepKeepsGates(s.runs, s.gates, d.run, run);
    PublishKeepsOrigins(s.proposals, t.proposals, s.runs, d.run, run, pid);
  }

  lemma JudgeIs(s: Db, d: Delivery, pid: Id, draft: seq<Operation>, ids: seq<Id>)
    requires d.phase.Working? && |ids| == |draft|
    ensures var p := Judge(s, d, pid, draft, ids);
      && (p.Gone? <==> !Holding(s, d))
      && (p.Made? ==>
            && s.runs[d.run].task in s.tasks && Open(s.tasks[s.runs[d.run].task].status)
            && s.runs[d.run].release in s.releases && s.releases[s.runs[d.run].release].State().Active?
            && ActivePrincipal(s.principals, d.phase.owner) && ActivePrincipal(s.principals, s.runs[d.run].createdBy)
            && var made := CreateProposal(s, pid, s.runs[d.run].task, d.phase.owner, d.run, draft, ids);
            made.Ok? && p.proposals == made.value.proposals && p.keys == made.value.keys)
  {
    hide CreateProposal, ActivePrincipal;
  }

  lemma PublishKeeps(s: Db, t: Db, d: Delivery, pid: Id, draft: seq<Operation>, ids: seq<Id>)
    requires RunsOk(s) && d in s.deliveries && d.phase.Working? && |ids| == |draft|
    requires t == Publish(s, d, pid, draft, ids)
    ensures RunsOk(t)
  {
    hide RunsOk, CreateProposal, Judge;
    HolderHasToken(s, d);
    JudgeIs(s, d, pid, draft, ids);
    match Judge(s, d, pid, draft, ids)
    case Gone => GiveUpKeeps(s, d);
    case TaskUnread => RetryKeeps(s, d);
    case Recorded(code) => EndFailedKeeps(s, t, d, code);
    case Aborted(code) => MoveKeeps(s, d, Failing(d.phase.token, d.phase.deadline, code));
    case Made(_, _) => PublishSucceeds(s, t, d, pid, draft, ids);
  }

  // ---- Admission, answers, recovery, cancellation --------------------------------------------

  lemma EnqueueKeeps(
    runs: map<Id, Run>, deliveries: multiset<Delivery>, more: multiset<Delivery>, issued: set<Id>, now: int)
    requires forall d | d in more :: d.phase.Idle?
    requires HoldersOk(runs, deliveries, issued) && LeasesOk(runs, deliveries, now)
    ensures HoldersOk(runs, deliveries + more, issued) && LeasesOk(runs, deliveries + more, now)
  {
    assert forall d | d in deliveries + more && !d.phase.Idle? :: d in deliveries && d !in more;
  }

  lemma EnqueueKeepsAccounted(id: Id, run: Run, deliveries: multiset<Delivery>, more: multiset<Delivery>)
    requires Accounted(id, run, deliveries)
    ensures Accounted(id, run, deliveries + more)
  {
    if run.status.Queued? || run.status.Running? {
      var w :| w in deliveries && Witness(id, run, w);
      assert w in deliveries + more;
    }
  }

  lemma RedeliverKeeps(s: Db, id: Id)
    requires RunsOk(s)
    ensures RunsOk(Redeliver(s, id))
  {
    hide TokensOk, HoldersOk, LeasesOk, GatesOk, RunTasksOk, OriginsOk, Accounted;
    var more := multiset{Delivery(id, Idle)};
    forall r | r in s.runs ensures Accounted(r, s.runs[r], s.deliveries + more) {
      EnqueueKeepsAccounted(r, s.runs[r], s.deliveries, more);
    }
    EnqueueKeeps(s.runs, s.deliveries, more, s.issued, s.now);
  }

  lemma CreateRunKeeps(
    s: Db, t: Db, id: Id, task: Id, actor: Id, agent: Id, release: Id, runners: set<string>)
    requires RunsOk(s) && CreateRun(s, id, task, actor, agent, release, runners) == Some(t)
    ensures RunsOk(t)
  {
    hide TokensOk, NoRunLost, HoldersOk, LeasesOk, GatesOk, RunTasksOk, OriginsOk;
    NewRunQueued(s, t, id);
    NewRunKeeps(s, t, id);
  }

  lemma NewRunQueued(s: Db, t: Db, id: Id)
    requires NoRunLost(s.runs, s.deliveries) && HoldersOk(s.runs, s.deliveries, s.issued)
    requires LeasesOk(s.runs, s.deliveries, s.now)
    requires id !in s.runs && id in t.runs && t.runs == s.runs[id := t.runs[id]] && t.runs[id].status.Queued?
    requires t.deliveries == s.deliveries + multiset{Delivery(id, Idle)}
    ensures NoRunLost(t.runs, t.deliveries)
    ensures HoldersOk(t.runs, t.deliveries, s.issued) && LeasesOk(t.runs, t.deliveries, s.now)
  {
    var d := Delivery(id, Idle);
    EnqueueKeeps(s.runs, s.deliveries, multiset{d}, s.issued, s.now);
    forall r | r in t.runs ensures Accounted(r, t.runs[r], t.deliveries) {
      if r == id {
        assert d in t.deliveries && Witness(id, t.runs[id], d);
      } else {
        EnqueueKeepsAccounted(r, s.runs[r], s.deliveries, multiset{d});
      }
    }
    forall f | f in t.deliveries ensures LeaseOk(t.runs, f, s.now) {
      assert LeaseOk(s.runs, f, s.now);
    }
  }

  lemma NewRunKeeps(s: Db, t: Db, id: Id)
    requires TokensOk(s.runs) && GatesOk(s.runs, s.gates) && RunTasksOk(s.tasks, s.runs)
      && OriginsOk(s.proposals, s.runs)
    requires id !in s.runs && id != NO_ID && t.runs.Keys == s.runs.Keys + {id}
      && t == s.(runs := t.runs, deliveries := t.deliveries)
    requires forall r | r in s.runs :: t.runs[r] == s.runs[r]
    requires t.runs[id].status.Queued? && t.runs[id].token == NO_ID
    requires t.runs[id].task in s.tasks && Open(s.tasks[t.runs[id].task].status)
    ensures TokensOk(t.runs) && GatesOk(t.runs, t.gates) && RunTasksOk(t.tasks, t.runs)
      && OriginsOk(t.proposals, t.runs)
  {
  }

  /** Runs returned to the queue: parked ones, and running ones whose lease has ended. */
  ghost predicate TakenBack(s: Db, runs: map<Id, Run>, back: set<Id>) {
    && back <= s.runs.Keys && runs.Keys == s.runs.Keys
    && (forall r | r in s.runs && r !in back :: runs[r] == s.runs[r])
    && (forall r | r in back ::
          && runs[r] == Resumed(s.runs[r]).(attempt := runs[r].attempt)
          && (s.runs[r].status.Waiting? || (s.runs[r].status.Running? && LeaseExpired(s.runs[r], s.now))))
  }

  lemma ResumeKeepsDeliveries(s: Db, runs: map<Id, Run>, back: set<Id>)
    requires NoRunLost(s.runs, s.deliveries) && TakenBack(s, runs, back)
    ensures NoRunLost(runs, s.deliveries + Continuations(back))
  {
    var more := Continuations(back);
    forall r | r in runs ensures Accounted(r, runs[r], s.deliveries + more) {
      if r in back {
        assert Delivery(r, Idle) in more && Witness(r, runs[r], Delivery(r, Idle));
      } else {
        EnqueueKeepsAccounted(r, s.runs[r], s.deliveries, more);
      }
    }
  }

  lemma ResumeKeepsHolders(s: Db, runs: map<Id, Run>, back: set<Id>)
    requires TokensOk(s.runs) && HoldersOk(s.runs, s.deliveries, s.issued) && LeasesOk(s.runs, s.deliveries, s.now)
    requires TakenBack(s, runs, back)
    ensures HoldersOk(runs, s.deliveries + Continuations(back), s.issued)
    ensures LeasesOk(runs, s.deliveries + Continuations(back), s.now)
  {
    hide Continuations;
    forall f | f in s.deliveries ensures LeaseOk(runs, f, s.now) {
      assert LeaseOk(s.runs, f, s.now);
    }
    ContinuationsIdle(back);
    EnqueueKeeps(runs, s.deliveries, Continuations(back), s.issued, s.now);
  }

  lemma ContinuationsIdle(back: set<Id>)
    ensures forall d | d in Continuations(back) :: d.phase.Idle?
  {
  }

  lemma ResumeKeeps(s: Db, t: Db, back: set<Id>)
    requires RunsOk(s) && TakenBack(s, t.runs, back) && GatesOk(t.runs, t.gates)
    requires t == s.(runs := t.runs, gates := t.gates, deliveries := s.deliveries + Continuations(back))
    ensures RunsOk(t)
  {
    hide TokensOk, NoRunLost, HoldersOk, LeasesOk, GatesOk, RunTasksOk, OriginsOk;
    ResumeKeepsDeliveries(s, t.runs, back);
    ResumeKeepsHolders(s, t.runs, back);
    ResumeKeepsRows(s, t.runs, back);
  }

  lemma ResumeKeepsRows(s: Db, runs: map<Id, Run>, back: set<Id>)
    requires TokensOk(s.runs) && RunTasksOk(s.tasks, s.runs) && OriginsOk(s.proposals, s.runs)
    requires back <= s.runs.Keys && runs.Keys == s.runs.Keys
    requires forall r | r in s.runs && r !in back :: runs[r] == s.runs[r]
    requires forall r | r in back ::
      runs[r] == Resumed(s.runs[r]).(attempt := runs[r].attempt) && LiveRun(s.runs[r].status)
    ensures TokensOk(runs) && RunTasksOk(s.tasks, runs) && OriginsOk(s.proposals, runs)
  {
  }

  function Answered(gate: Gate, actor: Id, response: Response): Gate {
    gate.(status := GateResolved, response := response, respondedBy := actor)
  }

  /** What an answer writes: nothing when it is a replay, otherwise the question, and the run that waits on it. */
  lemma AnswerShape(s: Db, t: Db, gate: Id, actor: Id, revision: int, response: Response)
    requires ResolveGate(s, gate, actor, revision, response) == Some(t)
    ensures gate in s.gates && (s.gates[gate].status.GatePending? || t == s)
    ensures s.gates[gate].status.GatePending? ==>
      var run := s.gates[gate].run;
      var resumes := run in s.runs && s.runs[run].status.Waiting? && s.runs[run].gate == gate;
      && s.gates[gate].respondent == actor && ValidResponse(s.gates[gate].schema, response)
      && t == s.(gates := s.gates[gate := Answered(s.gates[gate], actor, response)],
                 runs := if resumes then s.runs[run := Resumed(s.runs[run])] else s.runs,
                 deliveries := if resumes then s.deliveries + multiset{Delivery(run, Idle)} else s.deliveries)
  {
    hide ValidResponse, ActivePrincipal, Resumed;
  }

  lemma ResolveGateKeeps(s: Db, t: Db, gate: Id, actor: Id, revision: int, response: Response)
    requires RunsOk(s) && ResolveGate(s, gate, actor, revision, response) == Some(t)
    ensures RunsOk(t)
  {
    hide TokensOk, NoRunLost, HoldersOk, LeasesOk, RunTasksOk, OriginsOk, ValidResponse, ValidSchema, ResolveGate;
    AnswerShape(s, t, gate, actor, revision, response);
    if s.gates[gate].status.GatePending? {
      var run := s.gates[gate].run;
      assert run in s.runs && s.runs[run].status.Waiting? && s.runs[run].gate == gate;
      OneQueued(run);
      ResolveKeepsGates(s, t, gate);
      ResumeKeeps(s, t, {run});
    }
  }

  lemma OneQueued(run: Id)
    ensures Continuations({run}) == multiset{Delivery(run, Idle)}
  {
    assert (set id | id in {run} :: Delivery(id, Idle)) == {Delivery(run, Idle)};
  }

  lemma ResolveKeepsGates(s: Db, t: Db, gate: Id)
    requires GatesOk(s.runs, s.gates) && gate in s.gates && s.gates[gate].status.GatePending?
    requires gate in t.gates && t.gates == s.gates[gate := t.gates[gate]] && t.gates[gate].status.GateResolved?
    requires t.gates[gate].schema == s.gates[gate].schema && t.gates[gate].revision == 1
    requires ValidResponse(t.gates[gate].schema, t.gates[gate].response)
    requires t.gates[gate].respondedBy == t.gates[gate].respondent
    requires t.runs == s.runs[s.gates[gate].run := Resumed(s.runs[s.gates[gate].run])]
    ensures GatesOk(t.runs, t.gates)
  {
  }

  lemma ReclaimKeeps(s: Db, t: Db, chosen: set<Id>)
    requires RunsOk(s) && chosen <= EligibleRuns(s) && t == Reclaim(s, chosen)
    ensures RunsOk(t)
  {
    hide TokensOk, NoRunLost, HoldersOk, LeasesOk, RunTasksOk, OriginsOk;
    assert GatesOk(t.runs, t.gates);
    ResumeKeeps(s, t, chosen);
  }

  lemma CancelKeeps(s: Db, t: Db, task: Id)
    requires RunsOk(s)
    requires t.runs == CancelRuns(s.runs, task) && t.gates == CancelGates(s.gates, task)
    requires t.deliveries == s.deliveries && t.issued == s.issued && t.now == s.now
    requires s.tasks.Keys <= t.tasks.Keys
    requires forall k | k in s.tasks && k != task ::
      t.tasks[k].status.TaskCancelled? ==> s.tasks[k].status.TaskCancelled?
    requires t.proposals.Keys == s.proposals.Keys
    requires forall p | p in s.proposals :: t.proposals[p] == s.proposals[p].(status := t.proposals[p].status)
    ensures RunsOk(t)
  {
    forall r | r in t.runs ensures Accounted(r, t.runs[r], t.deliveries) {
      assert Accounted(r, s.runs[r], s.deliveries);
    }
    forall f | f in t.deliveries ensures LeaseOk(t.runs, f, t.now) {
      assert LeaseOk(s.runs, f, s.now);
    }
    assert HoldersOk(t.runs, t.deliveries, t.issued);
    CancelKeepsRows(s, t, task);
  }

  lemma CancelKeepsRows(s: Db, t: Db, task: Id)
    requires TokensOk(s.runs) && GatesOk(s.runs, s.gates) && RunTasksOk(s.tasks, s.runs)
      && OriginsOk(s.proposals, s.runs)
    requires t.runs == CancelRuns(s.runs, task) && t.gates == CancelGates(s.gates, task)
    requires s.tasks.Keys <= t.tasks.Keys
    requires forall k | k in s.tasks && k != task ::
      t.tasks[k].status.TaskCancelled? ==> s.tasks[k].status.TaskCancelled?
    requires t.proposals.Keys == s.proposals.Keys
    requires forall p | p in s.proposals :: t.proposals[p] == s.proposals[p].(status := t.proposals[p].status)
    ensures TokensOk(t.runs) && GatesOk(t.runs, t.gates) && RunTasksOk(t.tasks, t.runs)
      && OriginsOk(t.proposals, t.runs)
  {
    hide GatesOk, OriginsOk;
    CancelKeepsGates(s.runs, s.gates, task);
    CancelKeepsOrigins(s.proposals, t.proposals, s.runs, task);
  }

  lemma CancelKeepsGates(runs: map<Id, Run>, gates: map<Id, Gate>, task: Id)
    requires GatesOk(runs, gates)
    ensures GatesOk(CancelRuns(runs, task), CancelGates(gates, task))
  {
  }

  lemma CancelKeepsOrigins(proposals: map<Id, Proposal>, after: map<Id, Proposal>, runs: map<Id, Run>, task: Id)
    requires OriginsOk(proposals, runs) && after.Keys == proposals.Keys
    requires forall p | p in proposals :: after[p] == proposals[p].(status := after[p].status)
    ensures OriginsOk(after, CancelRuns(runs, task))
  {
  }

  lemma TickKeeps(s: Db, t: Db, seconds: nat)
    requires RunsOk(s) && t == s.(now := s.now + seconds)
    ensures RunsOk(t)
  {
    forall f | f in t.deliveries ensures LeaseOk(t.runs, f, t.now) {
      assert LeaseOk(s.runs, f, s.now);
    }
  }

  /** Steps of the proposal and handoff tables do not disturb the runs. */
  lemma OtherTablesKeep(s: Db, t: Db)
    requires RunsOk(s)
    requires t.runs == s.runs && t.gates == s.gates && t.deliveries == s.deliveries && t.issued == s.issued
      && t.now == s.now
    requires s.tasks.Keys <= t.tasks.Keys
    requires forall k | k in s.tasks :: t.tasks[k].status.TaskCancelled? ==> s.tasks[k].status.TaskCancelled?
    requires s.proposals.Keys <= t.proposals.Keys
    requires forall p | p in s.proposals :: t.proposals[p] == s.proposals[p].(status := t.proposals[p].status)
    requires forall p | p in t.proposals && p !in s.proposals :: t.proposals[p].originRun == NO_ID
    ensures RunsOk(t)
  {
    assert RunTasksOk(t.tasks, t.runs);
    assert OriginsOk(t.proposals, t.runs);
  }
}
