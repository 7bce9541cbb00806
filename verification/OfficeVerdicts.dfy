/** When handoffs, releases, tasks and dependencies change, spelled out by the rows. */
module OfficeVerdicts {
  import opened Wrappers
  import opened Connectors
  import opened Tables
  import opened Proposals
  import opened Runs
  import opened Graph
  import opened Kernel
  import opened Invariant
  import opened Monotone
  import opened Guarantees
  import opened Verdicts
  import opened RunVerdicts
  import H = Handoffs
  import R = Releases

  // ---- Handoffs ------------------------------------------------------------------------------

  /** It can still be answered: offered or in clarification, and not overdue. */
  ghost predicate Answerable(s: Db, id: Id) {
    && id in s.handoffs
    && (s.handoffs[id].state.Offered? || s.handoffs[id].state.ClarificationRequested?)
    && (s.handoffs[id].expiresAt.Some? ==> s.now < s.handoffs[id].expiresAt.value)
  }

  ghost predicate MayAccept(s: Db, id: Id, actor: Id) {
    && Answerable(s, id) && s.handoffs[id].recipient == actor && s.handoffs[id].task in s.tasks
    && s.tasks[s.handoffs[id].task].owner == s.handoffs[id].createdBy
    && s.tasks[s.handoffs[id].task].version == s.handoffs[id].offeredVersion
  }

  /** An offer is accepted exactly by its recipient, before it is overdue, while its creator owns the task at the
      version offered: the responsibility moves, and the version. Anything else changes nothing. */
  lemma AcceptVerdict(s: Db, id: Id, actor: Id, t: Db)
    requires t == OfficeNext(s, Accept(id, actor))
    ensures !MayAccept(s, id, actor) ==> t == s
    ensures MayAccept(s, id, actor) ==>
      var h := s.handoffs[id];
      var task := s.tasks[h.task];
      && t.handoffs == s.handoffs[id := h.(state := Accepted)]
      && t.tasks == s.tasks[h.task := if h.role.OwnerRole? then task.(owner := actor, version := task.version + 1)
                                     else task.(assignee := actor, version := task.version + 1)]
  {
    AcceptIff(s, id, actor);
  }

  lemma AcceptIff(s: Db, id: Id, actor: Id)
    ensures var t := H.Accept(s, id, actor);
      && (!MayAccept(s, id, actor) ==> t.None? || t.value == s)
      && (MayAccept(s, id, actor) ==>
            && t.Some?
            && var h := s.handoffs[id];
               var task := s.tasks[h.task];
               && t.value.handoffs == s.handoffs[id := h.(state := Accepted)]
               && t.value.tasks == s.tasks[h.task :=
                    if h.role.OwnerRole? then task.(owner := actor, version := task.version + 1)
                    else task.(assignee := actor, version := task.version + 1)])
  {
  }

  ghost predicate MayOffer(s: Db, id: Id, task: Id, actor: Id, recipient: Id, role: HandoffRole) {
    && !role.OtherRole? && task in s.tasks && (actor == s.tasks[task].owner || actor == s.tasks[task].assignee)
    && IsActive(s, recipient) && id !in s.handoffs
    && (role.OwnerRole? ==> |OwnershipMoves(s, task)| < 5)
  }

  ghost function OwnershipMoves(s: Db, task: Id): set<Id> {
    set h | h in s.handoffs && s.handoffs[h].task == task && s.handoffs[h].role.OwnerRole?
      && s.handoffs[h].state.Accepted?
  }

  /** Responsibility is offered exactly by the owner or assignee of a task, to an active recipient, and ownership at
      most while fewer than five transfers were accepted. */
  lemma OfferVerdict(s: Db, id: Id, task: Id, actor: Id, recipient: Id, role: HandoffRole, expiresAt: int, t: Db)
    requires t == OfficeNext(s, Offer(id, task, actor, recipient, role, expiresAt))
    ensures !MayOffer(s, id, task, actor, recipient, role) ==> t == s
    ensures MayOffer(s, id, task, actor, recipient, role) ==>
      t.handoffs == s.handoffs[id :=
        Handoff(task, recipient, actor, role, Offered, s.tasks[task].version,
                if role.OwnerRole? then |OwnershipMoves(s, task)| + 1 else 1, Some(expiresAt))]
  {
    OfferIff(s, id, task, actor, recipient, role, expiresAt);
  }

  lemma OfferIff(s: Db, id: Id, task: Id, actor: Id, recipient: Id, role: HandoffRole, expiresAt: int)
    ensures var t := H.Offer(s, id, task, actor, recipient, role, expiresAt);
      && (t.Some? <==> MayOffer(s, id, task, actor, recipient, role))
      && (t.Some? ==> t.value.handoffs == s.handoffs[id :=
            Handoff(task, recipient, actor, role, Offered, s.tasks[task].version,
                    if role.OwnerRole? then |OwnershipMoves(s, task)| + 1 else 1, Some(expiresAt))])
  {
    assert H.AcceptedOwner(s.handoffs, task) == OwnershipMoves(s, task);
  }

  /** The recipient may decline or ask, the creator withdraw, as long as the offer can be answered. */
  ghost predicate MayReply(s: Db, id: Id, actor: Id, state: HandoffState) {
    && Answerable(s, id)
    && match state
       case Declined => actor == s.handoffs[id].recipient
       case ClarificationRequested => actor == s.handoffs[id].recipient
       case Withdrawn => actor == s.handoffs[id].createdBy
       case _ => false
  }

  lemma ReplyVerdict(s: Db, id: Id, actor: Id, state: HandoffState, t: Db)
    requires t == OfficeNext(s, Reply(id, actor, state))
    ensures !MayReply(s, id, actor, state) ==> t == s
    ensures MayReply(s, id, actor, state) ==> t.handoffs == s.handoffs[id := s.handoffs[id].(state := state)]
  {
    ReplyIff(s, id, actor, state);
  }

  lemma ReplyIff(s: Db, id: Id, actor: Id, state: HandoffState)
    ensures var t := H.Reply(s, id, actor, state);
      && (t.Some? <==> MayReply(s, id, actor, state))
      && (t.Some? ==> t.value.handoffs == s.handoffs[id := s.handoffs[id].(state := state)])
  {
  }

  /** Expiry touches exactly the offers that are open and overdue. */
  lemma ExpiryVerdict(s: Db, ids: set<Id>, t: Db)
    requires t == OfficeNext(s, Expire(ids))
    ensures t.tasks == s.tasks && t.handoffs.Keys == s.handoffs.Keys
    ensures forall h | h in s.handoffs ::
      var open := s.handoffs[h].state.Offered? || s.handoffs[h].state.ClarificationRequested?;
      t.handoffs[h] == if h in ids && open && !Answerable(s, h) then s.handoffs[h].(state := Expired) else s.handoffs[h]
  {
  }

  // ---- Releases ------------------------------------------------------------------------------

  /** The lifecycle, edge by edge. */
  const LIFECYCLE: set<(ReleaseState, ReleaseState)> :=
    {(Quarantined, ReleaseVerified), (ReleaseVerified, ReleaseApproved), (ReleaseApproved, Installed),
     (Installed, Active), (Active, Draining), (Active, Revoked), (Draining, Disabled), (Disabled, Active)}

  ghost predicate MayMove(s: Db, id: Id, role: Role, target: ReleaseState, expected: int) {
    && id in s.releases && s.releases[id].revision == expected && role.Admin?
    && s.releases[id].history != []
    && (s.releases[id].history[|s.releases[id].history| - 1], target) in LIFECYCLE
    && (target.Active? ==> forall o | o in s.releases && o != id && ReleaseActive(s, o) ::
          s.releases[o].family != s.releases[id].family)
  }

  /** A release moves exactly along the lifecycle, by an admin, at the revision expected, and becomes active only if
      no other of its family is; activation grants what was requested, and nothing else changes the grants. */
  lemma TransitionVerdict(
    steps: seq<Step>, s: Db, id: Id, role: Role, target: ReleaseState, expected: int, t: Db)
    requires Reachable(EMPTY, steps, s) && t == OfficeNext(s, Transition(id, role, target, expected))
    ensures !MayMove(s, id, role, target, expected) ==> t == s
    ensures MayMove(s, id, role, target, expected) ==>
      var r := s.releases[id];
      t.releases == s.releases[id :=
        r.(history := r.history + [target], revision := r.revision + 1,
           granted := if target.Active? then r.granted + r.requested else r.granted)]
  {
    hide Reachable, Inv, R.ReleaseOk, R.Transition, MayMove, DepsOk, H.HandoffsOk, R.AdmissionsOk, Execution.WakeOk;
    Reached(steps, s);
    InvWakes(s);
    if id in s.releases {
      assert R.ReleaseOk(s.releases[id]);
      HasHistory(s.releases[id]);
    }
    MoveIff(s, id, role, target, expected);
  }

  lemma HasHistory(r: Release)
    requires R.ReleaseOk(r)
    ensures r.history != []
  {
  }

  lemma EdgeIff(from: ReleaseState, to: ReleaseState)
    ensures R.CanTransition(from, to) <==> (from, to) in LIFECYCLE
  {
  }

  lemma MoveIff(s: Db, id: Id, role: Role, target: ReleaseState, expected: int)
    requires id in s.releases ==> s.releases[id].history != []
    ensures var t := R.Transition(s, id, role, target, expected);
      && (t.Some? <==> MayMove(s, id, role, target, expected))
      && (t.Some? ==>
            var r := s.releases[id];
            t.value.releases == s.releases[id :=
              r.(history := r.history + [target], revision := r.revision + 1,
                 granted := if target.Active? then r.granted + r.requested else r.granted)])
  {
    hide R.CanTransition;
    if id in s.releases {
      EdgeIff(s.releases[id].State(), target);
      assert s.releases[id].requested + s.releases[id].granted == s.releases[id].granted + s.releases[id].requested;
    }
  }

  /** Revocation is final: whatever happens later, a revoked release stays as it was revoked, but for grants. */
  lemma RevokedIsFinal(steps: seq<Step>, s: Db, more: seq<Step>, t: Db, id: Id)
    requires Reachable(EMPTY, steps, s) && Reachable(s, more, t)
    requires id in s.releases && s.releases[id].State().Revoked?
    ensures id in t.releases && t.releases[id].history == s.releases[id].history && !ReleaseActive(t, id)
  {
    hide Reachable, Inv, R.AdmissionsOk, DepsOk, H.HandoffsOk, Execution.WakeOk, ProposalsForward, KeysForward,
      DecisionsForward, EffectsForward, TasksForward, OpenOnly, HandoffsForward, AgentsForward, RunsForward,
      GatesForward, FreshWork, LedgerForward;
    ReachedOn(steps, s, more, t);
    InvWakes(s);
    InvWakes(t);
    NoWayOut(s.releases[id].history, t.releases[id]);
  }

  lemma NoWayOut(history: seq<ReleaseState>, r: Release)
    requires R.ReleaseOk(r) && history <= r.history && history != [] && history[|history| - 1].Revoked?
    ensures r.history == history
  {
    var last := |history| - 1;
    assert r.history[last] == history[last];
    assert last < |r.history| - 1 ==> R.CanTransition(r.history[last], r.history[last + 1]);
    assert r.history[..|history|] == history;
  }

  /** Grants are added exactly by an admin who names some, at the revision expected. */
  lemma GrantVerdict(s: Db, id: Id, role: Role, caps: set<string>, expected: int, t: Db)
    requires t == OfficeNext(s, Grant(id, role, caps, expected))
    ensures if role.Admin? && caps != {} && id in s.releases && s.releases[id].revision == expected then
        t.releases == s.releases[id :=
          s.releases[id].(granted := s.releases[id].granted + caps, revision := s.releases[id].revision + 1)]
      else t == s
  {
  }

  /** A submitted release starts in quarantine with nothing granted. */
  lemma SubmitVerdict(s: Db, id: Id, family: string, harness: bool, runner: string, requested: set<string>, t: Db)
    requires t == OfficeNext(s, Submit(id, family, harness, runner, requested))
    ensures id in s.releases ==> t == s
    ensures id !in s.releases ==>
      id in t.releases && t.releases[id].granted == {} && t.releases[id].history == [Quarantined]
      && t.releases[id].requested == requested && t.releases[id].revision == 1
  {
  }

  // ---- Tasks ---------------------------------------------------------------------------------

  /** A task is cancelled exactly at the version expected and unless it is done; then its live proposals are rejected,
      its pending questions cancelled and its live runs ended, and nothing else of these tables changes. */
  lemma CancelVerdict(steps: seq<Step>, s: Db, task: Id, version: int, t: Db)
    requires Reachable(EMPTY, steps, s) && t == AdminNext(s, Cancel(task, version))
    ensures !(task in s.tasks && s.tasks[task].version == version && !s.tasks[task].status.TaskDone?) ==> t == s
    ensures task in s.tasks && s.tasks[task].version == version && !s.tasks[task].status.TaskDone? ==>
      && t.tasks == s.tasks[task := s.tasks[task].(status := TaskCancelled, version := version + 1)]
      && CancelledRows(s, t, task)
  {
    hide Reachable, Inv, Execution.ReceiptsOk, Execution.TargetsOk, Decisions.DecisionsOk, Decisions.EffectsOk, KeysOk,
      AllOpsOk, OneLive, RunsOk, RowsOk, CancelledRows;
    Reached(steps, s);
    InvRows(s);
    if CancelTask(s, task, version).Some? {
      CancelledAre(s, t, task, version);
    }
  }

  ghost predicate CancelledRows(s: Db, t: Db, task: Id) {
    && t.proposals.Keys == s.proposals.Keys && t.gates.Keys == s.gates.Keys && t.runs.Keys == s.runs.Keys
    && (forall p | p in s.proposals :: t.proposals[p] ==
          if s.proposals[p].task == task && Live(s.proposals[p].status) then s.proposals[p].(status := Rejected)
          else s.proposals[p])
    && (forall g | g in s.gates :: t.gates[g] ==
          if s.gates[g].task == task && s.gates[g].status.GatePending? then s.gates[g].(status := GateCancelled)
          else s.gates[g])
    && (forall r | r in s.runs :: t.runs[r] ==
          if s.runs[r].task == task
             && (s.runs[r].status.Queued? || s.runs[r].status.Running? || s.runs[r].status.Waiting?)
          then s.runs[r].(status := RunCancelled, token := NO_ID, lease := None) else s.runs[r])
  }

  lemma CancelledAre(s: Db, t: Db, task: Id, version: int)
    requires RowsOk(s.tasks, s.proposals) && CancelTask(s, task, version) == Some(t)
    ensures CancelledRows(s, t, task)
  {
  }

  /** A dependency is recorded exactly when it joins two different tasks and no chain of dependencies leads from the
      parent to the task. */
  lemma DependVerdict(s: Db, task: Id, parent: Id, t: Db)
    requires t == AdminNext(s, Depend(task, parent))
    ensures t.tasks == s.tasks
    ensures t.deps == if task != parent && task in s.tasks && parent in s.tasks
                         && !(exists path :: PathFromTo(s.deps, path, parent, task))
                      then s.deps + {(task, parent)} else s.deps
  {
  }
}
