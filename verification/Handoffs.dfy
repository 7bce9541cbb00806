/** Offers of responsibility for a task, and the bound on how often ownership moves (store.go, handoffs.go). */
module Handoffs {
  import opened Wrappers
  import opened Tables

  const MAX_HOPS := 5

  predicate OpenOffer(h: Handoff) {
    h.state.Offered? || h.state.ClarificationRequested?
  }

  predicate Due(h: Handoff, now: int) {
    OpenOffer(h) && h.expiresAt.Some? && h.expiresAt.value <= now
  }

  /** The accepted transfers of ownership of a task. */
  function AcceptedOwner(handoffs: map<Id, Handoff>, task: Id): set<Id> {
    set h | h in handoffs && handoffs[h].task == task && handoffs[h].role.OwnerRole? && handoffs[h].state.Accepted?
  }

  function Offer(
    s: Db, id: Id, task: Id, actor: Id, recipient: Id, role: HandoffRole, expiresAt: int): Option<Db>
  {
    if role.OtherRole? || task !in s.tasks then None
    else if actor != s.tasks[task].owner && actor != s.tasks[task].assignee then None
    else if !ActivePrincipal(s.principals, recipient) then None
    else
      var hops := if role.OwnerRole? then |AcceptedOwner(s.handoffs, task)| else 0;
      if role.OwnerRole? && hops >= MAX_HOPS then None
      else if id in s.handoffs then None
      else
        Some(s.(handoffs := s.handoffs[id :=
          Handoff(task, recipient, actor, role, Offered, s.tasks[task].version, hops + 1, Some(expiresAt))]))
  }

  /** Expiry of the due offers among these, as ListHandoffs and PeekHandoff do it before they read. */
  function ExpireDue(s: Db, ids: set<Id>): Db {
    s.(handoffs := map h | h in s.handoffs ::
      if h in ids && Due(s.handoffs[h], s.now) then s.handoffs[h].(state := Expired) else s.handoffs[h])
  }

  /** Accepting first expires a due offer; the refusal that follows rolls even that back. */
  function Accept(s: Db, id: Id, actor: Id): Option<Db> {
    if id !in s.handoffs || s.handoffs[id].recipient != actor then None
    else
      var h := s.handoffs[id];
      if h.state.Accepted? then Some(s)
      else if !OpenOffer(h) || Due(h, s.now) then None
      else if h.task !in s.tasks then None
      else
        var task := s.tasks[h.task];
        if h.createdBy != task.owner || task.version != h.offeredVersion then None
        else
          var moved := task.(owner := if h.role.OwnerRole? then actor else task.owner,
                             assignee := if h.role.OwnerRole? then task.assignee else actor,
                             version := task.version + 1);
          Some(s.(tasks := s.tasks[h.task := moved],
                  handoffs := s.handoffs[id := h.(state := Accepted)]))
  }

  /** Declining and asking are the recipient's replies, withdrawing the creator's. */
  function Reply(s: Db, id: Id, actor: Id, state: HandoffState): Option<Db> {
    if id !in s.handoffs then None
    else
      var h := s.handoffs[id];
      var replier := if state.Withdrawn? then h.createdBy else h.recipient;
      if !(state.Declined? || state.ClarificationRequested? || state.Withdrawn?) then None
      else if replier != actor || !OpenOffer(h) || Due(h, s.now) then None
      else Some(s.(handoffs := s.handoffs[id := h.(state := state)]))
  }

  // ---- What the tables keep ------------------------------------------------------------------

  /** The accepted transfers up to a version of the task. */
  function AcceptedUpTo(handoffs: map<Id, Handoff>, task: Id, version: int): set<Id> {
    set h | h in AcceptedOwner(handoffs, task) && handoffs[h].offeredVersion <= version
  }

  /** Each accepted transfer carries its own place in the chain; an offer that could still be accepted
      carries the next place. */
  ghost predicate HandoffOk(tasks: map<Id, Task>, handoffs: map<Id, Handoff>, id: Id)
    requires id in handoffs
  {
    var h := handoffs[id];
    && h.task in tasks
    && h.offeredVersion <= tasks[h.task].version
    && (h.state.Accepted? ==> h.offeredVersion < tasks[h.task].version)
    && (h.state.Accepted? && h.role.OwnerRole? ==>
          h.hopDepth == |AcceptedUpTo(handoffs, h.task, h.offeredVersion)| && h.hopDepth <= MAX_HOPS)
    && (OpenOffer(h) && h.role.OwnerRole? && h.offeredVersion == tasks[h.task].version ==>
          h.hopDepth == |AcceptedOwner(handoffs, h.task)| + 1 && h.hopDepth <= MAX_HOPS)
  }

  ghost predicate HandoffsOk(tasks: map<Id, Task>, handoffs: map<Id, Handoff>) {
    && (forall id | id in handoffs :: HandoffOk(tasks, handoffs, id))
    && (forall a, b | a in handoffs && b in handoffs && a != b && handoffs[a].task == handoffs[b].task
          && handoffs[a].state.Accepted? && handoffs[b].state.Accepted? ::
          handoffs[a].offeredVersion != handoffs[b].offeredVersion)
    && (forall task | task in tasks :: |AcceptedOwner(handoffs, task)| <= MAX_HOPS)
  }

  /** Tasks may change in any way that does not take a version back. */
  lemma AdvanceKeepsHandoffs(tasks: map<Id, Task>, after: map<Id, Task>, handoffs: map<Id, Handoff>)
    requires HandoffsOk(tasks, handoffs) && tasks.Keys <= after.Keys
    requires forall k | k in tasks :: after[k].version >= tasks[k].version
    ensures HandoffsOk(after, handoffs)
  {
    forall id | id in handoffs ensures HandoffOk(after, handoffs, id) {
      assert HandoffOk(tasks, handoffs, id);
    }
    forall task | task in after ensures |AcceptedOwner(handoffs, task)| <= MAX_HOPS {
      if task !in tasks {
        assert forall h | h in handoffs :: HandoffOk(tasks, handoffs, h);
        assert AcceptedOwner(handoffs, task) == {};
      }
    }
  }

  /** Changing one offer without accepting it leaves every chain alone. */
  lemma UnacceptedKeeps(tasks: map<Id, Task>, handoffs: map<Id, Handoff>, after: map<Id, Handoff>)
    requires HandoffsOk(tasks, handoffs) && handoffs.Keys <= after.Keys
    requires forall id | id in after ::
      if id in handoffs then
        after[id] == handoffs[id].(state := after[id].state)
        && (after[id].state.Accepted? <==> handoffs[id].state.Accepted?)
        && (OpenOffer(after[id]) ==> OpenOffer(handoffs[id]))
      else
        var h := after[id];
        OpenOffer(h) && h.task in tasks && h.offeredVersion == tasks[h.task].version
        && (h.role.OwnerRole? ==> h.hopDepth == |AcceptedOwner(handoffs, h.task)| + 1 && h.hopDepth <= MAX_HOPS)
    ensures HandoffsOk(tasks, after)
  {
    forall task ensures AcceptedOwner(after, task) == AcceptedOwner(handoffs, task) {
    }
    forall id | id in after ensures HandoffOk(tasks, after, id) {
      var h := after[id];
      assert AcceptedUpTo(after, h.task, h.offeredVersion) == AcceptedUpTo(handoffs, h.task, h.offeredVersion);
      if id in handoffs {
        assert HandoffOk(tasks, handoffs, id);
      }
    }
  }

  /** The sets the places are counted by, after the newest offer is accepted. */
  lemma AcceptedChains(handoffs: map<Id, Handoff>, after: map<Id, Handoff>, id: Id)
    requires id in handoffs && !handoffs[id].state.Accepted?
    requires after == handoffs[id := handoffs[id].(state := Accepted)]
    requires forall k | k in handoffs && handoffs[k].state.Accepted? && handoffs[k].task == handoffs[id].task ::
      handoffs[k].offeredVersion < handoffs[id].offeredVersion
    ensures var h := handoffs[id];
      var more := if h.role.OwnerRole? then {id} else {};
      && AcceptedOwner(after, h.task) == AcceptedOwner(handoffs, h.task) + more
      && AcceptedUpTo(after, h.task, h.offeredVersion) == AcceptedOwner(handoffs, h.task) + more
    ensures forall task | task != handoffs[id].task :: AcceptedOwner(after, task) == AcceptedOwner(handoffs, task)
  {
    var h := handoffs[id];
    var more := if h.role.OwnerRole? then {id} else {};
    assert AcceptedOwner(after, h.task) == AcceptedOwner(handoffs, h.task) + more;
    forall task | task != h.task ensures AcceptedOwner(after, task) == AcceptedOwner(handoffs, task) {
    }
  }

  lemma EarlierPlaces(handoffs: map<Id, Handoff>, after: map<Id, Handoff>, id: Id, task: Id, version: int)
    requires id in handoffs && !handoffs[id].state.Accepted?
    requires after == handoffs[id := handoffs[id].(state := Accepted)]
    requires task != handoffs[id].task || version < handoffs[id].offeredVersion
    ensures AcceptedUpTo(after, task, version) == AcceptedUpTo(handoffs, task, version)
  {
  }

  /** Where an offer stands once the offer `id` of the same or another task was accepted. */
  lemma PlaceAfter(tasks: map<Id, Task>, more: map<Id, Task>, handoffs: map<Id, Handoff>, id: Id, k: Id)
    requires id in handoffs && k in handoffs && OpenOffer(handoffs[id])
    requires forall o | o in handoffs :: HandoffOk(tasks, handoffs, o)
    requires handoffs[id].task in tasks && handoffs[id].offeredVersion == tasks[handoffs[id].task].version
    requires more.Keys == tasks.Keys && more[handoffs[id].task].version == handoffs[id].offeredVersion + 1
    requires forall task | task in tasks && task != handoffs[id].task :: more[task] == tasks[task]
    ensures HandoffOk(more, handoffs[id := handoffs[id].(state := Accepted)], k)
  {
    var after := handoffs[id := handoffs[id].(state := Accepted)];
    var g := handoffs[k];
    assert HandoffOk(tasks, handoffs, k) && HandoffOk(tasks, handoffs, id);
    AcceptedChains(handoffs, after, id);
    if k == id {
      assert id !in AcceptedOwner(handoffs, g.task);
    } else if g.state.Accepted? {
      EarlierPlaces(handoffs, after, id, g.task, g.offeredVersion);
    }
  }

  /** Acceptance appends the next place to the chain: only an offer made at the task's present version
      can be accepted, and accepting it outdates all the others. */
  lemma AcceptKeeps(s: Db, t: Db, id: Id, actor: Id)
    requires HandoffsOk(s.tasks, s.handoffs) && Accept(s, id, actor) == Some(t)
    ensures HandoffsOk(t.tasks, t.handoffs)
  {
    if t != s {
      AcceptedKeeps(s.tasks, t.tasks, s.handoffs, t.handoffs, id);
    }
  }

  lemma AcceptedKeeps(
    tasks: map<Id, Task>, more: map<Id, Task>, handoffs: map<Id, Handoff>, after: map<Id, Handoff>, id: Id)
    requires HandoffsOk(tasks, handoffs)
    requires id in handoffs && OpenOffer(handoffs[id]) && after == handoffs[id := handoffs[id].(state := Accepted)]
    requires handoffs[id].task in tasks && handoffs[id].offeredVersion == tasks[handoffs[id].task].version
    requires more.Keys == tasks.Keys && more[handoffs[id].task].version == handoffs[id].offeredVersion + 1
    requires forall task | task in tasks && task != handoffs[id].task :: more[task] == tasks[task]
    ensures HandoffsOk(more, after)
  {
    hide HandoffOk, AcceptedOwner, AcceptedUpTo;
    forall k | k in after ensures HandoffOk(more, after, k) {
      PlaceAfter(tasks, more, handoffs, id, k);
    }
    forall k | k in handoffs && handoffs[k].state.Accepted? && handoffs[k].task == handoffs[id].task
      ensures handoffs[k].offeredVersion < handoffs[id].offeredVersion
    {
      EarlierVersion(tasks, handoffs, k);
    }
    forall task | task in more ensures |AcceptedOwner(after, task)| <= MAX_HOPS {
      ChainBound(tasks, handoffs, after, id, task);
    }
  }

  lemma EarlierVersion(tasks: map<Id, Task>, handoffs: map<Id, Handoff>, k: Id)
    requires k in handoffs && HandoffOk(tasks, handoffs, k) && handoffs[k].state.Accepted?
    ensures handoffs[k].task in tasks && handoffs[k].offeredVersion < tasks[handoffs[k].task].version
  {
  }

  lemma ChainBound(
    tasks: map<Id, Task>, handoffs: map<Id, Handoff>, after: map<Id, Handoff>, id: Id, task: Id)
    requires id in handoffs && OpenOffer(handoffs[id]) && HandoffOk(tasks, handoffs, id)
    requires after == handoffs[id := handoffs[id].(state := Accepted)]
    requires handoffs[id].offeredVersion == tasks[handoffs[id].task].version
    requires |AcceptedOwner(handoffs, task)| <= MAX_HOPS
    ensures |AcceptedOwner(after, task)| <= MAX_HOPS
  {
    var more := if handoffs[id].role.OwnerRole? && task == handoffs[id].task then {id} else {};
    assert AcceptedOwner(after, task) == AcceptedOwner(handoffs, task) + more;
  }

  lemma OfferKeeps(
    s: Db, t: Db, id: Id, task: Id, actor: Id, recipient: Id, role: HandoffRole, expiresAt: int)
    requires HandoffsOk(s.tasks, s.handoffs)
    requires Offer(s, id, task, actor, recipient, role, expiresAt) == Some(t)
    ensures HandoffsOk(t.tasks, t.handoffs)
  {
    UnacceptedKeeps(s.tasks, s.handoffs, t.handoffs);
  }

  lemma ReplyKeeps(s: Db, t: Db, id: Id, actor: Id, state: HandoffState)
    requires HandoffsOk(s.tasks, s.handoffs) && Reply(s, id, actor, state) == Some(t)
    ensures HandoffsOk(t.tasks, t.handoffs)
  {
    UnacceptedKeeps(s.tasks, s.handoffs, t.handoffs);
  }

  lemma ExpireKeeps(s: Db, ids: set<Id>)
    requires HandoffsOk(s.tasks, s.handoffs)
    ensures HandoffsOk(s.tasks, ExpireDue(s, ids).handoffs)
  {
    hide HandoffsOk, HandoffOk, AcceptedOwner;
    UnacceptedKeeps(s.tasks, s.handoffs, ExpireDue(s, ids).handoffs);
  }
}
