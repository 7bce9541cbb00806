/** Milestones, their prerequisites, and when one may be called met (milestones.go). */
module Milestones {
  import opened Wrappers
  import opened Graph

  datatype Status = Planned | Started | Met | Cancelled

  datatype Milestone = Milestone(status: Status, version: int)

  type Milestones = map<Id, Milestone>

  /** Every recorded prerequisite is met. */
  ghost predicate Ready(milestones: Milestones, deps: Edges, id: Id) {
    forall d | d in deps && d.0 == id && d.1 in milestones :: milestones[d.1].status.Met?
  }

  ghost predicate MayComplete(milestones: Milestones, deps: Edges, id: Id, evidenced: bool, active: bool,
    version: int) {
    && evidenced && active && id in milestones
    && milestones[id].version == version
    && !milestones[id].status.Met? && !milestones[id].status.Cancelled?
    && Ready(milestones, deps, id)
  }

  ghost predicate MayDepend(milestones: Milestones, deps: Edges, id: Id, parent: Id) {
    id != parent && id in milestones && parent in milestones && !Reaches(deps, parent, id)
  }

  function Advanced(m: Milestone, status: Status): Milestone {
    Milestone(status, m.version + 1)
  }

  class Planner {
    var milestones: Milestones
    var deps: Edges

    constructor ()
      ensures milestones == map[] && deps == {}
    {
      milestones, deps := map[], {};
    }

    method CreateMilestone(id: Id) returns (ok: bool)
      modifies this`milestones
      ensures ok <==> id !in old(milestones)
      ensures milestones == if ok then old(milestones)[id := Milestone(Planned, 1)] else old(milestones)
    {
      ok := id !in milestones;
      if ok {
        milestones := milestones[id := Milestone(Planned, 1)];
      }
    }

    /** A dependency is recorded unless it would close a loop; the status of the two does not matter. */
    method AddMilestoneDependency(id: Id, parent: Id) returns (ok: bool)
      modifies this`deps
      ensures ok <==> MayDepend(milestones, old(deps), id, parent)
      ensures deps == if ok then old(deps) + {(id, parent)} else old(deps)
    {
      if id == parent || id !in milestones || parent !in milestones {
        return false;
      }
      var reach := ReachQuery(deps, parent);
      ok := id !in reach;
      if ok {
        deps := deps + {(id, parent)};
      }
    }

    /** Revising the forecast of a milestone moves its version and nothing that matters here. */
    method SetMilestoneForecast(id: Id, active: bool) returns (ok: bool)
      modifies this`milestones
      ensures ok <==> active && id in old(milestones) && !old(milestones)[id].status.Cancelled?
      ensures milestones
        == if ok then old(milestones)[id := Advanced(old(milestones)[id], old(milestones)[id].status)]
          else old(milestones)
    {
      if !active || id !in milestones || milestones[id].status.Cancelled? {
        return false;
      }
      milestones := milestones[id := milestones[id].(version := milestones[id].version + 1)];
      return true;
    }

    /** `evidenced`: the evidence is not blank; `active`: the actor is an active principal. */
    method CompleteMilestone(id: Id, evidenced: bool, active: bool, version: int) returns (ok: bool)
      modifies this`milestones
      ensures ok <==> MayComplete(old(milestones), deps, id, evidenced, active, version)
      ensures milestones == if ok then old(milestones)[id := Advanced(old(milestones)[id], Met)] else old(milestones)
    {
      if !evidenced || !active || id !in milestones || milestones[id].version != version {
        return false;
      }
      if milestones[id].status.Met? || milestones[id].status.Cancelled? {
        return false;
      }
      var unmet := |set d | d in deps && d.0 == id && d.1 in milestones && !milestones[d.1].status.Met?|;
      NoneUnmet(milestones, deps, id, set d | d in deps && d.0 == id && d.1 in milestones
        && !milestones[d.1].status.Met?);
      if unmet > 0 {
        return false;
      }
      milestones := milestones[id := milestones[id].(status := Met, version := milestones[id].version + 1)];
      return true;
    }
  }

  lemma NoneUnmet(milestones: Milestones, deps: Edges, id: Id, unmet: Edges)
    requires unmet == set d | d in deps && d.0 == id && d.1 in milestones && !milestones[d.1].status.Met?
    ensures |unmet| == 0 <==> Ready(milestones, deps, id)
  {
    if unmet == {} {
      forall d | d in deps && d.0 == id && d.1 in milestones ensures milestones[d.1].status.Met? {
        assert d !in unmet;
      }
    } else {
      var d :| d in unmet;
      assert !milestones[d.1].status.Met?;
    }
  }

  // ---- Every history -------------------------------------------------------------------------

  datatype Change =
    | Create(id: Id)
    | Depend(id: Id, parent: Id)
    | Forecast(id: Id, active: bool)
    | Complete(id: Id, evidenced: bool, active: bool, version: int)

  datatype Plan = Plan(milestones: Milestones, deps: Edges)

  ghost function Apply(p: Plan, change: Change): Plan {
    var ms := p.milestones;
    match change
    case Create(id) => if id in ms then p else p.(milestones := ms[id := Milestone(Planned, 1)])
    case Depend(id, parent) => if MayDepend(ms, p.deps, id, parent) then p.(deps := p.deps + {(id, parent)}) else p
    case Forecast(id, active) =>
      if active && id in ms && !ms[id].status.Cancelled?
        then p.(milestones := ms[id := Advanced(ms[id], ms[id].status)])
      else p
    case Complete(id, evidenced, active, version) =>
      if MayComplete(ms, p.deps, id, evidenced, active, version) then p.(milestones := ms[id := Advanced(ms[id], Met)])
      else p
  }

  ghost function After(p: Plan, changes: seq<Change>): Plan
    decreases |changes|
  {
    if changes == [] then p else After(Apply(p, changes[0]), changes[1..])
  }

  ghost predicate PlanOk(p: Plan) {
    && Acyclic(p.deps)
    && (forall d | d in p.deps :: d.0 in p.milestones && d.1 in p.milestones)
    && (forall m | m in p.milestones :: !p.milestones[m].status.Cancelled?)
  }

  lemma ApplyKeeps(p: Plan, change: Change)
    requires PlanOk(p)
    ensures PlanOk(Apply(p, change))
    ensures forall m | m in p.milestones ::
      && m in Apply(p, change).milestones
      && (p.milestones[m].status.Met? ==> Apply(p, change).milestones[m].status.Met?)
  {
    hide Reaches, Acyclic;
    if change.Depend? && MayDepend(p.milestones, p.deps, change.id, change.parent) {
      AcyclicAfterEdgeIff(p.deps, change.id, change.parent);
    }
  }

  lemma {:induction false} AfterKeeps(p: Plan, changes: seq<Change>)
    requires PlanOk(p)
    ensures PlanOk(After(p, changes))
    ensures forall m | m in p.milestones ::
      && m in After(p, changes).milestones
      && (p.milestones[m].status.Met? ==> After(p, changes).milestones[m].status.Met?)
    decreases |changes|
  {
    hide PlanOk, Apply;
    if changes != [] {
      ApplyKeeps(p, changes[0]);
      AfterKeeps(Apply(p, changes[0]), changes[1..]);
    }
  }

  const NOTHING_PLANNED := Plan(map[], {})

  lemma NothingPlannedOk()
    ensures PlanOk(NOTHING_PLANNED)
  {
    NoEdgesAcyclic();
  }

  /** The prerequisites never close a loop, so as long as something is unmet, something unmet is ready. */
  lemma SomethingIsReady(changes: seq<Change>, p: Plan, unmet: Id) returns (ready: Id)
    requires p == After(NOTHING_PLANNED, changes) && unmet in p.milestones && !p.milestones[unmet].status.Met?
    ensures Acyclic(p.deps)
    ensures ready in p.milestones && !p.milestones[ready].status.Met? && Ready(p.milestones, p.deps, ready)
    ensures MayComplete(p.milestones, p.deps, ready, true, true, p.milestones[ready].version)
  {
    hide After, Acyclic;
    NothingPlannedOk();
    AfterKeeps(NOTHING_PLANNED, changes);
    var open := set m | m in p.milestones && !p.milestones[m].status.Met?;
    ready := SomeNodeUnblocked(p.deps, open, unmet);
  }

  /** A new forecast settles nothing: whatever could be completed or not still can or cannot, but a completion
      of that milestone prepared before it is refused. */
  lemma ForecastOnlyOutdates(p: Plan, id: Id, q: Plan, evidenced: bool, active: bool)
    requires q == Apply(p, Forecast(id, true)) && id in p.milestones && !p.milestones[id].status.Cancelled?
    ensures forall m | m in p.milestones ::
      && m in q.milestones
      && q.milestones[m].status == p.milestones[m].status
      && (Ready(q.milestones, q.deps, m) <==> Ready(p.milestones, p.deps, m))
      && (MayComplete(q.milestones, q.deps, m, evidenced, active, q.milestones[m].version) <==>
            MayComplete(p.milestones, p.deps, m, evidenced, active, p.milestones[m].version))
    ensures !MayComplete(q.milestones, q.deps, id, evidenced, active, p.milestones[id].version)
  {
    hide Ready;
    forall m | m in p.milestones ensures Ready(q.milestones, q.deps, m) <==> Ready(p.milestones, p.deps, m) {
      SameReady(p, q, m);
    }
  }

  lemma SameReady(p: Plan, q: Plan, m: Id)
    requires q.deps == p.deps && q.milestones.Keys == p.milestones.Keys
    requires forall k | k in p.milestones :: q.milestones[k].status == p.milestones[k].status
    ensures Ready(q.milestones, q.deps, m) <==> Ready(p.milestones, p.deps, m)
  {
  }

  /** A milestone is met only once every prerequisite recorded by then is met, and they stay so; what is
      recorded later does not undo it. */
  lemma MetAfterItsPrerequisites(before: seq<Change>, p: Plan, change: Change, later: seq<Change>, q: Plan, m: Id,
    parent: Id)
    requires p == After(NOTHING_PLANNED, before) && q == After(Apply(p, change), later)
    requires m in p.milestones && !p.milestones[m].status.Met? && Apply(p, change).milestones[m].status.Met?
    requires (m, parent) in p.deps
    ensures change.Complete? && change.id == m && change.evidenced && change.active
    ensures change.version == p.milestones[m].version
    ensures parent in p.milestones && p.milestones[parent].status.Met?
    ensures m in q.milestones && q.milestones[m].status.Met?
    ensures parent in q.milestones && q.milestones[parent].status.Met?
  {
    hide After, Acyclic, Reaches;
    NothingPlannedOk();
    AfterKeeps(NOTHING_PLANNED, before);
    ApplyKeeps(p, change);
    AfterKeeps(Apply(p, change), later);
  }

  /** A prerequisite may be added to a milestone that is already met, so a met milestone can have an unmet
      one. */
  lemma LatePrerequisite()
    ensures var p := After(NOTHING_PLANNED, [Create(1), Complete(1, true, true, 1), Create(2), Depend(1, 2)]);
      (1, 2) in p.deps && 1 in p.milestones && p.milestones[1].status.Met? && !Ready(p.milestones, p.deps, 1)
  {
    var a := Apply(NOTHING_PLANNED, Create(1));
    var b := Apply(a, Complete(1, true, true, 1));
    var c := Apply(b, Create(2));
    forall path ensures !PathFromTo({}, path, 2, 1) {
      NoEdgesNoPath(path);
    }
    var d := Apply(c, Depend(1, 2));
    var changes := [Create(1), Complete(1, true, true, 1), Create(2), Depend(1, 2)];
    assert changes[1..][1..][1..] == [Depend(1, 2)];
    assert After(NOTHING_PLANNED, changes) == After(a, changes[1..]) == After(b, changes[1..][1..])
      == After(c, changes[1..][1..][1..]) == After(d, []);
    assert (1, 2) in d.deps && 2 in d.milestones && !d.milestones[2].status.Met?;
  }
}
