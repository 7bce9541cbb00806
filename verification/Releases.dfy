/** Harness releases, what they may do, and the runs admitted under them (registry.go, capabilities.go). */
module Releases {
  import opened Wrappers
  import opened Tables
  import opened Runs

  /** The only permitted lifecycle edges. */
  predicate CanTransition(from: ReleaseState, to: ReleaseState) {
    match from
    case Quarantined => to.ReleaseVerified?
    case ReleaseVerified => to.ReleaseApproved?
    case ReleaseApproved => to.Installed?
    case Installed => to.Active?
    case Active => to.Draining? || to.Revoked?
    case Draining => to.Disabled?
    case Disabled => to.Active?
    case Revoked => false
  }

  /** Granted capabilities are never supplied by the submitter. */
  function Submit(
    s: Db, id: Id, family: string, harness: bool, runner: string, requested: set<string>): Option<Db>
  {
    if id in s.releases then None
    else Some(s.(releases := s.releases[id := Release(family, harness, runner, requested, {}, 1, [Quarantined])]))
  }

  function Transition(s: Db, id: Id, role: Role, target: ReleaseState, expected: int): Option<Db> {
    if id !in s.releases then None
    else
      var r := s.releases[id];
      if !CanTransition(r.State(), target) || !role.Admin? || r.revision != expected then None
      else if target.Active? && exists o | o in s.releases ::
          o != id && s.releases[o].State().Active? && s.releases[o].family == r.family then None
      else
        var granted := if target.Active? then r.requested + r.granted else r.granted;
        Some(s.(releases := s.releases[id :=
          r.(history := r.history + [target], revision := r.revision + 1, granted := granted)]))
  }

  function Grant(s: Db, id: Id, role: Role, caps: set<string>, expected: int): Option<Db> {
    if !role.Admin? || caps == {} || id !in s.releases || s.releases[id].revision != expected then None
    else
      var r := s.releases[id];
      Some(s.(releases := s.releases[id := r.(granted := r.granted + caps, revision := r.revision + 1)]))
  }

  const VETTING := [Quarantined, ReleaseVerified, ReleaseApproved, Installed, Active]

  ghost predicate ReleaseOk(r: Release) {
    && r.history != [] && r.history[0] == Quarantined
    && forall i | 0 <= i < |r.history| - 1 :: CanTransition(r.history[i], r.history[i + 1])
  }

  ghost predicate ReleasesOk(releases: map<Id, Release>) {
    forall r | r in releases :: ReleaseOk(releases[r])
  }

  /** A release can only be active after it was verified, approved and installed, in that order. */
  lemma ActiveIsVetted(r: Release)
    requires ReleaseOk(r) && r.State().Active?
    ensures VETTING <= r.history
  {
    var h := r.history;
    if |h| >= 2 {
      assert CanTransition(h[0], h[1]);
    }
    if |h| >= 3 {
      assert CanTransition(h[1], h[2]);
    }
    if |h| >= 4 {
      assert CanTransition(h[2], h[3]);
    }
    if |h| >= 5 {
      assert CanTransition(h[3], h[4]);
    }
  }

  /** Every run was admitted under a vetted release that still grants all its agent declares. */
  ghost predicate AdmissionsOk(runs: map<Id, Run>, agents: map<Id, Agent>, releases: map<Id, Release>) {
    forall r | r in runs ::
      && runs[r].agent in agents && runs[r].release in releases
      && agents[runs[r].agent].capabilities <= releases[runs[r].release].granted
      && VETTING <= releases[runs[r].release].history
  }

  /** Both ways of granting only widen, and history only grows. */
  ghost predicate Widened(before: map<Id, Release>, after: map<Id, Release>) {
    forall r | r in before ::
      r in after && before[r].granted <= after[r].granted && before[r].history <= after[r].history
  }

  lemma WidenedKeeps(
    runs: map<Id, Run>, agents: map<Id, Agent>, before: map<Id, Release>, after: map<Id, Release>)
    requires AdmissionsOk(runs, agents, before) && Widened(before, after)
    ensures AdmissionsOk(runs, agents, after)
  {
  }

  lemma AdmittedOk(
    s: Db, t: Db, id: Id, task: Id, actor: Id, agent: Id, release: Id, runners: set<string>)
    requires AdmissionsOk(s.runs, s.agents, s.releases) && ReleasesOk(s.releases)
    requires CreateRun(s, id, task, actor, agent, release, runners) == Some(t)
    ensures AdmissionsOk(t.runs, t.agents, t.releases)
  {
    ActiveIsVetted(s.releases[release]);
  }

  lemma TransitionKeeps(s: Db, t: Db, id: Id, role: Role, target: ReleaseState, expected: int)
    requires ReleasesOk(s.releases) && Transition(s, id, role, target, expected) == Some(t)
    ensures ReleasesOk(t.releases) && Widened(s.releases, t.releases)
  {
  }
}
