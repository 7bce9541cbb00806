/** Effective-dated relationships between people, and the check that keeps the management graph a
    hierarchy (organization.go). */
module Organization {
  import opened Wrappers
  import opened Graph

  datatype Kind = ReportsTo | MemberOf | CoversFor | OtherRelation

  /** The validity is the half-open interval from `from` up to `to`, or without end. */
  datatype Relationship = Relationship(subject: Id, kind: Kind, target: Id, from: int, to: Option<int>)

  type Rows = map<Id, Relationship>

  /** How far up the chain the check walks. */
  const MAX_DEPTH := 64

  predicate Before(at: int, to: Option<int>) {
    to.None? || at < to.value
  }

  predicate Covers(r: Relationship, at: int) {
    r.from <= at && Before(at, r.to)
  }

  /** The two intervals share an instant. */
  predicate Overlaps(r: Relationship, from: int, to: Option<int>) {
    Before(r.from, to) && Before(from, r.to)
  }

  /** The reporting lines that overlap a window: a line leads from a subject to its manager. */
  function Within(rows: Rows, from: int, to: Option<int>): Edges {
    set id | id in rows && rows[id].kind.ReportsTo? && Overlaps(rows[id], from, to) ::
      (rows[id].subject, rows[id].target)
  }

  /** The reporting lines in force at one instant, which is what RelationshipsAsOf answers. */
  function InForce(rows: Rows, at: int): Edges {
    set id | id in rows && rows[id].kind.ReportsTo? && Covers(rows[id], at) :: (rows[id].subject, rows[id].target)
  }

  ghost predicate WalkUp(edges: Edges, manager: Id, subject: Id, depth: nat) {
    exists path :: PathFromTo(edges, path, manager, subject) && |path| <= depth + 1
  }

  ghost predicate Refused(
    people: map<Id, bool>, positions: set<Id>, rows: Rows, id: Id, actor: Id, r: Relationship)
  {
    || r.kind.OtherRelation?
    || !(Before(r.from, r.to))
    || !(actor in people && people[actor])
    || !(r.subject in people && people[r.subject])
    || (if r.kind.MemberOf? then r.target !in positions else !(r.target in people && people[r.target]))
    || (r.kind.ReportsTo? && WalkUp(Within(rows, r.from, r.to), r.target, r.subject, MAX_DEPTH))
    || id in rows
    || (r.kind.ReportsTo? && exists k | k in rows ::
          rows[k].kind.ReportsTo? && rows[k].subject == r.subject && Overlaps(rows[k], r.from, r.to))
  }

  /** Two windows overlap when they share an instant. */
  lemma OverlapsIff(r: Relationship, from: int, to: Option<int>)
    requires Before(r.from, r.to) && Before(from, to)
    ensures Overlaps(r, from, to) <==> exists at :: Covers(r, at) && from <= at && Before(at, to)
  {
    if Overlaps(r, from, to) {
      var later := if r.from > from then r.from else from;
      assert Covers(r, later) && from <= later && Before(later, to);
    }
  }

  /** Every row lasts for an instant at least. */
  ghost predicate Lasting(rows: Rows) {
    forall id | id in rows :: Before(rows[id].from, rows[id].to)
  }

  /** What a relationship needs, in terms of what is in force when: an active actor and subject, an active manager
      or colleague or an existing position, some instant at which it holds, and for a reporting line no instant at
      which the subject has a manager already, and no walk of up to 64 lines that overlap it from its manager up to
      its subject. */
  ghost predicate Sound(people: map<Id, bool>, positions: set<Id>, rows: Rows, id: Id, actor: Id, r: Relationship) {
      && id !in rows && (exists at :: Covers(r, at))
      && actor in people && people[actor] && r.subject in people && people[r.subject]
      && match r.kind
         case MemberOf => r.target in positions
         case CoversFor => r.target in people && people[r.target]
         case ReportsTo =>
           && r.target in people && people[r.target]
           && (forall at, k | k in rows && Covers(r, at) && Covers(rows[k], at) && rows[k].kind.ReportsTo? ::
                 rows[k].subject != r.subject)
           && !(exists path :: PathFromTo(Within(rows, r.from, r.to), path, r.target, r.subject) && |path| <= 65)
         case OtherRelation => false
  }

  lemma SoundIff(people: map<Id, bool>, positions: set<Id>, rows: Rows, id: Id, actor: Id, r: Relationship)
    requires Lasting(rows)
    ensures Sound(people, positions, rows, id, actor, r) <==> !Refused(people, positions, rows, id, actor, r)
  {
    if Before(r.from, r.to) {
      assert Covers(r, r.from);
      forall k | k in rows
        ensures Overlaps(rows[k], r.from, r.to) <==> exists at :: Covers(r, at) && Covers(rows[k], at)
      {
        OverlapsIff(rows[k], r.from, r.to);
        if at :| Covers(rows[k], at) && r.from <= at && Before(at, r.to) {
          assert Covers(r, at) && Covers(rows[k], at);
        }
      }
    }
  }

  /** Ending a relationship takes it out of force from that instant on, and changes nothing else. */
  lemma EndedMeans(rows: Rows, id: Id, at: int, after: Rows)
    requires Ended(rows, id, at) == Some(after)
    ensures after.Keys == rows.Keys && forall k | k in rows && k != id :: after[k] == rows[k]
    ensures id in rows && rows[id].from < at
    ensures forall i :: Covers(after[id], i) <==> Covers(rows[id], i) && i < at
  {
  }

  function Ended(rows: Rows, id: Id, at: int): Option<Rows> {
    if id !in rows || at <= rows[id].from then None
    else Some(if Before(at, rows[id].to) then rows[id := rows[id].(to := Some(at))] else rows)
  }

  class Directory {
    var people: map<Id, bool>
    var positions: set<Id>
    var rows: Rows

    constructor (people: map<Id, bool>, positions: set<Id>)
      ensures rows == map[] && this.people == people && this.positions == positions
    {
      this.people, this.positions, this.rows := people, positions, map[];
    }

    predicate Active(id: Id)
      reads this
    {
      id in people && people[id]
    }

    /** detectManagementCycle: the recursive query `chain`, one level of managers at a time. It refuses
        exactly when a walk of 1 to 64 lines, each overlapping the window, leads up to the subject. */
    method DetectManagementCycle(subject: Id, manager: Id, from: int, to: Option<int>) returns (cycles: bool)
      ensures cycles <==> WalkUp(Within(rows, from, to), manager, subject, MAX_DEPTH)
    {
      var edges := Within(rows, from, to);
      var level := {manager};
      cycles := false;
      var depth := 0;
      while depth < MAX_DEPTH
        invariant 0 <= depth <= MAX_DEPTH
        invariant forall n :: n in level <==> AtDepth(edges, manager, n, depth)
        invariant cycles <==> exists k: nat | 1 <= k <= depth :: AtDepth(edges, manager, subject, k)
      {
        level := NextLevel(edges, manager, level, depth);
        depth := depth + 1;
        cycles := cycles || subject in level;
      }
      FoundAtSomeDepth(edges, manager, subject);
    }

    /** One recursion step of the query. */
    method NextLevel(edges: Edges, manager: Id, level: set<Id>, depth: nat) returns (next: set<Id>)
      requires forall n :: n in level <==> AtDepth(edges, manager, n, depth)
      ensures forall n :: n in next <==> AtDepth(edges, manager, n, depth + 1)
    {
      next := set e | e in edges && e.0 in level :: e.1;
      forall n ensures n in next <==> AtDepth(edges, manager, n, depth + 1) {
        if n in next {
          var e :| e in edges && e.0 in level && e.1 == n;
          Deeper(edges, manager, e.0, n, depth);
        }
        if AtDepth(edges, manager, n, depth + 1) {
          var before := Shallower(edges, manager, n, depth);
        }
      }
    }

    method CreateRelationship(id: Id, actor: Id, r: Relationship) returns (ok: bool)
      modifies this`rows
      ensures ok <==> !Refused(people, positions, old(rows), id, actor, r)
      ensures rows == if ok then old(rows)[id := r] else old(rows)
    {
      if r.kind.OtherRelation? || !Before(r.from, r.to) {
        return false;
      }
      if !Active(actor) || !Active(r.subject) {
        return false;
      }
      if r.kind.MemberOf? {
        if r.target !in positions {
          return false;
        }
      } else if !Active(r.target) {
        return false;
      }
      if r.kind.ReportsTo? {
        var cycles := DetectManagementCycle(r.subject, r.target, r.from, r.to);
        if cycles {
          return false;
        }
        if exists k | k in rows ::
          rows[k].kind.ReportsTo? && rows[k].subject == r.subject && Overlaps(rows[k], r.from, r.to)
        {
          return false;
        }
      }
      if id in rows {
        return false;
      }
      rows := rows[id := r];
      return true;
    }

    method EndRelationship(id: Id, actor: Id, at: int) returns (ok: bool)
      modifies this`rows
      ensures ok <==> actor in people && people[actor] && Ended(old(rows), id, at).Some?
      ensures rows == if ok then Ended(old(rows), id, at).value else old(rows)
    {
      if !Active(actor) || id !in rows || at <= rows[id].from {
        return false;
      }
      if rows[id].to.None? || rows[id].to.value > at {
        rows := rows[id := rows[id].(to := Some(at))];
      }
      return true;
    }
  }

  // ---- Walks of a given length ---------------------------------------------------------------

  ghost predicate AtDepth(edges: Edges, from: Id, n: Id, depth: nat) {
    if depth == 0 then n == from else exists path :: PathFromTo(edges, path, from, n) && |path| == depth + 1
  }

  lemma Deeper(edges: Edges, from: Id, n: Id, m: Id, depth: nat)
    requires AtDepth(edges, from, n, depth) && (n, m) in edges
    ensures AtDepth(edges, from, m, depth + 1)
  {
    if depth == 0 {
      assert PathFromTo(edges, [from, m], from, m);
    } else {
      var path :| PathFromTo(edges, path, from, n) && |path| == depth + 1;
      assert PathFromTo(edges, path + [m], from, m);
    }
  }

  lemma Shallower(edges: Edges, from: Id, m: Id, depth: nat) returns (n: Id)
    requires AtDepth(edges, from, m, depth + 1)
    ensures AtDepth(edges, from, n, depth) && (n, m) in edges
  {
    var path :| PathFromTo(edges, path, from, m) && |path| == depth + 2;
    n := path[depth];
    assert (path[depth], path[depth + 1]) in edges;
    if depth > 0 {
      assert PathFromTo(edges, path[..depth + 1], from, n);
    }
  }

  lemma FoundAtSomeDepth(edges: Edges, manager: Id, subject: Id)
    ensures WalkUp(edges, manager, subject, MAX_DEPTH) <==>
      exists k: nat | 1 <= k <= MAX_DEPTH :: AtDepth(edges, manager, subject, k)
  {
    if path :| PathFromTo(edges, path, manager, subject) && |path| <= MAX_DEPTH + 1 {
      assert AtDepth(edges, manager, subject, |path| - 1);
    }
  }

  // ---- What every sequence of creating and ending keeps --------------------------------------

  ghost predicate Distinct(path: seq<Id>) {
    forall i, j | 0 <= i < j < |path| :: path[i] != path[j]
  }

  /** A loop through this many different people. */
  ghost predicate Loop(edges: Edges, path: seq<Id>) {
    IsPath(edges, path) && path[0] == path[|path| - 1] && Distinct(path[1..])
  }

  /** At no instant is there a loop of 2 to 65 people. */
  ghost predicate NoShortLoop(rows: Rows) {
    forall at, path | Loop(InForce(rows, at), path) :: |path| == 2 || |path| > MAX_DEPTH + 2
  }

  /** At every instant a person has one manager at most. */
  ghost predicate OneManager(rows: Rows) {
    forall at, a, b | a in rows && b in rows && rows[a].kind.ReportsTo? && rows[b].kind.ReportsTo?
      && rows[a].subject == rows[b].subject && Covers(rows[a], at) && Covers(rows[b], at) :: a == b
  }

  lemma CoveredOverlaps(r: Relationship, at: int, from: int, to: Option<int>)
    requires Covers(r, at) && from <= at && Before(at, to)
    ensures Overlaps(r, from, to)
  {
  }

  /** A loop through the line (subject, manager) is a walk from the manager up to the subject by the
      other lines of the loop. */
  lemma LoopOpens(edges: Edges, less: Edges, path: seq<Id>, i: nat)
    requires Loop(edges, path) && i < |path| - 1
    requires forall e | e in edges && e.0 != path[i] :: e in less
    ensures var up := path[i + 1..] + path[1..i + 1];
      |path| > 2 ==> PathFromTo(less, up, path[i + 1], path[i]) && |up| == |path| - 1
  {
    var up := path[i + 1..] + path[1..i + 1];
    var n := |path| - i - 1;
    assert forall j | 0 <= j < |path[1..]| :: path[1..][j] == path[j + 1];
    forall j | 0 <= j < |up| - 1 ensures (up[j], up[j + 1]) in less {
      var k := if j < n - 1 then i + 1 + j else j - n + 1;
      assert up[j] == path[k] && up[j + 1] == path[k + 1];
      assert (path[k], path[k + 1]) in edges;
      assert path[k] != path[i];
    }
  }

  lemma CoveredWithin(rows: Rows, r: Relationship, at: int)
    requires Covers(r, at)
    ensures InForce(rows, at) <= Within(rows, r.from, r.to)
  {
  }

  /** A loop through the new line leads up from its manager to its subject, which the walk has looked for. */
  lemma NewLineLoops(rows: Rows, id: Id, r: Relationship, at: int, path: seq<Id>, i: nat)
    requires id !in rows && Loop(InForce(rows[id := r], at), path) && i < |path| - 1
    requires r.kind.ReportsTo? && Covers(r, at) && path[i] == r.subject && path[i + 1] == r.target
    requires !WalkUp(Within(rows, r.from, r.to), r.target, r.subject, MAX_DEPTH)
    ensures |path| == 2 || |path| > MAX_DEPTH + 2
  {
    hide Covers;
    var edges, before := InForce(rows[id := r], at), InForce(rows, at);
    if |path| > 2 {
      NewLineOnly(rows, id, r, at);
      LoopOpens(edges, before, path, i);
      CoveredWithin(rows, r, at);
      var up := path[i + 1..] + path[1..i + 1];
      assert PathFromTo(Within(rows, r.from, r.to), up, r.target, r.subject);
    }
  }

  lemma NewLineOnly(rows: Rows, id: Id, r: Relationship, at: int)
    requires id !in rows
    ensures forall e | e in InForce(rows[id := r], at) ::
      e in InForce(rows, at) || (e == (r.subject, r.target) && r.kind.ReportsTo? && Covers(r, at))
  {
  }

  lemma CreatedKeepsLoops(rows: Rows, id: Id, r: Relationship)
    requires NoShortLoop(rows) && id !in rows
    requires r.kind.ReportsTo? ==> !WalkUp(Within(rows, r.from, r.to), r.target, r.subject, MAX_DEPTH)
    ensures NoShortLoop(rows[id := r])
  {
    hide Covers, InForce, WalkUp, Within;
    var after := rows[id := r];
    forall at, path | Loop(InForce(after, at), path) ensures |path| == 2 || |path| > MAX_DEPTH + 2 {
      var edges, before := InForce(after, at), InForce(rows, at);
      NewLineOnly(rows, id, r, at);
      if i :| 0 <= i < |path| - 1 && (path[i], path[i + 1]) !in before {
        assert (path[i], path[i + 1]) in edges;
        NewLineLoops(rows, id, r, at, path, i);
      } else {
        assert Loop(before, path);
      }
    }
  }

  /** Ending takes lines out of force and puts none in. */
  lemma EndedKeeps(rows: Rows, id: Id, at: int)
    requires Ended(rows, id, at).Some? && NoShortLoop(rows) && OneManager(rows)
    ensures NoShortLoop(Ended(rows, id, at).value) && OneManager(Ended(rows, id, at).value)
  {
    var after := Ended(rows, id, at).value;
    forall now, path | Loop(InForce(after, now), path) ensures |path| == 2 || |path| > MAX_DEPTH + 2 {
      assert forall e | e in InForce(after, now) :: e in InForce(rows, now);
      assert Loop(InForce(rows, now), path);
    }
  }

  lemma CreatedKeepsOneManager(rows: Rows, id: Id, r: Relationship)
    requires OneManager(rows) && id !in rows
    requires r.kind.ReportsTo? ==> forall k | k in rows ::
      rows[k].kind.ReportsTo? && rows[k].subject == r.subject ==> !Overlaps(rows[k], r.from, r.to)
    ensures OneManager(rows[id := r])
  {
    var after := rows[id := r];
    forall at, a, b | a in after && b in after && after[a].kind.ReportsTo? && after[b].kind.ReportsTo?
      && after[a].subject == after[b].subject && Covers(after[a], at) && Covers(after[b], at)
      ensures a == b
    {
      if a == id && b != id {
        CoveredOverlaps(rows[b], at, r.from, r.to);
      } else if b == id && a != id {
        CoveredOverlaps(rows[a], at, r.from, r.to);
      }
    }
  }

  datatype Change =
    | Create(id: Id, actor: Id, relationship: Relationship)
    | End(id: Id, actor: Id, at: int)

  ghost function Apply(people: map<Id, bool>, positions: set<Id>, rows: Rows, change: Change): Rows {
    match change
    case Create(id, actor, r) => if Refused(people, positions, rows, id, actor, r) then rows else rows[id := r]
    case End(id, actor, at) =>
      if actor in people && people[actor] && Ended(rows, id, at).Some? then Ended(rows, id, at).value else rows
  }

  /** People come and go between the changes, so each change has the directory of its own moment. */
  ghost function History(changes: seq<(map<Id, bool>, set<Id>, Change)>): Rows {
    if changes == [] then map[]
    else
      var last := changes[|changes| - 1];
      Apply(last.0, last.1, History(changes[..|changes| - 1]), last.2)
  }

  /** Over every history, at no instant do the reporting lines in force close a loop of 2 to 65 people, and
      nobody has two managers at once; although a walk only tests each line against the window and not
      the lines against one another. */
  lemma {:induction false} ManagementStaysAHierarchy(changes: seq<(map<Id, bool>, set<Id>, Change)>)
    ensures NoShortLoop(History(changes)) && OneManager(History(changes)) && Lasting(History(changes))
  {
    if changes == [] {
      forall at, path ensures !Loop(InForce(map[], at), path) {
        assert InForce(map[], at) == {};
        NoEdgesNoPath(path);
      }
    } else {
      var last := changes[|changes| - 1];
      var rows := History(changes[..|changes| - 1]);
      ManagementStaysAHierarchy(changes[..|changes| - 1]);
      match last.2
      case Create(id, actor, r) =>
        if !Refused(last.0, last.1, rows, id, actor, r) {
          CreatedKeepsLoops(rows, id, r);
          CreatedKeepsOneManager(rows, id, r);
        }
      case End(id, actor, at) =>
        if Ended(rows, id, at).Some? {
          EndedKeeps(rows, id, at);
        }
    }
  }

  /** In every history, exactly the sound relationships are accepted. */
  lemma AcceptedIff(
    changes: seq<(map<Id, bool>, set<Id>, Change)>, people: map<Id, bool>, positions: set<Id>, id: Id, actor: Id,
    r: Relationship)
    ensures var rows := History(changes);
      Apply(people, positions, rows, Create(id, actor, r))
        == if Sound(people, positions, rows, id, actor, r) then rows[id := r] else rows
  {
    hide Refused, Sound;
    ManagementStaysAHierarchy(changes);
    SoundIff(people, positions, History(changes), id, actor, r);
  }

  // ---- Where the graph is not kept acyclic ---------------------------------------------------

  lemma ForceGrows(rows: Rows, id: Id, r: Relationship, at: int)
    requires id !in rows && r.kind.ReportsTo? && Covers(r, at)
    ensures InForce(rows[id := r], at) == InForce(rows, at) + {(r.subject, r.target)}
  {
    var after := rows[id := r];
    assert id in after;
    forall k | k in rows && rows[k].kind.ReportsTo? && Covers(rows[k], at)
      ensures (rows[k].subject, rows[k].target) in InForce(after, at)
    {
      assert k in after && after[k] == rows[k];
    }
  }

  /** What an accepted line can still close is a loop of one person or of more than 65: an acyclic graph
      stays acyclic exactly when the line is no self line and its manager does not already report, by
      way of more than 64 lines in force, to its subject. */
  lemma AcceptedStaysAcyclicIff(rows: Rows, id: Id, r: Relationship, at: int)
    requires id !in rows && r.kind.ReportsTo? && Covers(r, at) && Acyclic(InForce(rows, at))
    requires !WalkUp(Within(rows, r.from, r.to), r.target, r.subject, MAX_DEPTH)
    ensures Acyclic(InForce(rows[id := r], at)) <==>
      && r.subject != r.target
      && forall path | PathFromTo(InForce(rows, at), path, r.target, r.subject) :: |path| <= MAX_DEPTH + 1
  {
    var before, within := InForce(rows, at), Within(rows, r.from, r.to);
    ForceGrows(rows, id, r, at);
    AcyclicAfterEdgeIff(before, r.subject, r.target);
    forall path | PathFromTo(before, path, r.target, r.subject) ensures |path| > MAX_DEPTH + 1 {
      assert forall e | e in before :: e in within;
      assert PathFromTo(within, path, r.target, r.subject);
    }
  }

  /** A person may be made their own manager: the walk starts above the new line. */
  lemma SelfLineIsAccepted(person: Id)
    ensures var self := Relationship(person, ReportsTo, person, 0, None);
      var rows := Apply(map[person := true], {}, map[], Create(1, person, self));
      rows == map[1 := self] && Loop(InForce(rows, 0), [person, person])
  {
    var self := Relationship(person, ReportsTo, person, 0, None);
    assert Within(map[], 0, None) == {};
    forall path ensures !PathFromTo({}, path, person, person) {
      NoEdgesNoPath(path);
    }
    assert 1 in map[1 := self] && (person, person) in InForce(map[1 := self], 0);
  }

  /** A chain of n lines: person i reports to person i + 1. */
  function Chain(n: nat): (rows: Rows)
    ensures forall i :: i in rows <==> 0 <= i < n
    ensures forall i | 0 <= i < n :: rows[i] == Relationship(i, ReportsTo, i + 1, 0, None)
  {
    if n == 0 then map[] else Chain(n - 1)[n - 1 := Relationship(n - 1, ReportsTo, n, 0, None)]
  }

  function Everybody(n: nat): (people: map<Id, bool>)
    ensures forall i | 0 <= i < n :: i in people && people[i]
  {
    if n == 0 then map[] else Everybody(n - 1)[n - 1 := true]
  }

  function ChainChanges(n: nat): seq<(map<Id, bool>, set<Id>, Change)> {
    if n == 0 then []
    else ChainChanges(n - 1) + [(Everybody(n + 1), {}, Create(n - 1, 0, Relationship(n - 1, ReportsTo, n, 0, None)))]
  }

  lemma ChainWithin(n: nat)
    ensures forall e :: e in Within(Chain(n), 0, None) <==> 0 <= e.0 < n && e.1 == e.0 + 1
    ensures forall e :: e in InForce(Chain(n), 0) <==> 0 <= e.0 < n && e.1 == e.0 + 1
  {
    forall e: (Id, Id) | 0 <= e.0 < n && e.1 == e.0 + 1
      ensures e in Within(Chain(n), 0, None) && e in InForce(Chain(n), 0)
    {
      assert e.0 in Chain(n);
    }
  }

  /** A walk up the chain rises by one person a line. */
  lemma {:induction false} ChainRises(n: nat, path: seq<Id>)
    requires IsPath(Within(Chain(n), 0, None), path)
    ensures path[|path| - 1] == path[0] + |path| - 1 <= n
  {
    ChainWithin(n);
    assert (path[0], path[1]) in Within(Chain(n), 0, None);
    if |path| > 2 {
      ChainRises(n, path[1..]);
    }
  }

  /** The next line of the chain, and a line from its top back to its bottom once it is long enough. */
  lemma ChainLineAccepted(n: nat, target: Id)
    requires target == n + 1 || (target == 0 && n > MAX_DEPTH)
    ensures !Refused(Everybody(n + 2), {}, Chain(n), n, 0, Relationship(n, ReportsTo, target, 0, None))
  {
    var edges := Within(Chain(n), 0, None);
    forall path | PathFromTo(edges, path, target, n) ensures |path| > MAX_DEPTH + 1 {
      ChainRises(n, path);
    }
  }

  lemma {:induction false} ChainIsBuilt(n: nat)
    ensures History(ChainChanges(n)) == Chain(n)
  {
    hide Refused, Within;
    if n > 0 {
      ChainIsBuilt(n - 1);
      var changes := ChainChanges(n);
      assert changes[..|changes| - 1] == ChainChanges(n - 1);
      ChainLineAccepted(n - 1, n);
      assert Chain(n - 1)[n - 1 := Relationship(n - 1, ReportsTo, n, 0, None)] == Chain(n);
    }
  }

  lemma ClosedChainLoops(n: nat, loop: seq<Id>)
    requires |loop| == n + 2 && loop[n + 1] == 0 && forall i | 0 <= i <= n :: loop[i] == i
    ensures Loop(InForce(Chain(n)[n := Relationship(n, ReportsTo, 0, 0, None)], 0), loop)
  {
    var rows := Chain(n)[n := Relationship(n, ReportsTo, 0, 0, None)];
    var edges := InForce(rows, 0);
    forall i | 0 <= i < |loop| - 1 ensures (loop[i], loop[i + 1]) in edges {
      assert i in rows && rows[i].subject == loop[i] && rows[i].target == loop[i + 1];
    }
  }

  /** A loop of 66 people can be built, one accepted line after another: the walk that should refuse the
      last line stops one line too early. */
  lemma LongLoopIsAccepted() returns (changes: seq<(map<Id, bool>, set<Id>, Change)>, loop: seq<Id>)
    ensures Loop(InForce(History(changes), 0), loop) && |loop| == MAX_DEPTH + 3
  {
    hide Refused, InForce, Within, Loop, Chain, Everybody, ChainChanges;
    var n := MAX_DEPTH + 1;
    var last := Create(n, 0, Relationship(n, ReportsTo, 0, 0, None));
    var before := ChainChanges(n);
    changes := before + [(Everybody(n + 2), {}, last)];
    loop := seq(n + 2, i => if i <= n then i else 0);
    ChainIsBuilt(n);
    assert changes[..|changes| - 1] == before;
    ChainLineAccepted(n, 0);
    ClosedChainLoops(n, loop);
  }
}
