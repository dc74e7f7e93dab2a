/**
  Transaction progression: the dependency graph contracted into units, and the status of
  every node, which the original finds by sweeping over the units until nothing changes.
 */
module Progression {
  import opened Wrappers

  /** A node identity, as its rank in the order of the hexadecimal text. */
  type NodeId = nat

  datatype Action = Build | Check | Install | Upgrade | Remove | Lifecycle | Retain

  datatype EdgeKind = Requirement | PreLifecycleBeforeAction | ActionBeforePostLifecycle | OtherOrder

  datatype Edge = Edge(kind: EdgeKind, before: NodeId, after: NodeId)

  datatype UnitKind = ConstructionUnit | CheckUnit | OperationUnit

  datatype Unit = Unit(kind: UnitKind, primary: NodeId, members: set<NodeId>)

  datatype Graph = Graph(nodes: map<NodeId, Action>, edges: seq<Edge>, units: seq<Unit>)

  datatype Status = Pending | Ready | Blocked | Satisfied | Failed

  /**
    Terminal evidence of one unit.  The lifecycle lists are those of the effect request;
    the results are those that were reached.
   */
  datatype Evidence = Evidence(identity: string, session: string, succeeded: bool, expectedState: string,
                               before: seq<NodeId>, beforeResults: seq<bool>,
                               after: seq<NodeId>, afterResults: seq<bool>)

  predicate IsTarget(action: Action) {
    action == Install || action == Upgrade || action == Remove
  }

  function KindOf(action: Action): Option<UnitKind> {
    if action == Build then Some(ConstructionUnit)
    else if action == Check then Some(CheckUnit)
    else if IsTarget(action) then Some(OperationUnit)
    else None
  }

  // ---------------------------------------------------------------- units

  /** The unit of an action node: itself, and for a target action its lifecycle nodes. */
  function UnitMembers(edges: seq<Edge>, action: NodeId): set<NodeId> {
    {action}
    + (set e | e in edges && e.kind == PreLifecycleBeforeAction && e.after == action :: e.before)
    + (set e | e in edges && e.kind == ActionBeforePostLifecycle && e.before == action :: e.after)
  }

  predicate Covers(units: seq<Unit>, n: NodeId) {
    exists i | 0 <= i < |units| :: n in units[i].members
  }

  predicate DisjointUnits(units: seq<Unit>) {
    forall i, j | 0 <= i < j < |units| :: units[i].members !! units[j].members
  }

  predicate SortedUnits(units: seq<Unit>) {
    forall i, j | 0 <= i < j < |units| :: units[i].primary < units[j].primary
  }

  predicate EdgesInside(g: Graph) {
    forall i | 0 <= i < |g.edges| :: g.edges[i].before in g.nodes && g.edges[i].after in g.nodes
  }

  /** The unit is the one that the program's edges give to its primary node. */
  predicate UnitRight(g: Graph, u: Unit) {
    && u.primary in g.nodes && KindOf(g.nodes[u.primary]) == Some(u.kind)
    && u.members == (if u.kind == OperationUnit then UnitMembers(g.edges, u.primary) else {u.primary})
    && forall n | n in u.members && n != u.primary :: n in g.nodes && g.nodes[n] == Lifecycle
  }

  /** The units partition the nodes that are not retained. */
  predicate WellFormed(g: Graph) {
    && EdgesInside(g) && DisjointUnits(g.units)
    && (forall i | 0 <= i < |g.units| :: UnitRight(g, g.units[i]))
    && (forall n | n in g.nodes :: g.nodes[n] != Retain ==> Covers(g.units, n))
  }

  // ---------------------------------------------------------------- status from evidence alone

  function LastIndex(order: seq<NodeId>, n: NodeId): (i: nat)
    requires n in order
    ensures i < |order| && order[i] == n
  {
    var last := |order| - 1;
    if order[last] == n then last else LastIndex(order[..last], n)
  }

  /** The result of a listed step; a step that was not reached has none. */
  function ResultStatus(order: seq<NodeId>, results: seq<bool>, n: NodeId): Status
    requires n in order
  {
    var i := LastIndex(order, n);
    if i >= |results| then Blocked else if results[i] then Satisfied else Failed
  }

  function EvidenceStatus(u: Unit, e: Evidence, n: NodeId): Status {
    if e.succeeded then Satisfied
    else if n == u.primary then Failed
    else if n in e.after then ResultStatus(e.after, e.afterResults, n)
    else if n in e.before then ResultStatus(e.before, e.beforeResults, n)
    else Blocked
  }

  function FindUnit(units: seq<Unit>, n: NodeId): (u: Option<Unit>)
    ensures u.Some? ==> u.value in units && n in u.value.members
    ensures u.None? ==> !Covers(units, n)
  {
    if units == [] then None
    else if n in units[0].members then Some(units[0])
    else
      var rest := FindUnit(units[1..], n);
      assert Covers(units, n) ==> Covers(units[1..], n) by {
        if Covers(units, n) {
          var i :| 0 <= i < |units| && n in units[i].members;
          assert units[1..][i - 1] == units[i];
        }
      }
      rest
  }

  /** The status before the sweeps: what evidence, or retention, says about the node. */
  function Seed(g: Graph, evidence: map<NodeId, Evidence>, n: NodeId): Status
    requires n in g.nodes
  {
    if g.nodes[n] == Retain then Satisfied
    else
      match FindUnit(g.units, n)
      case None => Pending
      case Some(u) => if u.primary in evidence then EvidenceStatus(u, evidence[u.primary], n) else Pending
  }

  /** No evidence yet: the sweeps decide. */
  predicate Open(evidence: map<NodeId, Evidence>, u: Unit) {
    u.primary !in evidence
  }

  // ---------------------------------------------------------------- status by definition

  predicate External(u: Unit, e: Edge) {
    e.after in u.members && e.before !in u.members
  }

  predicate AllSatisfied(g: Graph, evidence: map<NodeId, Evidence>, u: Unit)
    requires EdgesInside(g)
  {
    forall i | 0 <= i < |g.edges| && External(u, g.edges[i]) :: Seed(g, evidence, g.edges[i].before) == Satisfied
  }

  predicate IsReady(g: Graph, evidence: map<NodeId, Evidence>, u: Unit)
    requires EdgesInside(g)
  {
    Open(evidence, u) && AllSatisfied(g, evidence, u)
  }

  predicate Poison(s: Status) {
    s == Failed || s == Blocked
  }

  predicate Reaches(g: Graph, from: Unit, to: Unit) {
    exists i | 0 <= i < |g.edges| :: External(to, g.edges[i]) && g.edges[i].before in from.members
  }

  predicate PoisonedDirectly(g: Graph, evidence: map<NodeId, Evidence>, u: Unit)
    requires EdgesInside(g)
  {
    exists i | 0 <= i < |g.edges| :: External(u, g.edges[i]) && Poison(Seed(g, evidence, g.edges[i].before))
  }

  /** A chain of edges through open units, from a failed or evidence-blocked node. */
  predicate PoisonChain(g: Graph, evidence: map<NodeId, Evidence>, chain: seq<Unit>)
    requires EdgesInside(g)
  {
    && chain != [] && PoisonedDirectly(g, evidence, chain[0])
    && (forall i | 0 <= i < |chain| :: chain[i] in g.units && Open(evidence, chain[i]))
    && (forall i | 0 < i < |chain| :: Reaches(g, chain[i - 1], chain[i]))
  }

  ghost predicate Poisoned(g: Graph, evidence: map<NodeId, Evidence>, u: Unit)
    requires EdgesInside(g)
  {
    exists chain: seq<Unit> :: PoisonChain(g, evidence, chain) && chain[|chain| - 1] == u
  }

  ghost function UnitStatus(g: Graph, evidence: map<NodeId, Evidence>, u: Unit): Status
    requires EdgesInside(g)
  {
    if Poisoned(g, evidence, u) then Blocked
    else if AllSatisfied(g, evidence, u) then Ready
    else Pending
  }

  ghost function NodeStatus(g: Graph, evidence: map<NodeId, Evidence>, n: NodeId): Status
    requires EdgesInside(g) && n in g.nodes
  {
    var u := FindUnit(g.units, n);
    if g.nodes[n] != Retain && u.Some? && Open(evidence, u.value) then UnitStatus(g, evidence, u.value)
    else Seed(g, evidence, n)
  }
}
