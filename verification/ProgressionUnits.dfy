/**
  The contraction of a program into units, proved to succeed exactly when the lifecycle
  nodes can be shared out among the target actions, and then to give a partition.
 */
module ProgressionUnits {
  import opened Wrappers
  import opened Progression

  datatype UnitFault = NotLifecycle | SharedLifecycle | OrphanLifecycle

  predicate Program(nodes: map<NodeId, Action>, order: seq<NodeId>, edges: seq<Edge>) {
    && EdgesInside(Graph(nodes, edges, []))
    && (forall n | n in nodes :: n in order)
    && (forall i | 0 <= i < |order| :: order[i] in nodes)
    && (forall i, j | 0 <= i < j < |order| :: order[i] != order[j])
  }

  predicate TargetNode(nodes: map<NodeId, Action>, a: NodeId) {
    a in nodes && IsTarget(nodes[a])
  }

  predicate PhasesAreLifecycle(nodes: map<NodeId, Action>, edges: seq<Edge>, a: NodeId) {
    forall m | m in UnitMembers(edges, a) && m != a :: m in nodes && nodes[m] == Lifecycle
  }

  predicate Attached(nodes: map<NodeId, Action>, edges: seq<Edge>, m: NodeId) {
    exists a | a in nodes :: IsTarget(nodes[a]) && m in UnitMembers(edges, a)
  }

  /** Every phase member is a lifecycle node, and every lifecycle node has exactly one target action. */
  predicate Partitionable(nodes: map<NodeId, Action>, edges: seq<Edge>) {
    && (forall a | a in nodes && IsTarget(nodes[a]) :: PhasesAreLifecycle(nodes, edges, a))
    && (forall a, b | a in nodes && b in nodes && IsTarget(nodes[a]) && IsTarget(nodes[b]) && a != b ::
          UnitMembers(edges, a) !! UnitMembers(edges, b))
    && (forall m | m in nodes && nodes[m] == Lifecycle :: Attached(nodes, edges, m))
  }

  function UnitOf(nodes: map<NodeId, Action>, edges: seq<Edge>, a: NodeId): Option<Unit>
    requires a in nodes
  {
    match KindOf(nodes[a])
    case None => None
    case Some(kind) => Some(Unit(kind, a, if kind == OperationUnit then UnitMembers(edges, a) else {a}))
  }

  // ---------------------------------------------------------------- lifecycle ownership

  type Owners = map<NodeId, NodeId>

  /** Every owner is a target action that the program attaches the node to. */
  predicate Owned(nodes: map<NodeId, Action>, edges: seq<Edge>, owner: Owners) {
    forall m | m in owner ::
      && TargetNode(nodes, owner[m]) && m != owner[m] && m in UnitMembers(edges, owner[m])
      && m in nodes && nodes[m] == Lifecycle
  }

  predicate Claimed(owner: Owners, a: NodeId, members: set<NodeId>) {
    forall m | m in members && m != a :: m in owner && owner[m] == a
  }

  lemma SharedMember(nodes: map<NodeId, Action>, edges: seq<Edge>, owner: Owners, a: NodeId, m: NodeId)
    requires Owned(nodes, edges, owner) && TargetNode(nodes, a) && m in UnitMembers(edges, a)
    requires m in owner && owner[m] != a
    ensures !Partitionable(nodes, edges)
  {
    assert m in UnitMembers(edges, owner[m]) && m in UnitMembers(edges, a);
  }

  /** Claim the members of one target action, or report why that cannot be done. */
  method ClaimMembers(nodes: map<NodeId, Action>, edges: seq<Edge>, owner: Owners, a: NodeId)
    returns (r: Result<Owners, UnitFault>)
    requires Owned(nodes, edges, owner) && TargetNode(nodes, a)
    ensures r.Failure? ==> !Partitionable(nodes, edges)
    ensures r.Success? ==>
              && Owned(nodes, edges, r.value) && Claimed(r.value, a, UnitMembers(edges, a))
              && PhasesAreLifecycle(nodes, edges, a)
              && owner.Keys <= r.value.Keys && forall m | m in owner :: r.value[m] == owner[m]
  {
    var claimed: Owners := owner;
    var rest := UnitMembers(edges, a) - {a};
    while rest != {}
      invariant rest <= UnitMembers(edges, a) - {a}
      invariant Owned(nodes, edges, claimed)
      invariant forall m | m in UnitMembers(edges, a) && m != a && m !in rest ::
          m in claimed && claimed[m] == a && m in nodes && nodes[m] == Lifecycle
      invariant owner.Keys <= claimed.Keys && forall m | m in owner :: claimed[m] == owner[m]
      decreases |rest|
    {
      var m: NodeId :| m in rest;
      if m !in nodes || nodes[m] != Lifecycle {
        assert !PhasesAreLifecycle(nodes, edges, a);
        return Failure(NotLifecycle);
      }
      if m in claimed && claimed[m] != a {
        SharedMember(nodes, edges, claimed, a, m);
        return Failure(SharedLifecycle);
      }
      claimed := claimed[m := a];
      rest := rest - {m};
    }
    return Success(claimed);
  }

  // ---------------------------------------------------------------- sorting

  function InsertUnit(units: seq<Unit>, u: Unit): (r: seq<Unit>)
    requires SortedUnits(units) && forall v | v in units :: v.primary != u.primary
    ensures SortedUnits(r) && forall v :: v in r <==> v == u || v in units
  {
    if units == [] then [u]
    else if u.primary < units[0].primary then [u] + units
    else
      assert units == [units[0]] + units[1..];
      var rest := InsertUnit(units[1..], u);
      assert forall i | 0 <= i < |rest| :: rest[i] == u || rest[i] in units[1..];
      [units[0]] + rest
  }

  predicate DistinctPrimaries(units: seq<Unit>) {
    forall i, j | 0 <= i < j < |units| :: units[i].primary != units[j].primary
  }

  function SortUnits(units: seq<Unit>): (r: seq<Unit>)
    requires DistinctPrimaries(units)
    ensures SortedUnits(r) && forall v :: v in r <==> v in units
  {
    if units == [] then []
    else
      assert units == [units[0]] + units[1..];
      InsertUnit(SortUnits(units[1..]), units[0])
  }

  // ---------------------------------------------------------------- collection

  predicate UnitOwned(nodes: map<NodeId, Action>, edges: seq<Edge>, owner: Owners, u: Unit) {
    && u.primary in nodes && UnitOf(nodes, edges, u.primary) == Some(u)
    && (forall m | m in u.members && m != u.primary ::
          m in nodes && nodes[m] == Lifecycle && m in owner && owner[m] == u.primary)
  }

  lemma UnitsAreDisjoint(nodes: map<NodeId, Action>, edges: seq<Edge>, owner: Owners, u: Unit, v: Unit)
    requires UnitOwned(nodes, edges, owner, u) && UnitOwned(nodes, edges, owner, v) && u.primary != v.primary
    ensures u.members !! v.members
  {}

  lemma OwnedIsRight(nodes: map<NodeId, Action>, edges: seq<Edge>, owner: Owners, units: seq<Unit>, u: Unit)
    requires UnitOwned(nodes, edges, owner, u)
    ensures UnitRight(Graph(nodes, edges, units), u)
  {
    hide UnitMembers;
  }

  lemma ActionIsCovered(nodes: map<NodeId, Action>, edges: seq<Edge>, units: seq<Unit>, a: NodeId, n: NodeId)
    requires a in nodes && UnitOf(nodes, edges, a).Some? && UnitOf(nodes, edges, a).value in units
    requires n == a || (IsTarget(nodes[a]) && n in UnitMembers(edges, a))
    ensures Covers(units, n)
  {
    var u := UnitOf(nodes, edges, a).value;
    var i :| 0 <= i < |units| && units[i] == u;
    assert n in units[i].members;
  }

  lemma PartitionIsWellFormed(nodes: map<NodeId, Action>, edges: seq<Edge>, owner: Owners, units: seq<Unit>)
    requires EdgesInside(Graph(nodes, edges, units)) && SortedUnits(units)
    requires forall u | u in units :: UnitOwned(nodes, edges, owner, u)
    requires forall n | n in nodes && UnitOf(nodes, edges, n).Some? :: UnitOf(nodes, edges, n).value in units
    requires forall n | n in nodes && nodes[n] == Lifecycle :: Attached(nodes, edges, n)
    ensures WellFormed(Graph(nodes, edges, units))
  {
    hide UnitMembers, UnitOf, UnitOwned, UnitRight, Covers, EdgesInside;
    var g := Graph(nodes, edges, units);
    forall i, j | 0 <= i < j < |units|
      ensures units[i].members !! units[j].members
    {
      UnitsAreDisjoint(nodes, edges, owner, units[i], units[j]);
    }
    forall n | n in nodes && nodes[n] != Retain
      ensures Covers(units, n)
    {
      NodeIsCovered(nodes, edges, units, n);
    }
    forall i | 0 <= i < |units|
      ensures UnitRight(g, units[i])
    {
      OwnedIsRight(nodes, edges, owner, units, units[i]);
    }
  }

  lemma NodeIsCovered(nodes: map<NodeId, Action>, edges: seq<Edge>, units: seq<Unit>, n: NodeId)
    requires forall k | k in nodes && UnitOf(nodes, edges, k).Some? :: UnitOf(nodes, edges, k).value in units
    requires n in nodes && nodes[n] != Retain && (nodes[n] == Lifecycle ==> Attached(nodes, edges, n))
    ensures Covers(units, n)
  {
    hide UnitMembers, Covers;
    var a := n;
    if nodes[n] == Lifecycle {
      a :| a in nodes && IsTarget(nodes[a]) && n in UnitMembers(edges, a);
    }
    ActionIsCovered(nodes, edges, units, a, n);
  }

  lemma OwnersGrow(nodes: map<NodeId, Action>, edges: seq<Edge>, owner: Owners, grown: Owners, u: Unit)
    requires UnitOwned(nodes, edges, owner, u)
    requires owner.Keys <= grown.Keys && forall m | m in owner :: grown[m] == owner[m]
    ensures UnitOwned(nodes, edges, grown, u)
  {}

  /** Whose unit an attached node is. */
  lemma AttachedIsOwned(nodes: map<NodeId, Action>, order: seq<NodeId>, edges: seq<Edge>, owner: Owners, m: NodeId)
    requires Program(nodes, order, edges) && m in nodes && nodes[m] == Lifecycle && Owned(nodes, edges, owner)
    requires forall a | a in order && IsTarget(nodes[a]) :: Claimed(owner, a, UnitMembers(edges, a))
    ensures m in owner <==> Attached(nodes, edges, m)
  {
    if Attached(nodes, edges, m) {
      var a :| a in nodes && IsTarget(nodes[a]) && m in UnitMembers(edges, a);
      assert Claimed(owner, a, UnitMembers(edges, a));
    }
  }

  /** What has been collected from the nodes visited so far. */
  predicate Collected(nodes: map<NodeId, Action>, visited: seq<NodeId>, edges: seq<Edge>, owner: Owners,
                      units: seq<Unit>)
    requires forall n | n in visited :: n in nodes
  {
    && Owned(nodes, edges, owner) && DistinctPrimaries(units)
    && (forall a | a in visited && IsTarget(nodes[a]) :: Claimed(owner, a, UnitMembers(edges, a)))
    && (forall u | u in units :: u.primary in visited && UnitOwned(nodes, edges, owner, u))
    && (forall n | n in visited && UnitOf(nodes, edges, n).Some? :: UnitOf(nodes, edges, n).value in units)
  }

  lemma CollectedGrows(nodes: map<NodeId, Action>, visited: seq<NodeId>, edges: seq<Edge>, owner: Owners,
                       units: seq<Unit>, n: NodeId, grown: Owners)
    requires forall m | m in visited :: m in nodes
    requires n in nodes && n !in visited && Collected(nodes, visited, edges, owner, units)
    requires Owned(nodes, edges, grown) && owner.Keys <= grown.Keys && forall m | m in owner :: grown[m] == owner[m]
    requires IsTarget(nodes[n]) ==> Claimed(grown, n, UnitMembers(edges, n)) && PhasesAreLifecycle(nodes, edges, n)
    ensures UnitOf(nodes, edges, n).None? ==> Collected(nodes, visited + [n], edges, grown, units)
    ensures UnitOf(nodes, edges, n).Some? ==>
              Collected(nodes, visited + [n], edges, grown, units + [UnitOf(nodes, edges, n).value])
  {
    hide UnitMembers;
    forall u | u in units
      ensures UnitOwned(nodes, edges, grown, u)
    {
      OwnersGrow(nodes, edges, owner, grown, u);
    }
    forall a | a in visited && IsTarget(nodes[a])
      ensures Claimed(grown, a, UnitMembers(edges, a))
    {
      assert Claimed(owner, a, UnitMembers(edges, a));
    }
  }

  method CollectUnits(nodes: map<NodeId, Action>, order: seq<NodeId>, edges: seq<Edge>)
    returns (r: Result<seq<Unit>, UnitFault>)
    requires Program(nodes, order, edges)
    ensures r.Success? <==> Partitionable(nodes, edges)
    ensures r.Success? ==> WellFormed(Graph(nodes, edges, r.value)) && SortedUnits(r.value)
  {
    hide Partitionable, WellFormed, Collected, PhasesAreLifecycle, Attached, Owned;
    var units: seq<Unit> := [];
    var owner: Owners := map[];
    NothingCollected(nodes, edges);
    for i := 0 to |order|
      invariant Collected(nodes, order[..i], edges, owner, units) && Owned(nodes, edges, owner)
    {
      var n := order[i];
      var grown := owner;
      if IsTarget(nodes[n]) {
        var claim := ClaimMembers(nodes, edges, owner, n);
        if claim.Failure? {
          return Failure(claim.error);
        }
        grown := claim.value;
      }
      CollectedGrows(nodes, order[..i], edges, owner, units, n, grown);
      assert order[..i + 1] == order[..i] + [n];
      owner := grown;
      if UnitOf(nodes, edges, n).Some? {
        units := units + [UnitOf(nodes, edges, n).value];
      }
    }
    assert order[..|order|] == order;
    for i := 0 to |order|
      invariant forall k | 0 <= k < i && nodes[order[k]] == Lifecycle :: order[k] in owner
    {
      if nodes[order[i]] == Lifecycle && order[i] !in owner {
        OrphanFails(nodes, order, edges, owner, units, order[i]);
        return Failure(OrphanLifecycle);
      }
    }
    OwnersArePartition(nodes, order, edges, owner, units);
    return Success(SortUnits(units));
  }

  lemma NothingCollected(nodes: map<NodeId, Action>, edges: seq<Edge>)
    ensures Collected(nodes, [], edges, map[], []) && Owned(nodes, edges, map[])
  {}

  lemma OrphanFails(nodes: map<NodeId, Action>, order: seq<NodeId>, edges: seq<Edge>, owner: Owners,
                    units: seq<Unit>, m: NodeId)
    requires Program(nodes, order, edges) && Collected(nodes, order, edges, owner, units)
    requires m in nodes && nodes[m] == Lifecycle && m !in owner
    ensures !Partitionable(nodes, edges)
  {
    AttachedIsOwned(nodes, order, edges, owner, m);
  }

  lemma TargetIsOwned(nodes: map<NodeId, Action>, order: seq<NodeId>, edges: seq<Edge>, owner: Owners, units: seq<Unit>,
                      a: NodeId)
    requires Program(nodes, order, edges) && Collected(nodes, order, edges, owner, units)
    requires a in nodes && IsTarget(nodes[a])
    ensures PhasesAreLifecycle(nodes, edges, a)
    ensures UnitOwned(nodes, edges, owner, Unit(OperationUnit, a, UnitMembers(edges, a)))
  {
    hide UnitMembers, DistinctPrimaries, EdgesInside;
    assert Claimed(owner, a, UnitMembers(edges, a));
    assert UnitOf(nodes, edges, a).value in units;
  }

  lemma OwnersArePartition(nodes: map<NodeId, Action>, order: seq<NodeId>, edges: seq<Edge>, owner: Owners,
                           units: seq<Unit>)
    requires Program(nodes, order, edges) && Collected(nodes, order, edges, owner, units)
    requires forall k | 0 <= k < |order| && nodes[order[k]] == Lifecycle :: order[k] in owner
    ensures DistinctPrimaries(units) && Partitionable(nodes, edges)
    ensures WellFormed(Graph(nodes, edges, SortUnits(units)))
  {
    OwnersPartition(nodes, order, edges, owner, units);
    hide UnitMembers, UnitOf, UnitOwned, PhasesAreLifecycle, Attached, Owned, Claimed, SortedUnits, WellFormed;
    assert EdgesInside(Graph(nodes, edges, []));
    PartitionIsWellFormed(nodes, edges, owner, SortUnits(units));
  }

  lemma OwnersPartition(nodes: map<NodeId, Action>, order: seq<NodeId>, edges: seq<Edge>, owner: Owners,
                        units: seq<Unit>)
    requires Program(nodes, order, edges) && Collected(nodes, order, edges, owner, units)
    requires forall k | 0 <= k < |order| && nodes[order[k]] == Lifecycle :: order[k] in owner
    ensures Partitionable(nodes, edges)
  {
    hide UnitMembers, UnitOf, UnitOwned, PhasesAreLifecycle, Attached, Claimed, DistinctPrimaries, EdgesInside;
    forall a | a in nodes && IsTarget(nodes[a])
      ensures PhasesAreLifecycle(nodes, edges, a)
    {
      TargetIsOwned(nodes, order, edges, owner, units, a);
    }
    forall a, b | a in nodes && b in nodes && IsTarget(nodes[a]) && IsTarget(nodes[b]) && a != b
      ensures UnitMembers(edges, a) !! UnitMembers(edges, b)
    {
      TargetIsOwned(nodes, order, edges, owner, units, a);
      TargetIsOwned(nodes, order, edges, owner, units, b);
      UnitsAreDisjoint(nodes, edges, owner, Unit(OperationUnit, a, UnitMembers(edges, a)),
                       Unit(OperationUnit, b, UnitMembers(edges, b)));
    }
    forall m | m in nodes && nodes[m] == Lifecycle
      ensures Attached(nodes, edges, m)
    {
      AttachedIsOwned(nodes, order, edges, owner, m);
    }
  }
}
