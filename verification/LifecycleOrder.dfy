/**
  The order of the lifecycle nodes on one side of a target action: the smallest available
  node first, under the requirement edges between the nodes.
 */
module LifecycleOrder {
  import opened Wrappers
  import opened Progression
  import opened Sequences
  import Dispatch

  /** For each lifecycle member, the members that must come after it. */
  type Arcs = map<NodeId, set<NodeId>>

  predicate Arc(arcs: Arcs, p: NodeId, m: NodeId) {
    p in arcs && m in arcs[p]
  }

  function Preds(arcs: Arcs, m: NodeId): set<NodeId> {
    set p | p in arcs && m in arcs[p]
  }

  predicate Closed(arcs: Arcs) {
    forall p | p in arcs :: arcs[p] <= arcs.Keys
  }

  /** A permutation of the members that respects every arc. */
  predicate Topological(arcs: Arcs, order: seq<NodeId>) {
    && Distinct(order) && Elements(order) == arcs.Keys
    && forall i, j | 0 <= i < |order| && 0 <= j < |order| && Arc(arcs, order[i], order[j]) :: i < j
  }

  predicate Eligible(arcs: Arcs, placed: set<NodeId>, m: NodeId) {
    m in arcs && m !in placed && Preds(arcs, m) <= placed
  }

  /** Each element is the least that is eligible after the earlier ones. */
  predicate Greedy(arcs: Arcs, order: seq<NodeId>) {
    forall j | 0 <= j < |order| :: GreedyAt(arcs, order, j)
  }

  predicate GreedyAt(arcs: Arcs, order: seq<NodeId>, j: nat)
    requires j < |order|
  {
    && Eligible(arcs, Elements(order[..j]), order[j])
    && forall m | m in arcs :: Eligible(arcs, Elements(order[..j]), m) ==> order[j] <= m
  }

  predicate LexAtMost(a: seq<NodeId>, b: seq<NodeId>) {
    a == b || exists k | 0 <= k < |a| && k < |b| :: a[..k] == b[..k] && a[k] < b[k]
  }

  predicate Cycle(arcs: Arcs, path: seq<NodeId>) {
    && |path| >= 2 && path[0] == path[|path| - 1]
    && forall i | 0 <= i < |path| - 1 :: Arc(arcs, path[i], path[i + 1])
  }

  ghost predicate Cyclic(arcs: Arcs) {
    exists path: seq<NodeId> :: Cycle(arcs, path)
  }

  // ---------------------------------------------------------------- greedy orders

  lemma GreedyHasDistinct(arcs: Arcs, order: seq<NodeId>)
    requires Greedy(arcs, order)
    ensures Distinct(order) && Elements(order) <= arcs.Keys
  {
    forall i, j | 0 <= i < j < |order|
      ensures order[i] != order[j]
    {
      assert GreedyAt(arcs, order, j);
      assert order[..j][i] in Elements(order[..j]);
    }
    forall n | n in order
      ensures n in arcs
    {
      var j :| 0 <= j < |order| && order[j] == n;
      assert GreedyAt(arcs, order, j);
    }
  }

  lemma GreedyIsTopological(arcs: Arcs, order: seq<NodeId>)
    requires Greedy(arcs, order) && Elements(order) == arcs.Keys
    ensures Topological(arcs, order)
  {
    GreedyHasDistinct(arcs, order);
    forall i, j | 0 <= i < |order| && 0 <= j < |order| && Arc(arcs, order[i], order[j])
      ensures i < j
    {
      assert GreedyAt(arcs, order, j);
      assert order[i] in Preds(arcs, order[j]);
      var k :| 0 <= k < j && order[..j][k] == order[i];
      assert order[k] == order[i];
    }
  }

  lemma {:induction false} FirstDifference(a: seq<NodeId>, b: seq<NodeId>) returns (k: nat)
    requires |a| == |b| && a != b
    ensures k < |a| && a[..k] == b[..k] && a[k] != b[k]
    decreases |a|
  {
    if a[0] != b[0] {
      k := 0;
    } else {
      assert a == [a[0]] + a[1..] && b == [b[0]] + b[1..];
      k := FirstDifference(a[1..], b[1..]);
      assert a[..k + 1] == [a[0]] + a[1..][..k] && b[..k + 1] == [b[0]] + b[1..][..k];
      k := k + 1;
    }
  }

  /** What stands next in a topological order is eligible there. */
  lemma NextIsEligible(arcs: Arcs, other: seq<NodeId>, k: nat)
    requires Topological(arcs, other) && k < |other|
    ensures Eligible(arcs, Elements(other[..k]), other[k])
  {
    forall p | p in Preds(arcs, other[k])
      ensures p in Elements(other[..k])
    {
      assert p in Elements(other);
      var i :| 0 <= i < |other| && other[i] == p;
      assert Arc(arcs, other[i], other[k]);
      assert other[..k][i] == p;
    }
    forall i | 0 <= i < k
      ensures other[..k][i] != other[k]
    {
      assert other[i] != other[k];
    }
  }

  /** The greedy order is the lexicographically least of all topological orders. */
  lemma GreedyIsLeast(arcs: Arcs, order: seq<NodeId>, other: seq<NodeId>)
    requires Greedy(arcs, order) && Elements(order) == arcs.Keys && Topological(arcs, other)
    ensures LexAtMost(order, other)
  {
    GreedyHasDistinct(arcs, order);
    DistinctCount(order);
    DistinctCount(other);
    if order != other {
      var k := FirstDifference(order, other);
      NextIsEligible(arcs, other, k);
      assert GreedyAt(arcs, order, k);
    }
  }

  // ---------------------------------------------------------------- cycles

  /** An order of all members and a cycle among them exclude each other. */
  lemma OrderedIsAcyclic(arcs: Arcs, order: seq<NodeId>, path: seq<NodeId>)
    requires Closed(arcs) && Topological(arcs, order)
    ensures !Cycle(arcs, path)
  {
    if Cycle(arcs, path) {
      var i, j := Climbs(arcs, order, path, |path| - 1);
    }
  }

  lemma {:induction false} Climbs(arcs: Arcs, order: seq<NodeId>, path: seq<NodeId>, k: nat) returns (i: nat, j: nat)
    requires Closed(arcs) && Topological(arcs, order) && Cycle(arcs, path) && 0 < k < |path|
    ensures i < j < |order| && order[i] == path[0] && order[j] == path[k]
    decreases k
  {
    assert Arc(arcs, path[k - 1], path[k]);
    assert path[k - 1] in Elements(order) && path[k] in Elements(order);
    var m :| 0 <= m < |order| && order[m] == path[k - 1];
    j :| 0 <= j < |order| && order[j] == path[k];
    i := m;
    if k > 1 {
      var p, q := Climbs(arcs, order, path, k - 1);
      assert q == m;
      i := p;
    }
  }

  predicate HasPred(arcs: Arcs, rest: set<NodeId>, m: NodeId) {
    exists p | p in rest :: Arc(arcs, p, m)
  }

  /** A walk against the arcs that never leaves `rest`. */
  lemma {:induction false} BackwardWalk(arcs: Arcs, rest: set<NodeId>, length: nat) returns (walk: seq<NodeId>)
    requires rest != {} && forall m | m in rest :: HasPred(arcs, rest, m)
    ensures |walk| == length + 1 && (forall i | 0 <= i < |walk| :: walk[i] in rest)
    ensures forall i | 0 <= i < length :: Arc(arcs, walk[i], walk[i + 1])
    decreases length
  {
    hide HasPred, Arc;
    if length == 0 {
      var m: NodeId :| m in rest;
      walk := [m];
    } else {
      var shorter := BackwardWalk(arcs, rest, length - 1);
      var p := PredOf(arcs, rest, shorter[0]);
      walk := [p] + shorter;
      forall i | 0 <= i < length
        ensures Arc(arcs, walk[i], walk[i + 1])
      {
        if i > 0 {
          assert Arc(arcs, shorter[i - 1], shorter[i - 1 + 1]);
          assert walk[i] == shorter[i - 1] && walk[i + 1] == shorter[i];
        }
      }
    }
  }

  lemma PredOf(arcs: Arcs, rest: set<NodeId>, m: NodeId) returns (p: NodeId)
    requires HasPred(arcs, rest, m)
    ensures p in rest && Arc(arcs, p, m)
  {
    p :| p in rest && Arc(arcs, p, m);
  }

  /** Too long a walk repeats a node. */
  lemma Repeats(walk: seq<NodeId>, rest: set<NodeId>) returns (i: nat, j: nat)
    requires |walk| > |rest| && forall k | 0 <= k < |walk| :: walk[k] in rest
    ensures i < j < |walk| && walk[i] == walk[j]
  {
    if Distinct(walk) {
      DistinctCount(walk);
      SubsetCount(Elements(walk), rest);
    }
    i, j :| 0 <= i < j < |walk| && walk[i] == walk[j];
  }

  /** Where nothing is eligible among the members that are left, they contain a cycle. */
  lemma StuckIsCyclic(arcs: Arcs, rest: set<NodeId>)
    requires rest != {} && forall m | m in rest :: HasPred(arcs, rest, m)
    ensures Cyclic(arcs)
  {
    hide HasPred, Arc;
    var walk := BackwardWalk(arcs, rest, |rest|);
    var i, j := Repeats(walk, rest);
    var path := walk[i..j + 1];
    forall k | 0 <= k < |path| - 1
      ensures Arc(arcs, path[k], path[k + 1])
    {
      assert path[k] == walk[i + k] && path[k + 1] == walk[(i + k) + 1];
    }
    assert Cycle(arcs, path);
  }

  // ---------------------------------------------------------------- the method

  method LeastOf(s: set<NodeId>) returns (least: NodeId)
    requires s != {}
    ensures least in s && forall m | m in s :: least <= m
  {
    least :| least in s;
    var rest := s - {least};
    while rest != {}
      invariant rest <= s && least in s && forall m | m in s && m !in rest :: least <= m
      decreases |rest|
    {
      var m: NodeId :| m in rest;
      if m < least {
        least := m;
      }
      rest := rest - {m};
    }
  }

  type Degrees = map<NodeId, nat>

  /** The indegree counts the distinct predecessors that are not placed yet. */
  predicate DegreesRight(arcs: Arcs, placed: set<NodeId>, indegree: Degrees) {
    indegree.Keys == arcs.Keys && forall m | m in arcs :: indegree[m] == |Preds(arcs, m) - placed|
  }

  lemma NothingLeft(a: set<NodeId>, b: set<NodeId>)
    ensures |a - b| == 0 <==> a <= b
  {
    if |a - b| == 0 {
      forall n | n in a
        ensures n in b
      {
        assert n !in a - b;
      }
    } else {
      var n :| n in a - b;
    }
  }

  lemma EligibleByDegree(arcs: Arcs, placed: set<NodeId>, indegree: Degrees, m: NodeId)
    requires DegreesRight(arcs, placed, indegree) && m in arcs && m !in placed
    ensures indegree[m] == 0 <==> Eligible(arcs, placed, m)
  {
    hide Preds;
    NothingLeft(Preds(arcs, m), placed);
  }

  lemma PredsAreArcs(arcs: Arcs, m: NodeId)
    ensures forall p :: p in Preds(arcs, m) <==> Arc(arcs, p, m)
  {}

  ghost predicate ReadyRight(arcs: Arcs, placed: set<NodeId>, ready: set<NodeId>) {
    forall m :: m in ready <==> Eligible(arcs, placed, m)
  }

  /** The predecessors of what is placed are placed. */
  predicate DownClosed(arcs: Arcs, placed: set<NodeId>) {
    forall m | m in placed && m in arcs :: Preds(arcs, m) <= placed
  }

  function PlacedFor(placed: set<NodeId>, current: NodeId, rest: set<NodeId>, m: NodeId): set<NodeId> {
    if m in rest then placed else placed + {current}
  }

  predicate DegreesFor(arcs: Arcs, placed: set<NodeId>, current: NodeId, rest: set<NodeId>, degrees: Degrees) {
    && degrees.Keys == arcs.Keys
    && forall m | m in arcs :: degrees[m] == |Preds(arcs, m) - PlacedFor(placed, current, rest, m)|
  }

  ghost predicate ReadyFor(arcs: Arcs, placed: set<NodeId>, current: NodeId, rest: set<NodeId>, ready: set<NodeId>) {
    forall m :: m in ready <==>
      m != current && m in arcs && m !in placed && Preds(arcs, m) <= PlacedFor(placed, current, rest, m)
  }

  /** Part of the way through the successors of `current`. */
  ghost predicate Releasing(arcs: Arcs, placed: set<NodeId>, current: NodeId, rest: set<NodeId>, degrees: Degrees,
                            ready: set<NodeId>) {
    DegreesFor(arcs, placed, current, rest, degrees) && ReadyFor(arcs, placed, current, rest, ready)
  }

  lemma NotYetReleased(arcs: Arcs, placed: set<NodeId>, current: NodeId, m: NodeId)
    requires current in arcs && m in arcs
    ensures Preds(arcs, m) - PlacedFor(placed, current, arcs[current], m) == Preds(arcs, m) - placed
    ensures Preds(arcs, m) <= PlacedFor(placed, current, arcs[current], m) <==> Preds(arcs, m) <= placed
  {
    hide Preds;
    PredsAreArcs(arcs, m);
  }

  lemma ReleaseBegins(arcs: Arcs, placed: set<NodeId>, current: NodeId, degrees: Degrees, ready: set<NodeId>)
    requires DegreesRight(arcs, placed, degrees) && ReadyRight(arcs, placed, ready) && current in ready
    ensures current in arcs && Releasing(arcs, placed, current, arcs[current], degrees, ready - {current})
  {
    hide Preds, PlacedFor;
    forall m | m in arcs
      ensures Preds(arcs, m) - PlacedFor(placed, current, arcs[current], m) == Preds(arcs, m) - placed
      ensures Preds(arcs, m) <= PlacedFor(placed, current, arcs[current], m) <==> Preds(arcs, m) <= placed
    {
      NotYetReleased(arcs, placed, current, m);
    }
  }

  /** A successor of `current` that is not released yet is waiting for it. */
  lemma SuccessorWaits(arcs: Arcs, placed: set<NodeId>, current: NodeId, m: NodeId)
    requires Closed(arcs) && Eligible(arcs, placed, current) && m in arcs[current]
    requires DownClosed(arcs, placed)
    ensures m in arcs && m != current && m !in placed && current in Preds(arcs, m) - placed
  {
    PredsAreArcs(arcs, m);
    hide Preds;
  }

  lemma OneLess(a: set<NodeId>, placed: set<NodeId>, current: NodeId)
    requires current in a - placed
    ensures |a - (placed + {current})| == |a - placed| - 1
  {
    assert a - (placed + {current}) == (a - placed) - {current};
  }

  /** Releasing `m` changes what is placed for `m` alone. */
  lemma PlacedForOne(placed: set<NodeId>, current: NodeId, rest: set<NodeId>, m: NodeId, k: NodeId)
    requires m in rest
    ensures PlacedFor(placed, current, rest - {m}, k)
            == if k == m then placed + {current} else PlacedFor(placed, current, rest, k)
  {}

  lemma ReleaseDegree(arcs: Arcs, placed: set<NodeId>, current: NodeId, rest: set<NodeId>, degrees: Degrees, m: NodeId,
                      lower: Degrees)
    requires DegreesFor(arcs, placed, current, rest, degrees)
    requires m in rest && m in arcs && current in Preds(arcs, m) - placed
    requires lower.Keys == degrees.Keys && lower[m] == degrees[m] - 1
    requires forall k | k in degrees && k != m :: lower[k] == degrees[k]
    ensures DegreesFor(arcs, placed, current, rest - {m}, lower)
  {
    OneLess(Preds(arcs, m), placed, current);
    assert PlacedFor(placed, current, rest, m) == placed;
    hide Preds, PlacedFor;
    forall k | k in arcs
      ensures lower[k] == |Preds(arcs, k) - PlacedFor(placed, current, rest - {m}, k)|
    {
      PlacedForOne(placed, current, rest, m, k);
    }
  }

  lemma ReleaseReady(arcs: Arcs, placed: set<NodeId>, current: NodeId, rest: set<NodeId>, ready: set<NodeId>, m: NodeId,
                     nowReady: set<NodeId>)
    requires ReadyFor(arcs, placed, current, rest, ready)
    requires m in rest && m in arcs && m != current && m !in placed && current in Preds(arcs, m) - placed
    requires nowReady == if Preds(arcs, m) <= placed + {current} then ready + {m} else ready
    ensures ReadyFor(arcs, placed, current, rest - {m}, nowReady)
  {
    assert PlacedFor(placed, current, rest, m) == placed && !(Preds(arcs, m) <= placed);
    hide Preds, PlacedFor;
    forall k
      ensures k in nowReady <==>
                k != current && k in arcs && k !in placed && Preds(arcs, k) <= PlacedFor(placed, current, rest - {m}, k)
    {
      PlacedForOne(placed, current, rest, m, k);
    }
  }

  lemma ReleaseOne(arcs: Arcs, placed: set<NodeId>, current: NodeId, rest: set<NodeId>, degrees: Degrees,
                   ready: set<NodeId>,
                   m: NodeId, lower: Degrees, nowReady: set<NodeId>)
    requires Releasing(arcs, placed, current, rest, degrees, ready)
    requires m in rest && m in arcs && m != current && m !in placed && current in Preds(arcs, m) - placed
    requires lower.Keys == degrees.Keys && lower[m] == degrees[m] - 1
    requires forall k | k in degrees && k != m :: lower[k] == degrees[k]
    requires nowReady == if lower[m] == 0 then ready + {m} else ready
    ensures Releasing(arcs, placed, current, rest - {m}, lower, nowReady)
  {
    hide Preds, DegreesFor, ReadyFor;
    ReleaseDegree(arcs, placed, current, rest, degrees, m, lower);
    ReleasedDegree(arcs, placed, current, rest - {m}, lower, m);
    ReleaseReady(arcs, placed, current, rest, ready, m, nowReady);
  }

  lemma ReleasedDegree(arcs: Arcs, placed: set<NodeId>, current: NodeId, rest: set<NodeId>, degrees: Degrees, m: NodeId)
    requires DegreesFor(arcs, placed, current, rest, degrees) && m in arcs && m !in rest
    ensures m in degrees && (degrees[m] == 0 <==> Preds(arcs, m) <= placed + {current})
  {
    hide Preds;
    NothingLeft(Preds(arcs, m), placed + {current});
  }

  /** Placing `current` takes one from the indegree of each of its successors. */
  method ReleaseSuccessors(arcs: Arcs, placed: set<NodeId>, current: NodeId, indegree: Degrees, ready: set<NodeId>)
    returns (degrees: Degrees, nowReady: set<NodeId>)
    requires Closed(arcs) && DegreesRight(arcs, placed, indegree) && ReadyRight(arcs, placed, ready)
    requires current in ready && DownClosed(arcs, placed)
    ensures DegreesRight(arcs, placed + {current}, degrees) && ReadyRight(arcs, placed + {current}, nowReady)
  {
    hide Preds, Eligible, Releasing, DegreesRight, DownClosed, Closed;
    ReleaseBegins(arcs, placed, current, indegree, ready);
    assert Eligible(arcs, placed, current);
    hide ReadyRight;
    degrees, nowReady := indegree, ready - {current};
    var rest := arcs[current];
    while rest != {}
      invariant rest <= arcs[current] && Releasing(arcs, placed, current, rest, degrees, nowReady)
      decreases |rest|
    {
      var m: NodeId :| m in rest;
      SuccessorWaits(arcs, placed, current, m);
      degrees, nowReady := ReleaseSuccessor(arcs, placed, current, rest, degrees, nowReady, m);
      rest := rest - {m};
    }
    ReleaseEnds(arcs, placed, current, degrees, nowReady);
  }

  method ReleaseSuccessor(arcs: Arcs, ghost placed: set<NodeId>, ghost current: NodeId, ghost rest: set<NodeId>,
                          degrees: Degrees,
                          ready: set<NodeId>, m: NodeId) returns (lower: Degrees, nowReady: set<NodeId>)
    requires Releasing(arcs, placed, current, rest, degrees, ready)
    requires m in rest && m in arcs && m != current && m !in placed && current in Preds(arcs, m) - placed
    ensures Releasing(arcs, placed, current, rest - {m}, lower, nowReady)
  {
    hide Preds, Releasing;
    ReleasingDegree(arcs, placed, current, rest, degrees, ready, m);
    lower := degrees[m := degrees[m] - 1];
    assert lower.Keys == degrees.Keys;
    nowReady := ready;
    if lower[m] == 0 {
      nowReady := ready + {m};
    }
    ReleaseOne(arcs, placed, current, rest, degrees, ready, m, lower, nowReady);
  }

  lemma ReleasingDegree(arcs: Arcs, placed: set<NodeId>, current: NodeId, rest: set<NodeId>, degrees: Degrees,
                        ready: set<NodeId>, m: NodeId)
    requires Releasing(arcs, placed, current, rest, degrees, ready)
    requires m in rest && m in arcs && current in Preds(arcs, m) - placed
    ensures m in degrees && degrees[m] > 0
  {
    hide Preds;
    OneLess(Preds(arcs, m), placed, current);
  }

  lemma ReleaseEnds(arcs: Arcs, placed: set<NodeId>, current: NodeId, degrees: Degrees, ready: set<NodeId>)
    requires Releasing(arcs, placed, current, {}, degrees, ready)
    ensures DegreesRight(arcs, placed + {current}, degrees) && ReadyRight(arcs, placed + {current}, ready)
  {
    hide Preds;
  }

  // ---------------------------------------------------------------- the members and their arcs

  /** The phase that an edge gives to a lifecycle node of the action. */
  function SideMember(e: Edge, action: NodeId, pre: bool): Option<NodeId> {
    if pre && e.kind == PreLifecycleBeforeAction && e.after == action then Some(e.before)
    else if !pre && e.kind == ActionBeforePostLifecycle && e.before == action then Some(e.after)
    else None
  }

  /** The phase nodes in the order of their edges, one entry for each edge. */
  function RequiredLifecycle(edges: seq<Edge>, action: NodeId, pre: bool): seq<NodeId> {
    if edges == [] then []
    else
      var m := SideMember(edges[0], action, pre);
      (if m.Some? then [m.value] else []) + RequiredLifecycle(edges[1..], action, pre)
  }

  predicate Requires(edges: seq<Edge>, p: NodeId, m: NodeId) {
    exists i | 0 <= i < |edges| :: edges[i].kind == Requirement && edges[i].before == p && edges[i].after == m
  }

  /** The arcs among the members are the requirement edges between two of them. */
  predicate ArcsRight(arcs: Arcs, members: set<NodeId>, edges: seq<Edge>) {
    && arcs.Keys == members && Closed(arcs)
    && forall p, m | p in members && m in members :: m in arcs[p] <==> Requires(edges, p, m)
  }

  lemma {:induction false} RequiredIsMember(edges: seq<Edge>, action: NodeId, pre: bool, n: NodeId)
    ensures n in RequiredLifecycle(edges, action, pre)
            <==> exists i | 0 <= i < |edges| :: SideMember(edges[i], action, pre) == Some(n)
  {
    if edges != [] {
      RequiredIsMember(edges[1..], action, pre, n);
      if n in RequiredLifecycle(edges[1..], action, pre) {
        var i :| 0 <= i < |edges[1..]| && SideMember(edges[1..][i], action, pre) == Some(n);
        assert SideMember(edges[i + 1], action, pre) == Some(n);
      }
      if i :| 0 <= i < |edges| && SideMember(edges[i], action, pre) == Some(n) {
        if i > 0 {
          assert SideMember(edges[1..][i - 1], action, pre) == Some(n);
        }
      }
    }
  }

  datatype OrderFault = NotLifecycleNode | CyclicRequirements

  method CollectMembers(nodes: map<NodeId, Action>, edges: seq<Edge>, action: NodeId, pre: bool)
    returns (r: Option<set<NodeId>>)
    ensures r.None? <==> exists n | n in RequiredLifecycle(edges, action, pre) :: n !in nodes || nodes[n] != Lifecycle
    ensures r.Some? ==> r.value == Elements(RequiredLifecycle(edges, action, pre))
  {
    var members: set<NodeId> := {};
    for i := 0 to |edges|
      invariant forall n | n in members :: n in nodes && nodes[n] == Lifecycle
      invariant Elements(RequiredLifecycle(edges, action, pre))
               == members + Elements(RequiredLifecycle(edges[i..], action, pre))
    {
      var m := SideMember(edges[i], action, pre);
      assert edges[i..][0] == edges[i] && edges[i..][1..] == edges[i + 1..];
      if m.Some? {
        if m.value !in nodes || nodes[m.value] != Lifecycle {
          assert m.value in Elements(RequiredLifecycle(edges, action, pre));
          return None;
        }
        members := members + {m.value};
      }
    }
    assert Elements(RequiredLifecycle(edges[|edges|..], action, pre)) == {};
    forall n | n in RequiredLifecycle(edges, action, pre)
      ensures n in nodes && nodes[n] == Lifecycle
    {
      assert n in Elements(RequiredLifecycle(edges, action, pre));
    }
    return Some(members);
  }

  /** Each arc is entered once, however many edges there are for it. */
  method CollectArcs(members: set<NodeId>, edges: seq<Edge>) returns (arcs: Arcs, indegree: Degrees)
    ensures ArcsRight(arcs, members, edges) && DegreesRight(arcs, {}, indegree)
  {
    hide DegreesRight, Requires;
    NoArcs(members);
    arcs := map m | m in members :: {};
    indegree := map m | m in members :: 0;
    assert edges[..0] == [];
    for i := 0 to |edges|
      invariant ArcsRight(arcs, members, edges[..i]) && DegreesRight(arcs, {}, indegree) && indegree.Keys == members
    {
      var e := edges[i];
      ArcsExtend(arcs, members, edges, i);
      if e.kind == Requirement && e.before in members && e.after in members {
        if e.after !in arcs[e.before] {
          var next: Arcs := arcs[e.before := arcs[e.before] + {e.after}];
          var degrees: Degrees := indegree[e.after := indegree[e.after] + 1];
          ArcAdded(arcs, next, indegree, degrees, e.before, e.after);
          arcs, indegree := next, degrees;
        }
      }
    }
    assert edges[..|edges|] == edges;
  }

  lemma NoArcs(members: set<NodeId>)
    ensures var arcs: Arcs := map m | m in members :: {};
            ArcsRight(arcs, members, []) && DegreesRight(arcs, {}, map m | m in members :: 0)
  {
    var arcs: Arcs := map m | m in members :: {};
    forall m | m in members
      ensures Preds(arcs, m) - {} == {}
    {}
  }

  lemma ArcsExtend(arcs: Arcs, members: set<NodeId>, edges: seq<Edge>, i: nat)
    requires i < |edges| && ArcsRight(arcs, members, edges[..i])
    ensures var e := edges[i];
            if e.kind == Requirement && e.before in members && e.after in members then
              ArcsRight(arcs[e.before := arcs[e.before] + {e.after}], members, edges[..i + 1])
              && (e.after in arcs[e.before] ==> ArcsRight(arcs, members, edges[..i + 1]))
            else ArcsRight(arcs, members, edges[..i + 1])
  {
    RequiresOneMore(edges, i);
    hide Requires;
  }

  lemma RequiresOneMore(edges: seq<Edge>, i: nat)
    requires i < |edges|
    ensures forall p, m :: Requires(edges[..i + 1], p, m)
              <==> Requires(edges[..i], p, m) || (edges[i].kind == Requirement
                                                  && edges[i].before == p && edges[i].after == m)
  {
    forall p, m
      ensures Requires(edges[..i + 1], p, m)
              <==> Requires(edges[..i], p, m) || (edges[i].kind == Requirement
                                                  && edges[i].before == p && edges[i].after == m)
    {
      if Requires(edges[..i], p, m) {
        var k :| 0 <= k < |edges[..i]| && edges[..i][k].kind == Requirement && edges[..i][k].before == p
            && edges[..i][k].after == m;
        assert edges[..i + 1][k] == edges[..i][k];
      }
      if Requires(edges[..i + 1], p, m) {
        var k :| 0 <= k < |edges[..i + 1]| && edges[..i + 1][k].kind == Requirement && edges[..i + 1][k].before == p
                 && edges[..i + 1][k].after == m;
        assert k < i ==> edges[..i][k] == edges[..i + 1][k];
      }
      assert edges[..i + 1][i] == edges[i];
    }
  }

  lemma ArcAdded(arcs: Arcs, next: Arcs, indegree: Degrees, degrees: Degrees, p: NodeId, m: NodeId)
    requires DegreesRight(arcs, {}, indegree) && p in arcs && m in arcs && m !in arcs[p]
    requires next == arcs[p := arcs[p] + {m}] && degrees == indegree[m := indegree[m] + 1]
    ensures DegreesRight(next, {}, degrees)
  {
    hide Preds;
    assert next.Keys == arcs.Keys && degrees.Keys == indegree.Keys;
    forall n | n in next
      ensures degrees[n] == |Preds(next, n) - {}|
    {
      ArcAddedAt(arcs, next, p, m, n);
      OneMorePred(Preds(arcs, n), Preds(next, n), p, n == m);
    }
  }

  lemma ArcAddedAt(arcs: Arcs, next: Arcs, p: NodeId, m: NodeId, n: NodeId)
    requires p in arcs && m !in arcs[p] && next == arcs[p := arcs[p] + {m}]
    ensures n == m ==> p !in Preds(arcs, n)
    ensures forall q: NodeId :: q in Preds(next, n) <==> q in Preds(arcs, n) || (n == m && q == p)
  {}

  lemma OneMorePred(a: set<NodeId>, b: set<NodeId>, p: NodeId, added: bool)
    requires p !in a || !added
    requires forall q: NodeId :: q in b <==> q in a || (added && q == p)
    ensures |b - {}| == |a - {}| + (if added then 1 else 0)
  {
    assert a - {} == a && b - {} == b && b == if added then a + {p} else a;
  }

  // ---------------------------------------------------------------- the side of an action

  /** The placed nodes are closed under predecessors, so that the order so far can only grow. */
  lemma PlacedGrows(arcs: Arcs, order: seq<NodeId>, current: NodeId)
    requires Greedy(arcs, order) && Eligible(arcs, Elements(order), current)
    requires forall m | m in arcs && Eligible(arcs, Elements(order), m) :: current <= m
    ensures Greedy(arcs, order + [current]) && Elements(order + [current]) == Elements(order) + {current}
  {
    var longer := order + [current];
    forall j | 0 <= j < |longer|
      ensures GreedyAt(arcs, longer, j)
    {
      if j < |order| {
        assert longer[..j] == order[..j];
        assert GreedyAt(arcs, order, j);
      } else {
        assert longer[..j] == order;
      }
    }
  }

  lemma PlacedIsClosed(arcs: Arcs, order: seq<NodeId>)
    requires Greedy(arcs, order)
    ensures DownClosed(arcs, Elements(order))
  {
    forall m, p | m in Elements(order) && p in Preds(arcs, m)
      ensures p in Elements(order)
    {
      var j :| 0 <= j < |order| && order[j] == m;
      assert GreedyAt(arcs, order, j);
      var k :| 0 <= k < j && order[..j][k] == p;
      assert order[k] == p;
    }
  }

  /** Kahn's algorithm with an ordered set of ready nodes. */
  method OrderMembers(arcs: Arcs, indegree: Degrees) returns (order: seq<NodeId>)
    requires Closed(arcs) && DegreesRight(arcs, {}, indegree)
    ensures Greedy(arcs, order) && Elements(order) <= arcs.Keys
    ensures forall m | m in arcs :: !Eligible(arcs, Elements(order), m)
  {
    var degrees := indegree;
    var ready := set m | m in indegree && indegree[m] == 0;
    order := [];
    assert Elements<NodeId>([]) == {};
    forall m | m in arcs
      ensures m in ready <==> Eligible(arcs, {}, m)
    {
      EligibleByDegree(arcs, {}, indegree, m);
    }
    while ready != {}
      invariant Greedy(arcs, order) && Elements(order) <= arcs.Keys
      invariant DegreesRight(arcs, Elements(order), degrees) && ReadyRight(arcs, Elements(order), ready)
      decreases |arcs.Keys - Elements(order)|
    {
      var current := LeastOf(ready);
      PlacedIsClosed(arcs, order);
      PlacedGrows(arcs, order, current);
      RestShrinks(arcs.Keys, Elements(order), current);
      degrees, ready := ReleaseSuccessors(arcs, Elements(order), current, degrees, ready);
      order := order + [current];
    }
  }

  lemma RestShrinks(all: set<NodeId>, placed: set<NodeId>, current: NodeId)
    requires current in all && current !in placed
    ensures |all - (placed + {current})| < |all - placed|
  {
    assert all - (placed + {current}) == (all - placed) - {current};
  }

  lemma UnplacedIsStuck(arcs: Arcs, placed: set<NodeId>)
    requires placed <= arcs.Keys && placed != arcs.Keys && forall m | m in arcs :: !Eligible(arcs, placed, m)
    ensures Cyclic(arcs)
  {
    var rest := arcs.Keys - placed;
    var left: NodeId :| left in arcs.Keys && left !in placed;
    assert left in rest;
    forall m | m in rest
      ensures HasPred(arcs, rest, m)
    {
      assert !Eligible(arcs, placed, m);
      var p :| p in Preds(arcs, m) && p !in placed;
      assert Arc(arcs, p, m);
    }
    StuckIsCyclic(arcs, rest);
  }

  lemma NotBoth(arcs: Arcs, order: seq<NodeId>)
    requires Closed(arcs) && Topological(arcs, order)
    ensures !Cyclic(arcs)
  {
    if path: seq<NodeId> :| Cycle(arcs, path) {
      OrderedIsAcyclic(arcs, order, path);
    }
  }

  /** The arcs that the program gives to one side of an action. */
  predicate SideArcs(edges: seq<Edge>, action: NodeId, pre: bool, arcs: Arcs) {
    ArcsRight(arcs, Elements(RequiredLifecycle(edges, action, pre)), edges)
  }

  predicate SideIsLifecycle(nodes: map<NodeId, Action>, edges: seq<Edge>, action: NodeId, pre: bool) {
    forall n | n in RequiredLifecycle(edges, action, pre) :: n in nodes && nodes[n] == Lifecycle
  }

  /** The order of one side, unless an edge names another kind of node or the requirements are cyclic. */
  method LifecycleSide(nodes: map<NodeId, Action>, edges: seq<Edge>, action: NodeId, pre: bool)
    returns (r: Result<seq<NodeId>, OrderFault>, ghost arcs: Arcs)
    ensures r == Failure(NotLifecycleNode) <==> !SideIsLifecycle(nodes, edges, action, pre)
    ensures SideIsLifecycle(nodes, edges, action, pre) ==>
              && SideArcs(edges, action, pre, arcs) && (r == Failure(CyclicRequirements) <==> Cyclic(arcs))
    ensures r.Success? ==>
              Topological(arcs, r.value)
              && forall other: seq<NodeId> | Topological(arcs, other) :: LexAtMost(r.value, other)
  {
    arcs := map[];
    var members := CollectMembers(nodes, edges, action, pre);
    if members.None? {
      return Failure(NotLifecycleNode), arcs;
    }
    var outgoing, indegree := CollectArcs(members.value, edges);
    arcs := outgoing;
    var order := OrderMembers(outgoing, indegree);
    GreedyHasDistinct(outgoing, order);
    DistinctCount(order);
    if |order| != |members.value| {
      UnplacedIsStuck(outgoing, Elements(order));
      return Failure(CyclicRequirements), arcs;
    }
    SameCount(Elements(order), members.value);
    GreedyIsTopological(outgoing, order);
    NotBoth(outgoing, order);
    forall other: seq<NodeId> | Topological(outgoing, other)
      ensures LexAtMost(order, other)
    {
      GreedyIsLeast(outgoing, order, other);
    }
    return Success(order), arcs;
  }

  // ---------------------------------------------------------------- what the effect request accepts

  /** The request accepts two orders that are permutations of the phase nodes, edge for edge. */
  predicate OrderAccepted(edges: seq<Edge>, action: NodeId, before: seq<NodeId>, after: seq<NodeId>) {
    && multiset(before) == multiset(RequiredLifecycle(edges, action, true))
    && multiset(after) == multiset(RequiredLifecycle(edges, action, false))
  }

  /** An order of one side is accepted exactly when no phase edge of the side is duplicated. */
  lemma SideIsAcceptedIff(edges: seq<Edge>, action: NodeId, pre: bool, arcs: Arcs, order: seq<NodeId>)
    requires SideArcs(edges, action, pre, arcs) && Topological(arcs, order)
    ensures multiset(order) == multiset(RequiredLifecycle(edges, action, pre))
            <==> Distinct(RequiredLifecycle(edges, action, pre))
  {
    SameElementsPermute(order, RequiredLifecycle(edges, action, pre));
  }

  /** A witness: with one phase edge stated twice the only order there is gets refused. */
  lemma DuplicatedEdgeIsRefused(action: NodeId, member: NodeId)
    requires action != member
    ensures var e := Edge(PreLifecycleBeforeAction, member, action);
            && SideArcs([e, e], action, true, map[member := {}]) && Topological(map[member := {}], [member])
            && multiset([member]) != multiset(RequiredLifecycle([e, e], action, true))
  {
    var e := Edge(PreLifecycleBeforeAction, member, action);
    assert [e, e][1..] == [e] && [e][1..] == [];
    assert RequiredLifecycle([e], action, true) == [member];
    assert RequiredLifecycle([e, e], action, true) == [member, member];
    assert multiset([member, member])[member] == 2;
  }

  /** Accepted orders list the unit of the action, and bind the request to it unless they list the action itself. */
  lemma AcceptedOrderBindsUnit(edges: seq<Edge>, action: NodeId, before: seq<NodeId>, after: seq<NodeId>)
    requires OrderAccepted(edges, action, before, after)
    ensures UnitMembers(edges, action) == {action} + Elements(before) + Elements(after)
    ensures Dispatch.LifecycleBound(Unit(OperationUnit, action, UnitMembers(edges, action)), before, after)
            <==> action !in before && action !in after
  {
    PermutationHasSameElements(before, RequiredLifecycle(edges, action, true));
    PermutationHasSameElements(after, RequiredLifecycle(edges, action, false));
    forall n: NodeId
      ensures n in UnitMembers(edges, action) <==> n == action || n in Elements(before) || n in Elements(after)
    {
      RequiredIsMember(edges, action, true, n);
      RequiredIsMember(edges, action, false, n);
    }
  }
}
