/**
  The sweeps of `derive_statuses`, proved to compute the status by definition on every
  graph, cyclic or not, and in whatever order the units come.
 */
module ProgressionSweeps {
  import opened Wrappers
  import opened Progression
  import opened Sequences

  type State = map<NodeId, Status>

  function SeedState(g: Graph, evidence: map<NodeId, Evidence>): State {
    map n | n in g.nodes :: Seed(g, evidence, n)
  }

  // ---------------------------------------------------------------- units are disjoint

  lemma OneUnitHolds(units: seq<Unit>, i: nat, j: nat, n: NodeId)
    requires DisjointUnits(units) && i < |units| && j < |units|
    requires n in units[i].members && n in units[j].members
    ensures i == j
  {}

  lemma RightUnit(g: Graph, u: Unit)
    requires WellFormed(g) && u in g.units
    ensures UnitRight(g, u)
  {
    hide UnitRight, DisjointUnits, Covers;
    var i :| 0 <= i < |g.units| && g.units[i] == u;
    assert UnitRight(g, g.units[i]);
  }

  lemma MemberIsNode(g: Graph, u: Unit, n: NodeId)
    requires UnitRight(g, u) && n in u.members
    ensures n in g.nodes && g.nodes[n] != Retain
  {
    hide UnitMembers;
  }

  lemma UnitIsFound(g: Graph, u: Unit, n: NodeId)
    requires WellFormed(g) && u in g.units && n in u.members
    ensures n in g.nodes && g.nodes[n] != Retain && FindUnit(g.units, n) == Some(u)
  {
    RightUnit(g, u);
    MemberIsNode(g, u, n);
    hide UnitRight, EdgesInside, FindUnit;
    assert Covers(g.units, n);
    var i :| 0 <= i < |g.units| && g.units[i] == u;
    var v := FindUnit(g.units, n).value;
    var j :| 0 <= j < |g.units| && g.units[j] == v;
    OneUnitHolds(g.units, i, j, n);
  }

  lemma PrimaryInside(g: Graph, u: Unit)
    requires WellFormed(g) && u in g.units
    ensures u.primary in u.members
  {
    var i :| 0 <= i < |g.units| && g.units[i] == u;
    assert UnitRight(g, g.units[i]);
  }

  predicate InOpenUnit(g: Graph, evidence: map<NodeId, Evidence>, n: NodeId) {
    FindUnit(g.units, n).Some? && Open(evidence, FindUnit(g.units, n).value)
  }

  // ---------------------------------------------------------------- one visit of a unit

  predicate PredecessorPoisoned(g: Graph, state: State, u: Unit)
    requires EdgesInside(g) && state.Keys == g.nodes.Keys
  {
    exists i | 0 <= i < |g.edges| :: External(u, g.edges[i]) && Poison(state[g.edges[i].before])
  }

  predicate PredecessorsSatisfied(g: Graph, state: State, u: Unit)
    requires EdgesInside(g) && state.Keys == g.nodes.Keys
  {
    forall i | 0 <= i < |g.edges| && External(u, g.edges[i]) :: state[g.edges[i].before] == Satisfied
  }

  function Derived(g: Graph, state: State, u: Unit): Status
    requires EdgesInside(g) && state.Keys == g.nodes.Keys
  {
    if PredecessorPoisoned(g, state, u) then Blocked
    else if PredecessorsSatisfied(g, state, u) then Ready
    else Pending
  }

  /** The edge scan of one unit. */
  method DeriveUnit(g: Graph, state: State, u: Unit) returns (derived: Status)
    requires EdgesInside(g) && state.Keys == g.nodes.Keys
    ensures derived == Derived(g, state, u)
  {
    var allSatisfied, dependencyFailed := true, false;
    for i := 0 to |g.edges|
      invariant dependencyFailed <==>
                exists k | 0 <= k < i :: External(u, g.edges[k]) && Poison(state[g.edges[k].before])
      invariant allSatisfied <==>
                forall k | 0 <= k < i && External(u, g.edges[k]) :: state[g.edges[k].before] == Satisfied
    {
      if g.edges[i].after in u.members && g.edges[i].before !in u.members {
        var predecessor := state[g.edges[i].before];
        if predecessor == Failed || predecessor == Blocked {
          dependencyFailed := true;
        }
        if predecessor != Satisfied {
          allSatisfied := false;
        }
      }
    }
    derived := if dependencyFailed then Blocked else if allSatisfied then Ready else Pending;
  }

  function Assigned(state: State, members: set<NodeId>, status: Status): State {
    map n | n in state :: if n in members then status else state[n]
  }

  // ---------------------------------------------------------------- the invariant of the sweeps

  predicate Justified(g: Graph, evidence: map<NodeId, Evidence>, state: State, u: Unit)
    requires EdgesInside(g) && state.Keys == g.nodes.Keys && u.primary in g.nodes
  {
    match state[u.primary]
    case Pending => true
    case Ready => AllSatisfied(g, evidence, u)
    case Blocked => PredecessorPoisoned(g, state, u)
    case _ => false
  }

  ghost predicate Sweeping(g: Graph, evidence: map<NodeId, Evidence>, state: State)
    requires WellFormed(g)
  {
    && state.Keys == g.nodes.Keys
    && (forall n | n in g.nodes && !InOpenUnit(g, evidence, n) :: state[n] == Seed(g, evidence, n))
    && (forall u | u in g.units && Open(evidence, u) ::
          && u.primary in g.nodes && Justified(g, evidence, state, u)
          && (state[u.primary] == Blocked ==> Poisoned(g, evidence, u))
          && forall n | n in u.members :: n in g.nodes && state[n] == state[u.primary])
  }

  lemma SeedIsSweeping(g: Graph, evidence: map<NodeId, Evidence>)
    requires WellFormed(g)
    ensures SeedState(g, evidence).Keys == g.nodes.Keys && Sweeping(g, evidence, SeedState(g, evidence))
  {
    forall u | u in g.units && Open(evidence, u)
      ensures u.primary in g.nodes
      ensures forall n | n in u.members :: n in g.nodes && Seed(g, evidence, n) == Pending
      ensures Seed(g, evidence, u.primary) == Pending
    {
      PrimaryInside(g, u);
      forall n | n in u.members
        ensures n in g.nodes && Seed(g, evidence, n) == Pending
      {
        UnitIsFound(g, u, n);
      }
    }
  }

  /** A satisfied predecessor is satisfied by evidence, and stays so. */
  lemma SatisfiedBySeed(g: Graph, evidence: map<NodeId, Evidence>, state: State, u: Unit)
    requires WellFormed(g) && Sweeping(g, evidence, state)
    ensures PredecessorsSatisfied(g, state, u) <==> AllSatisfied(g, evidence, u)
  {
    forall i | 0 <= i < |g.edges|
      ensures state[g.edges[i].before] == Satisfied <==> Seed(g, evidence, g.edges[i].before) == Satisfied
    {
      NodeUnderSweep(g, evidence, state, g.edges[i].before);
    }
  }

  lemma NodeUnderSweep(g: Graph, evidence: map<NodeId, Evidence>, state: State, n: NodeId)
    requires WellFormed(g) && Sweeping(g, evidence, state) && n in g.nodes
    ensures InOpenUnit(g, evidence, n) ==>
              && Seed(g, evidence, n) == Pending
              && (state[n] == Pending || state[n] == Ready || state[n] == Blocked)
              && state[n] == state[FindUnit(g.units, n).value.primary]
    ensures !InOpenUnit(g, evidence, n) ==> state[n] == Seed(g, evidence, n)
  {
    if InOpenUnit(g, evidence, n) {
      var u := FindUnit(g.units, n).value;
      UnitIsFound(g, u, n);
      PrimaryInside(g, u);
      assert Justified(g, evidence, state, u);
    }
  }

  lemma ChainExtends(g: Graph, evidence: map<NodeId, Evidence>, v: Unit, u: Unit)
    requires EdgesInside(g) && Poisoned(g, evidence, v) && Reaches(g, v, u)
    requires u in g.units && Open(evidence, u)
    ensures Poisoned(g, evidence, u)
  {
    hide PoisonedDirectly, Reaches;
    var chain: seq<Unit> :| PoisonChain(g, evidence, chain) && chain[|chain| - 1] == v;
    var longer := chain + [u];
    assert longer[0] == chain[0];
    forall k | 0 < k < |longer|
      ensures Reaches(g, longer[k - 1], longer[k])
    {
      assert k < |chain| ==> Reaches(g, chain[k - 1], chain[k]);
    }
    assert PoisonChain(g, evidence, longer) && longer[|longer| - 1] == u;
  }

  /** A poisoned predecessor extends a chain, or starts one. */
  lemma PoisonSpreads(g: Graph, evidence: map<NodeId, Evidence>, state: State, u: Unit)
    requires WellFormed(g) && Sweeping(g, evidence, state) && u in g.units && Open(evidence, u)
    requires PredecessorPoisoned(g, state, u)
    ensures Poisoned(g, evidence, u)
  {
    var i :| 0 <= i < |g.edges| && External(u, g.edges[i]) && Poison(state[g.edges[i].before]);
    var n := g.edges[i].before;
    NodeUnderSweep(g, evidence, state, n);
    hide Seed;
    if InOpenUnit(g, evidence, n) {
      var v := FindUnit(g.units, n).value;
      assert Poisoned(g, evidence, v);
      assert Reaches(g, v, u);
      ChainExtends(g, evidence, v, u);
    } else {
      assert PoisonedDirectly(g, evidence, u);
      StartsChain(g, evidence, u);
    }
  }

  lemma StartsChain(g: Graph, evidence: map<NodeId, Evidence>, u: Unit)
    requires EdgesInside(g) && PoisonedDirectly(g, evidence, u) && u in g.units && Open(evidence, u)
    ensures Poisoned(g, evidence, u)
  {
    hide PoisonedDirectly;
    assert PoisonChain(g, evidence, [u]) && [u][|[u]| - 1] == u;
  }

  /** A unit that has left Pending is visited again without effect. */
  lemma SettledUnitStays(g: Graph, evidence: map<NodeId, Evidence>, state: State, u: Unit)
    requires WellFormed(g) && Sweeping(g, evidence, state) && u in g.units && Open(evidence, u)
    ensures u.primary in g.nodes
    ensures state[u.primary] != Pending ==> Derived(g, state, u) == state[u.primary]
  {
    assert Justified(g, evidence, state, u);
    SatisfiedBySeed(g, evidence, state, u);
  }

  lemma UniformUnit(g: Graph, evidence: map<NodeId, Evidence>, state: State, u: Unit)
    requires WellFormed(g) && Sweeping(g, evidence, state) && u in g.units && Open(evidence, u)
    ensures u.primary in g.nodes
    ensures forall n | n in u.members :: n in g.nodes && state[n] == state[u.primary]
  {}

  /** What `Sweeping` says of one open unit. */
  ghost predicate SweptUnit(g: Graph, evidence: map<NodeId, Evidence>, state: State, u: Unit)
    requires EdgesInside(g) && state.Keys == g.nodes.Keys
  {
    && u.primary in g.nodes && Justified(g, evidence, state, u)
    && (state[u.primary] == Blocked ==> Poisoned(g, evidence, u))
    && forall n | n in u.members :: n in g.nodes && state[n] == state[u.primary]
  }

  lemma DerivedIsJustified(g: Graph, evidence: map<NodeId, Evidence>, state: State, next: State, u: Unit)
    requires EdgesInside(g) && state.Keys == g.nodes.Keys == next.Keys && u.primary in g.nodes
    requires PredecessorsSatisfied(g, state, u) <==> AllSatisfied(g, evidence, u)
    requires PredecessorPoisoned(g, state, u) ==> PredecessorPoisoned(g, next, u)
    requires next[u.primary] == Derived(g, state, u)
    ensures Justified(g, evidence, next, u)
  {
    hide PredecessorPoisoned, PredecessorsSatisfied, AllSatisfied, EdgesInside;
  }

  lemma VisitIsUniform(g: Graph, state: State, next: State, u: Unit, status: Status)
    requires u.primary in u.members && (forall n | n in u.members :: n in g.nodes) && state.Keys == g.nodes.Keys
    requires next == Assigned(state, u.members, status)
    ensures next.Keys == g.nodes.Keys && u.primary in g.nodes && next[u.primary] == status
    ensures forall n | n in u.members :: n in g.nodes && next[n] == next[u.primary]
  {}

  lemma VisitKeepsPoison(g: Graph, evidence: map<NodeId, Evidence>, state: State, next: State, u: Unit, status: Status)
    requires WellFormed(g) && Sweeping(g, evidence, state) && u in g.units && Open(evidence, u)
    requires u.primary in g.nodes && state[u.primary] == Pending && next == Assigned(state, u.members, status)
    ensures PredecessorPoisoned(g, state, u) ==> PredecessorPoisoned(g, next, u)
  {
    UniformUnit(g, evidence, state, u);
    hide WellFormed, Sweeping;
    PoisonPersists(g, state, next, u, u);
  }

  lemma VisitedUnitIsSwept(g: Graph, evidence: map<NodeId, Evidence>, state: State, next: State, u: Unit)
    requires WellFormed(g) && Sweeping(g, evidence, state) && u in g.units && Open(evidence, u)
    requires u.primary in g.nodes && state[u.primary] == Pending && Derived(g, state, u) != Pending
    requires next == Assigned(state, u.members, Derived(g, state, u))
    ensures SweptUnit(g, evidence, next, u)
  {
    assert state.Keys == g.nodes.Keys && EdgesInside(g);
    assert Derived(g, state, u) == Blocked ==> PredecessorPoisoned(g, state, u);
    hide WellFormed, EdgesInside, Derived, Open, Sweeping, Poisoned, AllSatisfied, PredecessorPoisoned,
      PredecessorsSatisfied,
         Justified, Assigned;
    SatisfiedBySeed(g, evidence, state, u);
    PrimaryInside(g, u);
    UniformUnit(g, evidence, state, u);
    VisitIsUniform(g, state, next, u, Derived(g, state, u));
    VisitKeepsPoison(g, evidence, state, next, u, Derived(g, state, u));
    DerivedIsJustified(g, evidence, state, next, u);
    if Derived(g, state, u) == Blocked {
      PoisonSpreads(g, evidence, state, u);
    }
  }

  lemma OtherUnitStaysSwept(g: Graph, evidence: map<NodeId, Evidence>, state: State, next: State, u: Unit, v: Unit)
    requires WellFormed(g) && Sweeping(g, evidence, state) && u in g.units && Open(evidence, u) && v in g.units
    requires Open(evidence, v)
    requires u != v && u.primary in g.nodes && state[u.primary] == Pending && next.Keys == state.Keys
    requires forall n | n in state && n !in u.members :: next[n] == state[n]
    ensures SweptUnit(g, evidence, next, v)
  {
    hide Poisoned, AllSatisfied, PredecessorPoisoned, UnitRight, Covers, DisjointUnits;
    PrimaryInside(g, v);
    UniformUnit(g, evidence, state, u);
    UniformUnit(g, evidence, state, v);
    PoisonPersists(g, state, next, u, v);
    assert Justified(g, evidence, state, v) && (state[v.primary] == Blocked ==> Poisoned(g, evidence, v));
    forall n | n in v.members
      ensures n !in u.members
    {
      UnitIsFound(g, v, n);
      if n in u.members {
        UnitIsFound(g, u, n);
      }
    }
  }

  lemma VisitLeavesDecided(g: Graph, evidence: map<NodeId, Evidence>, u: Unit, n: NodeId)
    requires WellFormed(g) && u in g.units && Open(evidence, u) && !InOpenUnit(g, evidence, n)
    ensures n !in u.members
  {
    hide WellFormed;
    if n in u.members {
      UnitIsFound(g, u, n);
    }
  }

  lemma SweptIsSweeping(g: Graph, evidence: map<NodeId, Evidence>, state: State)
    requires WellFormed(g) && state.Keys == g.nodes.Keys
    requires forall n | n in g.nodes && !InOpenUnit(g, evidence, n) :: state[n] == Seed(g, evidence, n)
    requires forall u | u in g.units && Open(evidence, u) :: SweptUnit(g, evidence, state, u)
    ensures Sweeping(g, evidence, state)
  {
    hide WellFormed, InOpenUnit, Seed, Justified, Poisoned;
  }

  lemma SweepingKeepsSeeds(g: Graph, evidence: map<NodeId, Evidence>, state: State, n: NodeId)
    requires WellFormed(g) && Sweeping(g, evidence, state) && n in g.nodes && !InOpenUnit(g, evidence, n)
    ensures n in state && state[n] == Seed(g, evidence, n)
  {}

  lemma VisitKeepsSweeping(g: Graph, evidence: map<NodeId, Evidence>, state: State, u: Unit)
    requires WellFormed(g) && Sweeping(g, evidence, state) && u in g.units && Open(evidence, u)
    requires u.primary in g.nodes && state[u.primary] == Pending && Derived(g, state, u) != Pending
    ensures Sweeping(g, evidence, Assigned(state, u.members, Derived(g, state, u)))
  {
    var next := Assigned(state, u.members, Derived(g, state, u));
    assert state.Keys == g.nodes.Keys;
    hide WellFormed, Sweeping, Derived, Seed, InOpenUnit, SweptUnit, Open;
    forall n | n in g.nodes && !InOpenUnit(g, evidence, n)
      ensures next[n] == Seed(g, evidence, n)
    {
      VisitLeavesDecided(g, evidence, u, n);
      SweepingKeepsSeeds(g, evidence, state, n);
    }
    forall v | v in g.units && Open(evidence, v)
      ensures SweptUnit(g, evidence, next, v)
    {
      if u == v {
        VisitedUnitIsSwept(g, evidence, state, next, u);
      } else {
        OtherUnitStaysSwept(g, evidence, state, next, u, v);
      }
    }
    SweptIsSweeping(g, evidence, next);
  }

  /** Assigning a pending unit takes no poison away from anyone. */
  lemma PoisonPersists(g: Graph, state: State, next: State, u: Unit, v: Unit)
    requires WellFormed(g) && state.Keys == g.nodes.Keys == next.Keys
    requires forall n | n in g.nodes :: n !in u.members ==> next[n] == state[n]
    requires forall n | n in u.members && n in g.nodes :: state[n] == Pending || next[n] == state[n]
    ensures PredecessorPoisoned(g, state, v) ==> PredecessorPoisoned(g, next, v)
  {}

  // ---------------------------------------------------------------- the sweeps

  function PendingNodes(state: State): set<NodeId> {
    set n | n in state && state[n] == Pending
  }

  ghost predicate Stable(g: Graph, evidence: map<NodeId, Evidence>, state: State, units: seq<Unit>)
    requires WellFormed(g) && state.Keys == g.nodes.Keys
  {
    forall u | u in units && Open(evidence, u) ::
      u.primary in g.nodes && Derived(g, state, u) == state[u.primary]
  }

  /** Only the units without evidence are neither satisfied nor failed. */
  lemma VisitedUnitsAreOpen(g: Graph, evidence: map<NodeId, Evidence>, state: State, u: Unit)
    requires WellFormed(g) && Sweeping(g, evidence, state) && u in g.units
    ensures u.primary in g.nodes
    ensures Open(evidence, u) <==> state[u.primary] != Satisfied && state[u.primary] != Failed
  {
    PrimaryInside(g, u);
    UnitIsFound(g, u, u.primary);
    NodeUnderSweep(g, evidence, state, u.primary);
  }

  /** One visit: skip a unit that evidence decided, otherwise write what the edges say. */
  method VisitUnit(g: Graph, ghost evidence: map<NodeId, Evidence>, state: State, u: Unit)
    returns (next: State, changed: bool)
    requires WellFormed(g) && Sweeping(g, evidence, state) && u in g.units
    ensures Sweeping(g, evidence, next)
    ensures changed ==> |PendingNodes(next)| < |PendingNodes(state)|
    ensures !changed ==> next == state && Stable(g, evidence, state, [u])
  {
    VisitedUnitsAreOpen(g, evidence, state, u);
    next, changed := state, false;
    if state[u.primary] != Satisfied && state[u.primary] != Failed {
      var derived := DeriveUnit(g, state, u);
      PrimaryInside(g, u);
      UniformUnit(g, evidence, state, u);
      SettledUnitStays(g, evidence, state, u);
      hide Sweeping, Derived, WellFormed, Open;
      if exists n | n in u.members :: state[n] != derived {
        VisitKeepsSweeping(g, evidence, state, u);
        PendingShrinks(state, u.members, derived, u.primary);
        next, changed := Assigned(state, u.members, derived), true;
      }
    }
  }

  lemma NothingIsStable(g: Graph, evidence: map<NodeId, Evidence>, state: State)
    requires WellFormed(g) && Sweeping(g, evidence, state)
    ensures state.Keys == g.nodes.Keys && Stable(g, evidence, state, g.units[..0])
  {}

  lemma StabilityExtends(g: Graph, evidence: map<NodeId, Evidence>, state: State, units: seq<Unit>, u: Unit)
    requires WellFormed(g) && Sweeping(g, evidence, state)
    requires Stable(g, evidence, state, units) && Stable(g, evidence, state, [u])
    ensures Stable(g, evidence, state, units + [u])
  {
    assert u in [u];
  }

  /** One sweep over the units. */
  method Sweep(g: Graph, ghost evidence: map<NodeId, Evidence>, state: State) returns (next: State, changed: bool)
    requires WellFormed(g) && Sweeping(g, evidence, state)
    ensures Sweeping(g, evidence, next) && next.Keys == g.nodes.Keys
    ensures changed ==> |PendingNodes(next)| < |PendingNodes(state)|
    ensures !changed ==> next == state && Stable(g, evidence, next, g.units)
  {
    hide WellFormed, Sweeping, Stable, PendingNodes;
    next, changed := state, false;
    NothingIsStable(g, evidence, state);
    for i := 0 to |g.units|
      invariant Sweeping(g, evidence, next) && next.Keys == g.nodes.Keys
      invariant !changed ==> next == state && Stable(g, evidence, next, g.units[..i])
      invariant changed ==> |PendingNodes(next)| < |PendingNodes(state)|
    {
      var moved;
      next, moved := VisitUnit(g, evidence, next, g.units[i]);
      changed := changed || moved;
      NothingIsStable(g, evidence, next);
      if !changed {
        StabilityExtends(g, evidence, next, g.units[..i], g.units[i]);
      }
      assert g.units[..i + 1] == g.units[..i] + [g.units[i]];
    }
    assert g.units[..|g.units|] == g.units;
  }

  /** Sweep until nothing changes. */
  method DeriveStatuses(g: Graph, evidence: map<NodeId, Evidence>) returns (state: State)
    requires WellFormed(g)
    ensures state.Keys == g.nodes.Keys
    ensures forall n | n in g.nodes :: state[n] == NodeStatus(g, evidence, n)
  {
    state := SeedState(g, evidence);
    SeedIsSweeping(g, evidence);
    hide WellFormed, Sweeping, Stable, PendingNodes, SeedState, NodeStatus;
    var changed := true;
    while changed
      invariant Sweeping(g, evidence, state) && state.Keys == g.nodes.Keys
      invariant !changed ==> Stable(g, evidence, state, g.units)
      decreases |PendingNodes(state)|, changed
    {
      state, changed := Sweep(g, evidence, state);
    }
    StableIsEveryStatus(g, evidence, state);
  }

  lemma PendingShrinks(state: State, members: set<NodeId>, derived: Status, primary: NodeId)
    requires derived != Pending && primary in members && primary in state && state[primary] == Pending
    ensures |PendingNodes(Assigned(state, members, derived))| < |PendingNodes(state)|
  {
    var before, after := PendingNodes(state), PendingNodes(Assigned(state, members, derived));
    assert after <= before - {primary};
    SubsetCount(after, before - {primary});
  }

  // ---------------------------------------------------------------- what a stable state is

  lemma DirectIsBlocked(g: Graph, evidence: map<NodeId, Evidence>, state: State, u: Unit)
    requires WellFormed(g) && Sweeping(g, evidence, state) && PoisonedDirectly(g, evidence, u)
    ensures Derived(g, state, u) == Blocked
  {
    var i :| 0 <= i < |g.edges| && External(u, g.edges[i]) && Poison(Seed(g, evidence, g.edges[i].before));
    NodeUnderSweep(g, evidence, state, g.edges[i].before);
    assert PredecessorPoisoned(g, state, u);
  }

  lemma ReachedIsBlocked(g: Graph, evidence: map<NodeId, Evidence>, state: State, v: Unit, u: Unit)
    requires WellFormed(g) && Sweeping(g, evidence, state) && v in g.units && Open(evidence, v)
    requires v.primary in g.nodes && state[v.primary] == Blocked && Reaches(g, v, u)
    ensures Derived(g, state, u) == Blocked
  {
    var i :| 0 <= i < |g.edges| && External(u, g.edges[i]) && g.edges[i].before in v.members;
    assert state[g.edges[i].before] == state[v.primary];
    assert PredecessorPoisoned(g, state, u);
  }

  /** Along a chain everything is blocked. */
  lemma {:induction false} ChainIsBlocked(g: Graph, evidence: map<NodeId, Evidence>, state: State, chain: seq<Unit>)
    requires WellFormed(g) && Sweeping(g, evidence, state) && Stable(g, evidence, state, g.units)
    requires PoisonChain(g, evidence, chain)
    ensures chain[|chain| - 1].primary in g.nodes && state[chain[|chain| - 1].primary] == Blocked
    decreases |chain|
  {
    hide WellFormed, Sweeping, PoisonedDirectly, Reaches, Derived;
    var last := |chain| - 1;
    var u := chain[last];
    assert u in g.units && Open(evidence, u);
    if last == 0 {
      DirectIsBlocked(g, evidence, state, u);
    } else {
      var shorter := chain[..last];
      assert shorter[0] == chain[0] && shorter[last - 1] == chain[last - 1];
      ChainIsBlocked(g, evidence, state, shorter);
      ReachedIsBlocked(g, evidence, state, chain[last - 1], u);
    }
  }

  lemma StableIsStatus(g: Graph, evidence: map<NodeId, Evidence>, state: State, n: NodeId)
    requires WellFormed(g) && Sweeping(g, evidence, state) && Stable(g, evidence, state, g.units) && n in g.nodes
    ensures state[n] == NodeStatus(g, evidence, n)
  {
    NodeUnderSweep(g, evidence, state, n);
    if InOpenUnit(g, evidence, n) {
      var u := FindUnit(g.units, n).value;
      UnitIsFound(g, u, n);
      SatisfiedBySeed(g, evidence, state, u);
      if Poisoned(g, evidence, u) {
        var chain: seq<Unit> :| PoisonChain(g, evidence, chain) && chain[|chain| - 1] == u;
        ChainIsBlocked(g, evidence, state, chain);
      } else if PredecessorPoisoned(g, state, u) {
        PoisonSpreads(g, evidence, state, u);
      }
    }
  }

  lemma StableIsEveryStatus(g: Graph, evidence: map<NodeId, Evidence>, state: State)
    requires WellFormed(g) && Sweeping(g, evidence, state) && Stable(g, evidence, state, g.units)
    ensures forall n | n in g.nodes :: state[n] == NodeStatus(g, evidence, n)
  {
    forall n | n in g.nodes
      ensures state[n] == NodeStatus(g, evidence, n)
    {
      StableIsStatus(g, evidence, state, n);
    }
  }

  /** A program determines the set of its units. */
  lemma ProgramDeterminesUnits(g: Graph, h: Graph, u: Unit)
    requires WellFormed(g) && WellFormed(h) && g.nodes == h.nodes && g.edges == h.edges && u in g.units
    ensures u in h.units
  {
    RightUnit(g, u);
    PrimaryIsMember(g, u);
    MemberIsNode(g, u, u.primary);
    assert Covers(h.units, u.primary);
    var j :| 0 <= j < |h.units| && u.primary in h.units[j].members;
    RightUnit(h, h.units[j]);
    hide WellFormed;
    OnePrimary(g, h, u, h.units[j]);
  }

  lemma PrimaryIsMember(g: Graph, u: Unit)
    requires UnitRight(g, u)
    ensures u.primary in u.members
  {}

  lemma OnePrimary(g: Graph, h: Graph, u: Unit, v: Unit)
    requires UnitRight(g, u) && UnitRight(h, v) && g.nodes == h.nodes && g.edges == h.edges && u.primary in v.members
    ensures u == v
  {
    hide UnitMembers;
  }

  lemma SameDirectPoison(g: Graph, h: Graph, evidence: map<NodeId, Evidence>, u: Unit)
    requires WellFormed(g) && WellFormed(h) && g.nodes == h.nodes && g.edges == h.edges
    requires PoisonedDirectly(g, evidence, u)
    ensures PoisonedDirectly(h, evidence, u)
  {
    SameSeeds(g, h, evidence);
    hide WellFormed, Seed;
  }

  lemma SameChain(g: Graph, h: Graph, evidence: map<NodeId, Evidence>, chain: seq<Unit>)
    requires WellFormed(g) && WellFormed(h) && g.nodes == h.nodes && g.edges == h.edges
    requires PoisonChain(g, evidence, chain)
    ensures PoisonChain(h, evidence, chain)
  {
    hide WellFormed, PoisonedDirectly, Reaches, Open, EdgesInside;
    SameDirectPoison(g, h, evidence, chain[0]);
    forall i | 0 <= i < |chain|
      ensures chain[i] in h.units
    {
      ProgramDeterminesUnits(g, h, chain[i]);
    }
    forall i | 0 < i < |chain|
      ensures Reaches(h, chain[i - 1], chain[i])
    {
      SameReach(g, h, chain[i - 1], chain[i]);
    }
  }

  lemma SamePoison(g: Graph, h: Graph, evidence: map<NodeId, Evidence>, u: Unit)
    requires WellFormed(g) && WellFormed(h) && g.nodes == h.nodes && g.edges == h.edges
    requires Poisoned(g, evidence, u)
    ensures Poisoned(h, evidence, u)
  {
    assert EdgesInside(g) && EdgesInside(h);
    hide WellFormed, PoisonChain, EdgesInside;
    var chain: seq<Unit> :| PoisonChain(g, evidence, chain) && chain[|chain| - 1] == u;
    SameChain(g, h, evidence, chain);
  }

  lemma SameReach(g: Graph, h: Graph, from: Unit, to: Unit)
    requires g.edges == h.edges && Reaches(g, from, to)
    ensures Reaches(h, from, to)
  {}

  lemma SameFoundUnit(g: Graph, h: Graph, n: NodeId)
    requires WellFormed(g) && WellFormed(h) && g.nodes == h.nodes && g.edges == h.edges
    ensures FindUnit(g.units, n) == FindUnit(h.units, n)
  {
    if FindUnit(g.units, n).Some? {
      ProgramDeterminesUnits(g, h, FindUnit(g.units, n).value);
      UnitIsFound(h, FindUnit(g.units, n).value, n);
    } else if FindUnit(h.units, n).Some? {
      ProgramDeterminesUnits(h, g, FindUnit(h.units, n).value);
      UnitIsFound(g, FindUnit(h.units, n).value, n);
    }
  }

  lemma SameSeeds(g: Graph, h: Graph, evidence: map<NodeId, Evidence>)
    requires WellFormed(g) && WellFormed(h) && g.nodes == h.nodes && g.edges == h.edges
    ensures forall n | n in g.nodes :: Seed(g, evidence, n) == Seed(h, evidence, n)
  {
    forall n | n in g.nodes
      ensures Seed(g, evidence, n) == Seed(h, evidence, n)
    {
      SameFoundUnit(g, h, n);
    }
  }

  lemma SamePoisonEitherWay(g: Graph, h: Graph, evidence: map<NodeId, Evidence>, u: Unit)
    requires WellFormed(g) && WellFormed(h) && g.nodes == h.nodes && g.edges == h.edges
    ensures Poisoned(g, evidence, u) <==> Poisoned(h, evidence, u)
  {
    hide Poisoned;
    if Poisoned(g, evidence, u) {
      SamePoison(g, h, evidence, u);
    }
    if Poisoned(h, evidence, u) {
      SamePoison(h, g, evidence, u);
    }
  }

  lemma SameReadiness(g: Graph, h: Graph, evidence: map<NodeId, Evidence>, u: Unit)
    requires WellFormed(g) && WellFormed(h) && g.nodes == h.nodes && g.edges == h.edges
    ensures AllSatisfied(g, evidence, u) <==> AllSatisfied(h, evidence, u)
  {
    SameSeeds(g, h, evidence);
    hide WellFormed, Seed;
  }

  /** The status does not depend on the order in which the units are listed and swept. */
  lemma StatusIgnoresUnitOrder(g: Graph, h: Graph, evidence: map<NodeId, Evidence>, n: NodeId)
    requires WellFormed(g) && WellFormed(h) && g.nodes == h.nodes && g.edges == h.edges && n in g.nodes
    ensures NodeStatus(g, evidence, n) == NodeStatus(h, evidence, n)
  {
    SameSeeds(g, h, evidence);
    SameFoundUnit(g, h, n);
    hide WellFormed, Poisoned, Seed, AllSatisfied;
    var u := FindUnit(g.units, n);
    if u.Some? {
      SamePoisonEitherWay(g, h, evidence, u.value);
      SameReadiness(g, h, evidence, u.value);
    }
  }

  // ---------------------------------------------------------------- what a ledger reads off the status

  lemma OpenMembersArePending(g: Graph, evidence: map<NodeId, Evidence>, u: Unit, n: NodeId)
    requires WellFormed(g) && u in g.units && Open(evidence, u) && n in u.members
    ensures n in g.nodes && Seed(g, evidence, n) == Pending
  {
    UnitIsFound(g, u, n);
  }

  lemma SatisfiedIsNotReached(g: Graph, evidence: map<NodeId, Evidence>, v: Unit, u: Unit)
    requires WellFormed(g) && v in g.units && Open(evidence, v) && Reaches(g, v, u)
    ensures !AllSatisfied(g, evidence, u)
  {
    var i :| 0 <= i < |g.edges| && External(u, g.edges[i]) && g.edges[i].before in v.members;
    OpenMembersArePending(g, evidence, v, g.edges[i].before);
    hide Seed, WellFormed;
  }

  lemma SatisfiedIsNotPoisoned(g: Graph, evidence: map<NodeId, Evidence>, u: Unit)
    requires WellFormed(g) && AllSatisfied(g, evidence, u)
    ensures !Poisoned(g, evidence, u)
  {
    forall chain: seq<Unit> | PoisonChain(g, evidence, chain)
      ensures chain[|chain| - 1] != u
    {
      ChainEndIsUnsatisfied(g, evidence, chain);
    }
  }

  lemma ChainEndIsUnsatisfied(g: Graph, evidence: map<NodeId, Evidence>, chain: seq<Unit>)
    requires WellFormed(g) && PoisonChain(g, evidence, chain)
    ensures !AllSatisfied(g, evidence, chain[|chain| - 1])
  {
    var last := |chain| - 1;
    if last == 0 {
      var i :| 0 <= i < |g.edges| && External(chain[0], g.edges[i]) && Poison(Seed(g, evidence, g.edges[i].before));
    } else {
      assert Reaches(g, chain[last - 1], chain[last]);
      SatisfiedIsNotReached(g, evidence, chain[last - 1], chain[last]);
    }
  }

  /** A unit is reported ready exactly when it has no evidence and all its external predecessors are satisfied. */
  lemma ReadyExactly(g: Graph, evidence: map<NodeId, Evidence>, u: Unit)
    requires WellFormed(g) && u in g.units
    ensures u.primary in g.nodes && (NodeStatus(g, evidence, u.primary) == Ready <==> IsReady(g, evidence, u))
  {
    PrimaryInside(g, u);
    UnitIsFound(g, u, u.primary);
    if AllSatisfied(g, evidence, u) {
      SatisfiedIsNotPoisoned(g, evidence, u);
    }
    hide WellFormed, Poisoned, AllSatisfied;
  }

  /** The sweeps never make a node satisfied or failed: evidence or retention does. */
  lemma SettledExactly(g: Graph, evidence: map<NodeId, Evidence>, n: NodeId)
    requires WellFormed(g) && n in g.nodes
    ensures NodeStatus(g, evidence, n) == Satisfied <==> Seed(g, evidence, n) == Satisfied
    ensures NodeStatus(g, evidence, n) == Failed <==> Seed(g, evidence, n) == Failed
  {
    var u := FindUnit(g.units, n);
    if g.nodes[n] != Retain && u.Some? && Open(evidence, u.value) {
      OpenMembersArePending(g, evidence, u.value, n);
    }
    hide WellFormed, Poisoned, AllSatisfied, EvidenceStatus;
  }
}
