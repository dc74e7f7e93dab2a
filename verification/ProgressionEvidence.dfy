/**
  The statuses that evidence gives before any sweep, written node by node as the original does, and
  the units that a program has.
 */
module ProgressionEvidence {
  import opened Progression
  import opened ProgressionSweeps

  // ---------------------------------------------------------------- the units of a program

  /** Edges that make `m` a lifecycle node of the action `n`. */
  predicate Attaches(g: Graph, n: NodeId, m: NodeId) {
    exists i | 0 <= i < |g.edges| ::
      || (g.edges[i].kind == PreLifecycleBeforeAction && g.edges[i].before == m && g.edges[i].after == n)
      || (g.edges[i].kind == ActionBeforePostLifecycle && g.edges[i].before == n && g.edges[i].after == m)
  }

  lemma MembersAreAttached(g: Graph, n: NodeId, m: NodeId)
    ensures m in UnitMembers(g.edges, n) <==> m == n || Attaches(g, n, m)
  {}

  /**
    Builds and checks stand alone, an install, upgrade or removal takes its lifecycle nodes, and
    nothing else is a unit.
   */
  lemma UnitsExactly(g: Graph, n: NodeId)
    requires WellFormed(g) && n in g.nodes
    ensures (exists u | u in g.units :: u.primary == n) <==> g.nodes[n] != Lifecycle && g.nodes[n] != Retain
    ensures forall u | u in g.units && u.primary == n ::
              match g.nodes[n]
              case Build => u.kind == ConstructionUnit && u.members == {n}
              case Check => u.kind == CheckUnit && u.members == {n}
              case Install => u.kind == OperationUnit && forall m :: m in u.members <==> m == n || Attaches(g, n, m)
              case Upgrade => u.kind == OperationUnit && forall m :: m in u.members <==> m == n || Attaches(g, n, m)
              case Remove => u.kind == OperationUnit && forall m :: m in u.members <==> m == n || Attaches(g, n, m)
              case _ => false
  {
    forall m
      ensures m in UnitMembers(g.edges, n) <==> m == n || Attaches(g, n, m)
    {
      MembersAreAttached(g, n, m);
    }
    if g.nodes[n] != Lifecycle && g.nodes[n] != Retain {
      var i :| 0 <= i < |g.units| && n in g.units[i].members;
      RightUnit(g, g.units[i]);
      assert g.units[i] in g.units && g.units[i].primary == n;
    }
    forall u | u in g.units && u.primary == n
      ensures UnitRight(g, u)
    {
      RightUnit(g, u);
    }
    hide WellFormed, UnitMembers, Attaches;
  }

  // ---------------------------------------------------------------- the statuses of evidence

  /** The lifecycle lists of evidence name members of its unit, and never its action. */
  predicate ListsMembers(u: Unit, e: Evidence) {
    forall n | n in e.before + e.after :: u.kind == OperationUnit && n in u.members && n != u.primary
  }

  /** The loop over one lifecycle list; a node listed twice keeps its last result. */
  method ApplyLifecycleResults(state: State, order: seq<NodeId>, results: seq<bool>) returns (next: State)
    requires forall n | n in order :: n in state
    ensures next.Keys == state.Keys
    ensures forall n | n in state :: next[n] == if n in order then ResultStatus(order, results, n) else state[n]
  {
    next := state;
    for index := 0 to |order|
      invariant next.Keys == state.Keys
      invariant forall n | n in state ::
          next[n] == if n in order[..index] then ResultStatus(order[..index], results, n) else state[n]
    {
      assert order[..index + 1][..index] == order[..index];
      if index >= |results| {
        next := next[order[index] := Blocked];
      } else {
        next := next[order[index] := if results[index] then Satisfied else Failed];
      }
    }
    assert order[..|order|] == order;
  }

  /** What the evidence of one unit says about its members. */
  method SeedUnit(evidence: map<NodeId, Evidence>, state: State, u: Unit) returns (next: State)
    requires u.primary in u.members && (u.kind != OperationUnit ==> u.members == {u.primary})
    requires forall n | n in u.members :: n in state && state[n] == Pending
    requires u.primary in evidence ==> ListsMembers(u, evidence[u.primary])
    ensures next.Keys == state.Keys
    ensures forall n | n in state && n !in u.members :: next[n] == state[n]
    ensures forall n | n in u.members ::
              next[n] == if u.primary in evidence then EvidenceStatus(u, evidence[u.primary], n) else Pending
  {
    hide ResultStatus;
    next := state;
    if u.primary in evidence {
      var e := evidence[u.primary];
      if u.kind == ConstructionUnit || u.kind == CheckUnit {
        next := next[u.primary := if e.succeeded then Satisfied else Failed];
      } else if e.succeeded {
        next := Assigned(next, u.members, Satisfied);
      } else {
        next := Assigned(next, u.members, Blocked);
        next := next[u.primary := Failed];
        next := ApplyLifecycleResults(next, e.before, e.beforeResults);
        next := ApplyLifecycleResults(next, e.after, e.afterResults);
      }
    }
  }

  /** The evidence of the first `i` units has been written. */
  predicate Seeded(g: Graph, evidence: map<NodeId, Evidence>, state: State, i: nat)
    requires i <= |g.units|
  {
    && state.Keys == g.nodes.Keys
    && (forall n | n in g.nodes ::
          state[n] == if Covers(g.units[..i], n) then Seed(g, evidence, n)
                      else if g.nodes[n] == Retain then Satisfied else Pending)
  }

  /** The seeds of the sweeps: retained nodes first, then the evidence of each unit in turn. */
  method SeedStatuses(g: Graph, evidence: map<NodeId, Evidence>) returns (state: State)
    requires WellFormed(g)
    requires forall u | u in g.units && u.primary in evidence :: ListsMembers(u, evidence[u.primary])
    ensures state == SeedState(g, evidence)
  {
    hide WellFormed, Seed, ListsMembers, EvidenceStatus;
    state := map n | n in g.nodes :: if g.nodes[n] == Retain then Satisfied else Pending;
    assert Seeded(g, evidence, state, 0);
    for i := 0 to |g.units|
      invariant Seeded(g, evidence, state, i)
    {
      UnitIsUntouched(g, evidence, state, i);
      ghost var was := state;
      hide Seeded;
      state := SeedUnit(evidence, state, g.units[i]);
      SeededGrows(g, evidence, was, state, i);
    }
    SeededIsSeed(g, evidence, state);
  }

  lemma UnitIsUntouched(g: Graph, evidence: map<NodeId, Evidence>, state: State, i: nat)
    requires WellFormed(g) && i < |g.units| && Seeded(g, evidence, state, i)
    ensures var u := g.units[i];
            && u.primary in u.members && (u.kind != OperationUnit ==> u.members == {u.primary})
            && forall n | n in u.members :: n in state && state[n] == Pending
  {
    RightUnit(g, g.units[i]);
    hide WellFormed, EvidenceStatus;
    forall n | n in g.units[i].members
      ensures n in state && state[n] == Pending
    {
      MemberSeed(g, evidence, i, n);
    }
  }

  lemma SeededGrows(g: Graph, evidence: map<NodeId, Evidence>, was: State, state: State, i: nat)
    requires WellFormed(g) && i < |g.units| && Seeded(g, evidence, was, i) && state.Keys == was.Keys
    requires var u := g.units[i];
             && (forall n | n in was && n !in u.members :: state[n] == was[n])
             && (forall n | n in u.members :: n in state &&
                   state[n] == if u.primary in evidence then EvidenceStatus(u, evidence[u.primary], n) else Pending)
    ensures Seeded(g, evidence, state, i + 1)
  {
    hide WellFormed, Seed, EvidenceStatus, Covers;
    forall n | n in g.nodes
      ensures state[n] == if Covers(g.units[..i + 1], n) then Seed(g, evidence, n)
                          else if g.nodes[n] == Retain then Satisfied else Pending
    {
      CoverGrows(g.units, i, n);
      if n in g.units[i].members {
        MemberSeed(g, evidence, i, n);
      }
    }
  }

  lemma MemberSeed(g: Graph, evidence: map<NodeId, Evidence>, i: nat, n: NodeId)
    requires WellFormed(g) && i < |g.units| && n in g.units[i].members
    ensures n in g.nodes && g.nodes[n] != Retain && !Covers(g.units[..i], n)
    ensures var u := g.units[i];
            Seed(g, evidence, n) == if u.primary in evidence then EvidenceStatus(u, evidence[u.primary], n) else Pending
  {
    UnitIsFound(g, g.units[i], n);
    assert DisjointUnits(g.units);
    hide WellFormed, EvidenceStatus;
  }

  lemma CoverGrows(units: seq<Unit>, i: nat, n: NodeId)
    requires i < |units|
    ensures Covers(units[..i + 1], n) <==> Covers(units[..i], n) || n in units[i].members
  {
    assert units[..i + 1] == units[..i] + [units[i]];
    if n in units[i].members {
      assert n in units[..i + 1][i].members;
    }
    if Covers(units[..i], n) {
      var j :| 0 <= j < i && n in units[..i][j].members;
      assert n in units[..i + 1][j].members;
    }
  }

  lemma SeededIsSeed(g: Graph, evidence: map<NodeId, Evidence>, state: State)
    requires WellFormed(g) && Seeded(g, evidence, state, |g.units|)
    ensures state == SeedState(g, evidence)
  {
    assert g.units[..|g.units|] == g.units;
    hide Covers, EvidenceStatus;
  }
}
