/**
  The checks of the ledger that loop over local sets: the validation of a run's records,
  and the matching of construction inputs with requirement edges.
 */
module DispatchChecks {
  import opened Wrappers
  import opened Progression
  import opened Sequences
  import opened Dispatch
  import DispatchLaws
  import ProgressionSweeps

  // ---------------------------------------------------------------- the records of a run

  /** The checks of one record on its own, and against the records before it. */
  predicate RecordPasses(p: Progress, records: seq<DispatchRecord>, i: nat)
    requires i < |records|
  {
    && ShapeValid(records[i]) && Distinct(records[i].observations)
    && (forall k | 0 <= k < i :: records[k].dispatch.nonce != records[i].dispatch.nonce)
    && (Active(records[i]) ==> ActiveValid(p, records[i].dispatch))
  }

  method RepeatsNothing(observations: seq<string>) returns (distinct: bool)
    ensures distinct <==> Distinct(observations)
  {
    var seen: set<string> := {};
    for i := 0 to |observations|
      invariant Distinct(observations[..i]) && seen == Elements(observations[..i])
    {
      assert observations[..i + 1] == observations[..i] + [observations[i]];
      if observations[i] in seen {
        var k :| 0 <= k < i && observations[..i][k] == observations[i];
        assert observations[k] == observations[i];
        return false;
      }
      seen := seen + {observations[i]};
    }
    assert observations[..|observations|] == observations;
    return true;
  }

  /** The evidence that a record of each state may carry. */
  method ValidateRecord(r: DispatchRecord) returns (valid: bool)
    ensures valid <==> ShapeValid(r)
  {
    var empty := r.session.None? && r.effectAttempt.None? && r.observations == [] && r.terminal.None?;
    var operation := r.dispatch.unit.kind == OperationUnit;
    match r.state {
      case Reserved => return empty;
      case Released => return empty;
      case Started =>
        if r.session.None? || r.terminal.Some? || operation != r.effectAttempt.Some? {
          return false;
        }
        return !(r.observations != [] && !operation);
      case Completed =>
        if r.session.None? || r.terminal.None? || operation != r.effectAttempt.Some? {
          return false;
        }
        return !(r.observations != [] && !operation);
    }
  }

  /** The unit of the graph, on the evidence and, for an operation, the epoch that were reserved. */
  method StandsAsReserved(p: Progress, d: Dispatch) returns (stands: bool)
    ensures stands <==> ActiveValid(p, d)
  {
    hide CaptureDependencies;
    if d.unit !in p.graph.units {
      return false;
    }
    var current := CaptureDependencies(p, d.unit);
    if current.Failure? || current.value != d.dependencies {
      return false;
    }
    return !(d.unit.kind == OperationUnit && d.reservedState != p.epoch);
  }

  /** The check before every start and every report. */
  method ValidateCurrent(run: Run, d: Dispatch) returns (current: bool)
    ensures current <==> RequireCurrent(run, d).Success?
  {
    hide CaptureDependencies, ReadyUnit;
    if !ReadyUnit(run.progress, d.unit) {
      return false;
    }
    var captured := CaptureDependencies(run.progress, d.unit);
    if captured.Failure? || captured.value != d.dependencies {
      return false;
    }
    return !(d.unit.kind == OperationUnit && d.reservedState != run.progress.epoch);
  }

  /** One pass over the records: shapes, nonces, observations, and the standing of the active ones. */
  method ScanRecords(p: Progress, records: seq<DispatchRecord>) returns (ok: bool, active: seq<nat>)
    ensures ok <==> forall i | 0 <= i < |records| :: RecordPasses(p, records, i)
    ensures ok ==> (forall k | 0 <= k < |active| :: active[k] < |records| && Active(records[active[k]]))
                   && (forall i | 0 <= i < |records| && Active(records[i]) :: i in active)
                   && (forall k, l | 0 <= k < l < |active| :: active[k] < active[l])
  {
    var nonces: set<string> := {};
    active := [];
    hide ShapeValid, ActiveValid, Distinct;
    for i := 0 to |records|
      invariant forall k | 0 <= k < i :: RecordPasses(p, records, k)
      invariant forall n :: n in nonces <==> exists k | 0 <= k < i :: records[k].dispatch.nonce == n
      invariant forall k | 0 <= k < |active| :: active[k] < i && Active(records[active[k]])
      invariant forall k | 0 <= k < i && Active(records[k]) :: k in active
      invariant forall k, l | 0 <= k < l < |active| :: active[k] < active[l]
    {
      var r := records[i];
      var distinct := RepeatsNothing(r.observations);
      var shaped := ValidateRecord(r);
      if !shaped || r.dispatch.nonce in nonces || !distinct {
        assert !RecordPasses(p, records, i);
        return false, active;
      }
      nonces := nonces + {r.dispatch.nonce};
      if r.state == Reserved || r.state == Started {
        var stands := StandsAsReserved(p, r.dispatch);
        if !stands {
          assert !RecordPasses(p, records, i);
          return false, active;
        }
        active := active + [i];
      }
    }
    return true, active;
  }

  method ActiveOverlap(records: seq<DispatchRecord>, active: seq<nat>) returns (overlap: bool)
    requires forall k | 0 <= k < |active| :: active[k] < |records|
    ensures overlap <==> exists k, l | 0 <= k < l < |active| ::
              !(records[active[k]].dispatch.unit.members !! records[active[l]].dispatch.unit.members)
  {
    for left := 0 to |active|
      invariant forall k, l | 0 <= k < left && k < l < |active| ::
          records[active[k]].dispatch.unit.members !! records[active[l]].dispatch.unit.members
    {
      for right := left + 1 to |active|
        invariant forall l | left < l < right ::
            records[active[left]].dispatch.unit.members !! records[active[l]].dispatch.unit.members
      {
        if !(records[active[left]].dispatch.unit.members !! records[active[right]].dispatch.unit.members) {
          return true;
        }
      }
    }
    return false;
  }

  method CountActive(records: seq<DispatchRecord>, kind: UnitKind) returns (count: nat)
    ensures count == |ActiveOf(records, kind)|
  {
    count := 0;
    assert ActiveOf(records[..0], kind) == {};
    for i := 0 to |records|
      invariant count == |ActiveOf(records[..i], kind)|
    {
      ActiveOneMore(records, kind, i);
      if Active(records[i]) && records[i].dispatch.unit.kind == kind {
        count := count + 1;
      }
    }
    assert records[..|records|] == records;
  }

  lemma ActiveOneMore(records: seq<DispatchRecord>, kind: UnitKind, i: nat)
    requires i < |records|
    ensures |ActiveOf(records[..i + 1], kind)|
         == |ActiveOf(records[..i], kind)|
             + (if Active(records[i]) && records[i].dispatch.unit.kind == kind then 1 else 0)
  {
    var before, after := ActiveOf(records[..i], kind), ActiveOf(records[..i + 1], kind);
    if Active(records[i]) && records[i].dispatch.unit.kind == kind {
      assert after == before + {i};
    } else {
      assert after == before;
    }
  }

  predicate CapacitiesKept(policy: Policy, records: seq<DispatchRecord>) {
    forall kind: UnitKind :: |ActiveOf(records, kind)| <= Capacity(policy, kind)
  }

  method WithinCapacities(policy: Policy, records: seq<DispatchRecord>) returns (ok: bool)
    ensures ok <==> CapacitiesKept(policy, records)
  {
    hide ActiveOf;
    var constructions := CountActive(records, ConstructionUnit);
    var checks := CountActive(records, CheckUnit);
    var operations := CountActive(records, OperationUnit);
    ok := constructions <= policy.constructions && checks <= policy.checks && operations <= 1;
    forall kind: UnitKind | ok
      ensures |ActiveOf(records, kind)| <= Capacity(policy, kind)
    {
      match kind
      case ConstructionUnit => assert constructions <= Capacity(policy, ConstructionUnit);
      case CheckUnit => assert checks <= Capacity(policy, CheckUnit);
      case OperationUnit => assert operations <= Capacity(policy, OperationUnit);
    }
  }

  predicate AllReady(p: Progress, records: seq<DispatchRecord>, active: seq<nat>)
    requires forall k | 0 <= k < |active| :: active[k] < |records|
  {
    forall k | 0 <= k < |active| :: ReadyUnit(p, records[active[k]].dispatch.unit)
  }

  method StillReady(p: Progress, records: seq<DispatchRecord>, active: seq<nat>) returns (ok: bool)
    requires forall k | 0 <= k < |active| :: active[k] < |records|
    ensures ok <==> AllReady(p, records, active)
  {
    for k := 0 to |active|
      invariant forall l | 0 <= l < k :: ReadyUnit(p, records[active[l]].dispatch.unit)
    {
      if !ReadyUnit(p, records[active[k]].dispatch.unit) {
        return false;
      }
    }
    return true;
  }

  predicate NoOverlap(records: seq<DispatchRecord>, active: seq<nat>)
    requires forall k | 0 <= k < |active| :: active[k] < |records|
  {
    forall k, l | 0 <= k < l < |active| ::
      records[active[k]].dispatch.unit.members !! records[active[l]].dispatch.unit.members
  }

  predicate ListsActive(records: seq<DispatchRecord>, active: seq<nat>) {
    && (forall k | 0 <= k < |active| :: active[k] < |records| && Active(records[active[k]]))
    && (forall i | 0 <= i < |records| && Active(records[i]) :: i in active)
    && (forall k, l | 0 <= k < l < |active| :: active[k] < active[l])
  }

  lemma ListedOverlap(records: seq<DispatchRecord>, active: seq<nat>)
    requires ListsActive(records, active)
    ensures NoOverlap(records, active)
            <==> forall i, j | 0 <= i < j < |records| && Active(records[i]) && Active(records[j]) ::
                   records[i].dispatch.unit.members !! records[j].dispatch.unit.members
  {
    hide Active;
    if NoOverlap(records, active) {
      forall i, j | 0 <= i < j < |records| && Active(records[i]) && Active(records[j])
        ensures records[i].dispatch.unit.members !! records[j].dispatch.unit.members
      {
        var k :| 0 <= k < |active| && active[k] == i;
        var l :| 0 <= l < |active| && active[l] == j;
        assert k < l;
      }
    }
  }

  lemma ListedReady(p: Progress, records: seq<DispatchRecord>, active: seq<nat>)
    requires ListsActive(records, active)
    ensures AllReady(p, records, active)
            <==> forall i | 0 <= i < |records| && Active(records[i]) :: ReadyUnit(p, records[i].dispatch.unit)
  {
    hide Active, ReadyUnit;
    if AllReady(p, records, active) {
      forall i | 0 <= i < |records| && Active(records[i])
        ensures ReadyUnit(p, records[i].dispatch.unit)
      {
        var k :| 0 <= k < |active| && active[k] == i;
      }
    }
  }

  lemma ScanMeans(p: Progress, records: seq<DispatchRecord>)
    ensures (forall i | 0 <= i < |records| :: RecordPasses(p, records, i))
            <==> (forall i | 0 <= i < |records| :: ShapeValid(records[i]) && Distinct(records[i].observations))
                 && (forall i, j | 0 <= i < j < |records| :: records[i].dispatch.nonce != records[j].dispatch.nonce)
                 && (forall i | 0 <= i < |records| && Active(records[i]) :: ActiveValid(p, records[i].dispatch))
  {
    hide ShapeValid, ActiveValid, Distinct, Active;
    if forall i | 0 <= i < |records| :: RecordPasses(p, records, i) {
      forall i, j | 0 <= i < j < |records|
        ensures records[i].dispatch.nonce != records[j].dispatch.nonce
      {
        assert RecordPasses(p, records, j);
      }
      forall i | 0 <= i < |records| && Active(records[i])
        ensures ActiveValid(p, records[i].dispatch)
      {
        assert RecordPasses(p, records, i);
      }
      forall i | 0 <= i < |records|
        ensures ShapeValid(records[i]) && Distinct(records[i].observations)
      {
        assert RecordPasses(p, records, i);
      }
    }
  }

  /** The validation that every run passes when it is made. */
  method ValidateRunRecords(p: Progress, policy: Policy, records: seq<DispatchRecord>) returns (ok: bool)
    ensures ok <==> RecordsValid(p, policy, records)
  {
    hide ShapeValid, ActiveValid, Distinct, Active, ReadyUnit, ActiveOf, Capacity, RecordPasses, AllReady;
    ScanMeans(p, records);
    var scanned, active := ScanRecords(p, records);
    if !scanned {
      return false;
    }
    assert ListsActive(records, active);
    ListedOverlap(records, active);
    ListedReady(p, records, active);
    var overlap := ActiveOverlap(records, active);
    if overlap {
      return false;
    }
    var within := WithinCapacities(policy, records);
    if !within {
      return false;
    }
    ok := StillReady(p, records, active);
  }

  /** The check of a rehydrated history: every record on its captured evidence, every completion on its own. */
  method ValidateHistory(p: Progress, records: seq<DispatchRecord>) returns (valid: bool)
    ensures valid <==> forall i | 0 <= i < |records| :: HistoryValid(p, records[i])
  {
    hide CaptureDependencies;
    for i := 0 to |records|
      invariant forall k | 0 <= k < i :: HistoryValid(p, records[k])
    {
      var r := records[i];
      if r.dispatch.unit !in p.graph.units {
        return false;
      }
      var current := CaptureDependencies(p, r.dispatch.unit);
      if current.Failure? || current.value != r.dispatch.dependencies {
        return false;
      }
      if r.state == Completed {
        var primary := r.dispatch.unit.primary;
        if primary !in p.evidence || r.terminal != Some(p.evidence[primary].identity) {
          return false;
        }
        if r.session != Some(p.evidence[primary].session) {
          return false;
        }
        if r.dispatch.unit.kind == OperationUnit && r.dispatch.reservedState != p.evidence[primary].expectedState {
          return false;
        }
      }
    }
    return true;
  }

  method RestoreRun(p: Progress, policy: Policy, records: seq<DispatchRecord>) returns (r: Result<Run, Fault>)
    ensures r == Restore(p, policy, records)
  {
    hide HistoryValid, RecordsValid;
    var history := ValidateHistory(p, records);
    if !history {
      return Failure(InvalidRun);
    }
    var valid := ValidateRunRecords(p, policy, records);
    return if valid then Success(Run(p, policy, records)) else Failure(InvalidRun);
  }

  // ---------------------------------------------------------------- construction inputs

  /** A requirement edge, as far as an input is matched with it. */
  datatype InputEdge = InputEdge(before: NodeId, after: NodeId, buildScope: bool, demand: Option<string>)

  predicate InputEdgeOf(e: InputEdge, node: NodeId) {
    e.after == node && e.buildScope
  }

  predicate Witnesses(e: InputEdge, node: NodeId, demand: string) {
    InputEdgeOf(e, node) && e.demand == Some(demand)
  }

  predicate OnlyWitness(edges: seq<InputEdge>, node: NodeId, demand: string, k: nat) {
    && k < |edges| && Witnesses(edges[k], node, demand)
    && forall l | 0 <= l < |edges| && l != k :: !Witnesses(edges[l], node, demand)
  }

  /** The one edge that demands the input; none and several are both refused. */
  method RequireInputEdge(edges: seq<InputEdge>, node: NodeId, demand: string) returns (found: Option<nat>)
    ensures found.Some? ==> OnlyWitness(edges, node, demand, found.value)
    ensures found.None? ==> forall k | 0 <= k < |edges| :: !OnlyWitness(edges, node, demand, k)
  {
    found := None;
    for i := 0 to |edges|
      invariant match found
                case Some(k) => k < i && Witnesses(edges[k], node, demand)
                                && forall l | 0 <= l < i && l != k :: !Witnesses(edges[l], node, demand)
                case None => forall l | 0 <= l < i :: !Witnesses(edges[l], node, demand)
    {
      if edges[i].after == node && edges[i].buildScope && edges[i].demand.Some? && edges[i].demand.value == demand {
        if found.Some? {
          return None;
        }
        found := Some(i);
      }
    }
  }

  /**
    The inputs and the edges that demand them are in bijection: `at` gives the edge of each
    input, is injective, and reaches every build edge of the node.
   */
  predicate Bijection(edges: seq<InputEdge>, node: NodeId, inputs: seq<string>, at: seq<nat>) {
    && |at| == |inputs| && (forall i | 0 <= i < |inputs| :: OnlyWitness(edges, node, inputs[i], at[i]))
    && Distinct(at)
    && (forall k | 0 <= k < |edges| && InputEdgeOf(edges[k], node) :: k in at)
  }

  ghost predicate Matched(edges: seq<InputEdge>, node: NodeId, inputs: seq<string>, authorised: (nat, nat) -> bool) {
    exists at: seq<nat> :: Bijection(edges, node, inputs, at) && forall i | 0 <= i < |inputs| :: authorised(at[i], i)
  }

  lemma OnlyIsUnique(edges: seq<InputEdge>, node: NodeId, demand: string, k: nat, l: nat)
    requires OnlyWitness(edges, node, demand, k) && OnlyWitness(edges, node, demand, l)
    ensures k == l
  {}

  lemma UndemandedIsRefused(edges: seq<InputEdge>, node: NodeId, inputs: seq<string>, authorised: (nat, nat) -> bool,
                            i: nat)
    requires i < |inputs| && forall k | 0 <= k < |edges| :: !OnlyWitness(edges, node, inputs[i], k)
    ensures !Matched(edges, node, inputs, authorised)
  {
    forall other: seq<nat>
      ensures !Bijection(edges, node, inputs, other)
    {
      assert |other| == |inputs| ==> !OnlyWitness(edges, node, inputs[i], other[i]);
    }
  }

  lemma EdgeIsForced(edges: seq<InputEdge>, node: NodeId, inputs: seq<string>, authorised: (nat, nat) -> bool,
                     at: seq<nat>, i: nat, k: nat)
    requires i < |inputs| && |at| == i && OnlyWitness(edges, node, inputs[i], k)
    requires forall n | 0 <= n < i :: OnlyWitness(edges, node, inputs[n], at[n])
    requires k in at || !authorised(k, i)
    ensures !Matched(edges, node, inputs, authorised)
  {
    hide OnlyWitness;
    forall other: seq<nat> | Bijection(edges, node, inputs, other)
      ensures !forall n | 0 <= n < |inputs| :: authorised(other[n], n)
    {
      OnlyIsUnique(edges, node, inputs[i], other[i], k);
      if k in at {
        var n :| 0 <= n < i && at[n] == k;
        OnlyIsUnique(edges, node, inputs[n], other[n], at[n]);
      }
    }
  }

  lemma OmittedIsRefused(edges: seq<InputEdge>, node: NodeId, inputs: seq<string>, authorised: (nat, nat) -> bool,
                         at: seq<nat>, k: nat)
    requires |at| == |inputs| && forall n | 0 <= n < |inputs| :: OnlyWitness(edges, node, inputs[n], at[n])
    requires k < |edges| && InputEdgeOf(edges[k], node) && k !in at
    ensures !Matched(edges, node, inputs, authorised)
  {
    hide OnlyWitness, InputEdgeOf;
    forall other: seq<nat>
      ensures !Bijection(edges, node, inputs, other)
    {
      if Bijection(edges, node, inputs, other) {
        var n :| 0 <= n < |other| && other[n] == k;
        OnlyIsUnique(edges, node, inputs[n], other[n], at[n]);
      }
    }
  }

  // ---------------------------------------------------------------- the authority behind an input

  datatype Selection = Selection(identity: string, package: string, installed: Option<string>)

  datatype BuildInput = BuildInput(demand: string, selection: Selection, package: string)

  /** What the transaction selected, which selection each construction built, and what is installed now. */
  datatype Packages = Packages(selections: map<NodeId, Selection>, subjects: map<string, string>,
                               current: map<string, string>)

  predicate SelectedAuthority(w: Packages, n: NodeId, input: BuildInput) {
    n in w.selections && w.selections[n].identity == input.selection.identity
    && w.selections[n].package == input.package
  }

  /** The predecessor was constructed successfully, and the dispatch was captured with that evidence. */
  predicate EvidenceHeld(p: Progress, d: Dispatch, n: NodeId) {
    && n in p.evidence && p.evidence[n].succeeded
    && n in d.dependencies && d.dependencies[n] == p.evidence[n].identity
  }

  predicate BuiltAuthority(p: Progress, d: Dispatch, w: Packages, n: NodeId, input: BuildInput) {
    && SelectedAuthority(w, n, input) && EvidenceHeld(p, d, n)
    && p.evidence[n].identity in w.subjects && w.subjects[p.evidence[n].identity] == input.selection.identity
  }

  /** The selected package is installed, still current, and the one that the input selects. */
  predicate RetainedAuthority(w: Packages, n: NodeId, input: BuildInput) {
    && SelectedAuthority(w, n, input)
    && match w.selections[n].installed
       case None => false
       case Some(identity) =>
         && w.selections[n].package in w.current && w.current[w.selections[n].package] == identity
         && input.selection.installed == Some(identity)
  }

  predicate InputAuthority(p: Progress, d: Dispatch, w: Packages, n: NodeId, input: BuildInput) {
    n in p.graph.nodes
    && match p.graph.nodes[n]
       case Build => BuiltAuthority(p, d, w, n, input)
       case Retain => RetainedAuthority(w, n, input)
       case _ => false
  }

  function Demands(inputs: seq<BuildInput>): (r: seq<string>)
    ensures |r| == |inputs| && forall i | 0 <= i < |r| :: r[i] == inputs[i].demand
  {
    if inputs == [] then [] else [inputs[0].demand] + Demands(inputs[1..])
  }

  predicate Stands(p: Progress, d: Dispatch, w: Packages, edges: seq<InputEdge>, inputs: seq<BuildInput>, k: nat,
                   i: nat) {
    k < |edges| && i < |inputs| && InputAuthority(p, d, w, edges[k].before, inputs[i])
  }

  /** Each input has its one edge, no two the same, none is left over, and each predecessor stands for its input. */
  ghost predicate InputsMatched(p: Progress, d: Dispatch, w: Packages, edges: seq<InputEdge>, inputs: seq<BuildInput>) {
    exists at: seq<nat> ::
      Bijection(edges, d.unit.primary, Demands(inputs), at)
      && forall i | 0 <= i < |at| :: Stands(p, d, w, edges, inputs, at[i], i)
  }

  method ValidateSelected(w: Packages, n: NodeId, input: BuildInput) returns (ok: bool)
    ensures ok <==> SelectedAuthority(w, n, input)
  {
    if n !in w.selections {
      return false;
    }
    var selection := w.selections[n];
    return !(selection.identity != input.selection.identity || selection.package != input.package);
  }

  method ValidateBuilt(p: Progress, d: Dispatch, w: Packages, n: NodeId, input: BuildInput) returns (ok: bool)
    ensures ok <==> BuiltAuthority(p, d, w, n, input)
  {
    var selected := ValidateSelected(w, n, input);
    if !selected || n !in p.evidence || !p.evidence[n].succeeded {
      return false;
    }
    var construction := p.evidence[n].identity;
    if construction !in w.subjects || w.subjects[construction] != input.selection.identity {
      return false;
    }
    return n in d.dependencies && d.dependencies[n] == construction;
  }

  method ValidateRetained(w: Packages, n: NodeId, input: BuildInput) returns (ok: bool)
    ensures ok <==> RetainedAuthority(w, n, input)
  {
    var selected := ValidateSelected(w, n, input);
    if !selected || w.selections[n].installed.None? {
      return false;
    }
    var package, installed := w.selections[n].package, w.selections[n].installed.value;
    if package !in w.current || w.current[package] != installed {
      return false;
    }
    return !(input.selection.installed.None? || input.selection.installed.value != installed);
  }

  method ValidateInput(p: Progress, d: Dispatch, w: Packages, n: NodeId, input: BuildInput) returns (ok: bool)
    ensures ok <==> InputAuthority(p, d, w, n, input)
  {
    hide BuiltAuthority, RetainedAuthority;
    if n !in p.graph.nodes {
      return false;
    }
    if p.graph.nodes[n] == Build {
      ok := ValidateBuilt(p, d, w, n, input);
    } else if p.graph.nodes[n] == Retain {
      ok := ValidateRetained(w, n, input);
    } else {
      ok := false;
    }
  }

  /** The build edge of the node that no input has used. */
  method FindOmitted(edges: seq<InputEdge>, node: NodeId, matched: set<nat>) returns (omitted: Option<nat>)
    ensures omitted.Some? ==>
              omitted.value < |edges| && InputEdgeOf(edges[omitted.value], node) && omitted.value !in matched
    ensures omitted.None? ==> forall k | 0 <= k < |edges| && InputEdgeOf(edges[k], node) :: k in matched
  {
    for k := 0 to |edges|
      invariant forall l | 0 <= l < k && InputEdgeOf(edges[l], node) :: l in matched
    {
      if edges[k].after == node && edges[k].buildScope && k !in matched {
        return Some(k);
      }
    }
    return None;
  }

  /** The matching of inputs with edges, each with the authority of its predecessor; no edge may be left over. */
  method ValidateConstructionInputs(p: Progress, d: Dispatch, w: Packages, edges: seq<InputEdge>,
                                    inputs: seq<BuildInput>)
    returns (ok: bool)
    ensures ok <==> InputsMatched(p, d, w, edges, inputs)
  {
    hide OnlyWitness, InputEdgeOf, InputAuthority, Matched, InputsMatched, Bijection, Distinct, Elements;
    ghost var node, demands := d.unit.primary, Demands(inputs);
    ghost var authorised := (k: nat, i: nat) => Stands(p, d, w, edges, inputs, k, i);
    MatchedIsAuthorised(p, d, w, edges, inputs, authorised);
    var matched: set<nat> := {};
    ghost var at: seq<nat> := [];
    NothingListed();
    for i := 0 to |inputs|
      invariant |at| == i && Distinct(at) && matched == Elements(at) && forall k :: k in matched <==> k in at
      invariant forall k | 0 <= k < i :: OnlyWitness(edges, node, demands[k], at[k]) && authorised(at[k], k)
    {
      var edge := RequireInputEdge(edges, d.unit.primary, inputs[i].demand);
      if edge.None? {
        UndemandedIsRefused(edges, node, demands, authorised, i);
        return false;
      }
      OnlyWitnessIsEdge(edges, node, demands[i], edge.value);
      var stands := ValidateInput(p, d, w, edges[edge.value].before, inputs[i]);
      if edge.value in matched || !stands {
        EdgeIsForced(edges, node, demands, authorised, at, i, edge.value);
        return false;
      }
      OneMoreListed(at, edge.value);
      matched := matched + {edge.value};
      at := at + [edge.value];
    }
    var omitted := FindOmitted(edges, d.unit.primary, matched);
    if omitted.Some? {
      OmittedIsRefused(edges, node, demands, authorised, at, omitted.value);
      return false;
    }
    BijectionMatches(edges, node, demands, at, authorised);
    return true;
  }

  lemma OnlyWitnessIsEdge(edges: seq<InputEdge>, node: NodeId, demand: string, k: nat)
    requires OnlyWitness(edges, node, demand, k)
    ensures k < |edges|
  {}

  lemma NothingListed()
    ensures Distinct<nat>([]) && Elements<nat>([]) == {}
  {}

  lemma OneMoreListed(at: seq<nat>, k: nat)
    requires Distinct(at) && k !in Elements(at)
    ensures Distinct(at + [k]) && Elements(at + [k]) == Elements(at) + {k}
  {}

  lemma BijectionMatches(edges: seq<InputEdge>, node: NodeId, demands: seq<string>, at: seq<nat>,
                         authorised: (nat, nat) -> bool)
    requires |at| == |demands| && Distinct(at)
    requires forall i | 0 <= i < |demands| :: OnlyWitness(edges, node, demands[i], at[i]) && authorised(at[i], i)
    requires forall k | 0 <= k < |edges| && InputEdgeOf(edges[k], node) :: k in at
    ensures Matched(edges, node, demands, authorised)
  {
    hide OnlyWitness, InputEdgeOf, Distinct;
    assert Bijection(edges, node, demands, at);
  }

  lemma MatchedIsAuthorised(p: Progress, d: Dispatch, w: Packages, edges: seq<InputEdge>, inputs: seq<BuildInput>,
                            authorised: (nat, nat) -> bool)
    requires forall k: nat, i: nat :: authorised(k, i) <==> Stands(p, d, w, edges, inputs, k, i)
    ensures Matched(edges, d.unit.primary, Demands(inputs), authorised) <==> InputsMatched(p, d, w, edges, inputs)
  {
    hide Stands, OnlyWitness, InputEdgeOf, Distinct;
    var node, demands := d.unit.primary, Demands(inputs);
    if Matched(edges, node, demands, authorised) {
      var at: seq<nat> :| Bijection(edges, node, demands, at) && forall i | 0 <= i < |demands| :: authorised(at[i], i);
      BijectionCounts(edges, node, demands, at);
      assert forall i | 0 <= i < |at| :: Stands(p, d, w, edges, inputs, at[i], i);
    }
    if InputsMatched(p, d, w, edges, inputs) {
      var at: seq<nat> :| Bijection(edges, node, demands, at)
          && forall i | 0 <= i < |at| :: Stands(p, d, w, edges, inputs, at[i], i);
      BijectionCounts(edges, node, demands, at);
      assert forall i | 0 <= i < |demands| :: authorised(at[i], i);
    }
  }

  lemma BijectionCounts(edges: seq<InputEdge>, node: NodeId, demands: seq<string>, at: seq<nat>)
    requires Bijection(edges, node, demands, at)
    ensures |at| == |demands|
  {}

  /** In a sound run the evidence that an input needs of a build predecessor is always there. */
  lemma EvidenceIsHeld(run: Run, i: nat, n: NodeId)
    requires DispatchLaws.LedgerSound(run) && i < |run.records| && Active(run.records[i])
    requires n in ExternalPredecessors(run.progress.graph, run.records[i].dispatch.unit)
    requires n in run.progress.graph.nodes && run.progress.graph.nodes[n] == Build
    ensures EvidenceHeld(run.progress, run.records[i].dispatch, n)
  {
    var p, r := run.progress, run.records[i];
    assert DispatchLaws.RecordSound(p, r);
    assert Satisfies(p, n);
    var u := FindUnit(p.graph.units, n).value;
    ProgressionSweeps.RightUnit(p.graph, u);
    DispatchLaws.EvidenceIsOfUnit(p, u, n);
  }
}
