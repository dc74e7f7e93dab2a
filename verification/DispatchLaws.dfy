/**
  Ledger soundness: in every history of a run no command finds the ledger invalid, every
  reached run is restored as it is, each unit is started at most once and only on
  successful predecessors, and nothing starts after a failure.
 */
module DispatchLaws {
  import opened Wrappers
  import opened Identity
  import opened Progression
  import opened Dispatch
  import opened Sequences
  import EffectJournal
  import ProgressionSweeps

  // ---------------------------------------------------------------- the invariant

  predicate EvidenceFits(u: Unit, e: Evidence) {
    if u.kind == OperationUnit then LifecycleBound(u, e.before, e.after) else e.before == [] && e.after == []
  }

  predicate EvidenceSound(p: Progress) {
    forall k | k in p.evidence ::
      exists i | 0 <= i < |p.graph.units| ::
            p.graph.units[i].primary == k && EvidenceFits(p.graph.units[i], p.evidence[k])
  }

  predicate ProgressSound(p: Progress) {
    WellFormed(p.graph) && EvidenceSound(p)
  }

  predicate Live(r: DispatchRecord) {
    r.state != Released
  }

  predicate Launched(r: DispatchRecord) {
    r.state == Started || r.state == Completed
  }

  /** Every external predecessor is retained, or in a unit that completed successfully. */
  predicate PredecessorsSucceeded(p: Progress, u: Unit)
    requires EdgesInside(p.graph)
  {
    forall n | n in ExternalPredecessors(p.graph, u) ::
      n in p.graph.nodes && (p.graph.nodes[n] == Retain
        || exists v | v in p.graph.units ::
              n in v.members && v.primary in p.evidence && p.evidence[v.primary].succeeded)
  }

  predicate CompletionSound(p: Progress, r: DispatchRecord) {
    var primary := r.dispatch.unit.primary;
    && primary in p.evidence && r.terminal == Some(p.evidence[primary].identity)
    && r.session == Some(p.evidence[primary].session)
    && (r.dispatch.unit.kind == OperationUnit ==> r.dispatch.reservedState == p.evidence[primary].expectedState)
  }

  predicate RecordSound(p: Progress, r: DispatchRecord)
    requires EdgesInside(p.graph)
  {
    && ShapeValid(r) && Distinct(r.observations)
    && r.dispatch.unit in p.graph.units && AllSatisfied(p.graph, p.evidence, r.dispatch.unit)
    && CaptureDependencies(p, r.dispatch.unit) == Success(r.dispatch.dependencies)
    && (Active(r) ==> Open(p.evidence, r.dispatch.unit)
                      && (r.dispatch.unit.kind == OperationUnit ==> r.dispatch.reservedState == p.epoch))
    && (r.state == Completed ==> CompletionSound(p, r))
    && (Launched(r) ==> PredecessorsSucceeded(p, r.dispatch.unit))
  }

  predicate Completes(r: DispatchRecord, n: NodeId) {
    r.state == Completed && r.dispatch.unit.primary == n
  }

  predicate Covered(records: seq<DispatchRecord>, n: NodeId) {
    exists i | 0 <= i < |records| :: Completes(records[i], n)
  }

  predicate LedgerSound(run: Run) {
    && ProgressSound(run.progress)
    && (forall i | 0 <= i < |run.records| :: RecordSound(run.progress, run.records[i]))
    && (forall i, j | 0 <= i < j < |run.records| :: run.records[i].dispatch.nonce != run.records[j].dispatch.nonce)
    && (forall i, j | 0 <= i < j < |run.records| && Live(run.records[i]) && Live(run.records[j]) ::
          run.records[i].dispatch.unit.members !! run.records[j].dispatch.unit.members)
    && (forall kind: UnitKind :: |ActiveOf(run.records, kind)| <= Capacity(run.policy, kind))
  }

  /** All terminal evidence is that of completed records. */
  predicate Recorded(run: Run) {
    forall n | n in run.progress.evidence :: Covered(run.records, n)
  }

  // ---------------------------------------------------------------- evidence of a node

  /** Evidence sits on units of the graph, and lists their other members. */
  lemma EvidenceUnit(p: Progress, u: Unit)
    requires ProgressSound(p) && u in p.graph.units && u.primary in p.evidence
    ensures EvidenceFits(u, p.evidence[u.primary])
  {
    var i :| 0 <= i < |p.graph.units| && p.graph.units[i].primary == u.primary
             && EvidenceFits(p.graph.units[i], p.evidence[u.primary]);
    ProgressionSweeps.PrimaryInside(p.graph, u);
    ProgressionSweeps.PrimaryInside(p.graph, p.graph.units[i]);
    ProgressionSweeps.UnitIsFound(p.graph, u, u.primary);
    ProgressionSweeps.UnitIsFound(p.graph, p.graph.units[i], u.primary);
  }

  predicate Lists(e: Evidence, n: NodeId) {
    n in e.before || n in e.after
  }

  lemma {:induction false} LifecycleSearchFinds(units: seq<Unit>, evidence: map<NodeId, Evidence>, u: Unit, n: NodeId)
    requires u in units && u.primary in evidence && Lists(evidence[u.primary], n)
    requires forall v | v in units && v.primary in evidence && Lists(evidence[v.primary], n) :: v == u
    ensures FirstLifecycle(units, evidence, n) == Some(evidence[u.primary].identity)
  {
    if units[0] != u {
      assert !(units[0].primary in evidence && Lists(evidence[units[0].primary], n));
      LifecycleSearchFinds(units[1..], evidence, u, n);
    }
  }

  /** The search of `EvidenceFor` finds the evidence of the unit that the node belongs to. */
  lemma EvidenceIsOfUnit(p: Progress, u: Unit, n: NodeId)
    requires ProgressSound(p) && u in p.graph.units && n in u.members && u.primary in p.evidence
    ensures EvidenceFor(p, n) == Some(p.evidence[u.primary].identity)
  {
    if n in p.evidence {
      EvidenceOfPrimary(p, u, n);
    } else {
      EvidenceUnit(p, u);
      ProgressionSweeps.UnitIsFound(p.graph, u, n);
      MemberIsListed(p, u, n);
      forall v | v in p.graph.units && v.primary in p.evidence && Lists(p.evidence[v.primary], n)
        ensures v == u
      {
        ListedIsMember(p, v, n);
        ProgressionSweeps.UnitIsFound(p.graph, v, n);
      }
      LifecycleSearchFinds(p.graph.units, p.evidence, u, n);
    }
  }

  lemma EvidenceOfPrimary(p: Progress, u: Unit, n: NodeId)
    requires ProgressSound(p) && u in p.graph.units && n in u.members && n in p.evidence
    ensures n == u.primary
  {
    var i :| 0 <= i < |p.graph.units| && p.graph.units[i].primary == n && EvidenceFits(p.graph.units[i], p.evidence[n]);
    ProgressionSweeps.PrimaryInside(p.graph, p.graph.units[i]);
    ProgressionSweeps.UnitIsFound(p.graph, p.graph.units[i], n);
    ProgressionSweeps.UnitIsFound(p.graph, u, n);
  }

  lemma MemberIsListed(p: Progress, u: Unit, n: NodeId)
    requires ProgressSound(p) && u in p.graph.units && n in u.members && n != u.primary
    requires u.primary in p.evidence && EvidenceFits(u, p.evidence[u.primary])
    ensures Lists(p.evidence[u.primary], n)
  {
    var i :| 0 <= i < |p.graph.units| && p.graph.units[i] == u;
    assert UnitRight(p.graph, p.graph.units[i]);
    var e := p.evidence[u.primary];
    assert n in Elements(e.before) + Elements(e.after);
  }

  lemma ListedIsMember(p: Progress, u: Unit, n: NodeId)
    requires ProgressSound(p) && u in p.graph.units && u.primary in p.evidence && Lists(p.evidence[u.primary], n)
    ensures n in u.members
  {
    EvidenceUnit(p, u);
    var e := p.evidence[u.primary];
    if u.kind == OperationUnit {
      assert n in Elements(e.before) + Elements(e.after);
    }
  }

  /** A satisfied node that is not retained has evidence. */
  lemma SatisfiedHasEvidence(p: Progress, n: NodeId)
    requires ProgressSound(p) && Satisfies(p, n) && p.graph.nodes[n] != Retain
    ensures exists u | u in p.graph.units :: n in u.members && u.primary in p.evidence
    ensures EvidenceFor(p, n).Some?
  {
    var u := FindUnit(p.graph.units, n).value;
    EvidenceIsOfUnit(p, u, n);
  }

  /** All predecessors satisfied is exactly what the capture demands. */
  lemma CaptureSucceeds(p: Progress, u: Unit)
    requires ProgressSound(p)
    ensures CaptureDependencies(p, u).Success? <==> AllSatisfied(p.graph, p.evidence, u)
  {
    if AllSatisfied(p.graph, p.evidence, u) {
      forall n | n in ExternalPredecessors(p.graph, u)
        ensures Satisfies(p, n) && (p.graph.nodes[n] == Retain || EvidenceFor(p, n).Some?)
      {
        var i :| 0 <= i < |p.graph.edges| && External(u, p.graph.edges[i]) && p.graph.edges[i].before == n;
        if p.graph.nodes[n] != Retain {
          SatisfiedHasEvidence(p, n);
        }
      }
    } else {
      var i :| 0 <= i < |p.graph.edges| && External(u, p.graph.edges[i])
               && Seed(p.graph, p.evidence, p.graph.edges[i].before) != Satisfied;
      assert p.graph.edges[i].before in ExternalPredecessors(p.graph, u);
    }
  }

  // ---------------------------------------------------------------- a sound ledger is a valid one

  lemma SoundIsValid(run: Run)
    requires LedgerSound(run)
    ensures RecordsValid(run.progress, run.policy, run.records)
  {
    forall i | 0 <= i < |run.records| && Active(run.records[i])
      ensures ActiveValid(run.progress, run.records[i].dispatch)
      ensures ReadyUnit(run.progress, run.records[i].dispatch.unit)
    {
      assert RecordSound(run.progress, run.records[i]);
    }
    forall i | 0 <= i < |run.records|
      ensures ShapeValid(run.records[i]) && Distinct(run.records[i].observations)
    {
      assert RecordSound(run.progress, run.records[i]);
    }
  }

  /** A durable history is reproduced exactly. */
  lemma SoundIsRestored(run: Run)
    requires LedgerSound(run)
    ensures Restore(run.progress, run.policy, run.records) == Success(run)
  {
    SoundIsValid(run);
    hide RecordsValid;
    forall i | 0 <= i < |run.records|
      ensures HistoryValid(run.progress, run.records[i])
    {
      assert RecordSound(run.progress, run.records[i]);
    }
  }

  // ---------------------------------------------------------------- adding evidence

  /** `q` is `p` with terminal evidence added for one open unit. */
  predicate Adds(p: Progress, q: Progress, w: Unit) {
    && w in p.graph.units && Open(p.evidence, w) && q.graph == p.graph && w.primary in q.evidence
    && q.evidence == p.evidence[w.primary := q.evidence[w.primary]] && EvidenceFits(w, q.evidence[w.primary])
  }

  lemma AddedIsSound(p: Progress, q: Progress, w: Unit)
    requires ProgressSound(p) && Adds(p, q, w)
    ensures ProgressSound(q)
  {
    hide WellFormed, EvidenceFits;
    forall k | k in q.evidence
      ensures exists i | 0 <= i < |q.graph.units| ::
                q.graph.units[i].primary == k && EvidenceFits(q.graph.units[i], q.evidence[k])
    {
      if k == w.primary {
        var i :| 0 <= i < |p.graph.units| && p.graph.units[i] == w;
        assert q.graph.units[i].primary == k && EvidenceFits(q.graph.units[i], q.evidence[k]);
      } else {
        var i :| 0 <= i < |p.graph.units| && p.graph.units[i].primary == k
            && EvidenceFits(p.graph.units[i], p.evidence[k]);
        assert q.graph.units[i].primary == k && EvidenceFits(q.graph.units[i], q.evidence[k]);
      }
    }
  }

  /** What was satisfied stays satisfied, on the same evidence. */
  lemma SatisfiedStays(p: Progress, q: Progress, w: Unit, n: NodeId)
    requires ProgressSound(p) && Adds(p, q, w) && Satisfies(p, n)
    ensures Satisfies(q, n)
    ensures p.graph.nodes[n] != Retain ==> EvidenceFor(q, n) == EvidenceFor(p, n)
  {
    if p.graph.nodes[n] != Retain {
      AddedIsSound(p, q, w);
      var u := FindUnit(p.graph.units, n).value;
      assert u.primary in p.evidence;
      ProgressionSweeps.PrimaryInside(p.graph, u);
      ProgressionSweeps.PrimaryInside(p.graph, w);
      EvidenceIsOfUnit(p, u, n);
      EvidenceIsOfUnit(q, u, n);
    }
  }

  lemma SatisfactionStays(p: Progress, q: Progress, w: Unit, u: Unit)
    requires ProgressSound(p) && Adds(p, q, w) && AllSatisfied(p.graph, p.evidence, u)
    ensures AllSatisfied(q.graph, q.evidence, u)
  {
    forall i | 0 <= i < |q.graph.edges| && External(u, q.graph.edges[i])
      ensures Seed(q.graph, q.evidence, q.graph.edges[i].before) == Satisfied
    {
      SatisfiedStays(p, q, w, q.graph.edges[i].before);
    }
  }

  lemma DependenciesStay(p: Progress, q: Progress, w: Unit, u: Unit)
    requires ProgressSound(p) && Adds(p, q, w) && DependenciesHeld(p, u) && DependenciesHeld(q, u)
    ensures Dependencies(q, u) == Dependencies(p, u)
  {
    forall n | n in ExternalPredecessors(p.graph, u) && p.graph.nodes[n] != Retain
      ensures EvidenceFor(q, n) == EvidenceFor(p, n)
    {
      SatisfiedStays(p, q, w, n);
    }
  }

  /** Ready-unit stability: satisfied predecessors and captured dependencies do not change. */
  lemma CaptureStays(p: Progress, q: Progress, w: Unit, u: Unit)
    requires ProgressSound(p) && Adds(p, q, w) && AllSatisfied(p.graph, p.evidence, u)
    ensures AllSatisfied(q.graph, q.evidence, u) && CaptureDependencies(q, u) == CaptureDependencies(p, u)
  {
    hide AllSatisfied, ProgressSound, DependenciesHeld, Dependencies;
    AddedIsSound(p, q, w);
    CaptureSucceeds(p, u);
    SatisfactionStays(p, q, w, u);
    CaptureSucceeds(q, u);
    DependenciesStay(p, q, w, u);
  }

  lemma SuccessStays(p: Progress, q: Progress, w: Unit, u: Unit)
    requires ProgressSound(p) && Adds(p, q, w) && PredecessorsSucceeded(p, u)
    ensures PredecessorsSucceeded(q, u)
  {
    hide WellFormed, EvidenceSound;
    forall n | n in ExternalPredecessors(q.graph, u)
      ensures n in q.graph.nodes && (q.graph.nodes[n] == Retain
        || exists v | v in q.graph.units ::
              n in v.members && v.primary in q.evidence && q.evidence[v.primary].succeeded)
    {
      if q.graph.nodes[n] != Retain {
        var v :| v in p.graph.units && n in v.members && v.primary in p.evidence && p.evidence[v.primary].succeeded;
        assert v.primary != w.primary;
      }
    }
  }

  /** Completing one unit leaves the record of another as sound as it was. */
  lemma OtherRecordStays(p: Progress, q: Progress, w: Unit, r: DispatchRecord)
    requires ProgressSound(p) && Adds(p, q, w) && RecordSound(p, r)
    requires Active(r) ==> r.dispatch.unit.primary != w.primary && (r.dispatch.unit.kind == OperationUnit ==>
                                                                      q.epoch == p.epoch)
    ensures RecordSound(q, r)
  {
    CaptureStays(p, q, w, r.dispatch.unit);
    hide AllSatisfied, ShapeValid, CaptureDependencies;
    if Launched(r) {
      SuccessStays(p, q, w, r.dispatch.unit);
    }
  }

  // ---------------------------------------------------------------- replacing and appending records

  /** One operation lane. */
  lemma LaneIsSingle(run: Run, i: nat, j: nat)
    requires LedgerSound(run) && i < |run.records| && j < |run.records|
    requires Active(run.records[i]) && run.records[i].dispatch.unit.kind == OperationUnit
    requires Active(run.records[j]) && run.records[j].dispatch.unit.kind == OperationUnit
    ensures i == j
  {
    var lane := ActiveOf(run.records, OperationUnit);
    assert i in lane && j in lane;
    hide ActiveOf, RecordSound, ProgressSound;
    assert |lane| <= Capacity(run.policy, OperationUnit);
    AtMostOne(lane, i, j);
  }

  lemma AtLeastTwo(s: set<nat>, i: nat, j: nat)
    requires i in s && j in s && i != j
    ensures |s| >= 2
  {
    SubsetCount({i, j}, s);
  }

  lemma AtMostOne(s: set<nat>, i: nat, j: nat)
    requires i in s && j in s && |s| <= 1
    ensures i == j
  {
    if i != j {
      AtLeastTwo(s, i, j);
    }
  }

  lemma ReplacedCapacity(records: seq<DispatchRecord>, i: nat, r: DispatchRecord, kind: UnitKind)
    requires i < |records| && r.dispatch == records[i].dispatch && Active(records[i])
    ensures |ActiveOf(records[i := r], kind)| <= |ActiveOf(records, kind)|
  {
    SubsetCount(ActiveOf(records[i := r], kind), ActiveOf(records, kind));
  }

  lemma ReplacedIsSound(run: Run, i: nat, r: DispatchRecord, q: Progress)
    requires LedgerSound(run) && i < |run.records| && Active(run.records[i])
    requires r.dispatch == run.records[i].dispatch && ProgressSound(q) && RecordSound(q, r)
    requires forall k | 0 <= k < |run.records| && k != i :: RecordSound(q, run.records[k])
    ensures LedgerSound(Run(q, run.policy, run.records[i := r]))
    ensures ReplaceRecord(run, i, r, q) == Success(Run(q, run.policy, run.records[i := r]))
  {
    var next := Run(q, run.policy, run.records[i := r]);
    forall kind: UnitKind
      ensures |ActiveOf(next.records, kind)| <= Capacity(next.policy, kind)
    {
      ReplacedCapacity(run.records, i, r, kind);
    }
    hide ActiveOf, RecordSound, ProgressSound, Covered, RecordsValid;
    assert LedgerSound(next);
    SoundIsValid(next);
  }

  // ---------------------------------------------------------------- the commands keep soundness

  /** The outcome of a command on a sound ledger: refused for a reason of the caller's, or sound. */
  predicate Kept(r: Result<Run, Fault>) {
    match r
    case Failure(fault) => fault != InvalidRun
    case Success(run) => LedgerSound(run)
  }

  lemma AppendedCapacity(records: seq<DispatchRecord>, r: DispatchRecord, kind: UnitKind)
    requires Active(r)
    ensures |ActiveOf(records + [r], kind)| <= |ActiveOf(records, kind)| + if r.dispatch.unit.kind == kind then 1 else 0
  {
    var added := if r.dispatch.unit.kind == kind then {|records|} else {};
    assert ActiveOf(records + [r], kind) <= ActiveOf(records, kind) + added;
    SubsetCount(ActiveOf(records + [r], kind), ActiveOf(records, kind) + added);
  }

  /** A selectable unit is disjoint from every unit that is active or completed. */
  lemma SelectableIsFree(run: Run, u: Unit, i: nat)
    requires LedgerSound(run) && Selectable(run, u) && i < |run.records| && Live(run.records[i])
    ensures run.records[i].dispatch.unit.members !! u.members
  {
    if !Active(run.records[i]) {
      var v := run.records[i].dispatch.unit;
      assert RecordSound(run.progress, run.records[i]);
      forall n | n in v.members
        ensures n !in u.members
      {
        if n in u.members {
          ProgressionSweeps.UnitIsFound(run.progress.graph, v, n);
          ProgressionSweeps.UnitIsFound(run.progress.graph, u, n);
        }
      }
    }
  }

  lemma ReserveKeeps(run: Run, nonce: string, u: Unit)
    requires LedgerSound(run) && Selectable(run, u) && !NonceUsed(run, nonce)
    ensures ReserveUnit(run, nonce, u).Success? && ReserveUnit(run, nonce, u).value.1.Some?
    ensures var d := ReserveUnit(run, nonce, u).value.1.value;
            && d.unit == u && d.nonce == nonce && d.reservedFrom == run.progress
            && d.reservedState == run.progress.epoch
            && ReserveUnit(run, nonce, u).value.0 == run.(records := run.records + [ReservedRecord(d)])
            && LedgerSound(run.(records := run.records + [ReservedRecord(d)]))
  {
    CaptureSucceeds(run.progress, u);
    var d := Dispatch(u, nonce, run.progress, run.progress.epoch, CaptureDependencies(run.progress, u).value);
    var next := run.(records := run.records + [ReservedRecord(d)]);
    assert RecordSound(run.progress, ReservedRecord(d));
    forall i | 0 <= i < |run.records| && Live(run.records[i])
      ensures run.records[i].dispatch.unit.members !! u.members
    {
      SelectableIsFree(run, u, i);
    }
    forall kind: UnitKind
      ensures |ActiveOf(next.records, kind)| <= Capacity(run.policy, kind)
    {
      AppendedCapacity(run.records, ReservedRecord(d), kind);
    }
    hide ActiveOf, RecordSound, ProgressSound, Covered, RecordsValid, OverlapsActive, CaptureDependencies;
    assert LedgerSound(next);
    SoundIsValid(next);
  }

  lemma ReserveNextKeeps(run: Run, nonce: string)
    requires LedgerSound(run)
    ensures ReserveNext(run, nonce).Failure? <==> NonceUsed(run, nonce)
    ensures ReserveNext(run, nonce).Failure? ==> ReserveNext(run, nonce).error == InvalidDispatch
    ensures ReserveNext(run, nonce).Success? ==> LedgerSound(ReserveNext(run, nonce).value.0)
  {
    hide LedgerSound, Selectable, ReserveUnit, NonceUsed;
    if !NonceUsed(run, nonce) && !Stopped(run) {
      var u := FirstSelectable(run, run.progress.graph.units);
      if u.Some? {
        ReserveKeeps(run, nonce, u.value);
      }
    }
  }

  lemma CurrentIsSound(run: Run, d: Dispatch, i: nat)
    requires LedgerSound(run) && i < |run.records| && run.records[i].dispatch == d && Active(run.records[i])
    ensures RequireCurrent(run, d) == Success(())
  {
    assert RecordSound(run.progress, run.records[i]);
  }

  lemma FailureShows(p: Progress, u: Unit)
    requires ProgressSound(p) && u in p.graph.units && u.primary in p.evidence && !p.evidence[u.primary].succeeded
    ensures HasFailed(p)
  {
    ProgressionSweeps.PrimaryInside(p.graph, u);
    ProgressionSweeps.UnitIsFound(p.graph, u, u.primary);
    assert Seed(p.graph, p.evidence, u.primary) == Failed;
  }

  /** Without a failure, satisfied predecessors completed successfully. */
  lemma NoFailureMeansSuccess(p: Progress, u: Unit)
    requires ProgressSound(p) && !HasFailed(p) && AllSatisfied(p.graph, p.evidence, u)
    ensures PredecessorsSucceeded(p, u)
  {
    forall n | n in ExternalPredecessors(p.graph, u)
      ensures n in p.graph.nodes && (p.graph.nodes[n] == Retain
        || exists v | v in p.graph.units ::
              n in v.members && v.primary in p.evidence && p.evidence[v.primary].succeeded)
    {
      var i :| 0 <= i < |p.graph.edges| && External(u, p.graph.edges[i]) && p.graph.edges[i].before == n;
      if p.graph.nodes[n] != Retain {
        SatisfiedHasEvidence(p, n);
        var v :| v in p.graph.units && n in v.members && v.primary in p.evidence;
        if !p.evidence[v.primary].succeeded {
          FailureShows(p, v);
        }
      }
    }
  }

  /** Start, release and observe change one active record and no evidence. */
  lemma SameProgressKeeps(run: Run, i: nat, r: DispatchRecord)
    requires LedgerSound(run) && i < |run.records| && Active(run.records[i]) && r.dispatch == run.records[i].dispatch
    requires Active(r) || r.state == Released
    requires ShapeValid(r) && Distinct(r.observations)
    requires Launched(r) ==> PredecessorsSucceeded(run.progress, r.dispatch.unit)
    ensures ReplaceRecord(run, i, r, run.progress) == Success(run.(records := run.records[i := r]))
    ensures LedgerSound(run.(records := run.records[i := r]))
  {
    assert RecordSound(run.progress, run.records[i]);
    assert RecordSound(run.progress, r);
    hide RecordSound, ReplaceRecord;
    ReplacedIsSound(run, i, r, run.progress);
  }

  lemma StartKeeps(run: Run, i: nat, session: Digest, effectAttempt: Option<string>)
    requires LedgerSound(run) && !Stopped(run) && i < |run.records| && run.records[i].state == Reserved
    requires run.records[i].dispatch.unit.kind == OperationUnit <==> effectAttempt.Some?
    ensures var r := StartedRecord(run.records[i].dispatch, session, effectAttempt);
            && ReplaceRecord(run, i, r, run.progress) == Success(run.(records := run.records[i := r]))
            && LedgerSound(run.(records := run.records[i := r]))
  {
    assert RecordSound(run.progress, run.records[i]);
    NoFailureMeansSuccess(run.progress, run.records[i].dispatch.unit);
    hide LedgerSound, ReplaceRecord, PredecessorsSucceeded;
    SameProgressKeeps(run, i, StartedRecord(run.records[i].dispatch, session, effectAttempt));
  }

  lemma StartWorkKeeps(run: Run, d: Dispatch, s: Session)
    requires LedgerSound(run)
    ensures Kept(StartWork(run, d, s))
  {
    hide LedgerSound, ReplaceRecord, RequireCurrent, Binds;
    var i := RequireRecord(run, d, Reserved);
    if !Stopped(run) && i.Success? {
      CurrentIsSound(run, d, i.value);
      if d.unit.kind != OperationUnit && Binds(d, s) {
        StartKeeps(run, i.value, s.identity, None);
      }
    }
  }

  lemma StartOperationKeeps(sha: Sha256, run: Run, d: Dispatch, s: Session, nonce: EffectJournal.Nonce)
    requires LedgerSound(run)
    ensures Kept(Apply(sha, run, StartingOperation(d, s, nonce)))
  {
    hide LedgerSound, ReplaceRecord, RequireCurrent, Binds, EffectJournal.Admit;
    var i := RequireRecord(run, d, Reserved);
    if !Stopped(run) && i.Success? {
      CurrentIsSound(run, d, i.value);
      var attempt := EffectJournal.Admit(sha, s.identity, |s.before|, |s.after|, nonce);
      if d.unit.kind == OperationUnit && Binds(d, s) && attempt.Success? {
        StartKeeps(run, i.value, s.identity, Some(attempt.value.attempt));
      }
    }
  }

  lemma ReleaseKeeps(run: Run, d: Dispatch)
    requires LedgerSound(run)
    ensures ReleaseUnstarted(run, d).Success? <==> RequireRecord(run, d, Reserved).Success?
    ensures Kept(ReleaseUnstarted(run, d))
  {
    hide LedgerSound, ReplaceRecord;
    var i := RequireRecord(run, d, Reserved);
    if i.Success? {
      SameProgressKeeps(run, i.value, ReleasedRecord(d));
    }
  }

  lemma ObserveKeeps(run: Run, i: nat, observation: string)
    requires LedgerSound(run) && i < |run.records| && run.records[i].state == Started
    requires run.records[i].dispatch.unit.kind == OperationUnit
    ensures Kept(ObserveUncertain(run, i, observation))
  {
    var r := run.records[i];
    assert RecordSound(run.progress, r);
    if observation !in r.observations {
      var next := DispatchRecord(r.dispatch, Started, r.session, r.effectAttempt, r.observations + [observation], None);
      hide LedgerSound, ReplaceRecord, PredecessorsSucceeded, CaptureDependencies;
      SameProgressKeeps(run, i, next);
    }
  }

  /** A completion retires its own unit and leaves every other active unit current. */
  lemma RetireKeeps(run: Run, i: nat, evidence: string, q: Progress)
    requires LedgerSound(run) && i < |run.records| && run.records[i].state == Started
    requires Adds(run.progress, q, run.records[i].dispatch.unit)
    requires CompletionSound(q, CompletedRecord(run.records[i], evidence))
    requires q.epoch != run.progress.epoch ==> run.records[i].dispatch.unit.kind == OperationUnit
    ensures var next := Run(q, run.policy, run.records[i := CompletedRecord(run.records[i], evidence)]);
            && ReplaceRecord(run, i, CompletedRecord(run.records[i], evidence), q) == Success(next)
            && LedgerSound(next)
  {
    var p, w := run.progress, run.records[i].dispatch.unit;
    var r := CompletedRecord(run.records[i], evidence);
    AddedIsSound(p, q, w);
    RetiredRecordIsSound(p, q, run.records[i], evidence);
    forall k | 0 <= k < |run.records| && k != i
      ensures RecordSound(q, run.records[k])
    {
      if Active(run.records[k]) {
        ActiveUnitsDiffer(run, i, k);
        if run.records[k].dispatch.unit.kind == OperationUnit && w.kind == OperationUnit {
          LaneIsSingle(run, i, k);
        }
      }
      OtherRecordStays(p, q, w, run.records[k]);
    }
    hide LedgerSound, RecordSound, Adds, ReplaceRecord;
    ReplacedIsSound(run, i, r, q);
  }

  lemma RetiredRecordIsSound(p: Progress, q: Progress, r: DispatchRecord, evidence: string)
    requires ProgressSound(p) && RecordSound(p, r) && r.state == Started && Adds(p, q, r.dispatch.unit)
    requires CompletionSound(q, CompletedRecord(r, evidence))
    ensures EdgesInside(q.graph) && RecordSound(q, CompletedRecord(r, evidence))
  {
    CaptureStays(p, q, r.dispatch.unit, r.dispatch.unit);
    SuccessStays(p, q, r.dispatch.unit, r.dispatch.unit);
    hide AllSatisfied, CaptureDependencies, PredecessorsSucceeded;
  }

  lemma ActiveUnitsDiffer(run: Run, i: nat, k: nat)
    requires LedgerSound(run) && i < |run.records| && k < |run.records| && i != k
    requires Live(run.records[i]) && Live(run.records[k])
    ensures run.records[i].dispatch.unit.primary != run.records[k].dispatch.unit.primary
  {
    assert RecordSound(run.progress, run.records[i]) && RecordSound(run.progress, run.records[k]);
    ProgressionSweeps.PrimaryInside(run.progress.graph, run.records[i].dispatch.unit);
    ProgressionSweeps.PrimaryInside(run.progress.graph, run.records[k].dispatch.unit);
    hide RecordSound, ProgressSound;
  }

  lemma WorkAdds(run: Run, i: nat, result: WorkResult)
    requires LedgerSound(run) && i < |run.records| && run.records[i].state == Started
    requires run.records[i].dispatch.unit.kind != OperationUnit && Binds(run.records[i].dispatch, result.session)
    requires run.records[i].session == Some(result.session.identity) && AdvanceWork(run.progress, result).Some?
    ensures var q := AdvanceWork(run.progress, result).value;
            && Adds(run.progress, q, run.records[i].dispatch.unit) && q.epoch == run.progress.epoch
            && CompletionSound(q, CompletedRecord(run.records[i], result.identity))
  {
    assert RecordSound(run.progress, run.records[i]);
  }

  lemma EffectAdds(run: Run, i: nat, result: EffectResult, resulting: Option<string>)
    requires LedgerSound(run) && i < |run.records| && run.records[i].state == Started
    requires run.records[i].dispatch.unit.kind == OperationUnit && Binds(run.records[i].dispatch, result.session)
    requires run.records[i].session == Some(result.session.identity)
    requires AdvanceEffect(run.progress, result, resulting).Some?
    ensures var q := AdvanceEffect(run.progress, result, resulting).value;
            && Adds(run.progress, q, run.records[i].dispatch.unit)
            && CompletionSound(q, CompletedRecord(run.records[i], result.identity))
  {
    assert RecordSound(run.progress, run.records[i]);
  }

  lemma CompleteWorkKeeps(run: Run, d: Dispatch, result: WorkResult)
    requires LedgerSound(run)
    ensures Kept(CompleteWork(run, d, result))
  {
    hide LedgerSound, ReplaceRecord, RequireCurrent, Binds, AdvanceWork;
    var i := RequireRecord(run, d, Started);
    if i.Success? {
      CurrentIsSound(run, d, i.value);
      if d.unit.kind != OperationUnit && Binds(d, result.session)
         && run.records[i.value].session == Some(result.session.identity) && AdvanceWork(run.progress, result).Some? {
        WorkAdds(run, i.value, result);
        RetireKeeps(run, i.value, result.identity, AdvanceWork(run.progress, result).value);
      }
    }
  }

  lemma SubmitOperationKeeps(run: Run, d: Dispatch, result: EffectResult, resulting: Option<string>)
    requires LedgerSound(run)
    ensures Kept(SubmitOperation(run, d, result, resulting))
  {
    hide LedgerSound, ReplaceRecord, RequireCurrent, Binds, AdvanceEffect, ObserveUncertain;
    var i := RequireRecord(run, d, Started);
    if i.Success? {
      CurrentIsSound(run, d, i.value);
      if d.unit.kind == OperationUnit && Binds(d, result.session)
         && run.records[i.value].session == Some(result.session.identity) {
        if !Terminates(result.outcome) {
          ObserveKeeps(run, i.value, result.identity);
        } else if AdvanceEffect(run.progress, result, resulting).Some? {
          EffectAdds(run, i.value, result, resulting);
          RetireKeeps(run, i.value, result.identity, AdvanceEffect(run.progress, result, resulting).value);
        }
      }
    }
  }

  // ---------------------------------------------------------------- every history

  lemma CommandKeeps(sha: Sha256, run: Run, c: Command)
    requires LedgerSound(run)
    ensures Kept(Apply(sha, run, c))
  {
    hide LedgerSound, StartWork, StartOperation, ReleaseUnstarted, CompleteWork, SubmitOperation, ReserveNext;
    match c
    case Reserve(nonce) => ReserveNextKeeps(run, nonce);
    case StartingWork(d, s) => StartWorkKeeps(run, d, s);
    case StartingOperation(d, s, nonce) => StartOperationKeeps(sha, run, d, s, nonce);
    case Releasing(d) => ReleaseKeeps(run, d);
    case CompletingWork(d, result) => CompleteWorkKeeps(run, d, result);
    case Submitting(d, result, resulting) => SubmitOperationKeeps(run, d, result, resulting);
  }

  lemma BeginIsSound(p: Progress, policy: Policy)
    requires ProgressSound(p)
    ensures BeginRun(p, policy) == Success(Run(p, policy, [])) && LedgerSound(Run(p, policy, []))
  {
    forall kind: UnitKind
      ensures ActiveOf([], kind) == {}
    {}
    SoundIsValid(Run(p, policy, []));
  }

  lemma {:induction false} HistoryIsSound(sha: Sha256, run: Run, commands: seq<Command>)
    requires LedgerSound(run)
    ensures LedgerSound(History(sha, run, commands))
    decreases |commands|
  {
    hide LedgerSound;
    if commands != [] {
      CommandKeeps(sha, run, commands[0]);
      HistoryIsSound(sha, After(sha, run, commands[0]), commands[1..]);
    }
  }

  /** In every history of a run, no command finds the ledger invalid, and the run restores as it is. */
  lemma LedgerSoundness(sha: Sha256, p: Progress, policy: Policy, commands: seq<Command>, c: Command)
    requires ProgressSound(p)
    ensures var run := History(sha, Run(p, policy, []), commands);
            && Apply(sha, run, c) != Failure(InvalidRun)
            && Restore(run.progress, run.policy, run.records) == Success(run)
  {
    BeginIsSound(p, policy);
    HistoryIsSound(sha, Run(p, policy, []), commands);
    CommandKeeps(sha, History(sha, Run(p, policy, []), commands), c);
    SoundIsRestored(History(sha, Run(p, policy, []), commands));
  }
}
