/**
  The validators of the run journal as they are written, with their loops over the records, and what
  the store's check alone keeps along a chain of snapshots.
 */
module RunJournalChecks {
  import opened Wrappers
  import opened Progression
  import opened Dispatch
  import opened Sequences
  import opened RunJournal
  import opened DispatchChecks

  // ---------------------------------------------------------------- the shape of a snapshot

  method CountTransitions(records: seq<DispatchRecord>) returns (count: nat)
    ensures count == RetainedTransitions(records)
  {
    count := 0;
    for i := 0 to |records|
      invariant count == RetainedTransitions(records[..i])
    {
      assert records[..i + 1][..i] == records[..i];
      count := count + 1;
      match records[i].state {
        case Reserved =>
        case Started => count := count + 1 + |records[i].observations|;
        case Completed => count := count + 2 + |records[i].observations|;
        case Released => count := count + 1;
      }
    }
    assert records[..|records|] == records;
  }

  /** The counts of one record, and that it repeats no earlier nonce or dispatch. */
  predicate Bounded(records: seq<DispatchRecord>, i: nat)
    requires i < |records|
  {
    && 0 < |records[i].dispatch.unit.members| <= 65536
    && |records[i].dispatch.dependencies| <= 65536 && |records[i].observations| <= 65536
    && Distinct(records[i].observations)
    && forall k | 0 <= k < i ::
         records[k].dispatch.nonce != records[i].dispatch.nonce && records[k].dispatch != records[i].dispatch
  }

  method ScanBounds(records: seq<DispatchRecord>) returns (ok: bool, active: seq<nat>)
    ensures ok <==> forall i | 0 <= i < |records| :: Bounded(records, i)
    ensures ok ==> ListsActive(records, active)
  {
    hide Distinct;
    var nonces: set<string> := {};
    var dispatches: set<Dispatch> := {};
    active := [];
    for i := 0 to |records|
      invariant forall k | 0 <= k < i :: Bounded(records, k)
      invariant forall n :: n in nonces <==> exists k | 0 <= k < i :: records[k].dispatch.nonce == n
      invariant forall d :: d in dispatches <==> exists k | 0 <= k < i :: records[k].dispatch == d
      invariant forall k | 0 <= k < |active| :: active[k] < i && Active(records[active[k]])
      invariant forall k | 0 <= k < i && Active(records[k]) :: k in active
      invariant forall k, l | 0 <= k < l < |active| :: active[k] < active[l]
    {
      var d := records[i].dispatch;
      var distinct := RepeatsNothing(records[i].observations);
      if d.unit.members == {} || |d.unit.members| > 65536 || |d.dependencies| > 65536
         || |records[i].observations| > 65536 || d.nonce in nonces || d in dispatches || !distinct {
        assert !Bounded(records, i);
        return false, active;
      }
      nonces, dispatches := nonces + {d.nonce}, dispatches + {d};
      if records[i].state == Reserved || records[i].state == Started {
        active := active + [i];
      }
    }
    return true, active;
  }

  lemma BoundsMean(records: seq<DispatchRecord>)
    requires |records| <= MAXIMUM_COUNT
    ensures (forall i | 0 <= i < |records| :: Bounded(records, i))
            <==> WithinBounds(records)
                 && (forall i, j | 0 <= i < j < |records| ::
                       records[i].dispatch.nonce != records[j].dispatch.nonce
                       && records[i].dispatch != records[j].dispatch)
                 && (forall i | 0 <= i < |records| :: Distinct(records[i].observations))
  {
    hide Distinct;
    if forall i | 0 <= i < |records| :: Bounded(records, i) {
      forall i | 0 <= i < |records|
        ensures 0 < |records[i].dispatch.unit.members| <= MAXIMUM_COUNT
        ensures |records[i].dispatch.dependencies| <= MAXIMUM_COUNT && |records[i].observations| <= MAXIMUM_COUNT
      {
        assert Bounded(records, i);
      }
      forall i, j | 0 <= i < j < |records|
        ensures records[i].dispatch.nonce != records[j].dispatch.nonce && records[i].dispatch != records[j].dispatch
      {
        assert Bounded(records, j);
      }
      forall i | 0 <= i < |records|
        ensures Distinct(records[i].observations)
      {
        assert Bounded(records, i);
      }
    }
  }

  method ValidateBounds(policy: Policy, records: seq<DispatchRecord>) returns (valid: bool)
    ensures valid <==> BoundsValid(policy, records)
  {
    hide ActiveOf, Capacity, Bounded, Distinct, Active;
    if |records| > 65536 {
      return false;
    }
    BoundsMean(records);
    var scanned, active := ScanBounds(records);
    if !scanned {
      return false;
    }
    ListedOverlap(records, active);
    var overlap := ActiveOverlap(records, active);
    if overlap {
      return false;
    }
    valid := WithinCapacities(policy, records);
  }

  /** The check of a snapshot that is read back. */
  method ValidateShape(s: Snapshot) returns (valid: bool)
    ensures valid <==> ShapeAccepts(s)
  {
    hide BoundsValid, RetainedTransitions;
    if (s.sequence == 0) != s.previous.None? {
      return false;
    }
    if (s.sequence == 0 && s.run.records != []) || (s.sequence != 0 && s.run.records == []) {
      return false;
    }
    if |s.run.records| > s.sequence {
      return false;
    }
    var count := CountTransitions(s.run.records);
    if s.sequence != count || (s.complete && s.failed) || s.stopped != s.failed {
      return false;
    }
    valid := ValidateBounds(s.run.policy, s.run.records);
  }

  // ---------------------------------------------------------------- one transition

  /** Observations may grow by exactly one. */
  method OneMore(previous: seq<string>, next: seq<string>) returns (one: bool)
    ensures one <==> |next| == |previous| + 1 && next[..|previous|] == previous
  {
    if |next| != |previous| + 1 {
      return false;
    }
    for i := 0 to |previous|
      invariant next[..i] == previous[..i]
    {
      if next[i] != previous[i] {
        assert next[..|previous|][i] != previous[i];
        return false;
      }
    }
    return true;
  }

  method ValidateRecordChange(r: DispatchRecord, n: DispatchRecord, progressed: bool) returns (valid: bool)
    ensures valid <==> RecordChanges(r, n, progressed)
  {
    if r.dispatch != n.dispatch {
      return false;
    }
    match r.state {
      case Reserved =>
        if n.state == Started {
          return !(progressed || n.session.None? || n.observations != [] || n.terminal.Some?);
        }
        if n.state == Released {
          return !(progressed || n.session.Some? || n.observations != [] || n.terminal.Some?);
        }
        return false;
      case Started =>
        if n.state == Started {
          var one := OneMore(r.observations, n.observations);
          return !(progressed || n.session != r.session || n.effectAttempt != r.effectAttempt || n.terminal.Some?
                   || !one);
        }
        if n.state == Completed {
          return !(!progressed || n.session != r.session || n.effectAttempt != r.effectAttempt
                   || n.observations != r.observations || n.terminal.None?);
        }
        return false;
      case Completed => return false;
      case Released => return false;
    }
  }

  /** Where two histories of one length differ; none if they are equal or differ twice. */
  method ChangedIndex(before: seq<DispatchRecord>, after: seq<DispatchRecord>) returns (changed: Option<nat>)
    requires |before| == |after|
    ensures changed.Some? ==>
              && changed.value < |before| && after[changed.value] != before[changed.value]
              && after == before[changed.value := after[changed.value]]
    ensures changed.None? ==>
              forall i | 0 <= i < |before| && after[i] != before[i] :: after != before[i := after[i]]
  {
    changed := None;
    for i := 0 to |before|
      invariant changed.None? ==> before[..i] == after[..i]
      invariant changed.Some? ==>
          && changed.value < i && after[changed.value] != before[changed.value]
          && forall k | 0 <= k < i && k != changed.value :: before[k] == after[k]
    {
      if before[i] != after[i] {
        if changed.Some? {
          assert forall k | 0 <= k < |before| :: after != before[k := after[k]] by {
            forall k | 0 <= k < |before|
              ensures after != before[k := after[k]]
            {
              assert before[k := after[k]][i] == after[i] ==> k == i;
              assert before[k := after[k]][changed.value] == after[changed.value] ==> k == changed.value;
            }
          }
          return None;
        }
        changed := Some(i);
      }
    }
  }

  /** One reservation more, or one record changed as its state allows. */
  predicate OneTransition(run: Run, next: Run) {
    Appends(run, next) || (|next.records| == |run.records|
                           && exists i | 0 <= i < |run.records| :: ChangesAt(run, next, i))
  }

  method ValidateTransition(run: Run, next: Run) returns (valid: bool, changed: Option<nat>)
    ensures valid <==> OneTransition(run, next)
    ensures changed.Some? ==> changed.value < |run.records|
    ensures valid && changed.Some? ==> ChangesAt(run, next, changed.value)
    ensures valid && changed.None? ==> Appends(run, next)
  {
    hide RecordChanges;
    var progressed := next.progress != run.progress;
    if |next.records| == |run.records| + 1 {
      var last := next.records[|run.records|];
      valid := !progressed && next.records[..|run.records|] == run.records && last.state == Reserved
               && last.dispatch.reservedFrom == run.progress && last.dispatch.reservedState == run.progress.epoch;
      return valid, None;
    }
    if |next.records| != |run.records| {
      return false, None;
    }
    changed := ChangedIndex(run.records, next.records);
    if changed.None? {
      return false, None;
    }
    valid := ValidateRecordChange(run.records[changed.value], next.records[changed.value], progressed);
    OnlyChange(run, next, changed.value);
    assert valid <==> ChangesAt(run, next, changed.value);
  }

  /** Two histories differ at one place at most. */
  lemma OnlyChange(run: Run, next: Run, i: nat)
    requires i < |run.records| == |next.records| && next.records == run.records[i := next.records[i]]
    requires next.records[i] != run.records[i]
    ensures forall k | 0 <= k < |run.records| && ChangesAt(run, next, k) :: k == i
  {
    hide RecordChanges;
  }

  /** What the store checks of a successor before it replaces the head. */
  method ValidateDurableSuccessor(s: Snapshot, n: Snapshot) returns (valid: bool)
    ensures valid <==> DurablySucceeds(s, n)
  {
    hide RecordChanges, Appends;
    if n.sequence != s.sequence + 1 || n.previous != Some(s) || n.journal != s.journal {
      return false;
    }
    if n.run.progress.graph != s.run.progress.graph || n.run.policy != s.run.policy || n.run == s.run {
      return false;
    }
    var one, changed := ValidateTransition(s.run, n.run);
    if !one {
      return false;
    }
    if n.run.progress == s.run.progress {
      return n.complete == s.complete && n.failed == s.failed && n.stopped == s.stopped;
    }
    if changed.Some? {
      OnlyChange(s.run, n.run, changed.value);
    } else {
      AppendsNothingElse(s.run, n.run);
    }
    if n.run.progress.epoch != s.run.progress.epoch {
      return changed.Some? && n.run.records[changed.value].state == Completed
             && n.run.records[changed.value].dispatch.unit.kind == OperationUnit;
    }
    return true;
  }

  lemma AppendsNothingElse(run: Run, next: Run)
    requires Appends(run, next)
    ensures next.progress == run.progress
  {}

  // ---------------------------------------------------------------- reopening

  /** Reopen a snapshot: compare what was rehydrated, restore the run, and compare once more. */
  method ReopenSnapshot(s: Snapshot, p: Progress) returns (r: Result<Run, RunJournalError>)
    ensures r == Reopen(s, p)
  {
    hide Restore, Complete, HasFailed;
    if p != s.run.progress || Complete(p) != s.complete || HasFailed(p) != s.failed {
      return Failure(InvalidRecord);
    }
    var restored := RestoreRun(p, s.run.policy, s.run.records);
    if restored.Failure? || HasFailed(p) != s.stopped {
      RestoredProgress(p, s.run.policy, s.run.records);
      return Failure(InvalidRecord);
    }
    RestoredProgress(p, s.run.policy, s.run.records);
    return Success(restored.value);
  }

  lemma RestoredProgress(p: Progress, policy: Policy, records: seq<DispatchRecord>)
    ensures Restore(p, policy, records).Success? ==> Restore(p, policy, records).value == Run(p, policy, records)
  {
    hide RecordsValid, HistoryValid;
  }

  // ---------------------------------------------------------------- what a chain of snapshots keeps

  /** `n` is `s`, or a later snapshot that the store admitted one transition at a time. */
  predicate Descends(n: Snapshot, s: Snapshot)
    decreases n
  {
    n == s || (n.previous.Some? && DurablySucceeds(n.previous.value, n) && Descends(n.previous.value, s))
  }

  /** What may have become of a record: its dispatch is fixed, and what it has learnt stays. */
  predicate Later(r: DispatchRecord, n: DispatchRecord) {
    && n.dispatch == r.dispatch
    && match r.state
       case Reserved => true
       case Started =>
         && (n.state == Started || n.state == Completed) && n.session == r.session
         && n.effectAttempt == r.effectAttempt && r.observations <= n.observations
       case Completed => n == r
       case Released => n == r
  }

  lemma LaterIsTransitive(r: DispatchRecord, m: DispatchRecord, n: DispatchRecord)
    requires Later(r, m) && Later(m, n)
    ensures Later(r, n)
  {}

  lemma ChangeIsLater(r: DispatchRecord, n: DispatchRecord, progressed: bool)
    requires RecordChanges(r, n, progressed)
    ensures Later(r, n)
  {
    if r.state == Started && n.state == Started {
      assert r.observations <= n.observations;
    }
  }

  /** An operation that had not completed in the earlier history has completed in the later one. */
  predicate OperationCompleted(earlier: seq<DispatchRecord>, later: seq<DispatchRecord>) {
    exists i | 0 <= i < |later| ::
      && later[i].state == Completed && later[i].dispatch.unit.kind == OperationUnit
      && (i < |earlier| ==> earlier[i].state != Completed)
  }

  lemma OneSuccessorKeeps(s: Snapshot, n: Snapshot)
    requires DurablySucceeds(s, n)
    ensures |s.run.records| <= |n.run.records|
    ensures forall i | 0 <= i < |s.run.records| :: Later(s.run.records[i], n.run.records[i])
    ensures n.run.policy == s.run.policy && n.run.progress.graph == s.run.progress.graph
    ensures n.run.progress.epoch != s.run.progress.epoch ==> OperationCompleted(s.run.records, n.run.records)
  {
    hide RecordChanges, Later;
    if Appends(s.run, n.run) {
      forall i | 0 <= i < |s.run.records|
        ensures Later(s.run.records[i], n.run.records[i])
      {
        assert n.run.records[..|s.run.records|][i] == n.run.records[i];
        SameIsLater(s.run.records[i]);
      }
    } else {
      var k :| 0 <= k < |s.run.records| && ChangesAt(s.run, n.run, k);
      ChangeIsLater(s.run.records[k], n.run.records[k], n.run.progress != s.run.progress);
      forall i | 0 <= i < |s.run.records|
        ensures Later(s.run.records[i], n.run.records[i])
      {
        SameIsLater(s.run.records[i]);
      }
      if n.run.progress.epoch != s.run.progress.epoch {
        CompletionIsNew(s.run.records[k], n.run.records[k], n.run.progress != s.run.progress);
        OnlyChange(s.run, n.run, k);
      }
    }
  }

  lemma SameIsLater(r: DispatchRecord)
    ensures Later(r, r)
  {}

  lemma CompletionIsNew(r: DispatchRecord, n: DispatchRecord, progressed: bool)
    requires RecordChanges(r, n, progressed)
    ensures r.state != Completed
  {}

  /**
    Whatever wrote them, the snapshots that the store admits only add to the history: no record disappears
    or forgets, and the state epoch moves only with an operation that completes.
   */
  lemma {:induction false} JournalOnlyAdds(n: Snapshot, s: Snapshot)
    requires Descends(n, s)
    ensures |s.run.records| <= |n.run.records|
    ensures forall i | 0 <= i < |s.run.records| :: Later(s.run.records[i], n.run.records[i])
    ensures n.run.policy == s.run.policy && n.run.progress.graph == s.run.progress.graph
    ensures n.journal == s.journal && n.sequence >= s.sequence
    ensures n.run.progress.epoch != s.run.progress.epoch ==> OperationCompleted(s.run.records, n.run.records)
    decreases n
  {
    hide Later, Transits, DurablySucceeds;
    if n == s {
      forall i | 0 <= i < |s.run.records|
        ensures Later(s.run.records[i], s.run.records[i])
      {
        SameIsLater(s.run.records[i]);
      }
    } else {
      var m := n.previous.value;
      JournalOnlyAdds(m, s);
      OneSuccessorKeeps(m, n);
      SuccessorIsNext(m, n);
      forall i | 0 <= i < |s.run.records|
        ensures Later(s.run.records[i], n.run.records[i])
      {
        LaterIsTransitive(s.run.records[i], m.run.records[i], n.run.records[i]);
      }
      CompletedStays(s.run.records, m.run.records, n.run.records);
    }
  }

  lemma SuccessorIsNext(s: Snapshot, n: Snapshot)
    requires DurablySucceeds(s, n)
    ensures n.journal == s.journal && n.sequence == s.sequence + 1
  {
    hide Transits;
  }

  lemma CompletedStays(a: seq<DispatchRecord>, b: seq<DispatchRecord>, c: seq<DispatchRecord>)
    requires |a| <= |b| <= |c|
    requires forall i | 0 <= i < |a| :: Later(a[i], b[i])
    requires forall i | 0 <= i < |b| :: Later(b[i], c[i])
    ensures OperationCompleted(a, b) ==> OperationCompleted(a, c)
    ensures OperationCompleted(b, c) ==> OperationCompleted(a, c)
  {
    if OperationCompleted(a, b) {
      var i :| 0 <= i < |b| && b[i].state == Completed && b[i].dispatch.unit.kind == OperationUnit
               && (i < |a| ==> a[i].state != Completed);
      assert Later(b[i], c[i]);
      assert c[i].state == Completed;
    }
    if OperationCompleted(b, c) {
      var i :| 0 <= i < |c| && c[i].state == Completed && c[i].dispatch.unit.kind == OperationUnit
               && (i < |b| ==> b[i].state != Completed);
      assert i < |a| ==> Later(a[i], b[i]);
      assert i < |a| ==> a[i].state != Completed;
    }
  }
}
