/**
  The executors themselves: loops over the lifecycle sessions that append records and
  call the driver.  `budget` counts the actions that a controller still performs before it
  is killed, and `renamed` says whether a kill hits the append that is next between the rename
  of the head and the last sync: a statement about all of them is one about a kill anywhere.
 */
module EffectExecutor {
  import opened Wrappers
  import opened Identity
  import opened EffectJournal
  import opened EffectProtocol
  import opened EffectStorage
  import opened EffectTransparency

  /** The record that an accepted transition appends, field by field. */
  lemma AppliedRecord(sha: Sha256, r: Record, t: Transition, n: Record)
    requires Apply(sha, r, t) == Success(n)
    ensures Shape(n) && n.sequence == r.sequence + 1 && n.stage == Draft(r, t).stage
    ensures n.before == Draft(r, t).before && n.application == Draft(r, t).application
    ensures n.after == Draft(r, t).after && n.terminalOutcome == Draft(r, t).terminalOutcome
    ensures n.publicationRequest == Draft(r, t).publicationRequest && n.publication == Draft(r, t).publication
  {
    hide RecordIdentity, Shape, SuccessorAccepts, May, Draft;
  }

  /** A restart returns no operation where it needs external resolution. */
  function OperationOf(report: Option<Report>): Option<Report> {
    if report.Some? && report.value.Report? && report.value.outcome == ApplicationResolutionRequired then None
    else report
  }

  function Prefixed(calls: seq<Event>, rest: Plain): Plain {
    Plain(calls + rest.calls, rest.report)
  }

  lemma PrefixedCall(calls: seq<Event>, e: Event, rest: Plain)
    ensures Prefixed(calls, Called(e, rest)) == Prefixed(calls + [e], rest)
  {
    assert calls + ([e] + rest.calls) == calls + [e] + rest.calls;
  }

  /** The executor without a journal. */
  method ExecutePlain(cfg: Config, d: Driver, canonical: string) returns (calls: seq<Event>, report: Report)
    ensures Plain(calls, report) == PlainBefore(cfg, d, canonical, [])
  {
    hide PlainPublication;
    ghost var all := PlainBefore(cfg, d, canonical, []);
    calls := [];
    var before: seq<LifecycleFact> := [];
    while |before| < cfg.beforeTotal
      invariant all == Prefixed(calls, PlainBefore(cfg, d, canonical, before))
      decreases cfg.beforeTotal - |before|
    {
      if !d.held(2 * |before|) {
        return calls, Report(OuterLeaseLost, before, None, [], None, None, None);
      }
      var e := Executed(BeforeSide, |before|);
      var result := d.lifecycle(BeforeSide, |before|);
      PrefixedCall(calls, e, Plain(PlainBefore(cfg, d, canonical, before).calls[1..],
                                   PlainBefore(cfg, d, canonical, before).report));
      calls := calls + [e];
      if result.None? {
        return calls, Refusal;
      }
      before := before + [result.value];
      if !result.value.succeeded {
        return calls, Report(LifecycleFailedBeforeApplication, before, None, [], None, None, None);
      }
    }
    if !d.held(2 * cfg.beforeTotal) {
      return calls, Report(OuterLeaseLost, before, None, [], None, None, None);
    }
    PrefixedCall(calls, AppliedApplication, Plain(PlainApplication(cfg, d, canonical, before).calls[1..],
                                                  PlainApplication(cfg, d, canonical, before).report));
    calls := calls + [AppliedApplication];
    if !AcceptableReceipt(d.apply) {
      return calls, Refusal;
    }
    var application := d.apply.value;
    if application.outcome != ApplicationCompleted {
      return calls, Report(if Classify(application.outcome) == DefinitiveFailure then ApplicationNotCompleted
                           else ApplicationResolutionRequired,
                           before, Some(application), [], None, None, None);
    }
    var after: seq<LifecycleFact> := [];
    while |after| < cfg.afterTotal
      invariant all == Prefixed(calls, PlainAfter(cfg, d, canonical, before, application, after))
      decreases cfg.afterTotal - |after|
    {
      if !d.held(2 * cfg.beforeTotal + 2 + 2 * |after|) {
        return calls, Report(OuterLeaseLost, before, Some(application), after, None, None, None);
      }
      var e := Executed(AfterSide, |after|);
      var result := d.lifecycle(AfterSide, |after|);
      ghost var plain := PlainAfter(cfg, d, canonical, before, application, after);
      PrefixedCall(calls, e, Plain(plain.calls[1..], plain.report));
      calls := calls + [e];
      if result.None? {
        return calls, Refusal;
      }
      after := after + [result.value];
      if !result.value.succeeded {
        return calls, Report(LifecycleFailedAfterApplication, before, Some(application), after, None, None, None);
      }
    }
    var last;
    last, report := PublishPlain(cfg, d, canonical, before, application, after);
    calls := calls + last;
  }

  method PublishPlain(cfg: Config, d: Driver, canonical: string, before: seq<LifecycleFact>,
                      application: ApplicationFact, after: seq<LifecycleFact>)
    returns (calls: seq<Event>, report: Report)
    ensures Plain(calls, report) == PlainPublication(cfg, d, canonical, before, application, after)
  {
    var sequence := 2 * cfg.beforeTotal + 2 * cfg.afterTotal + 2;
    if !d.held(sequence) {
      return [], Report(OuterLeaseLost, before, Some(application), after, None, None, None);
    }
    var completed := OrEmpty(application.completedEvidence);
    var transaction := TransactionEvidence(cfg, before, completed, after);
    var request := cfg.project(completed, transaction);
    var answer := d.publish(request, canonical);
    var fact := answer.receipt.fact;
    calls := [PublishedState(request, answer.moved)];
    if answer.receipt.request != request {
      return calls, Refusal;
    }
    var outcome := OuterLeaseLost;
    if d.held(sequence + 2) {
      outcome := PublicationResult(fact.outcome);
    }
    return calls, Report(outcome, before, Some(application), after, Some(transaction), Some(request), Some(fact));
  }

  class Controller {
    const cfg: Config
    const driver: Driver
    const renamed: bool
    var storage: Storage
    var budget: nat

    constructor (cfg: Config, driver: Driver, storage: Storage, budget: nat, renamed: bool)
      ensures this.cfg == cfg && this.driver == driver && this.renamed == renamed
      ensures this.storage == storage && this.budget == budget
    {
      this.cfg, this.driver, this.storage, this.budget, this.renamed := cfg, driver, storage, budget, renamed;
    }

    /** Where the process ends, or is killed, if it goes on from here. */
    ghost function End(p: Process): Standing
      requires Valid(cfg)
      reads this
    {
      EndOf(cfg, driver, Standing(storage, p), budget, renamed)
    }

    /** Perform one action, unless the kill comes first; a kill inside an append leaves its record live. */
    method Perform(ghost p: Process, events: seq<Event>, ghost q: Process) returns (alive: bool)
      requires Valid(cfg) && !p.pc.Stopped? && Advance(cfg, driver, storage.disk.canonical, p) == Move(events, q)
      modifies this
      ensures alive ==> End(q) == old(End(p)) && storage == LoggedAll(cfg, old(storage), events)
      ensures !alive ==> old(End(p)) == Standing(storage, p)
      ensures events == [] ==> storage == old(storage)
    {
      hide Advance;
      if budget == 0 {
        if renamed && |events| == 1 && events[0].Appended? {
          storage := Renamed(storage, events[0].record);
        }
        return false;
      }
      storage := LoggedAll(cfg, storage, events);
      budget := budget - 1;
      return true;
    }

    /** Append the record of a transition; a refused transition stops the process. */
    method Append(ghost p: Process, t: Transition, journal: Record) returns (next: Option<Record>, ghost q: Process)
      requires Valid(cfg) && p == Process(journal, Appending(t), p.reconciling)
      modifies this
      ensures next.Some? ==>
                && Apply(cfg.sha, journal, t) == Success(next.value) && Shape(next.value)
                && q == Process(next.value, Continue(cfg, driver, next.value, p.reconciling), p.reconciling)
                && End(q) == old(End(p)) && storage.disk.canonical == old(storage.disk.canonical)
      ensures next.None? ==> old(End(p)).storage == storage
                             && (old(End(p)).process == p || old(End(p)).process.pc == Stopped(Refused))
    {
      hide Apply, Continue;
      q := p;
      match Apply(cfg.sha, journal, t)
      case Failure(_) =>
        var _ := Perform(p, [], p.(pc := Stopped(Refused)));
        next := None;
      case Success(r) =>
        ShapeOfApplied(cfg.sha, journal, t, r);
        var alive := Perform(p, [Appended(r)], Process(r, Continue(cfg, driver, r, p.reconciling), p.reconciling));
        if alive {
          LoggedOne(cfg, old(storage), Appended(r));
          next, q := Some(r), Process(r, Continue(cfg, driver, r, p.reconciling), p.reconciling);
        } else {
          next := None;
        }
    }

    /** Retain the body, if there is a sink, and append the record that names it. */
    method DeliverEvidence(ghost p: Process, t: Transition, journal: Record)
      returns (next: Option<Record>, ghost q: Process)
      requires Valid(cfg) && p == Process(journal, Deliver(cfg, t), p.reconciling) && BodyOf(t).Some?
      modifies this
      ensures next.Some? ==>
                && Apply(cfg.sha, journal, t) == Success(next.value) && Shape(next.value)
                && q == Process(next.value, Continue(cfg, driver, next.value, p.reconciling), p.reconciling)
                && End(q) == old(End(p)) && storage.disk.canonical == old(storage.disk.canonical)
      ensures next.None? ==> old(End(p)).storage == storage
                             && (!old(End(p)).process.pc.Stopped? || old(End(p)).process.pc == Stopped(Refused))
    {
      hide Apply, Continue;
      q := p;
      if cfg.keepBodies {
        var e := Retained(BodyOf(t).value);
        var alive := Perform(p, [e], p.(pc := Appending(t)));
        if !alive {
          return None, q;
        }
        LoggedOne(cfg, old(storage), e);
        q := p.(pc := Appending(t));
      }
      next, q := Append(q, t, journal);
    }

    /** Seal the attempt and report its outcome. */
    method Seal(ghost p: Process, journal: Record, outcome: OperationOutcome, reconciled: Option<string>)
      returns (report: Option<Report>)
      requires Valid(cfg) && p == Process(journal, Appending(SealTerminal(outcome, reconciled)), p.reconciling)
      modifies this
      ensures storage == old(End(p)).storage && report == Returned(old(End(p)).process)
    {
      hide Apply, Continue;
      var t := SealTerminal(outcome, reconciled);
      var next, q := Append(p, t, journal);
      if next.None? {
        return None;
      }
      AppliedRecord(cfg.sha, journal, t, next.value);
      TerminalStops(cfg, driver, next.value, p.reconciling);
      return Some(ReportWith(next.value, outcome));
    }

    /** One lifecycle session between its two records. */
    method LifecycleEffect(ghost p: Process, t: Transition, journal: Record)
      returns (next: Option<Record>, report: Option<Report>, ghost q: Process)
      requires Valid(cfg) && p == Process(journal, Appending(t), false) && IsLifecycleBegin(t)
      requires t.index == if t.BeginBefore? then |journal.before| else |journal.after|
      modifies this
      ensures next.Some? ==>
                && Shape(next.value) && q == Process(next.value, Continue(cfg, driver, next.value, false), false)
                && next.value.stage == (if t.BeginBefore? then BeforeTerminal else AfterTerminal)
                && |next.value.before| == |journal.before| + (if t.BeginBefore? then 1 else 0)
                && |next.value.after| == |journal.after| + (if t.BeginBefore? then 0 else 1)
                && End(q) == old(End(p)) && storage.disk.canonical == old(storage.disk.canonical)
      ensures next.None? ==> storage == old(End(p)).storage && report == Returned(old(End(p)).process)
    {
      hide Apply, Continue, Advance, Draft, Shape;
      report := None;
      next, q := Append(p, t, journal);
      if next.None? {
        return None, None, q;
      }
      var intent := next.value;
      AppliedRecord(cfg.sha, journal, t, intent);
      LifecycleDraft(journal, t);
      LifecycleMove(cfg, driver, storage.disk.canonical, intent, t);
      var answer := driver.lifecycle(SideOf(t), t.index);
      var e := Executed(SideOf(t), t.index);
      ghost var before := storage;
      ghost var called := Process(intent, if answer.None? then Stopped(Violation)
                                          else Deliver(cfg, Completion(t, answer.value)), false);
      var alive := Perform(q, [e], called);
      if !alive {
        return None, None, q;
      }
      LoggedOne(cfg, before, e);
      q := called;
      if answer.None? {
        return None, Some(Refusal), q;
      }
      next, q := DeliverEvidence(q, Completion(t, answer.value), intent);
      if next.None? {
        return None, None, q;
      }
      AppliedRecord(cfg.sha, intent, Completion(t, answer.value), next.value);
      CompletionDraft(intent, t, answer.value);
    }

    /** The application between its two records, by `apply` or, after a crash, by `resume`. */
    method ApplicationEffect(ghost p: Process, intent: Record, resuming: bool)
      returns (next: Option<Record>, report: Option<Report>, ghost q: Process)
      requires Valid(cfg) && Shape(intent) && intent.stage == ApplicationIntent
      requires p == Process(intent, if resuming then Resuming else Calling, false)
      modifies this
      ensures next.Some? ==>
                && Shape(next.value) && q == Process(next.value, Continue(cfg, driver, next.value, false), false)
                && next.value.stage == ApplicationTerminal
                && End(q) == old(End(p)) && storage.disk.canonical == old(storage.disk.canonical)
      ensures next.None? ==> storage == old(End(p)).storage && report == Returned(old(End(p)).process)
    {
      hide Apply, Continue, Advance, Draft, Shape;
      next, report, q := None, None, p;
      ReceiptMove(cfg, driver, storage.disk.canonical, intent, resuming);
      var answer := if resuming then driver.resume else driver.apply;
      var e := if resuming then ResumedApplication else AppliedApplication;
      ghost var called := Process(intent, if !AcceptableReceipt(answer) then Stopped(Violation)
                                          else Deliver(cfg, CompleteApplication(answer.value)), false);
      ghost var before := storage;
      var alive := Perform(p, [e], called);
      if !alive {
        return;
      }
      LoggedOne(cfg, before, e);
      q := called;
      if !AcceptableReceipt(answer) {
        report := Some(Refusal);
        return;
      }
      next, q := DeliverEvidence(q, CompleteApplication(answer.value), intent);
      if next.Some? {
        AppliedRecord(cfg.sha, intent, CompleteApplication(answer.value), next.value);
        ReceiptDraft(intent, answer.value);
      }
    }

    /** After the application's receipt: seal a failure, or say that the rest may go on. */
    method JudgeApplication(ghost p: Process, journal: Record) returns (done: bool, report: Option<Report>)
      requires Valid(cfg) && Shape(journal) && journal.stage == ApplicationTerminal
      requires p == Process(journal, Continue(cfg, driver, journal, false), false)
      modifies this
      ensures done ==> storage == old(End(p)).storage && report == Returned(old(End(p)).process)
      ensures !done ==> storage == old(storage) && budget == old(budget) && IsApplicationComplete(journal)
                        && p.pc == Decide(cfg, driver, journal)
    {
      hide Decide, IdentityShape, CausalShape, RetainedTransitionCount;
      match Classify(journal.application.value.outcome)
      case CompletedApplication => return false, None;
      case DefinitiveFailure =>
        report := Seal(p, journal, ApplicationNotCompleted, None);
        return true, report;
      case ExternalResolution => return true, Some(ReportWith(journal, ApplicationResolutionRequired));
    }

    /** From the publication call to the end. */
    method PublicationEffect(ghost p: Process, intent: Record, reconciling: bool) returns (report: Option<Report>)
      requires Valid(cfg) && Shape(intent) && intent.stage == PublicationIntent
      requires p == Process(intent, if reconciling then Republishing else Calling, reconciling)
      modifies this
      ensures storage == old(End(p)).storage && report == Returned(old(End(p)).process)
    {
      hide Apply, Continue, Advance, Draft, Shape;
      var request := OrEmpty(intent.publicationRequest);
      var answer := driver.publish(request, storage.disk.canonical);
      var e := PublishedState(request, answer.moved);
      PublicationMove(cfg, driver, storage.disk.canonical, p);
      ghost var called := p.(pc := if answer.receipt.request != request then Stopped(Violation)
                                   else Deliver(cfg, CompletePublication(answer.receipt)));
      var alive := Perform(p, [e], called);
      if !alive {
        return None;
      }
      if answer.receipt.request != request {
        return Some(Refusal);
      }
      var next, q := DeliverEvidence(called, CompletePublication(answer.receipt), intent);
      if next.None? {
        return None;
      }
      var journal := next.value;
      AppliedRecord(cfg.sha, intent, CompletePublication(answer.receipt), journal);
      PublishedDraft(intent, answer.receipt);
      ReceivedContinues(cfg, driver, journal, reconciling);
      if !reconciling && !driver.held(journal.sequence) {
        report := Seal(q, journal, OuterLeaseLost, None);
      } else if !Definite(answer.receipt.fact.outcome) {
        report := Some(ReportWith(journal, StatePublicationIndeterminate));
      } else {
        report := Seal(q, journal, PublicationResult(answer.receipt.fact.outcome), None);
      }
    }

    /** Post-lifecycle sessions and publication, from a completed application on. */
    method ContinueAfterApplication(ghost p: Process, start: Record) returns (report: Option<Report>)
      requires Valid(cfg) && Shape(start) && AfterApplication(start)
      requires p == Process(start, Continue(cfg, driver, start, false), false)
      modifies this
      ensures storage == old(End(p)).storage && report == Returned(old(End(p)).process)
    {
      hide Apply, Continue, Advance, Draft, Shape;
      var journal := start;
      ghost var q := p;
      ghost var end := End(p);
      AfterContinues(cfg, driver, journal);
      while |journal.after| < cfg.afterTotal
        invariant Shape(journal) && AfterApplication(journal) && End(q) == end
        invariant q == Process(journal, Decide(cfg, driver, journal), false)
        decreases cfg.afterTotal - |journal.after|
      {
        if !driver.held(journal.sequence) {
          report := Seal(q, journal, OuterLeaseLost, None);
          return;
        }
        var next;
        next, report, q := LifecycleEffect(q, BeginAfter(|journal.after|), journal);
        if next.None? {
          return;
        }
        journal := next.value;
        FailedLast(cfg, driver, journal);
        if !LastSucceeded(journal.after) {
          report := Seal(q, journal, LifecycleFailedAfterApplication, None);
          return;
        }
        AfterContinues(cfg, driver, journal);
      }
      if !driver.held(journal.sequence) {
        report := Seal(q, journal, OuterLeaseLost, None);
        return;
      }
      var t := Projection(cfg, journal);
      var intent;
      intent, q := DeliverEvidence(q, t, journal);
      if intent.None? {
        return None;
      }
      AppliedRecord(cfg.sha, journal, t, intent.value);
      ProjectedDraft(cfg, driver, journal, intent.value);
      report := PublicationEffect(q, intent.value, false);
    }

    /** Pre-lifecycle sessions and application, from an admission or a successful session on. */
    method ContinueBeforeApplication(ghost p: Process, start: Record) returns (report: Option<Report>)
      requires Valid(cfg) && Shape(start) && BeforeApplication(start)
      requires p == Process(start, Continue(cfg, driver, start, false), false)
      modifies this
      ensures storage == old(End(p)).storage && report == Returned(old(End(p)).process)
    {
      hide Apply, Continue, Advance, Draft, Shape;
      var journal := start;
      ghost var q := p;
      ghost var end := End(p);
      BeforeContinues(cfg, driver, journal);
      while |journal.before| < cfg.beforeTotal
        invariant Shape(journal) && BeforeApplication(journal) && End(q) == end
        invariant q == Process(journal, Decide(cfg, driver, journal), false)
        decreases cfg.beforeTotal - |journal.before|
      {
        if !driver.held(journal.sequence) {
          report := Seal(q, journal, OuterLeaseLost, None);
          return;
        }
        var next;
        next, report, q := LifecycleEffect(q, BeginBefore(|journal.before|), journal);
        if next.None? {
          return;
        }
        journal := next.value;
        FailedLast(cfg, driver, journal);
        if !LastSucceeded(journal.before) {
          report := Seal(q, journal, LifecycleFailedBeforeApplication, None);
          return;
        }
        BeforeContinues(cfg, driver, journal);
      }
      if !driver.held(journal.sequence) {
        report := Seal(q, journal, OuterLeaseLost, None);
        return;
      }
      var intent;
      intent, q := Append(q, BeginApplication, journal);
      if intent.None? {
        return None;
      }
      AppliedRecord(cfg.sha, journal, BeginApplication, intent.value);
      ApplicationDraft(cfg, driver, journal, intent.value);
      report := FinishApplication(q, intent.value, false);
    }

    /** From the application call to the end. */
    method FinishApplication(ghost p: Process, intent: Record, resuming: bool) returns (report: Option<Report>)
      requires Valid(cfg) && Shape(intent) && intent.stage == ApplicationIntent
      requires p == Process(intent, if resuming then Resuming else Calling, false)
      modifies this
      ensures storage == old(End(p)).storage && report == Returned(old(End(p)).process)
    {
      hide Apply, Continue, Advance, Draft, Shape;
      var next;
      ghost var q: Process;
      next, report, q := ApplicationEffect(p, intent, resuming);
      if next.Some? {
        report := AfterReceipt(q, next.value);
      }
    }

    method AfterReceipt(ghost p: Process, journal: Record) returns (report: Option<Report>)
      requires Valid(cfg) && Shape(journal) && journal.stage == ApplicationTerminal
      requires p == Process(journal, Continue(cfg, driver, journal, false), false)
      modifies this
      ensures storage == old(End(p)).storage && report == Returned(old(End(p)).process)
    {
      hide Continue, Shape, Decide;
      var done;
      done, report := JudgeApplication(p, journal);
      if !done {
        report := ContinueAfterApplication(p, journal);
      }
    }

    /** The durable executor. */
    method ExecuteDurable() returns (report: Option<Report>)
      requires Valid(cfg)
      modifies this
      ensures var end := old(End(Fresh(cfg, storage.disk)));
              storage == end.storage && report == Returned(end.process)
    {
      hide Apply, Continue, Shape, RecordIdentity;
      var admission := Admission(cfg);
      ghost var p := Fresh(cfg, storage.disk);
      if storage.disk.head.Some? && storage.disk.head.value != admission {
        return None;
      }
      ghost var q := Process(admission, Continue(cfg, driver, admission, false), false);
      var alive := Perform(p, [Appended(admission)], q);
      if !alive {
        return None;
      }
      report := ContinueBeforeApplication(q, admission);
    }

    /** Read canonical state, and publish again only from exactly the expected state. */
    method ReconcilePublicationEffect(ghost p: Process, journal: Record) returns (report: Option<Report>)
      requires Valid(cfg) && Shape(journal) && p == Process(journal, Observing, true)
      requires journal.stage == PublicationIntent || journal.stage == PublicationTerminal
      modifies this
      ensures storage == old(End(p)).storage && report == Returned(old(End(p)).process)
    {
      hide Apply, Continue, Advance, Draft, Shape, StoredRun;
      var observed := storage.disk.canonical;
      var resulting := cfg.resulting(OrEmpty(journal.publicationRequest));
      ObservingMove(cfg, driver, observed, journal);
      ghost var q := p.(pc := if observed == resulting then Appending(SealTerminal(Completed, Some(observed)))
                              else if observed != cfg.expected || journal.stage == PublicationTerminal then
                                Stopped(ResolutionRequired)
                              else Republishing);
      ghost var before := storage;
      var alive := Perform(p, [ReadState(observed)], q);
      if !alive {
        return None;
      }
      StoppedStays(cfg, driver, Standing(storage, q), budget, renamed);
      if observed == resulting {
        report := Seal(q, journal, Completed, Some(observed));
      } else if observed != cfg.expected || journal.stage == PublicationTerminal {
        report := Some(ReportWith(journal, ApplicationResolutionRequired));
      } else {
        report := PublicationEffect(q, journal, true);
      }
    }

    /** The restart, from the latest durable record and what the checkpoint brings along. */
    method ResumeOperation(c: Checkpoint) returns (operation: Option<Report>)
      requires Valid(cfg) && (storage.disk.head.Some? ==> Shape(storage.disk.head.value))
      modifies this
      ensures storage == old(End(Restart(cfg, driver, storage.disk, c))).storage
      ensures operation == OperationOf(Returned(old(End(Restart(cfg, driver, storage.disk, c))).process))
    {
      hide Apply, Continue, Advance, Draft, Shape, Decide, RecordIdentity;
      ghost var p := Restart(cfg, driver, storage.disk, c);
      StoppedStays(cfg, driver, Standing(storage, p), budget, renamed);
      var report: Option<Report> := None;
      if storage.disk.head.Some? && CheckpointFits(storage.disk.head.value, c) {
        report := ResumeAt(p, storage.disk.head.value, c);
      }
      operation := report;
      if report.Some? && report.value.Report? && report.value.outcome == ApplicationResolutionRequired {
        operation := None;
      }
    }

    method ResumeAt(ghost p: Process, journal: Record, c: Checkpoint) returns (report: Option<Report>)
      requires Valid(cfg) && Shape(journal) && CheckpointFits(journal, c)
      requires p == Process(journal, RestartPc(cfg, driver, journal, c), Assess(journal) == ReconcilePublication)
      modifies this
      ensures storage == old(End(p)).storage
      ensures OperationOf(report) == OperationOf(Returned(old(End(p)).process))
    {
      hide Apply, Continue, Advance, Draft, Shape, Decide, RecordIdentity;
      StoppedStays(cfg, driver, Standing(storage, p), budget, renamed);
      report := None;
      match Assess(journal)
      case ExternalResolutionRequired =>
      case AlreadyTerminal =>
        TerminalHasOutcome(journal);
        report := Some(ReportWith(journal, journal.terminalOutcome.value));
      case SealNow => report := Seal(p, journal, SealOutcome(journal), None);
      case ReconcilePublication =>
        ReconciledStages(journal);
        report := ReconcilePublicationEffect(p, journal);
      case ResumeApplication => report := ResumeAtIntent(p, journal, c);
      case _ =>
        if driver.heldAtEntry {
          ContinuedStages(cfg, driver, journal);
          if BeforeApplication(journal) {
            report := ContinueBeforeApplication(p, journal);
          } else {
            report := ContinueAfterApplication(p, journal);
          }
        }
    }

    /** An application left at its intent: its owner decides whether it goes on. */
    method ResumeAtIntent(ghost p: Process, journal: Record, c: Checkpoint) returns (report: Option<Report>)
      requires Valid(cfg) && Shape(journal) && journal.stage == ApplicationIntent && CheckpointFits(journal, c)
      requires p == Process(journal, RestartPc(cfg, driver, journal, c), false)
      modifies this
      ensures storage == old(End(p)).storage
      ensures OperationOf(report) == OperationOf(Returned(old(End(p)).process))
    {
      hide Apply, Continue, Advance, Draft, Shape, Decide, RecordIdentity;
      StoppedStays(cfg, driver, Standing(storage, p), budget, renamed);
      if !c.declared || c.subordinate == SubordinateExternal
         || (c.subordinate == SubordinateTerminal && c.ahead.None?) || !driver.heldAtEntry {
        return None;
      }
      if c.ahead.Some? {
        var t := CompleteApplication(c.ahead.value);
        var next, q := Append(p, t, journal);
        if next.None? {
          return None;
        }
        AppliedRecord(cfg.sha, journal, t, next.value);
        ReceiptDraft(journal, c.ahead.value);
        report := AfterReceipt(q, next.value);
      } else if !driver.held(journal.sequence) {
        report := Seal(p, journal, OuterLeaseLost, None);
      } else {
        report := FinishApplication(p, journal, true);
      }
    }
  }

  lemma TerminalHasOutcome(r: Record)
    requires Shape(r) && Assess(r) == AlreadyTerminal
    ensures r.terminalOutcome.Some?
  {}

  lemma ReconciledStages(r: Record)
    requires Shape(r) && Assess(r) == ReconcilePublication
    ensures r.stage == PublicationIntent || r.stage == PublicationTerminal
  {
    hide Shape;
  }

  /** Where a restart continues, the durable executor would decide the same way. */
  lemma ContinuedStages(cfg: Config, d: Driver, r: Record)
    requires Shape(r)
    requires Assess(r) in {ContinueBefore, StartApplication, ContinueAfterApplication, ContinueAfter, StartPublication}
    ensures BeforeApplication(r) || AfterApplication(r)
    ensures Continue(cfg, d, r, false) == Decide(cfg, d, r)
  {
    hide Decide;
  }

  lemma StoppedStays(cfg: Config, d: Driver, s: Standing, n: nat, renamed: bool)
    requires Valid(cfg)
    ensures s.process.pc.Stopped? ==> EndOf(cfg, d, s, n, renamed) == s
  {}

  lemma ObservingMove(cfg: Config, d: Driver, canonical: string, r: Record)
    requires Valid(cfg)
    ensures Advance(cfg, d, canonical, Process(r, Observing, true))
            == Move([ReadState(canonical)],
                    Process(r, if canonical == cfg.resulting(OrEmpty(r.publicationRequest)) then
                                 Appending(SealTerminal(Completed, Some(canonical)))
                               else if canonical != cfg.expected || r.stage == PublicationTerminal then
                                 Stopped(ResolutionRequired)
                               else Republishing, true))
  {}

  predicate BeforeApplication(r: Record) {
    r.stage == Admitted || (r.stage == BeforeTerminal && LastSucceeded(r.before))
  }

  lemma BeforeContinues(cfg: Config, d: Driver, r: Record)
    requires Shape(r) && BeforeApplication(r)
    ensures Continue(cfg, d, r, false) == Decide(cfg, d, r)
  {
    hide Shape, Decide;
  }

  lemma ApplicationDraft(cfg: Config, d: Driver, r: Record, n: Record)
    requires n.stage == Draft(r, BeginApplication).stage && Shape(n)
    ensures n.stage == ApplicationIntent && Continue(cfg, d, n, false) == Calling
  {
    hide Shape;
  }

  /** A run that is cut reports nothing; one that stops reports what it stopped with. */
  function Returned(p: Process): Option<Report> {
    if p.pc.Stopped? then ReportOf(p) else None
  }

  predicate AfterApplication(r: Record) {
    && IsApplicationComplete(r)
    && (r.stage == ApplicationTerminal || (r.stage == AfterTerminal && LastSucceeded(r.after)))
  }

  lemma TerminalStops(cfg: Config, d: Driver, r: Record, reconciling: bool)
    requires Shape(r) && r.stage == Terminal
    ensures Continue(cfg, d, r, reconciling) == Stopped(Sealed)
  {
    hide Shape;
  }

  lemma LifecycleDraft(r: Record, t: Transition)
    requires IsLifecycleBegin(t)
    ensures Draft(r, t).stage == (if t.BeginBefore? then BeforeIntent else AfterIntent)
    ensures Draft(r, t).before == r.before && Draft(r, t).after == r.after
  {}

  lemma CompletionDraft(r: Record, t: Transition, fact: LifecycleFact)
    requires IsLifecycleBegin(t)
    ensures Draft(r, Completion(t, fact)).stage == (if t.BeginBefore? then BeforeTerminal else AfterTerminal)
    ensures Draft(r, Completion(t, fact)).before == if t.BeginBefore? then r.before + [fact] else r.before
    ensures Draft(r, Completion(t, fact)).after == if t.BeginBefore? then r.after else r.after + [fact]
  {}

  lemma ReceiptDraft(r: Record, receipt: ApplicationFact)
    ensures Draft(r, CompleteApplication(receipt)).stage == ApplicationTerminal
  {}

  lemma PublishedDraft(r: Record, receipt: PublicationReceipt)
    ensures Draft(r, CompletePublication(receipt)).stage == PublicationTerminal
    ensures Draft(r, CompletePublication(receipt)).publication == Some(receipt.fact)
  {}

  lemma ReceiptMove(cfg: Config, d: Driver, canonical: string, intent: Record, resuming: bool)
    requires Valid(cfg) && Shape(intent) && intent.stage == ApplicationIntent
    ensures var answer := if resuming then d.resume else d.apply;
            Advance(cfg, d, canonical, Process(intent, if resuming then Resuming else Calling, false))
            == Move([if resuming then ResumedApplication else AppliedApplication],
                    Process(intent, if !AcceptableReceipt(answer) then Stopped(Violation)
                                    else Deliver(cfg, CompleteApplication(answer.value)), false))
  {
    hide Shape;
  }

  lemma PublicationMove(cfg: Config, d: Driver, canonical: string, p: Process)
    requires Valid(cfg) && p.journal.stage == PublicationIntent
    requires p.pc == if p.reconciling then Republishing else Calling
    ensures var request := OrEmpty(p.journal.publicationRequest);
            var answer := d.publish(request, canonical);
            Advance(cfg, d, canonical, p)
            == Move([PublishedState(request, answer.moved)],
                    p.(pc := if answer.receipt.request != request then Stopped(Violation)
                             else Deliver(cfg, CompletePublication(answer.receipt))))
  {}

  lemma ReceivedContinues(cfg: Config, d: Driver, r: Record, reconciling: bool)
    requires Shape(r) && r.stage == PublicationTerminal
    ensures Continue(cfg, d, r, reconciling)
            == if !reconciling && !d.held(r.sequence) then Appending(SealTerminal(OuterLeaseLost, None))
               else if !Definite(r.publication.value.outcome) then Stopped(Unconfirmed)
               else Appending(SealTerminal(PublicationResult(r.publication.value.outcome), None))
  {
    hide Shape;
  }

  lemma AfterContinues(cfg: Config, d: Driver, r: Record)
    requires Shape(r) && AfterApplication(r)
    ensures Continue(cfg, d, r, false) == Decide(cfg, d, r)
  {
    hide Shape, Decide;
  }

  lemma FailedLast(cfg: Config, d: Driver, r: Record)
    requires Shape(r) && (r.stage == BeforeTerminal || r.stage == AfterTerminal)
    ensures r.stage == AfterTerminal ==> IsApplicationComplete(r)
    ensures r.stage == BeforeTerminal && !LastSucceeded(r.before) ==>
              Continue(cfg, d, r, false) == Appending(SealTerminal(LifecycleFailedBeforeApplication, None))
    ensures r.stage == AfterTerminal && !LastSucceeded(r.after) ==>
              Continue(cfg, d, r, false) == Appending(SealTerminal(LifecycleFailedAfterApplication, None))
  {}

  lemma ProjectedDraft(cfg: Config, d: Driver, r: Record, n: Record)
    requires n.stage == Draft(r, Projection(cfg, r)).stage && Shape(n)
    ensures n.stage == PublicationIntent && Continue(cfg, d, n, false) == Calling
  {
    hide Shape;
  }

  lemma ShapeOfApplied(sha: Sha256, r: Record, t: Transition, n: Record)
    requires Apply(sha, r, t) == Success(n)
    ensures Shape(n)
  {
    hide RecordIdentity, Shape, SuccessorAccepts, May, Draft;
  }
}
