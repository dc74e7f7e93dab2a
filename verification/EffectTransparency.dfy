/**
  Journaling is transparent: the durable executor issues the driver calls of the plain
  executor, in the same order, and reports the same result.
 */
module EffectTransparency {
  import opened Wrappers
  import opened EffectJournal
  import opened EffectJournalLaws
  import opened EffectProtocol

  /** What an executor returns, or that it refused the driver's evidence. */
  datatype Report = Refusal | Report(
    outcome: OperationOutcome, before: seq<LifecycleFact>, application: Option<ApplicationFact>,
    after: seq<LifecycleFact>, transaction: Option<string>, request: Option<string>,
    publication: Option<PublicationFact>)

  datatype Plain = Plain(calls: seq<Event>, report: Report)

  function Called(e: Event, rest: Plain): Plain {
    Plain([e] + rest.calls, rest.report)
  }

  // ---------------------------------------------------------------- the plain executor, as a function

  function PlainPublication(cfg: Config, d: Driver, canonical: string, before: seq<LifecycleFact>,
                            application: ApplicationFact, after: seq<LifecycleFact>): Plain
  {
    var sequence := 2 * cfg.beforeTotal + 2 * cfg.afterTotal + 2;
    if !d.held(sequence) then
      Plain([], Report(OuterLeaseLost, before, Some(application), after, None, None, None))
    else
      var completed := OrEmpty(application.completedEvidence);
      var transaction := TransactionEvidence(cfg, before, completed, after);
      var request := cfg.project(completed, transaction);
      var answer := d.publish(request, canonical);
      var fact := answer.receipt.fact;
      Called(PublishedState(request, answer.moved),
             Plain([], if answer.receipt.request != request then Refusal
                       else Report(if d.held(sequence + 2) then PublicationResult(fact.outcome) else OuterLeaseLost,
                                   before, Some(application), after, Some(transaction), Some(request), Some(fact))))
  }

  function PlainAfter(cfg: Config, d: Driver, canonical: string, before: seq<LifecycleFact>,
                      application: ApplicationFact, after: seq<LifecycleFact>): Plain
    decreases cfg.afterTotal - |after|
  {
    if |after| >= cfg.afterTotal then PlainPublication(cfg, d, canonical, before, application, after)
    else if !d.held(2 * cfg.beforeTotal + 2 + 2 * |after|) then
      Plain([], Report(OuterLeaseLost, before, Some(application), after, None, None, None))
    else
      var answer := d.lifecycle(AfterSide, |after|);
      Called(Executed(AfterSide, |after|),
             if answer.None? then Plain([], Refusal)
             else if !answer.value.succeeded then
               Plain([], Report(LifecycleFailedAfterApplication, before, Some(application),
                                after + [answer.value], None, None, None))
             else PlainAfter(cfg, d, canonical, before, application, after + [answer.value]))
  }

  function PlainApplication(cfg: Config, d: Driver, canonical: string, before: seq<LifecycleFact>): Plain {
    if !d.held(2 * cfg.beforeTotal) then
      Plain([], Report(OuterLeaseLost, before, None, [], None, None, None))
    else
      Called(AppliedApplication,
             if !AcceptableReceipt(d.apply) then Plain([], Refusal)
             else if d.apply.value.outcome != ApplicationCompleted then
               Plain([], Report(if Classify(d.apply.value.outcome) == DefinitiveFailure then ApplicationNotCompleted
                                else ApplicationResolutionRequired,
                                before, d.apply, [], None, None, None))
             else PlainAfter(cfg, d, canonical, before, d.apply.value, []))
  }

  function PlainBefore(cfg: Config, d: Driver, canonical: string, before: seq<LifecycleFact>): Plain
    decreases cfg.beforeTotal - |before|
  {
    if |before| >= cfg.beforeTotal then PlainApplication(cfg, d, canonical, before)
    else if !d.held(2 * |before|) then
      Plain([], Report(OuterLeaseLost, before, None, [], None, None, None))
    else
      var answer := d.lifecycle(BeforeSide, |before|);
      Called(Executed(BeforeSide, |before|),
             if answer.None? then Plain([], Refusal)
             else if !answer.value.succeeded then
               Plain([], Report(LifecycleFailedBeforeApplication, before + [answer.value], None, [],
                                None, None, None))
             else PlainBefore(cfg, d, canonical, before + [answer.value]))
  }

  // ---------------------------------------------------------------- the durable executor, observed

  predicate IsDriverCall(e: Event) {
    e.Executed? || e.AppliedApplication? || e.ResumedApplication? || e.PublishedState? || e.ReadState?
  }

  function CallsOf(log: seq<Event>): seq<Event> {
    if log == [] then []
    else CallsOf(log[..|log| - 1]) + if IsDriverCall(log[|log| - 1]) then [log[|log| - 1]] else []
  }

  function ReportWith(r: Record, outcome: OperationOutcome): Report {
    Report(outcome, r.before, r.application, r.after, r.transactionEvidence, r.publicationRequest, r.publication)
  }

  /** What a stopped durable executor returns. */
  function ReportOf(p: Process): Option<Report> {
    match p.pc
    case Stopped(Sealed) =>
      if p.journal.terminalOutcome.Some? then Some(ReportWith(p.journal, p.journal.terminalOutcome.value)) else None
    case Stopped(ResolutionRequired) => Some(ReportWith(p.journal, ApplicationResolutionRequired))
    case Stopped(Unconfirmed) => Some(ReportWith(p.journal, StatePublicationIndeterminate))
    case Stopped(Violation) => Some(Refusal)
    case _ => None
  }

  /** From `s` the process stops by itself, having made these calls and with this report. */
  ghost predicate Yields(cfg: Config, d: Driver, s: State, plain: Plain)
    requires Valid(cfg)
  {
    exists n: nat :: YieldsIn(cfg, d, s, plain, n)
  }

  predicate YieldsIn(cfg: Config, d: Driver, s: State, plain: Plain, n: nat)
    requires Valid(cfg)
  {
    var end := Run(cfg, d, s, n);
    && end.process.pc.Stopped? && ReportOf(end.process) == Some(plain.report)
    && CallsOf(end.disk.log) == CallsOf(s.disk.log) + plain.calls
  }

  lemma CallsOfExtended(log: seq<Event>, e: Event)
    ensures CallsOf(log + [e]) == CallsOf(log) + if IsDriverCall(e) then [e] else []
  {
    assert (log + [e])[..|log|] == log;
  }

  /** One action in front: a driver call shows in the calls, anything else does not. */
  lemma OneActionBefore(cfg: Config, d: Driver, s: State, e: Event, next: Process, rest: Plain)
    requires Valid(cfg) && !s.process.pc.Stopped?
    requires Advance(cfg, d, s.disk.canonical, s.process) == Move([e], next)
    requires Yields(cfg, d, State(Emit(cfg, s.disk, e), next), rest)
    ensures Yields(cfg, d, s, if IsDriverCall(e) then Called(e, rest) else rest)
  {
    hide Advance, CallsOf;
    assert EmitAll(cfg, s.disk, [e]) == Emit(cfg, s.disk, e) by {
      assert [e][..0] == [];
      assert EmitAll(cfg, s.disk, []) == s.disk;
    }
    var next := State(Emit(cfg, s.disk, e), next);
    var n: nat :| YieldsIn(cfg, d, next, rest, n);
    assert Step(cfg, d, s) == next;
    assert Run(cfg, d, s, n + 1) == Run(cfg, d, next, n);
    CallsOfExtended(s.disk.log, e);
    var whole := if IsDriverCall(e) then Called(e, rest) else rest;
    assert CallsOf(s.disk.log) + [e] + rest.calls == CallsOf(s.disk.log) + ([e] + rest.calls);
    assert YieldsIn(cfg, d, s, whole, n + 1);
  }

  lemma StoppedYields(cfg: Config, d: Driver, s: State, report: Report)
    requires Valid(cfg) && s.process.pc.Stopped? && ReportOf(s.process) == Some(report)
    ensures Yields(cfg, d, s, Plain([], report))
  {
    hide CallsOf;
    assert Run(cfg, d, s, 0) == s;
    assert YieldsIn(cfg, d, s, Plain([], report), 0);
  }

  // ---------------------------------------------------------------- well-formed answers

  /** Evidence as the lower layers' types guarantee it. */
  ghost predicate WellFormedDriver(cfg: Config, d: Driver) {
    && (d.apply.Some? ==> ApplicationFactShape(d.apply.value))
    && (d.resume.Some? ==> ApplicationFactShape(d.resume.value))
    && (forall request: string, canonical: string ::
          PublicationFactShape(d.publish(request, canonical).receipt.fact))
    && (forall completed: string, transaction: string :: Canonical(cfg.project(completed, transaction)))
  }

  predicate Ready(cfg: Config, r: Record) {
    ShapeValid(cfg.sha, r) && r.beforeTotal == cfg.beforeTotal && r.afterTotal == cfg.afterTotal
  }

  /** The record that an enabled transition appends. */
  function Appends(cfg: Config, r: Record, t: Transition): Record {
    Next(cfg.sha, r, Draft(r, t))
  }

  lemma EnabledAppends(cfg: Config, r: Record, t: Transition)
    requires Valid(cfg) && Ready(cfg, r) && r.stage != Terminal && Enabled(r, t) && WellFormed(t)
    ensures Apply(cfg.sha, r, t) == Success(Appends(cfg, r, t)) && Ready(cfg, Appends(cfg, r, t))
  {
    hide RecordIdentity, Shape, Enabled, May, SuccessorStage, WellFormed, Draft;
    GuardsSuffice(cfg.sha, r, t);
  }

  lemma TransactionIsCanonical(cfg: Config, before: seq<LifecycleFact>, completed: string, after: seq<LifecycleFact>)
    ensures Canonical(TransactionEvidence(cfg, before, completed, after))
  {
    var s := TransactionEvidence(cfg, before, completed, after);
    assert s[..10] == "v1:sha256:";
    hide Results, Decimal;
  }

  /** At a record, before anything that follows it. */
  function At(cfg: Config, d: Driver, disk: Disk, r: Record): State
    requires Shape(r)
  {
    State(disk, Process(r, Continue(cfg, d, r, false), false))
  }

  /** The disk after a transition was delivered: its body retained, its record appended. */
  function Delivered(cfg: Config, disk: Disk, r: Record, t: Transition): Disk {
    var kept := if cfg.keepBodies && BodyOf(t).Some? then Emit(cfg, disk, Retained(BodyOf(t).value)) else disk;
    Emit(cfg, kept, Appended(Appends(cfg, r, t)))
  }

  lemma AppendingMoves(cfg: Config, d: Driver, canonical: string, r: Record, t: Transition, n: Record)
    requires Valid(cfg) && Apply(cfg.sha, r, t) == Success(n) && Shape(n)
    ensures Advance(cfg, d, canonical, Process(r, Appending(t), false))
            == Move([Appended(n)], Process(n, Continue(cfg, d, n, false), false))
  {
    hide Apply, Shape, Continue;
  }

  lemma AppendYields(cfg: Config, d: Driver, disk: Disk, r: Record, t: Transition, rest: Plain)
    requires Valid(cfg) && Ready(cfg, r) && r.stage != Terminal && Enabled(r, t) && WellFormed(t)
    requires var n := Appends(cfg, r, t);
             Ready(cfg, n) && Yields(cfg, d, At(cfg, d, Emit(cfg, disk, Appended(n)), n), rest)
    ensures Yields(cfg, d, State(disk, Process(r, Appending(t), false)), rest)
  {
    hide Appends, Enabled, WellFormed, Shape, RecordIdentity, Continue, Apply, Emit, Advance, Yields;
    EnabledAppends(cfg, r, t);
    var n := Appends(cfg, r, t);
    AppendingMoves(cfg, d, disk.canonical, r, t, n);
    OneActionBefore(cfg, d, State(disk, Process(r, Appending(t), false)), Appended(n),
                    Process(n, Continue(cfg, d, n, false), false), rest);
  }

  lemma DeliverYields(cfg: Config, d: Driver, disk: Disk, r: Record, t: Transition, rest: Plain)
    requires Valid(cfg) && Ready(cfg, r) && r.stage != Terminal && Enabled(r, t) && WellFormed(t)
    requires var n := Appends(cfg, r, t);
             Ready(cfg, n) && Yields(cfg, d, At(cfg, d, Delivered(cfg, disk, r, t), n), rest)
    ensures Yields(cfg, d, State(disk, Process(r, Deliver(cfg, t), false)), rest)
  {
    hide Appends, Enabled, WellFormed, Ready, Shape, Continue, Apply, At, Yields;
    if cfg.keepBodies && BodyOf(t).Some? {
      var e := Retained(BodyOf(t).value);
      AppendYields(cfg, d, Emit(cfg, disk, e), r, t, rest);
      hide Emit;
      OneActionBefore(cfg, d, State(disk, Process(r, Keeping(t), false)), e, Process(r, Appending(t), false), rest);
    } else {
      AppendYields(cfg, d, disk, r, t, rest);
    }
  }

  // ---------------------------------------------------------------- phase by phase

  /** What each transition leaves in the next record. */
  lemma AppendsFacts(cfg: Config, r: Record, t: Transition)
    ensures var n, draft := Appends(cfg, r, t), Draft(r, t);
            && n.sequence == r.sequence + 1 && n.stage == draft.stage && n.activeIndex == draft.activeIndex
            && n.before == draft.before && n.application == draft.application && n.after == draft.after
            && n.transactionEvidence == draft.transactionEvidence && n.publication == draft.publication
            && n.publicationRequest == draft.publicationRequest && n.terminalOutcome == draft.terminalOutcome
            && n.reconciledState == draft.reconciledState
  {
    hide Draft, RecordIdentity;
  }

  lemma SealYields(cfg: Config, d: Driver, disk: Disk, r: Record, outcome: OperationOutcome)
    requires Valid(cfg) && Ready(cfg, r) && r.stage != Terminal && Enabled(r, SealTerminal(outcome, None))
    ensures Yields(cfg, d, State(disk, Process(r, Appending(SealTerminal(outcome, None)), false)),
                   Plain([], ReportWith(r, outcome)))
  {
    hide Appends, Enabled, Shape, Yields, RecordIdentity, Emit, Decide;
    var t := SealTerminal(outcome, None);
    EnabledAppends(cfg, r, t);
    AppendsFacts(cfg, r, t);
    var n := Appends(cfg, r, t);
    StoppedYields(cfg, d, At(cfg, d, Emit(cfg, disk, Appended(n)), n), ReportWith(r, outcome));
    AppendYields(cfg, d, disk, r, t, Plain([], ReportWith(r, outcome)));
  }

  predicate IsLifecycleBegin(t: Transition) {
    t.BeginBefore? || t.BeginAfter?
  }

  function SideOf(t: Transition): Side {
    if t.BeginBefore? then BeforeSide else AfterSide
  }

  function Completion(t: Transition, fact: LifecycleFact): Transition {
    if t.BeginBefore? then CompleteBefore(fact) else CompleteAfter(fact)
  }

  /** The disk when a lifecycle effect has its terminal record. */
  function Executing(cfg: Config, disk: Disk, intent: Record, t: Transition, fact: LifecycleFact): Disk
    requires IsLifecycleBegin(t)
  {
    Delivered(cfg, Emit(cfg, Emit(cfg, disk, Appended(intent)), Executed(SideOf(t), t.index)), intent,
              Completion(t, fact))
  }

  lemma ExecutingCanonical(cfg: Config, disk: Disk, intent: Record, t: Transition, fact: LifecycleFact)
    requires IsLifecycleBegin(t)
    ensures Executing(cfg, disk, intent, t, fact).canonical == disk.canonical
  {}

  /** One lifecycle effect: intent, call, evidence, and then whatever follows the evidence. */
  lemma LifecycleYields(cfg: Config, d: Driver, disk: Disk, r: Record, t: Transition, rest: Plain)
    requires Valid(cfg) && Ready(cfg, r) && r.stage != Terminal && IsLifecycleBegin(t) && Enabled(r, t)
    requires var intent, answer := Appends(cfg, r, t), d.lifecycle(SideOf(t), t.index);
             if answer.None? then rest == Plain([], Refusal)
             else
               var n := Appends(cfg, intent, Completion(t, answer.value));
               Ready(cfg, n) && Yields(cfg, d, At(cfg, d, Executing(cfg, disk, intent, t, answer.value), n), rest)
    ensures Yields(cfg, d, State(disk, Process(r, Appending(t), false)),
                   Called(Executed(SideOf(t), t.index), rest))
  {
    hide Appends, Shape, Yields, Delivered, RecordIdentity;
    EnabledAppends(cfg, r, t);
    AppendsFacts(cfg, r, t);
    var intent, answer := Appends(cfg, r, t), d.lifecycle(SideOf(t), t.index);
    var appended := Emit(cfg, disk, Appended(intent));
    var e := Executed(SideOf(t), t.index);
    var called := Emit(cfg, appended, e);
    LifecycleMove(cfg, d, disk.canonical, intent, t);
    hide Advance, Emit, Enabled;
    if answer.None? {
      var next := Process(intent, Stopped(Violation), false);
      StoppedYields(cfg, d, State(called, next), Refusal);
      OneActionBefore(cfg, d, At(cfg, d, appended, intent), e, next, rest);
    } else {
      var c := Completion(t, answer.value);
      CompletionEnabled(intent, t, answer.value);
      DeliverYields(cfg, d, called, intent, c, rest);
      OneActionBefore(cfg, d, At(cfg, d, appended, intent), e, Process(intent, Deliver(cfg, c), false), rest);
    }
    AppendYields(cfg, d, disk, r, t, Called(e, rest));
  }

  lemma LifecycleMove(cfg: Config, d: Driver, canonical: string, intent: Record, t: Transition)
    requires Valid(cfg) && Shape(intent) && IsLifecycleBegin(t)
    requires intent.stage == (if t.BeginBefore? then BeforeIntent else AfterIntent)
    requires t.index == if t.BeginBefore? then |intent.before| else |intent.after|
    ensures Continue(cfg, d, intent, false) == Calling
    ensures Advance(cfg, d, canonical, Process(intent, Calling, false))
            == var answer := d.lifecycle(SideOf(t), t.index);
               Move([Executed(SideOf(t), t.index)],
                    Process(intent, if answer.None? then Stopped(Violation)
                                    else Deliver(cfg, Completion(t, answer.value)), false))
  {
    hide Shape;
  }

  lemma CompletionEnabled(intent: Record, t: Transition, fact: LifecycleFact)
    requires Shape(intent) && IsLifecycleBegin(t)
    requires intent.stage == (if t.BeginBefore? then BeforeIntent else AfterIntent)
    ensures Enabled(intent, Completion(t, fact)) && WellFormed(Completion(t, fact))
  {}

  // ---------------------------------------------------------------- the four phases

  /** Before application: admission, or the last pre-lifecycle effect succeeded. */
  predicate BeforeBoundary(cfg: Config, r: Record) {
    Ready(cfg, r) && (r.stage == Admitted || (r.stage == BeforeTerminal && LastSucceeded(r.before)))
  }

  predicate AfterBoundary(cfg: Config, r: Record) {
    && Ready(cfg, r) && IsApplicationComplete(r)
    && (r.stage == ApplicationTerminal || (r.stage == AfterTerminal && LastSucceeded(r.after)))
  }

  lemma BeforeBoundaryFacts(cfg: Config, r: Record)
    requires BeforeBoundary(cfg, r)
    ensures r.stage != Terminal && r.sequence == 2 * |r.before| && |r.before| <= cfg.beforeTotal
    ensures r.application.None? && r.after == [] && !HasPublicationAuthority(r)
    ensures AllSucceeded(r.before) && Enabled(r, SealTerminal(OuterLeaseLost, None))
    ensures |r.before| < cfg.beforeTotal ==> Enabled(r, BeginBefore(|r.before|))
    ensures |r.before| == cfg.beforeTotal ==> Enabled(r, BeginApplication)
    ensures ReportWith(r, OuterLeaseLost) == Report(OuterLeaseLost, r.before, None, [], None, None, None)
  {
    hide RecordIdentity;
  }

  lemma AfterBoundaryFacts(cfg: Config, r: Record)
    requires AfterBoundary(cfg, r)
    ensures r.stage != Terminal && r.sequence == 2 * cfg.beforeTotal + 2 + 2 * |r.after|
    ensures |r.after| <= cfg.afterTotal && !HasPublicationAuthority(r)
    ensures AllSucceeded(r.after) && Enabled(r, SealTerminal(OuterLeaseLost, None))
    ensures |r.after| < cfg.afterTotal ==> Enabled(r, BeginAfter(|r.after|))
    ensures |r.after| == cfg.afterTotal ==>
              forall transaction, request :: Enabled(r, BeginPublication(transaction, request))
  {
    hide RecordIdentity;
  }

  lemma ProjectionIsEnabled(cfg: Config, d: Driver, r: Record)
    requires Valid(cfg) && WellFormedDriver(cfg, d) && AfterBoundary(cfg, r) && |r.after| == cfg.afterTotal
    ensures Enabled(r, Projection(cfg, r)) && WellFormed(Projection(cfg, r))
  {
    AfterBoundaryFacts(cfg, r);
    TransactionIsCanonical(cfg, r.before, CompletedEvidence(r.application), r.after);
    hide TransactionEvidence, Shape, May, SealFits;
  }

  /** The evidence of a publication, and what follows its receipt. */
  lemma PublicationYields(cfg: Config, d: Driver, disk: Disk, r: Record)
    requires Valid(cfg) && WellFormedDriver(cfg, d) && AfterBoundary(cfg, r) && |r.after| == cfg.afterTotal
    ensures Yields(cfg, d, At(cfg, d, disk, r),
                   PlainPublication(cfg, d, disk.canonical, r.before, r.application.value, r.after))
  {
    hide Appends, Shape, Yields, Delivered, RecordIdentity, Emit, TransactionEvidence, Enabled, WellFormed;
    if d.held(r.sequence) {
      hide WellFormedDriver;
      HeldPublicationYields(cfg, d, disk, r);
    } else {
      hide WellFormedDriver;
      AfterBoundaryFacts(cfg, r);
      BoundaryDecides(cfg, d, r);
      SealYields(cfg, d, disk, r, OuterLeaseLost);
    }
  }

  lemma HeldPublicationYields(cfg: Config, d: Driver, disk: Disk, r: Record)
    requires Valid(cfg) && WellFormedDriver(cfg, d) && AfterBoundary(cfg, r) && |r.after| == cfg.afterTotal
    requires d.held(r.sequence)
    ensures Yields(cfg, d, At(cfg, d, disk, r),
                   PlainPublication(cfg, d, disk.canonical, r.before, r.application.value, r.after))
  {
    hide Appends, Shape, Yields, Delivered, RecordIdentity, Emit, Enabled, WellFormed, WellFormedDriver, Deliver,
      Projection, PlainPublication, PlainReceipt, Continue, Step;
    var t := Projection(cfg, r);
    assert t.BeginPublication? by { ProjectionIs(cfg, r); }
    BoundaryPublishes(cfg, d, r);
    ProjectionIsEnabled(cfg, d, r);
    hide AfterBoundary;
    EnabledAppends(cfg, r, t);
    AppendsFacts(cfg, r, t);
    var start := Delivered(cfg, disk, r, t);
    DeliveredCanonical(cfg, disk, r, t);
    ReceiptYields(cfg, d, start, Appends(cfg, r, t), t.request);
    PublicationIsReceipt(cfg, d, disk.canonical, r);
    DeliverYields(cfg, d, disk, r, t, PlainReceipt(cfg, d, disk.canonical, Appends(cfg, r, t), t.request));
  }

  lemma ProjectionIs(cfg: Config, r: Record)
    ensures var t := Projection(cfg, r);
            && t.BeginPublication?
            && t.transaction == TransactionEvidence(cfg, r.before, CompletedEvidence(r.application), r.after)
            && t.request == cfg.project(CompletedEvidence(r.application), t.transaction)
  {}

  lemma BoundaryPublishes(cfg: Config, d: Driver, r: Record)
    requires AfterBoundary(cfg, r) && |r.after| == cfg.afterTotal && d.held(r.sequence)
    ensures r.stage != Terminal && Ready(cfg, r) && Continue(cfg, d, r, false) == Deliver(cfg, Projection(cfg, r))
  {
    AfterBoundaryFacts(cfg, r);
    BoundaryDecides(cfg, d, r);
    hide Shape, Continue, Deliver, Projection, Enabled;
  }

  lemma PublicationIsReceipt(cfg: Config, d: Driver, canonical: string, r: Record)
    requires AfterBoundary(cfg, r) && |r.after| == cfg.afterTotal && d.held(r.sequence)
    ensures var t := Projection(cfg, r);
            && t.BeginPublication?
            && PlainPublication(cfg, d, canonical, r.before, r.application.value, r.after)
               == PlainReceipt(cfg, d, canonical, Appends(cfg, r, t), t.request)
  {
    AfterBoundaryFacts(cfg, r);
    ProjectionIs(cfg, r);
    AppendsFacts(cfg, r, Projection(cfg, r));
    hide Shape, Projection, Enabled, TransactionEvidence, Appends, RecordIdentity;
  }

  lemma DeliveredCanonical(cfg: Config, disk: Disk, r: Record, t: Transition)
    ensures Delivered(cfg, disk, r, t).canonical == disk.canonical
  {}

  lemma BoundaryDecides(cfg: Config, d: Driver, r: Record)
    requires BeforeBoundary(cfg, r) || AfterBoundary(cfg, r)
    ensures Continue(cfg, d, r, false) == Decide(cfg, d, r)
  {}

  /** What the plain executor does from the publication call on. */
  function PlainReceipt(cfg: Config, d: Driver, canonical: string, intent: Record, request: string): Plain {
    var answer := d.publish(request, canonical);
    var fact := answer.receipt.fact;
    Called(PublishedState(request, answer.moved),
           Plain([], if answer.receipt.request != request then Refusal
                     else Report(if d.held(intent.sequence + 1) then PublicationResult(fact.outcome)
                                 else OuterLeaseLost,
                                 intent.before, intent.application, intent.after, intent.transactionEvidence,
                                 intent.publicationRequest, Some(fact))))
  }

  lemma ReceiptYields(cfg: Config, d: Driver, disk: Disk, intent: Record, request: string)
    requires Valid(cfg) && WellFormedDriver(cfg, d) && Ready(cfg, intent) && intent.stage == PublicationIntent
    requires intent.publicationRequest == Some(request)
    ensures Yields(cfg, d, At(cfg, d, disk, intent), PlainReceipt(cfg, d, disk.canonical, intent, request))
  {
    hide Appends, Shape, Yields, Delivered, RecordIdentity, Emit;
    var answer := d.publish(request, disk.canonical);
    var e := PublishedState(request, answer.moved);
    var next := Process(intent, if answer.receipt.request != request then Stopped(Violation)
                                else Deliver(cfg, CompletePublication(answer.receipt)), false);
    PublishingMove(cfg, d, disk.canonical, intent, request);
    hide Advance;
    var published := Emit(cfg, disk, e);
    var rest := Plain([], PlainReceipt(cfg, d, disk.canonical, intent, request).report);
    if answer.receipt.request != request {
      StoppedYields(cfg, d, State(published, next), Refusal);
    } else {
      var c := CompletePublication(answer.receipt);
      PublicationEnabled(intent, answer.receipt);
      assert WellFormed(c);
      hide Enabled, WellFormed;
      EnabledAppends(cfg, intent, c);
      AppendsFacts(cfg, intent, c);
      ReceivedYields(cfg, d, Delivered(cfg, published, intent, c), Appends(cfg, intent, c));
      DeliverYields(cfg, d, published, intent, c, rest);
    }
    OneActionBefore(cfg, d, At(cfg, d, disk, intent), e, next, rest);
  }

  lemma PublicationEnabled(intent: Record, receipt: PublicationReceipt)
    requires Shape(intent) && intent.stage == PublicationIntent && intent.publicationRequest == Some(receipt.request)
    ensures Enabled(intent, CompletePublication(receipt))
  {}

  lemma PublishingMove(cfg: Config, d: Driver, canonical: string, intent: Record, request: string)
    requires Valid(cfg) && Shape(intent) && intent.stage == PublicationIntent
    requires intent.publicationRequest == Some(request)
    ensures Continue(cfg, d, intent, false) == Calling
    ensures Advance(cfg, d, canonical, Process(intent, Calling, false))
            == var answer := d.publish(request, canonical);
               Move([PublishedState(request, answer.moved)],
                    Process(intent, if answer.receipt.request != request then Stopped(Violation)
                                    else Deliver(cfg, CompletePublication(answer.receipt)), false))
  {
    hide Shape;
  }

  /** At a publication receipt: a lost lease, an unconfirmed publication, or its definite result. */
  lemma ReceivedYields(cfg: Config, d: Driver, disk: Disk, n: Record)
    requires Valid(cfg) && Ready(cfg, n) && n.stage == PublicationTerminal
    ensures n.publication.Some?
    ensures Yields(cfg, d, At(cfg, d, disk, n),
                   Plain([], ReportWith(n, if d.held(n.sequence) then PublicationResult(n.publication.value.outcome)
                                           else OuterLeaseLost)))
  {
    hide Yields, RecordIdentity;
    var outcome := PublicationResult(n.publication.value.outcome);
    if !d.held(n.sequence) {
      assert Enabled(n, SealTerminal(OuterLeaseLost, None));
      SealYields(cfg, d, disk, n, OuterLeaseLost);
    } else if !Definite(n.publication.value.outcome) {
      StoppedYields(cfg, d, At(cfg, d, disk, n), ReportWith(n, outcome));
    } else {
      assert Enabled(n, SealTerminal(outcome, None));
      SealYields(cfg, d, disk, n, outcome);
    }
  }

  /** The two records around one lifecycle effect, and what they carry over. */
  lemma LifecycleRecords(cfg: Config, r: Record, t: Transition, fact: LifecycleFact) returns (intent: Record, n: Record)
    requires Valid(cfg) && Ready(cfg, r) && r.stage != Terminal && IsLifecycleBegin(t) && Enabled(r, t)
    ensures intent == Appends(cfg, r, t) && Ready(cfg, intent)
    ensures intent.stage == if t.BeginBefore? then BeforeIntent else AfterIntent
    ensures Enabled(intent, Completion(t, fact)) && WellFormed(Completion(t, fact))
    ensures n == Appends(cfg, intent, Completion(t, fact)) && Ready(cfg, n)
    ensures n.stage == if t.BeginBefore? then BeforeTerminal else AfterTerminal
    ensures n.before == if t.BeginBefore? then r.before + [fact] else r.before
    ensures n.after == if t.BeginBefore? then r.after else r.after + [fact]
    ensures n.application == r.application
  {
    hide Appends, Shape, RecordIdentity, Enabled;
    EnabledAppends(cfg, r, t);
    AppendsFacts(cfg, r, t);
    intent := Appends(cfg, r, t);
    var c := Completion(t, fact);
    CompletionEnabled(intent, t, fact);
    EnabledAppends(cfg, intent, c);
    AppendsFacts(cfg, intent, c);
    n := Appends(cfg, intent, c);
  }

  lemma {:induction false} AfterYields(cfg: Config, d: Driver, disk: Disk, r: Record)
    requires Valid(cfg) && WellFormedDriver(cfg, d) && AfterBoundary(cfg, r)
    ensures Yields(cfg, d, At(cfg, d, disk, r),
                   PlainAfter(cfg, d, disk.canonical, r.before, r.application.value, r.after))
    decreases cfg.afterTotal - |r.after|
  {
    hide Appends, Shape, Yields, Delivered, RecordIdentity, WellFormedDriver, PlainPublication, Enabled, Emit,
      WellFormed, Completion, SideOf;
    AfterBoundaryFacts(cfg, r);
    BoundaryDecides(cfg, d, r);
    if |r.after| == cfg.afterTotal {
      PublicationYields(cfg, d, disk, r);
    } else if !d.held(r.sequence) {
      SealYields(cfg, d, disk, r, OuterLeaseLost);
    } else {
      var t, answer := BeginAfter(|r.after|), d.lifecycle(AfterSide, |r.after|);
      if answer.Some? && answer.value.succeeded {
        var intent, n := LifecycleRecords(cfg, r, t, answer.value);
        ExecutingCanonical(cfg, disk, intent, t, answer.value);
        AfterYields(cfg, d, Executing(cfg, disk, intent, t, answer.value), n);
      }
      AfterStepYields(cfg, d, disk, r);
    }
  }

  /** One post-lifecycle effect, given that the execution goes on as planned when it succeeds. */
  lemma AfterStepYields(cfg: Config, d: Driver, disk: Disk, r: Record)
    requires Valid(cfg) && AfterBoundary(cfg, r) && |r.after| < cfg.afterTotal && d.held(r.sequence)
    requires var t, answer := BeginAfter(|r.after|), d.lifecycle(AfterSide, |r.after|);
             answer.Some? && answer.value.succeeded ==>
               var intent := Appends(cfg, r, t);
               var n := Appends(cfg, intent, Completion(t, answer.value));
               Ready(cfg, n) && Yields(cfg, d, At(cfg, d, Executing(cfg, disk, intent, t, answer.value), n),
                                       PlainAfterRest(cfg, d, disk.canonical, r, answer))
    ensures Yields(cfg, d, At(cfg, d, disk, r),
                   PlainAfter(cfg, d, disk.canonical, r.before, r.application.value, r.after))
  {
    hide Appends, Shape, Yields, RecordIdentity, Enabled, Executing, WellFormed, Completion, PlainAfter, PlainAfterRest;
    AfterBoundaryFacts(cfg, r);
    BoundaryDecides(cfg, d, r);
    var t, answer := BeginAfter(|r.after|), d.lifecycle(AfterSide, |r.after|);
    PlainAfterUnfolds(cfg, d, disk.canonical, r);
    AfterRestIs(cfg, d, disk.canonical, r, answer);
    if answer.Some? && !answer.value.succeeded {
      var intent, n := LifecycleRecords(cfg, r, t, answer.value);
      FailedAfterYields(cfg, d, Executing(cfg, disk, intent, t, answer.value), n);
    }
    LifecycleYields(cfg, d, disk, r, t, PlainAfterRest(cfg, d, disk.canonical, r, answer));
  }

  lemma AfterRestIs(cfg: Config, d: Driver, canonical: string, r: Record, answer: Option<LifecycleFact>)
    requires r.application.Some?
    ensures answer.None? ==> PlainAfterRest(cfg, d, canonical, r, answer) == Plain([], Refusal)
    ensures answer.Some? && !answer.value.succeeded ==>
              PlainAfterRest(cfg, d, canonical, r, answer)
              == Plain([], Report(LifecycleFailedAfterApplication, r.before, r.application, r.after + [answer.value],
                                  None, None, None))
  {}

  function PlainAfterRest(cfg: Config, d: Driver, canonical: string, r: Record, answer: Option<LifecycleFact>): Plain
    requires r.application.Some?
  {
    if answer.None? then Plain([], Refusal)
    else if !answer.value.succeeded then
      Plain([], Report(LifecycleFailedAfterApplication, r.before, r.application, r.after + [answer.value],
                       None, None, None))
    else PlainAfter(cfg, d, canonical, r.before, r.application.value, r.after + [answer.value])
  }

  lemma PlainAfterUnfolds(cfg: Config, d: Driver, canonical: string, r: Record)
    requires r.application.Some? && |r.after| < cfg.afterTotal && d.held(2 * cfg.beforeTotal + 2 + 2 * |r.after|)
    ensures PlainAfter(cfg, d, canonical, r.before, r.application.value, r.after)
            == Called(Executed(AfterSide, |r.after|),
                      PlainAfterRest(cfg, d, canonical, r, d.lifecycle(AfterSide, |r.after|)))
  {}

  lemma FailedAfterYields(cfg: Config, d: Driver, disk: Disk, n: Record)
    requires Valid(cfg) && Ready(cfg, n) && n.stage == AfterTerminal && !LastSucceeded(n.after)
    ensures Yields(cfg, d, At(cfg, d, disk, n), Plain([], ReportWith(n, LifecycleFailedAfterApplication)))
    ensures !HasPublicationAuthority(n)
  {
    hide Yields, RecordIdentity;
    assert Enabled(n, SealTerminal(LifecycleFailedAfterApplication, None));
    SealYields(cfg, d, disk, n, LifecycleFailedAfterApplication);
  }

  lemma ApplyingMove(cfg: Config, d: Driver, canonical: string, intent: Record)
    requires Valid(cfg) && Shape(intent) && intent.stage == ApplicationIntent
    ensures Continue(cfg, d, intent, false) == Calling
    ensures Advance(cfg, d, canonical, Process(intent, Calling, false))
            == Move([AppliedApplication],
                    Process(intent, if !AcceptableReceipt(d.apply) then Stopped(Violation)
                                    else Deliver(cfg, CompleteApplication(d.apply.value)), false))
  {
    hide Shape;
  }

  function PlainApplied(cfg: Config, d: Driver, canonical: string, before: seq<LifecycleFact>): Plain {
    if !AcceptableReceipt(d.apply) then Plain([], Refusal)
    else if d.apply.value.outcome != ApplicationCompleted then
      Plain([], Report(if Classify(d.apply.value.outcome) == DefinitiveFailure then ApplicationNotCompleted
                       else ApplicationResolutionRequired,
                       before, d.apply, [], None, None, None))
    else PlainAfter(cfg, d, canonical, before, d.apply.value, [])
  }

  /** At the application's receipt: go on, seal a definitive failure, or leave it to external resolution. */
  lemma AppliedYields(cfg: Config, d: Driver, disk: Disk, n: Record)
    requires Valid(cfg) && WellFormedDriver(cfg, d) && Ready(cfg, n) && n.stage == ApplicationTerminal
    requires AcceptableReceipt(d.apply) && n.application == d.apply
    ensures Yields(cfg, d, At(cfg, d, disk, n), PlainApplied(cfg, d, disk.canonical, n.before))
  {
    hide Yields, RecordIdentity, WellFormedDriver, PlainAfter;
    if IsApplicationComplete(n) {
      AfterYields(cfg, d, disk, n);
    } else if Classify(d.apply.value.outcome) == DefinitiveFailure {
      assert Enabled(n, SealTerminal(ApplicationNotCompleted, None));
      SealYields(cfg, d, disk, n, ApplicationNotCompleted);
    } else {
      StoppedYields(cfg, d, At(cfg, d, disk, n), ReportWith(n, ApplicationResolutionRequired));
    }
  }

  lemma ApplicationYields(cfg: Config, d: Driver, disk: Disk, r: Record)
    requires Valid(cfg) && WellFormedDriver(cfg, d) && BeforeBoundary(cfg, r) && |r.before| == cfg.beforeTotal
    ensures Yields(cfg, d, At(cfg, d, disk, r), PlainApplication(cfg, d, disk.canonical, r.before))
  {
    hide Appends, Shape, Yields, Delivered, RecordIdentity, PlainAfter, WellFormedDriver, ApplicationFactShape;
    BeforeBoundaryFacts(cfg, r);
    BoundaryDecides(cfg, d, r);
    if !d.held(r.sequence) {
      hide Enabled;
      SealYields(cfg, d, disk, r, OuterLeaseLost);
    } else {
      var t := BeginApplication;
      assert Enabled(r, t);
      EnabledAppends(cfg, r, t);
      AppendsFacts(cfg, r, t);
      var intent := Appends(cfg, r, t);
      ApplyingMove(cfg, d, disk.canonical, intent);
      hide Advance;
      var appended := Emit(cfg, disk, Appended(intent));
      var called := Emit(cfg, appended, AppliedApplication);
      var rest := PlainApplied(cfg, d, disk.canonical, r.before);
      var next := Process(intent, if !AcceptableReceipt(d.apply) then Stopped(Violation)
                                  else Deliver(cfg, CompleteApplication(d.apply.value)), false);
      if !AcceptableReceipt(d.apply) {
        StoppedYields(cfg, d, State(called, next), Refusal);
      } else {
        var c := CompleteApplication(d.apply.value);
        ReceiptEnabled(cfg, d, intent);
        hide Enabled, WellFormed;
        EnabledAppends(cfg, intent, c);
        AppendsFacts(cfg, intent, c);
        DeliveredCanonical(cfg, called, intent, c);
        AppliedYields(cfg, d, Delivered(cfg, called, intent, c), Appends(cfg, intent, c));
        DeliverYields(cfg, d, called, intent, c, rest);
      }
      OneActionBefore(cfg, d, At(cfg, d, appended, intent), AppliedApplication, next, rest);
      AppendYields(cfg, d, disk, r, t, Called(AppliedApplication, rest));
    }
  }

  lemma ReceiptEnabled(cfg: Config, d: Driver, intent: Record)
    requires WellFormedDriver(cfg, d) && AcceptableReceipt(d.apply)
    requires Shape(intent) && intent.stage == ApplicationIntent
    ensures Enabled(intent, CompleteApplication(d.apply.value)) && WellFormed(CompleteApplication(d.apply.value))
  {}

  function PlainBeforeRest(cfg: Config, d: Driver, canonical: string, r: Record, answer: Option<LifecycleFact>): Plain {
    if answer.None? then Plain([], Refusal)
    else if !answer.value.succeeded then
      Plain([], Report(LifecycleFailedBeforeApplication, r.before + [answer.value], None, [], None, None, None))
    else PlainBefore(cfg, d, canonical, r.before + [answer.value])
  }

  lemma PlainBeforeUnfolds(cfg: Config, d: Driver, canonical: string, r: Record)
    requires |r.before| < cfg.beforeTotal && d.held(2 * |r.before|)
    ensures PlainBefore(cfg, d, canonical, r.before)
            == Called(Executed(BeforeSide, |r.before|),
                      PlainBeforeRest(cfg, d, canonical, r, d.lifecycle(BeforeSide, |r.before|)))
  {}

  lemma FailedBeforeYields(cfg: Config, d: Driver, disk: Disk, n: Record)
    requires Valid(cfg) && Ready(cfg, n) && n.stage == BeforeTerminal && !LastSucceeded(n.before)
    ensures Yields(cfg, d, At(cfg, d, disk, n), Plain([], ReportWith(n, LifecycleFailedBeforeApplication)))
    ensures !HasPublicationAuthority(n) && n.application.None? && n.after == []
  {
    hide Yields, RecordIdentity;
    assert Enabled(n, SealTerminal(LifecycleFailedBeforeApplication, None));
    SealYields(cfg, d, disk, n, LifecycleFailedBeforeApplication);
  }

  lemma {:induction false} BeforeYields(cfg: Config, d: Driver, disk: Disk, r: Record)
    requires Valid(cfg) && WellFormedDriver(cfg, d) && BeforeBoundary(cfg, r)
    ensures Yields(cfg, d, At(cfg, d, disk, r), PlainBefore(cfg, d, disk.canonical, r.before))
    decreases cfg.beforeTotal - |r.before|
  {
    hide Appends, Shape, Yields, Delivered, RecordIdentity, WellFormedDriver, PlainApplication, Enabled, Emit,
      WellFormed, Completion, SideOf;
    BeforeBoundaryFacts(cfg, r);
    BoundaryDecides(cfg, d, r);
    if |r.before| == cfg.beforeTotal {
      ApplicationYields(cfg, d, disk, r);
    } else if !d.held(r.sequence) {
      SealYields(cfg, d, disk, r, OuterLeaseLost);
    } else {
      var t, answer := BeginBefore(|r.before|), d.lifecycle(BeforeSide, |r.before|);
      if answer.Some? && answer.value.succeeded {
        var intent, n := LifecycleRecords(cfg, r, t, answer.value);
        ExecutingCanonical(cfg, disk, intent, t, answer.value);
        BeforeYields(cfg, d, Executing(cfg, disk, intent, t, answer.value), n);
      }
      BeforeStepYields(cfg, d, disk, r);
    }
  }

  /** One pre-lifecycle effect, given that the execution goes on as planned when it succeeds. */
  lemma BeforeStepYields(cfg: Config, d: Driver, disk: Disk, r: Record)
    requires Valid(cfg) && BeforeBoundary(cfg, r) && |r.before| < cfg.beforeTotal && d.held(r.sequence)
    requires var t, answer := BeginBefore(|r.before|), d.lifecycle(BeforeSide, |r.before|);
             answer.Some? && answer.value.succeeded ==>
               var intent := Appends(cfg, r, t);
               var n := Appends(cfg, intent, Completion(t, answer.value));
               Ready(cfg, n) && Yields(cfg, d, At(cfg, d, Executing(cfg, disk, intent, t, answer.value), n),
                                       PlainBeforeRest(cfg, d, disk.canonical, r, answer))
    ensures Yields(cfg, d, At(cfg, d, disk, r), PlainBefore(cfg, d, disk.canonical, r.before))
  {
    hide Appends, Shape, Yields, RecordIdentity, Enabled, Executing, WellFormed, Completion, PlainBefore,
      PlainBeforeRest;
    BeforeBoundaryFacts(cfg, r);
    BoundaryDecides(cfg, d, r);
    var t, answer := BeginBefore(|r.before|), d.lifecycle(BeforeSide, |r.before|);
    PlainBeforeUnfolds(cfg, d, disk.canonical, r);
    BeforeRestIs(cfg, d, disk.canonical, r, answer);
    if answer.Some? && !answer.value.succeeded {
      var intent, n := LifecycleRecords(cfg, r, t, answer.value);
      FailedBeforeYields(cfg, d, Executing(cfg, disk, intent, t, answer.value), n);
    }
    LifecycleYields(cfg, d, disk, r, t, PlainBeforeRest(cfg, d, disk.canonical, r, answer));
  }

  lemma BeforeRestIs(cfg: Config, d: Driver, canonical: string, r: Record, answer: Option<LifecycleFact>)
    ensures answer.None? ==> PlainBeforeRest(cfg, d, canonical, r, answer) == Plain([], Refusal)
    ensures answer.Some? && !answer.value.succeeded ==>
              PlainBeforeRest(cfg, d, canonical, r, answer)
              == Plain([], Report(LifecycleFailedBeforeApplication, r.before + [answer.value], None, [], None, None,
                                  None))
  {}

  /** The whole durable execution of a new attempt: same calls, same order, same result. */
  lemma JournalingIsTransparent(cfg: Config, d: Driver, disk: Disk)
    requires Valid(cfg) && WellFormedDriver(cfg, d)
    requires disk.head.None? || disk.head.value == Admission(cfg)
    ensures Yields(cfg, d, State(disk, Fresh(cfg, disk)), PlainBefore(cfg, d, disk.canonical, []))
  {
    hide Yields, WellFormedDriver, PlainBefore, RecordIdentity;
    var r := Admission(cfg);
    BeforeYields(cfg, d, Emit(cfg, disk, Appended(r)), r);
    OneActionBefore(cfg, d, State(disk, Fresh(cfg, disk)), Appended(r),
                    Process(r, Continue(cfg, d, r, false), false), PlainBefore(cfg, d, disk.canonical, []));
  }
}
