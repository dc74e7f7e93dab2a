/**
  One controller attempt as a process that performs one action at a time: append a
  record, call the driver, read canonical state, or retain a body.  A crash is a process
  cut after any number of actions; what survives it is the disk.  The durable executor
  and the restart are two ways to start a process; the methods in EffectExecutor are
  proved to perform exactly the actions of `Run`.
 */
module EffectProtocol {
  import opened Wrappers
  import opened Identity
  import opened EffectJournal

  const TRANSACTION_DOMAIN := "pkgctl/transaction-evidence/1"

  /** An admitted operation session, and the lower layers' projections it relies on. */
  datatype Config = Config(
    sha: Sha256, session: Digest, beforeTotal: nat, afterTotal: nat, nonce: Nonce,
    expected: string,                        // the state snapshot the operation is based on
    project: (string, string) -> string,     // completed evidence, transaction -> publication request
    resulting: string -> string,             // publication request -> resulting snapshot
    keepBodies: bool)                        // whether a body sink is present

  datatype Side = BeforeSide | AfterSide

  /** What a compare-and-publish call answers, and whether it moved canonical state. */
  datatype Publication = Publication(receipt: PublicationReceipt, moved: bool)

  /**
    The answers of one driver.  `None` stands for evidence that the controller refuses as
    belonging to another authority.  The lease is observed at a given journal sequence;
    `heldAtEntry` is the extra observation that a restart makes first.
   */
  datatype Driver = Driver(
    lifecycle: (Side, nat) -> Option<LifecycleFact>,
    apply: Option<ApplicationFact>,
    resume: Option<ApplicationFact>,
    publish: (string, string) -> Publication,   // request, current canonical state
    held: nat -> bool,
    heldAtEntry: bool)

  datatype Body = LifecycleBody(fact: LifecycleFact) | ApplicationBody(receipt: ApplicationFact)
                | RequestBody(request: string) | ReceiptBody(published: PublicationReceipt)

  datatype Event = Appended(record: Record) | Executed(side: Side, index: nat)
                 | AppliedApplication | ResumedApplication
                 | ReadState(observed: string) | PublishedState(request: string, moved: bool)
                 | Retained(body: Body)

  datatype Disk = Disk(head: Option<Record>, canonical: string, log: seq<Event>)

  datatype Stop = Sealed | ResolutionRequired | Unconfirmed | Violation | Refused | NoLease

  /** What the process does next. */
  datatype Pc = Admitting
              | Calling                     // the intent is durable, its driver call is not made
              | Resuming                    // as Calling, for an application left at its intent
              | Observing | Republishing    // reconciliation of a publication
              | Keeping(kept: Transition)   // retain the body of a transition before appending it
              | Appending(next: Transition)
              | Stopped(reason: Stop)

  datatype Process = Process(journal: Record, pc: Pc, reconciling: bool)

  datatype Move = Move(events: seq<Event>, next: Process)

  predicate Valid(cfg: Config) {
    cfg.beforeTotal <= MAXIMUM_LIFECYCLE_COUNT && cfg.afterTotal <= MAXIMUM_LIFECYCLE_COUNT
  }

  /** Admission is refused exactly when a lifecycle count exceeds the bound of the encoding, 2^16. */
  lemma AdmitIff(sha: Sha256, session: Digest, beforeTotal: nat, afterTotal: nat, nonce: Nonce)
    ensures Admit(sha, session, beforeTotal, afterTotal, nonce).Success?
            <==> beforeTotal <= 65536 && afterTotal <= 65536
  {}

  function Admission(cfg: Config): (r: Record)
    requires Valid(cfg)
    ensures r.stage == Admitted && r.sequence == 0
    ensures ShapeValid(cfg.sha, r) && r.beforeTotal == cfg.beforeTotal && r.afterTotal == cfg.afterTotal
  {
    AdmitIff(cfg.sha, cfg.session, cfg.beforeTotal, cfg.afterTotal, cfg.nonce);
    Admit(cfg.sha, cfg.session, cfg.beforeTotal, cfg.afterTotal, cfg.nonce).value
  }

  // ---------------------------------------------------------------- pure pieces of the executors

  function Results(facts: seq<LifecycleFact>): seq<string> {
    if facts == [] then [] else [facts[0].result] + Results(facts[1..])
  }

  function CompletedEvidence(application: Option<ApplicationFact>): string {
    if application.Some? then OrEmpty(application.value.completedEvidence) else ""
  }

  /** Session, counted results before, completed evidence, counted results after. */
  function TransactionFields(session: Digest, before: seq<LifecycleFact>, completed: string,
                             after: seq<LifecycleFact>): seq<string>
  {
    [session, Decimal(|before|)] + Results(before) + [completed, Decimal(|after|)] + Results(after)
  }

  function TransactionEvidence(cfg: Config, before: seq<LifecycleFact>, completed: string,
                               after: seq<LifecycleFact>): string
  {
    "v1:sha256:" + MakeSessionIdentity(cfg.sha, TRANSACTION_DOMAIN,
                                       TransactionFields(cfg.session, before, completed, after))
  }

  /** The publication that complete evidence projects to. */
  function Projection(cfg: Config, r: Record): Transition {
    var completed := CompletedEvidence(r.application);
    var transaction := TransactionEvidence(cfg, r.before, completed, r.after);
    BeginPublication(transaction, cfg.project(completed, transaction))
  }

  function PublicationResult(outcome: PublicationOutcome): OperationOutcome {
    match outcome
    case Published => Completed
    case PublishedDurabilityUnconfirmed | PublicationIndeterminate => StatePublicationIndeterminate
    case StaleExpectedState | RequestRejected | FailedBeforePublication => StatePublicationNotCompleted
  }

  predicate AcceptableReceipt(answer: Option<ApplicationFact>) {
    answer.Some? && (answer.value.outcome == ApplicationCompleted ==> answer.value.completedEvidence.Some?)
  }

  function BodyOf(t: Transition): Option<Body> {
    match t
    case CompleteBefore(fact) => Some(LifecycleBody(fact))
    case CompleteAfter(fact) => Some(LifecycleBody(fact))
    case CompleteApplication(receipt) => Some(ApplicationBody(receipt))
    case BeginPublication(_, request) => Some(RequestBody(request))
    case CompletePublication(published) => Some(ReceiptBody(published))
    case _ => None
  }

  function Deliver(cfg: Config, t: Transition): Pc {
    if cfg.keepBodies && BodyOf(t).Some? then Keeping(t) else Appending(t)
  }

  // ---------------------------------------------------------------- what follows a durable record

  /** At a boundary: seal a lost lease, or begin the next effect in order. */
  function Decide(cfg: Config, d: Driver, r: Record): Pc {
    if !d.held(r.sequence) then Appending(SealTerminal(OuterLeaseLost, None))
    else if r.stage == Admitted || r.stage == BeforeTerminal then
      if |r.before| < cfg.beforeTotal then Appending(BeginBefore(|r.before|)) else Appending(BeginApplication)
    else if |r.after| < cfg.afterTotal then Appending(BeginAfter(|r.after|))
    else Deliver(cfg, Projection(cfg, r))
  }

  function Continue(cfg: Config, d: Driver, r: Record, reconciling: bool): Pc
    requires Shape(r)
  {
    match r.stage
    case Admitted => Decide(cfg, d, r)
    case BeforeIntent | ApplicationIntent | AfterIntent | PublicationIntent => Calling
    case BeforeTerminal =>
      if LastSucceeded(r.before) then Decide(cfg, d, r)
      else Appending(SealTerminal(LifecycleFailedBeforeApplication, None))
    case ApplicationTerminal => (
      match Classify(r.application.value.outcome)
      case CompletedApplication => Decide(cfg, d, r)
      case DefinitiveFailure => Appending(SealTerminal(ApplicationNotCompleted, None))
      case ExternalResolution => Stopped(ResolutionRequired)
      )
    case AfterTerminal =>
      if LastSucceeded(r.after) then Decide(cfg, d, r)
      else Appending(SealTerminal(LifecycleFailedAfterApplication, None))
    case PublicationTerminal =>
      if !reconciling && !d.held(r.sequence) then Appending(SealTerminal(OuterLeaseLost, None))
      else if !Definite(r.publication.value.outcome) then Stopped(Unconfirmed)
      else Appending(SealTerminal(PublicationResult(r.publication.value.outcome), None))
    case Terminal => Stopped(Sealed)
  }

  // ---------------------------------------------------------------- one action

  function Publish(cfg: Config, d: Driver, canonical: string, p: Process): Move {
    var request := OrEmpty(p.journal.publicationRequest);
    var answer := d.publish(request, canonical);
    Move([PublishedState(request, answer.moved)],
         p.(pc := if answer.receipt.request != request then Stopped(Violation)
                  else Deliver(cfg, CompletePublication(answer.receipt))))
  }

  function Call(cfg: Config, d: Driver, canonical: string, p: Process): Move {
    var r := p.journal;
    match r.stage
    case BeforeIntent =>
      var answer := d.lifecycle(BeforeSide, |r.before|);
      Move([Executed(BeforeSide, |r.before|)],
           p.(pc := if answer.None? then Stopped(Violation) else Deliver(cfg, CompleteBefore(answer.value))))
    case AfterIntent =>
      var answer := d.lifecycle(AfterSide, |r.after|);
      Move([Executed(AfterSide, |r.after|)],
           p.(pc := if answer.None? then Stopped(Violation) else Deliver(cfg, CompleteAfter(answer.value))))
    case ApplicationIntent =>
      Move([AppliedApplication],
           p.(pc := if !AcceptableReceipt(d.apply) then Stopped(Violation)
                    else Deliver(cfg, CompleteApplication(d.apply.value))))
    case PublicationIntent => Publish(cfg, d, canonical, p)
    case _ => Move([], p.(pc := Stopped(Refused)))
  }

  function Advance(cfg: Config, d: Driver, canonical: string, p: Process): Move
    requires Valid(cfg)
  {
    match p.pc
    case Stopped(_) => Move([], p)
    case Admitting =>
      var r := Admission(cfg);
      Move([Appended(r)], Process(r, Continue(cfg, d, r, false), false))
    case Calling => Call(cfg, d, canonical, p)
    case Resuming =>
      Move([ResumedApplication],
           p.(pc := if !AcceptableReceipt(d.resume) then Stopped(Violation)
                    else Deliver(cfg, CompleteApplication(d.resume.value))))
    case Observing =>
      var request := OrEmpty(p.journal.publicationRequest);
      Move([ReadState(canonical)],
           p.(pc := if canonical == cfg.resulting(request) then
                      Appending(SealTerminal(Completed, Some(canonical)))
                    else if canonical != cfg.expected || p.journal.stage == PublicationTerminal then
                      Stopped(ResolutionRequired)
                    else Republishing))
    case Republishing => Publish(cfg, d, canonical, p)
    case Keeping(t) =>
      Move(if BodyOf(t).Some? then [Retained(BodyOf(t).value)] else [], p.(pc := Appending(t)))
    case Appending(t) =>
      match Apply(cfg.sha, p.journal, t)
      case Failure(_) => Move([], p.(pc := Stopped(Refused)))
      case Success(r) =>
        Move([Appended(r)], Process(r, Continue(cfg, d, r, p.reconciling), p.reconciling))
  }

  function Emit(cfg: Config, disk: Disk, event: Event): Disk {
    var logged := disk.(log := disk.log + [event]);
    match event
    case Appended(r) => logged.(head := Some(r))
    case PublishedState(request, true) => logged.(canonical := cfg.resulting(request))
    case _ => logged
  }

  function EmitAll(cfg: Config, disk: Disk, events: seq<Event>): Disk {
    if events == [] then disk else Emit(cfg, EmitAll(cfg, disk, events[..|events| - 1]), events[|events| - 1])
  }

  datatype State = State(disk: Disk, process: Process)

  lemma EmitOne(cfg: Config, disk: Disk, e: Event)
    ensures EmitAll(cfg, disk, [e]) == Emit(cfg, disk, e)
  {
    assert [e][..0] == [];
    assert EmitAll(cfg, disk, []) == disk;
  }

  function Step(cfg: Config, d: Driver, s: State): State
    requires Valid(cfg)
  {
    var move := Advance(cfg, d, s.disk.canonical, s.process);
    State(EmitAll(cfg, s.disk, move.events), move.next)
  }

  /** The first `n` actions of a process; cutting it there is a crash. */
  function Run(cfg: Config, d: Driver, s: State, n: nat): State
    requires Valid(cfg)
    decreases n
  {
    if n == 0 || s.process.pc.Stopped? then s else Run(cfg, d, Step(cfg, d, s), n - 1)
  }

  // ---------------------------------------------------------------- the two ways to start

  /** The durable executor: its admission is new, or the exact retry of the latest record. */
  function Fresh(cfg: Config, disk: Disk): Process
    requires Valid(cfg)
  {
    var admission := Admission(cfg);
    Process(admission,
            if disk.head.None? || disk.head.value == admission then Admitting else Stopped(Refused), false)
  }

  datatype Disposition = ContinueBefore | StartApplication | ResumeApplication | ContinueAfterApplication
                       | ContinueAfter | StartPublication | ReconcilePublication | SealNow | AlreadyTerminal
                       | ExternalResolutionRequired

  function Assess(r: Record): Disposition
    requires Shape(r)
  {
    match r.stage
    case Admitted => if r.beforeTotal == 0 then StartApplication else ContinueBefore
    case BeforeIntent => ExternalResolutionRequired
    case BeforeTerminal =>
      if !LastSucceeded(r.before) then SealNow
      else if |r.before| < r.beforeTotal then ContinueBefore else StartApplication
    case ApplicationIntent => ResumeApplication
    case ApplicationTerminal => (
      match Classify(r.application.value.outcome)
      case DefinitiveFailure => SealNow
      case ExternalResolution => ExternalResolutionRequired
      case CompletedApplication => if r.afterTotal == 0 then StartPublication else ContinueAfterApplication
      )
    case AfterIntent => ExternalResolutionRequired
    case AfterTerminal =>
      if !LastSucceeded(r.after) then SealNow
      else if |r.after| < r.afterTotal then ContinueAfter else StartPublication
    case PublicationIntent => ReconcilePublication
    case PublicationTerminal =>
      if !Definite(r.publication.value.outcome) then ReconcilePublication else SealNow
    case Terminal => AlreadyTerminal
  }

  /** How the application layer judges its own journal. */
  datatype Subordinate = SubordinateContinues | SubordinateTerminal | SubordinateExternal

  /**
    What a restart brings along: whether the application's declaration and journal were
    found, how the application layer judges them, and a receipt that is ahead of the
    controller journal.  The lifecycle and publication bodies equal the journal's facts,
    as the checkpoint constructor demands, and are not repeated.
   */
  datatype Checkpoint = Checkpoint(declared: bool, subordinate: Subordinate, ahead: Option<ApplicationFact>)

  predicate CheckpointFits(r: Record, c: Checkpoint) {
    && (c.declared ==> r.stage == ApplicationIntent)
    && (c.ahead.Some? ==>
          && r.stage == ApplicationIntent && c.declared && c.subordinate == SubordinateTerminal
          && AcceptableReceipt(c.ahead))
  }

  /** Whether a restart asks for the driver that performs lifecycle steps and the application. */
  predicate NeedsContinuation(r: Record, c: Checkpoint)
    requires Shape(r)
  {
    match Assess(r)
    case ExternalResolutionRequired | ReconcilePublication | SealNow | AlreadyTerminal => false
    case ResumeApplication => c.declared
    case _ => true
  }

  function SealOutcome(r: Record): OperationOutcome
    requires Shape(r) && Assess(r) == SealNow
  {
    match r.stage
    case BeforeTerminal => LifecycleFailedBeforeApplication
    case ApplicationTerminal => ApplicationNotCompleted
    case AfterTerminal => LifecycleFailedAfterApplication
    case PublicationTerminal => PublicationResult(r.publication.value.outcome)
  }

  function RestartPc(cfg: Config, d: Driver, r: Record, c: Checkpoint): Pc
    requires Shape(r)
  {
    match Assess(r)
    case ExternalResolutionRequired => Stopped(ResolutionRequired)
    case AlreadyTerminal => Stopped(Sealed)
    case SealNow => Appending(SealTerminal(SealOutcome(r), None))
    case ReconcilePublication => Observing
    case ResumeApplication =>
      if !c.declared || c.subordinate == SubordinateExternal
         || (c.subordinate == SubordinateTerminal && c.ahead.None?) then Stopped(ResolutionRequired)
      else if !d.heldAtEntry then Stopped(NoLease)
      else if c.ahead.Some? then Appending(CompleteApplication(c.ahead.value))
      else if !d.held(r.sequence) then Appending(SealTerminal(OuterLeaseLost, None))
      else Resuming
    case _ => if !d.heldAtEntry then Stopped(NoLease) else Decide(cfg, d, r)
  }

  /** The restart, at the latest durable record; a checkpoint that does not fit is refused. */
  function Restart(cfg: Config, d: Driver, disk: Disk, c: Checkpoint): Process
    requires Valid(cfg) && (disk.head.Some? ==> Shape(disk.head.value))
  {
    if disk.head.None? then Process(Admission(cfg), Stopped(Refused), false)
    else
      var r := disk.head.value;
      if !CheckpointFits(r, c) then Process(r, Stopped(Refused), false)
      else Process(r, RestartPc(cfg, d, r, c), Assess(r) == ReconcilePublication)
  }
}
