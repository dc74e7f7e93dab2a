/**
  The durable controller-attempt journal: immutable records over ten stages, the
  transition methods, the shape validator with its closed-form sequence count, and the
  successor relation.  Results about them are in EffectJournalLaws.
 */
module EffectJournal {
  import opened Wrappers
  import opened Identity

  const MAXIMUM_LIFECYCLE_COUNT: nat := 65536
  const MAXIMUM_SEQUENCE: nat := 0xFFFF_FFFF_FFFF_FFFF
  const RECORD_DOMAIN := "pkgctl/effect-attempt-record/1"
  const ATTEMPT_DOMAIN := "pkgctl/effect-attempt/1"

  datatype JournalError = InvalidNonce | InvalidRecord | InvalidTransition | CorruptEncoding
                        | UnsupportedEncoding | StoreConflict | StoreCorrupt

  datatype Stage = Admitted | BeforeIntent | BeforeTerminal | ApplicationIntent | ApplicationTerminal
                 | AfterIntent | AfterTerminal | PublicationIntent | PublicationTerminal | Terminal

  datatype ApplicationOutcome = PreconditionRefused | FailedBeforeTargetMutation | ApplicationCompleted
                              | FailedFullyRecovered | FailedWithPartialEffects
                              | EffectsVisibleDurabilityUnconfirmed | ApplicationIndeterminate

  datatype Classification = CompletedApplication | DefinitiveFailure | ExternalResolution

  datatype PublicationOutcome = Published | StaleExpectedState | RequestRejected
                              | FailedBeforePublication | PublishedDurabilityUnconfirmed
                              | PublicationIndeterminate

  datatype OperationOutcome = LifecycleFailedBeforeApplication | ApplicationNotCompleted
                            | LifecycleFailedAfterApplication | OuterLeaseLost
                            | StatePublicationNotCompleted | StatePublicationIndeterminate
                            | Completed | ApplicationResolutionRequired

  /** Thirty-two caller-issued bytes, not all zero. */
  type Nonce = n: seq<Octet> | IsNonce(n) witness (var n := seq(32, _ => 'n'); assert n[0] == 'n'; n)

  predicate IsNonce(n: seq<Octet>) {
    |n| == 32 && exists i | 0 <= i < 32 :: n[i] != 0 as char
  }

  /** A lifecycle result, reduced to what the journal retains of it. */
  datatype LifecycleFact = LifecycleFact(result: Digest, succeeded: bool)

  datatype ApplicationFact = ApplicationFact(receipt: string, outcome: ApplicationOutcome,
                                             journal: Option<string>, completedEvidence: Option<string>)

  datatype PublicationFact = PublicationFact(receipt: string, outcome: PublicationOutcome,
                                             resultingSnapshot: Option<string>)

  /** A publication receipt also names the request that it answers. */
  datatype PublicationReceipt = PublicationReceipt(request: string, fact: PublicationFact)

  datatype Record = Record(
    identity: Digest, attempt: Digest, session: Digest, nonce: Nonce,
    sequence: nat, previous: Option<Digest>, beforeTotal: nat, afterTotal: nat,
    stage: Stage, activeIndex: Option<nat>,
    before: seq<LifecycleFact>, application: Option<ApplicationFact>, after: seq<LifecycleFact>,
    transactionEvidence: Option<string>, publicationRequest: Option<string>,
    publication: Option<PublicationFact>, terminalOutcome: Option<OperationOutcome>,
    reconciledState: Option<string>)

  // ---------------------------------------------------------------- text of the fields

  /** Typed identities of the lower layers are written "v1:sha256:" and a digest. */
  predicate Canonical(s: string) {
    |s| == 74 && s[..10] == "v1:sha256:" && IsHex64(s[10..])
  }

  predicate CanonicalIfPresent(s: Option<string>) {
    s.Some? ==> Canonical(s.value)
  }

  function Digit(n: nat): char
    requires n < 10
  {
    '0' + n as char
  }

  function Decimal(n: nat): (s: string)
    ensures s != []
  {
    if n < 10 then [Digit(n)] else Decimal(n / 10) + [Digit(n % 10)]
  }

  function HexDigit(n: nat): (c: char)
    requires n < 16
    ensures IsHexDigit(c)
  {
    if n < 10 then '0' + n as char else 'a' + (n - 10) as char
  }

  function HexText(bytes: seq<Octet>): (s: string)
    ensures |s| == 2 * |bytes| && forall i | 0 <= i < |s| :: IsHexDigit(s[i])
  {
    if bytes == [] then []
    else [HexDigit(bytes[0] as int / 16), HexDigit(bytes[0] as int % 16)] + HexText(bytes[1..])
  }

  function StageCode(stage: Stage): nat {
    match stage
    case Admitted => 1
    case BeforeIntent => 2
    case BeforeTerminal => 3
    case ApplicationIntent => 4
    case ApplicationTerminal => 5
    case AfterIntent => 6
    case AfterTerminal => 7
    case PublicationIntent => 8
    case PublicationTerminal => 9
    case Terminal => 10
  }

  function ApplicationCode(outcome: ApplicationOutcome): nat {
    match outcome
    case PreconditionRefused => 1
    case FailedBeforeTargetMutation => 2
    case ApplicationCompleted => 3
    case FailedFullyRecovered => 4
    case FailedWithPartialEffects => 5
    case EffectsVisibleDurabilityUnconfirmed => 6
    case ApplicationIndeterminate => 7
  }

  function PublicationCode(outcome: PublicationOutcome): nat {
    match outcome
    case Published => 1
    case StaleExpectedState => 2
    case RequestRejected => 3
    case FailedBeforePublication => 4
    case PublishedDurabilityUnconfirmed => 5
    case PublicationIndeterminate => 6
  }

  function OutcomeCode(outcome: OperationOutcome): nat {
    match outcome
    case LifecycleFailedBeforeApplication => 0
    case ApplicationNotCompleted => 1
    case LifecycleFailedAfterApplication => 2
    case OuterLeaseLost => 3
    case StatePublicationNotCompleted => 4
    case StatePublicationIndeterminate => 5
    case Completed => 6
    case ApplicationResolutionRequired => 7
  }

  function BoolText(b: bool): string {
    if b then "1" else "0"
  }

  function OrEmpty(s: Option<string>): string {
    if s.Some? then s.value else ""
  }

  function FactFields(facts: seq<LifecycleFact>): (fields: seq<string>)
    ensures |fields| == 2 * |facts|
  {
    if facts == [] then []
    else [facts[0].result, BoolText(facts[0].succeeded)] + FactFields(facts[1..])
  }

  function ApplicationFields(application: Option<ApplicationFact>): (fields: seq<string>)
    ensures |fields| == 4
  {
    match application
    case None => ["", "", "", ""]
    case Some(a) => [a.receipt, Decimal(ApplicationCode(a.outcome)), OrEmpty(a.journal),
                     OrEmpty(a.completedEvidence)]
  }

  function PublicationFields(publication: Option<PublicationFact>): (fields: seq<string>)
    ensures |fields| == 3
  {
    match publication
    case None => ["", "", ""]
    case Some(p) => [p.receipt, Decimal(PublicationCode(p.outcome)), OrEmpty(p.resultingSnapshot)]
  }

  function HeaderFields(r: Record): (fields: seq<string>)
    ensures |fields| == 9
  {
    [r.attempt, r.session, HexText(r.nonce), Decimal(r.sequence),
     if r.previous.Some? then r.previous.value else "",
     Decimal(r.beforeTotal), Decimal(r.afterTotal), Decimal(StageCode(r.stage)),
     if r.activeIndex.Some? then Decimal(r.activeIndex.value) else ""]
  }

  function TailFields(r: Record): (fields: seq<string>)
    ensures |fields| == 7
  {
    [OrEmpty(r.transactionEvidence), OrEmpty(r.publicationRequest)]
    + PublicationFields(r.publication)
    + [if r.terminalOutcome.Some? then Decimal(OutcomeCode(r.terminalOutcome.value)) else "",
       OrEmpty(r.reconciledState)]
  }

  /** The field vector that a record's identity is made of; it leaves the identity out. */
  function IdentityFields(r: Record): seq<string> {
    HeaderFields(r)
    + [Decimal(|r.before|)] + FactFields(r.before)
    + ApplicationFields(r.application)
    + [Decimal(|r.after|)] + FactFields(r.after)
    + TailFields(r)
  }

  function RecordIdentity(sha: Sha256, r: Record): Digest {
    MakeSessionIdentity(sha, RECORD_DOMAIN, IdentityFields(r))
  }

  // ---------------------------------------------------------------- evidence predicates

  function Classify(outcome: ApplicationOutcome): Classification {
    match outcome
    case ApplicationCompleted => CompletedApplication
    case PreconditionRefused | FailedBeforeTargetMutation | FailedFullyRecovered => DefinitiveFailure
    case FailedWithPartialEffects | EffectsVisibleDurabilityUnconfirmed
      | ApplicationIndeterminate => ExternalResolution
  }

  predicate AllSucceeded(facts: seq<LifecycleFact>) {
    forall i | 0 <= i < |facts| :: facts[i].succeeded
  }

  predicate PrefixSucceeded(facts: seq<LifecycleFact>) {
    facts == [] || AllSucceeded(facts[..|facts| - 1])
  }

  predicate LastSucceeded(facts: seq<LifecycleFact>) {
    facts != [] && facts[|facts| - 1].succeeded
  }

  predicate BeforeComplete(r: Record) {
    |r.before| == r.beforeTotal && AllSucceeded(r.before)
  }

  predicate IsApplicationComplete(r: Record) {
    r.application.Some? && r.application.value.outcome == ApplicationCompleted
  }

  predicate AfterComplete(r: Record) {
    |r.after| == r.afterTotal && AllSucceeded(r.after)
  }

  predicate HasPublicationAuthority(r: Record) {
    r.transactionEvidence.Some? || r.publicationRequest.Some? || r.publication.Some?
  }

  predicate Definite(outcome: PublicationOutcome) {
    outcome != PublishedDurabilityUnconfirmed && outcome != PublicationIndeterminate
  }

  predicate NotPublished(outcome: PublicationOutcome) {
    outcome == StaleExpectedState || outcome == RequestRejected || outcome == FailedBeforePublication
  }

  predicate IsIntent(stage: Stage) {
    stage == BeforeIntent || stage == ApplicationIntent || stage == AfterIntent || stage == PublicationIntent
  }

  // ---------------------------------------------------------------- the shape validator

  /** The closed-form number of transitions that the retained evidence accounts for. */
  function RetainedTransitionCount(r: Record): Option<nat>
    requires r.stage == Terminal ==> r.terminalOutcome.Some?
  {
    var before, after := |r.before|, |r.after|;
    var applicationBase := 2 * r.beforeTotal;
    var afterBase := applicationBase + 2;
    var publicationBase := afterBase + 2 * r.afterTotal;
    match r.stage
    case Admitted => Some(0)
    case BeforeIntent => Some(2 * before + 1)
    case BeforeTerminal => Some(2 * before)
    case ApplicationIntent => Some(applicationBase + 1)
    case ApplicationTerminal => Some(applicationBase + 2)
    case AfterIntent => Some(afterBase + 2 * after + 1)
    case AfterTerminal => Some(afterBase + 2 * after)
    case PublicationIntent => Some(publicationBase + 1)
    case PublicationTerminal => Some(publicationBase + 2)
    case Terminal =>
      match r.terminalOutcome.value
      case LifecycleFailedBeforeApplication => Some(2 * before + 1)
      case ApplicationNotCompleted => Some(applicationBase + 3)
      case LifecycleFailedAfterApplication => Some(afterBase + 2 * after + 1)
      case StatePublicationNotCompleted => Some(publicationBase + 3)
      case StatePublicationIndeterminate => Some(publicationBase + 3)
      case Completed => Some(publicationBase + if r.publication.Some? then 3 else 2)
      case ApplicationResolutionRequired => None
      case OuterLeaseLost =>
        if r.publication.Some? then Some(publicationBase + 3)
        else if r.transactionEvidence.Some? then None
        else if r.after != [] then Some(afterBase + 2 * after + 1)
        else if r.application.Some? then Some(applicationBase + 3)
        else if r.before != [] then Some(2 * before + 1)
        else Some(1)
  }

  predicate HeaderShape(r: Record) {
    && |r.before| <= r.beforeTotal && |r.after| <= r.afterTotal
    && (r.sequence == 0 <==> r.previous.None?)
    && (r.sequence == 0 <==> r.stage == Admitted)
    && (r.stage == Terminal <==> r.terminalOutcome.Some?)
    && (r.reconciledState.Some? ==> r.terminalOutcome == Some(Completed))
    && (r.activeIndex.Some? <==> r.stage == BeforeIntent || r.stage == AfterIntent)
    && (r.stage == BeforeIntent ==> r.activeIndex == Some(|r.before|))
    && (r.stage == AfterIntent ==> r.activeIndex == Some(|r.after|))
  }

  predicate ApplicationFactShape(a: ApplicationFact) {
    && Canonical(a.receipt) && CanonicalIfPresent(a.journal) && CanonicalIfPresent(a.completedEvidence)
    && (a.outcome == ApplicationCompleted <==> a.completedEvidence.Some?)
  }

  predicate PublicationFactShape(p: PublicationFact) {
    Canonical(p.receipt) && CanonicalIfPresent(p.resultingSnapshot)
  }

  predicate IdentityShape(r: Record) {
    && (r.application.Some? ==> ApplicationFactShape(r.application.value))
    && CanonicalIfPresent(r.transactionEvidence) && CanonicalIfPresent(r.publicationRequest)
    && (r.publication.Some? ==> PublicationFactShape(r.publication.value))
    && CanonicalIfPresent(r.reconciledState)
  }

  predicate CausalShape(r: Record) {
    && (r.application.Some? ==> BeforeComplete(r))
    && (r.after != [] ==> IsApplicationComplete(r))
    && (HasPublicationAuthority(r) ==>
          && IsApplicationComplete(r) && AfterComplete(r)
          && r.transactionEvidence.Some? && r.publicationRequest.Some?)
  }

  predicate TerminalShape(r: Record)
    requires r.terminalOutcome.Some?
  {
    match r.terminalOutcome.value
    case LifecycleFailedBeforeApplication =>
      r.before != [] && !LastSucceeded(r.before) && r.application.None? && r.after == []
      && !HasPublicationAuthority(r)
    case ApplicationNotCompleted =>
      r.application.Some? && !IsApplicationComplete(r) && r.after == [] && !HasPublicationAuthority(r)
      && Classify(r.application.value.outcome) == DefinitiveFailure
    case ApplicationResolutionRequired => false
    case LifecycleFailedAfterApplication =>
      IsApplicationComplete(r) && r.after != [] && !LastSucceeded(r.after) && !HasPublicationAuthority(r)
    case OuterLeaseLost =>
      r.activeIndex.None? && (r.publicationRequest.Some? ==> r.transactionEvidence.Some?)
    case StatePublicationNotCompleted =>
      r.publication.Some? && NotPublished(r.publication.value.outcome)
    case StatePublicationIndeterminate =>
      r.publication.Some? && !Definite(r.publication.value.outcome)
    case Completed =>
      || (r.publication.Some? && r.publication.value.outcome == Published)
      || (r.reconciledState.Some? && (r.publication.Some? ==> !Definite(r.publication.value.outcome)))
  }

  predicate StageShape(r: Record)
    requires r.stage == Terminal ==> r.terminalOutcome.Some?
  {
    match r.stage
    case Admitted =>
      r.before == [] && r.application.None? && r.after == [] && !HasPublicationAuthority(r)
    case BeforeIntent =>
      AllSucceeded(r.before) && |r.before| < r.beforeTotal && r.application.None? && r.after == []
      && !HasPublicationAuthority(r)
    case BeforeTerminal =>
      r.before != [] && PrefixSucceeded(r.before) && r.application.None? && r.after == []
      && !HasPublicationAuthority(r)
    case ApplicationIntent =>
      BeforeComplete(r) && r.application.None? && r.after == [] && !HasPublicationAuthority(r)
    case ApplicationTerminal =>
      BeforeComplete(r) && r.application.Some? && r.after == [] && !HasPublicationAuthority(r)
    case AfterIntent =>
      BeforeComplete(r) && IsApplicationComplete(r) && AllSucceeded(r.after) && |r.after| < r.afterTotal
      && !HasPublicationAuthority(r)
    case AfterTerminal =>
      BeforeComplete(r) && IsApplicationComplete(r) && r.after != [] && PrefixSucceeded(r.after)
      && !HasPublicationAuthority(r)
    case PublicationIntent =>
      BeforeComplete(r) && IsApplicationComplete(r) && AfterComplete(r)
      && r.transactionEvidence.Some? && r.publicationRequest.Some? && r.publication.None?
    case PublicationTerminal =>
      BeforeComplete(r) && IsApplicationComplete(r) && AfterComplete(r)
      && r.transactionEvidence.Some? && r.publicationRequest.Some? && r.publication.Some?
    case Terminal => TerminalShape(r)
  }

  /** Everything that the shape validator checks except the record's own identity. */
  predicate Shape(r: Record) {
    && HeaderShape(r) && IdentityShape(r) && CausalShape(r) && StageShape(r)
    && RetainedTransitionCount(r) == Some(r.sequence)
  }

  predicate ShapeValid(sha: Sha256, r: Record) {
    Shape(r) && r.identity == RecordIdentity(sha, r)
  }

  function Restore(sha: Sha256, r: Record): Result<Record, JournalError> {
    if ShapeValid(sha, r) then Success(r) else Failure(InvalidRecord)
  }

  // ---------------------------------------------------------------- the successor relation

  predicate SameEvidence(p: Record, n: Record) {
    && p.before == n.before && p.application == n.application && p.after == n.after
    && p.transactionEvidence == n.transactionEvidence && p.publicationRequest == n.publicationRequest
    && p.publication == n.publication
  }

  predicate Appended(p: seq<LifecycleFact>, n: seq<LifecycleFact>) {
    |n| == |p| + 1 && n[..|p|] == p
  }

  predicate SuccessorStage(p: Record, n: Record)
    requires n.stage == Terminal ==> n.terminalOutcome.Some?
  {
    match n.stage
    case Admitted => false
    case BeforeIntent =>
      && (p.stage == Admitted || (p.stage == BeforeTerminal && LastSucceeded(p.before)))
      && n.activeIndex == Some(|p.before|) && SameEvidence(p, n)
    case BeforeTerminal =>
      && p.stage == BeforeIntent && Appended(p.before, n.before)
      && SameEvidence(p.(before := n.before), n)
    case ApplicationIntent =>
      && ((p.beforeTotal == 0 && p.stage == Admitted) || p.stage == BeforeTerminal)
      && SameEvidence(p, n)
    case ApplicationTerminal =>
      && p.stage == ApplicationIntent && p.application.None? && n.application.Some?
      && SameEvidence(p.(application := n.application), n)
    case AfterIntent =>
      && (p.stage == ApplicationTerminal || (p.stage == AfterTerminal && LastSucceeded(p.after)))
      && n.activeIndex == Some(|p.after|) && SameEvidence(p, n)
    case AfterTerminal =>
      && p.stage == AfterIntent && Appended(p.after, n.after)
      && SameEvidence(p.(after := n.after), n)
    case PublicationIntent =>
      && ((p.afterTotal == 0 && p.stage == ApplicationTerminal) || p.stage == AfterTerminal)
      && !HasPublicationAuthority(p) && n.publication.None?
      && p.before == n.before && p.application == n.application && p.after == n.after
    case PublicationTerminal =>
      && p.stage == PublicationIntent && p.publication.None? && n.publication.Some?
      && SameEvidence(p.(publication := n.publication), n)
    case Terminal =>
      && SameEvidence(p, n)
      && match n.terminalOutcome.value
         case LifecycleFailedBeforeApplication => p.stage == BeforeTerminal
         case ApplicationNotCompleted =>
           p.stage == ApplicationTerminal && p.application.Some?
           && Classify(p.application.value.outcome) == DefinitiveFailure
         case ApplicationResolutionRequired => false
         case LifecycleFailedAfterApplication => p.stage == AfterTerminal
         case OuterLeaseLost => !IsIntent(p.stage)
         case StatePublicationNotCompleted => p.stage == PublicationTerminal
         case StatePublicationIndeterminate => p.stage == PublicationTerminal
         case Completed => p.stage == PublicationIntent || p.stage == PublicationTerminal
  }

  predicate SameAttempt(p: Record, n: Record) {
    && n.attempt == p.attempt && n.session == p.session && n.nonce == p.nonce
    && n.beforeTotal == p.beforeTotal && n.afterTotal == p.afterTotal
  }

  /** The check that a store applies to a record offered after its latest one. */
  predicate SuccessorAccepts(p: Record, n: Record)
    requires n.stage == Terminal ==> n.terminalOutcome.Some?
  {
    && p.stage != Terminal
    && p.sequence < MAXIMUM_SEQUENCE && n.sequence == p.sequence + 1 && n.previous == Some(p.identity)
    && SameAttempt(p, n) && SuccessorStage(p, n)
  }

  // ---------------------------------------------------------------- the transition methods

  function Admit(sha: Sha256, session: Digest, beforeTotal: nat, afterTotal: nat, nonce: Nonce)
    : Result<Record, JournalError>
  {
    if beforeTotal > MAXIMUM_LIFECYCLE_COUNT || afterTotal > MAXIMUM_LIFECYCLE_COUNT then
      Failure(InvalidRecord)
    else
      var attempt := MakeSessionIdentity(sha, ATTEMPT_DOMAIN, [session, HexText(nonce)]);
      var draft := Record(session, attempt, session, nonce, 0, None, beforeTotal, afterTotal,
                          Admitted, None, [], None, [], None, None, None, None, None);
      Restore(sha, draft.(identity := RecordIdentity(sha, draft)))
  }

  function Linked(r: Record, draft: Record): Record {
    draft.(sequence := r.sequence + 1, previous := Some(r.identity))
  }

  function Next(sha: Sha256, r: Record, draft: Record): Record {
    Linked(r, draft).(identity := RecordIdentity(sha, Linked(r, draft)))
  }

  /** Number, link and identify a successor of `r`, then run both validators on it. */
  function Successor(sha: Sha256, r: Record, draft: Record): Result<Record, JournalError> {
    if r.stage == Terminal || r.sequence >= MAXIMUM_SEQUENCE then Failure(InvalidTransition)
    else
      var next := Next(sha, r, draft);
      if !ShapeValid(sha, next) then Failure(InvalidRecord)
      else if !SuccessorAccepts(r, next) then Failure(InvalidTransition)
      else Success(next)
  }

  /** The nine transition methods, each with its arguments. */
  datatype Transition = BeginBefore(index: nat) | CompleteBefore(result: LifecycleFact)
                      | BeginApplication | CompleteApplication(receipt: ApplicationFact)
                      | BeginAfter(index: nat) | CompleteAfter(result: LifecycleFact)
                      | BeginPublication(transaction: string, request: string)
                      | CompletePublication(published: PublicationReceipt)
                      | SealTerminal(outcome: OperationOutcome, reconciled: Option<string>)

  predicate MaySeal(r: Record, outcome: OperationOutcome, reconciled: Option<string>) {
    match outcome
    case OuterLeaseLost => !IsIntent(r.stage)
    case ApplicationResolutionRequired => false
    case LifecycleFailedBeforeApplication =>
      r.stage == BeforeTerminal && r.before != [] && !LastSucceeded(r.before)
    case ApplicationNotCompleted =>
      r.stage == ApplicationTerminal && r.application.Some?
      && Classify(r.application.value.outcome) == DefinitiveFailure
    case LifecycleFailedAfterApplication =>
      r.stage == AfterTerminal && r.after != [] && !LastSucceeded(r.after)
    case StatePublicationNotCompleted => r.stage == PublicationTerminal
    case StatePublicationIndeterminate => r.stage == PublicationTerminal
    case Completed =>
      && (r.stage == PublicationTerminal || r.stage == PublicationIntent)
      && (|| (r.publication.Some? && r.publication.value.outcome == Published)
          || (reconciled.Some? && r.stage == PublicationIntent)
          || (reconciled.Some? && r.publication.Some? && !Definite(r.publication.value.outcome)))
  }

  /** The guard at the head of each transition method. */
  predicate May(r: Record, t: Transition) {
    match t
    case BeginBefore(index) =>
      && (r.stage == Admitted || (r.stage == BeforeTerminal && LastSucceeded(r.before)))
      && index == |r.before| && index < r.beforeTotal && r.application.None? && r.after == []
    case CompleteBefore(_) => r.stage == BeforeIntent && r.activeIndex == Some(|r.before|)
    case BeginApplication =>
      && ((r.beforeTotal == 0 && r.stage == Admitted) || (r.stage == BeforeTerminal && BeforeComplete(r)))
      && r.application.None? && r.after == []
    case CompleteApplication(_) => r.stage == ApplicationIntent && r.application.None?
    case BeginAfter(index) =>
      && IsApplicationComplete(r)
      && ((r.stage == ApplicationTerminal && r.after == [])
          || (r.stage == AfterTerminal && LastSucceeded(r.after)))
      && index == |r.after| && index < r.afterTotal
    case CompleteAfter(_) => r.stage == AfterIntent && r.activeIndex == Some(|r.after|)
    case BeginPublication(_, _) =>
      && IsApplicationComplete(r)
      && ((r.afterTotal == 0 && r.stage == ApplicationTerminal)
          || (r.stage == AfterTerminal && AfterComplete(r)))
      && !HasPublicationAuthority(r)
    case CompletePublication(published) =>
      r.stage == PublicationIntent && r.publication.None? && r.publicationRequest == Some(published.request)
    case SealTerminal(outcome, reconciled) => MaySeal(r, outcome, reconciled)
  }

  /** The stage and evidence that each transition method hands to `Successor`. */
  function Draft(r: Record, t: Transition): Record {
    var open := r.(activeIndex := None, terminalOutcome := None, reconciledState := None);
    match t
    case BeginBefore(index) => open.(stage := BeforeIntent, activeIndex := Some(index))
    case CompleteBefore(result) => open.(stage := BeforeTerminal, before := r.before + [result])
    case BeginApplication =>
      open.(stage := ApplicationIntent, application := None, transactionEvidence := None,
            publicationRequest := None, publication := None)
    case CompleteApplication(receipt) =>
      open.(stage := ApplicationTerminal, application := Some(receipt), transactionEvidence := None,
            publicationRequest := None, publication := None)
    case BeginAfter(index) => open.(stage := AfterIntent, activeIndex := Some(index))
    case CompleteAfter(result) => open.(stage := AfterTerminal, after := r.after + [result])
    case BeginPublication(transaction, request) =>
      open.(stage := PublicationIntent, transactionEvidence := Some(transaction),
            publicationRequest := Some(request), publication := None)
    case CompletePublication(published) =>
      open.(stage := PublicationTerminal, publication := Some(published.fact))
    case SealTerminal(outcome, reconciled) =>
      open.(stage := Terminal, terminalOutcome := Some(outcome), reconciledState := reconciled)
  }

  function Apply(sha: Sha256, r: Record, t: Transition): Result<Record, JournalError> {
    if !May(r, t) then Failure(InvalidTransition) else Successor(sha, r, Draft(r, t))
  }
}
