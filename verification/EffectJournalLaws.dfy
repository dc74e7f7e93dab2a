/**
  Results about the effect-attempt journal: the three definitions agree, the guards of
  the transition methods suffice, and what every history from admission obeys.
 */
module EffectJournalLaws {
  import opened Wrappers
  import opened Identity
  import opened EffectJournal

  /** The counts that admission and the decoder enforce; below them no sequence number wraps. */
  predicate InBounds(r: Record) {
    r.beforeTotal <= MAXIMUM_LIFECYCLE_COUNT && r.afterTotal <= MAXIMUM_LIFECYCLE_COUNT
  }

  /** Arguments as their own types guarantee them: canonical identities, evidence iff completed. */
  predicate WellFormed(t: Transition) {
    match t
    case CompleteApplication(receipt) => ApplicationFactShape(receipt)
    case BeginPublication(transaction, request) => Canonical(transaction) && Canonical(request)
    case CompletePublication(published) => PublicationFactShape(published.fact)
    case SealTerminal(_, reconciled) => CanonicalIfPresent(reconciled)
    case _ => true
  }

  /** The guards, and for a seal also that the outcome fits the publication evidence. */
  predicate Enabled(r: Record, t: Transition) {
    && May(r, t)
    && (t.SealTerminal? ==> SealFits(r, t.outcome, t.reconciled))
  }

  predicate SealFits(r: Record, outcome: OperationOutcome, reconciled: Option<string>) {
    && (reconciled.Some? ==> outcome == Completed)
    && (outcome == StatePublicationNotCompleted ==>
          r.publication.Some? && NotPublished(r.publication.value.outcome))
    && (outcome == StatePublicationIndeterminate ==>
          r.publication.Some? && !Definite(r.publication.value.outcome))
  }

  // ---------------------------------------------------------------- the guards suffice

  lemma SequenceBound(r: Record)
    requires Shape(r)
    ensures r.sequence <= 2 * (r.beforeTotal + r.afterTotal) + 5
  {}

  lemma DraftHeader(r: Record, t: Transition)
    requires Shape(r) && r.stage != Terminal && Enabled(r, t)
    ensures HeaderShape(Linked(r, Draft(r, t)))
  {}

  lemma DraftEvidence(r: Record, t: Transition)
    requires Shape(r) && r.stage != Terminal && Enabled(r, t) && WellFormed(t)
    ensures IdentityShape(Linked(r, Draft(r, t)))
    ensures CausalShape(Linked(r, Draft(r, t)))
  {}

  lemma MoveStage(r: Record, t: Transition)
    requires Shape(r) && r.stage != Terminal && May(r, t) && !t.SealTerminal?
    ensures StageShape(Linked(r, Draft(r, t)))
  {
    hide IdentityShape, RetainedTransitionCount;
  }

  lemma SealStage(r: Record, t: Transition)
    requires Shape(r) && r.stage != Terminal && May(r, t) && t.SealTerminal? && SealFits(r, t.outcome, t.reconciled)
    ensures StageShape(Linked(r, Draft(r, t)))
  {
    hide IdentityShape, RetainedTransitionCount;
  }

  lemma DraftStage(r: Record, t: Transition)
    requires Shape(r) && r.stage != Terminal && Enabled(r, t)
    ensures StageShape(Linked(r, Draft(r, t)))
  {
    hide Shape, May, Draft, SealFits, StageShape;
    if t.SealTerminal? {
      SealStage(r, t);
    } else {
      MoveStage(r, t);
    }
  }

  lemma LifecycleCount(r: Record, t: Transition)
    requires Shape(r) && May(r, t) && (t.BeginBefore? || t.CompleteBefore? || t.BeginAfter? || t.CompleteAfter?)
    ensures RetainedTransitionCount(Linked(r, Draft(r, t))) == Some(r.sequence + 1)
  {
    hide IdentityShape, AllSucceeded, PrefixSucceeded, LastSucceeded, TerminalShape, CausalShape;
  }

  lemma MoveCount(r: Record, t: Transition)
    requires Shape(r) && r.stage != Terminal && May(r, t) && !t.SealTerminal?
    ensures RetainedTransitionCount(Linked(r, Draft(r, t))) == Some(r.sequence + 1)
  {
    if t.BeginBefore? || t.CompleteBefore? || t.BeginAfter? || t.CompleteAfter? {
      hide May, Draft, Shape, RetainedTransitionCount;
      LifecycleCount(r, t);
    } else {
      hide IdentityShape, AllSucceeded, PrefixSucceeded, LastSucceeded, TerminalShape, CausalShape;
    }
  }

  /** What the closed form counts in a record that may be sealed. */
  predicate SealableCounts(r: Record) {
    var before, after := |r.before|, |r.after|;
    var applied := 2 * r.beforeTotal + 2;
    match r.stage
    case Admitted => r.sequence == 0 && before == 0 && after == 0 && r.application.None? && !HasPublicationAuthority(r)
    case BeforeTerminal =>
      r.sequence == 2 * before && before > 0 && after == 0 && r.application.None? && !HasPublicationAuthority(r)
    case ApplicationTerminal =>
      r.sequence == applied && after == 0 && r.application.Some? && !HasPublicationAuthority(r)
    case AfterTerminal =>
      r.sequence == applied + 2 * after && after > 0 && r.application.Some? && !HasPublicationAuthority(r)
    case PublicationIntent => r.sequence == applied + 2 * r.afterTotal + 1 && r.publication.None?
    case PublicationTerminal => r.sequence == applied + 2 * r.afterTotal + 2 && r.publication.Some?
    case _ => false
  }

  lemma SealableIsCounted(r: Record)
    requires Shape(r) && r.stage != Terminal && !(IsIntent(r.stage) && r.stage != PublicationIntent)
    ensures SealableCounts(r)
  {
    hide IdentityShape, AllSucceeded, PrefixSucceeded, TerminalShape, CausalShape;
  }

  lemma SealCount(r: Record, t: Transition)
    requires t.SealTerminal? && MaySeal(r, t.outcome, t.reconciled) && SealFits(r, t.outcome, t.reconciled)
    requires SealableCounts(r)
    ensures RetainedTransitionCount(Linked(r, Draft(r, t))) == Some(r.sequence + 1)
  {
    hide LastSucceeded, Definite, NotPublished, Classify;
  }

  lemma SealsAtBoundary(r: Record, t: Transition)
    requires May(r, t) && t.SealTerminal?
    ensures MaySeal(r, t.outcome, t.reconciled) && (IsIntent(r.stage) ==> r.stage == PublicationIntent)
  {}

  lemma DraftCount(r: Record, t: Transition)
    requires Shape(r) && r.stage != Terminal && Enabled(r, t)
    ensures RetainedTransitionCount(Linked(r, Draft(r, t))) == Some(r.sequence + 1)
  {
    hide Shape, May, Draft, SealFits, RetainedTransitionCount;
    if t.SealTerminal? {
      SealsAtBoundary(r, t);
      SealableIsCounted(r);
      SealCount(r, t);
    } else {
      MoveCount(r, t);
    }
  }

  lemma DraftSucceeds(r: Record, t: Transition)
    requires Shape(r) && r.stage != Terminal && r.sequence < MAXIMUM_SEQUENCE && Enabled(r, t)
    ensures SuccessorAccepts(r, Linked(r, Draft(r, t)))
  {
    hide IdentityShape, RetainedTransitionCount;
  }

  lemma IdentityLeavesItselfOut(sha: Sha256, r: Record, identity: Digest)
    ensures RecordIdentity(sha, r.(identity := identity)) == RecordIdentity(sha, r)
  {}

  lemma ShapeLeavesIdentityOut(r: Record, identity: Digest)
    requires HeaderShape(r)
    ensures HeaderShape(r.(identity := identity))
    ensures IdentityShape(r.(identity := identity)) == IdentityShape(r)
    ensures CausalShape(r.(identity := identity)) == CausalShape(r)
    ensures StageShape(r.(identity := identity)) == StageShape(r)
    ensures RetainedTransitionCount(r.(identity := identity)) == RetainedTransitionCount(r)
  {}

  lemma SuccessorLeavesIdentityOut(p: Record, n: Record, identity: Digest)
    requires n.stage == Terminal ==> n.terminalOutcome.Some?
    ensures SuccessorAccepts(p, n.(identity := identity)) == SuccessorAccepts(p, n)
  {}

  lemma UnfitSealRefused(sha: Sha256, r: Record, t: Transition)
    requires Shape(r) && !(Enabled(r, t) && r.stage != Terminal)
    ensures Apply(sha, r, t).Failure?
  {
    hide RecordIdentity, IdentityShape, CausalShape, RetainedTransitionCount, SuccessorAccepts;
    if May(r, t) && r.stage != Terminal {
      assert !Shape(Next(sha, r, Draft(r, t)));
    }
  }

  lemma EnabledIsAccepted(sha: Sha256, r: Record, t: Transition)
    requires ShapeValid(sha, r) && InBounds(r) && WellFormed(t) && Enabled(r, t) && r.stage != Terminal
    ensures Shape(Next(sha, r, Draft(r, t))) && SuccessorAccepts(r, Next(sha, r, Draft(r, t)))
  {
    SequenceBound(r);
    var linked := Linked(r, Draft(r, t));
    var identity := RecordIdentity(sha, linked);
    DraftHeader(r, t);
    DraftEvidence(r, t);
    DraftStage(r, t);
    DraftCount(r, t);
    DraftSucceeds(r, t);
    hide RecordIdentity, IdentityShape, CausalShape, StageShape, RetainedTransitionCount, SuccessorAccepts, May, Draft,
      SealFits;
    ShapeLeavesIdentityOut(linked, identity);
    SuccessorLeavesIdentityOut(r, linked, identity);
  }

  /** The guards alone: neither validator ever refuses what an enabled method builds. */
  lemma GuardsSuffice(sha: Sha256, r: Record, t: Transition)
    requires ShapeValid(sha, r) && InBounds(r) && WellFormed(t)
    ensures Apply(sha, r, t).Success? <==> Enabled(r, t) && r.stage != Terminal
  {
    hide RecordIdentity, Shape, SuccessorAccepts, May, Draft, SealFits;
    if Enabled(r, t) && r.stage != Terminal {
      var linked := Linked(r, Draft(r, t));
      IdentityLeavesItselfOut(sha, linked, RecordIdentity(sha, linked));
      SequenceBound(r);
      EnabledIsAccepted(sha, r, t);
    } else {
      UnfitSealRefused(sha, r, t);
    }
  }

  /**
    What the guard of `seal_terminal` alone misses, and the shape check of the new record then
    refuses: a reconciled state beside another outcome, and an outcome that contradicts the
    publication evidence.
   */
  lemma SealGuardMissesExactly(sha: Sha256, r: Record, outcome: OperationOutcome, reconciled: Option<string>)
    requires ShapeValid(sha, r) && InBounds(r) && CanonicalIfPresent(reconciled) && r.stage != Terminal
    requires MaySeal(r, outcome, reconciled)
    ensures Apply(sha, r, SealTerminal(outcome, reconciled)).Failure? <==>
              || (reconciled.Some? && outcome != Completed)
              || (outcome == StatePublicationNotCompleted && !NotPublished(r.publication.value.outcome))
              || (outcome == StatePublicationIndeterminate && Definite(r.publication.value.outcome))
  {
    hide RecordIdentity, SuccessorAccepts, Apply;
    GuardsSuffice(sha, r, SealTerminal(outcome, reconciled));
  }

  // ---------------------------------------------------------------- two definitions of a step

  /** The transition that the successor relation must have seen. */
  function Witness(p: Record, n: Record): Transition
    requires Shape(n) && SuccessorAccepts(p, n)
  {
    match n.stage
    case Admitted => BeginApplication
    case BeforeIntent => BeginBefore(|p.before|)
    case BeforeTerminal => CompleteBefore(n.before[|p.before|])
    case ApplicationIntent => BeginApplication
    case ApplicationTerminal => CompleteApplication(n.application.value)
    case AfterIntent => BeginAfter(|p.after|)
    case AfterTerminal => CompleteAfter(n.after[|p.after|])
    case PublicationIntent => BeginPublication(n.transactionEvidence.value, n.publicationRequest.value)
    case PublicationTerminal =>
      CompletePublication(PublicationReceipt(n.publicationRequest.value, n.publication.value))
    case Terminal => SealTerminal(n.terminalOutcome.value, n.reconciledState)
  }

  lemma WitnessAllowed(p: Record, n: Record)
    requires Shape(p) && Shape(n) && SuccessorAccepts(p, n)
    ensures May(p, Witness(p, n))
  {
    hide IdentityShape, RetainedTransitionCount;
  }

  lemma WitnessRebuilds(p: Record, n: Record)
    requires Shape(p) && Shape(n) && SuccessorAccepts(p, n)
    ensures Linked(p, Draft(p, Witness(p, n))).(identity := n.identity) == n
  {
    hide IdentityShape, RetainedTransitionCount, AllSucceeded, PrefixSucceeded;
    if n.stage == BeforeTerminal {
      assert n.before == p.before + [n.before[|p.before|]];
    } else if n.stage == AfterTerminal {
      assert n.after == p.after + [n.after[|p.after|]];
    }
  }

  /** The relation and the methods describe the same steps. */
  lemma StepDefinitionsAgree(sha: Sha256, p: Record, n: Record)
    requires ShapeValid(sha, p) && ShapeValid(sha, n)
    ensures SuccessorAccepts(p, n) <==> exists t :: Apply(sha, p, t) == Success(n)
  {
    if SuccessorAccepts(p, n) {
      WitnessAllowed(p, n);
      WitnessRebuilds(p, n);
      var linked := Linked(p, Draft(p, Witness(p, n)));
      IdentityLeavesItselfOut(sha, linked, n.identity);
      assert Next(sha, p, Draft(p, Witness(p, n))) == n by { hide RecordIdentity, Shape; }
      assert Apply(sha, p, Witness(p, n)) == Success(n) by { hide RecordIdentity, Shape; }
    } else {
      hide RecordIdentity, Shape, Draft;
    }
  }

  // ---------------------------------------------------------------- histories from admission

  predicate Advances(sha: Sha256, p: Record, n: Record) {
    ShapeValid(sha, n) && SuccessorAccepts(p, n)
  }

  /** A chain of records that starts with the admission of one attempt. */
  predicate IsHistory(sha: Sha256, session: Digest, beforeTotal: nat, afterTotal: nat, nonce: Nonce,
                      records: seq<Record>)
  {
    && records != []
    && Admit(sha, session, beforeTotal, afterTotal, nonce) == Success(records[0])
    && forall i | 0 < i < |records| :: Advances(sha, records[i - 1], records[i])
  }

  /** Sequence numbers count the history, which therefore ends; the attempt never changes. */
  lemma {:induction false} HistoryIsNumbered(sha: Sha256, session: Digest, beforeTotal: nat, afterTotal: nat,
                                             nonce: Nonce, records: seq<Record>, i: nat)
    requires IsHistory(sha, session, beforeTotal, afterTotal, nonce, records) && i < |records|
    ensures ShapeValid(sha, records[i]) && SameAttempt(records[0], records[i])
    ensures records[i].sequence == i <= 2 * (beforeTotal + afterTotal) + 5
    ensures RetainedTransitionCount(records[i]) == Some(i)
  {
    hide RecordIdentity;
    if i > 0 {
      HistoryIsNumbered(sha, session, beforeTotal, afterTotal, nonce, records, i - 1);
      assert Advances(sha, records[i - 1], records[i]);
      SequenceBound(records[i]);
    }
  }

  /** Below the end, the sequence number alone tells how far an attempt has come. */
  lemma SequenceTellsStage(r: Record, s: Record)
    requires Shape(r) && Shape(s) && r.stage != Terminal && s.stage != Terminal
    requires r.beforeTotal == s.beforeTotal && r.afterTotal == s.afterTotal && r.sequence == s.sequence
    ensures r.stage == s.stage && |r.before| == |s.before| && |r.after| == |s.after|
    ensures r.application.Some? <==> s.application.Some?
    ensures r.publication.Some? <==> s.publication.Some?
  {
    hide IdentityShape;
  }

  /** `n` retains all the evidence of `p`, in place. */
  predicate Extends(p: Record, n: Record) {
    && p.before <= n.before && p.after <= n.after
    && (p.application.Some? ==> n.application == p.application)
    && (p.transactionEvidence.Some? ==> n.transactionEvidence == p.transactionEvidence)
    && (p.publicationRequest.Some? ==> n.publicationRequest == p.publicationRequest)
    && (p.publication.Some? ==> n.publication == p.publication)
  }

  lemma StepExtends(p: Record, n: Record)
    requires Shape(n) && SuccessorAccepts(p, n)
    ensures Extends(p, n)
  {}

  lemma {:induction false} EvidenceIsAppendOnly(sha: Sha256, session: Digest, beforeTotal: nat, afterTotal: nat,
                                                nonce: Nonce, records: seq<Record>, i: nat, j: nat)
    requires IsHistory(sha, session, beforeTotal, afterTotal, nonce, records) && i <= j < |records|
    ensures Extends(records[i], records[j])
    decreases j
  {
    hide Admit, Shape, SuccessorAccepts, RecordIdentity;
    if i < j {
      EvidenceIsAppendOnly(sha, session, beforeTotal, afterTotal, nonce, records, i, j - 1);
      assert Advances(sha, records[j - 1], records[j]);
      StepExtends(records[j - 1], records[j]);
    }
  }

  predicate CarriesEverything(r: Record) {
    && BeforeComplete(r) && IsApplicationComplete(r) && AfterComplete(r)
    && r.transactionEvidence.Some? && r.publicationRequest.Some?
  }

  /** A completed attempt has done all of its work and moved the canonical state. */
  lemma CompletedCarriesEverything(sha: Sha256, session: Digest, beforeTotal: nat, afterTotal: nat,
                                   nonce: Nonce, records: seq<Record>, i: nat)
    requires IsHistory(sha, session, beforeTotal, afterTotal, nonce, records) && i < |records|
    requires records[i].terminalOutcome == Some(Completed)
    ensures CarriesEverything(records[i])
    ensures |records[i].before| == beforeTotal && |records[i].after| == afterTotal
    ensures || (records[i].publication.Some? && records[i].publication.value.outcome == Published)
            || records[i].reconciledState.Some?
  {
    hide RecordIdentity;
    HistoryIsNumbered(sha, session, beforeTotal, afterTotal, nonce, records, i);
    HistoryIsNumbered(sha, session, beforeTotal, afterTotal, nonce, records, i - 1);
    assert Advances(sha, records[i - 1], records[i]);
  }

  /** The shape check alone does not promise that: `restore` takes a completed record without any evidence. */
  lemma ShapeAdmitsEmptyCompletion(sha: Sha256) returns (r: Record)
    ensures Restore(sha, r) == Success(r) && r.terminalOutcome == Some(Completed) && r.application.None?
  {
    var digest: Digest := ZERO_DIGEST;
    var nonce: Nonce := (var n := seq(32, _ => 'n'); assert n[0] == 'n'; n);
    var state := "v1:sha256:" + digest;
    assert state[..10] == "v1:sha256:" && state[10..] == digest;
    var draft := Record(digest, digest, digest, nonce, 4, Some(digest), 0, 0, Terminal, None, [], None, [],
                        None, None, None, Some(Completed), Some(state));
    assert Shape(draft);
    hide RecordIdentity;
    IdentityLeavesItselfOut(sha, draft, RecordIdentity(sha, draft));
    r := draft.(identity := RecordIdentity(sha, draft));
  }

  /** Among completed records that pass the shape check, the full ones are those with publication authority. */
  lemma CompletedShapeIsFullIff(r: Record)
    requires Shape(r) && r.terminalOutcome == Some(Completed)
    ensures CarriesEverything(r) <==> HasPublicationAuthority(r)
  {}

  // ---------------------------------------------------------------- the field vector

  lemma {:induction false} DecimalInjective(m: nat, n: nat)
    requires Decimal(m) == Decimal(n)
    ensures m == n
  {
    var a, b := Decimal(m), Decimal(n);
    assert a[|a| - 1] == Digit(m % 10) && b[|b| - 1] == Digit(n % 10);
    if m >= 10 && n >= 10 {
      assert a[..|a| - 1] == Decimal(m / 10) && b[..|b| - 1] == Decimal(n / 10);
      DecimalInjective(m / 10, n / 10);
    }
  }

  lemma {:induction false} HexTextInjective(a: seq<Octet>, b: seq<Octet>)
    requires HexText(a) == HexText(b)
    ensures a == b
  {
    if a != [] && b != [] {
      var s := HexText(a);
      assert s[0] == HexDigit(a[0] as int / 16) && s[1] == HexDigit(a[0] as int % 16);
      assert s[0] == HexDigit(b[0] as int / 16) && s[1] == HexDigit(b[0] as int % 16);
      assert s[2..] == HexText(a[1..]) && s[2..] == HexText(b[1..]);
      HexTextInjective(a[1..], b[1..]);
      assert a == [a[0]] + a[1..] && b == [b[0]] + b[1..];
    }
  }

  lemma {:induction false} FactFieldsInjective(a: seq<LifecycleFact>, b: seq<LifecycleFact>)
    requires FactFields(a) == FactFields(b)
    ensures a == b
  {
    if a != [] && b != [] {
      var s := FactFields(a);
      assert s[0] == a[0].result && s[1] == BoolText(a[0].succeeded);
      assert s[0] == b[0].result && s[1] == BoolText(b[0].succeeded);
      assert s[2..] == FactFields(a[1..]) && s[2..] == FactFields(b[1..]);
      FactFieldsInjective(a[1..], b[1..]);
      assert a == [a[0]] + a[1..] && b == [b[0]] + b[1..];
    }
  }

  lemma HeaderFieldsInjective(r: Record, s: Record)
    requires HeaderFields(r) == HeaderFields(s)
    ensures SameAttempt(r, s) && r.sequence == s.sequence && r.previous == s.previous
    ensures r.stage == s.stage && r.activeIndex == s.activeIndex
  {
    var f, g := HeaderFields(r), HeaderFields(s);
    assert f[0] == r.attempt && g[0] == s.attempt;
    assert f[1] == r.session && g[1] == s.session;
    assert f[2] == HexText(r.nonce) && g[2] == HexText(s.nonce);
    HexTextInjective(r.nonce, s.nonce);
    assert f[3] == Decimal(r.sequence) && g[3] == Decimal(s.sequence);
    DecimalInjective(r.sequence, s.sequence);
    assert f[4] == (if r.previous.Some? then r.previous.value else "");
    assert g[4] == (if s.previous.Some? then s.previous.value else "");
    assert f[5] == Decimal(r.beforeTotal) && g[5] == Decimal(s.beforeTotal);
    DecimalInjective(r.beforeTotal, s.beforeTotal);
    assert f[6] == Decimal(r.afterTotal) && g[6] == Decimal(s.afterTotal);
    DecimalInjective(r.afterTotal, s.afterTotal);
    assert f[7] == Decimal(StageCode(r.stage)) && g[7] == Decimal(StageCode(s.stage));
    DecimalInjective(StageCode(r.stage), StageCode(s.stage));
    assert f[8] == (if r.activeIndex.Some? then Decimal(r.activeIndex.value) else "");
    assert g[8] == (if s.activeIndex.Some? then Decimal(s.activeIndex.value) else "");
    if r.activeIndex.Some? && s.activeIndex.Some? {
      DecimalInjective(r.activeIndex.value, s.activeIndex.value);
    }
  }

  lemma ApplicationFieldsInjective(a: Option<ApplicationFact>, b: Option<ApplicationFact>)
    requires ApplicationFields(a) == ApplicationFields(b)
    requires (a.Some? ==> ApplicationFactShape(a.value)) && (b.Some? ==> ApplicationFactShape(b.value))
    ensures a == b
  {
    var f, g := ApplicationFields(a), ApplicationFields(b);
    assert f[0] == g[0] && f[1] == g[1] && f[2] == g[2] && f[3] == g[3];
    if a.Some? && b.Some? {
      DecimalInjective(ApplicationCode(a.value.outcome), ApplicationCode(b.value.outcome));
    }
  }

  lemma PublicationFieldsInjective(a: Option<PublicationFact>, b: Option<PublicationFact>)
    requires PublicationFields(a) == PublicationFields(b)
    requires (a.Some? ==> PublicationFactShape(a.value)) && (b.Some? ==> PublicationFactShape(b.value))
    ensures a == b
  {
    var f, g := PublicationFields(a), PublicationFields(b);
    assert f[0] == g[0] && f[1] == g[1] && f[2] == g[2];
    if a.Some? && b.Some? {
      DecimalInjective(PublicationCode(a.value.outcome), PublicationCode(b.value.outcome));
    }
  }

  lemma TailFieldsInjective(r: Record, s: Record)
    requires IdentityShape(r) && IdentityShape(s)
    requires TailFields(r) == TailFields(s)
    ensures r.transactionEvidence == s.transactionEvidence && r.publicationRequest == s.publicationRequest
    ensures r.publication == s.publication && r.terminalOutcome == s.terminalOutcome
    ensures r.reconciledState == s.reconciledState
  {
    var f, g := TailFields(r), TailFields(s);
    assert f[0] == OrEmpty(r.transactionEvidence) && g[0] == OrEmpty(s.transactionEvidence);
    assert f[1] == OrEmpty(r.publicationRequest) && g[1] == OrEmpty(s.publicationRequest);
    assert f[2..5] == PublicationFields(r.publication) && g[2..5] == PublicationFields(s.publication);
    PublicationFieldsInjective(r.publication, s.publication);
    assert f[5] == (if r.terminalOutcome.Some? then Decimal(OutcomeCode(r.terminalOutcome.value)) else "");
    assert g[5] == (if s.terminalOutcome.Some? then Decimal(OutcomeCode(s.terminalOutcome.value)) else "");
    if r.terminalOutcome.Some? && s.terminalOutcome.Some? {
      DecimalInjective(OutcomeCode(r.terminalOutcome.value), OutcomeCode(s.terminalOutcome.value));
    }
    assert f[6] == OrEmpty(r.reconciledState) && g[6] == OrEmpty(s.reconciledState);
  }

  /** Where each part of the field vector starts. */
  lemma FieldLayout(r: Record)
    ensures var f, b, a := IdentityFields(r), 10 + 2 * |r.before|, 15 + 2 * |r.before| + 2 * |r.after|;
            && |f| == a + 7
            && f[..9] == HeaderFields(r) && f[9] == Decimal(|r.before|) && f[10..b] == FactFields(r.before)
            && f[b..b + 4] == ApplicationFields(r.application) && f[b + 4] == Decimal(|r.after|)
            && f[b + 5..a] == FactFields(r.after) && f[a..] == TailFields(r)
  {
    hide HeaderFields, TailFields, ApplicationFields, FactFields, Decimal;
  }

  /** The flattened vector, nested lists and optionals included, determines the whole record. */
  lemma IdentityFieldsInjective(r: Record, s: Record)
    requires Shape(r) && Shape(s) && IdentityFields(r) == IdentityFields(s)
    ensures r == s.(identity := r.identity)
  {
    hide HeaderFields, TailFields, ApplicationFields, FactFields, Decimal, IdentityFields, CausalShape, StageShape,
      RetainedTransitionCount, HeaderShape;
    FieldLayout(r);
    FieldLayout(s);
    HeaderFieldsInjective(r, s);
    DecimalInjective(|r.before|, |s.before|);
    FactFieldsInjective(r.before, s.before);
    ApplicationFieldsInjective(r.application, s.application);
    DecimalInjective(|r.after|, |s.after|);
    FactFieldsInjective(r.after, s.after);
    TailFieldsInjective(r, s);
  }

  /** So a record is named by its identity, unless the two identity streams collide. */
  lemma RecordIdentityInjective(sha: Sha256, r: Record, s: Record)
    requires ShapeValid(sha, r) && ShapeValid(sha, s)
    requires AllSized([RECORD_DOMAIN] + IdentityFields(r)) && AllSized([RECORD_DOMAIN] + IdentityFields(s))
    requires var a, b := FrameFields([RECORD_DOMAIN] + IdentityFields(r)),
                         FrameFields([RECORD_DOMAIN] + IdentityFields(s));
             sha(a) == sha(b) ==> a == b
    requires r.identity == s.identity
    ensures r == s
  {
    hide IdentityFields, Shape;
    SessionIdentityInjective(sha, RECORD_DOMAIN, IdentityFields(r), RECORD_DOMAIN, IdentityFields(s));
    IdentityFieldsInjective(r, s);
  }
}
