/**
  The validators of the effect journal as they are written: one check after another, with their loops
  over the retained facts, and the fields that identities are made of, pushed one by one.
 */
module EffectValidation {
  import opened Wrappers
  import opened Identity
  import opened EffectJournal
  import EffectProtocol

  // ---------------------------------------------------------------- text

  /** A typed identity: a version, an algorithm and sixty-four lowercase hexadecimal digits. */
  method IsTypedIdentity(s: string) returns (typed: bool)
    ensures typed <==> Canonical(s)
  {
    if |s| != 74 || s[..10] != "v1:sha256:" {
      return false;
    }
    for i := 10 to |s|
      invariant forall k | 10 <= k < i :: IsHexDigit(s[k])
    {
      if !('0' <= s[i] <= '9' || 'a' <= s[i] <= 'f') {
        assert s[10..][i - 10] == s[i];
        return false;
      }
    }
    return true;
  }

  method IsTypedIfPresent(s: Option<string>) returns (typed: bool)
    ensures typed <==> CanonicalIfPresent(s)
  {
    if s.None? {
      return true;
    }
    typed := IsTypedIdentity(s.value);
  }

  // ---------------------------------------------------------------- facts

  method FactsSucceeded(facts: seq<LifecycleFact>) returns (all: bool)
    ensures all <==> AllSucceeded(facts)
  {
    for i := 0 to |facts|
      invariant AllSucceeded(facts[..i])
    {
      if !facts[i].succeeded {
        return false;
      }
    }
    return true;
  }

  method PrefixIsSucceeded(facts: seq<LifecycleFact>) returns (all: bool)
    ensures all <==> PrefixSucceeded(facts)
  {
    if facts == [] {
      return true;
    }
    all := FactsSucceeded(facts[..|facts| - 1]);
  }

  // ---------------------------------------------------------------- the shape of a record

  method ValidateHeader(r: Record) returns (valid: bool)
    ensures valid <==> HeaderShape(r)
  {
    if |r.before| > r.beforeTotal || |r.after| > r.afterTotal {
      return false;
    }
    if (r.sequence == 0) != r.previous.None? || (r.sequence == 0) != (r.stage == Admitted) {
      return false;
    }
    if (r.stage != Terminal && r.terminalOutcome.Some?) || (r.stage == Terminal && r.terminalOutcome.None?) {
      return false;
    }
    if r.reconciledState.Some? && (r.stage != Terminal || r.terminalOutcome.value != Completed) {
      return false;
    }
    var intent := r.stage == BeforeIntent || r.stage == AfterIntent;
    if intent != r.activeIndex.Some? {
      return false;
    }
    if (r.stage == BeforeIntent && r.activeIndex.value != |r.before|)
       || (r.stage == AfterIntent && r.activeIndex.value != |r.after|) {
      return false;
    }
    return true;
  }

  method ValidateIdentities(r: Record) returns (valid: bool)
    ensures valid <==> IdentityShape(r)
  {
    hide EffectJournal.Canonical;
    if r.application.Some? {
      var a := r.application.value;
      var receipt := IsTypedIdentity(a.receipt);
      var journal := IsTypedIfPresent(a.journal);
      var completed := IsTypedIfPresent(a.completedEvidence);
      if !receipt || !journal || !completed {
        return false;
      }
      if a.outcome == ApplicationCompleted && a.completedEvidence.None? {
        return false;
      }
      if a.outcome != ApplicationCompleted && a.completedEvidence.Some? {
        return false;
      }
    }
    var transaction := IsTypedIfPresent(r.transactionEvidence);
    var request := IsTypedIfPresent(r.publicationRequest);
    if !transaction || !request {
      return false;
    }
    if r.publication.Some? {
      var receipt := IsTypedIdentity(r.publication.value.receipt);
      var resulting := IsTypedIfPresent(r.publication.value.resultingSnapshot);
      if !receipt || !resulting {
        return false;
      }
    }
    valid := IsTypedIfPresent(r.reconciledState);
  }

  /** How many transitions the retained evidence accounts for; none for an outcome that cannot be. */
  method CountRetained(r: Record) returns (count: Option<nat>)
    requires r.stage == Terminal ==> r.terminalOutcome.Some?
    ensures count == RetainedTransitionCount(r)
  {
    var applied := 2 * r.beforeTotal + 2;
    var published := applied + 2 * r.afterTotal;
    match r.stage {
      case Admitted => return Some(0);
      case BeforeIntent => return Some(2 * |r.before| + 1);
      case BeforeTerminal => return Some(2 * |r.before|);
      case ApplicationIntent => return Some(applied - 1);
      case ApplicationTerminal => return Some(applied);
      case AfterIntent => return Some(applied + 2 * |r.after| + 1);
      case AfterTerminal => return Some(applied + 2 * |r.after|);
      case PublicationIntent => return Some(published + 1);
      case PublicationTerminal => return Some(published + 2);
      case Terminal =>
    }
    match r.terminalOutcome.value {
      case LifecycleFailedBeforeApplication => return Some(2 * |r.before| + 1);
      case ApplicationNotCompleted => return Some(applied + 1);
      case LifecycleFailedAfterApplication => return Some(applied + 2 * |r.after| + 1);
      case StatePublicationNotCompleted => return Some(published + 3);
      case StatePublicationIndeterminate => return Some(published + 3);
      case Completed => return Some(published + if r.publication.Some? then 3 else 2);
      case ApplicationResolutionRequired => return None;
      case OuterLeaseLost =>
        if r.publication.Some? {
          return Some(published + 3);
        }
        if r.transactionEvidence.Some? {
          return None;
        }
        if r.after != [] {
          return Some(applied + 2 * |r.after| + 1);
        }
        if r.application.Some? {
          return Some(applied + 1);
        }
        return Some(if r.before != [] then 2 * |r.before| + 1 else 1);
    }
  }

  /** The checks of the shape, in their order; the identity of the record is checked after them. */
  method ValidateShape(r: Record) returns (valid: bool)
    ensures valid <==> Shape(r)
  {
    hide HeaderShape, IdentityShape, AllSucceeded, PrefixSucceeded, RetainedTransitionCount;
    var header := ValidateHeader(r);
    if !header {
      return false;
    }
    assert r.stage == Terminal ==> r.terminalOutcome.Some? by {
      HeaderTellsOutcome(r);
    }
    var identities := ValidateIdentities(r);
    if !identities {
      return false;
    }
    var beforeSucceeded := FactsSucceeded(r.before);
    var afterSucceeded := FactsSucceeded(r.after);
    var beforePrefix := PrefixIsSucceeded(r.before);
    var afterPrefix := PrefixIsSucceeded(r.after);
    var beforeComplete := |r.before| == r.beforeTotal && beforeSucceeded;
    var afterComplete := |r.after| == r.afterTotal && afterSucceeded;
    var applicationComplete := r.application.Some? && r.application.value.outcome == ApplicationCompleted;
    var authority := r.transactionEvidence.Some? || r.publicationRequest.Some? || r.publication.Some?;
    if r.application.Some? && !beforeComplete {
      return false;
    }
    if r.after != [] && !applicationComplete {
      return false;
    }
    if authority && (!applicationComplete || !afterComplete || r.transactionEvidence.None?
                     || r.publicationRequest.None?) {
      return false;
    }
    match r.stage {
      case Admitted =>
        if r.before != [] || r.application.Some? || r.after != [] || authority {
          return false;
        }
      case BeforeIntent =>
        if !beforeSucceeded || |r.before| >= r.beforeTotal || r.application.Some? || r.after != [] || authority {
          return false;
        }
      case BeforeTerminal =>
        if r.before == [] || !beforePrefix || r.application.Some? || r.after != [] || authority {
          return false;
        }
      case ApplicationIntent =>
        if !beforeComplete || r.application.Some? || r.after != [] || authority {
          return false;
        }
      case ApplicationTerminal =>
        if !beforeComplete || r.application.None? || r.after != [] || authority {
          return false;
        }
      case AfterIntent =>
        if !beforeComplete || !applicationComplete || !afterSucceeded || |r.after| >= r.afterTotal || authority {
          return false;
        }
      case AfterTerminal =>
        if !beforeComplete || !applicationComplete || r.after == [] || !afterPrefix || authority {
          return false;
        }
      case PublicationIntent =>
        if !beforeComplete || !applicationComplete || !afterComplete || r.transactionEvidence.None?
           || r.publicationRequest.None? || r.publication.Some? {
          return false;
        }
      case PublicationTerminal =>
        if !beforeComplete || !applicationComplete || !afterComplete || r.transactionEvidence.None?
           || r.publicationRequest.None? || r.publication.None? {
          return false;
        }
      case Terminal =>
        var terminal := ValidateTerminal(r);
        if !terminal {
          return false;
        }
    }
    var count := CountRetained(r);
    return count == Some(r.sequence);
  }

  lemma HeaderTellsOutcome(r: Record)
    requires HeaderShape(r)
    ensures r.stage == Terminal ==> r.terminalOutcome.Some?
  {}

  /** The evidence that each sealed outcome must show. */
  method ValidateTerminal(r: Record) returns (valid: bool)
    requires r.terminalOutcome.Some?
    ensures valid <==> TerminalShape(r)
  {
    var authority := r.transactionEvidence.Some? || r.publicationRequest.Some? || r.publication.Some?;
    var complete := r.application.Some? && r.application.value.outcome == ApplicationCompleted;
    match r.terminalOutcome.value {
      case LifecycleFailedBeforeApplication =>
        return r.before != [] && !r.before[|r.before| - 1].succeeded && r.application.None? && r.after == []
               && !authority;
      case ApplicationNotCompleted =>
        if r.application.None? || complete || r.after != [] || authority {
          return false;
        }
        var outcome := r.application.value.outcome;
        return outcome == PreconditionRefused || outcome == FailedBeforeTargetMutation
            || outcome == FailedFullyRecovered;
      case ApplicationResolutionRequired =>
        return false;
      case LifecycleFailedAfterApplication =>
        return complete && r.after != [] && !r.after[|r.after| - 1].succeeded && !authority;
      case OuterLeaseLost =>
        return !(r.activeIndex.Some? || (r.publicationRequest.Some? && r.transactionEvidence.None?));
      case StatePublicationNotCompleted =>
        if r.publication.None? {
          return false;
        }
        var outcome := r.publication.value.outcome;
        return outcome == StaleExpectedState || outcome == RequestRejected || outcome == FailedBeforePublication;
      case StatePublicationIndeterminate =>
        if r.publication.None? {
          return false;
        }
        var outcome := r.publication.value.outcome;
        return outcome == PublishedDurabilityUnconfirmed || outcome == PublicationIndeterminate;
      case Completed =>
        var published := r.publication.Some? && r.publication.value.outcome == Published;
        var reconciled := r.reconciledState.Some?
                          && (r.publication.None? || r.publication.value.outcome == PublishedDurabilityUnconfirmed
                              || r.publication.value.outcome == PublicationIndeterminate);
        return published || reconciled;
    }
  }

  // ---------------------------------------------------------------- the successor of a record

  /** The loop that compares retained facts, and allows exactly one more if `one` is set. */
  method KeepsFacts(p: seq<LifecycleFact>, n: seq<LifecycleFact>, one: bool) returns (kept: bool)
    ensures kept <==> if one then Appended(p, n) else n == p
  {
    if |n| != |p| + (if one then 1 else 0) {
      return false;
    }
    for i := 0 to |p|
      invariant p[..i] == n[..i]
    {
      if p[i].result != n[i].result || p[i].succeeded != n[i].succeeded {
        return false;
      }
    }
    return true;
  }

  /** Everything retained but the lifecycle facts, field by field. */
  predicate SameReceipts(p: Record, n: Record) {
    && p.application == n.application && p.transactionEvidence == n.transactionEvidence
    && p.publicationRequest == n.publicationRequest && p.publication == n.publication
  }

  method ValidateSuccessor(p: Record, n: Record) returns (valid: bool)
    requires n.stage == Terminal ==> n.terminalOutcome.Some?
    ensures valid <==> SuccessorAccepts(p, n)
  {
    if p.stage == Terminal {
      return false;
    }
    if p.sequence >= MAXIMUM_SEQUENCE || n.sequence != p.sequence + 1 || n.previous != Some(p.identity) {
      return false;
    }
    if n.attempt != p.attempt || n.session != p.session || n.nonce != p.nonce
       || n.beforeTotal != p.beforeTotal || n.afterTotal != p.afterTotal {
      return false;
    }
    var before := KeepsFacts(p.before, n.before, n.stage == BeforeTerminal);
    var after := KeepsFacts(p.after, n.after, n.stage == AfterTerminal);
    if !before || !after {
      return false;
    }
    var beforeGoesOn := p.before != [] && p.before[|p.before| - 1].succeeded;
    var afterGoesOn := p.after != [] && p.after[|p.after| - 1].succeeded;
    match n.stage {
      case Admitted =>
        return false;
      case BeforeIntent =>
        return (p.stage == Admitted || (p.stage == BeforeTerminal && beforeGoesOn))
               && n.activeIndex == Some(|p.before|) && SameReceipts(p, n);
      case BeforeTerminal =>
        return p.stage == BeforeIntent && SameReceipts(p, n);
      case ApplicationIntent =>
        return ((p.beforeTotal == 0 && p.stage == Admitted) || p.stage == BeforeTerminal) && SameReceipts(p, n);
      case ApplicationTerminal =>
        return p.stage == ApplicationIntent && p.application.None? && n.application.Some?
               && p.transactionEvidence == n.transactionEvidence && p.publicationRequest == n.publicationRequest
               && p.publication == n.publication;
      case AfterIntent =>
        return (p.stage == ApplicationTerminal || (p.stage == AfterTerminal && afterGoesOn))
               && n.activeIndex == Some(|p.after|) && SameReceipts(p, n);
      case AfterTerminal =>
        return p.stage == AfterIntent && SameReceipts(p, n);
      case PublicationIntent =>
        return ((p.afterTotal == 0 && p.stage == ApplicationTerminal) || p.stage == AfterTerminal)
               && p.transactionEvidence.None? && p.publicationRequest.None? && p.publication.None?
               && p.application == n.application && n.publication.None?;
      case PublicationTerminal =>
        return p.stage == PublicationIntent && p.application == n.application
               && p.transactionEvidence == n.transactionEvidence && p.publicationRequest == n.publicationRequest
               && p.publication.None? && n.publication.Some?;
      case Terminal =>
        if !SameReceipts(p, n) {
          return false;
        }
        match n.terminalOutcome.value {
          case LifecycleFailedBeforeApplication =>
            return p.stage == BeforeTerminal;
          case ApplicationNotCompleted =>
            if p.stage != ApplicationTerminal || p.application.None? {
              return false;
            }
            var outcome := p.application.value.outcome;
            return outcome == PreconditionRefused || outcome == FailedBeforeTargetMutation
                   || outcome == FailedFullyRecovered;
          case ApplicationResolutionRequired =>
            return false;
          case LifecycleFailedAfterApplication =>
            return p.stage == AfterTerminal;
          case OuterLeaseLost =>
            return p.stage != BeforeIntent && p.stage != ApplicationIntent && p.stage != AfterIntent
                   && p.stage != PublicationIntent;
          case StatePublicationNotCompleted =>
            return p.stage == PublicationTerminal;
          case StatePublicationIndeterminate =>
            return p.stage == PublicationTerminal;
          case Completed =>
            return p.stage == PublicationIntent || p.stage == PublicationTerminal;
        }
    }
  }

  // ---------------------------------------------------------------- the fields of identities

  method PushFacts(fields: seq<string>, facts: seq<LifecycleFact>) returns (pushed: seq<string>)
    ensures pushed == fields + [Decimal(|facts|)] + FactFields(facts)
  {
    pushed := fields + [Decimal(|facts|)];
    for i := 0 to |facts|
      invariant pushed + FactFields(facts[i..]) == fields + [Decimal(|facts|)] + FactFields(facts)
    {
      assert facts[i..][1..] == facts[i + 1..];
      pushed := pushed + [facts[i].result, if facts[i].succeeded then "1" else "0"];
    }
  }

  method PushHeader(r: Record) returns (fields: seq<string>)
    ensures fields == HeaderFields(r)
  {
    hide Decimal, HexText, StageCode;
    fields := [r.attempt, r.session, HexText(r.nonce), Decimal(r.sequence)];
    fields := fields + [if r.previous.Some? then r.previous.value else ""];
    fields := fields + [Decimal(r.beforeTotal), Decimal(r.afterTotal), Decimal(StageCode(r.stage))];
    fields := fields + [if r.activeIndex.Some? then Decimal(r.activeIndex.value) else ""];
  }

  method PushApplication(application: Option<ApplicationFact>) returns (fields: seq<string>)
    ensures fields == ApplicationFields(application)
  {
    hide Decimal, ApplicationCode;
    fields := [if application.Some? then application.value.receipt else ""];
    fields := fields + [if application.Some? then Decimal(ApplicationCode(application.value.outcome)) else ""];
    fields := fields + [if application.Some? && application.value.journal.Some?
                        then application.value.journal.value else ""];
    fields := fields + [if application.Some? && application.value.completedEvidence.Some?
                        then application.value.completedEvidence.value else ""];
  }

  method PushPublication(publication: Option<PublicationFact>) returns (fields: seq<string>)
    ensures fields == PublicationFields(publication)
  {
    hide Decimal, PublicationCode;
    fields := [if publication.Some? then publication.value.receipt else ""];
    fields := fields + [if publication.Some? then Decimal(PublicationCode(publication.value.outcome)) else ""];
    fields := fields + [if publication.Some? && publication.value.resultingSnapshot.Some?
                        then publication.value.resultingSnapshot.value else ""];
  }

  method PushTail(r: Record) returns (fields: seq<string>)
    ensures fields == TailFields(r)
  {
    hide Decimal, OutcomeCode, PublicationFields;
    var transaction := if r.transactionEvidence.Some? then r.transactionEvidence.value else "";
    var request := if r.publicationRequest.Some? then r.publicationRequest.value else "";
    var publication := PushPublication(r.publication);
    var outcome := if r.terminalOutcome.Some? then Decimal(OutcomeCode(r.terminalOutcome.value)) else "";
    var reconciled := if r.reconciledState.Some? then r.reconciledState.value else "";
    fields := [transaction, request] + publication + [outcome, reconciled];
  }

  /** The fields that the identity of a record is made of. */
  method PushRecord(r: Record) returns (fields: seq<string>)
    ensures fields == IdentityFields(r)
  {
    hide Decimal, HeaderFields, FactFields, ApplicationFields, TailFields;
    fields := PushHeader(r);
    fields := PushFacts(fields, r.before);
    var application := PushApplication(r.application);
    fields := fields + application;
    fields := PushFacts(fields, r.after);
    var tail := PushTail(r);
    fields := fields + tail;
  }

  method PushResults(fields: seq<string>, facts: seq<LifecycleFact>) returns (pushed: seq<string>)
    ensures pushed == fields + [Decimal(|facts|)] + EffectProtocol.Results(facts)
  {
    pushed := fields + [Decimal(|facts|)];
    for i := 0 to |facts|
      invariant pushed + EffectProtocol.Results(facts[i..])
               == fields + [Decimal(|facts|)] + EffectProtocol.Results(facts)
    {
      assert facts[i..][1..] == facts[i + 1..];
      pushed := pushed + [facts[i].result];
    }
  }

  /** The fields that the transaction evidence of a session is made of. */
  method PushTransaction(session: Digest, before: seq<LifecycleFact>, completed: string, after: seq<LifecycleFact>)
    returns (fields: seq<string>)
    ensures fields == EffectProtocol.TransactionFields(session, before, completed, after)
  {
    hide Decimal, EffectProtocol.Results;
    fields := [session];
    fields := PushResults(fields, before);
    fields := fields + [completed];
    fields := PushResults(fields, after);
  }
}
