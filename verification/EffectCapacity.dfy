/**
  How large the encoding of an effect record is, and for which lifecycle totals every record
  of every history of an attempt fits into an encoding.
 */
module EffectCapacity {
  import opened Wrappers
  import opened Identity
  import opened EffectJournal
  import opened EffectJournalLaws
  import opened Formats
  import opened EffectCodec

  // ---------------------------------------------------------------- the size of an encoding

  function TextSize(text: Option<string>): nat {
    if text.Some? then 9 + |text.value| else 1
  }

  function ApplicationSize(a: Option<ApplicationFact>): nat {
    if a.None? then 1
    else 10 + |a.value.receipt| + TextSize(a.value.journal) + TextSize(a.value.completedEvidence)
  }

  function PublicationSize(p: Option<PublicationFact>): nat {
    if p.None? then 1 else 10 + |p.value.receipt| + TextSize(p.value.resultingSnapshot)
  }

  /** All bytes but those of the lifecycle facts: header, checksum, authority, position and the rest. */
  function Overhead(r: Record): nat {
    12 + CHECKSUM_SIZE + 248
    + (if r.previous.Some? then 73 else 1) + (if r.activeIndex.Some? then 9 else 1) + 25
    + 16 + ApplicationSize(r.application)
    + TextSize(r.transactionEvidence) + TextSize(r.publicationRequest) + PublicationSize(r.publication)
    + (if r.terminalOutcome.Some? then 2 else 1) + TextSize(r.reconciledState)
  }

  const FACT_SIZE: nat := 73

  function EncodedSize(r: Record): nat {
    FACT_SIZE * (|r.before| + |r.after|) + Overhead(r)
  }

  lemma AuthoritySize(a: Authority)
    ensures |AuthorityFormat().encode(a)| == 248
  {}

  lemma PositionSize(q: Position)
    ensures |PositionFormat().encode(q)|
         == (if q.previous.Some? then 73 else 1) + (if q.activeIndex.Some? then 9 else 1) + 25
  {}

  lemma OptionalTextSize(text: Option<string>)
    ensures |OptionalText().encode(text)| == TextSize(text)
  {}

  lemma OptionalApplicationSize(a: Option<ApplicationFact>)
    ensures |OptionalFormat(ApplicationFactFormat()).encode(a)| == ApplicationSize(a)
  {
    hide OptionalText;
    if a.Some? {
      OptionalTextSize(a.value.journal);
      OptionalTextSize(a.value.completedEvidence);
    }
  }

  lemma OptionalPublicationSize(p: Option<PublicationFact>)
    ensures |OptionalFormat(PublicationFactFormat()).encode(p)| == PublicationSize(p)
  {
    hide OptionalText;
    if p.Some? {
      OptionalTextSize(p.value.resultingSnapshot);
    }
  }

  lemma FactListSize(facts: seq<LifecycleFact>)
    ensures |ListFormat(FactFormat()).encode(facts)| == 8 + FACT_SIZE * |facts|
  {
    FactsTakeRoom(facts);
    hide FactFormat;
  }

  lemma EvidenceSize(e: Evidence)
    ensures |EvidenceFormat().encode(e)| == 16 + FACT_SIZE * (|e.before| + |e.after|) + ApplicationSize(e.application)
  {
    hide ListFormat, OptionalFormat, FactFormat, ApplicationFactFormat, ApplicationSize;
    FactListSize(e.before);
    FactListSize(e.after);
    OptionalApplicationSize(e.application);
  }

  lemma PublishingSize(q: Publishing)
    ensures |PublishingFormat().encode(q)|
         == TextSize(q.transactionEvidence) + TextSize(q.publicationRequest) + PublicationSize(q.publication)
  {
    hide OptionalText, OptionalFormat, PublicationFactFormat, PublicationSize, TextSize;
    OptionalTextSize(q.transactionEvidence);
    OptionalTextSize(q.publicationRequest);
    OptionalPublicationSize(q.publication);
  }

  lemma EndingSize(e: Ending)
    ensures |EndingFormat().encode(e)| == (if e.terminalOutcome.Some? then 2 else 1) + TextSize(e.reconciledState)
  {
    hide OptionalText, TextSize;
    OptionalTextSize(e.reconciledState);
  }

  lemma RecordSize(r: Record)
    ensures |Payload(r)| + CHECKSUM_SIZE == EncodedSize(r)
  {
    var (a, (q, (e, (u, t)))) := ToGroups(r);
    HeaderBytes([]);
    hide AuthorityFormat, PositionFormat, EvidenceFormat, PublishingFormat, EndingFormat, Header,
      ApplicationSize, PublicationSize, TextSize;
    AuthoritySize(a);
    PositionSize(q);
    EvidenceSize(e);
    PublishingSize(u);
    EndingSize(t);
  }

  /** A record is written if and only if its size is within the limit; no record is too small or too odd. */
  lemma EncodesExactly(sha: Sha256, r: Record)
    ensures Encode(sha, r).Success? <==> EncodedSize(r) <= MAXIMUM_ENCODING_SIZE
    ensures Encode(sha, r).Success? ==> |Encode(sha, r).value| == EncodedSize(r)
    ensures Encode(sha, r).Failure? ==> Encode(sha, r).error == InvalidRecord
  {
    hide Payload, Checksum, EncodedSize;
    RecordSize(r);
  }

  /** More facts than this fit into no record at all, whatever the other fields are. */
  lemma TooManyFactsAreRefused(sha: Sha256, r: Record)
    requires |r.before| + |r.after| > 14359
    ensures Encode(sha, r) == Failure(InvalidRecord)
  {
    hide Encode;
    EncodesExactly(sha, r);
  }

  // ---------------------------------------------------------------- the largest record of an attempt

  /** The overhead of a completed record that has every optional field. */
  const LARGEST_OVERHEAD: nat := 1075

  lemma ApplicationSizeBound(r: Record)
    requires IdentityShape(r)
    ensures ApplicationSize(r.application) <= 250
  {}

  lemma PublicationSizeBound(r: Record)
    requires IdentityShape(r)
    ensures PublicationSize(r.publication) <= 167
  {}

  lemma SizeBound(r: Record)
    requires Shape(r)
    ensures EncodedSize(r) <= FACT_SIZE * (r.beforeTotal + r.afterTotal) + LARGEST_OVERHEAD
  {
    hide ApplicationSize, PublicationSize, StageShape, CausalShape, RetainedTransitionCount;
    ApplicationSizeBound(r);
    PublicationSizeBound(r);
    ActiveHasFewerFacts(r);
  }

  /** While a lifecycle session is active, its fact is not there yet. */
  lemma ActiveHasFewerFacts(r: Record)
    requires Shape(r)
    ensures |r.before| + |r.after| + (if r.activeIndex.Some? then 1 else 0) <= r.beforeTotal + r.afterTotal
  {
    hide IdentityShape, CausalShape, RetainedTransitionCount;
  }

  // ---------------------------------------------------------------- a history that reaches it

  ghost predicate Reaches(sha: Sha256, session: Digest, beforeTotal: nat, afterTotal: nat, nonce: Nonce,
                          records: seq<Record>, r: Record)
  {
    && IsHistory(sha, session, beforeTotal, afterTotal, nonce, records)
    && records[|records| - 1] == r
    && ShapeValid(sha, r) && r.beforeTotal == beforeTotal && r.afterTotal == afterTotal
  }

  /** One enabled transition more. */
  lemma Extend(sha: Sha256, session: Digest, beforeTotal: nat, afterTotal: nat, nonce: Nonce,
               records: seq<Record>, r: Record, t: Transition) returns (longer: seq<Record>, n: Record)
    requires beforeTotal <= MAXIMUM_LIFECYCLE_COUNT && afterTotal <= MAXIMUM_LIFECYCLE_COUNT
    requires Reaches(sha, session, beforeTotal, afterTotal, nonce, records, r)
    requires Enabled(r, t) && r.stage != Terminal && WellFormed(t)
    ensures Reaches(sha, session, beforeTotal, afterTotal, nonce, longer, n)
    ensures n == Next(sha, r, Draft(r, t))
  {
    hide Enabled, Shape, RecordIdentity, Admit, WellFormed, Draft, SuccessorStage;
    GuardsSuffice(sha, r, t);
    n := Apply(sha, r, t).value;
    longer := records + [n];
    forall i | 0 < i < |longer|
      ensures Advances(sha, longer[i - 1], longer[i])
    {
      assert longer[i - 1] == records[i - 1];
      assert i < |records| ==> Advances(sha, records[i - 1], records[i]);
    }
  }

  function TextOf(d: Digest): string {
    "v1:sha256:" + d
  }

  lemma TextIsCanonical(d: Digest)
    ensures EffectJournal.Canonical(TextOf(d)) && |TextOf(d)| == 74
  {
    assert TextOf(d)[..10] == "v1:sha256:" && TextOf(d)[10..] == d;
  }

  /** Some successful lifecycle sessions of the first side are done, and nothing else. */
  predicate BeforeDone(r: Record, done: nat) {
    && |r.before| == done && AllSucceeded(r.before) && r.application.None? && r.after == []
    && r.stage == (if done > 0 then BeforeTerminal else Admitted)
  }

  predicate FullApplication(a: Option<ApplicationFact>) {
    && a.Some? && a.value.outcome == ApplicationCompleted
    && a.value.journal.Some? && a.value.completedEvidence.Some? && ApplicationSize(a) == 250
  }

  predicate AfterDone(r: Record, done: nat) {
    && |r.before| == r.beforeTotal && FullApplication(r.application) && |r.after| == done && AllSucceeded(r.after)
    && r.stage == (if done > 0 then AfterTerminal else ApplicationTerminal)
  }

  lemma {:induction false} ReachBefore(sha: Sha256, session: Digest, beforeTotal: nat, afterTotal: nat, nonce: Nonce,
                                       done: nat)
    returns (records: seq<Record>, r: Record)
    requires beforeTotal <= MAXIMUM_LIFECYCLE_COUNT && afterTotal <= MAXIMUM_LIFECYCLE_COUNT && done <= beforeTotal
    ensures Reaches(sha, session, beforeTotal, afterTotal, nonce, records, r) && BeforeDone(r, done)
  {
    hide RecordIdentity, Shape, Reaches, Apply;
    if done == 0 {
      records, r := ReachAdmission(sha, session, beforeTotal, afterTotal, nonce);
    } else {
      records, r := ReachBefore(sha, session, beforeTotal, afterTotal, nonce, done - 1);
      ReachedTotals(sha, session, beforeTotal, afterTotal, nonce, records, r);
      records, r := Extend(sha, session, beforeTotal, afterTotal, nonce, records, r, BeginBefore(done - 1));
      records, r := Extend(sha, session, beforeTotal, afterTotal, nonce, records, r,
                           CompleteBefore(LifecycleFact(session, true)));
    }
  }

  lemma ReachAdmission(sha: Sha256, session: Digest, beforeTotal: nat, afterTotal: nat, nonce: Nonce)
    returns (records: seq<Record>, r: Record)
    requires beforeTotal <= MAXIMUM_LIFECYCLE_COUNT && afterTotal <= MAXIMUM_LIFECYCLE_COUNT
    ensures Reaches(sha, session, beforeTotal, afterTotal, nonce, records, r) && BeforeDone(r, 0)
  {
    assert Admit(sha, session, beforeTotal, afterTotal, nonce).Success?;
    r := Admit(sha, session, beforeTotal, afterTotal, nonce).value;
    records := [r];
  }

  lemma ReachedTotals(sha: Sha256, session: Digest, beforeTotal: nat, afterTotal: nat, nonce: Nonce,
                      records: seq<Record>, r: Record)
    requires Reaches(sha, session, beforeTotal, afterTotal, nonce, records, r)
    ensures ShapeValid(sha, r) && r.beforeTotal == beforeTotal && r.afterTotal == afterTotal
  {}

  lemma {:induction false} ReachAfter(sha: Sha256, session: Digest, beforeTotal: nat, afterTotal: nat, nonce: Nonce,
                                      done: nat)
    returns (records: seq<Record>, r: Record)
    requires beforeTotal <= MAXIMUM_LIFECYCLE_COUNT && afterTotal <= MAXIMUM_LIFECYCLE_COUNT && done <= afterTotal
    ensures Reaches(sha, session, beforeTotal, afterTotal, nonce, records, r) && AfterDone(r, done)
  {
    hide RecordIdentity, Shape, Reaches, Apply;
    if done == 0 {
      records, r := ReachBefore(sha, session, beforeTotal, afterTotal, nonce, beforeTotal);
      ReachedTotals(sha, session, beforeTotal, afterTotal, nonce, records, r);
      TextIsCanonical(session);
      records, r := Extend(sha, session, beforeTotal, afterTotal, nonce, records, r, BeginApplication);
      var text := TextOf(session);
      var receipt := ApplicationFact(text, ApplicationCompleted, Some(text), Some(text));
      records, r := Extend(sha, session, beforeTotal, afterTotal, nonce, records, r, CompleteApplication(receipt));
    } else {
      records, r := ReachAfter(sha, session, beforeTotal, afterTotal, nonce, done - 1);
      ReachedTotals(sha, session, beforeTotal, afterTotal, nonce, records, r);
      records, r := Extend(sha, session, beforeTotal, afterTotal, nonce, records, r, BeginAfter(done - 1));
      records, r := Extend(sha, session, beforeTotal, afterTotal, nonce, records, r,
                           CompleteAfter(LifecycleFact(session, true)));
    }
  }

  /**
    Every attempt has a history to a record of the largest size: completed by reconciliation, with
    every optional field.
   */
  lemma ReachLargest(sha: Sha256, session: Digest, beforeTotal: nat, afterTotal: nat, nonce: Nonce)
    returns (records: seq<Record>, r: Record)
    requires beforeTotal <= MAXIMUM_LIFECYCLE_COUNT && afterTotal <= MAXIMUM_LIFECYCLE_COUNT
    ensures IsHistory(sha, session, beforeTotal, afterTotal, nonce, records) && records[|records| - 1] == r
    ensures EncodedSize(r) == FACT_SIZE * (beforeTotal + afterTotal) + LARGEST_OVERHEAD
    ensures r.terminalOutcome == Some(Completed)
  {
    hide RecordIdentity, Shape, Reaches, Apply;
    TextIsCanonical(session);
    var text := TextOf(session);
    records, r := ReachAfter(sha, session, beforeTotal, afterTotal, nonce, afterTotal);
    ReachedTotals(sha, session, beforeTotal, afterTotal, nonce, records, r);
    NoAuthorityYet(r);
    records, r := Extend(sha, session, beforeTotal, afterTotal, nonce, records, r, BeginPublication(text, text));
    var fact := PublicationFact(text, PublishedDurabilityUnconfirmed, Some(text));
    records, r := Extend(sha, session, beforeTotal, afterTotal, nonce, records, r,
                         CompletePublication(PublicationReceipt(text, fact)));
    records, r := Extend(sha, session, beforeTotal, afterTotal, nonce, records, r, SealTerminal(Completed, Some(text)));
    ReachedHistory(sha, session, beforeTotal, afterTotal, nonce, records, r);
  }

  lemma NoAuthorityYet(r: Record)
    requires Shape(r) && (r.stage == AfterTerminal || r.stage == ApplicationTerminal)
    ensures !HasPublicationAuthority(r)
  {}

  lemma ReachedHistory(sha: Sha256, session: Digest, beforeTotal: nat, afterTotal: nat, nonce: Nonce,
                       records: seq<Record>, r: Record)
    requires Reaches(sha, session, beforeTotal, afterTotal, nonce, records, r)
    ensures IsHistory(sha, session, beforeTotal, afterTotal, nonce, records) && records[|records| - 1] == r
  {}

  // ---------------------------------------------------------------- the totals that fit

  predicate AllFit(sha: Sha256, records: seq<Record>) {
    forall i | 0 <= i < |records| :: Encode(sha, records[i]).Success?
  }

  ghost predicate EveryRecordFits(sha: Sha256, session: Digest, beforeTotal: nat, afterTotal: nat, nonce: Nonce) {
    forall records: seq<Record> | IsHistory(sha, session, beforeTotal, afterTotal, nonce, records) ::
          AllFit(sha, records)
  }

  /** Every record of every history of an attempt can be written exactly when its totals are at most 14349. */
  lemma TotalsFitExactly(sha: Sha256, session: Digest, beforeTotal: nat, afterTotal: nat, nonce: Nonce)
    requires beforeTotal <= MAXIMUM_LIFECYCLE_COUNT && afterTotal <= MAXIMUM_LIFECYCLE_COUNT
    ensures EveryRecordFits(sha, session, beforeTotal, afterTotal, nonce) <==> beforeTotal + afterTotal <= 14349
  {
    hide Encode, IsHistory, EncodedSize, Shape, RecordIdentity;
    if beforeTotal + afterTotal <= 14349 {
      forall records: seq<Record> | IsHistory(sha, session, beforeTotal, afterTotal, nonce, records)
        ensures AllFit(sha, records)
      {
        forall i | 0 <= i < |records|
          ensures Encode(sha, records[i]).Success?
        {
          HistoryTotals(sha, session, beforeTotal, afterTotal, nonce, records, i);
          SizeBound(records[i]);
          EncodesExactly(sha, records[i]);
        }
      }
    } else {
      var records, r := OversizedIsReached(sha, session, beforeTotal, afterTotal, nonce);
      HistoryIsNotEmpty(sha, session, beforeTotal, afterTotal, nonce, records);
      assert Encode(sha, records[|records| - 1]).Failure?;
    }
  }

  /** Beyond that, a history that the methods allow ends in a completed record that cannot be written. */
  lemma OversizedIsReached(sha: Sha256, session: Digest, beforeTotal: nat, afterTotal: nat, nonce: Nonce)
    returns (records: seq<Record>, r: Record)
    requires beforeTotal <= MAXIMUM_LIFECYCLE_COUNT && afterTotal <= MAXIMUM_LIFECYCLE_COUNT
    requires beforeTotal + afterTotal > 14349
    ensures IsHistory(sha, session, beforeTotal, afterTotal, nonce, records) && records[|records| - 1] == r
    ensures Encode(sha, r) == Failure(InvalidRecord)
  {
    hide Encode, IsHistory, EncodedSize, RecordIdentity;
    records, r := ReachLargest(sha, session, beforeTotal, afterTotal, nonce);
    HistoryIsNotEmpty(sha, session, beforeTotal, afterTotal, nonce, records);
    EncodesExactly(sha, r);
  }

  lemma HistoryIsNotEmpty(sha: Sha256, session: Digest, beforeTotal: nat, afterTotal: nat, nonce: Nonce,
                          records: seq<Record>)
    requires IsHistory(sha, session, beforeTotal, afterTotal, nonce, records)
    ensures records != []
  {}

  lemma HistoryTotals(sha: Sha256, session: Digest, beforeTotal: nat, afterTotal: nat, nonce: Nonce,
                      records: seq<Record>, i: nat)
    requires IsHistory(sha, session, beforeTotal, afterTotal, nonce, records) && i < |records|
    ensures Shape(records[i]) && records[i].beforeTotal == beforeTotal && records[i].afterTotal == afterTotal
  {
    hide RecordIdentity;
    HistoryIsNumbered(sha, session, beforeTotal, afterTotal, nonce, records, i);
  }
}
