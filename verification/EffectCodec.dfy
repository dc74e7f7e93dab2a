/**
  The byte encoding of an effect-attempt record.  Decoding gives back the encoded record,
  and re-encoding what was decoded gives back the bytes, although the decoder never
  re-encodes to check.
 */
module EffectCodec {
  import opened Wrappers
  import opened Identity
  import opened EffectJournal
  import opened Formats
  import EffectJournalLaws

  const MAGIC: seq<char> := "PCTLJNL1"
  const ENCODING_VERSION: nat := 1
  const SCHEMA_VERSION: nat := 1
  const CHECKSUM_SIZE: nat := 32
  const MAXIMUM_ENCODING_SIZE: nat := 1024 * 1024

  // ---------------------------------------------------------------- codes

  function StageOf(code: nat): Option<Stage> {
    match code
    case 1 => Some(Admitted)
    case 2 => Some(BeforeIntent)
    case 3 => Some(BeforeTerminal)
    case 4 => Some(ApplicationIntent)
    case 5 => Some(ApplicationTerminal)
    case 6 => Some(AfterIntent)
    case 7 => Some(AfterTerminal)
    case 8 => Some(PublicationIntent)
    case 9 => Some(PublicationTerminal)
    case 10 => Some(Terminal)
    case _ => None
  }

  function ApplicationOf(code: nat): Option<ApplicationOutcome> {
    match code
    case 1 => Some(PreconditionRefused)
    case 2 => Some(FailedBeforeTargetMutation)
    case 3 => Some(ApplicationCompleted)
    case 4 => Some(FailedFullyRecovered)
    case 5 => Some(FailedWithPartialEffects)
    case 6 => Some(EffectsVisibleDurabilityUnconfirmed)
    case 7 => Some(ApplicationIndeterminate)
    case _ => None
  }

  function PublicationOf(code: nat): Option<PublicationOutcome> {
    match code
    case 1 => Some(Published)
    case 2 => Some(StaleExpectedState)
    case 3 => Some(RequestRejected)
    case 4 => Some(FailedBeforePublication)
    case 5 => Some(PublishedDurabilityUnconfirmed)
    case 6 => Some(PublicationIndeterminate)
    case _ => None
  }

  /** The decoder takes no code above that of a completed operation. */
  function OutcomeOf(code: nat): Option<OperationOutcome> {
    match code
    case 0 => Some(LifecycleFailedBeforeApplication)
    case 1 => Some(ApplicationNotCompleted)
    case 2 => Some(LifecycleFailedAfterApplication)
    case 3 => Some(OuterLeaseLost)
    case 4 => Some(StatePublicationNotCompleted)
    case 5 => Some(StatePublicationIndeterminate)
    case 6 => Some(Completed)
    case _ => None
  }

  function DigestOf(s: string): Option<Digest> {
    if IsHex64(s) then Some(s) else None
  }

  // ---------------------------------------------------------------- formats of the fields

  function DigestFormat(): Format<Digest> {
    CheckedFormat(TextFormat(), s => DigestOf(s), (d: Digest) => d)
  }

  function StageFormat(): Format<Stage> {
    CheckedFormat(NumberFormat(1), n => StageOf(n), (s: Stage) => StageCode(s))
  }

  function ApplicationOutcomeFormat(): Format<ApplicationOutcome> {
    CheckedFormat(NumberFormat(1), n => ApplicationOf(n), (o: ApplicationOutcome) => ApplicationCode(o))
  }

  function PublicationOutcomeFormat(): Format<PublicationOutcome> {
    CheckedFormat(NumberFormat(1), n => PublicationOf(n), (o: PublicationOutcome) => PublicationCode(o))
  }

  function OutcomeFormat(): Format<OperationOutcome> {
    CheckedFormat(NumberFormat(1), n => OutcomeOf(n), (o: OperationOutcome) => OutcomeCode(o))
  }

  function DecodeNonce(s: seq<char>): Option<(Nonce, seq<char>)> {
    if |s| < 32 || !Octets(s[..32]) then None
    else
      var bytes: seq<Octet> := s[..32];
      if IsNonce(bytes) then Some((bytes, s[32..])) else None
  }

  function NonceFormat(): Format<Nonce> {
    Format((n: Nonce) => true, (n: Nonce) => n, s => DecodeNonce(s))
  }

  function FactFormat(): Format<LifecycleFact> {
    CheckedFormat(PairFormat(DigestFormat(), BoolFormat()),
                  (p: (Digest, bool)) => Some(LifecycleFact(p.0, p.1)), (f: LifecycleFact) => (f.result, f.succeeded))
  }

  function OptionalText(): Format<Option<string>> {
    OptionalFormat(TextFormat())
  }

  type ApplicationTuple = ((string, ApplicationOutcome), (Option<string>, Option<string>))

  function ApplicationFactFormat(): Format<ApplicationFact> {
    CheckedFormat(PairFormat(PairFormat(TextFormat(), ApplicationOutcomeFormat()),
                             PairFormat(OptionalText(), OptionalText())),
                  (p: ApplicationTuple) => Some(ApplicationFact(p.0.0, p.0.1, p.1.0, p.1.1)),
                  (a: ApplicationFact) => ((a.receipt, a.outcome), (a.journal, a.completedEvidence)))
  }

  type PublicationTuple = ((string, PublicationOutcome), Option<string>)

  function PublicationFactFormat(): Format<PublicationFact> {
    CheckedFormat(PairFormat(PairFormat(TextFormat(), PublicationOutcomeFormat()), OptionalText()),
                  (p: PublicationTuple) => Some(PublicationFact(p.0.0, p.0.1, p.1)),
                  (f: PublicationFact) => ((f.receipt, f.outcome), f.resultingSnapshot))
  }

  // ---------------------------------------------------------------- the record, in five groups

  datatype Authority = Authority(identity: Digest, attempt: Digest, session: Digest, nonce: Nonce)
  datatype Position = Position(sequence: nat, previous: Option<Digest>, beforeTotal: nat, afterTotal: nat,
                               stage: Stage, activeIndex: Option<nat>)
  datatype Evidence = Evidence(before: seq<LifecycleFact>, application: Option<ApplicationFact>,
                               after: seq<LifecycleFact>)
  datatype Publishing = Publishing(transactionEvidence: Option<string>, publicationRequest: Option<string>,
                                   publication: Option<PublicationFact>)
  datatype Ending = Ending(terminalOutcome: Option<OperationOutcome>, reconciledState: Option<string>)

  type AuthorityTuple = ((Digest, Digest), (Digest, Nonce))

  function AuthorityFormat(): Format<Authority> {
    CheckedFormat(PairFormat(PairFormat(DigestFormat(), DigestFormat()), PairFormat(DigestFormat(), NonceFormat())),
                  (p: AuthorityTuple) => Some(Authority(p.0.0, p.0.1, p.1.0, p.1.1)),
                  (a: Authority) => ((a.identity, a.attempt), (a.session, a.nonce)))
  }

  type PositionTuple = ((nat, Option<Digest>), ((nat, nat), (Stage, Option<nat>)))

  function PositionFormat(): Format<Position> {
    CheckedFormat(PairFormat(PairFormat(NumberFormat(8), OptionalFormat(DigestFormat())),
                             PairFormat(PairFormat(CountFormat(), CountFormat()),
                                        PairFormat(StageFormat(), OptionalFormat(CountFormat())))),
                  (p: PositionTuple) => Some(Position(p.0.0, p.0.1, p.1.0.0, p.1.0.1, p.1.1.0, p.1.1.1)),
                  (q: Position) => ((q.sequence, q.previous),
                                    ((q.beforeTotal, q.afterTotal), (q.stage, q.activeIndex))))
  }

  type EvidenceTuple = (seq<LifecycleFact>, (Option<ApplicationFact>, seq<LifecycleFact>))

  function EvidenceFormat(): Format<Evidence> {
    CheckedFormat(PairFormat(ListFormat(FactFormat()),
                             PairFormat(OptionalFormat(ApplicationFactFormat()), ListFormat(FactFormat()))),
                  (p: EvidenceTuple) => Some(Evidence(p.0, p.1.0, p.1.1)),
                  (e: Evidence) => (e.before, (e.application, e.after)))
  }

  type PublishingTuple = ((Option<string>, Option<string>), Option<PublicationFact>)

  function PublishingFormat(): Format<Publishing> {
    CheckedFormat(PairFormat(PairFormat(OptionalText(), OptionalText()), OptionalFormat(PublicationFactFormat())),
                  (p: PublishingTuple) => Some(Publishing(p.0.0, p.0.1, p.1)),
                  (q: Publishing) => ((q.transactionEvidence, q.publicationRequest), q.publication))
  }

  type EndingTuple = (Option<OperationOutcome>, Option<string>)

  function EndingFormat(): Format<Ending> {
    CheckedFormat(PairFormat(OptionalFormat(OutcomeFormat()), OptionalText()),
                  (p: EndingTuple) => Some(Ending(p.0, p.1)), (e: Ending) => (e.terminalOutcome, e.reconciledState))
  }

  type RecordTuple = (Authority, (Position, (Evidence, (Publishing, Ending))))

  function FromGroups(p: RecordTuple): Record {
    var (a, (q, (e, (u, t)))) := p;
    Record(a.identity, a.attempt, a.session, a.nonce, q.sequence, q.previous, q.beforeTotal, q.afterTotal, q.stage,
           q.activeIndex,
           e.before, e.application, e.after, u.transactionEvidence, u.publicationRequest, u.publication,
           t.terminalOutcome, t.reconciledState)
  }

  function ToGroups(r: Record): RecordTuple {
    (Authority(r.identity, r.attempt, r.session, r.nonce),
     (Position(r.sequence, r.previous, r.beforeTotal, r.afterTotal, r.stage, r.activeIndex),
      (Evidence(r.before, r.application, r.after),
       (Publishing(r.transactionEvidence, r.publicationRequest, r.publication),
        Ending(r.terminalOutcome, r.reconciledState)))))
  }

  function GroupsFormat(): Format<RecordTuple> {
    PairFormat(AuthorityFormat(),
               PairFormat(PositionFormat(),
                          PairFormat(EvidenceFormat(), PairFormat(PublishingFormat(), EndingFormat()))))
  }

  function RecordFormat(): Format<Record> {
    CheckedFormat(GroupsFormat(), (p: RecordTuple) => Some(FromGroups(p)), (r: Record) => ToGroups(r))
  }

  // ---------------------------------------------------------------- the formats are lawful

  lemma DigestIsLawful()
    ensures Lawful(DigestFormat()) && forall d: Digest :: DigestFormat().valid(d)
  {
    TextIsLawful();
    Pow256Eight();
    CheckedIsLawful(TextFormat(), s => DigestOf(s), (d: Digest) => d);
  }

  lemma StageIsLawful()
    ensures Lawful(StageFormat()) && forall s: Stage :: StageFormat().valid(s)
  {
    NumberIsLawful(1);
    assert Pow256(1) == 256;
    CheckedIsLawful(NumberFormat(1), n => StageOf(n), (s: Stage) => StageCode(s));
  }

  lemma ApplicationOutcomeIsLawful()
    ensures Lawful(ApplicationOutcomeFormat()) && forall o: ApplicationOutcome :: ApplicationOutcomeFormat().valid(o)
  {
    NumberIsLawful(1);
    assert Pow256(1) == 256;
    CheckedIsLawful(NumberFormat(1), n => ApplicationOf(n), (o: ApplicationOutcome) => ApplicationCode(o));
  }

  lemma PublicationOutcomeIsLawful()
    ensures Lawful(PublicationOutcomeFormat()) && forall o: PublicationOutcome :: PublicationOutcomeFormat().valid(o)
  {
    NumberIsLawful(1);
    assert Pow256(1) == 256;
    CheckedIsLawful(NumberFormat(1), n => PublicationOf(n), (o: PublicationOutcome) => PublicationCode(o));
  }

  lemma OutcomeIsLawful()
    ensures Lawful(OutcomeFormat())
    ensures forall o: OperationOutcome :: OutcomeFormat().valid(o) <==> o != ApplicationResolutionRequired
  {
    NumberIsLawful(1);
    assert Pow256(1) == 256;
    CheckedIsLawful(NumberFormat(1), n => OutcomeOf(n), (o: OperationOutcome) => OutcomeCode(o));
  }

  lemma NonceIsLawful()
    ensures Lawful(NonceFormat())
  {
    var f := NonceFormat();
    forall n: Nonce, rest: seq<char> | f.valid(n)
      ensures f.decode(f.encode(n) + rest) == Some((n, rest))
    {
      var s: seq<char> := n + rest;
      assert s[..32] == n && s[32..] == rest;
    }
    forall s: seq<char> | Octets(s)
      ensures Reads(f, s)
    {
      if f.decode(s).Some? {
        assert s == s[..32] + s[32..];
      }
    }
  }

  lemma FactIsLawful()
    ensures Lawful(FactFormat()) && forall f: LifecycleFact :: FactFormat().valid(f)
  {
    DigestIsLawful();
    BoolIsLawful();
    hide DigestFormat, BoolFormat, Lawful;
    PairIsLawful(DigestFormat(), BoolFormat());
    CheckedIsLawful(PairFormat(DigestFormat(), BoolFormat()),
                    (p: (Digest, bool)) => Some(LifecycleFact(p.0, p.1)),
                    (f: LifecycleFact) => (f.result, f.succeeded));
  }

  lemma OptionalTextIsLawful()
    ensures Lawful(OptionalText())
  {
    TextIsLawful();
    OptionalIsLawful(TextFormat());
  }

  lemma ApplicationFactIsLawful()
    ensures Lawful(ApplicationFactFormat())
  {
    TextIsLawful();
    ApplicationOutcomeIsLawful();
    OptionalTextIsLawful();
    hide TextFormat, ApplicationOutcomeFormat, OptionalText, Lawful;
    PairIsLawful(TextFormat(), ApplicationOutcomeFormat());
    PairIsLawful(OptionalText(), OptionalText());
    PairIsLawful(PairFormat(TextFormat(), ApplicationOutcomeFormat()), PairFormat(OptionalText(), OptionalText()));
    CheckedIsLawful(PairFormat(PairFormat(TextFormat(), ApplicationOutcomeFormat()),
                               PairFormat(OptionalText(), OptionalText())),
                    (p: ApplicationTuple) => Some(ApplicationFact(p.0.0, p.0.1, p.1.0, p.1.1)),
                    (a: ApplicationFact) => ((a.receipt, a.outcome), (a.journal, a.completedEvidence)));
  }

  lemma PublicationFactIsLawful()
    ensures Lawful(PublicationFactFormat())
  {
    TextIsLawful();
    PublicationOutcomeIsLawful();
    OptionalTextIsLawful();
    hide TextFormat, PublicationOutcomeFormat, OptionalText, Lawful;
    PairIsLawful(TextFormat(), PublicationOutcomeFormat());
    PairIsLawful(PairFormat(TextFormat(), PublicationOutcomeFormat()), OptionalText());
    CheckedIsLawful(PairFormat(PairFormat(TextFormat(), PublicationOutcomeFormat()), OptionalText()),
                    (p: PublicationTuple) => Some(PublicationFact(p.0.0, p.0.1, p.1)),
                    (f: PublicationFact) => ((f.receipt, f.outcome), f.resultingSnapshot));
  }

  lemma AuthorityIsLawful()
    ensures Lawful(AuthorityFormat())
  {
    DigestIsLawful();
    NonceIsLawful();
    hide DigestFormat, NonceFormat, Lawful;
    PairIsLawful(DigestFormat(), DigestFormat());
    PairIsLawful(DigestFormat(), NonceFormat());
    PairIsLawful(PairFormat(DigestFormat(), DigestFormat()), PairFormat(DigestFormat(), NonceFormat()));
    CheckedIsLawful(PairFormat(PairFormat(DigestFormat(), DigestFormat()), PairFormat(DigestFormat(), NonceFormat())),
                    (p: AuthorityTuple) => Some(Authority(p.0.0, p.0.1, p.1.0, p.1.1)),
                    (a: Authority) => ((a.identity, a.attempt), (a.session, a.nonce)));
  }

  lemma PositionIsLawful()
    ensures Lawful(PositionFormat())
  {
    NumberIsLawful(8);
    DigestIsLawful();
    CountIsLawful();
    StageIsLawful();
    OptionalIsLawful(DigestFormat());
    OptionalIsLawful(CountFormat());
    hide NumberFormat, DigestFormat, CountFormat, StageFormat, OptionalFormat, Lawful;
    PairIsLawful(NumberFormat(8), OptionalFormat(DigestFormat()));
    PairIsLawful(CountFormat(), CountFormat());
    PairIsLawful(StageFormat(), OptionalFormat(CountFormat()));
    PairIsLawful(PairFormat(CountFormat(), CountFormat()), PairFormat(StageFormat(), OptionalFormat(CountFormat())));
    PairIsLawful(PairFormat(NumberFormat(8), OptionalFormat(DigestFormat())),
                 PairFormat(PairFormat(CountFormat(), CountFormat()),
                            PairFormat(StageFormat(), OptionalFormat(CountFormat()))));
    CheckedIsLawful(PairFormat(PairFormat(NumberFormat(8), OptionalFormat(DigestFormat())),
                               PairFormat(PairFormat(CountFormat(), CountFormat()),
                                          PairFormat(StageFormat(), OptionalFormat(CountFormat())))),
                    (p: PositionTuple) => Some(Position(p.0.0, p.0.1, p.1.0.0, p.1.0.1, p.1.1.0, p.1.1.1)),
                    (q: Position) => ((q.sequence, q.previous),
                                      ((q.beforeTotal, q.afterTotal), (q.stage, q.activeIndex))));
  }

  lemma EvidenceIsLawful()
    ensures Lawful(EvidenceFormat())
  {
    FactIsLawful();
    ApplicationFactIsLawful();
    ListIsLawful(FactFormat());
    OptionalIsLawful(ApplicationFactFormat());
    hide FactFormat, ApplicationFactFormat, ListFormat, OptionalFormat, Lawful;
    PairIsLawful(OptionalFormat(ApplicationFactFormat()), ListFormat(FactFormat()));
    PairIsLawful(ListFormat(FactFormat()),
                 PairFormat(OptionalFormat(ApplicationFactFormat()), ListFormat(FactFormat())));
    CheckedIsLawful(PairFormat(ListFormat(FactFormat()),
                               PairFormat(OptionalFormat(ApplicationFactFormat()), ListFormat(FactFormat()))),
                    (p: EvidenceTuple) => Some(Evidence(p.0, p.1.0, p.1.1)),
                    (e: Evidence) => (e.before, (e.application, e.after)));
  }

  lemma PublishingIsLawful()
    ensures Lawful(PublishingFormat())
  {
    OptionalTextIsLawful();
    PublicationFactIsLawful();
    OptionalIsLawful(PublicationFactFormat());
    hide OptionalText, PublicationFactFormat, OptionalFormat, Lawful;
    PairIsLawful(OptionalText(), OptionalText());
    PairIsLawful(PairFormat(OptionalText(), OptionalText()), OptionalFormat(PublicationFactFormat()));
    CheckedIsLawful(PairFormat(PairFormat(OptionalText(), OptionalText()), OptionalFormat(PublicationFactFormat())),
                    (p: PublishingTuple) => Some(Publishing(p.0.0, p.0.1, p.1)),
                    (q: Publishing) => ((q.transactionEvidence, q.publicationRequest), q.publication));
  }

  lemma EndingIsLawful()
    ensures Lawful(EndingFormat())
  {
    OptionalTextIsLawful();
    OutcomeIsLawful();
    OptionalIsLawful(OutcomeFormat());
    hide OptionalText, OutcomeFormat, OptionalFormat, Lawful;
    PairIsLawful(OptionalFormat(OutcomeFormat()), OptionalText());
    CheckedIsLawful(PairFormat(OptionalFormat(OutcomeFormat()), OptionalText()),
                    (p: EndingTuple) => Some(Ending(p.0, p.1)), (e: Ending) => (e.terminalOutcome, e.reconciledState));
  }

  lemma RecordIsLawful()
    ensures Lawful(RecordFormat())
  {
    AuthorityIsLawful();
    PositionIsLawful();
    EvidenceIsLawful();
    PublishingIsLawful();
    EndingIsLawful();
    hide AuthorityFormat, PositionFormat, EvidenceFormat, PublishingFormat, EndingFormat, Lawful;
    PairIsLawful(PublishingFormat(), EndingFormat());
    PairIsLawful(EvidenceFormat(), PairFormat(PublishingFormat(), EndingFormat()));
    PairIsLawful(PositionFormat(), PairFormat(EvidenceFormat(), PairFormat(PublishingFormat(), EndingFormat())));
    PairIsLawful(AuthorityFormat(),
                 PairFormat(PositionFormat(),
                            PairFormat(EvidenceFormat(), PairFormat(PublishingFormat(), EndingFormat()))));
    CheckedIsLawful(GroupsFormat(), (p: RecordTuple) => Some(FromGroups(p)), (r: Record) => ToGroups(r));
  }

  // ---------------------------------------------------------------- the whole encoding

  function HexValue(c: char): nat
    requires IsHexDigit(c)
  {
    if c <= '9' then c as int - '0' as int else c as int - 'a' as int + 10
  }

  /** The bytes that a hexadecimal text writes out. */
  function FromHex(s: string): (bytes: seq<char>)
    requires |s| % 2 == 0 && forall i | 0 <= i < |s| :: IsHexDigit(s[i])
    ensures |bytes| == |s| / 2 && Octets(bytes)
  {
    if s == [] then [] else [(16 * HexValue(s[0]) + HexValue(s[1])) as char] + FromHex(s[2..])
  }

  function Checksum(sha: Sha256, payload: seq<char>): (sum: seq<char>)
    ensures |sum| == CHECKSUM_SIZE && Octets(sum)
  {
    FromHex(sha(payload))
  }

  function Header(): seq<char> {
    MAGIC + BigEndian(ENCODING_VERSION, 2) + BigEndian(SCHEMA_VERSION, 2)
  }

  function Payload(r: Record): seq<char> {
    Header() + RecordFormat().encode(r)
  }

  function Encode(sha: Sha256, r: Record): Result<seq<char>, JournalError> {
    var payload := Payload(r);
    if |payload| + CHECKSUM_SIZE > MAXIMUM_ENCODING_SIZE then Failure(InvalidRecord)
    else Success(payload + Checksum(sha, payload))
  }

  function DecodeBody(sha: Sha256, body: seq<char>): Result<Record, JournalError> {
    match RecordFormat().decode(body)
    case None => Failure(CorruptEncoding)
    case Some((r, rest)) =>
      if rest != [] || Restore(sha, r).Failure? then Failure(CorruptEncoding) else Success(r)
  }

  /** Twelve bytes come before the record: the magic and the two versions. */
  function DecodePayload(sha: Sha256, payload: seq<char>): Result<Record, JournalError>
    requires |payload| >= 12
  {
    if payload[..8] != MAGIC then Failure(CorruptEncoding)
    else if FromBigEndian(payload[8..10]) != ENCODING_VERSION || FromBigEndian(payload[10..12]) != SCHEMA_VERSION then
      Failure(UnsupportedEncoding)
    else DecodeBody(sha, payload[12..])
  }

  function Decode(sha: Sha256, bytes: seq<char>): Result<Record, JournalError> {
    if |bytes| < 12 + CHECKSUM_SIZE || |bytes| > MAXIMUM_ENCODING_SIZE then Failure(CorruptEncoding)
    else
      var payload := bytes[..|bytes| - CHECKSUM_SIZE];
      if bytes[|bytes| - CHECKSUM_SIZE..] != Checksum(sha, payload) then Failure(CorruptEncoding)
      else DecodePayload(sha, payload)
  }

  // ---------------------------------------------------------------- round trips

  lemma HexIsOctets(s: string)
    requires forall i | 0 <= i < |s| :: IsHexDigit(s[i])
    ensures Octets(s)
  {}

  lemma CanonicalIsText(s: string)
    requires EffectJournal.Canonical(s)
    ensures TextFormat().valid(s)
  {
    Pow256Eight();
    HexIsOctets(s[10..]);
    forall i | 0 <= i < |s|
      ensures s[i] as int < 256
    {
      assert i < 10 ==> s[i] == s[..10][i];
      assert i >= 10 ==> s[i] == s[10..][i - 10];
    }
  }

  lemma CanonicalOptionIsText(s: Option<string>)
    requires CanonicalIfPresent(s)
    ensures OptionalText().valid(s)
  {
    if s.Some? {
      CanonicalIsText(s.value);
    }
  }

  predicate Counted(r: Record) {
    r.beforeTotal <= MAXIMUM_COUNT && r.afterTotal <= MAXIMUM_COUNT
  }

  lemma PositionIsValid(r: Record)
    requires Shape(r) && Counted(r)
    ensures PositionFormat().valid(ToGroups(r).1.0)
  {
    hide Lawful, CountFormat, StageFormat, DigestFormat, IdentityShape, CausalShape, StageShape,
      RetainedTransitionCount;
    EffectJournalLaws.SequenceBound(r);
    NumberIsLawful(8);
    Pow256Eight();
    CountIsLawful();
    StageIsLawful();
    DigestIsLawful();
  }

  lemma FactsAreValid(facts: seq<LifecycleFact>)
    requires |facts| <= MAXIMUM_COUNT
    ensures ListFormat(FactFormat()).valid(facts)
  {
    FactIsLawful();
    hide FactFormat;
  }

  lemma ApplicationIsValid(a: ApplicationFact)
    requires ApplicationFactShape(a)
    ensures ApplicationFactFormat().valid(a)
  {
    CanonicalIsText(a.receipt);
    CanonicalOptionIsText(a.journal);
    CanonicalOptionIsText(a.completedEvidence);
    ApplicationOutcomeIsLawful();
    hide TextFormat, OptionalText, ApplicationOutcomeFormat;
  }

  lemma PublicationIsValid(p: PublicationFact)
    requires PublicationFactShape(p)
    ensures PublicationFactFormat().valid(p)
  {
    CanonicalIsText(p.receipt);
    CanonicalOptionIsText(p.resultingSnapshot);
    PublicationOutcomeIsLawful();
    hide TextFormat, OptionalText, PublicationOutcomeFormat;
  }

  lemma EvidenceIsValid(r: Record)
    requires Shape(r) && Counted(r)
    ensures EvidenceFormat().valid(ToGroups(r).1.1.0)
  {
    FactsAreValid(r.before);
    FactsAreValid(r.after);
    if r.application.Some? {
      ApplicationIsValid(r.application.value);
    }
    hide ListFormat, FactFormat, ApplicationFactFormat, CausalShape, StageShape;
  }

  lemma PublishingIsValid(r: Record)
    requires Shape(r)
    ensures PublishingFormat().valid(ToGroups(r).1.1.1.0)
  {
    CanonicalOptionIsText(r.transactionEvidence);
    CanonicalOptionIsText(r.publicationRequest);
    if r.publication.Some? {
      PublicationIsValid(r.publication.value);
    }
    hide OptionalText, PublicationFactFormat, CausalShape, StageShape;
  }

  lemma EndingIsValid(r: Record)
    requires Shape(r)
    ensures EndingFormat().valid(ToGroups(r).1.1.1.1)
  {
    CanonicalOptionIsText(r.reconciledState);
    OutcomeIsLawful();
    hide OptionalText, OutcomeFormat, CausalShape;
  }

  lemma AuthorityIsValid(r: Record)
    ensures AuthorityFormat().valid(ToGroups(r).0)
  {
    DigestIsLawful();
    hide DigestFormat;
  }

  /** Every valid record within the count bounds can be written. */
  lemma ValidRecordsAreWritable(r: Record)
    requires Shape(r) && Counted(r)
    ensures RecordFormat().valid(r)
  {
    AuthorityIsValid(r);
    PositionIsValid(r);
    EvidenceIsValid(r);
    PublishingIsValid(r);
    EndingIsValid(r);
    hide AuthorityFormat, PositionFormat, EvidenceFormat, PublishingFormat, EndingFormat, Shape;
  }

  lemma HeaderBytes(rest: seq<char>)
    ensures |Header()| == 12
    ensures (Header() + rest)[..8] == MAGIC && FromBigEndian((Header() + rest)[8..10]) == ENCODING_VERSION
    ensures FromBigEndian((Header() + rest)[10..12]) == SCHEMA_VERSION && (Header() + rest)[12..] == rest
  {
    var s := Header() + rest;
    assert s[8..10] == BigEndian(ENCODING_VERSION, 2) && s[10..12] == BigEndian(SCHEMA_VERSION, 2);
    assert Pow256(2) == 65536;
    NumberBack(ENCODING_VERSION, 2);
    NumberBack(SCHEMA_VERSION, 2);
  }

  /** Decoding the encoding of a valid record within the bounds returns the record. */
  lemma DecodingInvertsEncoding(sha: Sha256, r: Record)
    requires ShapeValid(sha, r) && Counted(r) && Encode(sha, r).Success?
    ensures Decode(sha, Encode(sha, r).value) == Success(r)
  {
    hide RecordFormat, Shape, Checksum, Header;
    var body := RecordFormat().encode(r);
    var payload := Payload(r);
    var bytes := Encode(sha, r).value;
    assert bytes[..|bytes| - CHECKSUM_SIZE] == payload && bytes[|bytes| - CHECKSUM_SIZE..] == Checksum(sha, payload);
    HeaderBytes(body);
    ValidRecordsAreWritable(r);
    RecordIsLawful();
    Back(RecordFormat(), r, []);
    assert body + [] == body;
  }

  lemma HeaderIsOnly(s: seq<char>)
    requires Octets(s) && |s| >= 12 && s[..8] == MAGIC
    requires FromBigEndian(s[8..10]) == ENCODING_VERSION && FromBigEndian(s[10..12]) == SCHEMA_VERSION
    ensures s == Header() + s[12..]
  {
    NumberOnly(s[8..10]);
    NumberOnly(s[10..12]);
    assert s == s[..8] + s[8..10] + s[10..12] + s[12..];
  }

  /** Re-encoding what the decoder accepted gives the same bytes: an encoding is canonical. */
  lemma EncodingInvertsDecoding(sha: Sha256, bytes: seq<char>)
    requires Octets(bytes) && Decode(sha, bytes).Success?
    ensures Encode(sha, Decode(sha, bytes).value) == Success(bytes)
    ensures ShapeValid(sha, Decode(sha, bytes).value)
  {
    hide RecordFormat, Shape, Checksum, Header;
    var r := Decode(sha, bytes).value;
    var payload := bytes[..|bytes| - CHECKSUM_SIZE];
    assert bytes == payload + bytes[|bytes| - CHECKSUM_SIZE..];
    HeaderIsOnly(payload);
    RecordIsLawful();
    Only(RecordFormat(), payload[12..]);
    assert RecordFormat().encode(r) + [] == RecordFormat().encode(r);
    assert payload == Payload(r);
  }

  /** Each lifecycle fact takes seventy-three bytes. */
  lemma {:induction false} FactsTakeRoom(facts: seq<LifecycleFact>)
    ensures |EncodeItems(FactFormat(), facts)| == 73 * |facts|
    decreases |facts|
  {
    if facts != [] {
      FactsTakeRoom(facts[1..]);
    }
  }
}
