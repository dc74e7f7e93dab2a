/**
  A series that publishes twice without a read: the publication intent is live and not durable
  when a restart publishes on it, and a power loss takes it back.
 */
module EffectLostIntent {
  import opened Wrappers
  import opened Identity
  import opened EffectJournal
  import opened EffectJournalLaws
  import opened EffectProtocol
  import opened EffectTransparency
  import opened EffectStorage
  import opened EffectSafety
  import opened EffectOrder
  import EffectCapacity

  /** An operation without lifecycle sessions, from one state to another. */
  function Operation(sha: Sha256, session: Digest, nonce: Nonce): Config {
    Config(sha, session, 0, 0, nonce, "old", (completed, transaction) => EffectCapacity.TextOf(session),
           request => "new", false)
  }

  function Receipt(session: Digest): ApplicationFact {
    var text := EffectCapacity.TextOf(session);
    ApplicationFact(text, ApplicationCompleted, Some(text), Some(text))
  }

  /** A store that compares: it moves the old state, and calls any other one stale. */
  function Comparing(session: Digest, request: string, canonical: string): Publication {
    var outcome := if canonical == "old" then Published else StaleExpectedState;
    var fact := PublicationFact(EffectCapacity.TextOf(session), outcome, None);
    Publication(PublicationReceipt(request, fact), canonical == "old")
  }

  function Answering(session: Digest): Driver {
    Driver((side, index) => None, Some(Receipt(session)), None,
           (request, canonical) => Comparing(session, request, canonical), sequence => true, true)
  }

  lemma AnswersAreLawful(cfg: Config, session: Digest)
    requires cfg.expected == "old"
    ensures LawfulStore(cfg, Answering(session)) && ApplicationFactShape(Receipt(session))
    ensures forall request: string, canonical: string ::
              PublicationFactShape(Answering(session).publish(request, canonical).receipt.fact)
  {
    EffectCapacity.TextIsCanonical(session);
  }

  // ---------------------------------------------------------------- one action of the series

  /** An enabled transition is appended, and the process goes on after it. */
  lemma AppendsOne(cfg: Config, d: Driver, st: Storage, r: Record, t: Transition)
    requires Valid(cfg) && Ready(cfg, r) && r.stage != Terminal && Enabled(r, t) && WellFormed(t)
    ensures Ready(cfg, Appends(cfg, r, t)) && Shape(Appends(cfg, r, t))
    ensures Apply(cfg.sha, r, t) == Success(Appends(cfg, r, t))
    ensures StoredStep(cfg, d, Standing(st, Process(r, Appending(t), false)))
         == var n := Appends(cfg, r, t);
            Standing(Logged(cfg, st, Appended(n)), Process(n, Continue(cfg, d, n, false), false))
    ensures NextAppend(cfg, d, Standing(st, Process(r, Appending(t), false))) == Some(Appends(cfg, r, t))
  {
    hide Shape, Continue, LoggedAll, Appends, Apply, Enabled, WellFormed, RecordIdentity;
    EnabledAppends(cfg, r, t);
    LoggedOne(cfg, st, Appended(Appends(cfg, r, t)));
  }

  lemma RunStep(cfg: Config, d: Driver, s: Standing, n: nat)
    requires Valid(cfg) && !s.process.pc.Stopped? && n > 0
    ensures StoredRun(cfg, d, s, n) == StoredRun(cfg, d, StoredStep(cfg, d, s), n - 1)
  {}

  /** The attempt before its publication: applied and judged, with the intent to come. */
  predicate Applied(cfg: Config, r: Record) {
    && Ready(cfg, r) && r.stage == ApplicationTerminal && IsApplicationComplete(r)
    && r.before == [] && r.after == [] && !HasPublicationAuthority(r)
  }

  ghost predicate Session(cfg: Config, session: Digest) {
    cfg == Operation(cfg.sha, session, cfg.nonce)
  }

  lemma AdmissionGoesOn(cfg: Config, session: Digest, st: Storage)
    requires Session(cfg, session)
    ensures Valid(cfg) && Ready(cfg, Admission(cfg)) && Enabled(Admission(cfg), BeginApplication)
    ensures WellFormed(BeginApplication) && Admission(cfg).before == [] && Admission(cfg).after == []
    ensures StoredStep(cfg, Answering(session), Standing(st, Process(Admission(cfg), Admitting, false)))
         == Standing(Logged(cfg, st, Appended(Admission(cfg))),
                     Process(Admission(cfg), Appending(BeginApplication), false))
  {
    hide RecordIdentity, LoggedAll, Logged;
    LoggedOne(cfg, st, Appended(Admission(cfg)));
  }

  lemma ApplicationIsCalled(cfg: Config, session: Digest, st: Storage, r: Record)
    requires Session(cfg, session) && Shape(r) && r.stage == ApplicationIntent
    ensures Continue(cfg, Answering(session), r, false) == Calling
    ensures StoredStep(cfg, Answering(session), Standing(st, Process(r, Calling, false)))
         == Standing(Logged(cfg, st, AppliedApplication),
                     Process(r, Appending(CompleteApplication(Receipt(session))), false))
  {
    hide Shape, LoggedAll, Logged;
    LoggedOne(cfg, st, AppliedApplication);
  }

  lemma IntentGoesOn(r: Record, receipt: ApplicationFact)
    requires Shape(r) && r.stage == ApplicationIntent
    ensures Enabled(r, CompleteApplication(receipt)) && !HasPublicationAuthority(r)
  {}

  lemma AppliedGoesOn(cfg: Config, session: Digest, r: Record)
    requires Session(cfg, session) && Applied(cfg, r)
    ensures Continue(cfg, Answering(session), r, false) == Appending(Projection(cfg, r))
    ensures Enabled(r, Projection(cfg, r)) && WellFormed(Projection(cfg, r))
  {
    hide RecordIdentity;
    EffectCapacity.TextIsCanonical(session);
    TransactionIsCanonical(cfg, r.before, CompletedEvidence(r.application), r.after);
    hide TransactionEvidence;
  }

  /** The first process, up to where its publication intent is next. */
  lemma ExecutesToIntent(cfg: Config, session: Digest) returns (r: Record, st: Storage)
    requires Session(cfg, session)
    ensures Valid(cfg) && Applied(cfg, r) && st.disk.head == st.durable == Some(r) && st.disk.canonical == "old"
    ensures StoredRun(cfg, Answering(session), Standing(Blank("old"), Process(Admission(cfg), Admitting, false)), 4)
         == Standing(st, Process(r, Appending(Projection(cfg, r)), false))
    ensures |st.heads| == |st.disk.log|
  {
    hide StoredStep, Shape, Enabled, WellFormed, RecordIdentity, Appends, Continue, Projection;
    var d, blank := Answering(session), Blank("old");
    AnswersAreLawful(cfg, session);
    AdmissionGoesOn(cfg, session, blank);
    var a0 := Admission(cfg);
    var st1 := Logged(cfg, blank, Appended(a0));
    AppendsOne(cfg, d, st1, a0, BeginApplication);
    AppendsFacts(cfg, a0, BeginApplication);
    var a1 := Appends(cfg, a0, BeginApplication);
    var st2 := Logged(cfg, st1, Appended(a1));
    ApplicationIsCalled(cfg, session, st2, a1);
    var st3 := Logged(cfg, st2, AppliedApplication);
    var t := CompleteApplication(Receipt(session));
    IntentGoesOn(a1, Receipt(session));
    assert WellFormed(t) by { CompletionIsWellFormed(Receipt(session)); }
    AppendsOne(cfg, d, st3, a1, t);
    AppendsFacts(cfg, a1, t);
    r := Appends(cfg, a1, t);
    st := Logged(cfg, st3, Appended(r));
    AppliedGoesOn(cfg, session, r);
    FourSteps(cfg, d, Standing(blank, Process(a0, Admitting, false)),
              Standing(st1, Process(a0, Appending(BeginApplication), false)),
              Standing(st2, Process(a1, Calling, false)), Standing(st3, Process(a1, Appending(t), false)),
              Standing(st, Process(r, Appending(Projection(cfg, r)), false)));
  }

  lemma CompletionIsWellFormed(receipt: ApplicationFact)
    requires ApplicationFactShape(receipt)
    ensures WellFormed(CompleteApplication(receipt))
  {}

  lemma FourSteps(cfg: Config, d: Driver, s0: Standing, s1: Standing, s2: Standing, s3: Standing, s4: Standing)
    requires Valid(cfg) && !s0.process.pc.Stopped? && !s1.process.pc.Stopped? && !s2.process.pc.Stopped?
    requires !s3.process.pc.Stopped? && StoredStep(cfg, d, s0) == s1 && StoredStep(cfg, d, s1) == s2
    requires StoredStep(cfg, d, s2) == s3 && StoredStep(cfg, d, s3) == s4
    ensures StoredRun(cfg, d, s0, 4) == s4
  {
    hide StoredStep;
    RunStep(cfg, d, s0, 4);
    RunStep(cfg, d, s1, 3);
    RunStep(cfg, d, s2, 2);
    RunStep(cfg, d, s3, 1);
  }

  /** A publication, by a fresh process or by a reconciling one. */
  lemma PublishesOnce(cfg: Config, session: Digest, st: Storage, r: Record, reconciling: bool)
    requires Session(cfg, session) && Shape(r) && r.stage == PublicationIntent && r.publicationRequest.Some?
    ensures var request := r.publicationRequest.value;
            var answer := Comparing(session, request, st.disk.canonical);
            StoredStep(cfg, Answering(session),
                       Standing(st, Process(r, if reconciling then Republishing else Calling, reconciling)))
            == Standing(Logged(cfg, st, PublishedState(request, answer.moved)),
                        Process(r, Appending(CompletePublication(answer.receipt)), reconciling))
  {
    hide Shape, LoggedAll, Logged, RecordIdentity, Apply, Continue;
    LoggedOne(cfg, st, PublishedState(r.publicationRequest.value, st.disk.canonical == "old"));
  }

  lemma ProjectionIntent(cfg: Config, session: Digest, r: Record)
    requires Session(cfg, session) && Applied(cfg, r)
    ensures var n := Appends(cfg, r, Projection(cfg, r));
            && Ready(cfg, n) && n.stage == PublicationIntent && n.publication.None?
            && n.publicationRequest == Some(EffectCapacity.TextOf(session)) && Some(n) != Some(r)
  {
    hide Enabled, WellFormed, Shape, RecordIdentity, Appends, TransactionEvidence;
    AppliedGoesOn(cfg, session, r);
    EnabledAppends(cfg, r, Projection(cfg, r));
    AppendsFacts(cfg, r, Projection(cfg, r));
  }

  /** The stale receipt of the second publication is appended and sealed. */
  lemma StaleIsSealed(cfg: Config, session: Digest, st: Storage, r: Record) returns (terminal: Record, final: Record)
    requires Session(cfg, session) && Ready(cfg, r) && r.stage == PublicationIntent
    requires r.publicationRequest == Some(EffectCapacity.TextOf(session))
    ensures Valid(cfg) && terminal.stage == PublicationTerminal
    ensures var stale := CompletePublication(Comparing(session, r.publicationRequest.value, "new").receipt);
            var s := Standing(st, Process(r, Appending(stale), false));
            var sealing := Process(terminal, Appending(SealTerminal(StatePublicationNotCompleted, None)), false);
            && StoredStep(cfg, Answering(session), s) == Standing(Logged(cfg, st, Appended(terminal)), sealing)
            && StoredStep(cfg, Answering(session), Standing(Logged(cfg, st, Appended(terminal)), sealing))
               == Standing(Logged(cfg, Logged(cfg, st, Appended(terminal)), Appended(final)),
                           Process(final, Stopped(Sealed), false))
    ensures final.stage == Terminal && final.terminalOutcome == Some(StatePublicationNotCompleted)
  {
    hide Shape, Enabled, WellFormed, RecordIdentity, Appends, Logged, StoredStep, Continue, Apply, NextAppend;
    var t := CompletePublication(Comparing(session, r.publicationRequest.value, "new").receipt);
    StaleIsEnabled(cfg, session, r);
    AppendsOne(cfg, Answering(session), st, r, t);
    AppendsFacts(cfg, r, t);
    terminal := Appends(cfg, r, t);
    StaleGoesOn(cfg, session, terminal);
    var seal := SealTerminal(StatePublicationNotCompleted, None);
    AppendsOne(cfg, Answering(session), Logged(cfg, st, Appended(terminal)), terminal, seal);
    AppendsFacts(cfg, terminal, seal);
    final := Appends(cfg, terminal, seal);
    assert Continue(cfg, Answering(session), final, false) == Stopped(Sealed) by { FinalStops(cfg, session, final); }
  }

  lemma FinalStops(cfg: Config, session: Digest, r: Record)
    requires Shape(r) && r.stage == Terminal
    ensures Continue(cfg, Answering(session), r, false) == Stopped(Sealed)
  {}

  lemma StaleIsEnabled(cfg: Config, session: Digest, r: Record)
    requires Session(cfg, session) && Ready(cfg, r) && r.stage == PublicationIntent
    requires r.publicationRequest == Some(EffectCapacity.TextOf(session))
    ensures var t := CompletePublication(Comparing(session, r.publicationRequest.value, "new").receipt);
            Enabled(r, t) && WellFormed(t)
  {
    hide RecordIdentity;
    EffectCapacity.TextIsCanonical(session);
  }

  lemma StaleGoesOn(cfg: Config, session: Digest, r: Record)
    requires Session(cfg, session) && Ready(cfg, r) && r.stage == PublicationTerminal
    requires r.publication.Some? && r.publication.value.outcome == StaleExpectedState
    ensures var t := SealTerminal(StatePublicationNotCompleted, None);
            Continue(cfg, Answering(session), r, false) == Appending(t) && Enabled(r, t) && WellFormed(t)
  {
    hide RecordIdentity;
  }

  // ---------------------------------------------------------------- the series

  const NOTHING_FOUND := Checkpoint(false, SubordinateContinues, None)

  /**
    An execution killed inside the append of its publication intent; a restart that reads and
    publishes, and is killed; a power loss; a restart that begins and makes the publication again.
   */
  function LostIntent(session: Digest): seq<Happening> {
    var d := Answering(session);
    [Ran(Execution(d, 4), true), Ran(Recovery(d, NOTHING_FOUND, 2), false), PowerLost,
     Ran(Recovery(d, NOTHING_FOUND, 4), false)]
  }

  lemma IntentIsLost(cfg: Config, session: Digest) returns (st: Storage, r: Record)
    requires Session(cfg, session)
    ensures Valid(cfg) && Applied(cfg, r) && Happens(cfg, Blank("old"), LostIntent(session)[0]) == st
    ensures st.durable == Some(r) && st.disk.head == Some(Appends(cfg, r, Projection(cfg, r)))
    ensures st.disk.canonical == "old"
    ensures |st.heads| == |st.disk.log|
  {
    hide StoredRun, Shape, Enabled, WellFormed, RecordIdentity, Appends, Projection, NextAppend;
    var before;
    r, before := ExecutesToIntent(cfg, session);
    AppliedGoesOn(cfg, session, r);
    ProjectionIntent(cfg, session, r);
    AppendsOne(cfg, Answering(session), before, r, Projection(cfg, r));
    st := Renamed(before, Appends(cfg, r, Projection(cfg, r)));
  }

  lemma PublishedUndurably(cfg: Config, session: Digest, st: Storage, r: Record, n: Record)
    requires Session(cfg, session) && st.disk.canonical == "old" && st.disk.head == Some(n) && st.durable == Some(r)
    requires Ready(cfg, n) && n.stage == PublicationIntent
    requires n.publicationRequest == Some(EffectCapacity.TextOf(session))
    ensures Happens(cfg, st, LostIntent(session)[1])
         == Logged(cfg, Logged(cfg, st, ReadState("old")), PublishedState(EffectCapacity.TextOf(session), true))
  {
    hide StoredStep, Shape, RecordIdentity, Restart, Logged, StoredRun;
    var d := Answering(session);
    RestartObserves(cfg, d, st.disk, n);
    var s := Standing(st, Process(n, Observing, true));
    ObservingReads(cfg, d, st, n);
    var read := Standing(Logged(cfg, st, ReadState("old")), Process(n, Republishing, true));
    RunStep(cfg, d, s, 2);
    RunStep(cfg, d, read, 1);
    assert read.storage.disk.canonical == "old" by { ReadKeepsState(cfg, st); }
    PublishesOnce(cfg, session, read.storage, n, true);
    NoStep(cfg, d, StoredStep(cfg, d, read));
  }

  lemma ReadKeepsState(cfg: Config, st: Storage)
    ensures Logged(cfg, st, ReadState("old")).disk.canonical == st.disk.canonical
  {}

  lemma NoStep(cfg: Config, d: Driver, s: Standing)
    requires Valid(cfg)
    ensures StoredRun(cfg, d, s, 0) == s
  {}

  lemma RestartObserves(cfg: Config, d: Driver, disk: Disk, n: Record)
    requires Valid(cfg) && disk.head == Some(n) && Shape(n) && n.stage == PublicationIntent
    ensures Restart(cfg, d, disk, NOTHING_FOUND) == Process(n, Observing, true)
  {
    hide Shape;
  }

  lemma RestartGoesOn(cfg: Config, session: Digest, disk: Disk, r: Record)
    requires Session(cfg, session) && disk.head == Some(r) && Applied(cfg, r)
    ensures Restart(cfg, Answering(session), disk, NOTHING_FOUND) == Process(r, Appending(Projection(cfg, r)), false)
  {
    hide RecordIdentity, Projection;
    AppliedIsProjected(cfg, session, r);
  }

  lemma AppliedIsProjected(cfg: Config, session: Digest, r: Record)
    requires Session(cfg, session) && Applied(cfg, r)
    ensures Decide(cfg, Answering(session), r) == Appending(Projection(cfg, r))
  {
    hide RecordIdentity, TransactionEvidence;
  }

  lemma PublishedAgain(cfg: Config, session: Digest, st: Storage, r: Record, n: Record)
    returns (terminal: Record, final: Record)
    requires Session(cfg, session) && st.disk.canonical == "new" && st.disk.head == Some(r) && Applied(cfg, r)
    requires n == Appends(cfg, r, Projection(cfg, r))
    ensures final.terminalOutcome == Some(StatePublicationNotCompleted) && terminal.stage == PublicationTerminal
    ensures var intended := Logged(cfg, st, Appended(n));
            var published := Logged(cfg, intended, PublishedState(EffectCapacity.TextOf(session), false));
            Happens(cfg, st, LostIntent(session)[3])
            == Logged(cfg, Logged(cfg, published, Appended(terminal)), Appended(final))
  {
    hide StoredStep, Shape, RecordIdentity, Restart, Logged, Enabled, WellFormed, Projection, Appends, Continue,
      StoredRun,
      Apply, NextAppend;
    var d := Answering(session);
    RestartGoesOn(cfg, session, st.disk, r);
    AppliedGoesOn(cfg, session, r);
    ProjectionIntent(cfg, session, r);
    AppendsOne(cfg, d, st, r, Projection(cfg, r));
    var intended := Logged(cfg, st, Appended(n));
    assert Continue(cfg, d, n, false) == Calling by { IntentIsCalled(cfg, d, n); }
    assert intended.disk.canonical == "new" by { RecordKeepsState(cfg, st, n); }
    PublishesOnce(cfg, session, intended, n, false);
    var published := Logged(cfg, intended, PublishedState(EffectCapacity.TextOf(session), false));
    terminal, final := StaleIsSealed(cfg, session, published, n);
    var completing := CompletePublication(Comparing(session, n.publicationRequest.value, "new").receipt);
    FourSteps(cfg, d, Standing(st, Process(r, Appending(Projection(cfg, r)), false)),
              Standing(intended, Process(n, Calling, false)),
              Standing(published, Process(n, Appending(completing), false)),
              Standing(Logged(cfg, published, Appended(terminal)),
                       Process(terminal, Appending(SealTerminal(StatePublicationNotCompleted, None)), false)),
              Standing(Logged(cfg, Logged(cfg, published, Appended(terminal)), Appended(final)),
                       Process(final, Stopped(Sealed), false)));
    ShapeIsReadable(cfg, st, r);
  }

  lemma ShapeIsReadable(cfg: Config, st: Storage, r: Record)
    requires Applied(cfg, r) && st.disk.head == Some(r)
    ensures Readable(st)
  {
    hide RecordIdentity;
  }

  lemma RecordKeepsState(cfg: Config, st: Storage, n: Record)
    ensures Logged(cfg, st, Appended(n)).disk.canonical == st.disk.canonical
  {}

  lemma IntentIsCalled(cfg: Config, d: Driver, n: Record)
    requires Shape(n) && n.stage == PublicationIntent
    ensures Continue(cfg, d, n, false) == Calling
  {}

  lemma SeriesOfFour(cfg: Config, st: Storage, hs: seq<Happening>)
    requires Valid(cfg) && |hs| == 4
    ensures After(cfg, st, hs)
         == Happens(cfg, Happens(cfg, Happens(cfg, Happens(cfg, st, hs[0]), hs[1]), hs[2]), hs[3])
  {
    hide Happens;
    var st1 := Happens(cfg, st, hs[0]);
    var st2 := Happens(cfg, st1, hs[1]);
    var st3 := Happens(cfg, st2, hs[2]);
    assert hs[1..][1..] == hs[2..] && hs[2..][1..] == hs[3..] && hs[3..][1..] == [];
    assert After(cfg, st, hs) == After(cfg, st1, hs[1..]);
    assert After(cfg, st1, hs[1..]) == After(cfg, st2, hs[2..]);
    assert After(cfg, st2, hs[2..]) == After(cfg, st3, hs[3..]);
    assert After(cfg, st3, hs[3..]) == After(cfg, Happens(cfg, st3, hs[3]), []);
  }

  predicate NothingAhead(hs: seq<Happening>) {
    forall i | 0 <= i < |hs| :: hs[i].Ran? && hs[i].launch.Recovery? ==> hs[i].launch.checkpoint.ahead.None?
  }

  lemma {:induction false} NothingAheadIsHonest(cfg: Config, st: Storage, hs: seq<Happening>)
    requires Valid(cfg) && NothingAhead(hs)
    ensures Honest(cfg, st, hs)
    decreases |hs|
  {
    hide Happens;
    if hs != [] {
      NothingAheadIsHonest(cfg, Happens(cfg, st, hs[0]), hs[1..]);
    }
  }

  function Tail(cfg: Config, request: string, n: Record, terminal: Record, final: Record): seq<Event> {
    [ReadState(cfg.expected), PublishedState(request, true), Appended(n), PublishedState(request, false),
     Appended(terminal), Appended(final)]
  }

  /** What the last three processes leave, event by event. */
  lemma SixEvents(cfg: Config, st1: Storage, st3: Storage, st: Storage, request: string,
                  n: Record, terminal: Record, final: Record)
    requires |st1.heads| == |st1.disk.log|
    requires var st2 := Logged(cfg, Logged(cfg, st1, ReadState(cfg.expected)), PublishedState(request, true));
             st3 == st2.(disk := st2.disk.(head := st2.durable))
    requires st == Logged(cfg, Logged(cfg, Logged(cfg, Logged(cfg, st3, Appended(n)), PublishedState(request, false)),
                                      Appended(terminal)), Appended(final))
    ensures st3.disk.canonical == st.disk.canonical == cfg.resulting(request) && st3.disk.head == st1.durable
    ensures st.disk.log == st1.disk.log + Tail(cfg, request, n, terminal, final)
    ensures st.heads == st1.heads + [st1.durable, st1.durable, st1.durable, Some(n), Some(n), Some(terminal)]
    ensures st.disk.head == st.durable == Some(final)
  {}

  lemma TailIsUnordered(cfg: Config, log: seq<Event>, st: Storage, request: string,
                        n: Record, terminal: Record, final: Record)
    requires st.disk.log == log + Tail(cfg, request, n, terminal, final) && |st.heads| == |st.disk.log|
    requires st.heads[|log| + 1].Some? && st.heads[|log| + 1].value.stage == ApplicationTerminal
    ensures !WriteAhead(st) && !ReadFirst(cfg, st.disk.log)
  {
    assert st.disk.log[|log| + 1] == PublishedState(request, true);
    assert st.disk.log[|log| + 3] == PublishedState(request, false) && st.disk.log[|log| + 2] == Appended(n);
  }

  /** Left alone, the same operation completes. */
  lemma UninterruptedCompletes(cfg: Config, session: Digest)
    requires Session(cfg, session)
    ensures var report := PlainBefore(cfg, Answering(session), "old", []).report;
            report.Report? && report.outcome == Completed
  {
    hide TransactionEvidence;
  }

  /**
    Whatever the hash, the session and the nonce: the lost intent is published twice, the second
    time without a read and before anybody saw that the state had moved, and the attempt is sealed
    as not published although canonical state is the resulting one.
   */
  lemma LostIntentPublishesTwice(sha: Sha256, session: Digest, nonce: Nonce)
    returns (r: Record, n: Record, terminal: Record, final: Record)
    ensures var cfg, hs := Operation(sha, session, nonce), LostIntent(session);
            && Valid(cfg) && Honest(cfg, Blank("old"), hs) && LawfulStores(cfg, hs) && !Cautious(cfg, Blank("old"), hs)
            && var st := After(cfg, Blank("old"), hs);
               var request := EffectCapacity.TextOf(session);
               && |st.disk.log| >= 6 && |st.heads| == |st.disk.log| && n.stage == PublicationIntent
               && r.stage == ApplicationTerminal
               && st.disk.log[|st.disk.log| - 6..] == Tail(cfg, request, n, terminal, final)
               && st.heads[|st.heads| - 5] == Some(r)
               && st.disk.head == st.durable == Some(final)
               && final.terminalOutcome == Some(StatePublicationNotCompleted)
               && st.disk.canonical == cfg.resulting(request) != cfg.expected
               && !WriteAhead(st) && !ReadFirst(cfg, st.disk.log)
    ensures var report := PlainBefore(Operation(sha, session, nonce), Answering(session), "old", []).report;
            report.Report? && report.outcome == Completed
  {
    var cfg, hs, request := Operation(sha, session, nonce), LostIntent(session), EffectCapacity.TextOf(session);
    hide Happens, Honest, After, Shape, RecordIdentity, Appends, Projection, Cautious, WriteAhead, ReadFirst, Logged,
      LawfulStore, Answering, StorageInvariant;
    var st1;
    st1, r := IntentIsLost(cfg, session);
    ProjectionIntent(cfg, session, r);
    n := Appends(cfg, r, Projection(cfg, r));
    PublishedUndurably(cfg, session, st1, r, n);
    LossIs(cfg, Happens(cfg, st1, hs[1]));
    var st3 := Happens(cfg, Happens(cfg, st1, hs[1]), hs[2]);
    LostStands(cfg, st1, st3, request);
    terminal, final := PublishedAgain(cfg, session, st3, r, n);
    SeriesOfFour(cfg, Blank("old"), hs);
    NothingAheadIsHonest(cfg, Blank("old"), hs);
    var st := After(cfg, Blank("old"), hs);
    SixEvents(cfg, st1, st3, st, request, n, terminal, final);
    TailIsUnordered(cfg, st1.disk.log, st, request, n, terminal, final);
    AnswersAreLawful(cfg, session);
    UninterruptedCompletes(cfg, session);
    OrderIsKeptExactly(cfg, "old", hs);
  }

  lemma LostStands(cfg: Config, st1: Storage, st3: Storage, request: string)
    requires var st2 := Logged(cfg, Logged(cfg, st1, ReadState("old")), PublishedState(request, true));
             st3 == st2.(disk := st2.disk.(head := st2.durable))
    ensures st3.disk.canonical == cfg.resulting(request) && st3.disk.head == st1.durable
  {}

  lemma LossIs(cfg: Config, st: Storage)
    requires Valid(cfg)
    ensures Happens(cfg, st, PowerLost) == st.(disk := st.disk.(head := st.durable))
  {}
}
