/**
  All publications of an attempt ask for the same: whatever is killed or lost, the request is
  the projection of the one complete evidence that the attempt ever gathers.
 */
module EffectRequests {
  import opened Wrappers
  import opened EffectJournal
  import opened EffectJournalLaws
  import opened EffectProtocol
  import opened EffectStorage
  import opened EffectSafety

  /** The request that the evidence of a record projects to. */
  function RequestOf(cfg: Config, r: Record): string {
    Projection(cfg, r).request
  }

  predicate Whole(r: Record) {
    BeforeComplete(r) && IsApplicationComplete(r) && AfterComplete(r)
  }

  predicate Asks(cfg: Config, head: Option<Record>) {
    head.Some? && head.value.publicationRequest.Some? ==>
      Whole(head.value) && head.value.publicationRequest == Some(RequestOf(cfg, head.value))
  }

  predicate AskedFor(cfg: Config, log: seq<Event>, durable: Option<Record>) {
    forall i | 0 <= i < |log| ::
      log[i].PublishedState? ==>
        durable.Some? && Whole(durable.value) && log[i].request == RequestOf(cfg, durable.value)
  }

  predicate RequestInvariant(cfg: Config, st: Storage) {
    Asks(cfg, st.disk.head) && Asks(cfg, st.durable) && AskedFor(cfg, st.disk.log, st.durable)
  }

  predicate ProcessAsks(cfg: Config, p: Process) {
    match p.pc
    case Keeping(t) => t.BeginPublication? ==> t == Projection(cfg, p.journal)
    case Appending(t) => t.BeginPublication? ==> t == Projection(cfg, p.journal)
    case _ => true
  }

  // ---------------------------------------------------------------- complete evidence stays

  predicate SameProjection(p: Record, n: Record) {
    p.before == n.before && p.application == n.application && p.after == n.after
  }

  lemma WholeStays(cfg: Config, p: Record, n: Record)
    requires Fitting(cfg, p) && Fitting(cfg, n) && Extends(p, n) && Whole(p)
    ensures Whole(n) && SameProjection(p, n) && RequestOf(cfg, n) == RequestOf(cfg, p)
  {
    hide RecordIdentity, TransactionEvidence;
    WholeIsAll(cfg, p, n);
    assert n.before == p.before && n.after == p.after;
  }

  lemma WholeIsAll(cfg: Config, p: Record, n: Record)
    requires Fitting(cfg, p) && Fitting(cfg, n) && Extends(p, n) && Whole(p)
    ensures |n.before| == |p.before| && |n.after| == |p.after|
  {
    hide RecordIdentity, IdentityShape, CausalShape, StageShape, RetainedTransitionCount;
  }

  lemma AskedForLater(cfg: Config, log: seq<Event>, p: Option<Record>, n: Option<Record>)
    requires AskedFor(cfg, log, p) && ExtendsIfPresent(p, n)
    requires (p.Some? ==> Fitting(cfg, p.value)) && (n.Some? ==> Fitting(cfg, n.value))
    ensures AskedFor(cfg, log, n)
  {
    hide Fitting, Extends, Whole, Projection;
    if p.Some? && Whole(p.value) {
      WholeStays(cfg, p.value, n.value);
    }
  }

  lemma HeadsFit(cfg: Config, st: Storage)
    requires Valid(cfg) && StorageInvariant(cfg, st)
    ensures st.disk.head.Some? ==> Fitting(cfg, st.disk.head.value)
    ensures st.durable.Some? ==> Fitting(cfg, st.durable.value)
  {
    hide Fitting, Follows, Growing, Once, Bounded, Backed, BodiesKept;
  }

  // ---------------------------------------------------------------- one event

  lemma AppliedRequest(cfg: Config, r: Record, t: Transition, n: Record)
    requires Apply(cfg.sha, r, t) == Success(n)
    ensures n.publicationRequest == Draft(r, t).publicationRequest
    ensures t.BeginPublication? ==> SameProjection(r, n) && n.stage == PublicationIntent
    ensures Shape(n)
  {
    hide RecordIdentity, Shape, SuccessorAccepts, May;
    assert n == Next(cfg.sha, r, Draft(r, t));
  }

  lemma IntentIsWhole(r: Record)
    requires Shape(r) && r.stage == PublicationIntent
    ensures Whole(r) && r.publicationRequest.Some?
  {}

  /** The next record of a process asks for what its evidence projects to. */
  lemma NextAsks(cfg: Config, d: Driver, s: Standing, n: Record)
    requires Valid(cfg) && Sound(cfg, s) && NextAppend(cfg, d, s) == Some(n)
    requires Asks(cfg, s.storage.disk.head) && ProcessAsks(cfg, s.process)
    ensures Asks(cfg, Some(n))
  {
    hide StorageInvariant, Apply, NextAppend, Fitting, Whole, Projection, Shape;
    AppendingIs(cfg, d, s, n);
    if s.process.pc.Admitting? {
      AdmissionAsksNothing(cfg);
    } else {
      var r, t := s.process.journal, s.process.pc.next;
      AppliedRequest(cfg, r, t, n);
      HeadsFit(cfg, s.storage);
      NextExtends(cfg, r, t, n);
      if t.BeginPublication? {
        IntentIsWhole(n);
        SameEvidenceAsksTheSame(cfg, r, n);
      } else if n.publicationRequest.Some? {
        WholeStays(cfg, r, n);
      }
    }
  }

  lemma AdmissionAsksNothing(cfg: Config)
    requires Valid(cfg)
    ensures Admission(cfg).publicationRequest.None?
  {
    hide RecordIdentity;
  }

  lemma NextExtends(cfg: Config, r: Record, t: Transition, n: Record)
    requires Valid(cfg) && Fitting(cfg, r) && Apply(cfg.sha, r, t) == Success(n)
    ensures Fitting(cfg, n) && Extends(r, n)
  {
    hide Apply, Fitting, Extends, EffectSafety.Follows;
    AppliedFits(cfg, r, t, n);
    FollowingExtends(cfg, Some(r), n);
  }

  lemma SameEvidenceAsksTheSame(cfg: Config, p: Record, n: Record)
    requires SameProjection(p, n)
    ensures RequestOf(cfg, p) == RequestOf(cfg, n)
  {}

  lemma AppendKeepsRequests(cfg: Config, st: Storage, n: Record)
    requires Valid(cfg) && StorageInvariant(cfg, st) && Appendable(cfg, st, n) && RequestInvariant(cfg, st)
    requires Asks(cfg, Some(n))
    ensures RequestInvariant(cfg, Logged(cfg, st, Appended(n))) && RequestInvariant(cfg, Renamed(st, n))
  {
    hide StorageInvariant, Appendable, Asks, AskedFor, ExtendsIfPresent, Fitting;
    AppendedIsLater(cfg, st, n);
    HeadsFit(cfg, st);
    AppendableFits(cfg, st, n);
    AskedForLater(cfg, st.disk.log, st.durable, Some(n));
    AskedForLater(cfg, st.disk.log, st.durable, st.disk.head);
    RecordIsNoRequest(cfg, st.disk.log, n, Some(n));
    RecordIsNoRequest(cfg, st.disk.log, n, st.disk.head);
  }

  lemma RecordIsNoRequest(cfg: Config, log: seq<Event>, n: Record, durable: Option<Record>)
    requires AskedFor(cfg, log, durable)
    ensures AskedFor(cfg, log + [Appended(n)], durable)
  {
    hide Whole, RequestOf;
  }

  lemma AppendableFits(cfg: Config, st: Storage, n: Record)
    requires Valid(cfg) && Appendable(cfg, st, n)
    ensures Fitting(cfg, n)
  {
    hide Fitting, Follows, RecordKept;
  }

  lemma EventKeepsRequests(cfg: Config, st: Storage, e: Event)
    requires RequestInvariant(cfg, st) && !e.Appended?
    requires e.PublishedState? ==>
               st.durable.Some? && Whole(st.durable.value) && e.request == RequestOf(cfg, st.durable.value)
    ensures RequestInvariant(cfg, Logged(cfg, st, e))
  {
    hide Whole, RequestOf;
  }

  /** The durable head under a publication intent has the same complete evidence. */
  lemma DurableIsWhole(cfg: Config, st: Storage, r: Record)
    requires Valid(cfg) && StorageInvariant(cfg, st) && st.disk.head == Some(r) && r.stage == PublicationIntent
    ensures st.durable.Some? && Whole(st.durable.value) && SameProjection(st.durable.value, r)
  {
    hide Growing, Once, Bounded, Backed, BodiesKept, IdentityShape, CausalShape, RetainedTransitionCount,
      RecordIdentity;
  }

  // ---------------------------------------------------------------- one action

  lemma CallAsks(cfg: Config, d: Driver, canonical: string, p: Process)
    requires Valid(cfg) && p.journal.stage == PublicationIntent && (p.pc.Calling? || p.pc.Republishing?)
    ensures var move := Advance(cfg, d, canonical, p);
            |move.events| == 1 && move.events[0].PublishedState?
            && move.events[0].request == OrEmpty(p.journal.publicationRequest)
  {}

  lemma AnsweredAsks(cfg: Config, d: Driver, canonical: string, p: Process)
    requires Valid(cfg) && !p.pc.Admitting? && !p.pc.Appending? && ProcessAsks(cfg, p)
    ensures ProcessAsks(cfg, Advance(cfg, d, canonical, p).next)
  {
    hide Projection;
  }

  lemma CallingKeepsRequests(cfg: Config, d: Driver, s: Standing)
    requires Valid(cfg) && Sound(cfg, s) && RequestInvariant(cfg, s.storage) && ProcessAsks(cfg, s.process)
    requires s.process.pc.Calling? || s.process.pc.Republishing?
    ensures RequestInvariant(cfg, StoredStep(cfg, d, s).storage) && ProcessAsks(cfg, StoredStep(cfg, d, s).process)
  {
    hide Advance, RecordIdentity, Shape, StorageInvariant, Performing, Slot, IntentIs, RequestInvariant, Whole,
      RequestOf,
      ProcessAsks, Projection;
    HeadFits(cfg, s.storage);
    var e, next := CallMoves(cfg, d, s.storage.disk.canonical, s.process);
    AnsweredAsks(cfg, d, s.storage.disk.canonical, s.process);
    if e.PublishedState? {
      CallAsks(cfg, d, s.storage.disk.canonical, s.process);
      PublicationAsks(cfg, s.storage, s.process.journal);
    }
    EventKeepsRequests(cfg, s.storage, e) by { CallIsNoAppend(e); }
    StepLogs(cfg, d, s, e, next);
  }

  lemma CallIsNoAppend(e: Event)
    requires Performing(e) || e.PublishedState?
    ensures !e.Appended?
  {}

  lemma PublicationAsks(cfg: Config, st: Storage, r: Record)
    requires Valid(cfg) && StorageInvariant(cfg, st) && RequestInvariant(cfg, st)
    requires st.disk.head == Some(r) && r.stage == PublicationIntent && Shape(r)
    ensures st.durable.Some? && Whole(st.durable.value)
    ensures OrEmpty(r.publicationRequest) == RequestOf(cfg, st.durable.value)
  {
    hide StorageInvariant, Whole, RequestOf, Shape, AskedFor;
    IntentIsWhole(r);
    DurableIsWhole(cfg, st, r);
    SameEvidenceAsksTheSame(cfg, st.durable.value, r);
  }

  lemma QuietKeepsRequests(cfg: Config, d: Driver, s: Standing)
    requires Valid(cfg) && Sound(cfg, s) && RequestInvariant(cfg, s.storage) && ProcessAsks(cfg, s.process)
    requires s.process.pc.Resuming? || s.process.pc.Observing? || s.process.pc.Keeping?
    ensures RequestInvariant(cfg, StoredStep(cfg, d, s).storage) && ProcessAsks(cfg, StoredStep(cfg, d, s).process)
  {
    hide Advance, StorageInvariant, ProcessInvariant, RequestInvariant, ProcessAsks, Whole, RequestOf;
    var e, next := QuietMoves(cfg, d, s);
    AnsweredAsks(cfg, d, s.storage.disk.canonical, s.process);
    EventKeepsRequests(cfg, s.storage, e);
    StepLogs(cfg, d, s, e, next);
  }

  lemma ContinuationAsks(cfg: Config, d: Driver, r: Record, reconciling: bool)
    requires Shape(r)
    ensures ProcessAsks(cfg, Process(r, Continue(cfg, d, r, reconciling), reconciling))
  {
    hide Shape, Continue, Projection;
    ContinuationKinds(cfg, d, r, reconciling);
    DecisionAsks(cfg, d, r, reconciling);
  }

  lemma DecisionAsks(cfg: Config, d: Driver, r: Record, reconciling: bool)
    ensures ProcessAsks(cfg, Process(r, Decide(cfg, d, r), reconciling))
  {}

  lemma AppendingKeepsRequests(cfg: Config, d: Driver, s: Standing, n: Record)
    requires Valid(cfg) && Sound(cfg, s) && RequestInvariant(cfg, s.storage) && ProcessAsks(cfg, s.process)
    requires NextAppend(cfg, d, s) == Some(n)
    ensures RequestInvariant(cfg, StoredStep(cfg, d, s).storage) && ProcessAsks(cfg, StoredStep(cfg, d, s).process)
  {
    hide StorageInvariant, Appendable, ProcessInvariant, Shape, Advance, Continue, Asks, AskedFor, ProcessAsks;
    NextIsAppendable(cfg, d, s, n);
    AppendedShape(cfg, s.storage, n);
    NextAsks(cfg, d, s, n);
    AppendKeepsRequests(cfg, s.storage, n);
    var reconciling := AppendGoesOn(cfg, d, s, n);
    StepLogs(cfg, d, s, Appended(n), Process(n, Continue(cfg, d, n, reconciling), reconciling));
    ContinuationAsks(cfg, d, n, reconciling);
  }

  lemma StepKeepsRequests(cfg: Config, d: Driver, s: Standing)
    requires Valid(cfg) && Sound(cfg, s) && RequestInvariant(cfg, s.storage) && ProcessAsks(cfg, s.process)
    ensures RequestInvariant(cfg, StoredStep(cfg, d, s).storage) && ProcessAsks(cfg, StoredStep(cfg, d, s).process)
  {
    hide StorageInvariant, ProcessInvariant, Apply, StoredStep, NextAppend, RequestInvariant, Projection;
    var pc := s.process.pc;
    if pc.Stopped? || (pc.Appending? && Apply(cfg.sha, s.process.journal, pc.next).Failure?) {
      SilentStep(cfg, d, s);
    } else if pc.Admitting? || pc.Appending? {
      AppendsNext(cfg, d, s);
      AppendingKeepsRequests(cfg, d, s, NextAppend(cfg, d, s).value);
    } else if pc.Calling? || pc.Republishing? {
      CallingKeepsRequests(cfg, d, s);
    } else {
      QuietKeepsRequests(cfg, d, s);
    }
  }

  lemma {:induction false} RunKeepsRequests(cfg: Config, d: Driver, s: Standing, n: nat)
    requires Valid(cfg) && Sound(cfg, s) && RequestInvariant(cfg, s.storage) && ProcessAsks(cfg, s.process)
    ensures var end := StoredRun(cfg, d, s, n);
            Sound(cfg, end) && RequestInvariant(cfg, end.storage) && ProcessAsks(cfg, end.process)
    decreases n
  {
    hide StoredStep, Sound, RequestInvariant, ProcessAsks;
    if n > 0 && !s.process.pc.Stopped? {
      StepKeepsInvariant(cfg, d, s);
      StepKeepsRequests(cfg, d, s);
      RunKeepsRequests(cfg, d, StoredStep(cfg, d, s), n - 1);
    }
  }

  lemma KillKeepsRequests(cfg: Config, d: Driver, s: Standing, renamed: bool)
    requires Valid(cfg) && Sound(cfg, s) && RequestInvariant(cfg, s.storage) && ProcessAsks(cfg, s.process)
    ensures RequestInvariant(cfg, Killed(cfg, d, s, renamed).storage)
  {
    hide StorageInvariant, ProcessInvariant, NextAppend, Appendable, Renamed, Asks, AskedFor, ProcessAsks;
    if renamed && !s.process.pc.Stopped? && NextAppend(cfg, d, s).Some? {
      NextIsAppendable(cfg, d, s, NextAppend(cfg, d, s).value);
      NextAsks(cfg, d, s, NextAppend(cfg, d, s).value);
      AppendKeepsRequests(cfg, s.storage, NextAppend(cfg, d, s).value);
    }
  }

  lemma LaunchAsks(cfg: Config, st: Storage, l: Launch)
    requires Valid(cfg) && Readable(st)
    ensures ProcessAsks(cfg, Launched(cfg, st.disk, l))
  {
    hide Shape, Decide, Classify, LastSucceeded, Definite, AcceptableReceipt, Admission, Projection, SealOutcome;
    if l.Recovery? && st.disk.head.Some? {
      DecisionAsks(cfg, l.driver, st.disk.head.value, Assess(st.disk.head.value) == ReconcilePublication);
    }
  }

  // ---------------------------------------------------------------- whole series

  lemma HappeningKeepsRequests(cfg: Config, st: Storage, h: Happening)
    requires Valid(cfg) && StorageInvariant(cfg, st) && RequestInvariant(cfg, st) && Rehydrated(cfg, st, h)
    ensures RequestInvariant(cfg, Happens(cfg, st, h))
  {
    hide StorageInvariant, ProcessInvariant, StoredRun, Killed, Launched, Rehydrated, Shape, RequestOf, Whole,
      ProcessAsks;
    match h
    case Ran(l, renamed) =>
      if Readable(st) {
        LaunchFits(cfg, st, h);
        LaunchAsks(cfg, st, l);
        var s := Standing(st, Launched(cfg, st.disk, l));
        RunKeepsRequests(cfg, l.driver, s, l.cut);
        KillKeepsRequests(cfg, l.driver, StoredRun(cfg, l.driver, s, l.cut), renamed);
      }
    case Flushed =>
      FlushKeepsRequests(cfg, st);
    case PowerLost =>
  }

  lemma FlushKeepsRequests(cfg: Config, st: Storage)
    requires Valid(cfg) && StorageInvariant(cfg, st) && RequestInvariant(cfg, st)
    ensures RequestInvariant(cfg, st.(durable := st.disk.head))
  {
    hide StorageInvariant, Whole, RequestOf, ExtendsIfPresent, Fitting;
    LiveIsLater(cfg, st);
    HeadsFit(cfg, st);
    AskedForLater(cfg, st.disk.log, st.durable, st.disk.head);
  }

  lemma {:induction false} SeriesKeepsRequests(cfg: Config, st: Storage, hs: seq<Happening>)
    requires Valid(cfg) && StorageInvariant(cfg, st) && RequestInvariant(cfg, st) && Honest(cfg, st, hs)
    ensures RequestInvariant(cfg, After(cfg, st, hs))
    decreases |hs|
  {
    hide StorageInvariant, RequestInvariant, Happens, Rehydrated;
    if hs != [] {
      HappeningKeepsInvariant(cfg, st, hs[0]);
      HappeningKeepsRequests(cfg, st, hs[0]);
      SeriesKeepsRequests(cfg, Happens(cfg, st, hs[0]), hs[1..]);
    }
  }

  /** Over every series, all publications carry one request: what the durable evidence projects to. */
  lemma PublicationsAskTheSame(cfg: Config, canonical: string, hs: seq<Happening>, i: nat, j: nat)
    requires Valid(cfg) && Honest(cfg, Blank(canonical), hs)
    requires var log := After(cfg, Blank(canonical), hs).disk.log;
             i < j < |log| && log[i].PublishedState? && log[j].PublishedState?
    ensures var st := After(cfg, Blank(canonical), hs);
            && st.disk.log[i].request == st.disk.log[j].request
            && st.durable.Some? && st.disk.log[i].request == RequestOf(cfg, st.durable.value)
  {
    hide Honest, After, Asks, RequestOf, Whole;
    BlankIsSound(cfg, canonical);
    assert RequestInvariant(cfg, Blank(canonical)) by { BlankAsksNothing(cfg, canonical); }
    SeriesKeepsRequests(cfg, Blank(canonical), hs);
  }

  lemma BlankAsksNothing(cfg: Config, canonical: string)
    ensures RequestInvariant(cfg, Blank(canonical))
  {}
}
