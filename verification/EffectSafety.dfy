/**
  Safety of one attempt over every series of durable executions, restarts, kills and power
  losses, a kill between the rename of the journal's head and its last sync included: which
  head is durable when an effect happens, at-most-once effects, one chain of durable heads.
 */
module EffectSafety {
  import opened Wrappers
  import opened EffectJournal
  import opened EffectJournalLaws
  import opened EffectProtocol
  import opened EffectStorage

  /** One process: how it was started, its driver, and after how many actions it was killed. */
  datatype Launch = Execution(driver: Driver, cut: nat)
                  | Recovery(driver: Driver, checkpoint: Checkpoint, cut: nat)

  function Launched(cfg: Config, disk: Disk, l: Launch): Process
    requires Valid(cfg) && (disk.head.Some? ==> Shape(disk.head.value))
  {
    match l
    case Execution(_, _) => Fresh(cfg, disk)
    case Recovery(d, c, _) => Restart(cfg, d, disk, c)
  }

  /**
    A process runs until it is killed, between two actions or inside the append that is next;
    the live head becomes durable, by a write-back or because somebody appends it again; or a
    power loss leaves the durable head.
   */
  datatype Happening = Ran(launch: Launch, renamed: bool) | Flushed | PowerLost

  predicate Readable(st: Storage) {
    st.disk.head.Some? ==> Shape(st.disk.head.value)
  }

  function Happens(cfg: Config, st: Storage, h: Happening): Storage
    requires Valid(cfg)
  {
    match h
    case Ran(l, renamed) =>
      if !Readable(st) then st
      else EndOf(cfg, l.driver, Standing(st, Launched(cfg, st.disk, l)), l.cut, renamed).storage
    case Flushed => st.(durable := st.disk.head)
    case PowerLost => st.(disk := st.disk.(head := st.durable))
  }

  function After(cfg: Config, st: Storage, hs: seq<Happening>): Storage
    requires Valid(cfg)
    decreases |hs|
  {
    if hs == [] then st else After(cfg, Happens(cfg, st, hs[0]), hs[1..])
  }

  /** Nothing has happened to the attempt yet. */
  function Blank(canonical: string): Storage {
    Storage(Disk(None, canonical, []), None, [])
  }

  // ---------------------------------------------------------------- what the log says

  predicate Kept(log: seq<Event>, body: Body) {
    Retained(body) in log
  }

  predicate FactsKept(log: seq<Event>, facts: seq<LifecycleFact>) {
    forall i | 0 <= i < |facts| :: Kept(log, LifecycleBody(facts[i]))
  }

  /** Every fact that a record names has its body in the log. */
  predicate RecordKept(log: seq<Event>, r: Record) {
    && FactsKept(log, r.before) && FactsKept(log, r.after)
    && (r.application.Some? ==> Kept(log, ApplicationBody(r.application.value)))
    && (r.publicationRequest.Some? ==> Kept(log, RequestBody(r.publicationRequest.value)))
    && (r.publication.Some? && r.publicationRequest.Some? ==>
          Kept(log, ReceiptBody(PublicationReceipt(r.publicationRequest.value, r.publication.value))))
  }

  /** An effect that must not be performed twice. */
  predicate Performing(e: Event) {
    e.Executed? || e.AppliedApplication?
  }

  /** The journal sequence at which a driver call is due. */
  function Slot(cfg: Config, e: Event): nat {
    match e
    case Executed(BeforeSide, index) => 2 * index + 1
    case Executed(AfterSide, index) => 2 * cfg.beforeTotal + 2 * index + 3
    case AppliedApplication => 2 * cfg.beforeTotal + 1
    case _ => 2 * cfg.beforeTotal + 2 * cfg.afterTotal + 3
  }

  /** The head is the intent of exactly this driver call. */
  predicate IntentIs(head: Option<Record>, e: Event) {
    match e
    case Executed(side, index) =>
      && head.Some? && head.value.activeIndex == Some(index)
      && head.value.stage == (if side == BeforeSide then BeforeIntent else AfterIntent)
    case AppliedApplication => head.Some? && head.value.stage == ApplicationIntent
    case ResumedApplication => head.Some? && head.value.stage == ApplicationIntent
    case PublishedState(request, _) =>
      head.Some? && head.value.stage == PublicationIntent && head.value.publicationRequest == Some(request)
    case _ => true
  }

  // ---------------------------------------------------------------- the invariant of the storage

  predicate Fitting(cfg: Config, r: Record) {
    ShapeValid(cfg.sha, r) && r.beforeTotal == cfg.beforeTotal && r.afterTotal == cfg.afterTotal
  }

  predicate Follows(cfg: Config, p: Option<Record>, n: Record)
    requires Valid(cfg)
  {
    && (n.stage == Terminal ==> n.terminalOutcome.Some?)
    && if p.None? then n == Admission(cfg) else SuccessorAccepts(p.value, n)
  }

  /** Both heads are records of the attempt, and the live one is durable or follows the durable one. */
  predicate HeadsRight(cfg: Config, h: HeadPair)
    requires Valid(cfg)
  {
    && (h.live.Some? ==> Fitting(cfg, h.live.value)) && (h.durable.Some? ==> Fitting(cfg, h.durable.value))
    && (h.live == h.durable || (h.live.Some? && Follows(cfg, h.durable, h.live.value)))
  }

  predicate ExtendsIfPresent(p: Option<Record>, n: Option<Record>) {
    p.Some? ==> n.Some? && Extends(p.value, n.value)
  }

  /** No durable head lost evidence that an earlier one had. */
  predicate Growing(st: Storage) {
    && (forall i | 0 <= i < |st.heads| :: ExtendsIfPresent(st.heads[i], st.durable))
    && (forall i, j | 0 <= i < j < |st.heads| :: ExtendsIfPresent(st.heads[i], st.heads[j]))
  }

  predicate Once(log: seq<Event>) {
    forall i, j | 0 <= i < j < |log| :: log[i] == log[j] ==> !Performing(log[i])
  }

  /** What was performed is accounted for by the durable head. */
  predicate Bounded(cfg: Config, log: seq<Event>, durable: Option<Record>) {
    forall i | 0 <= i < |log| ::
      Performing(log[i]) ==> durable.Some? && Slot(cfg, log[i]) <= durable.value.sequence
  }

  predicate Backed(st: Storage) {
    && |st.heads| == |st.disk.log|
    && forall i | 0 <= i < |st.disk.log| :: Performing(st.disk.log[i]) ==> IntentIs(st.heads[i], st.disk.log[i])
  }

  predicate HeadKept(log: seq<Event>, head: Option<Record>) {
    head.Some? ==> RecordKept(log, head.value)
  }

  predicate AppendKept(log: seq<Event>, i: nat)
    requires i < |log|
  {
    log[i].Appended? ==> RecordKept(log[..i], log[i].record)
  }

  predicate BodiesKept(cfg: Config, st: Storage) {
    cfg.keepBodies ==>
      && HeadKept(st.disk.log, st.disk.head) && HeadKept(st.disk.log, st.durable)
      && forall i | 0 <= i < |st.disk.log| :: AppendKept(st.disk.log, i)
  }

  predicate StorageInvariant(cfg: Config, st: Storage)
    requires Valid(cfg)
  {
    && HeadsRight(cfg, PairOf(st)) && Growing(st) && Once(st.disk.log) && Bounded(cfg, st.disk.log, st.durable)
    && Backed(st) && BodiesKept(cfg, st)
  }

  /** Where a process may stand: it calls the driver only on an intent that its own append made durable. */
  predicate ProcessInvariant(cfg: Config, st: Storage, p: Process)
    requires Valid(cfg)
  {
    var r := p.journal;
    match p.pc
    case Stopped(_) => true
    case Admitting => r == Admission(cfg) && (st.disk.head.None? || st.disk.head.value == r)
    case Calling =>
      && st.disk.head == st.durable == Some(r) && IsIntent(r.stage)
      && forall i | 0 <= i < |st.disk.log| :: Performing(st.disk.log[i]) ==> Slot(cfg, st.disk.log[i]) < r.sequence
    case Resuming => st.disk.head == Some(r) && r.stage == ApplicationIntent
    case Observing => st.disk.head == Some(r) && (r.stage == PublicationIntent || r.stage == PublicationTerminal)
    case Republishing => st.disk.head == Some(r) && r.stage == PublicationIntent
    case Keeping(t) => st.disk.head == Some(r) && BodyOf(t).Some?
    case Appending(t) =>
      st.disk.head == Some(r) && (cfg.keepBodies && BodyOf(t).Some? ==> Kept(st.disk.log, BodyOf(t).value))
  }

  predicate Sound(cfg: Config, s: Standing)
    requires Valid(cfg)
  {
    StorageInvariant(cfg, s.storage) && ProcessInvariant(cfg, s.storage, s.process)
  }

  // ---------------------------------------------------------------- one event

  lemma KeptStays(log: seq<Event>, e: Event, r: Record)
    requires RecordKept(log, r)
    ensures RecordKept(log + [e], r)
  {}

  lemma BodiesStay(cfg: Config, st: Storage, e: Event)
    requires cfg.keepBodies ==> BodiesKept(cfg, st) && (e.Appended? ==> RecordKept(st.disk.log, e.record))
    ensures cfg.keepBodies ==>
              && HeadKept(st.disk.log + [e], st.disk.head) && HeadKept(st.disk.log + [e], st.durable)
              && (e.Appended? ==> RecordKept(st.disk.log + [e], e.record))
              && forall i | 0 <= i <= |st.disk.log| :: AppendKept(st.disk.log + [e], i)
  {
    hide RecordKept;
    if cfg.keepBodies {
      var longer := st.disk.log + [e];
      if st.disk.head.Some? {
        KeptStays(st.disk.log, e, st.disk.head.value);
      }
      if st.durable.Some? {
        KeptStays(st.disk.log, e, st.durable.value);
      }
      if e.Appended? {
        KeptStays(st.disk.log, e, e.record);
      }
      forall i | 0 <= i < |longer|
        ensures AppendKept(longer, i)
      {
        assert longer[..i] == if i < |st.disk.log| then st.disk.log[..i] else st.disk.log;
        assert i < |st.disk.log| ==> AppendKept(st.disk.log, i);
      }
    }
  }

  lemma ExtendsTransitive(a: Option<Record>, b: Option<Record>, c: Option<Record>)
    requires ExtendsIfPresent(a, b) && ExtendsIfPresent(b, c)
    ensures ExtendsIfPresent(a, c)
  {}

  lemma ExtendsItself(a: Option<Record>)
    ensures ExtendsIfPresent(a, a)
  {}

  lemma FollowingExtends(cfg: Config, p: Option<Record>, n: Record)
    requires Valid(cfg) && Fitting(cfg, n) && Follows(cfg, p, n)
    ensures ExtendsIfPresent(p, Some(n))
  {
    hide SuccessorAccepts, Extends, RecordIdentity, Shape;
    if p.Some? {
      StepExtends(p.value, n);
    }
  }

  /** The durable head goes on to a record that extends it, with or without an event. */
  lemma GrowsOn(st: Storage, next: Storage)
    requires Growing(st) && ExtendsIfPresent(st.durable, next.durable)
    requires next.heads == st.heads || next.heads == st.heads + [st.durable]
    ensures Growing(next)
  {
    hide ExtendsIfPresent;
    forall i | 0 <= i < |next.heads|
      ensures ExtendsIfPresent(next.heads[i], next.durable)
    {
      if i < |st.heads| {
        ExtendsTransitive(st.heads[i], st.durable, next.durable);
      }
    }
  }

  /** An event that is no record, performed at most on its own durable intent. */
  lemma EventKeeps(cfg: Config, st: Storage, e: Event)
    requires Valid(cfg) && StorageInvariant(cfg, st) && !e.Appended?
    requires Performing(e) ==>
               && e !in st.disk.log && IntentIs(st.durable, e)
               && st.durable.Some? && Slot(cfg, e) <= st.durable.value.sequence
    ensures StorageInvariant(cfg, Logged(cfg, st, e))
  {
    hide HeadsRight, Extends, IntentIs, Slot, HeadKept, AppendKept;
    ExtendsItself(st.durable);
    GrowsOn(st, Logged(cfg, st, e));
    BodiesStay(cfg, st, e);
  }

  /** A record that may be appended to the live head. */
  predicate Appendable(cfg: Config, st: Storage, n: Record)
    requires Valid(cfg)
  {
    && Fitting(cfg, n) && (st.disk.head == Some(n) || Follows(cfg, st.disk.head, n))
    && (cfg.keepBodies ==> RecordKept(st.disk.log, n))
  }

  lemma FollowingIsLater(cfg: Config, p: Option<Record>, n: Record)
    requires Valid(cfg) && Follows(cfg, p, n) && p.Some?
    ensures p.value.sequence < n.sequence
  {
    hide SuccessorStage;
  }

  /** Whatever is appended accounts for all that was performed. */
  lemma AppendedIsLater(cfg: Config, st: Storage, n: Record)
    requires Valid(cfg) && StorageInvariant(cfg, st) && Appendable(cfg, st, n)
    ensures ExtendsIfPresent(st.durable, st.disk.head) && ExtendsIfPresent(st.disk.head, Some(n))
    ensures ExtendsIfPresent(st.durable, Some(n)) && Bounded(cfg, st.disk.log, Some(n))
    ensures Bounded(cfg, st.disk.log, st.disk.head)
    ensures st.disk.head != Some(n) ==>
              forall i | 0 <= i < |st.disk.log| :: Performing(st.disk.log[i]) ==> Slot(cfg, st.disk.log[i]) < n.sequence
  {
    hide SuccessorAccepts, Extends, Follows, Fitting, Growing, Once, Backed, BodiesKept, Slot, Performing;
    ExtendsItself(st.durable);
    ExtendsItself(Some(n));
    if st.disk.head != Some(n) {
      FollowingExtends(cfg, st.disk.head, n);
      if st.disk.head.Some? {
        FollowingIsLater(cfg, st.disk.head, n);
      }
    }
    if st.disk.head != st.durable {
      FollowingExtends(cfg, st.durable, st.disk.head.value);
      if st.durable.Some? {
        FollowingIsLater(cfg, st.durable, st.disk.head.value);
      }
    }
    ExtendsTransitive(st.durable, st.disk.head, Some(n));
  }

  lemma AppendKeeps(cfg: Config, st: Storage, n: Record)
    requires Valid(cfg) && StorageInvariant(cfg, st) && Appendable(cfg, st, n)
    ensures StorageInvariant(cfg, Logged(cfg, st, Appended(n)))
  {
    hide Fitting, Follows, RecordKept, IntentIs, Slot, HeadKept, AppendKept, ExtendsIfPresent;
    AppendedIsLater(cfg, st, n);
    GrowsOn(st, Logged(cfg, st, Appended(n)));
    BodiesStay(cfg, st, Appended(n));
    if cfg.keepBodies {
      HeadIsKept(st.disk.log + [Appended(n)], n);
    }
  }

  lemma HeadIsKept(log: seq<Event>, n: Record)
    requires RecordKept(log, n)
    ensures HeadKept(log, Some(n))
  {}

  /** A kill inside the append: the earlier head is durable, the record is live. */
  lemma RenameKeeps(cfg: Config, st: Storage, n: Record)
    requires Valid(cfg) && StorageInvariant(cfg, st) && Appendable(cfg, st, n)
    ensures StorageInvariant(cfg, Renamed(st, n))
  {
    hide Fitting, Follows, RecordKept, IntentIs, Slot, HeadKept, AppendKept, ExtendsIfPresent;
    if st.disk.head != Some(n) {
      AppendedIsLater(cfg, st, n);
      GrowsOn(st, Renamed(st, n));
      BodiesStay(cfg, st, Appended(n));
      if cfg.keepBodies {
        HeadIsKept(st.disk.log + [Appended(n)], n);
      }
    }
  }

  lemma FlushKeeps(cfg: Config, st: Storage)
    requires Valid(cfg) && StorageInvariant(cfg, st)
    ensures StorageInvariant(cfg, st.(durable := st.disk.head))
  {
    hide Fitting, Follows, RecordKept, IntentIs, Slot, HeadKept, AppendKept, ExtendsIfPresent;
    LiveIsLater(cfg, st);
    GrowsOn(st, st.(durable := st.disk.head));
  }

  lemma LiveIsLater(cfg: Config, st: Storage)
    requires Valid(cfg) && StorageInvariant(cfg, st)
    ensures ExtendsIfPresent(st.durable, st.disk.head) && Bounded(cfg, st.disk.log, st.disk.head)
  {
    hide SuccessorAccepts, Extends, Follows, Fitting, Growing, Once, Backed, BodiesKept, Slot, Performing;
    ExtendsItself(st.durable);
    if st.disk.head != st.durable {
      FollowingExtends(cfg, st.durable, st.disk.head.value);
      if st.durable.Some? {
        FollowingIsLater(cfg, st.durable, st.disk.head.value);
      }
    }
  }

  lemma LossKeeps(cfg: Config, st: Storage)
    requires Valid(cfg) && StorageInvariant(cfg, st)
    ensures StorageInvariant(cfg, st.(disk := st.disk.(head := st.durable)))
  {
    hide Fitting, Follows, RecordKept, IntentIs, Slot, HeadKept, AppendKept, ExtendsIfPresent;
    assert Growing(st.(disk := st.disk.(head := st.durable)));
  }

  // ---------------------------------------------------------------- one action

  /** The sequence numbers at which the driver is called. */
  lemma IntentSlots(r: Record)
    requires Shape(r)
    ensures r.stage == BeforeIntent ==> r.sequence == 2 * |r.before| + 1 && r.activeIndex == Some(|r.before|)
    ensures r.stage == ApplicationIntent ==> r.sequence == 2 * r.beforeTotal + 1
    ensures r.stage == AfterIntent ==>
              r.sequence == 2 * r.beforeTotal + 2 * |r.after| + 3 && r.activeIndex == Some(|r.after|)
    ensures r.stage == PublicationIntent ==>
              r.sequence == 2 * r.beforeTotal + 2 * r.afterTotal + 3 && r.publicationRequest.Some?
    ensures r.stage == PublicationTerminal ==> r.publicationRequest.Some?
  {}

  lemma StepLogs(cfg: Config, d: Driver, s: Standing, e: Event, next: Process)
    requires Valid(cfg) && Advance(cfg, d, s.storage.disk.canonical, s.process) == Move([e], next)
    ensures StoredStep(cfg, d, s) == Standing(Logged(cfg, s.storage, e), next)
  {
    hide Advance;
    LoggedOne(cfg, s.storage, e);
  }

  /** A process that has had its answer stops, or delivers it. */
  predicate Answered(cfg: Config, p: Process, next: Process) {
    next.journal == p.journal && next.reconciling == p.reconciling
    && (next.pc.Stopped? || (next.pc.Keeping? && BodyOf(next.pc.kept).Some?)
        || (next.pc.Appending? && !cfg.keepBodies))
  }

  /** The one event of a driver call, and that it is due at the journal's own sequence. */
  lemma CallMoves(cfg: Config, d: Driver, canonical: string, p: Process) returns (e: Event, next: Process)
    requires Valid(cfg) && Shape(p.journal) && p.journal.beforeTotal == cfg.beforeTotal
    requires p.journal.afterTotal == cfg.afterTotal
    requires (p.pc.Calling? && IsIntent(p.journal.stage))
          || (p.pc.Republishing? && p.journal.stage == PublicationIntent)
    ensures Advance(cfg, d, canonical, p) == Move([e], next) && Answered(cfg, p, next)
    ensures Slot(cfg, e) == p.journal.sequence && IntentIs(Some(p.journal), e)
    ensures (Performing(e) || e.PublishedState?) && (e.PublishedState? <==> p.journal.stage == PublicationIntent)
    ensures e.PublishedState? ==> e.moved == d.publish(e.request, canonical).moved
  {
    IntentSlots(p.journal);
    hide Shape, Apply, Continue, RecordIdentity;
    var move := Advance(cfg, d, canonical, p);
    e, next := move.events[0], move.next;
    assert move.events == [e];
  }

  lemma AnsweredFits(cfg: Config, st: Storage, p: Process, next: Process)
    requires Valid(cfg) && st.disk.head == Some(p.journal) && Answered(cfg, p, next)
    ensures ProcessInvariant(cfg, st, next)
  {}

  lemma HeadFits(cfg: Config, st: Storage)
    requires Valid(cfg) && StorageInvariant(cfg, st) && st.disk.head.Some?
    ensures Fitting(cfg, st.disk.head.value)
  {
    hide Fitting, Follows, RecordKept, IntentIs, Slot;
  }

  lemma NotPerformedYet(cfg: Config, log: seq<Event>, e: Event)
    requires forall i | 0 <= i < |log| :: Performing(log[i]) ==> Slot(cfg, log[i]) < Slot(cfg, e)
    ensures Performing(e) ==> e !in log
  {
    hide Slot;
  }

  lemma CallingStep(cfg: Config, d: Driver, s: Standing)
    requires Valid(cfg) && Sound(cfg, s) && (s.process.pc.Calling? || s.process.pc.Republishing?)
    ensures Sound(cfg, StoredStep(cfg, d, s))
  {
    HeadFits(cfg, s.storage);
    hide Advance, RecordIdentity, Shape, StorageInvariant, Performing, Slot, IntentIs;
    var e, next := CallMoves(cfg, d, s.storage.disk.canonical, s.process);
    if s.process.pc.Calling? {
      NotPerformedYet(cfg, s.storage.disk.log, e);
    } else {
      assert !Performing(e) by { PublicationIsNotPerforming(e); }
    }
    EventKeeps(cfg, s.storage, e);
    AnsweredFits(cfg, Logged(cfg, s.storage, e), s.process, next);
    StepLogs(cfg, d, s, e, next);
  }

  lemma PublicationIsNotPerforming(e: Event)
    requires e.PublishedState? || e.ReadState? || e.Retained? || e.ResumedApplication?
    ensures !Performing(e) && !e.Appended?
  {}

  lemma QuietStep(cfg: Config, d: Driver, s: Standing)
    requires Valid(cfg) && Sound(cfg, s)
    requires s.process.pc.Resuming? || s.process.pc.Observing? || s.process.pc.Keeping?
    ensures Sound(cfg, StoredStep(cfg, d, s))
  {
    var e, next := QuietMoves(cfg, d, s);
    hide Advance, StorageInvariant, Performing;
    PublicationIsNotPerforming(e);
    EventKeeps(cfg, s.storage, e);
    StepLogs(cfg, d, s, e, next);
  }

  lemma QuietMoves(cfg: Config, d: Driver, s: Standing) returns (e: Event, next: Process)
    requires Valid(cfg) && ProcessInvariant(cfg, s.storage, s.process)
    requires s.process.pc.Resuming? || s.process.pc.Observing? || s.process.pc.Keeping?
    ensures Advance(cfg, d, s.storage.disk.canonical, s.process) == Move([e], next)
    ensures e.ReadState? || e.Retained? || e.ResumedApplication?
    ensures ProcessInvariant(cfg, Logged(cfg, s.storage, e), next)
  {
    hide Apply, Continue, RecordIdentity, Shape, Slot;
    var move := Advance(cfg, d, s.storage.disk.canonical, s.process);
    e, next := move.events[0], move.next;
  }

  // ---------------------------------------------------------------- appending

  /** Appending a transition whose body is kept keeps the whole next record. */
  lemma NextIsKept(cfg: Config, log: seq<Event>, r: Record, t: Transition, n: Record)
    requires RecordKept(log, r) && Apply(cfg.sha, r, t) == Success(n)
    requires BodyOf(t).Some? ==> Kept(log, BodyOf(t).value)
    ensures RecordKept(log, n)
  {
    hide RecordIdentity, ShapeValid, SuccessorAccepts;
    assert n == Next(cfg.sha, r, Draft(r, t));
  }

  lemma AppliedFits(cfg: Config, r: Record, t: Transition, n: Record)
    requires Valid(cfg) && Fitting(cfg, r) && Apply(cfg.sha, r, t) == Success(n)
    ensures Fitting(cfg, n) && Follows(cfg, Some(r), n)
  {
    hide RecordIdentity, SuccessorStage, IdentityShape, CausalShape, StageShape, RetainedTransitionCount;
  }

  lemma AdmissionFits(cfg: Config, log: seq<Event>)
    requires Valid(cfg)
    ensures Fitting(cfg, Admission(cfg)) && RecordKept(log, Admission(cfg)) && Follows(cfg, None, Admission(cfg))
  {
    hide RecordIdentity;
  }

  /** What a process is about to append may be appended to the live head. */
  lemma NextIsAppendable(cfg: Config, d: Driver, s: Standing, n: Record)
    requires Valid(cfg) && Sound(cfg, s) && NextAppend(cfg, d, s) == Some(n)
    ensures Appendable(cfg, s.storage, n)
    ensures Advance(cfg, d, s.storage.disk.canonical, s.process).events == [Appended(n)]
    ensures s.storage.disk.head == Some(n) ==> n == Admission(cfg)
  {
    hide Apply, Continue, RecordIdentity, Fitting, Follows, RecordKept, StorageInvariant, Call, Admission;
    if s.storage.disk.head.Some? {
      HeadFits(cfg, s.storage);
    }
    AdmissionFits(cfg, s.storage.disk.log);
    AppendingIs(cfg, d, s, n);
    if s.process.pc.Appending? {
      AppliedFits(cfg, s.process.journal, s.process.pc.next, n);
      FollowingIsLater(cfg, s.storage.disk.head, n);
      if cfg.keepBodies {
        HeadRecordKept(cfg, s.storage);
        NextIsKept(cfg, s.storage.disk.log, s.process.journal, s.process.pc.next, n);
      }
    }
  }

  lemma HeadRecordKept(cfg: Config, st: Storage)
    requires Valid(cfg) && StorageInvariant(cfg, st) && st.disk.head.Some? && cfg.keepBodies
    ensures RecordKept(st.disk.log, st.disk.head.value)
  {
    hide Fitting, Follows, RecordKept, IntentIs, Slot;
  }

  /** Only two kinds of standing append. */
  lemma AppendingIs(cfg: Config, d: Driver, s: Standing, n: Record)
    requires Valid(cfg) && NextAppend(cfg, d, s) == Some(n)
    ensures Advance(cfg, d, s.storage.disk.canonical, s.process).events == [Appended(n)]
    ensures (s.process.pc.Admitting? && n == Admission(cfg))
            || (s.process.pc.Appending? && Apply(cfg.sha, s.process.journal, s.process.pc.next) == Success(n))
  {
    hide Apply, Continue, RecordIdentity, Admission;
  }

  /** The ways in which a process goes on from a record. */
  lemma ContinuationKinds(cfg: Config, d: Driver, r: Record, reconciling: bool)
    requires Shape(r)
    ensures var pc := Continue(cfg, d, r, reconciling);
            || pc == Decide(cfg, d, r) || pc.Stopped? || (pc.Calling? && IsIntent(r.stage))
            || (pc.Appending? && pc.next.SealTerminal?)
  {
    hide Shape, Decide, LastSucceeded, Classify, PublicationResult;
  }

  lemma DecisionFits(cfg: Config, d: Driver, st: Storage, r: Record, reconciling: bool)
    requires Valid(cfg) && st.disk.head == Some(r)
    ensures ProcessInvariant(cfg, st, Process(r, Decide(cfg, d, r), reconciling))
  {}

  lemma StoppedFits(cfg: Config, st: Storage, p: Process)
    requires Valid(cfg) && p.pc.Stopped?
    ensures ProcessInvariant(cfg, st, p)
  {}

  lemma AppendingFits(cfg: Config, st: Storage, p: Process)
    requires Valid(cfg) && p.pc.Appending? && st.disk.head == Some(p.journal)
    requires cfg.keepBodies && BodyOf(p.pc.next).Some? ==> Kept(st.disk.log, BodyOf(p.pc.next).value)
    ensures ProcessInvariant(cfg, st, p)
  {}

  lemma CallingFits(cfg: Config, st: Storage, p: Process)
    requires Valid(cfg) && p.pc.Calling? && st.disk.head == st.durable == Some(p.journal) && IsIntent(p.journal.stage)
    requires forall i | 0 <= i < |st.disk.log| ::
               Performing(st.disk.log[i]) ==> Slot(cfg, st.disk.log[i]) < p.journal.sequence
    ensures ProcessInvariant(cfg, st, p)
  {}

  /** After its append, the process stands at the durable head with nothing performed beyond it. */
  lemma ContinuesAtHead(cfg: Config, d: Driver, st: Storage, r: Record, reconciling: bool)
    requires Valid(cfg) && Shape(r) && st.disk.head == st.durable == Some(r)
    requires IsIntent(r.stage) ==>
               forall i | 0 <= i < |st.disk.log| ::
                     Performing(st.disk.log[i]) ==> Slot(cfg, st.disk.log[i]) < r.sequence
    ensures ProcessInvariant(cfg, st, Process(r, Continue(cfg, d, r, reconciling), reconciling))
  {
    hide Shape, Decide, Continue, ProcessInvariant, Kept, Slot, Performing;
    var p := Process(r, Continue(cfg, d, r, reconciling), reconciling);
    ContinuationKinds(cfg, d, r, reconciling);
    DecisionFits(cfg, d, st, r, reconciling);
    if p.pc.Stopped? {
      StoppedFits(cfg, st, p);
    } else if p.pc.Calling? && IsIntent(r.stage) {
      CallingFits(cfg, st, p);
    } else if p.pc.Appending? && p.pc.next.SealTerminal? {
      AppendingFits(cfg, st, p);
    }
  }

  lemma AppendingStep(cfg: Config, d: Driver, s: Standing, n: Record)
    requires Valid(cfg) && Sound(cfg, s) && NextAppend(cfg, d, s) == Some(n)
    ensures Sound(cfg, StoredStep(cfg, d, s))
  {
    NextIsAppendable(cfg, d, s, n);
    AppendedIsLater(cfg, s.storage, n);
    AppendKeeps(cfg, s.storage, n);
    AppendedShape(cfg, s.storage, n);
    hide StorageInvariant, Appendable, Fitting, Follows, RecordKept, Slot, Performing, ProcessInvariant, Shape,
      Advance, Continue;
    var reconciling := AppendGoesOn(cfg, d, s, n);
    StepLogs(cfg, d, s, Appended(n), Process(n, Continue(cfg, d, n, reconciling), reconciling));
    if s.storage.disk.head != Some(n) {
      LogAfterAppend(cfg, s.storage, n);
    }
    ContinuesAtHead(cfg, d, Logged(cfg, s.storage, Appended(n)), n, reconciling);
  }

  lemma AppendGoesOn(cfg: Config, d: Driver, s: Standing, n: Record) returns (reconciling: bool)
    requires Valid(cfg) && NextAppend(cfg, d, s) == Some(n) && Shape(n)
    ensures Advance(cfg, d, s.storage.disk.canonical, s.process)
         == Move([Appended(n)], Process(n, Continue(cfg, d, n, reconciling), reconciling))
  {
    hide Apply, Continue, RecordIdentity, Admission, Shape;
    AppendingIs(cfg, d, s, n);
    reconciling := if s.process.pc.Admitting? then false else s.process.reconciling;
  }

  lemma AppendedShape(cfg: Config, st: Storage, n: Record)
    requires Valid(cfg) && Appendable(cfg, st, n)
    ensures Shape(n) && (n == Admission(cfg) ==> !IsIntent(n.stage))
  {
    hide RecordIdentity, Shape, Follows, RecordKept;
  }

  /** The new event of an append is nothing that was performed. */
  lemma LogAfterAppend(cfg: Config, st: Storage, n: Record)
    requires forall i | 0 <= i < |st.disk.log| :: Performing(st.disk.log[i]) ==> Slot(cfg, st.disk.log[i]) < n.sequence
    ensures var log := Logged(cfg, st, Appended(n)).disk.log;
            forall i | 0 <= i < |log| :: Performing(log[i]) ==> Slot(cfg, log[i]) < n.sequence
  {
    hide Slot;
  }

  lemma SilentStep(cfg: Config, d: Driver, s: Standing)
    requires Valid(cfg) && Sound(cfg, s)
    requires s.process.pc.Stopped?
          || (s.process.pc.Appending? && Apply(cfg.sha, s.process.journal, s.process.pc.next).Failure?)
    ensures StoredStep(cfg, d, s).storage == s.storage && StoredStep(cfg, d, s).process.pc.Stopped?
  {
    hide Apply, Continue, StorageInvariant, ProcessInvariant;
    assert Advance(cfg, d, s.storage.disk.canonical, s.process).events == [];
  }

  lemma AppendsNext(cfg: Config, d: Driver, s: Standing)
    requires Valid(cfg) && Sound(cfg, s)
    requires s.process.pc.Admitting?
          || (s.process.pc.Appending? && Apply(cfg.sha, s.process.journal, s.process.pc.next).Success?)
    ensures NextAppend(cfg, d, s).Some?
  {
    hide Apply, Continue, StorageInvariant, ProcessInvariant, Admission;
    if s.process.pc.Appending? {
      AppliedHasShape(cfg, s.process.journal, s.process.pc.next);
    }
  }

  lemma AppliedHasShape(cfg: Config, r: Record, t: Transition)
    requires Apply(cfg.sha, r, t).Success?
    ensures Shape(Apply(cfg.sha, r, t).value)
  {
    hide RecordIdentity, Shape, SuccessorAccepts;
  }

  lemma StepKeepsInvariant(cfg: Config, d: Driver, s: Standing)
    requires Valid(cfg) && Sound(cfg, s)
    ensures Sound(cfg, StoredStep(cfg, d, s))
  {
    hide StorageInvariant, ProcessInvariant, Apply, StoredStep, NextAppend;
    var pc := s.process.pc;
    if pc.Stopped? || (pc.Appending? && Apply(cfg.sha, s.process.journal, pc.next).Failure?) {
      SilentStep(cfg, d, s);
      StoppedFits(cfg, s.storage, StoredStep(cfg, d, s).process);
    } else if pc.Admitting? || pc.Appending? {
      AppendsNext(cfg, d, s);
      AppendingStep(cfg, d, s, NextAppend(cfg, d, s).value);
    } else if pc.Calling? || pc.Republishing? {
      CallingStep(cfg, d, s);
    } else {
      QuietStep(cfg, d, s);
    }
  }

  lemma {:induction false} RunKeepsInvariant(cfg: Config, d: Driver, s: Standing, n: nat)
    requires Valid(cfg) && Sound(cfg, s)
    ensures Sound(cfg, StoredRun(cfg, d, s, n))
    decreases n
  {
    hide StoredStep, Sound;
    if n > 0 && !s.process.pc.Stopped? {
      StepKeepsInvariant(cfg, d, s);
      RunKeepsInvariant(cfg, d, StoredStep(cfg, d, s), n - 1);
    }
  }

  /** A kill keeps the storage invariant, also inside an append. */
  lemma KillKeepsInvariant(cfg: Config, d: Driver, s: Standing, renamed: bool)
    requires Valid(cfg) && Sound(cfg, s)
    ensures StorageInvariant(cfg, Killed(cfg, d, s, renamed).storage)
  {
    hide StorageInvariant, ProcessInvariant, NextAppend, Appendable, Renamed;
    if renamed && !s.process.pc.Stopped? && NextAppend(cfg, d, s).Some? {
      NextIsAppendable(cfg, d, s, NextAppend(cfg, d, s).value);
      RenameKeeps(cfg, s.storage, NextAppend(cfg, d, s).value);
    }
  }

  // ---------------------------------------------------------------- how processes start

  /** A receipt that is ahead of the journal was found among the retained bodies. */
  predicate Rehydrated(cfg: Config, st: Storage, h: Happening) {
    cfg.keepBodies && h.Ran? && h.launch.Recovery? && h.launch.checkpoint.ahead.Some? ==>
      Kept(st.disk.log, ApplicationBody(h.launch.checkpoint.ahead.value))
  }

  lemma FreshFits(cfg: Config, st: Storage)
    requires Valid(cfg)
    ensures ProcessInvariant(cfg, st, Fresh(cfg, st.disk))
  {
    hide Admission;
  }

  lemma AssessmentTellsStage(r: Record)
    requires Shape(r)
    ensures Assess(r) == EffectProtocol.ResumeApplication ==> r.stage == ApplicationIntent
    ensures Assess(r) == ReconcilePublication ==> r.stage == PublicationIntent || r.stage == PublicationTerminal
  {
    hide Shape, Classify, LastSucceeded, Definite;
  }

  lemma InspectionFits(cfg: Config, st: Storage, p: Process)
    requires Valid(cfg) && st.disk.head == Some(p.journal)
    requires (p.pc.Resuming? && p.journal.stage == ApplicationIntent)
          || (p.pc.Observing? && (p.journal.stage == PublicationIntent || p.journal.stage == PublicationTerminal))
    ensures ProcessInvariant(cfg, st, p)
  {}

  lemma RestartFits(cfg: Config, st: Storage, r: Record, d: Driver, c: Checkpoint)
    requires Valid(cfg) && st.disk.head == Some(r) && Shape(r)
    requires cfg.keepBodies && c.ahead.Some? ==> Kept(st.disk.log, ApplicationBody(c.ahead.value))
    ensures ProcessInvariant(cfg, st, Restart(cfg, d, st.disk, c))
  {
    hide Decide, Shape, Kept, Assess, SealOutcome, Admission, CheckpointFits, ProcessInvariant;
    DecisionFits(cfg, d, st, r, Assess(r) == ReconcilePublication);
    AssessmentTellsStage(r);
    var p := Restart(cfg, d, st.disk, c);
    if p.pc.Stopped? {
      StoppedFits(cfg, st, p);
    } else if Assess(r) == SealNow {
      AppendingFits(cfg, st, p);
    } else if Assess(r) == ReconcilePublication {
      InspectionFits(cfg, st, p);
    } else if Assess(r) == EffectProtocol.ResumeApplication {
      if p.pc.Appending? {
        AppendingFits(cfg, st, p);
      } else {
        InspectionFits(cfg, st, p);
      }
    }
  }

  lemma NoHeadRestartStops(cfg: Config, disk: Disk, d: Driver, c: Checkpoint)
    requires Valid(cfg) && disk.head.None?
    ensures Restart(cfg, d, disk, c).pc.Stopped?
  {}

  lemma LaunchFits(cfg: Config, st: Storage, h: Happening)
    requires Valid(cfg) && h.Ran? && Readable(st) && Rehydrated(cfg, st, h)
    ensures ProcessInvariant(cfg, st, Launched(cfg, st.disk, h.launch))
  {
    hide Restart, Fresh, ProcessInvariant, Kept, Shape;
    match h.launch
    case Execution(_, _) => FreshFits(cfg, st);
    case Recovery(d, c, _) =>
      if st.disk.head.Some? {
        RestartFits(cfg, st, st.disk.head.value, d, c);
      } else {
        NoHeadRestartStops(cfg, st.disk, d, c);
        StoppedFits(cfg, st, Restart(cfg, d, st.disk, c));
      }
  }

  // ---------------------------------------------------------------- whole series

  /** Every process of the series was started with what was really found. */
  predicate Honest(cfg: Config, st: Storage, hs: seq<Happening>)
    requires Valid(cfg)
    decreases |hs|
  {
    hs != [] ==> Rehydrated(cfg, st, hs[0]) && Honest(cfg, Happens(cfg, st, hs[0]), hs[1..])
  }

  lemma HappeningKeepsInvariant(cfg: Config, st: Storage, h: Happening)
    requires Valid(cfg) && StorageInvariant(cfg, st) && Rehydrated(cfg, st, h)
    ensures StorageInvariant(cfg, Happens(cfg, st, h))
  {
    hide StorageInvariant, ProcessInvariant, StoredRun, Killed, Launched, Rehydrated, Shape;
    match h
    case Ran(l, renamed) =>
      if Readable(st) {
        LaunchFits(cfg, st, h);
        var s := Standing(st, Launched(cfg, st.disk, l));
        RunKeepsInvariant(cfg, l.driver, s, l.cut);
        KillKeepsInvariant(cfg, l.driver, StoredRun(cfg, l.driver, s, l.cut), renamed);
      }
    case Flushed => FlushKeeps(cfg, st);
    case PowerLost => LossKeeps(cfg, st);
  }

  lemma {:induction false} SeriesKeepsInvariant(cfg: Config, st: Storage, hs: seq<Happening>)
    requires Valid(cfg) && StorageInvariant(cfg, st) && Honest(cfg, st, hs)
    ensures StorageInvariant(cfg, After(cfg, st, hs))
    decreases |hs|
  {
    hide StorageInvariant, Happens, Rehydrated;
    if hs != [] {
      HappeningKeepsInvariant(cfg, st, hs[0]);
      SeriesKeepsInvariant(cfg, Happens(cfg, st, hs[0]), hs[1..]);
    }
  }

  lemma BlankIsSound(cfg: Config, canonical: string)
    requires Valid(cfg)
    ensures StorageInvariant(cfg, Blank(canonical))
  {}

  // ---------------------------------------------------------------- what no series does

  /** No lifecycle session and no application is ever performed twice, whatever is killed or lost. */
  lemma EffectsHappenAtMostOnce(cfg: Config, canonical: string, hs: seq<Happening>, i: nat, j: nat)
    requires Valid(cfg) && Honest(cfg, Blank(canonical), hs)
    requires var log := After(cfg, Blank(canonical), hs).disk.log; i < j < |log| && log[i] == log[j]
    ensures !Performing(After(cfg, Blank(canonical), hs).disk.log[i])
  {
    hide Honest, After, HeadsRight, Growing, Bounded, Backed, BodiesKept, Performing;
    BlankIsSound(cfg, canonical);
    SeriesKeepsInvariant(cfg, Blank(canonical), hs);
  }

  /** When a lifecycle session or the application is performed, the intent for exactly that call is durable. */
  lemma IntentPrecedesEffect(cfg: Config, canonical: string, hs: seq<Happening>, i: nat)
    requires Valid(cfg) && Honest(cfg, Blank(canonical), hs)
    requires var log := After(cfg, Blank(canonical), hs).disk.log; i < |log| && Performing(log[i])
    ensures var st := After(cfg, Blank(canonical), hs);
            |st.heads| == |st.disk.log| && IntentIs(st.heads[i], st.disk.log[i])
  {
    hide Honest, After, HeadsRight, Growing, Bounded, Once, BodiesKept, Performing, IntentIs;
    BlankIsSound(cfg, canonical);
    SeriesKeepsInvariant(cfg, Blank(canonical), hs);
  }

  /** With a body sink, a record is appended only after every body that it names, durable or not. */
  lemma BodiesPrecedeRecords(cfg: Config, canonical: string, hs: seq<Happening>, i: nat)
    requires Valid(cfg) && Honest(cfg, Blank(canonical), hs) && cfg.keepBodies
    requires var log := After(cfg, Blank(canonical), hs).disk.log; i < |log| && log[i].Appended?
    ensures var log := After(cfg, Blank(canonical), hs).disk.log; RecordKept(log[..i], log[i].record)
  {
    hide Honest, After, HeadsRight, Growing, Bounded, Once, Backed, RecordKept, HeadKept;
    BlankIsSound(cfg, canonical);
    SeriesKeepsInvariant(cfg, Blank(canonical), hs);
    var log := After(cfg, Blank(canonical), hs).disk.log;
    assert AppendKept(log, i);
  }

  /** The head that is durable at a later event has the evidence of the one that was durable at an earlier one. */
  lemma HeadsRetainEvidence(cfg: Config, canonical: string, hs: seq<Happening>, i: nat, j: nat)
    requires Valid(cfg) && Honest(cfg, Blank(canonical), hs)
    requires i < j < |After(cfg, Blank(canonical), hs).heads|
    ensures var st := After(cfg, Blank(canonical), hs);
            ExtendsIfPresent(st.heads[i], st.heads[j]) && ExtendsIfPresent(st.heads[j], st.durable)
  {
    hide Honest, After, HeadsRight, Backed, Bounded, Once, BodiesKept, ExtendsIfPresent;
    BlankIsSound(cfg, canonical);
    SeriesKeepsInvariant(cfg, Blank(canonical), hs);
  }

  // ---------------------------------------------------------------- one chain

  /** The record ends a chain from the admission of the attempt. */
  ghost predicate Reached(cfg: Config, r: Record) {
    exists chain: seq<Record> ::
      IsHistory(cfg.sha, cfg.session, cfg.beforeTotal, cfg.afterTotal, cfg.nonce, chain) && chain[|chain| - 1] == r
  }

  ghost predicate BothReached(cfg: Config, st: Storage) {
    (st.disk.head.Some? ==> Reached(cfg, st.disk.head.value)) && (st.durable.Some? ==> Reached(cfg, st.durable.value))
  }

  lemma ReachedGoesOn(cfg: Config, p: Option<Record>, n: Record)
    requires Valid(cfg) && Fitting(cfg, n) && Follows(cfg, p, n) && (p.Some? ==> Reached(cfg, p.value))
    ensures Reached(cfg, n)
  {
    hide ShapeValid, SuccessorAccepts, Admit;
    if p.None? {
      AdmissionIs(cfg);
      assert IsHistory(cfg.sha, cfg.session, cfg.beforeTotal, cfg.afterTotal, cfg.nonce, [n]);
      assert [n][|[n]| - 1] == n;
    } else {
      var chain: seq<Record> :|
        IsHistory(cfg.sha, cfg.session, cfg.beforeTotal, cfg.afterTotal, cfg.nonce, chain)
        && chain[|chain| - 1] == p.value;
      var longer := chain + [n];
      forall i | 0 < i < |longer|
        ensures Advances(cfg.sha, longer[i - 1], longer[i])
      {
        assert longer[i - 1] == chain[i - 1];
        assert i < |chain| ==> Advances(cfg.sha, chain[i - 1], chain[i]);
      }
      assert longer[|longer| - 1] == n;
    }
  }

  lemma AdmissionIs(cfg: Config)
    requires Valid(cfg)
    ensures Admit(cfg.sha, cfg.session, cfg.beforeTotal, cfg.afterTotal, cfg.nonce) == Success(Admission(cfg))
  {
    AdmitIff(cfg.sha, cfg.session, cfg.beforeTotal, cfg.afterTotal, cfg.nonce);
  }

  lemma AppendableIsReached(cfg: Config, st: Storage, n: Record)
    requires Valid(cfg) && Appendable(cfg, st, n) && BothReached(cfg, st)
    ensures Reached(cfg, n)
  {
    hide Fitting, Follows, Reached, RecordKept;
    if st.disk.head != Some(n) {
      ReachedGoesOn(cfg, st.disk.head, n);
    }
  }

  /** An action either appends the next record or leaves the heads alone. */
  lemma StepMovesHeads(cfg: Config, d: Driver, s: Standing)
    requires Valid(cfg) && Sound(cfg, s)
    ensures PairOf(StoredStep(cfg, d, s).storage)
         == Moved(PairOf(s.storage),
                  if NextAppend(cfg, d, s).Some? then Complete(NextAppend(cfg, d, s).value) else Stay)
  {
    hide StorageInvariant, Apply, Continue;
    var move := Advance(cfg, d, s.storage.disk.canonical, s.process);
    if |move.events| == 1 {
      assert move.events == [move.events[0]];
      StepLogs(cfg, d, s, move.events[0], move.next);
      LoggedMoves(cfg, s.storage, move.events[0]);
    } else {
      EventsAreFew(cfg, d, s);
    }
  }

  lemma EventsAreFew(cfg: Config, d: Driver, s: Standing)
    requires Valid(cfg) && |Advance(cfg, d, s.storage.disk.canonical, s.process).events| != 1
    ensures Advance(cfg, d, s.storage.disk.canonical, s.process).events == []
  {
    hide Apply, Continue, Admission;
  }

  lemma {:induction false} RunReaches(cfg: Config, d: Driver, s: Standing, n: nat)
    requires Valid(cfg) && Sound(cfg, s) && BothReached(cfg, s.storage)
    ensures BothReached(cfg, StoredRun(cfg, d, s, n).storage)
    decreases n
  {
    hide StoredStep, StorageInvariant, ProcessInvariant, Reached, NextAppend, Appendable;
    if n > 0 && !s.process.pc.Stopped? {
      StepKeepsInvariant(cfg, d, s);
      StepMovesHeads(cfg, d, s);
      if NextAppend(cfg, d, s).Some? {
        NextIsAppendable(cfg, d, s, NextAppend(cfg, d, s).value);
        AppendableIsReached(cfg, s.storage, NextAppend(cfg, d, s).value);
      }
      RunReaches(cfg, d, StoredStep(cfg, d, s), n - 1);
    }
  }

  lemma KillReaches(cfg: Config, d: Driver, s: Standing, renamed: bool)
    requires Valid(cfg) && Sound(cfg, s) && BothReached(cfg, s.storage)
    ensures BothReached(cfg, Killed(cfg, d, s, renamed).storage)
  {
    hide StorageInvariant, ProcessInvariant, NextAppend, Appendable, Reached;
    if renamed && !s.process.pc.Stopped? && NextAppend(cfg, d, s).Some? {
      NextIsAppendable(cfg, d, s, NextAppend(cfg, d, s).value);
      AppendableIsReached(cfg, s.storage, NextAppend(cfg, d, s).value);
    }
  }

  lemma {:induction false} SeriesReaches(cfg: Config, st: Storage, hs: seq<Happening>)
    requires Valid(cfg) && StorageInvariant(cfg, st) && BothReached(cfg, st) && Honest(cfg, st, hs)
    ensures BothReached(cfg, After(cfg, st, hs))
    decreases |hs|
  {
    hide StorageInvariant, ProcessInvariant, StoredRun, Killed, Launched, Rehydrated, Shape, Reached;
    if hs != [] {
      HappeningKeepsInvariant(cfg, st, hs[0]);
      if hs[0].Ran? && Readable(st) {
        LaunchFits(cfg, st, hs[0]);
        var s := Standing(st, Launched(cfg, st.disk, hs[0].launch));
        RunKeepsInvariant(cfg, hs[0].launch.driver, s, hs[0].launch.cut);
        RunReaches(cfg, hs[0].launch.driver, s, hs[0].launch.cut);
        KillReaches(cfg, hs[0].launch.driver, StoredRun(cfg, hs[0].launch.driver, s, hs[0].launch.cut), hs[0].renamed);
      }
      SeriesReaches(cfg, Happens(cfg, st, hs[0]), hs[1..]);
    }
  }

  /**
    After any series both heads end chains from admission, the live head is the durable one or
    its direct successor, and so every law of histories holds of both.
   */
  lemma SeriesWritesOneHistory(cfg: Config, canonical: string, hs: seq<Happening>)
    requires Valid(cfg) && Honest(cfg, Blank(canonical), hs)
    ensures var st := After(cfg, Blank(canonical), hs); BothReached(cfg, st) && HeadsRight(cfg, PairOf(st))
  {
    hide Honest, After, Growing, Backed, Bounded, Once, BodiesKept, HeadsRight, Reached;
    BlankIsSound(cfg, canonical);
    SeriesKeepsInvariant(cfg, Blank(canonical), hs);
    SeriesReaches(cfg, Blank(canonical), hs);
  }

  // ---------------------------------------------------------------- canonical state

  predicate NeverMoved(log: seq<Event>) {
    forall i | 0 <= i < |log| :: log[i].PublishedState? ==> !log[i].moved
  }

  predicate MovedOnce(log: seq<Event>) {
    forall i, j | 0 <= i < j < |log| ::
      log[i].PublishedState? && log[j].PublishedState? ==> !(log[i].moved && log[j].moved)
  }

  /** Compare-and-publish: only the expected state is moved. */
  ghost predicate LawfulStore(cfg: Config, d: Driver) {
    forall request: string, canonical: string :: d.publish(request, canonical).moved ==> canonical == cfg.expected
  }

  /** No publication results in the state that it is based on. */
  ghost predicate Progresses(cfg: Config) {
    forall request: string :: cfg.resulting(request) != cfg.expected
  }

  ghost predicate LawfulStores(cfg: Config, hs: seq<Happening>) {
    forall i | 0 <= i < |hs| :: hs[i].Ran? ==> LawfulStore(cfg, hs[i].launch.driver)
  }

  predicate CanonicalInvariant(cfg: Config, disk: Disk) {
    MovedOnce(disk.log) && (!NeverMoved(disk.log) ==> disk.canonical != cfg.expected)
  }

  lemma EventKeepsCanonical(cfg: Config, disk: Disk, e: Event)
    requires Progresses(cfg) && CanonicalInvariant(cfg, disk)
    requires e.PublishedState? && e.moved ==> disk.canonical == cfg.expected
    ensures CanonicalInvariant(cfg, Emit(cfg, disk, e))
  {
    var log := disk.log + [e];
    forall i, j | 0 <= i < j < |log| && log[i].PublishedState? && log[j].PublishedState?
      ensures !(log[i].moved && log[j].moved)
    {
      assert log[i] == disk.log[i];
    }
  }

  lemma StepPublishesLawfully(cfg: Config, d: Driver, canonical: string, p: Process)
    requires Valid(cfg) && LawfulStore(cfg, d)
    ensures var events := Advance(cfg, d, canonical, p).events;
            |events| <= 1 && (events != [] && events[0].PublishedState? && events[0].moved ==>
                                canonical == cfg.expected)
  {
    hide Apply, Continue, Admission;
  }

  lemma {:induction false} RunKeepsCanonical(cfg: Config, d: Driver, s: Standing, n: nat)
    requires Valid(cfg) && Progresses(cfg) && LawfulStore(cfg, d) && CanonicalInvariant(cfg, s.storage.disk)
    ensures CanonicalInvariant(cfg, StoredRun(cfg, d, s, n).storage.disk)
    decreases n
  {
    hide Advance, CanonicalInvariant, Progresses, LawfulStore;
    if n > 0 && !s.process.pc.Stopped? {
      var events := Advance(cfg, d, s.storage.disk.canonical, s.process).events;
      StepPublishesLawfully(cfg, d, s.storage.disk.canonical, s.process);
      if events != [] {
        assert events == [events[0]];
        LoggedOne(cfg, s.storage, events[0]);
        EventKeepsCanonical(cfg, s.storage.disk, events[0]);
      }
      RunKeepsCanonical(cfg, d, StoredStep(cfg, d, s), n - 1);
    }
  }

  lemma RenameKeepsCanonical(cfg: Config, st: Storage, n: Record)
    requires Progresses(cfg) && CanonicalInvariant(cfg, st.disk)
    ensures CanonicalInvariant(cfg, Renamed(st, n).disk)
  {
    EventKeepsCanonical(cfg, st.disk, Appended(n));
  }

  lemma {:induction false} SeriesKeepsCanonical(cfg: Config, st: Storage, hs: seq<Happening>)
    requires Valid(cfg) && Progresses(cfg) && LawfulStores(cfg, hs) && CanonicalInvariant(cfg, st.disk)
    ensures CanonicalInvariant(cfg, After(cfg, st, hs).disk)
    decreases |hs|
  {
    hide StoredRun, Launched, Shape, NeverMoved, MovedOnce, LawfulStore, Progresses, NextAppend, Renamed;
    if hs != [] {
      if hs[0].Ran? && Readable(st) {
        var l := hs[0].launch;
        RunKeepsCanonical(cfg, l.driver, Standing(st, Launched(cfg, st.disk, l)), l.cut);
        var s := StoredRun(cfg, l.driver, Standing(st, Launched(cfg, st.disk, l)), l.cut);
        if NextAppend(cfg, l.driver, s).Some? {
          RenameKeepsCanonical(cfg, s.storage, NextAppend(cfg, l.driver, s).value);
        }
      }
      SeriesKeepsCanonical(cfg, Happens(cfg, st, hs[0]), hs[1..]);
    }
  }

  /** Canonical state moves at most once, whatever is killed, lost or published again. */
  lemma StateMovesAtMostOnce(cfg: Config, canonical: string, hs: seq<Happening>)
    requires Valid(cfg) && Progresses(cfg) && LawfulStores(cfg, hs)
    ensures MovedOnce(After(cfg, Blank(canonical), hs).disk.log)
  {
    hide After, MovedOnce, LawfulStores, Progresses;
    BlankIsUnmoved(cfg, canonical);
    SeriesKeepsCanonical(cfg, Blank(canonical), hs);
  }

  lemma BlankIsUnmoved(cfg: Config, canonical: string)
    ensures CanonicalInvariant(cfg, Blank(canonical).disk)
  {}
}
