/**
  The order of publications and resumptions over every series.  A restart takes the live head
  as it is and does not append it again, so its call may be made on an intent that a power loss
  takes back: exactly then write-ahead and read-before-republication are lost.
 */
module EffectOrder {
  import opened Wrappers
  import opened EffectJournal
  import opened EffectProtocol
  import opened EffectStorage
  import opened EffectSafety

  /** Every driver call, a resumption or a second publication included, had its intent durable. */
  predicate WriteAhead(st: Storage) {
    |st.heads| == |st.disk.log| && forall i | 0 <= i < |st.disk.log| :: IntentIs(st.heads[i], st.disk.log[i])
  }

  /** A publication that is not the first directly follows a read of the expected state. */
  predicate ReadFirst(cfg: Config, log: seq<Event>) {
    forall i, j | 0 <= i < j < |log| && log[i].PublishedState? && log[j].PublishedState? ::
      log[j - 1] == ReadState(cfg.expected)
  }

  predicate Ordered(cfg: Config, st: Storage) {
    WriteAhead(st) && ReadFirst(cfg, st.disk.log)
  }

  /** A restart at this head would publish again, or resume the application. */
  predicate ActsOnHead(cfg: Config, disk: Disk, d: Driver, c: Checkpoint) {
    && disk.head.Some? && CheckpointFits(disk.head.value, c)
    && var r := disk.head.value;
       || (r.stage == PublicationIntent && disk.canonical == cfg.expected
           && cfg.resulting(OrEmpty(r.publicationRequest)) != cfg.expected)
       || (r.stage == ApplicationIntent && c.declared && c.subordinate == SubordinateContinues
           && d.heldAtEntry && d.held(r.sequence))
  }

  /** It would do so on an intent that is live and not durable. */
  predicate Unsafe(cfg: Config, st: Storage, d: Driver, c: Checkpoint) {
    st.durable != st.disk.head && ActsOnHead(cfg, st.disk, d, c)
  }

  /** How many actions such a restart performs before the call. */
  function Before(st: Storage): nat {
    if st.disk.head.Some? && st.disk.head.value.stage == PublicationIntent then 1 else 0
  }

  /** An unsafe restart that is not killed before its call. */
  predicate ActsUndurably(cfg: Config, st: Storage, h: Happening) {
    && h.Ran? && h.launch.Recovery? && Unsafe(cfg, st, h.launch.driver, h.launch.checkpoint)
    && Before(st) < h.launch.cut
  }

  predicate Cautious(cfg: Config, st: Storage, hs: seq<Happening>)
    requires Valid(cfg)
    decreases |hs|
  {
    hs != [] ==> !ActsUndurably(cfg, st, hs[0]) && Cautious(cfg, Happens(cfg, st, hs[0]), hs[1..])
  }

  // ---------------------------------------------------------------- the invariant

  predicate Unpublished(log: seq<Event>) {
    forall i | 0 <= i < |log| :: !log[i].PublishedState?
  }

  /** The durable head accounts for every publication. */
  predicate Accounted(cfg: Config, log: seq<Event>, durable: Option<Record>) {
    forall i | 0 <= i < |log| ::
      log[i].PublishedState? ==> durable.Some? && Slot(cfg, log[i]) <= durable.value.sequence
  }

  predicate OrderInvariant(cfg: Config, st: Storage) {
    Ordered(cfg, st) && Accounted(cfg, st.disk.log, st.durable)
  }

  predicate JustRead(cfg: Config, log: seq<Event>) {
    log != [] && log[|log| - 1] == ReadState(cfg.expected)
  }

  /** A process that is going to publish or to resume does so on a durable intent. */
  predicate ProcessOrder(cfg: Config, st: Storage, p: Process) {
    match p.pc
    case Calling => p.journal.stage == PublicationIntent ==> Unpublished(st.disk.log)
    case Resuming => st.durable == st.disk.head
    case Observing =>
      (p.journal.stage == PublicationIntent && st.disk.canonical == cfg.expected
       && cfg.resulting(OrEmpty(p.journal.publicationRequest)) != cfg.expected) ==> st.durable == st.disk.head
    case Republishing => st.durable == st.disk.head && JustRead(cfg, st.disk.log)
    case _ => true
  }

  predicate InOrder(cfg: Config, s: Standing) {
    OrderInvariant(cfg, s.storage) && ProcessOrder(cfg, s.storage, s.process)
  }

  // ---------------------------------------------------------------- one event

  lemma EventKeepsOrder(cfg: Config, st: Storage, e: Event)
    requires OrderInvariant(cfg, st) && !e.Appended? && IntentIs(st.durable, e)
    requires e.PublishedState? ==>
               && st.durable.Some? && Slot(cfg, e) <= st.durable.value.sequence
               && (Unpublished(st.disk.log) || JustRead(cfg, st.disk.log))
    ensures OrderInvariant(cfg, Logged(cfg, st, e))
  {
    hide IntentIs, Slot;
    var log := st.disk.log + [e];
    forall i, j | 0 <= i < j < |log| && log[i].PublishedState? && log[j].PublishedState?
      ensures log[j - 1] == ReadState(cfg.expected)
    {
      assert log[i] == st.disk.log[i] && log[j - 1] == st.disk.log[j - 1];
    }
  }

  /** Along the two heads and the record that is appended next, sequence numbers grow. */
  lemma HeadsAreNumbered(cfg: Config, st: Storage, n: Record)
    requires Valid(cfg) && StorageInvariant(cfg, st) && Appendable(cfg, st, n)
    ensures st.durable.Some? ==> st.disk.head.Some? && st.durable.value.sequence <= st.disk.head.value.sequence
    ensures st.disk.head.Some? ==> st.disk.head.value.sequence <= n.sequence
    ensures st.disk.head.Some? && st.disk.head != Some(n) ==> st.disk.head.value.sequence < n.sequence
  {
    LiveIsNumbered(cfg, st);
    hide SuccessorAccepts, StorageInvariant, Follows, Fitting, RecordKept;
    if st.disk.head != Some(n) && st.disk.head.Some? {
      FollowingIsLater(cfg, st.disk.head, n);
    }
  }

  lemma LiveIsNumbered(cfg: Config, st: Storage)
    requires Valid(cfg) && StorageInvariant(cfg, st)
    ensures st.durable.Some? ==> st.disk.head.Some? && st.durable.value.sequence <= st.disk.head.value.sequence
  {
    hide SuccessorAccepts, Follows, Fitting, Growing, Once, Bounded, Backed, BodiesKept;
    if st.disk.head != st.durable && st.durable.Some? {
      FollowingIsLater(cfg, st.durable, st.disk.head.value);
    }
  }

  lemma AccountedByLater(cfg: Config, log: seq<Event>, p: Option<Record>, n: Option<Record>)
    requires Accounted(cfg, log, p) && (p.Some? ==> n.Some? && p.value.sequence <= n.value.sequence)
    ensures Accounted(cfg, log, n)
  {
    hide Slot;
  }

  /** A record is no call: its event leaves the order alone. */
  lemma RecordKeepsOrder(cfg: Config, st: Storage, next: Storage, n: Record)
    requires Ordered(cfg, st) && Accounted(cfg, st.disk.log, next.durable)
    requires next.heads == st.heads + [st.durable] && next.disk.log == st.disk.log + [Appended(n)]
    ensures OrderInvariant(cfg, next)
  {
    hide Slot;
    var log := next.disk.log;
    forall i, j | 0 <= i < j < |log| && log[i].PublishedState? && log[j].PublishedState?
      ensures log[j - 1] == ReadState(cfg.expected)
    {
      assert log[i] == st.disk.log[i] && log[j - 1] == st.disk.log[j - 1];
    }
  }

  lemma AppendKeepsOrder(cfg: Config, st: Storage, n: Record)
    requires Valid(cfg) && StorageInvariant(cfg, st) && Appendable(cfg, st, n) && OrderInvariant(cfg, st)
    ensures OrderInvariant(cfg, Logged(cfg, st, Appended(n))) && OrderInvariant(cfg, Renamed(st, n))
  {
    HeadsAreNumbered(cfg, st, n);
    hide StorageInvariant, Appendable, Ordered, Accounted;
    AccountedByLater(cfg, st.disk.log, st.durable, Some(n));
    AccountedByLater(cfg, st.disk.log, st.durable, st.disk.head);
    RecordKeepsOrder(cfg, st, Logged(cfg, st, Appended(n)), n);
    if st.disk.head != Some(n) {
      RecordKeepsOrder(cfg, st, Renamed(st, n), n);
    }
  }

  // ---------------------------------------------------------------- one action

  lemma CallingKeepsOrder(cfg: Config, d: Driver, s: Standing)
    requires Valid(cfg) && Sound(cfg, s) && InOrder(cfg, s) && (s.process.pc.Calling? || s.process.pc.Republishing?)
    ensures InOrder(cfg, StoredStep(cfg, d, s))
  {
    hide Advance, RecordIdentity, Shape, StorageInvariant, Performing, Slot, IntentIs, OrderInvariant, JustRead,
      Unpublished;
    HeadFits(cfg, s.storage);
    var e, next := CallMoves(cfg, d, s.storage.disk.canonical, s.process);
    EventKeepsOrder(cfg, s.storage, e) by { CallIsNoRecord(e); }
    StepLogs(cfg, d, s, e, next);
  }

  lemma CallIsNoRecord(e: Event)
    requires Performing(e) || e.PublishedState?
    ensures !e.Appended?
  {}

  lemma QuietKeepsOrder(cfg: Config, d: Driver, s: Standing)
    requires Valid(cfg) && Sound(cfg, s) && InOrder(cfg, s)
    requires s.process.pc.Resuming? || s.process.pc.Observing? || s.process.pc.Keeping?
    ensures InOrder(cfg, StoredStep(cfg, d, s))
  {
    var e, next := QuietOrder(cfg, d, s);
    hide Advance, StorageInvariant, OrderInvariant, ProcessInvariant, IntentIs, Slot, ProcessOrder;
    EventKeepsOrder(cfg, s.storage, e);
    StepLogs(cfg, d, s, e, next);
  }

  lemma QuietOrder(cfg: Config, d: Driver, s: Standing) returns (e: Event, next: Process)
    requires Valid(cfg) && ProcessInvariant(cfg, s.storage, s.process) && ProcessOrder(cfg, s.storage, s.process)
    requires s.process.pc.Resuming? || s.process.pc.Observing? || s.process.pc.Keeping?
    ensures Advance(cfg, d, s.storage.disk.canonical, s.process) == Move([e], next)
    ensures !e.Appended? && !e.PublishedState? && IntentIs(s.storage.durable, e)
    ensures ProcessOrder(cfg, Logged(cfg, s.storage, e), next)
  {
    hide Apply, Continue, RecordIdentity, Shape, Slot;
    var move := Advance(cfg, d, s.storage.disk.canonical, s.process);
    e, next := move.events[0], move.next;
  }

  /** A publication intent that is appended is the first one: nothing was published before. */
  lemma FirstIntent(cfg: Config, st: Storage, n: Record)
    requires Valid(cfg) && StorageInvariant(cfg, st) && Appendable(cfg, st, n) && st.disk.head != Some(n)
    requires Accounted(cfg, st.disk.log, st.durable) && n.stage == PublicationIntent
    ensures Unpublished(st.disk.log + [Appended(n)])
  {
    hide StorageInvariant, Appendable, Shape;
    HeadsAreNumbered(cfg, st, n);
    PublicationIsDue(cfg, st, n);
    forall i | 0 <= i < |st.disk.log|
      ensures !st.disk.log[i].PublishedState?
    {
      assert st.disk.log[i].PublishedState? ==> Slot(cfg, st.disk.log[i]) < n.sequence;
    }
  }

  lemma PublicationIsDue(cfg: Config, st: Storage, n: Record)
    requires Valid(cfg) && Appendable(cfg, st, n) && n.stage == PublicationIntent
    ensures n.sequence == 2 * cfg.beforeTotal + 2 * cfg.afterTotal + 3
  {
    hide Shape, RecordIdentity, Follows, RecordKept;
    IntentSlots(n);
  }

  lemma ContinuesInOrder(cfg: Config, d: Driver, st: Storage, r: Record, reconciling: bool)
    requires Shape(r) && (r.stage == PublicationIntent ==> Unpublished(st.disk.log))
    ensures ProcessOrder(cfg, st, Process(r, Continue(cfg, d, r, reconciling), reconciling))
  {
    hide Shape, Continue, Projection, Unpublished;
    ContinuationKinds(cfg, d, r, reconciling);
  }

  lemma AppendingKeepsOrder(cfg: Config, d: Driver, s: Standing, n: Record)
    requires Valid(cfg) && Sound(cfg, s) && InOrder(cfg, s) && NextAppend(cfg, d, s) == Some(n)
    ensures InOrder(cfg, StoredStep(cfg, d, s))
  {
    NextIsAppendable(cfg, d, s, n);
    AppendKeepsOrder(cfg, s.storage, n);
    AppendedShape(cfg, s.storage, n);
    if n.stage == PublicationIntent {
      FirstIntent(cfg, s.storage, n);
    }
    hide StorageInvariant, Appendable, ProcessInvariant, Shape, Advance, Continue, Unpublished, Ordered, Accounted,
      ProcessOrder;
    var reconciling := AppendGoesOn(cfg, d, s, n);
    StepLogs(cfg, d, s, Appended(n), Process(n, Continue(cfg, d, n, reconciling), reconciling));
    ContinuesInOrder(cfg, d, Logged(cfg, s.storage, Appended(n)), n, reconciling);
  }

  lemma StoppedInOrder(cfg: Config, st: Storage, p: Process)
    requires p.pc.Stopped?
    ensures ProcessOrder(cfg, st, p)
  {}

  lemma StepKeepsOrder(cfg: Config, d: Driver, s: Standing)
    requires Valid(cfg) && Sound(cfg, s) && InOrder(cfg, s)
    ensures InOrder(cfg, StoredStep(cfg, d, s))
  {
    hide StorageInvariant, ProcessInvariant, Apply, StoredStep, NextAppend, OrderInvariant, ProcessOrder;
    var pc := s.process.pc;
    if pc.Stopped? || (pc.Appending? && Apply(cfg.sha, s.process.journal, pc.next).Failure?) {
      SilentStep(cfg, d, s);
      StoppedInOrder(cfg, s.storage, StoredStep(cfg, d, s).process);
    } else if pc.Admitting? || pc.Appending? {
      AppendsNext(cfg, d, s);
      AppendingKeepsOrder(cfg, d, s, NextAppend(cfg, d, s).value);
    } else if pc.Calling? || pc.Republishing? {
      CallingKeepsOrder(cfg, d, s);
    } else {
      QuietKeepsOrder(cfg, d, s);
    }
  }

  lemma {:induction false} RunKeepsOrder(cfg: Config, d: Driver, s: Standing, n: nat)
    requires Valid(cfg) && Sound(cfg, s) && InOrder(cfg, s)
    ensures InOrder(cfg, StoredRun(cfg, d, s, n))
    decreases n
  {
    hide StoredStep, Sound, InOrder;
    if n > 0 && !s.process.pc.Stopped? {
      StepKeepsInvariant(cfg, d, s);
      StepKeepsOrder(cfg, d, s);
      RunKeepsOrder(cfg, d, StoredStep(cfg, d, s), n - 1);
    }
  }

  lemma KillKeepsOrder(cfg: Config, d: Driver, s: Standing, renamed: bool)
    requires Valid(cfg) && Sound(cfg, s) && OrderInvariant(cfg, s.storage)
    ensures OrderInvariant(cfg, Killed(cfg, d, s, renamed).storage)
  {
    hide StorageInvariant, ProcessInvariant, NextAppend, Appendable, Renamed, OrderInvariant;
    if renamed && !s.process.pc.Stopped? && NextAppend(cfg, d, s).Some? {
      NextIsAppendable(cfg, d, s, NextAppend(cfg, d, s).value);
      AppendKeepsOrder(cfg, s.storage, NextAppend(cfg, d, s).value);
    }
  }

  // ---------------------------------------------------------------- how processes start

  lemma RestartInOrder(cfg: Config, st: Storage, d: Driver, c: Checkpoint)
    requires Valid(cfg) && Readable(st) && !Unsafe(cfg, st, d, c)
    ensures ProcessOrder(cfg, st, Restart(cfg, d, st.disk, c))
  {
    hide Shape, Classify, LastSucceeded, Definite, AcceptableReceipt, Admission, Projection, SealOutcome;
  }

  lemma LaunchInOrder(cfg: Config, st: Storage, l: Launch)
    requires Valid(cfg) && Readable(st) && (l.Recovery? ==> !Unsafe(cfg, st, l.driver, l.checkpoint))
    ensures ProcessOrder(cfg, st, Launched(cfg, st.disk, l))
  {
    hide Restart, Shape, Admission;
    if l.Recovery? {
      hide ProcessOrder;
      RestartInOrder(cfg, st, l.driver, l.checkpoint);
    }
  }

  /** The restart stands before the call that it is going to make. */
  lemma UnsafeStands(cfg: Config, st: Storage, d: Driver, c: Checkpoint)
    requires Valid(cfg) && Readable(st) && Unsafe(cfg, st, d, c)
    ensures var p, r := Restart(cfg, d, st.disk, c), st.disk.head.value;
            p == (if r.stage == PublicationIntent then Process(r, Observing, true) else Process(r, Resuming, false))
  {
    hide Shape, Classify, LastSucceeded, Definite, AcceptableReceipt, Admission, Projection, SealOutcome;
  }

  lemma ObservingReads(cfg: Config, d: Driver, st: Storage, r: Record)
    requires Valid(cfg) && st.disk.canonical == cfg.expected && r.stage == PublicationIntent
    requires cfg.resulting(OrEmpty(r.publicationRequest)) != cfg.expected
    ensures StoredStep(cfg, d, Standing(st, Process(r, Observing, true)))
         == Standing(Logged(cfg, st, ReadState(cfg.expected)), Process(r, Republishing, true))
  {
    hide LoggedAll, Logged, Apply, Continue;
    LoggedOne(cfg, st, ReadState(cfg.expected));
  }

  /** A restart that is killed before its call has done nothing but read. */
  lemma KilledEarly(cfg: Config, st: Storage, d: Driver, c: Checkpoint, cut: nat, renamed: bool)
    requires Valid(cfg) && Readable(st) && Unsafe(cfg, st, d, c) && cut <= Before(st) && OrderInvariant(cfg, st)
    ensures OrderInvariant(cfg, EndOf(cfg, d, Standing(st, Restart(cfg, d, st.disk, c)), cut, renamed).storage)
  {
    hide OrderInvariant, Shape, Restart, StoredStep, LoggedAll, Renamed, Apply, Continue;
    UnsafeStands(cfg, st, d, c);
    var s := Standing(st, Restart(cfg, d, st.disk, c));
    if cut == 1 {
      ObservingReads(cfg, d, st, st.disk.head.value);
      assert StoredRun(cfg, d, s, 1) == StoredRun(cfg, d, StoredStep(cfg, d, s), 0);
      EventKeepsOrder(cfg, st, ReadState(cfg.expected));
    }
    NoAppendNext(cfg, d, StoredRun(cfg, d, s, cut));
  }

  lemma NoAppendNext(cfg: Config, d: Driver, s: Standing)
    requires Valid(cfg) && (s.process.pc.Resuming? || s.process.pc.Observing? || s.process.pc.Republishing?)
    ensures NextAppend(cfg, d, s).None?
  {
    hide Apply, Continue;
  }

  lemma HappeningKeepsOrder(cfg: Config, st: Storage, h: Happening)
    requires Valid(cfg) && StorageInvariant(cfg, st) && OrderInvariant(cfg, st)
    requires Rehydrated(cfg, st, h) && !ActsUndurably(cfg, st, h)
    ensures OrderInvariant(cfg, Happens(cfg, st, h))
  {
    hide StorageInvariant, OrderInvariant, ProcessInvariant, ProcessOrder, Rehydrated, Shape, Restart, StoredRun,
      Killed;
    match h
    case Ran(l, renamed) =>
      if Readable(st) {
        if l.Recovery? && Unsafe(cfg, st, l.driver, l.checkpoint) {
          KilledEarly(cfg, st, l.driver, l.checkpoint, l.cut, renamed);
        } else {
          LaunchFits(cfg, st, h);
          LaunchInOrder(cfg, st, l);
          RanInOrder(cfg, l.driver, Standing(st, Launched(cfg, st.disk, l)), l.cut, renamed);
        }
      }
    case Flushed =>
      LiveIsNumbered(cfg, st);
      FlushKeepsOrder(cfg, st);
    case PowerLost => LossKeepsOrder(cfg, st);
  }

  lemma RanInOrder(cfg: Config, d: Driver, s: Standing, cut: nat, renamed: bool)
    requires Valid(cfg) && Sound(cfg, s) && InOrder(cfg, s)
    ensures OrderInvariant(cfg, EndOf(cfg, d, s, cut, renamed).storage)
  {
    hide StorageInvariant, OrderInvariant, ProcessInvariant, ProcessOrder, StoredRun, Killed;
    RunKeepsInvariant(cfg, d, s, cut);
    RunKeepsOrder(cfg, d, s, cut);
    KillKeepsOrder(cfg, d, StoredRun(cfg, d, s, cut), renamed);
  }

  lemma FlushKeepsOrder(cfg: Config, st: Storage)
    requires OrderInvariant(cfg, st)
    requires st.durable.Some? ==> st.disk.head.Some? && st.durable.value.sequence <= st.disk.head.value.sequence
    ensures OrderInvariant(cfg, st.(durable := st.disk.head))
  {
    hide IntentIs, Slot;
    AccountedByLater(cfg, st.disk.log, st.durable, st.disk.head);
  }

  lemma LossKeepsOrder(cfg: Config, st: Storage)
    requires OrderInvariant(cfg, st)
    ensures OrderInvariant(cfg, st.(disk := st.disk.(head := st.durable)))
  {
    hide IntentIs, Slot;
  }

  // ---------------------------------------------------------------- an undurable intent is acted on

  predicate GrownFrom(a: Storage, b: Storage) {
    a.disk.log <= b.disk.log && a.heads <= b.heads
  }

  lemma {:induction false} RunGrows(cfg: Config, d: Driver, s: Standing, n: nat)
    requires Valid(cfg)
    ensures GrownFrom(s.storage, StoredRun(cfg, d, s, n).storage)
    decreases n
  {
    hide Advance;
    if n > 0 && !s.process.pc.Stopped? {
      LoggedAllGrows(cfg, s.storage, Advance(cfg, d, s.storage.disk.canonical, s.process).events);
      RunGrows(cfg, d, StoredStep(cfg, d, s), n - 1);
    }
  }

  lemma {:induction false} LoggedAllGrows(cfg: Config, st: Storage, events: seq<Event>)
    ensures GrownFrom(st, LoggedAll(cfg, st, events))
    decreases |events|
  {
    if events != [] {
      LoggedAllGrows(cfg, st, events[..|events| - 1]);
    }
  }

  lemma HappeningGrows(cfg: Config, st: Storage, h: Happening)
    requires Valid(cfg)
    ensures GrownFrom(st, Happens(cfg, st, h))
  {
    hide StoredRun, NextAppend, Shape, Restart, Fresh;
    if h.Ran? && Readable(st) {
      RunGrows(cfg, h.launch.driver, Standing(st, Launched(cfg, st.disk, h.launch)), h.launch.cut);
    }
  }

  lemma {:induction false} SeriesGrows(cfg: Config, st: Storage, hs: seq<Happening>)
    requires Valid(cfg)
    ensures GrownFrom(st, After(cfg, st, hs))
    decreases |hs|
  {
    hide Happens;
    if hs != [] {
      HappeningGrows(cfg, st, hs[0]);
      SeriesGrows(cfg, Happens(cfg, st, hs[0]), hs[1..]);
    }
  }

  /** The call was made on a head that is not its intent. */
  ghost predicate CalledTooEarly(st: Storage) {
    exists i | 0 <= i < |st.disk.log| && i < |st.heads| :: !IntentIs(st.heads[i], st.disk.log[i])
  }

  lemma TooEarlyStays(a: Storage, b: Storage)
    requires CalledTooEarly(a) && GrownFrom(a, b)
    ensures CalledTooEarly(b) && !WriteAhead(b)
  {
    hide IntentIs;
    var i :| 0 <= i < |a.disk.log| && i < |a.heads| && !IntentIs(a.heads[i], a.disk.log[i]);
    assert a.heads[i] == b.heads[i] && a.disk.log[i] == b.disk.log[i];
  }

  /** Before an intent that is not durable, another stage is. */
  lemma UndurableStage(cfg: Config, st: Storage)
    requires Valid(cfg) && StorageInvariant(cfg, st) && st.durable != st.disk.head && st.disk.head.Some?
    requires st.disk.head.value.stage == PublicationIntent || st.disk.head.value.stage == ApplicationIntent
    ensures st.durable.Some? ==> st.durable.value.stage != st.disk.head.value.stage
  {
    hide Fitting, Growing, Once, Bounded, Backed, BodiesKept, SameEvidence;
  }

  lemma CallLogsTooEarly(cfg: Config, d: Driver, st: Storage, r: Record, republishing: bool)
    requires Valid(cfg) && |st.heads| == |st.disk.log| && (st.durable.Some? ==> st.durable.value.stage != r.stage)
    requires r.stage == if republishing then PublicationIntent else ApplicationIntent
    ensures var p := Process(r, if republishing then Republishing else Resuming, republishing);
            CalledTooEarly(StoredStep(cfg, d, Standing(st, p)).storage)
  {
    hide Apply, Continue, LoggedAll;
    var s := Standing(st, Process(r, if republishing then Republishing else Resuming, republishing));
    var move := Advance(cfg, d, st.disk.canonical, s.process);
    assert move.events == [move.events[0]];
    LoggedOne(cfg, st, move.events[0]);
    var next := StoredStep(cfg, d, s).storage;
    assert next.heads[|st.heads|] == st.durable && next.disk.log[|st.heads|] == move.events[0];
  }

  lemma EndsTooEarly(cfg: Config, d: Driver, s: Standing, n: nat, renamed: bool)
    requires Valid(cfg) && CalledTooEarly(s.storage)
    ensures CalledTooEarly(Killed(cfg, d, StoredRun(cfg, d, s, n), renamed).storage)
  {
    hide StoredRun, NextAppend, CalledTooEarly, WriteAhead;
    RunGrows(cfg, d, s, n);
    TooEarlyStays(s.storage, Killed(cfg, d, StoredRun(cfg, d, s, n), renamed).storage);
  }

  lemma ResumesTooEarly(cfg: Config, d: Driver, st: Storage, r: Record, cut: nat, renamed: bool)
    requires Valid(cfg) && |st.heads| == |st.disk.log| && (st.durable.Some? ==> st.durable.value.stage != r.stage)
    requires r.stage == ApplicationIntent && cut > 0
    ensures CalledTooEarly(EndOf(cfg, d, Standing(st, Process(r, Resuming, false)), cut, renamed).storage)
  {
    hide StoredStep, CalledTooEarly, Killed;
    var s := Standing(st, Process(r, Resuming, false));
    CallLogsTooEarly(cfg, d, st, r, false);
    EndsTooEarly(cfg, d, StoredStep(cfg, d, s), cut - 1, renamed);
  }

  lemma PublishesTooEarly(cfg: Config, d: Driver, st: Storage, r: Record, cut: nat, renamed: bool)
    requires Valid(cfg) && |st.heads| == |st.disk.log| && (st.durable.Some? ==> st.durable.value.stage != r.stage)
    requires r.stage == PublicationIntent && cut > 1 && st.disk.canonical == cfg.expected
    requires cfg.resulting(OrEmpty(r.publicationRequest)) != cfg.expected
    ensures CalledTooEarly(EndOf(cfg, d, Standing(st, Process(r, Observing, true)), cut, renamed).storage)
  {
    hide StoredStep, CalledTooEarly, Killed;
    var s := Standing(st, Process(r, Observing, true));
    ObservingReads(cfg, d, st, r);
    var read := StoredStep(cfg, d, s);
    CallLogsTooEarly(cfg, d, read.storage, r, true);
    assert StoredRun(cfg, d, s, cut) == StoredRun(cfg, d, read, cut - 1);
    EndsTooEarly(cfg, d, StoredStep(cfg, d, read), cut - 2, renamed);
  }

  /** Once an undurable intent is acted on, the order is lost for good. */
  lemma ActingBreaksOrder(cfg: Config, st: Storage, h: Happening)
    requires Valid(cfg) && StorageInvariant(cfg, st) && ActsUndurably(cfg, st, h)
    ensures CalledTooEarly(Happens(cfg, st, h))
  {
    hide StorageInvariant, Shape, Restart, CalledTooEarly, ActsOnHead, EndOf;
    LiveIsReadable(cfg, st);
    var l := h.launch;
    UnsafeStands(cfg, st, l.driver, l.checkpoint);
    UnsafeUndurable(cfg, st, l.driver, l.checkpoint);
    if st.disk.head.value.stage == PublicationIntent {
      PublishesTooEarly(cfg, l.driver, st, st.disk.head.value, l.cut, h.renamed);
    } else {
      ResumesTooEarly(cfg, l.driver, st, st.disk.head.value, l.cut, h.renamed);
    }
  }

  lemma LiveIsReadable(cfg: Config, st: Storage)
    requires Valid(cfg) && StorageInvariant(cfg, st)
    ensures Readable(st) && |st.heads| == |st.disk.log|
  {
    hide Shape, RecordIdentity, Growing, Once, Bounded, BodiesKept, Follows;
  }

  lemma UnsafeUndurable(cfg: Config, st: Storage, d: Driver, c: Checkpoint)
    requires Valid(cfg) && StorageInvariant(cfg, st) && Unsafe(cfg, st, d, c)
    ensures st.disk.head.Some?
    ensures st.disk.head.value.stage == PublicationIntent || st.disk.head.value.stage == ApplicationIntent
    ensures st.durable.Some? ==> st.durable.value.stage != st.disk.head.value.stage
    ensures st.disk.head.value.stage == PublicationIntent ==>
              st.disk.canonical == cfg.expected
              && cfg.resulting(OrEmpty(st.disk.head.value.publicationRequest)) != cfg.expected
  {
    hide StorageInvariant;
    UndurableStage(cfg, st);
  }

  // ---------------------------------------------------------------- exactly when the order is kept

  lemma {:induction false} SeriesIsOrderedExactly(cfg: Config, st: Storage, hs: seq<Happening>)
    requires Valid(cfg) && StorageInvariant(cfg, st) && OrderInvariant(cfg, st) && Honest(cfg, st, hs)
    ensures Cautious(cfg, st, hs) ==> OrderInvariant(cfg, After(cfg, st, hs))
    ensures !Cautious(cfg, st, hs) ==> !WriteAhead(After(cfg, st, hs))
    decreases |hs|
  {
    hide StorageInvariant, OrderInvariant, Happens, Rehydrated, ActsUndurably, WriteAhead, CalledTooEarly;
    if hs != [] {
      HappeningKeepsInvariant(cfg, st, hs[0]);
      if ActsUndurably(cfg, st, hs[0]) {
        ActingBreaksOrder(cfg, st, hs[0]);
        SeriesGrows(cfg, Happens(cfg, st, hs[0]), hs[1..]);
        TooEarlyStays(Happens(cfg, st, hs[0]), After(cfg, st, hs));
      } else {
        HappeningKeepsOrder(cfg, st, hs[0]);
        SeriesIsOrderedExactly(cfg, Happens(cfg, st, hs[0]), hs[1..]);
      }
    }
  }

  lemma BlankIsOrdered(cfg: Config, canonical: string)
    ensures OrderInvariant(cfg, Blank(canonical))
  {}

  /**
    Every call has its intent durable, and every publication but the first directly follows a
    read of the expected state, if and only if no restart of the series went on to its call from
    a publication intent, or a declared application intent, that was live and not durable.
   */
  lemma OrderIsKeptExactly(cfg: Config, canonical: string, hs: seq<Happening>)
    requires Valid(cfg) && Honest(cfg, Blank(canonical), hs)
    ensures Ordered(cfg, After(cfg, Blank(canonical), hs)) <==> Cautious(cfg, Blank(canonical), hs)
  {
    hide Honest, After, Cautious, WriteAhead, ReadFirst, Accounted;
    BlankIsSound(cfg, canonical);
    BlankIsOrdered(cfg, canonical);
    SeriesIsOrderedExactly(cfg, Blank(canonical), hs);
  }

  /**
    What a caller can check before it restarts: wherever the process is killed the order is kept,
    if and only if the restart is not unsafe; and it never is once the loaded head is durable.
   */
  lemma RestartIsOrderedExactly(cfg: Config, canonical: string, hs: seq<Happening>, d: Driver, c: Checkpoint)
    requires Valid(cfg) && Honest(cfg, Blank(canonical), hs) && Ordered(cfg, After(cfg, Blank(canonical), hs))
    requires Rehydrated(cfg, After(cfg, Blank(canonical), hs), Ran(Recovery(d, c, 0), false))
    ensures var st := After(cfg, Blank(canonical), hs);
            && (!Unsafe(cfg, st, d, c) <==>
                  forall cut: nat, renamed: bool :: Ordered(cfg, Happens(cfg, st, Ran(Recovery(d, c, cut), renamed))))
            && !Unsafe(cfg, Happens(cfg, st, Flushed), d, c)
  {
    hide Honest, After, Cautious, WriteAhead, ReadFirst, Accounted, StorageInvariant, CalledTooEarly, ActsOnHead;
    BlankIsSound(cfg, canonical);
    BlankIsOrdered(cfg, canonical);
    SeriesKeepsInvariant(cfg, Blank(canonical), hs);
    SeriesIsOrderedExactly(cfg, Blank(canonical), hs);
    var st := After(cfg, Blank(canonical), hs);
    if Unsafe(cfg, st, d, c) {
      var h := Ran(Recovery(d, c, 2), false);
      ActingBreaksOrder(cfg, st, h);
      TooEarlyStays(Happens(cfg, st, h), Happens(cfg, st, h));
      assert !Ordered(cfg, Happens(cfg, st, Ran(Recovery(d, c, 2), false)));
    } else {
      forall cut: nat, renamed: bool
        ensures Ordered(cfg, Happens(cfg, st, Ran(Recovery(d, c, cut), renamed)))
      {
        HappeningKeepsOrder(cfg, st, Ran(Recovery(d, c, cut), renamed));
      }
    }
  }

  lemma IntentIsDue(cfg: Config, r: Record, e: Event)
    requires Fitting(cfg, r) && Performing(e) && IntentIs(Some(r), e)
    ensures Slot(cfg, e) == r.sequence
  {
    hide RecordIdentity, Shape;
    IntentSlots(r);
  }

  /**
    The intent of a call that was really made is durable: so a restart is unsafe only at a
    publication intent, or at a declaration that no application call of the attempt has left.
   */
  lemma PerformedIntentIsDurable(cfg: Config, canonical: string, hs: seq<Happening>, e: Event)
    requires Valid(cfg) && Honest(cfg, Blank(canonical), hs)
    requires var st := After(cfg, Blank(canonical), hs); e in st.disk.log && Performing(e) && IntentIs(st.disk.head, e)
    ensures var st := After(cfg, Blank(canonical), hs); st.durable == st.disk.head
  {
    hide Honest, After, Growing, Once, Backed, BodiesKept, IntentIs, Slot, Performing, EffectSafety.Follows, Fitting;
    BlankIsSound(cfg, canonical);
    SeriesKeepsInvariant(cfg, Blank(canonical), hs);
    var st := After(cfg, Blank(canonical), hs);
    if st.durable != st.disk.head {
      assert st.disk.head.Some?;
      IntentIsDue(cfg, st.disk.head.value, e);
      FollowingIsLater(cfg, st.durable, st.disk.head.value);
    }
  }
}
