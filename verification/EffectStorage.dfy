/**
  The journal as the process finds it and as a power loss would leave it.  An append that
  returns makes its record durable; one that is killed after the rename of the head, and
  before the last sync, leaves a record that is live and not durable.
 */
module EffectStorage {
  import opened Wrappers
  import opened EffectJournal
  import opened EffectProtocol

  /**
    The disk with its live head, the head that is durable, and for each event of the log the
    head that was durable when it happened.
   */
  datatype Storage = Storage(disk: Disk, durable: Option<Record>, heads: seq<Option<Record>>)

  function Logged(cfg: Config, st: Storage, e: Event): Storage {
    Storage(Emit(cfg, st.disk, e), if e.Appended? then Some(e.record) else st.durable, st.heads + [st.durable])
  }

  function LoggedAll(cfg: Config, st: Storage, events: seq<Event>): Storage {
    if events == [] then st
    else Logged(cfg, LoggedAll(cfg, st, events[..|events| - 1]), events[|events| - 1])
  }

  lemma LoggedOne(cfg: Config, st: Storage, e: Event)
    ensures LoggedAll(cfg, st, [e]) == Logged(cfg, st, e)
  {
    assert [e][..0] == [];
    assert LoggedAll(cfg, st, []) == st;
  }

  datatype Standing = Standing(storage: Storage, process: Process)

  function StoredStep(cfg: Config, d: Driver, s: Standing): Standing
    requires Valid(cfg)
  {
    var move := Advance(cfg, d, s.storage.disk.canonical, s.process);
    Standing(LoggedAll(cfg, s.storage, move.events), move.next)
  }

  function StoredRun(cfg: Config, d: Driver, s: Standing, n: nat): Standing
    requires Valid(cfg)
    decreases n
  {
    if n == 0 || s.process.pc.Stopped? then s else StoredRun(cfg, d, StoredStep(cfg, d, s), n - 1)
  }

  // ---------------------------------------------------------------- a kill inside an append

  /** The append killed before its last sync: the earlier head is durable, the record is live. */
  function Renamed(st: Storage, r: Record): Storage {
    if st.disk.head == Some(r) then st
    else Storage(st.disk.(head := Some(r), log := st.disk.log + [Appended(r)]), st.disk.head, st.heads + [st.durable])
  }

  /** The record that the process is about to append. */
  function NextAppend(cfg: Config, d: Driver, s: Standing): Option<Record>
    requires Valid(cfg)
  {
    var events := Advance(cfg, d, s.storage.disk.canonical, s.process).events;
    if |events| == 1 && events[0].Appended? then Some(events[0].record) else None
  }

  /** Where a process is when it is killed: between two actions, or inside the append that is next. */
  function Killed(cfg: Config, d: Driver, s: Standing, renamed: bool): Standing
    requires Valid(cfg)
  {
    if renamed && !s.process.pc.Stopped? && NextAppend(cfg, d, s).Some? then
      s.(storage := Renamed(s.storage, NextAppend(cfg, d, s).value))
    else s
  }

  function EndOf(cfg: Config, d: Driver, s: Standing, n: nat, renamed: bool): Standing
    requires Valid(cfg)
  {
    Killed(cfg, d, StoredRun(cfg, d, s, n), renamed)
  }

  // ---------------------------------------------------------------- storage and disk

  lemma {:induction false} LoggedAllIsEmitAll(cfg: Config, st: Storage, events: seq<Event>)
    ensures LoggedAll(cfg, st, events).disk == EmitAll(cfg, st.disk, events)
    decreases |events|
  {
    if events != [] {
      LoggedAllIsEmitAll(cfg, st, events[..|events| - 1]);
    }
  }

  /** As long as nobody loses power, the storage does not change what a run does. */
  lemma {:induction false} StoredIsRun(cfg: Config, d: Driver, s: Standing, n: nat)
    requires Valid(cfg)
    ensures var stored, run := StoredRun(cfg, d, s, n), Run(cfg, d, State(s.storage.disk, s.process), n);
            stored.storage.disk == run.disk && stored.process == run.process
    decreases n
  {
    hide Advance, LoggedAll, EmitAll;
    if n > 0 && !s.process.pc.Stopped? {
      LoggedAllIsEmitAll(cfg, s.storage, Advance(cfg, d, s.storage.disk.canonical, s.process).events);
      StoredIsRun(cfg, d, StoredStep(cfg, d, s), n - 1);
    }
  }

  // ---------------------------------------------------------------- what moves the two heads

  datatype HeadMove = Stay | Flush | Rename(renamed: Record) | Complete(appended: Record) | Lose

  datatype HeadPair = HeadPair(live: Option<Record>, durable: Option<Record>)

  function PairOf(st: Storage): HeadPair {
    HeadPair(st.disk.head, st.durable)
  }

  function Moved(h: HeadPair, m: HeadMove): HeadPair {
    match m
    case Stay => h
    case Flush => HeadPair(h.live, h.live)
    case Rename(r) => if h.live == Some(r) then h else HeadPair(Some(r), h.live)
    case Complete(r) => HeadPair(Some(r), Some(r))
    case Lose => HeadPair(h.durable, h.durable)
  }

  lemma LoggedMoves(cfg: Config, st: Storage, e: Event)
    ensures PairOf(Logged(cfg, st, e)) == Moved(PairOf(st), if e.Appended? then Complete(e.record) else Stay)
  {}

  lemma RenamedMoves(st: Storage, r: Record)
    ensures PairOf(Renamed(st, r)) == Moved(PairOf(st), Rename(r))
  {}
}
