/**
  The journal store below the attempt: every call of an append, every clean-up and every crash
  moves the two heads of an attempt as the storage of the process model does.
 */
module EffectHeads {
  import opened Wrappers
  import opened Identity
  import opened EffectJournal
  import opened EffectStore
  import opened EffectStoreHistory
  import opened EffectStorage
  import EffectProtocol

  function PairIn(d: Directory, attempt: Digest): HeadPair {
    HeadPair(HeadOf(d.live, attempt), HeadOf(d.durable, attempt))
  }

  /** The moves that one step of the store may cause for an attempt. */
  predicate MayMove(s: StoreStep, attempt: Digest, m: HeadMove) {
    match s
    case Appending(r, confirmed) =>
      if r.attempt != attempt then m == Stay || m == Flush
      else if confirmed then m == Complete(r)
      else m == Stay || m == Flush || m == Rename(r) || m == Complete(r)
    case Tidied => m == Stay
    case Crashed => m == Flush || m == Lose
  }

  lemma AppendMovesHeads(d: Directory, e: Directory, r: Record, confirmed: bool) returns (m: HeadMove)
    requires Sound(d) && AppendLeaves(d, e, r, confirmed)
    ensures PairIn(e, r.attempt) == Moved(PairIn(d, r.attempt), m) && MayMove(Appending(r, confirmed), r.attempt, m)
  {
    hide OthersKept, Follows, HeadOf, Sound, NoForeignSnapshot, OnlySnapshot;
    var base, latest := HeadOf(d.durable, r.attempt), HeadOf(d.live, r.attempt);
    if !Accepts(d.live, r) {
      SameNamesSameHead(d.live, e.live, r.attempt);
      m := Stay;
    } else if confirmed {
      m := Complete(r);
    } else if HeadOf(e.live, r.attempt) == latest {
      m := if HeadOf(e.durable, r.attempt) == latest then Flush
           else if HeadOf(e.durable, r.attempt) == base then Stay else Complete(r);
    } else {
      m := if HeadOf(e.durable, r.attempt) == latest then Rename(r) else Complete(r);
    }
  }

  /** Whatever happens to the directory, the two heads of an attempt make one of the moves. */
  lemma StoreMovesHeads(d: Directory, e: Directory, s: StoreStep, attempt: Digest) returns (m: HeadMove)
    requires Sound(d) && StepLeaves(d, e, s)
    ensures PairIn(e, attempt) == Moved(PairIn(d, attempt), m) && MayMove(s, attempt, m)
  {
    hide OthersKept, Follows, HeadOf, Crash, InFlight, Sound;
    match s
    case Appending(r, confirmed) =>
      if r.attempt == attempt {
        m := AppendMovesHeads(d, e, r, confirmed);
      } else if Accepts(d.live, r) {
        OtherHeads(d, e, r.attempt, attempt);
        m := if HeadOf(e.durable, attempt) == HeadOf(d.durable, attempt) then Stay else Flush;
      } else {
        SameNamesSameHead(d.live, e.live, attempt);
        m := Stay;
      }
    case Tidied =>
      SameNamesSameHead(d.live, e.live, attempt);
      m := Stay;
    case Crashed =>
      CrashKeepsSound(d, e.live);
      m := if HeadOf(e.live, attempt) == HeadOf(d.live, attempt) then Flush else Lose;
  }

  function FlushedNow(st: Storage): Storage {
    st.(durable := st.disk.head)
  }

  /** What a step of the store makes of an attempt, in terms of the storage of its processes. */
  predicate Becomes(cfg: EffectProtocol.Config, st: Storage, s: StoreStep, attempt: Digest, next: Storage) {
    match s
    case Appending(r, confirmed) =>
      var appended := Logged(cfg, st, EffectProtocol.Appended(r));
      if r.attempt != attempt then next == st || next == FlushedNow(st)
      else if confirmed then next == appended
      else next == st || next == FlushedNow(st) || next == EffectStorage.Renamed(st, r) || next == appended
    case Tidied => next == st
    case Crashed => next == FlushedNow(st) || next == st.(disk := st.disk.(head := st.durable))
  }

  /**
    The store refines the storage: an append that returns is the process's own event, one that is
    killed is the kill before, inside or after it, and a crash is a write-back or a power loss.
   */
  lemma StoreRefinesStorage(cfg: EffectProtocol.Config, st: Storage, d: Directory, e: Directory, s: StoreStep,
                            attempt: Digest)
    returns (next: Storage)
    requires Sound(d) && StepLeaves(d, e, s) && PairIn(d, attempt) == PairOf(st)
    ensures PairIn(e, attempt) == PairOf(next) && Becomes(cfg, st, s, attempt, next)
  {
    hide StepLeaves, Sound, HeadOf;
    var m := StoreMovesHeads(d, e, s, attempt);
    match m
    case Stay => next := st;
    case Flush => next := FlushedNow(st);
    case Lose => next := st.(disk := st.disk.(head := st.durable));
    case Rename(r) =>
      RenamedMoves(st, r);
      next := EffectStorage.Renamed(st, r);
    case Complete(r) =>
      LoggedMoves(cfg, st, EffectProtocol.Appended(r));
      next := Logged(cfg, st, EffectProtocol.Appended(r));
  }

  /** The loaded head can be appended again, which makes it durable: so a caller rules out one that is not. */
  lemma LoadedHeadIsAccepted(d: Directory, attempt: Digest, r: Record)
    requires Sound(d) && HeadOf(d.live, attempt) == Some(r)
    ensures r.attempt == attempt && Accepts(d.live, r)
    ensures forall e :: AppendLeaves(d, e, r, true) ==> PairIn(e, attempt) == Moved(PairIn(d, attempt), Flush)
  {
    SoundHeadLoads(d, attempt, Some(r));
  }

  /** The kill between the rename of the head and the last sync does happen, to every record that is appended. */
  method KillAfterRename(store: Store, r: Record)
    requires Sound(store.dir) && (r.stage == Terminal ==> r.terminalOutcome.Some?)
    requires Accepts(store.dir.live, r) && HeadOf(store.dir.live, r.attempt) != Some(r)
    modifies store
    ensures PairIn(store.dir, r.attempt) == Moved(old(PairIn(store.dir, r.attempt)), Rename(r))
    ensures Sound(store.dir) && Load(store.dir.live, r.attempt, None) == Success(Some(r))
  {
    hide OthersKept, Follows, SuccessorAccepts;
    store.budget := APPEND_CALLS - 1;
    var result := store.Append(r);
    assert Sound(store.dir);
    SoundHeadLoads(store.dir, r.attempt, None);
  }
}
