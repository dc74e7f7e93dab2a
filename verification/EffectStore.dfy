/**
  The journal store: an immutable snapshot is linked into the directory and synced before
  the head that names it is renamed into place.  A directory has a live view and a
  durable view; a crash keeps, name by name, either of the two.  `budget` counts the
  system calls that still succeed, so every statement about all budgets is one about a
  crash or an input/output error between any two calls.
 */
module EffectStore {
  import opened Wrappers
  import opened Identity
  import opened EffectJournal
  import EffectCapacity
  import EffectCodec
  import EffectValidation

  /** `Torn` stands for any bytes that no decoder accepts. */
  datatype Content = Torn | Snapshot(record: Record) | Head(attempt: Digest, sequence: nat, identity: Digest)

  /** A stray name begins as the snapshots of an attempt do, and is not one of them. */
  datatype Name = SnapshotName(attempt: Digest, sequence: nat, identity: Digest)
                | StrayName(attempt: Digest, rest: string)
                | HeadName(attempt: Digest) | TemporaryName(identity: Digest) | TemporaryHeadName(identity: Digest)

  /** A file and whether its bytes have been synced. */
  datatype File = File(content: Content, synced: bool)

  type Entries = map<Name, File>

  datatype Directory = Directory(live: Entries, durable: Entries)

  function NameOf(r: Record): Name {
    SnapshotName(r.attempt, r.sequence, r.identity)
  }

  function HeadFor(r: Record): Content {
    Head(r.attempt, r.sequence, r.identity)
  }

  // ---------------------------------------------------------------- system calls

  function Unlinked(d: Directory, n: Name): Directory {
    d.(live := d.live - {n})
  }

  function Wrote(d: Directory, n: Name, f: File): Directory {
    d.(live := d.live[n := f])
  }

  function Renamed(d: Directory, from: Name, to: Name): Directory
    requires from in d.live
  {
    d.(live := (d.live - {from})[to := d.live[from]])
  }

  function Synced(d: Directory): Directory {
    d.(durable := d.live)
  }

  // ---------------------------------------------------------------- crashes

  /** The crash left `n` as `m` has it; bytes that were not synced may be anything. */
  predicate Kept(m: Entries, n: Name, after: Entries) {
    if n in m then n in after && (m[n].synced ==> after[n] == m[n]) else n !in after
  }

  predicate Fate(d: Directory, n: Name, after: Entries) {
    Kept(d.live, n, after) || Kept(d.durable, n, after)
  }

  ghost predicate Crash(d: Directory, after: Entries) {
    forall n: Name :: Fate(d, n, after)
  }

  // ---------------------------------------------------------------- what a directory says

  predicate SnapshotRight(m: Entries, n: Name)
    requires n in m && n.SnapshotName?
  {
    m[n].synced && m[n].content.Snapshot? && NameOf(m[n].content.record) == n
  }

  /** The head of an attempt, if it is readable and its snapshot is there. */
  function HeadOf(m: Entries, attempt: Digest): Option<Record> {
    if HeadName(attempt) !in m then None
    else
      match m[HeadName(attempt)].content
      case Head(a, sequence, identity) =>
        var n := SnapshotName(attempt, sequence, identity);
        if a == attempt && n in m && m[n].content.Snapshot? && NameOf(m[n].content.record) == n
        then Some(m[n].content.record) else None
      case _ => None
  }

  predicate SnapshotsRight(m: Entries) {
    forall n | n in m && n.SnapshotName? :: SnapshotRight(m, n)
  }

  /** A head is synced and names a snapshot that both views have. */
  predicate HeadBacked(d: Directory, m: Entries, n: Name)
    requires n in m && n.HeadName?
  {
    && m[n].synced && m[n].content.Head? && m[n].content.attempt == n.attempt
    && var s := SnapshotName(n.attempt, m[n].content.sequence, m[n].content.identity);
       s in d.live && s in d.durable
  }

  predicate HeadsBacked(d: Directory, m: Entries) {
    forall n | n in m && n.HeadName? :: HeadBacked(d, m, n)
  }

  /** No view misses a snapshot that a head names, and the live view has all durable snapshots. */
  predicate Sound(d: Directory) {
    && SnapshotsRight(d.live) && SnapshotsRight(d.durable)
    && HeadsBacked(d, d.live) && HeadsBacked(d, d.durable)
    && forall n | n in d.durable && (n.SnapshotName? || n.StrayName?) :: n in d.live && d.live[n] == d.durable[n]
  }

  /** A durable head never names a missing snapshot, whatever the crash keeps. */
  lemma CrashKeepsSound(d: Directory, after: Entries)
    requires Sound(d) && Crash(d, after)
    ensures Sound(Directory(after, after))
    ensures forall a: Digest ::
              HeadOf(after, a) == HeadOf(d.live, a) || HeadOf(after, a) == HeadOf(d.durable, a)
  {
    forall n | n in after && n.SnapshotName?
      ensures SnapshotRight(after, n)
    {
      assert Fate(d, n, after);
      assert n in d.live ==> SnapshotRight(d.live, n);
      assert n in d.durable ==> SnapshotRight(d.durable, n);
    }
    forall n | n in after && n.HeadName?
      ensures HeadBacked(Directory(after, after), after, n)
    {
      assert Fate(d, n, after);
      assert n in d.live ==> HeadBacked(d, d.live, n);
      assert n in d.durable ==> HeadBacked(d, d.durable, n);
      assert Fate(d, SnapshotName(n.attempt, after[n].content.sequence, after[n].content.identity), after);
    }
    forall a: Digest
      ensures HeadOf(after, a) == HeadOf(d.live, a) || HeadOf(after, a) == HeadOf(d.durable, a)
    {
      CrashedHead(d, after, a);
    }
  }

  lemma CrashedHead(d: Directory, after: Entries, a: Digest)
    requires Sound(d) && Crash(d, after)
    ensures HeadOf(after, a) == HeadOf(d.live, a) || HeadOf(after, a) == HeadOf(d.durable, a)
  {
    var n := HeadName(a);
    assert Fate(d, n, after);
    if n in after {
      assert n in d.live ==> HeadBacked(d, d.live, n);
      assert n in d.durable ==> HeadBacked(d, d.durable, n);
      var s := SnapshotName(a, after[n].content.sequence, after[n].content.identity);
      assert Fate(d, s, after);
      assert SnapshotRight(d.live, s) && SnapshotRight(d.durable, s);
    }
  }

  // ---------------------------------------------------------------- loading

  predicate OfAttempt(n: Name, attempt: Digest) {
    (n.SnapshotName? || n.StrayName?) && n.attempt == attempt
  }

  /** Without a head, only the exact pending record may already be there. */
  predicate Tolerated(m: Entries, n: Name, attempt: Digest, pending: Option<Record>)
    requires n in m
  {
    OfAttempt(n, attempt) ==>
      && n.SnapshotName? && m[n].content.Snapshot? && NameOf(m[n].content.record) == n
      && pending.Some? && n.sequence == pending.value.sequence && n.identity == pending.value.identity
  }

  function Load(m: Entries, attempt: Digest, pending: Option<Record>): Result<Option<Record>, JournalError> {
    if HeadName(attempt) in m then
      if HeadOf(m, attempt).Some? then Success(HeadOf(m, attempt)) else Failure(StoreCorrupt)
    else if forall n | n in m :: Tolerated(m, n, attempt, pending) then Success(None)
    else Failure(StoreCorrupt)
  }

  /** In a sound directory a head can always be loaded. */
  lemma SoundHeadLoads(d: Directory, attempt: Digest, pending: Option<Record>)
    requires Sound(d) && HeadName(attempt) in d.live
    ensures HeadOf(d.live, attempt).Some? && Load(d.live, attempt, pending) == Success(HeadOf(d.live, attempt))
  {
    var n := HeadName(attempt);
    assert HeadBacked(d, d.live, n);
    var s := SnapshotName(attempt, d.live[n].content.sequence, d.live[n].content.identity);
    assert SnapshotRight(d.live, s);
  }

  // ---------------------------------------------------------------- what append accepts

  predicate Succeeds(latest: Option<Record>, r: Record) {
    && (r.stage == Terminal ==> r.terminalOutcome.Some?)
    && match latest
       case None => r.sequence == 0 && r.previous.None?
       case Some(p) => SuccessorAccepts(p, r)
  }

  /** By `EffectCapacity.EncodesExactly`, exactly the records that the encoder does not refuse. */
  predicate Encodable(r: Record) {
    EffectCapacity.EncodedSize(r) <= EffectCodec.MAXIMUM_ENCODING_SIZE
  }

  predicate Follows(latest: Option<Record>, r: Record) {
    Succeeds(latest, r) && Encodable(r)
  }

  /** A snapshot under the record's name is the record itself: identities do not collide there. */
  predicate NoForeignSnapshot(m: Entries, r: Record) {
    NameOf(r) in m ==> m[NameOf(r)].content == Snapshot(r)
  }

  /** The latest record with the record's identity is the record. */
  predicate Distinct(latest: Option<Record>, r: Record) {
    latest.Some? && latest.value.identity == r.identity ==> latest.value == r
  }

  predicate Accepts(m: Entries, r: Record) {
    && NoForeignSnapshot(m, r) && Distinct(HeadOf(m, r.attempt), r)
    && Load(m, r.attempt, Some(r)).Success?
    && (HeadOf(m, r.attempt) == Some(r) || Follows(HeadOf(m, r.attempt), r))
  }

  predicate OnlySnapshot(m: Entries, r: Record) {
    forall n | n in m && OfAttempt(n, r.attempt) :: n == NameOf(r)
  }

  /**
    The heads during an append of `r` that found `latest` live and `base` durable: before the
    head is replaced a sync may make `latest` durable, and only then is `r` renamed over it.
   */
  predicate Midway(d: Directory, base: Option<Record>, latest: Option<Record>, r: Record) {
    var live, durable := HeadOf(d.live, r.attempt), HeadOf(d.durable, r.attempt);
    || (live == latest && (durable == base || durable == latest))
    || (live == Some(r) && (durable == latest || durable == live))
  }

  predicate InFlight(d: Directory, base: Option<Record>, latest: Option<Record>, r: Record) {
    && Sound(d) && NoForeignSnapshot(d.live, r) && Midway(d, base, latest, r)
    && (latest.None? ==> OnlySnapshot(d.live, r))
  }

  // ---------------------------------------------------------------- appending

  predicate Temporary(n: Name) {
    n.TemporaryName? || n.TemporaryHeadName?
  }

  predicate SameEntry(a: Entries, b: Entries, n: Name) {
    (n in a <==> n in b) && (n in a ==> a[n] == b[n])
  }

  ghost predicate SameNames(a: Entries, b: Entries) {
    forall n: Name :: !Temporary(n) ==> SameEntry(a, b, n)
  }

  /** Nothing waits for a sync: so after a crash, and after an append that returned. */
  ghost predicate Settled(d: Directory) {
    SameNames(d.live, d.durable)
  }

  predicate KeptEntry(d: Directory, e: Directory, n: Name) {
    && SameEntry(d.live, e.live, n)
    && (SameEntry(d.durable, e.durable, n) || SameEntry(d.live, e.durable, n))
  }

  /** An append touches no entry of another attempt; its syncs may make live ones durable. */
  ghost predicate OthersKept(d: Directory, e: Directory, attempt: Digest) {
    forall n: Name :: !Temporary(n) && n.attempt != attempt ==> KeptEntry(d, e, n)
  }

  lemma KeptItself(d: Directory, attempt: Digest)
    ensures OthersKept(d, d, attempt)
  {}

  lemma KeptThrough(a: Directory, b: Directory, c: Directory, attempt: Digest)
    requires OthersKept(a, b, attempt) && OthersKept(b, c, attempt)
    ensures OthersKept(a, c, attempt)
  {
    forall n: Name | !Temporary(n) && n.attempt != attempt
      ensures KeptEntry(a, c, n)
    {
      assert KeptEntry(a, b, n) && KeptEntry(b, c, n);
    }
  }

  /** One call of an append, on other attempts. */
  lemma CallKeepsOthers(a: Directory, d: Directory, e: Directory, attempt: Digest)
    requires OthersKept(a, d, attempt)
    requires e.durable == d.durable || e == Synced(d)
    requires forall n: Name :: !Temporary(n) && n.attempt != attempt ==> SameEntry(d.live, e.live, n)
    ensures OthersKept(a, e, attempt)
  {
    forall n: Name | !Temporary(n) && n.attempt != attempt
      ensures KeptEntry(d, e, n)
    {
      assert SameEntry(d.live, e.live, n);
    }
    KeptThrough(a, d, e, attempt);
  }

  lemma SameNamesSameHead(a: Entries, b: Entries, attempt: Digest)
    requires SameNames(a, b)
    ensures HeadOf(a, attempt) == HeadOf(b, attempt)
  {
    assert SameEntry(a, b, HeadName(attempt));
    if HeadName(attempt) in a && a[HeadName(attempt)].content.Head? {
      assert SameEntry(a, b, SnapshotName(attempt, a[HeadName(attempt)].content.sequence,
                                          a[HeadName(attempt)].content.identity));
    }
  }

  /** Work on temporary names changes nothing that anyone loads. */
  lemma TemporaryWorkKeeps(d: Directory, live: Entries, base: Option<Record>, latest: Option<Record>, r: Record)
    requires InFlight(d, base, latest, r) && SameNames(d.live, live)
    ensures InFlight(d.(live := live), base, latest, r)
  {
    SameNamesSameHead(d.live, live, r.attempt);
    SoundThroughTemporary(d, live);
    assert SameEntry(d.live, live, NameOf(r));
    if latest.None? {
      forall n | n in live && OfAttempt(n, r.attempt)
        ensures n == NameOf(r)
      {
        assert SameEntry(d.live, live, n);
      }
    }
  }

  lemma BackedStays(d: Directory, live: Entries)
    requires Sound(d) && SameNames(d.live, live)
    ensures HeadsBacked(d.(live := live), live) && HeadsBacked(d.(live := live), d.durable)
  {
    forall n | n in live && n.HeadName?
      ensures HeadBacked(d.(live := live), live, n)
    {
      assert SameEntry(d.live, live, n);
      assert HeadBacked(d, d.live, n);
      assert SameEntry(d.live, live, SnapshotName(n.attempt, live[n].content.sequence, live[n].content.identity));
    }
    forall n | n in d.durable && n.HeadName?
      ensures HeadBacked(d.(live := live), d.durable, n)
    {
      assert HeadBacked(d, d.durable, n);
      assert SameEntry(d.live, live,
                       SnapshotName(n.attempt, d.durable[n].content.sequence, d.durable[n].content.identity));
    }
  }

  lemma SyncKeeps(d: Directory, base: Option<Record>, latest: Option<Record>, r: Record)
    requires InFlight(d, base, latest, r)
    ensures InFlight(Synced(d), base, latest, r)
  {
    forall n | n in d.live && n.HeadName?
      ensures HeadBacked(Synced(d), d.live, n)
    {
      assert HeadBacked(d, d.live, n);
    }
  }

  lemma LinkedIsSound(d: Directory, r: Record)
    requires Sound(d) && NameOf(r) !in d.live
    ensures Sound(Wrote(d, NameOf(r), File(Snapshot(r), true)))
  {
    var n := NameOf(r);
    var live := d.live[n := File(Snapshot(r), true)];
    forall k | k in live && k.SnapshotName?
      ensures SnapshotRight(live, k)
    {
      assert k != n ==> SnapshotRight(d.live, k);
    }
    forall k | k in live && k.HeadName?
      ensures HeadBacked(d.(live := live), live, k)
    {
      assert HeadBacked(d, d.live, k);
    }
    forall k | k in d.durable && k.HeadName?
      ensures HeadBacked(d.(live := live), d.durable, k)
    {
      assert HeadBacked(d, d.durable, k);
    }
  }

  /** The snapshot is linked after its bytes are synced. */
  lemma LinkKeeps(d: Directory, base: Option<Record>, latest: Option<Record>, r: Record)
    requires InFlight(d, base, latest, r) && NameOf(r) !in d.live
    ensures InFlight(Wrote(d, NameOf(r), File(Snapshot(r), true)), base, latest, r)
  {
    LinkedIsSound(d, r);
    LinkedHead(d, r);
  }

  lemma RenamedIsSound(d: Directory, r: Record, temporary: Name)
    requires Sound(d) && NameOf(r) in d.live && NameOf(r) in d.durable && d.live[NameOf(r)].content == Snapshot(r)
    requires Temporary(temporary) && temporary in d.live && d.live[temporary] == File(HeadFor(r), true)
    ensures Sound(Renamed(d, temporary, HeadName(r.attempt)))
    ensures HeadOf(Renamed(d, temporary, HeadName(r.attempt)).live, r.attempt) == Some(r)
  {
    var d' := Renamed(d, temporary, HeadName(r.attempt));
    forall k | k in d'.live && k.SnapshotName?
      ensures SnapshotRight(d'.live, k)
    {
      assert SnapshotRight(d.live, k);
    }
    forall k | k in d'.live && k.HeadName?
      ensures HeadBacked(d', d'.live, k)
    {
      if k != HeadName(r.attempt) {
        assert HeadBacked(d, d.live, k);
      }
    }
    forall k | k in d.durable && k.HeadName?
      ensures HeadBacked(d', d.durable, k)
    {
      assert HeadBacked(d, d.durable, k);
    }
  }

  /** The head is renamed into place after its snapshot, and what it replaces, is durable. */
  lemma RenameKeeps(d: Directory, base: Option<Record>, latest: Option<Record>, r: Record, temporary: Name)
    requires InFlight(d, base, latest, r) && NameOf(r) in d.live && NameOf(r) in d.durable
    requires latest == Some(r) || HeadOf(d.durable, r.attempt) == latest
    requires Temporary(temporary) && temporary in d.live && d.live[temporary] == File(HeadFor(r), true)
    ensures InFlight(Renamed(d, temporary, HeadName(r.attempt)), base, latest, r)
    ensures HeadOf(Renamed(d, temporary, HeadName(r.attempt)).live, r.attempt) == Some(r)
  {
    RenamedIsSound(d, r, temporary);
  }

  // The system calls of the head replacement, of the link, and of both.
  const HEAD_CALLS: nat := 7
  const LINK_CALLS: nat := 8
  const APPEND_CALLS: nat := LINK_CALLS + HEAD_CALLS

  /** What an append of `r`, stopped anywhere, may leave; `confirmed` says that it returned the record. */
  ghost predicate AppendLeaves(d: Directory, e: Directory, r: Record, confirmed: bool) {
    && Sound(e)
    && if Accepts(d.live, r) then
         && OthersKept(d, e, r.attempt)
         && InFlight(e, HeadOf(d.durable, r.attempt), HeadOf(d.live, r.attempt), r)
         && (confirmed ==> HeadOf(e.live, r.attempt) == Some(r) && HeadOf(e.durable, r.attempt) == Some(r))
       else !confirmed && SameNames(d.live, e.live) && e.durable == d.durable
  }

  /** An admission without predecessor, or a successor of the latest record. */
  method ValidateNext(latest: Option<Record>, r: Record) returns (valid: bool)
    requires r.stage == Terminal ==> r.terminalOutcome.Some?
    ensures valid <==> Succeeds(latest, r)
  {
    hide SuccessorAccepts;
    if latest.None? {
      return r.sequence == 0 && r.previous.None?;
    }
    valid := EffectValidation.ValidateSuccessor(latest.value, r);
  }

  class Store {
    var dir: Directory
    var budget: nat

    constructor (dir: Directory, budget: nat)
      ensures this.dir == dir && this.budget == budget
    {
      this.dir, this.budget := dir, budget;
    }

    /** One system call: it takes effect as a whole, or the process stops before it. */
    method Call(next: Directory) returns (alive: bool)
      modifies this
      ensures alive == (old(budget) > 0)
      ensures alive ==> dir == next && budget == old(budget) - 1
      ensures !alive ==> dir == old(dir) && budget == 0
    {
      alive := budget > 0;
      if alive {
        dir := next;
        budget := budget - 1;
      }
    }

    /** Enumerate the directory when there is no head; otherwise read head and snapshot. */
    method LoadLatest(attempt: Digest, pending: Option<Record>)
      returns (latest: Result<Option<Record>, JournalError>)
      ensures latest == Load(dir.live, attempt, pending)
    {
      if HeadName(attempt) in dir.live {
        var head := dir.live[HeadName(attempt)].content;
        if !head.Head? || head.attempt != attempt {
          return Failure(StoreCorrupt);
        }
        var name := SnapshotName(attempt, head.sequence, head.identity);
        if name !in dir.live || !dir.live[name].content.Snapshot? {
          return Failure(StoreCorrupt);
        }
        var record := dir.live[name].content.record;
        if NameOf(record) != name {
          return Failure(StoreCorrupt);
        }
        return Success(Some(record));
      }
      var unread := dir.live.Keys;
      while unread != {}
        invariant unread <= dir.live.Keys
        invariant forall n | n in dir.live && n !in unread :: Tolerated(dir.live, n, attempt, pending)
        decreases |unread|
      {
        var n: Name :| n in unread;
        unread := unread - {n};
        if n.StrayName? && n.attempt == attempt {
          assert !Tolerated(dir.live, n, attempt, pending);
          return Failure(StoreCorrupt);
        }
        if n.SnapshotName? && n.attempt == attempt {
          var content := dir.live[n].content;
          if !content.Snapshot? || NameOf(content.record) != n {
            assert !Tolerated(dir.live, n, attempt, pending);
            return Failure(StoreCorrupt);
          }
          if !(pending.Some? && n.sequence == pending.value.sequence && n.identity == pending.value.identity) {
            assert !Tolerated(dir.live, n, attempt, pending);
            return Failure(StoreCorrupt);
          }
        }
      }
      return Success(None);
    }

    /** Write a temporary file, seal it, and sync its bytes. */
    method WriteTemporary(n: Name, content: Content) returns (alive: bool)
      requires Temporary(n)
      modifies this
      ensures SameNames(old(dir.live), dir.live) && dir.durable == old(dir.durable)
      ensures alive == (old(budget) >= 5)
      ensures alive ==> n in dir.live && dir.live[n] == File(content, true) && budget == old(budget) - 5
    {
      alive := Call(Unlinked(dir, n));
      if alive {
        alive := Call(Wrote(dir, n, File(Torn, false)));
        if alive {
          alive := Call(Wrote(dir, n, File(Torn, false)));
          if alive {
            alive := Call(Wrote(dir, n, File(content, false)));
            if alive {
              alive := Call(Wrote(dir, n, File(content, true)));
            }
          }
        }
      }
    }

    /** Make a durable snapshot the head. */
    method PublishHead(r: Record, ghost base: Option<Record>, ghost latest: Option<Record>) returns (alive: bool)
      requires InFlight(dir, base, latest, r) && NameOf(r) in dir.live && NameOf(r) in dir.durable
      requires latest == Some(r) || HeadOf(dir.durable, r.attempt) == latest
      modifies this
      ensures InFlight(dir, base, latest, r) && OthersKept(old(dir), dir, r.attempt)
      ensures alive == (old(budget) >= HEAD_CALLS)
      ensures alive ==> HeadOf(dir.live, r.attempt) == Some(r) && Settled(dir)
      ensures HeadOf(dir.live, r.attempt)
              == if old(budget) >= HEAD_CALLS - 1 then Some(r) else old(HeadOf(dir.live, r.attempt))
      ensures !alive ==> dir.durable == old(dir.durable)
    {
      hide InFlight, OthersKept, HeadOf;
      var temporary := TemporaryHeadName(r.identity);
      ghost var before := dir;
      alive := WriteTemporary(temporary, HeadFor(r));
      CallKeepsOthers(before, before, dir, r.attempt) by { KeptItself(before, r.attempt); }
      TemporaryWorkKeeps(before, dir.live, base, latest, r);
      SameNamesSameHead(before.live, dir.live, r.attempt);
      if !alive {
        return;
      }
      assert SameEntry(before.live, dir.live, NameOf(r));
      RenameKeeps(dir, base, latest, r, temporary);
      ghost var written := dir;
      alive := Call(Renamed(dir, temporary, HeadName(r.attempt)));
      CallKeepsOthers(before, written, dir, r.attempt);
      if !alive {
        return;
      }
      SyncKeeps(dir, base, latest, r);
      ghost var renamed := dir;
      alive := Call(Synced(dir));
      CallKeepsOthers(before, renamed, dir, r.attempt);
    }

    /** Link the synced snapshot under its name; an existing one must be the record itself. */
    method LinkSnapshot(r: Record, ghost base: Option<Record>, ghost latest: Option<Record>) returns (alive: bool)
      requires InFlight(dir, base, latest, r)
      modifies this
      ensures InFlight(dir, base, latest, r) && OthersKept(old(dir), dir, r.attempt)
      ensures HeadOf(dir.live, r.attempt) == HeadOf(old(dir.live), r.attempt)
      ensures alive == (old(budget) >= LINK_CALLS)
      ensures alive ==> NameOf(r) in dir.live && Settled(dir) && budget == old(budget) - LINK_CALLS
      ensures old(budget) >= LINK_CALLS - 2 ==> NameOf(r) in dir.live
      ensures !alive ==> dir.durable == old(dir.durable)
    {
      hide InFlight, OthersKept, HeadOf;
      var temporary := TemporaryName(r.identity);
      ghost var before := dir;
      alive := WriteTemporary(temporary, Snapshot(r));
      CallKeepsOthers(before, before, dir, r.attempt) by { KeptItself(before, r.attempt); }
      TemporaryWorkKeeps(before, dir.live, base, latest, r);
      SameNamesSameHead(before.live, dir.live, r.attempt);
      if !alive {
        return;
      }
      ghost var written := dir;
      alive := LinkTemporary(r, base, latest);
      CallKeepsOthers(before, written, dir, r.attempt);
      if !alive {
        return;
      }
      ghost var linked := dir;
      TemporaryWorkKeeps(dir, Unlinked(dir, temporary).live, base, latest, r);
      SameNamesSameHead(dir.live, Unlinked(dir, temporary).live, r.attempt);
      alive := Call(Unlinked(dir, temporary));
      CallKeepsOthers(before, linked, dir, r.attempt);
      assert SameEntry(linked.live, dir.live, NameOf(r));
      if !alive {
        return;
      }
      SyncKeeps(dir, base, latest, r);
      ghost var unlinked := dir;
      alive := Call(Synced(dir));
      CallKeepsOthers(before, unlinked, dir, r.attempt);
    }

    /** The link itself: it fails, and that is tolerated, when the name exists. */
    method LinkTemporary(r: Record, ghost base: Option<Record>, ghost latest: Option<Record>) returns (alive: bool)
      requires InFlight(dir, base, latest, r)
      requires TemporaryName(r.identity) in dir.live && dir.live[TemporaryName(r.identity)] == File(Snapshot(r), true)
      modifies this
      ensures InFlight(dir, base, latest, r) && dir.durable == old(dir.durable)
      ensures HeadOf(dir.live, r.attempt) == HeadOf(old(dir.live), r.attempt)
      ensures alive == (old(budget) > 0) && (alive ==> budget == old(budget) - 1 && NameOf(r) in dir.live)
      ensures forall n: Name :: !Temporary(n) && n.attempt != r.attempt ==> SameEntry(old(dir.live), dir.live, n)
    {
      if NameOf(r) in dir.live {
        assert SnapshotRight(dir.live, NameOf(r));
        alive := Call(dir);
      } else {
        LinkKeeps(dir, base, latest, r);
        LinkedHead(dir, r);
        alive := Call(Wrote(dir, NameOf(r), dir.live[TemporaryName(r.identity)]));
      }
    }

    /**
      Append one record: the exact retry of the latest, or its successor.  The directory may be
      one that a killed process or an input/output error left with an undurable head.
     */
    method Append(r: Record) returns (result: Option<Result<Record, JournalError>>)
      requires Sound(dir) && (r.stage == Terminal ==> r.terminalOutcome.Some?)
      modifies this
      ensures AppendLeaves(old(dir), dir, r, result == Some(Success(r)))
      ensures Accepts(old(dir.live), r) ==>
                && (result == None || result == Some(Success(r)))
                && (old(budget) >= APPEND_CALLS ==> result == Some(Success(r)))
      ensures !Accepts(old(dir.live), r) ==> result.None? || result.value.Failure?
      ensures Load(old(dir.live), r.attempt, Some(r)) == Success(HeadOf(old(dir.live), r.attempt)) ==>
                var latest := HeadOf(old(dir.live), r.attempt);
                !(latest.Some? && latest.value.identity == r.identity) ==>
                  && (!Succeeds(latest, r) ==> result == Some(Failure(StoreConflict)))
                  && (Succeeds(latest, r) && !Encodable(r) ==> result == Some(Failure(InvalidRecord)))
      ensures result == Some(Success(r)) ==> Settled(dir)
      ensures Accepts(old(dir.live), r) && HeadOf(old(dir.live), r.attempt) != Some(r) ==>
                && (old(budget) < APPEND_CALLS ==> result == None)
                && (LINK_CALLS - 2 <= old(budget) ==> NameOf(r) in dir.live)
                && (old(budget) < LINK_CALLS ==> dir.durable == old(dir.durable))
                && (LINK_CALLS <= old(budget) < APPEND_CALLS ==>
                      NameOf(r) in dir.durable && HeadOf(dir.durable, r.attempt) == HeadOf(old(dir.live), r.attempt))
                && HeadOf(dir.live, r.attempt)
                   == if old(budget) >= APPEND_CALLS - 1 then Some(r) else HeadOf(old(dir.live), r.attempt)
    {
      hide SuccessorAccepts, EffectCapacity.EncodedSize, Tolerated;
      var loaded := LoadLatest(r.attempt, Some(r));
      if loaded.Failure? {
        return Some(Failure(loaded.error));
      }
      var latest := loaded.value;
      ghost var base := HeadOf(dir.durable, r.attempt);
      LoadedLatest(dir, r);
      if latest.Some? && latest.value.identity == r.identity {
        if latest.value.sequence != r.sequence || dir.live[NameOf(r)].content != Snapshot(r) {
          return Some(Failure(StoreCorrupt));
        }
        StartsInFlight(dir, r);
        var alive := PublishHead(r, base, latest);
        if alive {
          SameNamesSameHead(dir.live, dir.durable, r.attempt);
        }
        return if alive then Some(Success(r)) else None;
      }
      var succeeds := ValidateNext(latest, r);
      if !succeeds {
        return Some(Failure(StoreConflict));
      }
      if EffectCapacity.EncodedSize(r) > EffectCodec.MAXIMUM_ENCODING_SIZE {
        return Some(Failure(InvalidRecord));
      }
      if NameOf(r) in dir.live && dir.live[NameOf(r)].content != Snapshot(r) {
        ghost var before := dir;
        var alive := WriteTemporary(TemporaryName(r.identity), Snapshot(r));
        if alive {
          var _ := Call(Unlinked(dir, TemporaryName(r.identity)));
        }
        SoundThroughTemporary(before, dir.live);
        return if alive then Some(Failure(StoreCorrupt)) else None;
      }
      StartsInFlight(dir, r);
      var alive := LinkSnapshot(r, base, latest);
      if !alive {
        return None;
      }
      ghost var linked := dir;
      SameNamesSameHead(dir.live, dir.durable, r.attempt);
      assert SameEntry(dir.live, dir.durable, NameOf(r));
      alive := PublishHead(r, base, latest);
      KeptThrough(old(dir), linked, dir, r.attempt);
      if alive {
        SameNamesSameHead(dir.live, dir.durable, r.attempt);
      }
      return if alive then Some(Success(r)) else None;
    }
  }

  lemma SoundThroughTemporary(d: Directory, live: Entries)
    requires Sound(d) && SameNames(d.live, live)
    ensures Sound(d.(live := live))
  {
    forall n | n in live && n.SnapshotName?
      ensures SnapshotRight(live, n)
    {
      assert SameEntry(d.live, live, n);
      assert SnapshotRight(d.live, n);
    }
    forall n | n in d.durable && (n.SnapshotName? || n.StrayName?)
      ensures n in live && live[n] == d.durable[n]
    {
      assert SameEntry(d.live, live, n);
    }
    BackedStays(d, live);
  }

  lemma LinkedHead(d: Directory, r: Record)
    requires Sound(d)
    ensures NameOf(r) !in d.live ==>
              HeadOf(d.live[NameOf(r) := File(Snapshot(r), true)], r.attempt) == HeadOf(d.live, r.attempt)
  {
    if HeadName(r.attempt) in d.live {
      assert HeadBacked(d, d.live, HeadName(r.attempt));
    }
  }

  lemma LoadedLatest(d: Directory, r: Record)
    requires Sound(d) && Load(d.live, r.attempt, Some(r)).Success?
    ensures Load(d.live, r.attempt, Some(r)).value == HeadOf(d.live, r.attempt)
    ensures HeadOf(d.live, r.attempt).Some? ==>
              NameOf(HeadOf(d.live, r.attempt).value) in d.live && NameOf(HeadOf(d.live, r.attempt).value) in d.durable
              && HeadOf(d.live, r.attempt).value.attempt == r.attempt
              && d.live[NameOf(HeadOf(d.live, r.attempt).value)].content == Snapshot(HeadOf(d.live, r.attempt).value)
  {
    if HeadName(r.attempt) in d.live {
      assert HeadBacked(d, d.live, HeadName(r.attempt));
    }
  }

  lemma StartsInFlight(d: Directory, r: Record)
    requires Sound(d) && NoForeignSnapshot(d.live, r)
    requires Load(d.live, r.attempt, Some(r)).Success?
    ensures InFlight(d, HeadOf(d.durable, r.attempt), HeadOf(d.live, r.attempt), r)
  {
    LoadedLatest(d, r);
    if HeadOf(d.live, r.attempt).None? {
      forall n | n in d.live && OfAttempt(n, r.attempt)
        ensures n == NameOf(r)
      {
        assert Tolerated(d.live, n, r.attempt, Some(r));
      }
    }
  }
}
