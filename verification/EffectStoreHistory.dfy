/**
  What any series of appends, input/output errors, kills and crashes makes of the journal
  store: the heads of an attempt are one successor chain, and a confirmed record is never lost.
 */
module EffectStoreHistory {
  import opened Wrappers
  import opened Identity
  import opened EffectJournal
  import opened EffectStore

  // ---------------------------------------------------------------- one interrupted append

  /** A crash inside an append leaves one of three heads; only an undurable one can be lost. */
  lemma CrashStaysInFlight(d: Directory, after: Entries, base: Option<Record>, latest: Option<Record>, r: Record)
    requires InFlight(d, base, latest, r) && Crash(d, after)
    ensures Sound(Directory(after, after)) && Settled(Directory(after, after))
    ensures HeadOf(after, r.attempt) == HeadOf(d.live, r.attempt)
            || HeadOf(after, r.attempt) == HeadOf(d.durable, r.attempt)
    ensures HeadOf(after, r.attempt) == latest || HeadOf(after, r.attempt) == Some(r) ==>
              InFlight(Directory(after, after), latest, latest, r)
    ensures HeadOf(after, r.attempt) == base || HeadOf(after, r.attempt) == latest
            || HeadOf(after, r.attempt) == Some(r)
  {
    CrashKeepsSound(d, after);
    assert Fate(d, NameOf(r), after);
    assert NameOf(r) in d.live ==> SnapshotRight(d.live, NameOf(r));
    assert NameOf(r) in d.durable ==> SnapshotRight(d.durable, NameOf(r));
    if latest.None? {
      NothingElseAppears(d, after, r);
    }
  }

  lemma NothingElseAppears(d: Directory, after: Entries, r: Record)
    requires Sound(d) && OnlySnapshot(d.live, r) && OnlySnapshot(d.durable, r) && Crash(d, after)
    ensures OnlySnapshot(after, r)
  {
    forall n | n in after && OfAttempt(n, r.attempt)
      ensures n == NameOf(r)
    {
      assert Fate(d, n, after);
    }
  }

  /** An exact retry is accepted, the headless sequence-zero case included. */
  lemma RetryIsAccepted(d: Directory, base: Option<Record>, latest: Option<Record>, r: Record)
    requires InFlight(d, base, latest, r) && Distinct(latest, r) && (Follows(latest, r) || latest == Some(r))
    ensures Accepts(d.live, r)
  {
    if HeadName(r.attempt) in d.live {
      SoundHeadLoads(d, r.attempt, Some(r));
    } else {
      HeadlessIsTolerated(d, r);
    }
  }

  lemma HeadlessIsTolerated(d: Directory, r: Record)
    requires Sound(d) && OnlySnapshot(d.live, r) && HeadName(r.attempt) !in d.live
    ensures Load(d.live, r.attempt, Some(r)) == Success(None)
  {
    forall n | n in d.live
      ensures Tolerated(d.live, n, r.attempt, Some(r))
    {
      if OfAttempt(n, r.attempt) {
        assert SnapshotRight(d.live, n);
      }
    }
  }

  /** What a plain load says after an interruption of an append. */
  lemma LoadAfterCrash(d: Directory, base: Option<Record>, latest: Option<Record>, r: Record)
    requires InFlight(d, base, latest, r)
    ensures latest.Some? ==>
              Load(d.live, r.attempt, None) == Success(latest) || Load(d.live, r.attempt, None) == Success(Some(r))
    ensures latest.None? ==>
              match Load(d.live, r.attempt, None)
              case Success(found) => found == None || found == Some(r)
              case Failure(e) => e == StoreCorrupt && HeadName(r.attempt) !in d.live && NameOf(r) in d.live
    ensures latest.None? && HeadName(r.attempt) !in d.live && NameOf(r) in d.live ==>
              Load(d.live, r.attempt, None) == Failure(StoreCorrupt)
              && forall other: Record :: other.attempt == r.attempt && NameOf(other) != NameOf(r) ==>
                   Load(d.live, r.attempt, Some(other)) == Failure(StoreCorrupt)
  {
    if HeadName(r.attempt) in d.live {
      SoundHeadLoads(d, r.attempt, None);
    } else if NameOf(r) in d.live {
      assert !Tolerated(d.live, NameOf(r), r.attempt, None);
      forall other: Record | other.attempt == r.attempt && NameOf(other) != NameOf(r)
        ensures Load(d.live, r.attempt, Some(other)) == Failure(StoreCorrupt)
      {
        assert !Tolerated(d.live, NameOf(r), r.attempt, Some(other));
      }
    }
  }

  /** The live head is durable, or the direct successor of the durable one. */
  predicate Consecutive(d: Directory, attempt: Digest) {
    var live, durable := HeadOf(d.live, attempt), HeadOf(d.durable, attempt);
    live == durable || (live.Some? && Follows(durable, live.value) && Distinct(durable, live.value))
  }

  /**
    A crash at any point of an append, from any directory in which the live head need not be
    durable.  If the crash does not lose the head that the append found, the retry of the
    append is accepted.  If it does, the retry of the lost record is, exactly unless that
    record was the first and a snapshot of the attempt besides it survived.
   */
  lemma CrashDuringAppend(start: Directory, d: Directory, after: Entries, r: Record)
    requires Sound(start) && Consecutive(start, r.attempt) && Accepts(start.live, r)
    requires InFlight(d, HeadOf(start.durable, r.attempt), HeadOf(start.live, r.attempt), r) && Crash(d, after)
    ensures Sound(Directory(after, after)) && Settled(Directory(after, after))
    ensures var base, latest := HeadOf(start.durable, r.attempt), HeadOf(start.live, r.attempt);
            var head := HeadOf(after, r.attempt);
            if head == latest || head == Some(r) then
              && Accepts(after, r)
              && (latest.Some? ==> Load(after, r.attempt, None) == Success(head))
              && (latest.None? && head.None? && NameOf(r) in after ==>
                    Load(after, r.attempt, None) == Failure(StoreCorrupt))
            else
              && head == base && latest.Some?
              && (Accepts(after, latest.value) <==> base.Some? || OnlySnapshot(after, latest.value))
  {
    var base, latest := HeadOf(start.durable, r.attempt), HeadOf(start.live, r.attempt);
    var head := HeadOf(after, r.attempt);
    CrashStaysInFlight(d, after, base, latest, r);
    if head == latest || head == Some(r) {
      RetryIsAccepted(Directory(after, after), latest, latest, r);
      LoadAfterCrash(Directory(after, after), latest, latest, r);
      if HeadName(r.attempt) in after {
        SoundHeadLoads(Directory(after, after), r.attempt, None);
      }
    } else {
      HeadSurvives(d, after, r.attempt);
      LostHeadRetry(after, base, latest.value);
    }
  }

  /** The snapshot of a live head is durable, and survives every crash. */
  lemma HeadSurvives(d: Directory, after: Entries, attempt: Digest)
    requires Sound(d) && Crash(d, after) && HeadOf(d.live, attempt).Some?
    ensures var h := HeadOf(d.live, attempt).value; h.attempt == attempt && NoForeignSnapshot(after, h)
  {
    var h := HeadOf(d.live, attempt).value;
    assert HeadBacked(d, d.live, HeadName(attempt));
    assert Fate(d, NameOf(h), after);
    assert SnapshotRight(d.live, NameOf(h));
  }

  /** The retry of a record whose head was lost. */
  lemma LostHeadRetry(after: Entries, base: Option<Record>, lost: Record)
    requires Sound(Directory(after, after)) && HeadOf(after, lost.attempt) == base
    requires Follows(base, lost) && Distinct(base, lost) && NoForeignSnapshot(after, lost)
    ensures Accepts(after, lost) <==> base.Some? || OnlySnapshot(after, lost)
  {
    var d := Directory(after, after);
    if HeadName(lost.attempt) in after {
      SoundHeadLoads(d, lost.attempt, Some(lost));
    } else if OnlySnapshot(after, lost) {
      HeadlessIsTolerated(d, lost);
    } else {
      var n :| n in after && OfAttempt(n, lost.attempt) && n != NameOf(lost);
      assert !Tolerated(after, n, lost.attempt, Some(lost));
    }
  }

  // ---------------------------------------------------------------- any series of them

  /**
    What can happen to a directory: an append that is stopped anywhere (a kill, an error) or
    returns, the removal of temporary files by an error path, and a crash of the machine.
   */
  datatype StoreStep = Appending(r: Record, confirmed: bool) | Tidied | Crashed

  ghost predicate StepLeaves(d: Directory, e: Directory, s: StoreStep) {
    match s
    case Appending(r, confirmed) => AppendLeaves(d, e, r, confirmed)
    case Tidied => SameNames(d.live, e.live) && e.durable == d.durable
    case Crashed => e.live == e.durable && Crash(d, e.live)
  }

  ghost predicate Series(ds: seq<Directory>, steps: seq<StoreStep>) {
    && |ds| == |steps| + 1 && Sound(ds[0])
    && forall i | 0 <= i < |steps| :: StepLeaves(ds[i], ds[i + 1], steps[i])
  }

  /** Records of one attempt, each the successor of the one before, from sequence zero. */
  predicate IsChain(attempt: Digest, chain: seq<Record>) {
    forall i | 0 <= i < |chain| :: chain[i].attempt == attempt && FollowsChain(chain, i)
  }

  predicate FollowsChain(chain: seq<Record>, i: nat)
    requires i < |chain|
  {
    Follows(LastOf(chain[..i]), chain[i]) && Distinct(LastOf(chain[..i]), chain[i])
  }

  function LastOf(chain: seq<Record>): Option<Record> {
    if chain == [] then None else Some(chain[|chain| - 1])
  }

  /** The chain that a directory stands for; all but at most the last record are durable. */
  predicate StandsFor(d: Directory, attempt: Digest, chain: seq<Record>, kept: nat) {
    && Sound(d) && IsChain(attempt, chain) && |chain| - 1 <= kept <= |chain|
    && HeadOf(d.live, attempt) == LastOf(chain) && HeadOf(d.durable, attempt) == LastOf(chain[..kept])
  }

  lemma ChainIsNumbered(attempt: Digest, chain: seq<Record>, i: nat)
    requires IsChain(attempt, chain) && i < |chain|
    ensures chain[i].sequence == i
  {
    assert FollowsChain(chain, i);
    if i > 0 {
      ChainIsNumbered(attempt, chain, i - 1);
      assert chain[..i][i - 1] == chain[i - 1];
    }
  }

  lemma ChainExtends(attempt: Digest, chain: seq<Record>, r: Record)
    requires IsChain(attempt, chain) && r.attempt == attempt && Follows(LastOf(chain), r) && Distinct(LastOf(chain), r)
    ensures IsChain(attempt, chain + [r]) && LastOf(chain + [r]) == Some(r)
  {
    hide Follows, Distinct;
    var longer := chain + [r];
    assert longer[..|chain|] == chain;
    forall i | 0 <= i < |longer|
      ensures longer[i].attempt == attempt && FollowsChain(longer, i)
    {
      if i < |chain| {
        assert longer[..i] == chain[..i] && longer[i] == chain[i];
        assert FollowsChain(chain, i);
      }
    }
  }

  lemma ChainShortens(attempt: Digest, chain: seq<Record>)
    requires IsChain(attempt, chain) && chain != []
    ensures IsChain(attempt, chain[..|chain| - 1])
  {
    hide Follows, Distinct;
    var shorter := chain[..|chain| - 1];
    forall i | 0 <= i < |shorter|
      ensures shorter[i].attempt == attempt && FollowsChain(shorter, i)
    {
      assert shorter[..i] == chain[..i] && FollowsChain(chain, i);
    }
  }

  /** An append of one attempt moves no head of another, but may make it durable. */
  lemma OtherHeads(d: Directory, e: Directory, attempt: Digest, other: Digest)
    requires Sound(d) && Sound(e) && OthersKept(d, e, attempt) && other != attempt
    ensures HeadOf(e.live, other) == HeadOf(d.live, other)
    ensures HeadOf(e.durable, other) == HeadOf(d.durable, other) || HeadOf(e.durable, other) == HeadOf(d.live, other)
  {
    var n := HeadName(other);
    assert KeptEntry(d, e, n);
    if n in d.live {
      assert HeadBacked(d, d.live, n);
      assert KeptEntry(d, e, SnapshotName(other, d.live[n].content.sequence, d.live[n].content.identity));
    }
    if n in d.durable {
      assert HeadBacked(d, d.durable, n);
      assert KeptEntry(d, e, SnapshotName(other, d.durable[n].content.sequence, d.durable[n].content.identity));
    }
  }

  lemma StepKeepsChain(d: Directory, e: Directory, s: StoreStep, attempt: Digest, chain: seq<Record>, kept: nat)
    returns (next: seq<Record>, nextKept: nat)
    requires StandsFor(d, attempt, chain, kept) && StepLeaves(d, e, s)
    ensures StandsFor(e, attempt, next, nextKept) && kept <= nextKept && next[..kept] == chain[..kept]
    ensures s.Appending? && s.confirmed && s.r.attempt == attempt ==> nextKept == |next| && LastOf(next) == Some(s.r)
    ensures next == chain || (s.Appending? && next == chain + [s.r])
            || (s.Crashed? && chain != [] && next == chain[..|chain| - 1])
  {
    hide IsChain, Follows, SuccessorAccepts, OthersKept, Crash, HeadOf;
    assert chain[..|chain|] == chain;
    next := chain;
    match s {
      case Crashed =>
        CrashKeepsSound(d, e.live);
        if HeadOf(e.live, attempt) != LastOf(chain) {
          ChainShortens(attempt, chain);
          next := chain[..|chain| - 1];
        }
      case Tidied =>
        SoundThroughTemporary(d, e.live);
        SameNamesSameHead(d.live, e.live, attempt);
      case Appending(r, confirmed) =>
        if !Accepts(d.live, r) {
          SameNamesSameHead(d.live, e.live, attempt);
        } else if r.attempt != attempt {
          OtherHeads(d, e, r.attempt, attempt);
        } else if HeadOf(e.live, attempt) != LastOf(chain) {
          ChainExtends(attempt, chain, r);
          next := chain + [r];
          assert next[..|chain|] == chain;
        }
    }
    assert next[..|next|] == next;
    nextKept := if HeadOf(e.durable, attempt) == LastOf(next) then |next|
                else if |next| > |chain| then |chain| else kept;
  }

  predicate Confirms(s: StoreStep, attempt: Digest) {
    s.Appending? && s.confirmed && s.r.attempt == attempt
  }

  /** The chain of every directory of a series; a durable record stays at its place in all later ones. */
  predicate ChainsOf(ds: seq<Directory>, steps: seq<StoreStep>, attempt: Digest, chains: seq<seq<Record>>,
                     kept: seq<nat>)
    requires |ds| == |steps| + 1
  {
    && |chains| == |ds| && |kept| == |ds|
    && (forall i | 0 <= i < |ds| :: StandsFor(ds[i], attempt, chains[i], kept[i]))
    && (forall i | 0 <= i < |steps| :: KeepsConfirmed(steps[i], attempt, chains[i], kept[i], chains[i + 1],
                                                      kept[i + 1]))
  }

  predicate KeepsConfirmed(s: StoreStep, attempt: Digest, chain: seq<Record>, kept: nat, next: seq<Record>,
                           nextKept: nat)
  {
    && kept <= nextKept <= |next| && kept <= |chain| && next[..kept] == chain[..kept]
    && (Confirms(s, attempt) ==> nextKept == |next| && LastOf(next) == Some(s.r))
  }

  lemma {:induction false} SeriesHasChains(ds: seq<Directory>, steps: seq<StoreStep>, attempt: Digest)
    returns (chains: seq<seq<Record>>, kept: seq<nat>)
    requires Series(ds, steps) && HeadOf(ds[0].live, attempt).None? && HeadOf(ds[0].durable, attempt).None?
    ensures ChainsOf(ds, steps, attempt, chains, kept)
    decreases |steps|
  {
    hide StandsFor, StepLeaves, IsChain, HeadOf;
    if steps == [] {
      chains, kept := [[]], [0];
      assert StandsFor(ds[0], attempt, [], 0) by { EmptyChain(ds[0], attempt); }
    } else {
      var last := |steps| - 1;
      assert Series(ds[..|ds| - 1], steps[..last]);
      chains, kept := SeriesHasChains(ds[..|ds| - 1], steps[..last], attempt);
      assert StepLeaves(ds[last], ds[last + 1], steps[last]);
      assert ds[..|ds| - 1][last] == ds[last];
      var next, nextKept := StepKeepsChain(ds[last], ds[last + 1], steps[last], attempt, chains[last], kept[last]);
      assert KeepsConfirmed(steps[last], attempt, chains[last], kept[last], next, nextKept) by {
        StandingIsBounded(ds[last], attempt, chains[last], kept[last]);
        StandingIsBounded(ds[last + 1], attempt, next, nextKept);
      }
      chains, kept := chains + [next], kept + [nextKept];
    }
  }

  lemma EmptyChain(d: Directory, attempt: Digest)
    requires Sound(d) && HeadOf(d.live, attempt).None? && HeadOf(d.durable, attempt).None?
    ensures StandsFor(d, attempt, [], 0)
  {}

  lemma StandingIsBounded(d: Directory, attempt: Digest, chain: seq<Record>, kept: nat)
    requires StandsFor(d, attempt, chain, kept)
    ensures kept <= |chain|
  {}

  lemma {:induction false} ConfirmedPrefixStays(ds: seq<Directory>, steps: seq<StoreStep>, attempt: Digest,
                                                chains: seq<seq<Record>>, kept: seq<nat>, i: nat, j: nat)
    requires |ds| == |steps| + 1 && ChainsOf(ds, steps, attempt, chains, kept) && i <= j < |ds|
    ensures kept[i] <= |chains[i]| && kept[i] <= kept[j] <= |chains[j]| && chains[j][..kept[i]] == chains[i][..kept[i]]
    decreases j
  {
    hide StandsFor;
    assert kept[j] <= |chains[j]| by { StandingIsBounded(ds[j], attempt, chains[j], kept[j]); }
    if i < j {
      ConfirmedPrefixStays(ds, steps, attempt, chains, kept, i, j - 1);
      assert KeepsConfirmed(steps[j - 1], attempt, chains[j - 1], kept[j - 1], chains[j], kept[j]);
      assert chains[j][..kept[i]] == chains[j][..kept[j - 1]][..kept[i]];
      assert chains[j - 1][..kept[i]] == chains[j - 1][..kept[j - 1]][..kept[i]];
    }
  }

  /**
    After any series from a directory without the attempt, the live head ends a successor chain
    from sequence zero; the durable head ends it or is the record before; every head that was
    ever durable, and every record whose append has returned, is in the chain, at the place of
    its sequence number.
   */
  lemma HeadsFormOneChain(ds: seq<Directory>, steps: seq<StoreStep>, attempt: Digest, j: nat)
    returns (chain: seq<Record>)
    requires Series(ds, steps) && HeadOf(ds[0].live, attempt).None? && HeadOf(ds[0].durable, attempt).None? && j < |ds|
    ensures Sound(ds[j]) && Consecutive(ds[j], attempt)
    ensures IsChain(attempt, chain) && HeadOf(ds[j].live, attempt) == LastOf(chain)
    ensures forall i | 0 <= i <= j && HeadOf(ds[i].durable, attempt).Some? ::
              InChain(HeadOf(ds[i].durable, attempt).value, chain)
    ensures forall i | 0 <= i < j && Confirms(steps[i], attempt) :: InChain(steps[i].r, chain)
  {
    hide Follows, Distinct, HeadOf, StepLeaves, IsChain;
    var chains, kept := SeriesHasChains(ds, steps, attempt);
    chain := chains[j];
    assert StandsFor(ds[j], attempt, chains[j], kept[j]);
    StandingIsConsecutive(ds[j], attempt, chains[j], kept[j]);
    forall i | 0 <= i <= j && HeadOf(ds[i].durable, attempt).Some?
      ensures InChain(HeadOf(ds[i].durable, attempt).value, chain)
    {
      DurableStays(ds, steps, attempt, chains, kept, i, j);
    }
    forall i | 0 <= i < j && Confirms(steps[i], attempt)
      ensures InChain(steps[i].r, chain)
    {
      assert KeepsConfirmed(steps[i], attempt, chains[i], kept[i], chains[i + 1], kept[i + 1]);
      assert StandsFor(ds[i + 1], attempt, chains[i + 1], kept[i + 1]);
      assert chains[i + 1][..kept[i + 1]] == chains[i + 1];
      DurableStays(ds, steps, attempt, chains, kept, i + 1, j);
    }
  }

  predicate InChain(r: Record, chain: seq<Record>) {
    r.sequence < |chain| && chain[r.sequence] == r
  }

  lemma DurableStays(ds: seq<Directory>, steps: seq<StoreStep>, attempt: Digest,
                     chains: seq<seq<Record>>, kept: seq<nat>, i: nat, j: nat)
    requires |ds| == |steps| + 1 && ChainsOf(ds, steps, attempt, chains, kept) && i <= j < |ds|
    requires HeadOf(ds[i].durable, attempt).Some?
    ensures InChain(HeadOf(ds[i].durable, attempt).value, chains[j])
  {
    hide Follows, Distinct, HeadOf, IsChain;
    assert StandsFor(ds[i], attempt, chains[i], kept[i]);
    ConfirmedPrefixStays(ds, steps, attempt, chains, kept, i, j);
    var n := kept[i] - 1;
    ChainIsNumbered(attempt, chains[i], n);
    assert chains[i][..kept[i]][n] == chains[i][n];
    assert chains[j][n] == chains[j][..kept[i]][n];
  }

  lemma StandingIsConsecutive(d: Directory, attempt: Digest, chain: seq<Record>, kept: nat)
    requires StandsFor(d, attempt, chain, kept)
    ensures Consecutive(d, attempt)
  {
    hide Follows, Distinct, HeadOf, Sound;
    if chain != [] {
      assert FollowsChain(chain, |chain| - 1);
    }
  }

  // ---------------------------------------------------------------- the first append

  lemma FirstIsAccepted(r: Record)
    requires Follows(None, r)
    ensures Sound(Directory(map[], map[])) && HeadOf(map[], r.attempt) == None && Accepts(map[], r)
  {
    assert Load(map[], r.attempt, Some(r)) == Success(None);
  }

  /** A crash inside the first append: the directory loads as corrupt, and the exact retry is accepted. */
  method InterruptFirstAppend(r: Record) returns (store: Store)
    requires Follows(None, r)
    ensures fresh(store) && Series([Directory(map[], map[]), store.dir], [Appending(r, false)])
    ensures HeadName(r.attempt) !in store.dir.live && NameOf(r) in store.dir.durable
    ensures Load(store.dir.live, r.attempt, None) == Failure(StoreCorrupt) && Accepts(store.dir.live, r)
  {
    store := new Store(Directory(map[], map[]), LINK_CALLS);
    FirstIsAccepted(r);
    var result := store.Append(r);
    assert HeadOf(store.dir.live, r.attempt) == None;
    if HeadName(r.attempt) in store.dir.live {
      SoundHeadLoads(store.dir, r.attempt, None);
    }
    assert NameOf(r) in store.dir.durable;
    LoadAfterCrash(store.dir, None, None, r);
    RetryIsAccepted(store.dir, None, None, r);
  }

  lemma SecondIsAccepted(d: Directory, r0: Record, r1: Record)
    requires Sound(d) && OnlySnapshot(d.live, r0) && HeadOf(d.live, r0.attempt) == Some(r0)
    requires Follows(Some(r0), r1) && r0.identity != r1.identity
    ensures r1.attempt == r0.attempt && Accepts(d.live, r1)
  {
    SoundHeadLoads(d, r0.attempt, Some(r1));
  }

  lemma DurableHeadIsReadable(d: Directory, attempt: Digest)
    requires Sound(d) && HeadName(attempt) in d.durable
    ensures HeadOf(d.durable, attempt).Some?
  {
    assert HeadBacked(d, d.durable, HeadName(attempt));
    var s := SnapshotName(attempt, d.durable[HeadName(attempt)].content.sequence,
                          d.durable[HeadName(attempt)].content.identity);
    assert SnapshotRight(d.durable, s);
  }

  lemma LinkMaySurvive(d: Directory, r: Record, after: Entries)
    requires NameOf(r) in d.live && after == d.durable[NameOf(r) := d.live[NameOf(r)]]
    ensures Crash(d, after)
  {
    forall n: Name
      ensures Fate(d, n, after)
    {
      assert n != NameOf(r) ==> Kept(d.durable, n, after);
    }
  }

  lemma PairIsStuck(after: Entries, r0: Record, r1: Record)
    requires HeadName(r0.attempt) !in after && NameOf(r0) in after && NameOf(r1) in after
    requires r1.attempt == r0.attempt && NameOf(r0) != NameOf(r1)
    ensures forall pending: Option<Record> :: Load(after, r0.attempt, pending) == Failure(StoreCorrupt)
    ensures forall r: Record :: r.attempt == r0.attempt ==> !Accepts(after, r)
  {
    forall pending: Option<Record>
      ensures Load(after, r0.attempt, pending) == Failure(StoreCorrupt)
    {
      assert !Tolerated(after, NameOf(r0), r0.attempt, pending) || !Tolerated(after, NameOf(r1), r0.attempt, pending);
    }
  }

  /**
    The first head, never made durable, is lost by a crash while the second append has linked
    its snapshot: from then on the attempt loads as corrupt, and no record at all is accepted.
   */
  method LoseFirstHead(r0: Record, r1: Record) returns (store: Store, ghost ds: seq<Directory>)
    requires Follows(None, r0) && Follows(Some(r0), r1) && r0.identity != r1.identity
    ensures fresh(store) && |ds| == 4 && ds[0] == Directory(map[], map[]) && ds[3] == store.dir
    ensures Series(ds, [Appending(r0, false), Appending(r1, false), Crashed])
    ensures forall pending: Option<Record> :: Load(store.dir.live, r0.attempt, pending) == Failure(StoreCorrupt)
    ensures forall r: Record :: r.attempt == r0.attempt ==> !Accepts(store.dir.live, r)
  {
    hide Crash, SuccessorAccepts, OthersKept, Load, Accepts, HeadOf;
    store := new Store(Directory(map[], map[]), APPEND_CALLS - 1);
    FirstIsAccepted(r0);
    ds := [store.dir];
    var result := store.Append(r0);
    ds := ds + [store.dir];
    ghost var d := store.dir;
    assert HeadOf(d.durable, r0.attempt) == None && HeadOf(d.live, r0.attempt) == Some(r0);
    SecondIsAccepted(d, r0, r1);
    store.budget := LINK_CALLS - 2;
    result := store.Append(r1);
    ds := ds + [store.dir];
    var after := store.dir.durable[NameOf(r1) := store.dir.live[NameOf(r1)]];
    if HeadName(r0.attempt) in store.dir.durable {
      DurableHeadIsReadable(store.dir, r0.attempt);
    }
    LinkMaySurvive(store.dir, r1, after);
    PairIsStuck(after, r0, r1);
    store.dir := Directory(after, after);
    ds := ds + [store.dir];
  }
}
