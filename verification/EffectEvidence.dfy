/**
  What the identities of an attempt stand for: the transaction evidence of a publication request
  determines every lifecycle result and the completed evidence, and an attempt its session and nonce.
 */
module EffectEvidence {
  import opened Wrappers
  import opened Identity
  import opened EffectJournal
  import opened EffectJournalLaws
  import opened EffectProtocol
  import opened EffectSafety
  import opened EffectRequests

  // ---------------------------------------------------------------- transaction evidence

  /** The stream that is hashed to make the transaction evidence. */
  function TransactionStream(session: Digest, before: seq<LifecycleFact>, completed: string,
                             after: seq<LifecycleFact>): seq<char>
  {
    FrameFields([TRANSACTION_DOMAIN] + TransactionFields(session, before, completed, after))
  }

  predicate SizedEvidence(before: seq<LifecycleFact>, completed: string, after: seq<LifecycleFact>) {
    Sized(completed) && Sized(Decimal(|before|)) && Sized(Decimal(|after|))
  }

  predicate SameResults(a: seq<LifecycleFact>, b: seq<LifecycleFact>) {
    |a| == |b| && forall i | 0 <= i < |a| :: a[i].result == b[i].result
  }

  lemma {:induction false} ResultsAt(facts: seq<LifecycleFact>)
    ensures |Results(facts)| == |facts| && forall i | 0 <= i < |facts| :: Results(facts)[i] == facts[i].result
  {
    if facts != [] {
      ResultsAt(facts[1..]);
    }
  }

  lemma ResultsAreSized(facts: seq<LifecycleFact>)
    ensures AllSized(Results(facts))
  {
    ResultsAt(facts);
  }

  lemma FieldsAreSized(session: Digest, before: seq<LifecycleFact>, completed: string, after: seq<LifecycleFact>)
    requires SizedEvidence(before, completed, after)
    ensures AllSized([TRANSACTION_DOMAIN] + TransactionFields(session, before, completed, after))
  {
    hide Results, Decimal;
    ResultsAreSized(before);
    ResultsAreSized(after);
  }

  lemma FieldsDetermine(session: Digest, before: seq<LifecycleFact>, completed: string, after: seq<LifecycleFact>,
                        session': Digest, before': seq<LifecycleFact>, completed': string, after': seq<LifecycleFact>)
    requires TransactionFields(session, before, completed, after)
          == TransactionFields(session', before', completed', after')
    ensures session == session' && SameResults(before, before') && completed == completed' && SameResults(after, after')
  {
    hide Results, Decimal;
    ResultsAt(before);
    ResultsAt(after);
    ResultsAt(before');
    ResultsAt(after');
    var f := TransactionFields(session, before, completed, after);
    var g := TransactionFields(session', before', completed', after');
    assert f[0] == session && f[1] == Decimal(|before|) && g[0] == session' && g[1] == Decimal(|before'|);
    DecimalInjective(|before|, |before'|);
    var n := |before|;
    assert f[2..2 + n] == Results(before) && g[2..2 + n] == Results(before');
    assert f[2 + n] == completed && f[3 + n] == Decimal(|after|);
    assert g[2 + n] == completed' && g[3 + n] == Decimal(|after'|);
    DecimalInjective(|after|, |after'|);
    assert f[4 + n..] == Results(after) && g[4 + n..] == Results(after');
  }

  /**
    Equal transaction evidence has equal sessions, equal results before and after in their order,
    and equal completed evidence, unless the two streams collide.
   */
  lemma TransactionEvidenceInjective(
      cfg: Config, before: seq<LifecycleFact>, completed: string, after: seq<LifecycleFact>,
      cfg': Config, before': seq<LifecycleFact>, completed': string, after': seq<LifecycleFact>)
    requires cfg.sha == cfg'.sha && SizedEvidence(before, completed, after)
    requires SizedEvidence(before', completed', after')
    requires var s := TransactionStream(cfg.session, before, completed, after);
             var s' := TransactionStream(cfg'.session, before', completed', after');
             cfg.sha(s) == cfg.sha(s') ==> s == s'
    requires TransactionEvidence(cfg, before, completed, after)
          == TransactionEvidence(cfg', before', completed', after')
    ensures cfg.session == cfg'.session && SameResults(before, before')
    ensures completed == completed' && SameResults(after, after')
  {
    hide TransactionFields;
    var f := TransactionFields(cfg.session, before, completed, after);
    var f' := TransactionFields(cfg'.session, before', completed', after');
    FieldsAreSized(cfg.session, before, completed, after);
    FieldsAreSized(cfg'.session, before', completed', after');
    var e := TransactionEvidence(cfg, before, completed, after);
    var e' := TransactionEvidence(cfg', before', completed', after');
    assert e[10..] == MakeSessionIdentity(cfg.sha, TRANSACTION_DOMAIN, f);
    assert e'[10..] == MakeSessionIdentity(cfg.sha, TRANSACTION_DOMAIN, f');
    SessionIdentityInjective(cfg.sha, TRANSACTION_DOMAIN, f, TRANSACTION_DOMAIN, f');
    FieldsDetermine(cfg.session, before, completed, after, cfg'.session, before', completed', after');
  }

  // ---------------------------------------------------------------- the requests of a series

  /** The request of a publication is the projection of these results. */
  predicate ProjectsTo(cfg: Config, r: Record, request: string) {
    && r.application.Some? && r.application.value.completedEvidence.Some?
    && var completed := r.application.value.completedEvidence.value;
       request == cfg.project(completed, TransactionEvidence(cfg, r.before, completed, r.after))
  }

  /**
    Over every series, each publication asks for the projection of the completed evidence and of the
    transaction that all lifecycle results of the durable head make.
   */
  lemma PublicationProjectsEvidence(cfg: Config, canonical: string, hs: seq<Happening>, i: nat)
    requires Valid(cfg) && Honest(cfg, Blank(canonical), hs)
    requires var log := After(cfg, Blank(canonical), hs).disk.log; i < |log| && log[i].PublishedState?
    ensures var st := After(cfg, Blank(canonical), hs);
            && st.durable.Some? && ProjectsTo(cfg, st.durable.value, st.disk.log[i].request)
            && |st.durable.value.before| == cfg.beforeTotal && |st.durable.value.after| == cfg.afterTotal
  {
    hide Honest, After, Asks, TransactionEvidence;
    BlankIsSound(cfg, canonical);
    BlankAsksNothing(cfg, canonical);
    SeriesKeepsInvariant(cfg, Blank(canonical), hs);
    SeriesKeepsRequests(cfg, Blank(canonical), hs);
    HeadsFit(cfg, After(cfg, Blank(canonical), hs));
    hide StorageInvariant;
    CompletedHasEvidence(cfg, After(cfg, Blank(canonical), hs).durable.value);
  }

  lemma CompletedHasEvidence(cfg: Config, r: Record)
    requires Fitting(cfg, r) && Whole(r)
    ensures r.application.value.completedEvidence.Some?
    ensures |r.before| == cfg.beforeTotal && |r.after| == cfg.afterTotal
  {
    hide RecordIdentity, CausalShape, StageShape, RetainedTransitionCount;
  }

  /** A request names its transaction. */
  ghost predicate NamesTransaction(cfg: Config, cfg': Config) {
    forall c: string, t: string, c': string, t': string :: cfg.project(c, t) == cfg'.project(c', t') ==> t == t'
  }

  /**
    Two attempts of any two sessions that ever publish the same request had the same session, the same
    lifecycle results on both sides and the same completed evidence, unless the two streams collide.
   */
  lemma RequestDeterminesEvidence(cfg: Config, canonical: string, hs: seq<Happening>, i: nat,
                                  cfg': Config, canonical': string, hs': seq<Happening>, j: nat)
    requires Valid(cfg) && Honest(cfg, Blank(canonical), hs) && Valid(cfg') && Honest(cfg', Blank(canonical'), hs')
    requires cfg.sha == cfg'.sha && NamesTransaction(cfg, cfg')
    requires var log, log' := After(cfg, Blank(canonical), hs).disk.log, After(cfg', Blank(canonical'), hs').disk.log;
             && i < |log| && log[i].PublishedState? && j < |log'| && log'[j].PublishedState?
             && log[i].request == log'[j].request
    requires var r, r' := After(cfg, Blank(canonical), hs).durable, After(cfg', Blank(canonical'), hs').durable;
             r.Some? && r'.Some? ==>
               var c, c' := CompletedEvidence(r.value.application), CompletedEvidence(r'.value.application);
               var s := TransactionStream(cfg.session, r.value.before, c, r.value.after);
               var s' := TransactionStream(cfg'.session, r'.value.before, c', r'.value.after);
               cfg.sha(s) == cfg.sha(s') ==> s == s'
    ensures var r, r' := After(cfg, Blank(canonical), hs).durable, After(cfg', Blank(canonical'), hs').durable;
            && r.Some? && r'.Some? && cfg.session == cfg'.session
            && SameResults(r.value.before, r'.value.before) && SameResults(r.value.after, r'.value.after)
            && r.value.application.Some? && r'.value.application.Some?
            && r.value.application.value.completedEvidence == r'.value.application.value.completedEvidence
  {
    hide Honest, After, TransactionEvidence, TransactionStream;
    PublicationProjectsEvidence(cfg, canonical, hs, i);
    PublicationProjectsEvidence(cfg', canonical', hs', j);
    var r, r' := After(cfg, Blank(canonical), hs).durable.value, After(cfg', Blank(canonical'), hs').durable.value;
    var c, c' := r.application.value.completedEvidence.value, r'.application.value.completedEvidence.value;
    DurableIsSized(cfg, canonical, hs);
    DurableIsSized(cfg', canonical', hs');
    TransactionEvidenceInjective(cfg, r.before, c, r.after, cfg', r'.before, c', r'.after);
  }

  lemma DurableIsSized(cfg: Config, canonical: string, hs: seq<Happening>)
    requires Valid(cfg) && Honest(cfg, Blank(canonical), hs)
    requires var r := After(cfg, Blank(canonical), hs).durable;
             r.Some? && r.value.application.Some? && r.value.application.value.completedEvidence.Some?
    ensures var r := After(cfg, Blank(canonical), hs).durable.value;
            SizedEvidence(r.before, r.application.value.completedEvidence.value, r.after)
  {
    hide Honest, After, Decimal;
    BlankIsSound(cfg, canonical);
    SeriesKeepsInvariant(cfg, Blank(canonical), hs);
    HeadsFit(cfg, After(cfg, Blank(canonical), hs));
    hide StorageInvariant;
    RecordIsSized(cfg, After(cfg, Blank(canonical), hs).durable.value);
  }

  lemma RecordIsSized(cfg: Config, r: Record)
    requires Valid(cfg) && Fitting(cfg, r) && r.application.Some? && r.application.value.completedEvidence.Some?
    ensures SizedEvidence(r.before, r.application.value.completedEvidence.value, r.after)
  {
    hide RecordIdentity, CausalShape, StageShape, RetainedTransitionCount, Decimal;
    DecimalIsShort(|r.before|);
    DecimalIsShort(|r.after|);
  }

  lemma {:induction false} DecimalIsShort(n: nat)
    ensures |Decimal(n)| <= n + 1
  {
    if n >= 10 {
      DecimalIsShort(n / 10);
    }
  }

  // ---------------------------------------------------------------- attempts

  lemma AttemptIs(sha: Sha256, session: Digest, before: nat, after: nat, nonce: Nonce)
    requires Admit(sha, session, before, after, nonce).Success?
    ensures Admit(sha, session, before, after, nonce).value.attempt
         == MakeSessionIdentity(sha, ATTEMPT_DOMAIN, [session, HexText(nonce)])
  {
    hide RecordIdentity, Shape;
  }

  /** Two admissions with one attempt identity are of one session and one nonce, unless the two streams collide. */
  lemma AttemptIdentityInjective(sha: Sha256, session: Digest, before: nat, after: nat, nonce: Nonce,
                                 session': Digest, before': nat, after': nat, nonce': Nonce)
    requires Admit(sha, session, before, after, nonce).Success?
    requires Admit(sha, session', before', after', nonce').Success?
    requires var s := FrameFields([ATTEMPT_DOMAIN, session, HexText(nonce)]);
             var s' := FrameFields([ATTEMPT_DOMAIN, session', HexText(nonce')]);
             sha(s) == sha(s') ==> s == s'
    requires Admit(sha, session, before, after, nonce).value.attempt
          == Admit(sha, session', before', after', nonce').value.attempt
    ensures session == session' && nonce == nonce'
  {
    AttemptIs(sha, session, before, after, nonce);
    AttemptIs(sha, session', before', after', nonce');
    hide Admit, HexText, FrameFields, MakeSessionIdentity;
    AttemptFieldsInjective(sha, session, HexText(nonce), session', HexText(nonce'));
    HexTextInjective(nonce, nonce');
  }

  lemma AttemptFieldsInjective(sha: Sha256, session: Digest, hex: string, session': Digest, hex': string)
    requires |hex| == 64 && |hex'| == 64
    requires var s, s' := FrameFields([ATTEMPT_DOMAIN, session, hex]), FrameFields([ATTEMPT_DOMAIN, session', hex']);
             sha(s) == sha(s') ==> s == s'
    requires MakeSessionIdentity(sha, ATTEMPT_DOMAIN, [session, hex])
          == MakeSessionIdentity(sha, ATTEMPT_DOMAIN, [session', hex'])
    ensures session == session' && hex == hex'
  {
    var f, f' := [session, hex], [session', hex'];
    assert [ATTEMPT_DOMAIN] + f == [ATTEMPT_DOMAIN, session, hex];
    assert [ATTEMPT_DOMAIN] + f' == [ATTEMPT_DOMAIN, session', hex'];
    hide FrameFields, MakeSessionIdentity;
    SessionIdentityInjective(sha, ATTEMPT_DOMAIN, f, ATTEMPT_DOMAIN, f');
    assert f[0] == session && f'[0] == session' && f[1] == hex && f'[1] == hex';
  }
}
