/**
  The writer and the reader of the codec, byte by byte, proved against the formats.
 */
module EffectCodecStreams {
  import opened Wrappers
  import opened Identity
  import opened EffectJournal
  import opened Formats
  import opened EffectCodec

  // ---------------------------------------------------------------- shifts by whole bytes

  /** `n >> (8 * k)`. */
  function ShiftRight(n: nat, k: nat): nat {
    if k == 0 then n else ShiftRight(n / 256, k - 1)
  }

  lemma {:induction false} ShiftOnce(n: nat, k: nat)
    ensures ShiftRight(n, k + 1) == ShiftRight(n, k) / 256
    decreases k
  {
    if k > 0 {
      ShiftOnce(n / 256, k - 1);
    }
  }

  lemma {:induction false} ShiftedOut(n: nat, k: nat)
    requires n < Pow256(k)
    ensures ShiftRight(n, k) == 0
    decreases k
  {
    if k > 0 {
      ShiftedOut(n / 256, k - 1);
    }
  }

  /** The next most significant byte. */
  lemma NextByte(n: nat, i: nat)
    requires i < 8
    ensures BigEndian(ShiftRight(n, 7 - i), i + 1)
         == BigEndian(ShiftRight(n, 8 - i), i) + [(ShiftRight(n, 7 - i) % 256) as char]
  {
    ShiftOnce(n, 7 - i);
  }

  // ---------------------------------------------------------------- the writer

  datatype Output = Output(bytes: seq<char>, exceeded: bool)

  /** The output after `data` has been appended, or after giving up. */
  predicate Extends(s: Output, t: Output, data: seq<char>) {
    && |t.bytes| <= MAXIMUM_ENCODING_SIZE
    && (t.exceeded <==> s.exceeded || |s.bytes| + |data| > MAXIMUM_ENCODING_SIZE)
    && (!t.exceeded ==> t.bytes == s.bytes + data)
    && (s.exceeded ==> t.bytes == s.bytes)
  }

  /** One append after another. */
  lemma Chain(s: Output, t: Output, u: Output, data: seq<char>, more: seq<char>)
    requires Extends(s, t, data) && Extends(t, u, more)
    ensures Extends(s, u, data + more)
  {
    assert (s.bytes + data) + more == s.bytes + (data + more);
  }

  lemma Nothing(s: Output)
    requires |s.bytes| <= MAXIMUM_ENCODING_SIZE
    ensures Extends(s, s, [])
  {
    assert s.bytes + [] == s.bytes;
  }

  /** Bytes are appended until they exceed the maximum; that is an exception, and ends the encoding. */
  class Writer {
    var bytes: seq<char>
    var exceeded: bool

    constructor ()
      ensures bytes == [] && !exceeded && Fits()
    {
      bytes, exceeded := [], false;
    }

    ghost function State(): Output
      reads this
    {
      Output(bytes, exceeded)
    }

    predicate Fits()
      reads this
    {
      |bytes| <= MAXIMUM_ENCODING_SIZE
    }

    /** The next bytes are `data`, or the writer has given up. */
    twostate predicate Wrote(data: seq<char>)
      reads this
    {
      Fits() && Extends(old(State()), State(), data)
    }

    method Raw(data: seq<char>)
      requires Fits()
      modifies this
      ensures Wrote(data)
    {
      if exceeded {
        return;
      }
      if |data| + |bytes| > MAXIMUM_ENCODING_SIZE {
        exceeded := true;
      } else {
        bytes := bytes + data;
      }
    }

    method Byte(value: nat)
      requires value < 256
      requires Fits()
      modifies this
      ensures Wrote([value as char])
    {
      Raw([value as char]);
    }

    method Short(value: nat)
      requires value < 65536
      requires Fits()
      modifies this
      ensures Wrote(BigEndian(value, 2))
    {
      assert BigEndian(value, 2) == [(value / 256 % 256) as char, (value % 256) as char] by {
        assert BigEndian(value / 256, 1) == BigEndian(value / 256 / 256, 0) + [(value / 256 % 256) as char];
      }
      Byte(value / 256 % 256);
      Byte(value % 256);
    }

    method Long(value: nat)
      requires value < Pow256(8)
      requires Fits()
      modifies this
      ensures Wrote(BigEndian(value, 8))
    {
      ShiftedOut(value, 8);
      for i := 0 to 8
        invariant exceeded <==> old(exceeded) || |old(bytes)| + i > MAXIMUM_ENCODING_SIZE
        invariant !exceeded ==> bytes == old(bytes) + BigEndian(ShiftRight(value, 8 - i), i)
        invariant (old(exceeded) ==> bytes == old(bytes)) && Fits()
      {
        NextByte(value, i);
        Byte(ShiftRight(value, 7 - i) % 256);
      }
    }

    method Boolean(value: bool)
      requires Fits()
      modifies this
      ensures Wrote(BoolFormat().encode(value))
    {
      assert BigEndian(if value then 1 else 0, 1) == [(if value then 1 else 0) as char];
      Byte(if value then 1 else 0);
    }

    /** The sizes of all texts fit eight bytes, as those of C++ strings do. */
    method Text(value: string)
      requires Sized(value)
      requires Fits()
      modifies this
      ensures Wrote(TextFormat().encode(value))
    {
      if |value| > 0xFFFF_FFFF {
        exceeded := true;
        return;
      }
      Pow256Eight();
      Long(|value|);
      Raw(value);
    }

    method Optional(value: Option<string>)
      requires value.Some? ==> Sized(value.value)
      requires Fits()
      modifies this
      ensures Wrote(OptionalText().encode(value))
    {
      hide BoolFormat, TextFormat;
      Boolean(value.Some?);
      if value.Some? {
        Text(value.value);
      }
    }

    method OptionalDigest(value: Option<Digest>)
      requires Fits()
      modifies this
      ensures Wrote(OptionalFormat(DigestFormat()).encode(value))
    {
      hide BoolFormat, TextFormat;
      Boolean(value.Some?);
      if value.Some? {
        Text(value.value);
      }
    }

    method OptionalCount(value: Option<nat>)
      requires value.Some? ==> value.value < Pow256(8)
      requires Fits()
      modifies this
      ensures Wrote(OptionalFormat(CountFormat()).encode(value))
    {
      hide BoolFormat;
      Boolean(value.Some?);
      if value.Some? {
        Long(value.value);
      }
    }

    method Facts(facts: seq<LifecycleFact>)
      requires |facts| < Pow256(8)
      requires Fits()
      modifies this
      ensures Wrote(ListFormat(FactFormat()).encode(facts))
    {
      hide FactFormat;
      Long(|facts|);
      for i := 0 to |facts|
        invariant var done := CountFormat().encode(|facts|) + EncodeItems(FactFormat(), facts[..i]);
                  exceeded <==> old(exceeded) || |old(bytes)| + |done| > MAXIMUM_ENCODING_SIZE
        invariant !exceeded ==>
                   bytes == old(bytes) + (CountFormat().encode(|facts|) + EncodeItems(FactFormat(), facts[..i]))
        invariant (old(exceeded) ==> bytes == old(bytes)) && Fits()
      {
        ItemsGrow(facts[..i], facts[i]);
        assert facts[..i + 1] == facts[..i] + [facts[i]];
        Fact(facts[i]);
      }
      assert facts[..|facts|] == facts;
    }

    method Fact(fact: LifecycleFact)
      requires Fits()
      modifies this
      ensures Wrote(FactFormat().encode(fact))
    {
      hide BoolFormat, TextFormat;
      Text(fact.result);
      Boolean(fact.succeeded);
    }

    method WriteAuthority(a: Authority)
      requires Fits()
      modifies this
      ensures Wrote(AuthorityFormat().encode(a))
    {
      hide TextFormat, Extends, AuthorityFormat;
      AuthorityBytes(a);
      ghost var s0 := State();
      Text(a.identity);
      ghost var s1 := State();
      Text(a.attempt);
      ghost var s2 := State();
      Chain(s0, s1, s2, TextFormat().encode(a.identity), TextFormat().encode(a.attempt));
      Text(a.session);
      ghost var s3 := State();
      Chain(s0, s2, s3, TextFormat().encode(a.identity) + TextFormat().encode(a.attempt),
            TextFormat().encode(a.session));
      Raw(a.nonce);
      Chain(s0, s3, State(),
            TextFormat().encode(a.identity) + TextFormat().encode(a.attempt) + TextFormat().encode(a.session), a.nonce);
    }

    method WritePosition(p: Position)
      requires Fits() && p.sequence < Pow256(8) && p.beforeTotal < Pow256(8) && p.afterTotal < Pow256(8)
      requires p.activeIndex.Some? ==> p.activeIndex.value < Pow256(8)
      modifies this
      ensures Wrote(PositionFormat().encode(p))
    {
      hide OptionalFormat, DigestFormat, CountFormat, Extends, PositionFormat, BigEndian;
      PositionBytes(p);
      ghost var s0 := State();
      Long(p.sequence);
      ghost var s1 := State();
      OptionalDigest(p.previous);
      ghost var s2 := State();
      ghost var written := BigEndian(p.sequence, 8) + OptionalFormat(DigestFormat()).encode(p.previous);
      Chain(s0, s1, s2, BigEndian(p.sequence, 8), OptionalFormat(DigestFormat()).encode(p.previous));
      Long(p.beforeTotal);
      ghost var s3 := State();
      Chain(s0, s2, s3, written, BigEndian(p.beforeTotal, 8));
      Long(p.afterTotal);
      ghost var s4 := State();
      Chain(s0, s3, s4, written + BigEndian(p.beforeTotal, 8), BigEndian(p.afterTotal, 8));
      Byte(StageCode(p.stage));
      ghost var s5 := State();
      Chain(s0, s4, s5, written + BigEndian(p.beforeTotal, 8) + BigEndian(p.afterTotal, 8),
            [StageCode(p.stage) as char]);
      OptionalCount(p.activeIndex);
      Chain(s0, s5, State(),
            written + BigEndian(p.beforeTotal, 8) + BigEndian(p.afterTotal, 8) + [StageCode(p.stage) as char],
            OptionalFormat(CountFormat()).encode(p.activeIndex));
    }

    method WriteApplication(a: ApplicationFact)
      requires Fits() && Sized(a.receipt) && SizedIfPresent(a.journal) && SizedIfPresent(a.completedEvidence)
      modifies this
      ensures Wrote(ApplicationFactFormat().encode(a))
    {
      hide TextFormat, OptionalText, Extends, ApplicationFactFormat;
      ApplicationBytes(a);
      ghost var s0 := State();
      Text(a.receipt);
      ghost var s1 := State();
      Byte(ApplicationCode(a.outcome));
      ghost var s2 := State();
      Chain(s0, s1, s2, TextFormat().encode(a.receipt), [ApplicationCode(a.outcome) as char]);
      ghost var front := TextFormat().encode(a.receipt) + [ApplicationCode(a.outcome) as char];
      Optional(a.journal);
      ghost var s3 := State();
      Chain(s0, s2, s3, front, OptionalText().encode(a.journal));
      Optional(a.completedEvidence);
      Chain(s0, s3, State(), front + OptionalText().encode(a.journal), OptionalText().encode(a.completedEvidence));
    }

    method WritePublication(p: PublicationFact)
      requires Fits() && Sized(p.receipt) && SizedIfPresent(p.resultingSnapshot)
      modifies this
      ensures Wrote(PublicationFactFormat().encode(p))
    {
      hide TextFormat, OptionalText;
      Text(p.receipt);
      Byte(PublicationCode(p.outcome));
      assert BigEndian(PublicationCode(p.outcome), 1) == [PublicationCode(p.outcome) as char];
      Optional(p.resultingSnapshot);
    }

    method WriteEvidence(e: Evidence)
      requires Fits() && |e.before| < Pow256(8) && |e.after| < Pow256(8)
      requires e.application.Some? ==> ApplicationSized(e.application.value)
      modifies this
      ensures Wrote(EvidenceFormat().encode(e))
    {
      hide ListFormat, FactFormat, ApplicationFactFormat, Extends, OptionalFormat;
      ghost var s0 := State();
      Facts(e.before);
      ghost var s1 := State();
      WriteOptionalApplication(e.application);
      ghost var s2 := State();
      Facts(e.after);
      ghost var application := OptionalFormat(ApplicationFactFormat()).encode(e.application);
      Chain(s1, s2, State(), application, ListFormat(FactFormat()).encode(e.after));
      Chain(s0, s1, State(), ListFormat(FactFormat()).encode(e.before),
            application + ListFormat(FactFormat()).encode(e.after));
    }

    method WriteOptionalApplication(a: Option<ApplicationFact>)
      requires Fits() && (a.Some? ==> ApplicationSized(a.value))
      modifies this
      ensures Wrote(OptionalFormat(ApplicationFactFormat()).encode(a))
    {
      hide ApplicationFactFormat, BoolFormat, Extends;
      ghost var s0 := State();
      Boolean(a.Some?);
      ghost var s1 := State();
      if a.Some? {
        WriteApplication(a.value);
        Chain(s0, s1, State(), BoolFormat().encode(true), ApplicationFactFormat().encode(a.value));
      } else {
        Nothing(s1);
        Chain(s0, s1, s1, BoolFormat().encode(false), []);
      }
    }

    method WritePublishing(p: Publishing)
      requires Fits() && SizedIfPresent(p.transactionEvidence) && SizedIfPresent(p.publicationRequest)
      requires p.publication.Some? ==> PublicationSized(p.publication.value)
      modifies this
      ensures Wrote(PublishingFormat().encode(p))
    {
      hide OptionalText, PublicationFactFormat, Extends, OptionalFormat;
      ghost var s0 := State();
      Optional(p.transactionEvidence);
      ghost var s1 := State();
      Optional(p.publicationRequest);
      ghost var s2 := State();
      WriteOptionalPublication(p.publication);
      ghost var authority := OptionalText().encode(p.transactionEvidence) + OptionalText().encode(p.publicationRequest);
      Chain(s0, s1, s2, OptionalText().encode(p.transactionEvidence), OptionalText().encode(p.publicationRequest));
      Chain(s0, s2, State(), authority, OptionalFormat(PublicationFactFormat()).encode(p.publication));
    }

    method WriteOptionalPublication(p: Option<PublicationFact>)
      requires Fits() && (p.Some? ==> PublicationSized(p.value))
      modifies this
      ensures Wrote(OptionalFormat(PublicationFactFormat()).encode(p))
    {
      hide PublicationFactFormat, BoolFormat, Extends;
      ghost var s0 := State();
      Boolean(p.Some?);
      ghost var s1 := State();
      if p.Some? {
        WritePublication(p.value);
        Chain(s0, s1, State(), BoolFormat().encode(true), PublicationFactFormat().encode(p.value));
      } else {
        Nothing(s1);
        Chain(s0, s1, s1, BoolFormat().encode(false), []);
      }
    }

    method WriteEnding(e: Ending)
      requires Fits() && SizedIfPresent(e.reconciledState)
      modifies this
      ensures Wrote(EndingFormat().encode(e))
    {
      hide OptionalText, Extends, OptionalFormat, OutcomeFormat;
      ghost var s0 := State();
      WriteOptionalOutcome(e.terminalOutcome);
      ghost var s1 := State();
      Optional(e.reconciledState);
      Chain(s0, s1, State(), OptionalFormat(OutcomeFormat()).encode(e.terminalOutcome),
            OptionalText().encode(e.reconciledState));
    }

    method WriteOptionalOutcome(o: Option<OperationOutcome>)
      requires Fits()
      modifies this
      ensures Wrote(OptionalFormat(OutcomeFormat()).encode(o))
    {
      hide BoolFormat, Extends;
      ghost var s0 := State();
      Boolean(o.Some?);
      ghost var s1 := State();
      if o.Some? {
        Byte(OutcomeCode(o.value));
        assert BigEndian(OutcomeCode(o.value), 1) == [OutcomeCode(o.value) as char];
        Chain(s0, s1, State(), BoolFormat().encode(true), OutcomeFormat().encode(o.value));
      } else {
        Nothing(s1);
        Chain(s0, s1, s1, BoolFormat().encode(false), []);
      }
    }
  }

  lemma AuthorityBytes(a: Authority)
    ensures AuthorityFormat().encode(a)
         == TextFormat().encode(a.identity) + TextFormat().encode(a.attempt) + TextFormat().encode(a.session) + a.nonce
  {
    hide TextFormat;
  }

  lemma ApplicationBytes(a: ApplicationFact)
    ensures ApplicationFactFormat().encode(a)
         == TextFormat().encode(a.receipt) + [ApplicationCode(a.outcome) as char]
            + OptionalText().encode(a.journal) + OptionalText().encode(a.completedEvidence)
  {
    hide TextFormat, OptionalText;
    assert BigEndian(ApplicationCode(a.outcome), 1) == [ApplicationCode(a.outcome) as char];
  }

  lemma PositionBytes(p: Position)
    ensures PositionFormat().encode(p)
         == BigEndian(p.sequence, 8) + OptionalFormat(DigestFormat()).encode(p.previous) + BigEndian(p.beforeTotal, 8)
            + BigEndian(p.afterTotal, 8) + [StageCode(p.stage) as char]
            + OptionalFormat(CountFormat()).encode(p.activeIndex)
  {
    hide OptionalFormat, DigestFormat;
    assert BigEndian(StageCode(p.stage), 1) == [StageCode(p.stage) as char];
  }

  predicate SizedIfPresent(s: Option<string>) {
    s.Some? ==> Sized(s.value)
  }

  predicate ApplicationSized(a: ApplicationFact) {
    Sized(a.receipt) && SizedIfPresent(a.journal) && SizedIfPresent(a.completedEvidence)
  }

  predicate PublicationSized(p: PublicationFact) {
    Sized(p.receipt) && SizedIfPresent(p.resultingSnapshot)
  }

  /** The numbers and sizes are those of the 64-bit types that hold them. */
  predicate Representable(r: Record) {
    && r.sequence < SIZE_LIMIT && r.beforeTotal < SIZE_LIMIT && r.afterTotal < SIZE_LIMIT
    && (r.activeIndex.Some? ==> r.activeIndex.value < SIZE_LIMIT)
    && |r.before| < SIZE_LIMIT && |r.after| < SIZE_LIMIT
    && (r.application.Some? ==> ApplicationSized(r.application.value))
    && SizedIfPresent(r.transactionEvidence) && SizedIfPresent(r.publicationRequest)
    && (r.publication.Some? ==> PublicationSized(r.publication.value))
    && SizedIfPresent(r.reconciledState)
  }

  method EncodeRecord(sha: Sha256, r: Record) returns (encoding: Result<seq<char>, JournalError>)
    requires Representable(r)
    ensures encoding == Encode(sha, r)
  {
    hide Checksum, Payload, Extends;
    var output := new Writer();
    WritePayload(output, r);
    EmptyOutput(output.State(), Payload(r));
    if output.exceeded {
      return Failure(InvalidRecord);
    }
    var checked := output.bytes + Checksum(sha, output.bytes);
    if |checked| > MAXIMUM_ENCODING_SIZE {
      return Failure(InvalidRecord);
    }
    return Success(checked);
  }

  lemma EmptyOutput(t: Output, data: seq<char>)
    ensures Extends(Output([], false), t, data) ==>
              (t.exceeded <==> |data| > MAXIMUM_ENCODING_SIZE) && (!t.exceeded ==> t.bytes == data)
  {
    assert [] + data == data;
  }

  method WritePayload(output: Writer, r: Record)
    requires Representable(r) && output.Fits() && output.State() == Output([], false)
    modifies output
    ensures Extends(Output([], false), output.State(), Payload(r))
  {
    Pow256Eight();
    GroupsInOrder(r);
    hide AuthorityFormat, PositionFormat, EvidenceFormat, PublishingFormat, EndingFormat, Payload, Extends, BigEndian;
    var (a, (p, (e, (u, t)))) := ToGroups(r);
    ghost var s0 := output.State();
    output.Raw(MAGIC);
    ghost var s1 := output.State();
    output.Short(ENCODING_VERSION);
    ghost var s2 := output.State();
    Chain(s0, s1, s2, MAGIC, BigEndian(ENCODING_VERSION, 2));
    output.Short(SCHEMA_VERSION);
    ghost var s3 := output.State();
    Chain(s0, s2, s3, MAGIC + BigEndian(ENCODING_VERSION, 2), BigEndian(SCHEMA_VERSION, 2));
    ghost var header := MAGIC + BigEndian(ENCODING_VERSION, 2) + BigEndian(SCHEMA_VERSION, 2);
    output.WriteAuthority(a);
    ghost var s4 := output.State();
    Chain(s0, s3, s4, header, AuthorityFormat().encode(a));
    output.WritePosition(p);
    ghost var s5 := output.State();
    ghost var front := header + AuthorityFormat().encode(a) + PositionFormat().encode(p);
    Chain(s0, s4, s5, header + AuthorityFormat().encode(a), PositionFormat().encode(p));
    output.WriteEvidence(e);
    ghost var s6 := output.State();
    Chain(s0, s5, s6, front, EvidenceFormat().encode(e));
    output.WritePublishing(u);
    ghost var s7 := output.State();
    Chain(s0, s6, s7, front + EvidenceFormat().encode(e), PublishingFormat().encode(u));
    output.WriteEnding(t);
    Chain(s0, s7, output.State(), front + EvidenceFormat().encode(e) + PublishingFormat().encode(u),
          EndingFormat().encode(t));
  }

  lemma GroupsInOrder(r: Record)
    ensures var (a, (p, (e, (u, t)))) := ToGroups(r);
            Payload(r) == MAGIC + BigEndian(ENCODING_VERSION, 2) + BigEndian(SCHEMA_VERSION, 2)
                          + AuthorityFormat().encode(a) + PositionFormat().encode(p) + EvidenceFormat().encode(e)
                          + PublishingFormat().encode(u) + EndingFormat().encode(t)
  {
    hide AuthorityFormat, PositionFormat, EvidenceFormat, PublishingFormat, EndingFormat;
  }

  lemma {:induction false} ItemsGrow(facts: seq<LifecycleFact>, fact: LifecycleFact)
    ensures EncodeItems(FactFormat(), facts + [fact]) == EncodeItems(FactFormat(), facts) + FactFormat().encode(fact)
    decreases |facts|
  {
    hide FactFormat;
    if facts == [] {
      assert (facts + [fact])[1..] == [];
    } else {
      assert (facts + [fact])[1..] == facts[1..] + [fact];
      ItemsGrow(facts[1..], fact);
    }
  }

  // ---------------------------------------------------------------- the reader

  /** What a field read from `before` gives: the value, and the bytes that are left. */
  predicate Took<T(!new, ==)>(f: Format<T>, before: seq<char>, r: Option<T>, after: seq<char>) {
    match f.decode(before)
    case None => r == None
    case Some((x, rest)) => r == Some(x) && after == rest
  }

  class Reader {
    const data: seq<char>
    var offset: nat

    constructor (data: seq<char>)
      ensures this.data == data && Inside() && Rest() == data
    {
      this.data := data;
      offset := 0;
    }

    ghost predicate Inside()
      reads this
    {
      offset <= |data|
    }

    function Rest(): seq<char>
      reads this
      requires Inside()
    {
      data[offset..]
    }

    method Byte() returns (r: Option<nat>)
      requires Inside()
      modifies this
      ensures Inside() && (if old(Rest()) == [] then r == None
                           else r == Some(old(Rest())[0] as int) && Rest() == old(Rest())[1..])
    {
      if offset == |data| {
        return None;
      }
      r := Some(data[offset] as int);
      offset := offset + 1;
    }

    method Number(width: nat) returns (r: Option<nat>)
      requires Inside()
      modifies this
      ensures Inside() && Took(NumberFormat(width), old(Rest()), r, Rest())
    {
      ghost var start := Rest();
      var value := 0;
      for i := 0 to width
        invariant Inside() && i <= |start| && Rest() == start[i..] && value == FromBigEndian(start[..i])
      {
        var next := Byte();
        if next.None? {
          return None;
        }
        assert start[..i + 1][..i] == start[..i];
        value := value * 256 + next.value;
      }
      return Some(value);
    }

    method Boolean() returns (r: Option<bool>)
      requires Inside()
      modifies this
      ensures Inside() && Took(BoolFormat(), old(Rest()), r, Rest())
    {
      hide FromBigEndian;
      var value := Number(1);
      if value.None? || value.value > 1 {
        return None;
      }
      return Some(value.value == 1);
    }

    method Text() returns (r: Option<string>)
      requires Inside()
      modifies this
      ensures Inside() && Took(TextFormat(), old(Rest()), r, Rest())
    {
      hide FromBigEndian;
      var length := Number(8);
      if length.None? || length.value > |data| - offset {
        return None;
      }
      r := Some(data[offset..offset + length.value]);
      assert Rest()[..length.value] == r.value;
      offset := offset + length.value;
    }

    method Count() returns (r: Option<nat>)
      requires Inside()
      modifies this
      ensures Inside() && Took(CountFormat(), old(Rest()), r, Rest())
    {
      hide FromBigEndian;
      var value := Number(8);
      if value.None? || value.value > MAXIMUM_COUNT {
        return None;
      }
      return value;
    }

    method DigestText() returns (r: Option<Digest>)
      requires Inside()
      modifies this
      ensures Inside() && Took(DigestFormat(), old(Rest()), r, Rest())
    {
      hide DecodeText;
      var text := Text();
      if text.None? || !IsHex64(text.value) {
        return None;
      }
      return Some(text.value);
    }

    method NonceBytes() returns (r: Option<Nonce>)
      requires Inside()
      modifies this
      ensures Inside() && Took(NonceFormat(), old(Rest()), r, Rest())
    {
      if |data| - offset < 32 || !Octets(data[offset..offset + 32]) {
        assert |Rest()| >= 32 ==> Rest()[..32] == data[offset..offset + 32];
        return None;
      }
      var bytes: seq<Octet> := data[offset..offset + 32];
      assert Rest()[..32] == bytes;
      if !IsNonce(bytes) {
        return None;
      }
      offset := offset + 32;
      return Some(bytes);
    }

    method OptionalTextField() returns (r: Option<Option<string>>)
      requires Inside()
      modifies this
      ensures Inside() && Took(OptionalText(), old(Rest()), r, Rest())
    {
      hide BoolFormat, TextFormat;
      var present := Boolean();
      if present.None? {
        return None;
      }
      if !present.value {
        return Some(None);
      }
      var text := Text();
      return if text.None? then None else Some(text);
    }

    method OptionalDigestField() returns (r: Option<Option<Digest>>)
      requires Inside()
      modifies this
      ensures Inside() && Took(OptionalFormat(DigestFormat()), old(Rest()), r, Rest())
    {
      hide BoolFormat, DigestFormat;
      var present := Boolean();
      if present.None? {
        return None;
      }
      if !present.value {
        return Some(None);
      }
      var digest := DigestText();
      return if digest.None? then None else Some(digest);
    }

    method OptionalCountField() returns (r: Option<Option<nat>>)
      requires Inside()
      modifies this
      ensures Inside() && Took(OptionalFormat(CountFormat()), old(Rest()), r, Rest())
    {
      hide BoolFormat, CountFormat;
      var present := Boolean();
      if present.None? {
        return None;
      }
      if !present.value {
        return Some(None);
      }
      var count := Count();
      return if count.None? then None else Some(count);
    }

    method StageField() returns (r: Option<Stage>)
      requires Inside()
      modifies this
      ensures Inside() && Took(StageFormat(), old(Rest()), r, Rest())
    {
      hide FromBigEndian;
      var code := Number(1);
      return if code.None? then None else StageOf(code.value);
    }

    method FactField() returns (r: Option<LifecycleFact>)
      requires Inside()
      modifies this
      ensures Inside() && Took(FactFormat(), old(Rest()), r, Rest())
    {
      hide DigestFormat, BoolFormat;
      var result := DigestText();
      if result.None? {
        return None;
      }
      var succeeded := Boolean();
      if succeeded.None? {
        return None;
      }
      return Some(LifecycleFact(result.value, succeeded.value));
    }

    method FactList() returns (r: Option<seq<LifecycleFact>>)
      requires Inside()
      modifies this
      ensures Inside() && Took(ListFormat(FactFormat()), old(Rest()), r, Rest())
    {
      hide FactFormat, CountFormat;
      var count := Count();
      if count.None? {
        return None;
      }
      ghost var start := Rest();
      var facts: seq<LifecycleFact> := [];
      NothingPrepended(DecodeItems(FactFormat(), count.value, start));
      for i := 0 to count.value
        invariant Inside() && |facts| == i
        invariant DecodeItems(FactFormat(), count.value, start)
                  == PrependItems(facts, DecodeItems(FactFormat(), count.value - i, Rest()))
      {
        var fact := FactField();
        if fact.None? {
          return None;
        }
        PrependOneItem(facts, fact.value, DecodeItems(FactFormat(), count.value - i - 1, Rest()));
        facts := facts + [fact.value];
      }
      assert facts + [] == facts;
      return Some(facts);
    }

    method ApplicationField() returns (r: Option<ApplicationFact>)
      requires Inside()
      modifies this
      ensures Inside() && Took(ApplicationFactFormat(), old(Rest()), r, Rest())
    {
      hide TextFormat, OptionalText, FromBigEndian;
      var receipt := Text();
      if receipt.None? {
        return None;
      }
      var code := Number(1);
      if code.None? || ApplicationOf(code.value).None? {
        return None;
      }
      var journal := OptionalTextField();
      if journal.None? {
        return None;
      }
      var completed := OptionalTextField();
      if completed.None? {
        return None;
      }
      return Some(ApplicationFact(receipt.value, ApplicationOf(code.value).value, journal.value, completed.value));
    }

    method OptionalApplicationField() returns (r: Option<Option<ApplicationFact>>)
      requires Inside()
      modifies this
      ensures Inside() && Took(OptionalFormat(ApplicationFactFormat()), old(Rest()), r, Rest())
    {
      hide BoolFormat, ApplicationFactFormat;
      var present := Boolean();
      if present.None? {
        return None;
      }
      if !present.value {
        return Some(None);
      }
      var application := ApplicationField();
      return if application.None? then None else Some(application);
    }

    method PublicationField() returns (r: Option<PublicationFact>)
      requires Inside()
      modifies this
      ensures Inside() && Took(PublicationFactFormat(), old(Rest()), r, Rest())
    {
      hide TextFormat, OptionalText, FromBigEndian;
      var receipt := Text();
      if receipt.None? {
        return None;
      }
      var code := Number(1);
      if code.None? || PublicationOf(code.value).None? {
        return None;
      }
      var resulting := OptionalTextField();
      if resulting.None? {
        return None;
      }
      return Some(PublicationFact(receipt.value, PublicationOf(code.value).value, resulting.value));
    }

    method OptionalPublicationField() returns (r: Option<Option<PublicationFact>>)
      requires Inside()
      modifies this
      ensures Inside() && Took(OptionalFormat(PublicationFactFormat()), old(Rest()), r, Rest())
    {
      hide BoolFormat, PublicationFactFormat;
      var present := Boolean();
      if present.None? {
        return None;
      }
      if !present.value {
        return Some(None);
      }
      var publication := PublicationField();
      return if publication.None? then None else Some(publication);
    }

    method OptionalOutcomeField() returns (r: Option<Option<OperationOutcome>>)
      requires Inside()
      modifies this
      ensures Inside() && Took(OptionalFormat(OutcomeFormat()), old(Rest()), r, Rest())
    {
      hide BoolFormat, FromBigEndian;
      var present := Boolean();
      if present.None? {
        return None;
      }
      if !present.value {
        return Some(None);
      }
      var code := Number(1);
      if code.None? || OutcomeOf(code.value).None? {
        return None;
      }
      return Some(OutcomeOf(code.value));
    }

    method AuthorityFields() returns (r: Option<Authority>)
      requires Inside()
      modifies this
      ensures Inside() && Took(AuthorityFormat(), old(Rest()), r, Rest())
    {
      hide DigestFormat, NonceFormat;
      var identity := DigestText();
      if identity.None? {
        return None;
      }
      var attempt := DigestText();
      if attempt.None? {
        return None;
      }
      var session := DigestText();
      if session.None? {
        return None;
      }
      var nonce := NonceBytes();
      if nonce.None? {
        return None;
      }
      return Some(Authority(identity.value, attempt.value, session.value, nonce.value));
    }

    method PositionFields() returns (r: Option<Position>)
      requires Inside()
      modifies this
      ensures Inside() && Took(PositionFormat(), old(Rest()), r, Rest())
    {
      hide NumberFormat, OptionalFormat, DigestFormat, CountFormat, StageFormat;
      var sequence := Number(8);
      if sequence.None? {
        return None;
      }
      var previous := OptionalDigestField();
      if previous.None? {
        return None;
      }
      var beforeTotal := Count();
      if beforeTotal.None? {
        return None;
      }
      var afterTotal := Count();
      if afterTotal.None? {
        return None;
      }
      var stage := StageField();
      if stage.None? {
        return None;
      }
      var activeIndex := OptionalCountField();
      if activeIndex.None? {
        return None;
      }
      return Some(Position(sequence.value, previous.value, beforeTotal.value, afterTotal.value, stage.value,
                           activeIndex.value));
    }

    method EvidenceFields() returns (r: Option<Evidence>)
      requires Inside()
      modifies this
      ensures Inside() && Took(EvidenceFormat(), old(Rest()), r, Rest())
    {
      hide ListFormat, OptionalFormat, FactFormat, ApplicationFactFormat;
      var before := FactList();
      if before.None? {
        return None;
      }
      var application := OptionalApplicationField();
      if application.None? {
        return None;
      }
      var after := FactList();
      if after.None? {
        return None;
      }
      return Some(Evidence(before.value, application.value, after.value));
    }

    method PublishingFields() returns (r: Option<Publishing>)
      requires Inside()
      modifies this
      ensures Inside() && Took(PublishingFormat(), old(Rest()), r, Rest())
    {
      hide OptionalText, OptionalFormat, PublicationFactFormat;
      var evidence := OptionalTextField();
      if evidence.None? {
        return None;
      }
      var request := OptionalTextField();
      if request.None? {
        return None;
      }
      var publication := OptionalPublicationField();
      if publication.None? {
        return None;
      }
      return Some(Publishing(evidence.value, request.value, publication.value));
    }

    method EndingFields() returns (r: Option<Ending>)
      requires Inside()
      modifies this
      ensures Inside() && Took(EndingFormat(), old(Rest()), r, Rest())
    {
      hide OptionalText, OptionalFormat, OutcomeFormat;
      var outcome := OptionalOutcomeField();
      if outcome.None? {
        return None;
      }
      var reconciled := OptionalTextField();
      if reconciled.None? {
        return None;
      }
      return Some(Ending(outcome.value, reconciled.value));
    }

    method RecordFields() returns (r: Option<Record>)
      requires Inside()
      modifies this
      ensures Inside() && Took(RecordFormat(), old(Rest()), r, Rest())
    {
      hide AuthorityFormat, PositionFormat, EvidenceFormat, PublishingFormat, EndingFormat;
      var authority := AuthorityFields();
      if authority.None? {
        return None;
      }
      var position := PositionFields();
      if position.None? {
        return None;
      }
      var evidence := EvidenceFields();
      if evidence.None? {
        return None;
      }
      var publishing := PublishingFields();
      if publishing.None? {
        return None;
      }
      var ending := EndingFields();
      if ending.None? {
        return None;
      }
      return Some(FromGroups((authority.value, (position.value, (evidence.value, (publishing.value, ending.value))))));
    }
  }

  function PrependItems<T(!new)>(items: seq<T>, rest: Option<(seq<T>, seq<char>)>): Option<(seq<T>, seq<char>)> {
    match rest
    case None => None
    case Some((more, after)) => Some((items + more, after))
  }

  lemma NothingPrepended<T(!new)>(rest: Option<(seq<T>, seq<char>)>)
    ensures PrependItems([], rest) == rest
  {
    if rest.Some? {
      assert [] + rest.value.0 == rest.value.0;
    }
  }

  lemma PrependOneItem<T(!new)>(items: seq<T>, x: T, rest: Option<(seq<T>, seq<char>)>)
    ensures PrependItems(items, PrependItems([x], rest)) == PrependItems(items + [x], rest)
  {
    if rest.Some? {
      assert items + ([x] + rest.value.0) == items + [x] + rest.value.0;
    }
  }

  method ReadVersion(input: Reader) returns (version: nat)
    requires input.Inside() && |input.Rest()| >= 2
    modifies input
    ensures input.Inside() && version == FromBigEndian(old(input.Rest())[..2]) && input.Rest() == old(input.Rest())[2..]
  {
    hide FromBigEndian;
    var number := input.Number(2);
    version := number.value;
  }

  method ReadBody(sha: Sha256, input: Reader) returns (r: Result<Record, JournalError>)
    requires input.Inside()
    modifies input
    ensures r == DecodeBody(sha, old(input.Rest()))
  {
    hide RecordFormat, Restore;
    var record := input.RecordFields();
    if record.None? || input.offset != |input.data| || Restore(sha, record.value).Failure? {
      return Failure(CorruptEncoding);
    }
    return Success(record.value);
  }

  method ReadPayload(sha: Sha256, payload: seq<char>) returns (r: Result<Record, JournalError>)
    requires |payload| >= 12
    ensures r == DecodePayload(sha, payload)
  {
    hide FromBigEndian, DecodeBody;
    if payload[..8] != MAGIC {
      return Failure(CorruptEncoding);
    }
    var input := new Reader(payload[8..]);
    var encoding := ReadVersion(input);
    assert payload[8..][..2] == payload[8..10] && payload[8..][2..] == payload[10..];
    if encoding != ENCODING_VERSION {
      return Failure(UnsupportedEncoding);
    }
    var schema := ReadVersion(input);
    assert payload[10..][..2] == payload[10..12] && payload[10..][2..] == payload[12..];
    if schema != SCHEMA_VERSION {
      return Failure(UnsupportedEncoding);
    }
    r := ReadBody(sha, input);
  }

  method DecodeRecord(sha: Sha256, bytes: seq<char>) returns (r: Result<Record, JournalError>)
    ensures r == Decode(sha, bytes)
  {
    hide DecodePayload, Checksum;
    if |bytes| < 12 + CHECKSUM_SIZE || |bytes| > MAXIMUM_ENCODING_SIZE {
      return Failure(CorruptEncoding);
    }
    var payload := bytes[..|bytes| - CHECKSUM_SIZE];
    if bytes[|bytes| - CHECKSUM_SIZE..] != Checksum(sha, payload) {
      return Failure(CorruptEncoding);
    }
    r := ReadPayload(sha, payload);
  }
}
