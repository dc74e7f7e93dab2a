/** The file names of journal snapshots, as text. */
module StoreNames {
  import opened Wrappers
  import opened Identity

  const MAXIMUM_SEQUENCE: nat := 0xFFFF_FFFF_FFFF_FFFF
  const NAME_SIZE: nat := 65 + 20 + 1 + 64 + 4
  const SUFFIX: string := ".pje"

  predicate IsDigit(c: char) {
    '0' <= c <= '9'
  }

  /** The last `width` decimal digits of a number, with leading zeros. */
  function Padded(n: nat, width: nat): (s: string)
    ensures |s| == width && forall i | 0 <= i < |s| :: IsDigit(s[i])
  {
    if width == 0 then "" else Padded(n / 10, width - 1) + [(n % 10 + 48) as char]
  }

  function DigitsValue(s: string): nat
    requires forall i | 0 <= i < |s| :: IsDigit(s[i])
  {
    if s == "" then 0
    else
      assert IsDigit(s[|s| - 1]);
      DigitsValue(s[..|s| - 1]) * 10 + (s[|s| - 1] as int - 48)
  }

  function Pow10(k: nat): nat {
    if k == 0 then 1 else 10 * Pow10(k - 1)
  }

  function RecordName(attempt: Digest, sequence: nat, identity: Digest): (name: string)
    ensures |name| == NAME_SIZE
  {
    attempt + "-" + Padded(sequence, 20) + "-" + identity + SUFFIX
  }

  /** The decimal digits of a sequence number, unless they exceed 64 bits. */
  function SequenceOf(digits: string): Option<nat> {
    if exists i | 0 <= i < |digits| :: !IsDigit(digits[i]) then None
    else if DigitsValue(digits) > MAXIMUM_SEQUENCE then None
    else Some(DigitsValue(digits))
  }

  /** The sequence and the identity in a snapshot name of the attempt. */
  function ParseName(name: string, attempt: Digest): Option<(nat, Digest)> {
    if |name| != NAME_SIZE || name[..65] != attempt + "-" || name[150..] != SUFFIX then None
    else
      match SequenceOf(name[65..85])
      case None => None
      case Some(sequence) => if IsHex64(name[86..150]) then Some((sequence, name[86..150])) else None
  }

  /** The loop that reads the digits, with its check against overflow. */
  method ReadSequence(digits: string) returns (r: Option<nat>)
    ensures r == SequenceOf(digits)
  {
    for i := 0 to |digits|
      invariant forall k | 0 <= k < i :: IsDigit(digits[k])
    {
      if !IsDigit(digits[i]) {
        return None;
      }
    }
    var sequence := 0;
    for i := 0 to |digits|
      invariant sequence == DigitsValue(digits[..i]) && sequence <= MAXIMUM_SEQUENCE
    {
      var value := digits[i] as int - 48;
      assert digits[..i + 1][..i] == digits[..i];
      if sequence > (MAXIMUM_SEQUENCE - value) / 10 {
        PrefixIsSmaller(digits, i + 1);
        return None;
      }
      sequence := sequence * 10 + value;
    }
    assert digits[..|digits|] == digits;
    return Some(sequence);
  }

  lemma {:induction false} PrefixIsSmaller(s: string, n: nat)
    requires n <= |s| && forall i | 0 <= i < |s| :: IsDigit(s[i])
    ensures DigitsValue(s[..n]) <= DigitsValue(s)
    decreases |s|
  {
    if n < |s| {
      PrefixIsSmaller(s[..|s| - 1], n);
      assert s[..|s| - 1][..n] == s[..n];
    } else {
      assert s[..n] == s;
    }
  }

  lemma {:induction false} PaddedIsRead(n: nat, width: nat)
    requires n < Pow10(width)
    ensures DigitsValue(Padded(n, width)) == n
  {
    if width > 0 {
      PaddedIsRead(n / 10, width - 1);
      assert Padded(n, width)[..width - 1] == Padded(n / 10, width - 1);
    }
  }

  lemma {:induction false} ReadIsPadded(s: string)
    requires forall i | 0 <= i < |s| :: IsDigit(s[i])
    ensures Padded(DigitsValue(s), |s|) == s
    decreases |s|
  {
    if s != "" {
      ReadIsPadded(s[..|s| - 1]);
      assert s == s[..|s| - 1] + [s[|s| - 1]];
    }
  }

  lemma TwentyDigitsSuffice()
    ensures MAXIMUM_SEQUENCE < Pow10(20)
  {
    assert Pow10(10) == 10000000000;
    assert Pow10(15) == 1000000000000000;
  }

  /** The name of a snapshot is parsed to what it was made of. */
  lemma NameIsParsed(attempt: Digest, sequence: nat, identity: Digest)
    requires sequence <= MAXIMUM_SEQUENCE
    ensures ParseName(RecordName(attempt, sequence, identity), attempt) == Some((sequence, identity))
  {
    var name := RecordName(attempt, sequence, identity);
    assert name[..65] == attempt + "-" && name[150..] == SUFFIX;
    assert name[65..85] == Padded(sequence, 20) && name[86..150] == identity;
    TwentyDigitsSuffice();
    PaddedIsRead(sequence, 20);
  }

  /** A parsed name is the name of its snapshot exactly when a dash separates the sequence from the identity. */
  lemma ParsedNameIsExactly(name: string, attempt: Digest)
    requires ParseName(name, attempt).Some?
    ensures var (sequence, identity) := ParseName(name, attempt).value;
            sequence <= MAXIMUM_SEQUENCE && (name == RecordName(attempt, sequence, identity) <==> name[85] == '-')
  {
    var (sequence, identity) := ParseName(name, attempt).value;
    ReadIsPadded(name[65..85]);
    assert name == name[..65] + name[65..85] + [name[85]] + name[86..150] + name[150..];
    assert RecordName(attempt, sequence, identity)[85] == '-';
  }

  /** The parser does not look at the separator. */
  lemma SeparatorIsNotChecked() returns (name: string, attempt: Digest)
    ensures ParseName(name, attempt).Some?
    ensures forall sequence: nat, identity: Digest :: RecordName(attempt, sequence, identity) != name
  {
    attempt := ZERO_DIGEST;
    var proper := RecordName(attempt, 0, ZERO_DIGEST);
    name := proper[85 := 'x'];
    NameIsParsed(attempt, 0, ZERO_DIGEST);
    assert name[..65] == proper[..65] && name[150..] == proper[150..] && name[65..85] == proper[65..85]
        && name[86..150] == proper[86..150];
    forall sequence: nat, identity: Digest
      ensures RecordName(attempt, sequence, identity) != name
    {
      assert RecordName(attempt, sequence, identity)[85] == '-';
    }
  }

  /** Different snapshots have different names. */
  lemma NamesAreInjective(attempt: Digest, sequence: nat, identity: Digest, attempt': Digest, sequence': nat,
                          identity': Digest)
    requires sequence <= MAXIMUM_SEQUENCE && sequence' <= MAXIMUM_SEQUENCE
    requires RecordName(attempt, sequence, identity) == RecordName(attempt', sequence', identity')
    ensures attempt == attempt' && sequence == sequence' && identity == identity'
  {
    var name := RecordName(attempt, sequence, identity);
    assert name[..64] == attempt && name[..64] == attempt';
    NameIsParsed(attempt, sequence, identity);
    NameIsParsed(attempt', sequence', identity');
  }
}
