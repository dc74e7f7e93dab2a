/**
  Session identities: the byte stream that is hashed to make one.  SHA-256 is an
  arbitrary function `sha` on byte streams; nothing is assumed about it except, where
  two identities are compared, that the two streams at hand do not collide.
  A byte is a character below 256, so that text and bytes share one type.
 */
module Identity {

  predicate IsHexDigit(c: char) {
    '0' <= c <= '9' || 'a' <= c <= 'f'
  }

  predicate IsHex64(s: string) {
    |s| == 64 && forall i | 0 <= i < |s| :: IsHexDigit(s[i])
  }

  const ZERO_DIGEST: string := seq(64, _ => '0')

  /** The lowercase hexadecimal text of a 256-bit digest. */
  type Digest = s: string | IsHex64(s) witness ZERO_DIGEST

  type Octet = c: char | c as int < 256 witness 'a'

  type Sha256 = seq<char> -> Digest

  // The sizes that fit the eight-byte prefix; every `size_t` does.
  const SIZE_LIMIT: nat := 0x1_0000_0000_0000_0000

  predicate Sized(s: string) {
    |s| < SIZE_LIMIT
  }

  predicate AllSized(fields: seq<string>) {
    forall i | 0 <= i < |fields| :: Sized(fields[i])
  }

  /** The `width` low-order bytes of `value`, most significant first. */
  function BigEndian(value: nat, width: nat): (bytes: seq<Octet>)
    ensures |bytes| == width
  {
    if width == 0 then [] else BigEndian(value / 256, width - 1) + [(value % 256) as char]
  }

  function Pow256(width: nat): (p: nat)
    ensures p > 0
  {
    if width == 0 then 1 else 256 * Pow256(width - 1)
  }

  lemma {:induction false} BigEndianInjective(u: nat, v: nat, width: nat)
    requires u < Pow256(width) && v < Pow256(width)
    requires BigEndian(u, width) == BigEndian(v, width)
    ensures u == v
  {
    if width > 0 {
      var x, y := BigEndian(u, width), BigEndian(v, width);
      assert x[..width - 1] == BigEndian(u / 256, width - 1);
      assert y[..width - 1] == BigEndian(v / 256, width - 1);
      assert x[width - 1] == (u % 256) as char && y[width - 1] == (v % 256) as char;
      BigEndianInjective(u / 256, v / 256, width - 1);
    }
  }

  lemma Pow256Eight()
    ensures Pow256(8) == SIZE_LIMIT
  {
    assert Pow256(4) == 0x1_0000_0000;
    assert Pow256(6) == 0x1_0000_0000_0000;
  }

  /** One field on the digest stream: its size in eight bytes, then its bytes. */
  function FrameField(value: string): seq<char> {
    BigEndian(|value|, 8) + value
  }

  function FrameFields(fields: seq<string>): seq<char> {
    if fields == [] then [] else FrameField(fields[0]) + FrameFields(fields[1..])
  }

  lemma {:induction false} FrameFieldsAppend(fields: seq<string>, last: string)
    ensures FrameFields(fields + [last]) == FrameFields(fields) + FrameField(last)
  {
    if fields == [] {
      assert FrameFields([last][1..]) == [];
    } else {
      assert (fields + [last])[1..] == fields[1..] + [last];
      FrameFieldsAppend(fields[1..], last);
    }
  }

  /** Two field lists with the same stream are the same list. */
  lemma {:induction false} FrameFieldsInjective(a: seq<string>, b: seq<string>)
    requires AllSized(a) && AllSized(b)
    requires FrameFields(a) == FrameFields(b)
    ensures a == b
  {
    if a != [] && b != [] {
      var s := FrameFields(a);
      Pow256Eight();
      assert s[..8] == BigEndian(|a[0]|, 8) && s[..8] == BigEndian(|b[0]|, 8);
      BigEndianInjective(|a[0]|, |b[0]|, 8);
      var n := |a[0]|;
      assert s[8..8 + n] == a[0] && s[8..8 + n] == b[0];
      assert s[8 + n..] == FrameFields(a[1..]) && s[8 + n..] == FrameFields(b[1..]);
      FrameFieldsInjective(a[1..], b[1..]);
      assert a == [a[0]] + a[1..] && b == [b[0]] + b[1..];
    }
  }

  function MakeSessionIdentity(sha: Sha256, domain: string, fields: seq<string>): Digest {
    sha(FrameFields([domain] + fields))
  }

  /** Equal identities name equal content, unless the two streams collide. */
  lemma SessionIdentityInjective(sha: Sha256, domain: string, fields: seq<string>,
                                 domain': string, fields': seq<string>)
    requires AllSized([domain] + fields) && AllSized([domain'] + fields')
    requires var s, s' := FrameFields([domain] + fields), FrameFields([domain'] + fields');
             sha(s) == sha(s') ==> s == s'
    requires MakeSessionIdentity(sha, domain, fields) == MakeSessionIdentity(sha, domain', fields')
    ensures domain == domain' && fields == fields'
  {
    var a, b := [domain] + fields, [domain'] + fields';
    FrameFieldsInjective(a, b);
    assert a[0] == domain && b[0] == domain' && a[1..] == fields && b[1..] == fields';
  }

  /** The loop that fills the eight length bytes from the last to the first. */
  method LengthBytes(value: nat) returns (length: array<char>)
    ensures fresh(length) && length[..] == BigEndian(value, 8)
  {
    length := new char[8];
    var size := value;
    var index := 0;
    while index < 8
      invariant 0 <= index <= 8 && size >= 0 && length.Length == 8
      invariant BigEndian(value, 8) == BigEndian(size, 8 - index) + length[8 - index..]
    {
      label Before:
      length[7 - index] := (size % 256) as char;
      assert length[8 - index..] == old@Before(length[8 - index..]);
      assert length[7 - index..] == [(size % 256) as char] + length[8 - index..];
      size := size / 256;
      index := index + 1;
    }
    assert length[0..] == length[..];
  }

  /** The digest context: it sees one byte stream and is finalised once. */
  class DigestContext {
    var stream: seq<char>

    constructor ()
      ensures stream == []
    {
      stream := [];
    }

    method Update(bytes: seq<char>)
      modifies this
      ensures stream == old(stream) + bytes
    {
      stream := stream + bytes;
    }

    method AddField(value: string)
      modifies this
      ensures stream == old(stream) + FrameField(value)
    {
      var length := LengthBytes(|value|);
      ghost var prefix := length[..];
      Update(length[..]);
      if value != [] {
        Update(value);
      }
      assert prefix + value == FrameField(value);
      assert value == [] ==> prefix + value == prefix;
      assert old(stream) + prefix + value == old(stream) + (prefix + value);
    }
  }

  method ComputeSessionIdentity(sha: Sha256, domain: string, fields: seq<string>) returns (identity: Digest)
    ensures identity == MakeSessionIdentity(sha, domain, fields)
  {
    var context := new DigestContext();
    context.AddField(domain);
    assert FrameFields([domain]) == FrameField(domain) by {
      FrameFieldsAppend([], domain);
      assert [] + [domain] == [domain];
    }
    var index := 0;
    assert [domain] + fields[..0] == [domain];
    while index < |fields|
      invariant 0 <= index <= |fields|
      invariant context.stream == FrameFields([domain] + fields[..index])
    {
      context.AddField(fields[index]);
      FrameFieldsAppend([domain] + fields[..index], fields[index]);
      assert [domain] + fields[..index] + [fields[index]] == [domain] + fields[..index + 1];
      index := index + 1;
    }
    assert fields[..index] == fields;
    identity := sha(context.stream);
  }
}
