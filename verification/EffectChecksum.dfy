/**
  The trailer of an encoded record: the digest of everything before it, written out as bytes.
 */
module EffectChecksum {
  import opened Wrappers
  import opened Identity
  import opened EffectJournal
  import opened Formats
  import opened EffectCodec

  lemma ByteIsRead(high: char, low: char)
    requires IsHexDigit(high) && IsHexDigit(low)
    ensures var b := 16 * HexValue(high) + HexValue(low);
            b < 256 && HexDigit(b / 16) == high && HexDigit(b % 16) == low
  {}

  lemma FirstByte(s: string)
    requires |s| % 2 == 0 && s != [] && forall i | 0 <= i < |s| :: IsHexDigit(s[i])
    ensures FromHex(s) == [(16 * HexValue(s[0]) + HexValue(s[1])) as char] + FromHex(s[2..])
  {
    hide HexValue;
  }

  lemma FirstDigits(b: Octet, rest: seq<Octet>)
    ensures HexText([b] + rest) == [HexDigit(b as int / 16), HexDigit(b as int % 16)] + HexText(rest)
  {
    hide HexDigit;
    assert ([b] + rest)[1..] == rest;
  }

  /** The bytes that a hexadecimal text writes out have that text. */
  lemma {:induction false} HexIsRead(s: string)
    requires |s| % 2 == 0 && forall i | 0 <= i < |s| :: IsHexDigit(s[i])
    ensures HexText(FromHex(s)) == s
  {
    if s != [] {
      hide HexDigit, HexValue, HexText, FromHex, IsHexDigit;
      FirstByte(s);
      ByteIsRead(s[0], s[1]);
      FirstDigits((16 * HexValue(s[0]) + HexValue(s[1])) as char, FromHex(s[2..]));
      HexIsRead(s[2..]);
      assert s == [s[0], s[1]] + s[2..];
    }
  }

  lemma DigitsAreRead(b: Octet)
    ensures HexValue(HexDigit(b as int / 16)) == b as int / 16 && HexValue(HexDigit(b as int % 16)) == b as int % 16
  {}

  /** And the other way round: bytes are what their text writes out. */
  lemma {:induction false} BytesAreWritten(bytes: seq<Octet>)
    ensures FromHex(HexText(bytes)) == bytes
  {
    if bytes != [] {
      hide HexDigit, HexValue, HexText, FromHex;
      assert bytes == [bytes[0]] + bytes[1..];
      FirstDigits(bytes[0], bytes[1..]);
      FirstByte(HexText(bytes));
      DigitsAreRead(bytes[0]);
      assert HexText(bytes)[2..] == HexText(bytes[1..]);
      BytesAreWritten(bytes[1..]);
    }
  }

  /** The last 32 bytes are those that the digest of all bytes before them writes out. */
  predicate EndsInDigest(sha: Sha256, bytes: seq<char>) {
    && |bytes| >= 32 && Octets(bytes[|bytes| - 32..])
    && HexText(bytes[|bytes| - 32..]) == sha(bytes[..|bytes| - 32])
  }

  lemma ChecksumIsDigest(sha: Sha256, payload: seq<char>, bytes: seq<char>)
    requires bytes == payload + Checksum(sha, payload)
    ensures EndsInDigest(sha, bytes)
  {
    HexIsRead(sha(payload));
    assert bytes[..|bytes| - 32] == payload && bytes[|bytes| - 32..] == Checksum(sha, payload);
  }

  lemma EncodingEndsInDigest(sha: Sha256, r: Record)
    requires Encode(sha, r).Success?
    ensures EndsInDigest(sha, Encode(sha, r).value)
  {
    hide Payload, Checksum;
    ChecksumIsDigest(sha, Payload(r), Encode(sha, r).value);
  }

  lemma AcceptedEndsInDigest(sha: Sha256, bytes: seq<char>)
    requires Decode(sha, bytes).Success?
    ensures EndsInDigest(sha, bytes)
  {
    hide DecodePayload, Checksum;
    var payload := bytes[..|bytes| - 32];
    assert bytes == payload + bytes[|bytes| - 32..];
    ChecksumIsDigest(sha, payload, bytes);
  }

  /** Bytes that differ from accepted ones, and keep the trailer, are accepted only if two prefixes collide. */
  lemma TamperingNeedsCollision(sha: Sha256, a: seq<char>, b: seq<char>)
    requires Decode(sha, a).Success? && Decode(sha, b).Success? && a != b
    requires a[|a| - 32..] == b[|b| - 32..]
    ensures a[..|a| - 32] != b[..|b| - 32] && sha(a[..|a| - 32]) == sha(b[..|b| - 32])
  {
    hide Decode;
    AcceptedEndsInDigest(sha, a);
    AcceptedEndsInDigest(sha, b);
    assert a == a[..|a| - 32] + a[|a| - 32..] && b == b[..|b| - 32] + b[|b| - 32..];
  }

  lemma TwoBytes(s: seq<char>)
    requires |s| == 2
    ensures FromBigEndian(s) == s[0] as int * 256 + s[1] as int
  {
    assert s[..1][..0] == [];
    assert FromBigEndian(s[..1]) == FromBigEndian([]) * 256 + s[0] as int;
  }

  lemma VersionBytes()
    ensures BigEndian(1, 2) == [0 as char, 1 as char]
  {
    assert BigEndian(0, 1) == BigEndian(0, 0) + [0 as char];
  }

  /** Every encoding begins with the magic and with both versions in two bytes. */
  lemma HeaderIsExact(sha: Sha256, bytes: seq<char>)
    requires Decode(sha, bytes).Success? || (exists r: Record :: Encode(sha, r) == Success(bytes))
    ensures |bytes| >= 12 && bytes[..8] == "PCTLJNL1"
    ensures bytes[8] == 0 as char && bytes[9] == 1 as char && bytes[10] == 0 as char && bytes[11] == 1 as char
  {
    hide RecordFormat, Checksum, DecodeBody;
    if Decode(sha, bytes).Success? {
      var payload := bytes[..|bytes| - 32];
      TwoBytes(payload[8..10]);
      TwoBytes(payload[10..12]);
      assert bytes[..8] == payload[..8];
    } else {
      var r: Record :| Encode(sha, r) == Success(bytes);
      WrittenHeader(sha, r);
    }
  }

  lemma WrittenHeader(sha: Sha256, r: Record)
    requires Encode(sha, r).Success?
    ensures var bytes := Encode(sha, r).value;
            |bytes| >= 12 && bytes[..8] == "PCTLJNL1" && bytes[8..12] == [0 as char, 1 as char, 0 as char, 1 as char]
  {
    hide RecordFormat, Checksum;
    VersionBytes();
    var bytes := Encode(sha, r).value;
    assert Header() == "PCTLJNL1" + [0 as char, 1 as char] + [0 as char, 1 as char];
    assert bytes == Header() + (RecordFormat().encode(r) + Checksum(sha, Payload(r)));
  }
}
