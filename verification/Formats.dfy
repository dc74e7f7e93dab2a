/**
  Byte formats: what one piece of an encoding looks like, how it is read back, and the two
  laws that make a format canonical.  Composite formats inherit the laws from their parts.
 */
module Formats {
  import opened Wrappers
  import opened Identity

  /** A format for values of one type.  Reading yields the value and what follows it. */
  datatype Format<!T(!new)> = Format(valid: T -> bool, encode: T -> seq<char>,
                                     decode: seq<char> -> Option<(T, seq<char>)>)

  predicate Octets(s: seq<char>) {
    forall i | 0 <= i < |s| :: s[i] as int < 256
  }

  ghost predicate ReadsBack<T(!new)>(f: Format<T>) {
    forall x: T, rest: seq<char> | f.valid(x) :: f.decode(f.encode(x) + rest) == Some((x, rest))
  }

  predicate Reads<T(!new)>(f: Format<T>, s: seq<char>) {
    var r := f.decode(s);
    r.Some? ==> f.valid(r.value.0) && s == f.encode(r.value.0) + r.value.1
  }

  ghost predicate Canonical<T(!new)>(f: Format<T>) {
    forall s: seq<char> | Octets(s) :: Reads(f, s)
  }

  /** Values are read back as they were written, and only what would be written is read. */
  ghost predicate Lawful<T(!new)>(f: Format<T>) {
    ReadsBack(f) && Canonical(f)
  }

  lemma Back<T(!new)>(f: Format<T>, x: T, rest: seq<char>)
    requires Lawful(f) && f.valid(x)
    ensures f.decode(f.encode(x) + rest) == Some((x, rest))
  {}

  lemma Only<T(!new)>(f: Format<T>, s: seq<char>)
    requires Lawful(f) && Octets(s) && f.decode(s).Some?
    ensures f.valid(f.decode(s).value.0) && s == f.encode(f.decode(s).value.0) + f.decode(s).value.1
    ensures Octets(f.decode(s).value.1)
  {
    assert Reads(f, s);
    var rest := f.decode(s).value.1;
    var n := |f.encode(f.decode(s).value.0)|;
    forall i | 0 <= i < |rest|
      ensures rest[i] as int < 256
    {
      assert rest[i] == s[n + i];
    }
  }

  // ---------------------------------------------------------------- numbers

  function FromBigEndian(s: seq<char>): nat {
    if s == [] then 0 else FromBigEndian(s[..|s| - 1]) * 256 + s[|s| - 1] as int
  }

  lemma {:induction false} NumberBack(n: nat, width: nat)
    requires n < Pow256(width)
    ensures FromBigEndian(BigEndian(n, width)) == n
  {
    if width > 0 {
      NumberBack(n / 256, width - 1);
      var s := BigEndian(n, width);
      assert s[..|s| - 1] == BigEndian(n / 256, width - 1);
      assert s[|s| - 1] == (n % 256) as char;
    }
  }

  lemma {:induction false} NumberOnly(s: seq<char>)
    requires Octets(s)
    ensures FromBigEndian(s) < Pow256(|s|) && BigEndian(FromBigEndian(s), |s|) == s
    decreases |s|
  {
    if s != [] {
      var front, last := s[..|s| - 1], s[|s| - 1];
      NumberOnly(front);
      assert FromBigEndian(s) / 256 == FromBigEndian(front) && FromBigEndian(s) % 256 == last as int;
      assert s == front + [last];
    }
  }

  function DecodeNumber(width: nat, s: seq<char>): Option<(nat, seq<char>)> {
    if |s| < width then None else Some((FromBigEndian(s[..width]), s[width..]))
  }

  function NumberFormat(width: nat): Format<nat> {
    Format(n => n < Pow256(width), n => BigEndian(n, width), s => DecodeNumber(width, s))
  }

  lemma NumberIsLawful(width: nat)
    ensures Lawful(NumberFormat(width))
  {
    var f := NumberFormat(width);
    forall n: nat, rest: seq<char> | f.valid(n)
      ensures f.decode(f.encode(n) + rest) == Some((n, rest))
    {
      NumberBack(n, width);
      assert (BigEndian(n, width) + rest)[..width] == BigEndian(n, width);
      assert (BigEndian(n, width) + rest)[width..] == rest;
    }
    forall s: seq<char> | Octets(s)
      ensures Reads(f, s)
    {
      if |s| >= width {
        NumberOnly(s[..width]);
        assert s == s[..width] + s[width..];
      }
    }
  }

  // ---------------------------------------------------------------- restricted and converted values

  function DecodeChecked<A(!new), B(!new)>(f: Format<A>, accept: A -> Option<B>, s: seq<char>): Option<(B, seq<char>)> {
    match f.decode(s)
    case None => None
    case Some((a, rest)) =>
      match accept(a)
      case None => None
      case Some(b) => Some((b, rest))
  }

  /** The values of `f` that `accept` takes; `give` is its inverse. */
  function CheckedFormat<A(!new), B(!new, ==)>(f: Format<A>, accept: A -> Option<B>, give: B -> A): Format<B> {
    Format(b => f.valid(give(b)) && accept(give(b)) == Some(b), b => f.encode(give(b)),
           s => DecodeChecked(f, accept, s))
  }

  ghost predicate Inverse<A(!new), B(!new)>(accept: A -> Option<B>, give: B -> A) {
    forall a: A | accept(a).Some? :: give(accept(a).value) == a
  }

  lemma CheckedIsLawful<A(!new), B(!new)>(f: Format<A>, accept: A -> Option<B>, give: B -> A)
    requires Lawful(f) && Inverse(accept, give)
    ensures Lawful(CheckedFormat(f, accept, give))
  {
    var g := CheckedFormat(f, accept, give);
    forall b: B, rest: seq<char> | g.valid(b)
      ensures g.decode(g.encode(b) + rest) == Some((b, rest))
    {
      Back(f, give(b), rest);
    }
    forall s: seq<char> | Octets(s)
      ensures Reads(g, s)
    {
      if g.decode(s).Some? {
        Only(f, s);
      }
    }
  }

  // ---------------------------------------------------------------- pairs

  function DecodePair<A(!new), B(!new)>(f: Format<A>, g: Format<B>, s: seq<char>): Option<((A, B), seq<char>)> {
    match f.decode(s)
    case None => None
    case Some((a, more)) =>
      match g.decode(more)
      case None => None
      case Some((b, rest)) => Some(((a, b), rest))
  }

  function PairFormat<A(!new), B(!new)>(f: Format<A>, g: Format<B>): Format<(A, B)> {
    Format((p: (A, B)) => f.valid(p.0) && g.valid(p.1), (p: (A, B)) => f.encode(p.0) + g.encode(p.1),
           (s: seq<char>) => DecodePair(f, g, s))
  }

  lemma PairIsLawful<A(!new), B(!new)>(f: Format<A>, g: Format<B>)
    requires Lawful(f) && Lawful(g)
    ensures Lawful(PairFormat(f, g))
  {
    var h := PairFormat(f, g);
    forall p: (A, B), rest: seq<char> | h.valid(p)
      ensures h.decode(h.encode(p) + rest) == Some((p, rest))
    {
      assert h.encode(p) + rest == f.encode(p.0) + (g.encode(p.1) + rest);
      Back(f, p.0, g.encode(p.1) + rest);
      Back(g, p.1, rest);
    }
    forall s: seq<char> | Octets(s)
      ensures Reads(h, s)
    {
      if h.decode(s).Some? {
        Only(f, s);
        var a, more := f.decode(s).value.0, f.decode(s).value.1;
        Only(g, more);
        var b, rest := g.decode(more).value.0, g.decode(more).value.1;
        assert s == (f.encode(a) + g.encode(b)) + rest;
      }
    }
  }

  // ---------------------------------------------------------------- text

  function DecodeText(s: seq<char>): Option<(string, seq<char>)> {
    match DecodeNumber(8, s)
    case None => None
    case Some((length, more)) => if length > |more| then None else Some((more[..length], more[length..]))
  }

  /** Text is its size in eight bytes, then its bytes. */
  function TextFormat(): Format<string> {
    Format(t => Octets(t) && |t| < Pow256(8), t => BigEndian(|t|, 8) + t, s => DecodeText(s))
  }

  lemma TextIsLawful()
    ensures Lawful(TextFormat())
  {
    var f := TextFormat();
    NumberIsLawful(8);
    forall t: string, rest: seq<char> | f.valid(t)
      ensures f.decode(f.encode(t) + rest) == Some((t, rest))
    {
      assert f.encode(t) + rest == BigEndian(|t|, 8) + (t + rest);
      Back(NumberFormat(8), |t|, t + rest);
      assert (t + rest)[..|t|] == t && (t + rest)[|t|..] == rest;
    }
    forall s: seq<char> | Octets(s)
      ensures Reads(f, s)
    {
      if f.decode(s).Some? {
        TextOnly(s);
      }
    }
  }

  lemma TextOnly(s: seq<char>)
    requires Octets(s) && DecodeText(s).Some?
    ensures Reads(TextFormat(), s)
  {
    NumberIsLawful(8);
    Only(NumberFormat(8), s);
    var length, more := DecodeNumber(8, s).value.0, DecodeNumber(8, s).value.1;
    hide Lawful, FromBigEndian, BigEndian, Pow256, DecodeNumber;
    var text, rest := more[..length], more[length..];
    assert more == text + rest && Octets(text);
    assert s == (BigEndian(|text|, 8) + text) + rest;
  }

  // ---------------------------------------------------------------- optional values and lists

  function BoolOf(n: nat): Option<bool> {
    if n == 0 then Some(false) else if n == 1 then Some(true) else None
  }

  function BoolFormat(): Format<bool> {
    CheckedFormat(NumberFormat(1), n => BoolOf(n), (b: bool) => if b then 1 else 0)
  }

  lemma BoolIsLawful()
    ensures Lawful(BoolFormat()) && BoolFormat().valid(true) && BoolFormat().valid(false)
  {
    NumberIsLawful(1);
    CheckedIsLawful(NumberFormat(1), n => BoolOf(n), (b: bool) => if b then 1 else 0);
    assert Pow256(1) == 256;
  }

  function DecodeOptional<T(!new)>(f: Format<T>, s: seq<char>): Option<(Option<T>, seq<char>)> {
    match BoolFormat().decode(s)
    case None => None
    case Some((present, more)) =>
      if !present then Some((None, more))
      else
        match f.decode(more)
        case None => None
        case Some((x, rest)) => Some((Some(x), rest))
  }

  function EncodeOptional<T(!new)>(f: Format<T>, x: Option<T>): seq<char> {
    BoolFormat().encode(x.Some?) + if x.Some? then f.encode(x.value) else []
  }

  function OptionalFormat<T(!new)>(f: Format<T>): Format<Option<T>> {
    Format((x: Option<T>) => x.Some? ==> f.valid(x.value), (x: Option<T>) => EncodeOptional(f, x),
           s => DecodeOptional(f, s))
  }

  lemma OptionalIsLawful<T(!new)>(f: Format<T>)
    requires Lawful(f)
    ensures Lawful(OptionalFormat(f))
  {
    BoolIsLawful();
    var g := OptionalFormat(f);
    forall x: Option<T>, rest: seq<char> | g.valid(x)
      ensures g.decode(g.encode(x) + rest) == Some((x, rest))
    {
      OptionalBack(f, x, rest);
    }
    forall s: seq<char> | Octets(s)
      ensures Reads(g, s)
    {
      if g.decode(s).Some? {
        OptionalOnly(f, s);
      }
    }
  }

  lemma OptionalBack<T(!new)>(f: Format<T>, x: Option<T>, rest: seq<char>)
    requires Lawful(f) && (x.Some? ==> f.valid(x.value))
    ensures DecodeOptional(f, EncodeOptional(f, x) + rest) == Some((x, rest))
  {
    BoolIsLawful();
    hide BoolFormat, Lawful;
    var body := if x.Some? then f.encode(x.value) else [];
    assert EncodeOptional(f, x) + rest == BoolFormat().encode(x.Some?) + (body + rest);
    Back(BoolFormat(), x.Some?, body + rest);
    if x.Some? {
      Back(f, x.value, rest);
    } else {
      assert [] + rest == rest;
    }
  }

  lemma OptionalOnly<T(!new)>(f: Format<T>, s: seq<char>)
    requires Lawful(f) && Octets(s) && DecodeOptional(f, s).Some?
    ensures Reads(OptionalFormat(f), s)
  {
    BoolIsLawful();
    hide BoolFormat, Lawful;
    Only(BoolFormat(), s);
    var present, more := BoolFormat().decode(s).value.0, BoolFormat().decode(s).value.1;
    if present {
      Only(f, more);
      var x, rest := f.decode(more).value.0, f.decode(more).value.1;
      assert s == (BoolFormat().encode(true) + f.encode(x)) + rest;
    } else {
      assert BoolFormat().encode(false) + [] == BoolFormat().encode(false);
    }
  }

  function EncodeItems<T(!new)>(f: Format<T>, items: seq<T>): seq<char> {
    if items == [] then [] else f.encode(items[0]) + EncodeItems(f, items[1..])
  }

  function DecodeItems<T(!new)>(f: Format<T>, count: nat, s: seq<char>): Option<(seq<T>, seq<char>)> {
    if count == 0 then Some(([], s))
    else
      match f.decode(s)
      case None => None
      case Some((x, more)) =>
        match DecodeItems(f, count - 1, more)
        case None => None
        case Some((xs, rest)) => Some(([x] + xs, rest))
  }

  predicate AllValid<T(!new)>(f: Format<T>, items: seq<T>) {
    forall i | 0 <= i < |items| :: f.valid(items[i])
  }

  lemma {:induction false} ItemsBack<T(!new)>(f: Format<T>, items: seq<T>, rest: seq<char>)
    requires Lawful(f) && AllValid(f, items)
    ensures DecodeItems(f, |items|, EncodeItems(f, items) + rest) == Some((items, rest))
    decreases |items|
  {
    hide Lawful;
    if items == [] {
      assert [] + rest == rest;
    } else {
      assert EncodeItems(f, items) + rest == f.encode(items[0]) + (EncodeItems(f, items[1..]) + rest);
      Back(f, items[0], EncodeItems(f, items[1..]) + rest);
      ItemsBack(f, items[1..], rest);
      assert items == [items[0]] + items[1..];
    }
  }

  lemma {:induction false} ItemsOnly<T(!new)>(f: Format<T>, count: nat, s: seq<char>)
    requires Lawful(f) && Octets(s) && DecodeItems(f, count, s).Some?
    ensures var r := DecodeItems(f, count, s).value;
            |r.0| == count && AllValid(f, r.0) && s == EncodeItems(f, r.0) + r.1
    decreases count
  {
    hide Lawful;
    if count > 0 {
      Only(f, s);
      var x, more := f.decode(s).value.0, f.decode(s).value.1;
      ItemsOnly(f, count - 1, more);
      var xs, rest := DecodeItems(f, count - 1, more).value.0, DecodeItems(f, count - 1, more).value.1;
      assert ([x] + xs)[1..] == xs;
      assert s == (f.encode(x) + EncodeItems(f, xs)) + rest;
    } else {
      assert s == [] + s;
    }
  }

  const MAXIMUM_COUNT: nat := 65536

  function CountOf(n: nat): Option<nat> {
    if n > MAXIMUM_COUNT then None else Some(n)
  }

  function CountFormat(): Format<nat> {
    CheckedFormat(NumberFormat(8), n => CountOf(n), (n: nat) => n)
  }

  lemma CountIsLawful()
    ensures Lawful(CountFormat()) && forall n: nat :: CountFormat().valid(n) <==> n <= MAXIMUM_COUNT
  {
    NumberIsLawful(8);
    Pow256Eight();
    CheckedIsLawful(NumberFormat(8), n => CountOf(n), (n: nat) => n);
  }

  function DecodeList<T(!new)>(f: Format<T>, s: seq<char>): Option<(seq<T>, seq<char>)> {
    match CountFormat().decode(s)
    case None => None
    case Some((count, more)) => DecodeItems(f, count, more)
  }

  function EncodeList<T(!new)>(f: Format<T>, items: seq<T>): seq<char> {
    CountFormat().encode(|items|) + EncodeItems(f, items)
  }

  function ListFormat<T(!new)>(f: Format<T>): Format<seq<T>> {
    Format((items: seq<T>) => |items| <= MAXIMUM_COUNT && AllValid(f, items), (items: seq<T>) => EncodeList(f, items),
           s => DecodeList(f, s))
  }

  lemma ListIsLawful<T(!new)>(f: Format<T>)
    requires Lawful(f)
    ensures Lawful(ListFormat(f))
  {
    var g := ListFormat(f);
    forall items: seq<T>, rest: seq<char> | g.valid(items)
      ensures g.decode(g.encode(items) + rest) == Some((items, rest))
    {
      ListBack(f, items, rest);
    }
    forall s: seq<char> | Octets(s)
      ensures Reads(g, s)
    {
      if g.decode(s).Some? {
        ListOnly(f, s);
      }
    }
  }

  lemma ListBack<T(!new)>(f: Format<T>, items: seq<T>, rest: seq<char>)
    requires Lawful(f) && |items| <= MAXIMUM_COUNT && AllValid(f, items)
    ensures DecodeList(f, EncodeList(f, items) + rest) == Some((items, rest))
  {
    CountIsLawful();
    hide CountFormat, Lawful, AllValid;
    assert EncodeList(f, items) + rest == CountFormat().encode(|items|) + (EncodeItems(f, items) + rest);
    Back(CountFormat(), |items|, EncodeItems(f, items) + rest);
    ItemsBack(f, items, rest);
  }

  lemma ListOnly<T(!new)>(f: Format<T>, s: seq<char>)
    requires Lawful(f) && Octets(s) && DecodeList(f, s).Some?
    ensures Reads(ListFormat(f), s)
  {
    CountIsLawful();
    hide CountFormat, Lawful, AllValid;
    Only(CountFormat(), s);
    var count, more := CountFormat().decode(s).value.0, CountFormat().decode(s).value.1;
    ItemsOnly(f, count, more);
    var items, rest := DecodeItems(f, count, more).value.0, DecodeItems(f, count, more).value.1;
    assert s == (CountFormat().encode(count) + EncodeItems(f, items)) + rest;
  }
}
