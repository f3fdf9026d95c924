/** Percent-encoding (section 2.1 of RFC 3986) over UTF-8: the built-ins
    `encodeURIComponent` and `decodeURIComponent`, and the route module's
    stricter `encodePart`. A result of None models a thrown URIError. */
module Percent {
  import opened CodeUnits
  import Utf8

  const PERCENT: Unit := 0x25

  predicate IsAlphanumeric(u: Unit) {
    0x30 <= u <= 0x39 || 0x41 <= u <= 0x5A || 0x61 <= u <= 0x7A
  }

  /** Section 2.3 of RFC 3986: letters, digits, `-`, `.`, `_`, `~`. */
  predicate IsUnreserved(u: Unit) {
    IsAlphanumeric(u) || u == 0x2D || u == 0x2E || u == 0x5F || u == 0x7E
  }

  /** The marks `!`, `'`, `(`, `)`, `*`, which `encodeURIComponent` leaves
      alone and `encodePart` escapes. */
  predicate IsExtraMark(u: Unit) {
    u == 0x21 || 0x27 <= u <= 0x2A
  }

  function HexDigit(d: int): (u: Unit)
    requires 0 <= d < 16
    ensures IsAlphanumeric(u)
  {
    if d < 10 then 0x30 + d else 0x41 + (d - 10)
  }

  function HexValue(u: Unit): (d: int)
    ensures d < 16
  {
    if 0x30 <= u <= 0x39 then u - 0x30
    else if 0x41 <= u <= 0x46 then u - 0x41 + 10
    else if 0x61 <= u <= 0x66 then u - 0x61 + 10
    else -1
  }

  function EscapeByte(b: Utf8.Byte): Str {
    [PERCENT, HexDigit(b / 16), HexDigit(b % 16)]
  }

  function EscapeBytes(bytes: seq<Utf8.Byte>): Str {
    if bytes == [] then [] else EscapeByte(bytes[0]) + EscapeBytes(bytes[1..])
  }

  predicate IsSurrogate(u: Unit) { 0xD800 <= u < 0xE000 }

  /** The first code point of `s` and its width in units; None at a lone surrogate. */
  function FirstCodePoint(s: Str): (r: Option<(int, nat)>)
    requires s != []
    ensures r.Some? ==> Utf8.IsScalar(r.value.0) && 1 <= r.value.1 <= |s| && s[..r.value.1] == Utf16(r.value.0)
  {
    if !IsSurrogate(s[0]) then Some((s[0], 1))
    else if s[0] < 0xDC00 && |s| > 1 && 0xDC00 <= s[1] < 0xE000 then
      var high: int, low: int := s[0] - 0xD800, s[1] - 0xDC00;
      Some((0x10000 + high * 0x400 + low, 2))
    else None
  }

  function Utf16(cp: int): (s: Str)
    requires Utf8.IsScalar(cp)
    ensures 1 <= |s| <= 2
  {
    if cp < 0x10000 then [cp]
    else [0xD800 + (cp - 0x10000) / 0x400, 0xDC00 + (cp - 0x10000) % 0x400]
  }

  function EncodeURIComponent(s: Str): Option<Str>
    decreases |s|
  {
    if s == [] then Some([])
    else if IsUnreserved(s[0]) || IsExtraMark(s[0]) then
      match EncodeURIComponent(s[1..])
      case None => None
      case Some(rest) => Some([s[0]] + rest)
    else
      match FirstCodePoint(s)
      case None => None
      case Some((cp, width)) =>
        match EncodeURIComponent(s[width..])
        case None => None
        case Some(rest) => Some(EscapeBytes(Utf8.Encode(cp)) + rest)
  }

  predicate WellFormed(s: Str) { EncodeURIComponent(s).Some? }

  /** The `replace` step of `encodePart`: escape every extra mark. */
  function EscapeMarks(s: Str): Str {
    if s == [] then []
    else (if IsExtraMark(s[0]) then EscapeByte(s[0]) else [s[0]]) + EscapeMarks(s[1..])
  }

  function EncodePart(s: Str): Str
    requires WellFormed(s)
  {
    EscapeMarks(EncodeURIComponent(s).value)
  }

  /** The byte of a `%XX` group at the start of `s`. */
  function ReadByte(s: Str): Option<Utf8.Byte> {
    if |s| >= 3 && s[0] == PERCENT && HexValue(s[1]) >= 0 && HexValue(s[2]) >= 0
    then Some(HexValue(s[1]) * 16 + HexValue(s[2]))
    else None
  }

  function ReadBytes(s: Str, n: nat): (r: Option<seq<Utf8.Byte>>)
    ensures r.Some? ==> |r.value| == n && 3 * n <= |s|
    decreases n
  {
    if n == 0 then Some([])
    else
      match ReadByte(s)
      case None => None
      case Some(b) =>
        match ReadBytes(s[3..], n - 1)
        case None => None
        case Some(rest) => Some([b] + rest)
  }

  /** One escaped code point at the start of `s` and the units it occupies. */
  function ReadCodePoint(s: Str): (r: Option<(int, nat)>)
    ensures r.Some? ==> Utf8.IsScalar(r.value.0) && 3 <= r.value.1 <= |s|
  {
    match ReadByte(s)
    case None => None
    case Some(lead) =>
      var n := Utf8.LeadLength(lead);
      if n == 0 then None
      else
        match ReadBytes(s, n)
        case None => None
        case Some(bytes) =>
          match Utf8.Decode(bytes)
          case None => None
          case Some(cp) => Some((cp, 3 * n))
  }

  function DecodeURIComponent(s: Str): Option<Str>
    decreases |s|
  {
    if s == [] then Some([])
    else if s[0] != PERCENT then
      match DecodeURIComponent(s[1..])
      case None => None
      case Some(rest) => Some([s[0]] + rest)
    else
      match ReadCodePoint(s)
      case None => None
      case Some((cp, width)) =>
        match DecodeURIComponent(s[width..])
        case None => None
        case Some(rest) => Some(Utf16(cp) + rest)
  }

  // ---------- Round trip ----------

  lemma ReadEscapedByte(b: Utf8.Byte, t: Str)
    ensures ReadByte(EscapeByte(b) + t) == Some(b)
    ensures (EscapeByte(b) + t)[3..] == t
  {
  }

  lemma {:induction false} ReadEscapedBytes(bytes: seq<Utf8.Byte>, t: Str)
    ensures |EscapeBytes(bytes)| == 3 * |bytes|
    ensures ReadBytes(EscapeBytes(bytes) + t, |bytes|) == Some(bytes)
    ensures bytes != [] ==> ReadByte(EscapeBytes(bytes) + t) == Some(bytes[0])
  {
    if bytes != [] {
      var rest := EscapeBytes(bytes[1..]);
      ReadEscapedBytes(bytes[1..], t);
      ReadEscapedByte(bytes[0], rest + t);
      assert EscapeBytes(bytes) + t == EscapeByte(bytes[0]) + (rest + t);
      assert bytes == [bytes[0]] + bytes[1..];
    }
  }

  lemma ReadEscapedSequence(bytes: seq<Utf8.Byte>, t: Str)
    requires bytes != [] && Utf8.Decode(bytes).Some?
    ensures ReadCodePoint(EscapeBytes(bytes) + t) == Some((Utf8.Decode(bytes).value, 3 * |bytes|))
  {
    ReadEscapedBytes(bytes, t);
  }

  lemma DecodeEscaped(cp: int, t: Str)
    requires Utf8.IsScalar(cp)
    requires DecodeURIComponent(t).Some?
    ensures DecodeURIComponent(EscapeBytes(Utf8.Encode(cp)) + t) == Some(Utf16(cp) + DecodeURIComponent(t).value)
  {
    var bytes := Utf8.Encode(cp);
    Utf8.DecodeEncode(cp);
    DecodeSequence(bytes, cp, t);
  }

  lemma DecodeSequence(bytes: seq<Utf8.Byte>, cp: int, t: Str)
    requires bytes != [] && Utf8.Decode(bytes) == Some(cp) && Utf8.IsScalar(cp)
    requires DecodeURIComponent(t).Some?
    ensures DecodeURIComponent(EscapeBytes(bytes) + t) == Some(Utf16(cp) + DecodeURIComponent(t).value)
  {
    var s := EscapeBytes(bytes) + t;
    ReadEscapedSequence(bytes, t);
    ReadEscapedBytes(bytes, t);
    assert s[0] == PERCENT;
    assert s[3 * |bytes|..] == t;
  }

  lemma {:induction false} EscapeMarksConcat(a: Str, b: Str)
    ensures EscapeMarks(a + b) == EscapeMarks(a) + EscapeMarks(b)
  {
    hide EscapeByte, IsExtraMark;
    if a == [] {
      assert a + b == b;
    } else {
      EscapeMarksConcat(a[1..], b);
      assert (a + b)[1..] == a[1..] + b && (a + b)[0] == a[0];
    }
  }

  lemma {:induction false} EscapeMarksKeepsEscapes(bytes: seq<Utf8.Byte>)
    ensures EscapeMarks(EscapeBytes(bytes)) == EscapeBytes(bytes)
  {
    if bytes != [] {
      var first := EscapeByte(bytes[0]);
      EscapeMarksConcat(first, EscapeBytes(bytes[1..]));
      EscapeMarksKeepsEscapes(bytes[1..]);
      assert EscapeMarks(first) == first by {
        assert first[1..][1..][1..] == [];
        assert EscapeMarks(first[1..][1..]) == first[2..];
        assert EscapeMarks(first[1..]) == first[1..];
      }
    }
  }

  /** `encodePart` in one pass: unreserved units stay, every other code point
      becomes the escapes of its UTF-8 bytes. */
  lemma EncodePartStep(s: Str)
    requires s != [] && WellFormed(s)
    ensures IsUnreserved(s[0]) ==> WellFormed(s[1..]) && EncodePart(s) == [s[0]] + EncodePart(s[1..])
    ensures !IsUnreserved(s[0]) ==>
              FirstCodePoint(s).Some? && var (cp, w) := FirstCodePoint(s).value;
              WellFormed(s[w..]) && EncodePart(s) == EscapeBytes(Utf8.Encode(cp)) + EncodePart(s[w..])
  {
    if IsUnreserved(s[0]) || IsExtraMark(s[0]) {
      EscapeMarksConcat([s[0]], EncodeURIComponent(s[1..]).value);
      assert EscapeMarks([s[0]]) == if IsExtraMark(s[0]) then EscapeByte(s[0]) else [s[0]];
      if IsExtraMark(s[0]) {
        assert Utf8.Encode(s[0]) == [s[0]];
        assert EscapeBytes([s[0] as int]) == EscapeByte(s[0]);
      }
    } else {
      var (cp, w) := FirstCodePoint(s).value;
      var bytes := Utf8.Encode(cp);
      EscapeMarksConcat(EscapeBytes(bytes), EncodeURIComponent(s[w..]).value);
      EscapeMarksKeepsEscapes(bytes);
    }
  }

  /** Decoding an encoded part gives the part back, for every well-formed string. */
  lemma {:induction false} DecodeEncodePart(s: Str)
    requires WellFormed(s)
    ensures DecodeURIComponent(EncodePart(s)) == Some(s)
    decreases |s|
  {
    if s != [] {
      EncodePartStep(s);
      if IsUnreserved(s[0]) {
        DecodeEncodePart(s[1..]);
        assert EncodePart(s)[1..] == EncodePart(s[1..]);
        assert s == [s[0]] + s[1..];
      } else {
        var (cp, w) := FirstCodePoint(s).value;
        DecodeEncodePart(s[w..]);
        DecodeEscaped(cp, EncodePart(s[w..]));
        assert s == s[..w] + s[w..];
      }
    }
  }

  predicate IsEncoded(u: Unit) { IsUnreserved(u) || u == PERCENT }

  lemma {:induction false} EscapeBytesAlphabet(bytes: seq<Utf8.Byte>)
    ensures forall u <- EscapeBytes(bytes) :: IsEncoded(u)
  {
    if bytes != [] {
      EscapeBytesAlphabet(bytes[1..]);
    }
  }

  /** Encoded parts hold no URL delimiter: only unreserved units and `%`. */
  lemma {:induction false} EncodePartAlphabet(s: Str)
    requires WellFormed(s)
    ensures forall u <- EncodePart(s) :: IsEncoded(u)
    decreases |s|
  {
    if s != [] {
      EncodePartStep(s);
      if IsUnreserved(s[0]) {
        EncodePartAlphabet(s[1..]);
      } else {
        var (cp, w) := FirstCodePoint(s).value;
        EscapeBytesAlphabet(Utf8.Encode(cp));
        EncodePartAlphabet(s[w..]);
      }
    }
  }

  /** An ASCII prefix keeps a string well formed. */
  lemma {:induction false} WellFormedAsciiPrefix(a: Str, b: Str)
    requires forall i | 0 <= i < |a| :: a[i] < 0x80
    requires WellFormed(b)
    ensures WellFormed(a + b)
  {
    if a == [] {
      assert a + b == b;
    } else {
      WellFormedAsciiPrefix(a[1..], b);
      assert (a + b)[1..] == a[1..] + b;
    }
  }

  /** Text without `%` decodes to itself. */
  lemma {:induction false} DecodePlain(s: Str)
    requires PERCENT !in s
    ensures DecodeURIComponent(s) == Some(s)
  {
    if s != [] {
      assert s == [s[0]] + s[1..];
      DecodePlain(s[1..]);
    }
  }

  /** A hex digit, in either case. */
  predicate IsHex(u: Unit) { 0x30 <= u <= 0x39 || 0x41 <= u <= 0x46 || 0x61 <= u <= 0x66 }

  predicate EscapeAt(s: Str, i: nat) { i + 2 < |s| && s[i] == PERCENT && IsHex(s[i + 1]) && IsHex(s[i + 2]) }

  /** The escape of every byte is read, with its digits in either case. */
  lemma ReadByteExact(s: Str)
    ensures ReadByte(s).Some? <==> EscapeAt(s, 0)
    ensures forall b: Utf8.Byte, high, low :: HexValue(high) == b / 16 && HexValue(low) == b % 16 ==>
              ReadByte([PERCENT, high, low]) == Some(b)
    ensures forall u :: IsHex(u) <==> 0 <= HexValue(u)
    ensures forall d | 0 <= d < 16 :: HexValue(HexDigit(d)) == d && (d >= 10 ==> HexValue(0x61 + (d - 10)) == d)
  {
  }

  predicate PercentsEscape(s: Str) { forall i | 0 <= i < |s| && s[i] == PERCENT :: EscapeAt(s, i) }

  lemma PercentsAfter(s: Str, k: nat)
    requires k <= |s| && PercentsEscape(s[k..]) && forall i | 0 <= i < k && s[i] == PERCENT :: EscapeAt(s, i)
    ensures PercentsEscape(s)
  {
    forall i | 0 <= i < |s| && s[i] == PERCENT
      ensures EscapeAt(s, i)
    {
      if i >= k {
        assert s[k..][i - k] == PERCENT;
        assert EscapeAt(s[k..], i - k);
      }
    }
  }

  /** Where a string decodes, every percent sign begins an escape. */
  lemma {:induction false} DecodedPercents(s: Str)
    requires DecodeURIComponent(s).Some?
    ensures PercentsEscape(s)
    decreases |s|
  {
    if s != [] && s[0] != PERCENT {
      DecodedPercents(s[1..]);
      hide EscapeAt;
      PercentsAfter(s, 1);
    } else if s != [] {
      hide EscapeAt;
      var (_, width) := ReadCodePoint(s).value;
      DecodedPercents(s[width..]);
      ReadPercents(s, width / 3);
      PercentsAfter(s, width);
    }
  }

  lemma {:induction false} ReadPercents(s: Str, n: nat)
    requires ReadBytes(s, n).Some?
    ensures forall i | 0 <= i < 3 * n && s[i] == PERCENT :: EscapeAt(s, i)
    decreases n
  {
    if n > 0 {
      ReadPercents(s[3..], n - 1);
      assert EscapeAt(s, 0);
      forall i | 0 <= i < 3 * n && s[i] == PERCENT
        ensures EscapeAt(s, i)
      {
        if i >= 3 {
          assert s[3..][i - 3] == PERCENT;
          assert EscapeAt(s[3..], i - 3);
        }
      }
    }
  }
}
