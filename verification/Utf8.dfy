/** UTF-8 (sections 3 and 4 of RFC 3629), used by percent-encoding and by the
    file viewer's prefix decoder. */
module Utf8 {
  import opened CodeUnits

  type Byte = b: int | 0 <= b < 0x100

  predicate IsScalar(cp: int) {
    0 <= cp < 0xD800 || 0xE000 <= cp < 0x110000
  }

  predicate IsContinuation(b: Byte) { 0x80 <= b < 0xC0 }

  function Encode(cp: int): (bytes: seq<Byte>)
    requires IsScalar(cp)
    ensures 1 <= |bytes| <= 4
  {
    var q1 := cp / 0x40;
    var q2 := q1 / 0x40;
    var q3 := q2 / 0x40;
    if cp < 0x80 then [cp]
    else if cp < 0x800 then [0xC0 + q1, 0x80 + cp % 0x40]
    else if cp < 0x10000 then [0xE0 + q2, 0x80 + q1 % 0x40, 0x80 + cp % 0x40]
    else [0xF0 + q3, 0x80 + q2 % 0x40, 0x80 + q1 % 0x40, 0x80 + cp % 0x40]
  }

  /** The sequence length a lead byte announces; 0 for a byte that cannot lead. */
  function LeadLength(b: Byte): (n: nat)
    ensures n <= 4
  {
    if b < 0x80 then 1
    else if b < 0xC0 then 0
    else if b < 0xE0 then 2
    else if b < 0xF0 then 3
    else if b < 0xF8 then 4
    else 0
  }

  /** The base-64 value of a lead byte's payload followed by continuation bytes. */
  function Payload(high: int, tail: seq<Byte>): int
    decreases |tail|
  {
    if tail == [] then high else Payload(high * 0x40 + (tail[0] as int - 0x80), tail[1..])
  }

  predicate Continuations(tail: seq<Byte>) {
    forall b <- tail :: IsContinuation(b)
  }

  /** Decode exactly one code point; rejects overlong forms, surrogates and
      values above U+10FFFF. */
  function Decode(bytes: seq<Byte>): (r: Option<int>)
    requires bytes != []
    ensures r.Some? ==> IsScalar(r.value) && LeadLength(bytes[0]) == |bytes|
  {
    var n := |bytes|;
    if LeadLength(bytes[0]) != n || !Continuations(bytes[1..]) then None
    else if n == 1 then Some(bytes[0])
    else
      var mark: int := if n == 2 then 0xC0 else if n == 3 then 0xE0 else 0xF0;
      var least: int := if n == 2 then 0x80 else if n == 3 then 0x800 else 0x10000;
      var cp := Payload(bytes[0] as int - mark, bytes[1..]);
      if least <= cp && IsScalar(cp) then Some(cp) else None
  }

  lemma PayloadUnfold(high: int, tail: seq<Byte>)
    requires 1 <= |tail| <= 3
    ensures Payload(high, tail) ==
      if |tail| == 1 then high * 0x40 + (tail[0] as int - 0x80)
      else if |tail| == 2 then (high * 0x40 + (tail[0] as int - 0x80)) * 0x40 + (tail[1] as int - 0x80)
      else ((high * 0x40 + (tail[0] as int - 0x80)) * 0x40 + (tail[1] as int - 0x80)) * 0x40 + (tail[2] as int - 0x80)
  {
    var h1 := high * 0x40 + (tail[0] as int - 0x80);
    if |tail| > 1 {
      var h2 := h1 * 0x40 + (tail[1] as int - 0x80);
      assert Payload(h1, tail[1..]) == Payload(h2, tail[1..][1..]);
      if |tail| > 2 {
        var h3 := h2 * 0x40 + (tail[2] as int - 0x80);
        assert Payload(h2, tail[1..][1..]) == Payload(h3, tail[1..][1..][1..]);
      }
    }
  }

  lemma DecodeEncode(cp: int)
    requires IsScalar(cp)
    ensures Decode(Encode(cp)) == Some(cp)
  {
    var bytes := Encode(cp);
    if |bytes| > 1 {
      var mark: int := if |bytes| == 2 then 0xC0 else if |bytes| == 3 then 0xE0 else 0xF0;
      PayloadUnfold(bytes[0] as int - mark, bytes[1..]);
    }
  }

  lemma LastDigit(q: int, d: int)
    requires 0 <= d < 0x40
    ensures (q * 0x40 + d) % 0x40 == d && (q * 0x40 + d) / 0x40 == q
  {
  }

  lemma EncodeDecode(bytes: seq<Byte>)
    requires bytes != [] && Decode(bytes).Some?
    ensures IsScalar(Decode(bytes).value)
    ensures Encode(Decode(bytes).value) == bytes
  {
    if |bytes| > 1 {
      forall i | 1 <= i < |bytes|
        ensures IsContinuation(bytes[i])
      {
        assert bytes[i] == bytes[1..][i - 1];
      }
      var mark: int := if |bytes| == 2 then 0xC0 else if |bytes| == 3 then 0xE0 else 0xF0;
      var high := bytes[0] as int - mark;
      PayloadUnfold(high, bytes[1..]);
      var d1 := bytes[1] as int - 0x80;
      LastDigit(high, d1);
      if |bytes| > 2 {
        var h1 := high * 0x40 + d1;
        var d2 := bytes[2] as int - 0x80;
        LastDigit(h1, d2);
        if |bytes| > 3 {
          LastDigit(h1 * 0x40 + d2, bytes[3] as int - 0x80);
        }
      }
    }
  }
}
