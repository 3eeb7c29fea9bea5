/** Unicode scalar values, their UTF-8 bytes (section 3 of RFC 3629) and their UTF-16 units. */
module Unicode {

  type Scalar = c: nat | c < 0xD800 || 0xE000 <= c < 0x11_0000 witness 0
  type Byte = b: nat | b < 256
  type Unit = u: nat | u < 0x1_0000

  const REPLACEMENT: Scalar := 0xFFFD

  // ---------- UTF-8 ----------

  function Bytes(c: Scalar): (bs: seq<Byte>)
    ensures 1 <= |bs| <= 4
    ensures !IsContinuation(bs[0]) && forall k | 0 < k < |bs| :: IsContinuation(bs[k])
  {
    if c < 0x80 then [c]
    else if c < 0x800 then [0xC0 + c / 64, 0x80 + c % 64]
    else if c < 0x1_0000 then [0xE0 + c / 64 / 64, 0x80 + c / 64 % 64, 0x80 + c % 64]
    else [0xF0 + c / 64 / 64 / 64, 0x80 + c / 64 / 64 % 64, 0x80 + c / 64 % 64, 0x80 + c % 64]
  }

  /** The two high bits are 10, which the source tests with a mask. */
  predicate IsContinuation(b: Byte) {
    b / 64 == 2
  }

  function Utf8(cs: seq<Scalar>): seq<Byte> {
    if cs == [] then [] else Bytes(cs[0]) + Utf8(cs[1..])
  }

  /** The length of the sequence a lead byte announces. */
  function Announced(b: Byte): nat {
    if b < 0x80 then 1 else if b < 0xE0 then 2 else if b < 0xF0 then 3 else 4
  }

  /** The payload bits of the byte at `k`. */
  function Payload(bs: seq<Byte>, k: nat): int
    requires k < |bs|
  {
    bs[k] as int - 0x80
  }

  function Value(bs: seq<Byte>): int
    requires |bs| >= 1 && |bs| >= Announced(bs[0])
  {
    var lead := bs[0] as int;
    if lead < 0x80 then lead
    else if lead < 0xE0 then (lead - 0xC0) * 64 + Payload(bs, 1)
    else if lead < 0xF0 then ((lead - 0xE0) * 64 + Payload(bs, 1)) * 64 + Payload(bs, 2)
    else (((lead - 0xF0) * 64 + Payload(bs, 1)) * 64 + Payload(bs, 2)) * 64 + Payload(bs, 3)
  }

  predicate IsScalar(v: int) {
    0 <= v < 0xD800 || 0xE000 <= v < 0x11_0000
  }

  /** Decoding; a byte that starts no well-formed sequence becomes a replacement character. */
  function Decoded(bs: seq<Byte>): seq<Scalar> {
    if bs == [] then []
    else if |bs| >= Announced(bs[0]) && IsScalar(Value(bs)) && Bytes(Value(bs)) <= bs
    then [Value(bs)] + Decoded(bs[Announced(bs[0])..])
    else [REPLACEMENT] + Decoded(bs[1..])
  }

  lemma ValueOfBytes(c: Scalar, rest: seq<Byte>)
    ensures Announced((Bytes(c) + rest)[0]) == |Bytes(c)|
    ensures Value(Bytes(c) + rest) == c
  {}

  /** The lengths of section 3 of RFC 3629, and the lead bytes that go with them. */
  lemma EncodingLengths(c: Scalar)
    ensures |Bytes(c)| == 1 <==> c <= 0x7F
    ensures |Bytes(c)| == 2 <==> 0x80 <= c <= 0x7FF
    ensures |Bytes(c)| == 3 <==> 0x800 <= c <= 0xFFFF
    ensures |Bytes(c)| == 4 <==> 0x1_0000 <= c <= 0x10_FFFF
    ensures |Bytes(c)| == 1 ==> Bytes(c)[0] == c
    ensures |Bytes(c)| == 2 ==> 0xC2 <= Bytes(c)[0] <= 0xDF
    ensures |Bytes(c)| == 3 ==> 0xE0 <= Bytes(c)[0] <= 0xEF
    ensures |Bytes(c)| == 4 ==> 0xF0 <= Bytes(c)[0] <= 0xF4
  {}

  /** No byte sequence that decodes to a scalar value is shorter than its encoding. */
  lemma EncodingShortest(c: Scalar, bs: seq<Byte>)
    requires bs != [] && |bs| == Announced(bs[0]) && Value(bs) == c
    requires forall k | 0 < k < |bs| :: IsContinuation(bs[k])
    ensures |Bytes(c)| <= |bs|
  {
    EncodingLengths(c);
    forall k | 0 < k < |bs| ensures 0 <= Payload(bs, k) < 64 {}
  }

  lemma {:induction false} Utf8RoundTrip(cs: seq<Scalar>)
    ensures Decoded(Utf8(cs)) == cs
  {
    if cs != [] {
      var bs := Utf8(cs);
      var rest := Utf8(cs[1..]);
      ValueOfBytes(cs[0], rest);
      assert bs == Bytes(cs[0]) + rest;
      assert bs[|Bytes(cs[0])|..] == rest;
      Utf8RoundTrip(cs[1..]);
    }
  }

  lemma {:induction false} Utf8Concat(xs: seq<Scalar>, ys: seq<Scalar>)
    ensures Utf8(xs + ys) == Utf8(xs) + Utf8(ys)
  {
    if xs == [] {
      assert xs + ys == ys;
    } else {
      assert (xs + ys)[1..] == xs[1..] + ys;
      Utf8Concat(xs[1..], ys);
    }
  }

  // ---------- UTF-16 ----------

  function Units(c: Scalar): (us: seq<Unit>)
    ensures 1 <= |us| <= 2
  {
    if c < 0x1_0000 then [c] else [0xD800 + (c - 0x1_0000) / 1024, 0xDC00 + (c - 0x1_0000) % 1024]
  }

  function Utf16(cs: seq<Scalar>): seq<Unit> {
    if cs == [] then [] else Units(cs[0]) + Utf16(cs[1..])
  }

  predicate IsHigh(u: Unit) { 0xD800 <= u < 0xDC00 }

  predicate IsLow(u: Unit) { 0xDC00 <= u < 0xE000 }

  /** The scalar values of a string; an unpaired surrogate becomes a replacement character. */
  function Scalars(us: seq<Unit>): seq<Scalar> {
    if us == [] then []
    else if IsHigh(us[0]) && |us| > 1 && IsLow(us[1])
    then [0x1_0000 + (us[0] - 0xD800) * 1024 + us[1] - 0xDC00] + Scalars(us[2..])
    else [if IsHigh(us[0]) || IsLow(us[0]) then REPLACEMENT else us[0]] + Scalars(us[1..])
  }

  /** One unit below 0x10000, else a high and a low surrogate. */
  lemma UnitLengths(c: Scalar)
    ensures |Units(c)| == 1 <==> c < 0x1_0000
    ensures |Units(c)| == 1 ==> Units(c)[0] == c && !IsHigh(Units(c)[0]) && !IsLow(Units(c)[0])
    ensures |Units(c)| == 2 ==> 0xD800 <= Units(c)[0] <= 0xDBFF && 0xDC00 <= Units(c)[1] <= 0xDFFF
  {}

  lemma {:induction false} Utf16RoundTrip(cs: seq<Scalar>)
    ensures Scalars(Utf16(cs)) == cs
  {
    if cs != [] {
      var us := Utf16(cs);
      var rest := Utf16(cs[1..]);
      assert us[|Units(cs[0])|..] == rest;
      Utf16RoundTrip(cs[1..]);
    }
  }

  lemma {:induction false} Utf16Concat(xs: seq<Scalar>, ys: seq<Scalar>)
    ensures Utf16(xs + ys) == Utf16(xs) + Utf16(ys)
  {
    if xs == [] {
      assert xs + ys == ys;
    } else {
      assert (xs + ys)[1..] == xs[1..] + ys;
      Utf16Concat(xs[1..], ys);
    }
  }
}
