/**
 * The URL- and filename-safe base64 alphabet of section 5 of RFC 4648,
 * with '=' padding, as Go's `base64.URLEncoding` implements it: the
 * encoder of `EncodeToString` and the (non-strict) decoder of
 * `DecodeString`, which skips '\r' and '\n' anywhere in its input and
 * ignores the unused low bits of a padded final quantum.
 */
module Base64Url {
  import opened Prelude

  /** A six-bit group, the value one base64 character carries. */
  type Sextet = v: int | 0 <= v < 64

  const PadChar: Byte := 61  // '='
  const LineFeed: Byte := 10
  const CarriageReturn: Byte := 13

  /** The character that stands for `v`: A-Z, a-z, 0-9, '-', '_'. */
  function Char(v: Sextet): (c: Byte)
    ensures c != PadChar && c != LineFeed && c != CarriageReturn
  {
    if v < 26 then 65 + v
    else if v < 52 then 71 + v
    else if v < 62 then v - 4
    else if v == 62 then 45
    else 95
  }

  /** Go's decode map: the value of an alphabet character, None otherwise. */
  function Value(c: Byte): (r: Option<Sextet>)
    ensures r.Some? ==> Char(r.value) == c
  {
    if 65 <= c <= 90 then Some(c - 65)
    else if 97 <= c <= 122 then Some(c - 71)
    else if 48 <= c <= 57 then Some(c + 4)
    else if c == 45 then Some(62)
    else if c == 95 then Some(63)
    else None
  }

  lemma ValueOfChar(v: Sextet)
    ensures Value(Char(v)) == Some(v)
  {
  }

  /** The bytes that may appear in an encoding: the alphabet and '='. */
  predicate IsEncodingByte(c: Byte)
  {
    Value(c).Some? || c == PadChar
  }

  function Encode(s: Bytes): (r: GoString)
    ensures |r| == 4 * ((|s| + 2) / 3)
    ensures |s| > 0 ==> |r| >= 4
    ensures forall i :: 0 <= i < |r| ==> IsEncodingByte(r[i])
    decreases |s|
  {
    if |s| == 0 then []
    else if |s| == 1 then
      [Char(s[0] / 4), Char(s[0] % 4 * 16), PadChar, PadChar]
    else if |s| == 2 then
      [Char(s[0] / 4), Char(s[0] % 4 * 16 + s[1] / 16), Char(s[1] % 16 * 4), PadChar]
    else
      EncodeQuantum(s[0], s[1], s[2]) + Encode(s[3..])
  }

  /** Three bytes as four characters. */
  function EncodeQuantum(b0: Byte, b1: Byte, b2: Byte): (r: GoString)
    ensures |r| == 4 && forall i :: 0 <= i < 4 ==> Value(r[i]).Some?
  {
    ValueOfChar(b0 / 4);
    ValueOfChar(b0 % 4 * 16 + b1 / 16);
    ValueOfChar(b1 % 16 * 4 + b2 / 64);
    ValueOfChar(b2 % 64);
    [Char(b0 / 4), Char(b0 % 4 * 16 + b1 / 16), Char(b1 % 16 * 4 + b2 / 64), Char(b2 % 64)]
  }

  /** The input with every '\r' and '\n' removed. */
  function StripNewlines(s: GoString): (r: GoString)
    ensures |r| <= |s|
  {
    if s == [] then []
    else if s[0] == LineFeed || s[0] == CarriageReturn then StripNewlines(s[1..])
    else [s[0]] + StripNewlines(s[1..])
  }

  /** Go's `URLEncoding.DecodeString`. */
  function Decode(s: GoString): Result<Bytes>
  {
    DecodeStripped(StripNewlines(s))
  }

  /**
   * Decoding once newlines are gone: whole quanta of four characters; only
   * the last may end in "=" or "==", and the input may not end mid-quantum.
   */
  function DecodeStripped(s: GoString): Result<Bytes>
    decreases |s|
  {
    if |s| == 0 then Ok([])
    else if |s| < 4 then Err(CorruptInput)
    else
      match DecodeQuantum(s[0], s[1], s[2], s[3], |s| == 4)
      case Err(e) => Err(e)
      case Ok(head) =>
        if |s| == 4 then Ok(head)
        else
          match DecodeStripped(s[4..])
          case Err(e) => Err(e)
          case Ok(tail) => Ok(head + tail)
  }

  /**
   * One quantum. Padding is accepted only in the last quantum (`last`),
   * as "xx==" or "xxx="; the unused low bits are dropped.
   */
  function DecodeQuantum(c0: Byte, c1: Byte, c2: Byte, c3: Byte, last: bool): (r: Result<Bytes>)
    ensures r.Ok? ==> 1 <= |r.value| <= 3
    ensures r.Ok? && |r.value| < 3 ==> last
  {
    match (Value(c0), Value(c1), Value(c2), Value(c3))
    case (Some(v0), Some(v1), Some(v2), Some(v3)) =>
      Ok([Byte0(v0, v1), Byte1(v1, v2), Byte2(v2, v3)])
    case (Some(v0), Some(v1), Some(v2), None) =>
      if c3 == PadChar && last then Ok([Byte0(v0, v1), Byte1(v1, v2)])
      else Err(CorruptInput)
    case (Some(v0), Some(v1), None, None) =>
      if c2 == PadChar && c3 == PadChar && last then Ok([Byte0(v0, v1)])
      else Err(CorruptInput)
    case _ => Err(CorruptInput)
  }

  /** The bytes a quantum's sextets carry (Go: shifts of a 24-bit value). */
  function Byte0(v0: Sextet, v1: Sextet): Byte { v0 * 4 + v1 / 16 }
  function Byte1(v1: Sextet, v2: Sextet): Byte { v1 % 16 * 16 + v2 / 4 }
  function Byte2(v2: Sextet, v3: Sextet): Byte { v2 % 4 * 64 + v3 }

  lemma {:induction false} StripNewlinesOfEncoding(s: GoString)
    requires forall i :: 0 <= i < |s| ==> IsEncodingByte(s[i])
    ensures StripNewlines(s) == s
  {
    if s != [] {
      assert IsEncodingByte(s[0]);
      StripNewlinesOfEncoding(s[1..]);
    }
  }

  lemma QuantumRoundTrip(b0: Byte, b1: Byte, b2: Byte, last: bool)
    ensures var q := EncodeQuantum(b0, b1, b2);
            DecodeQuantum(q[0], q[1], q[2], q[3], last) == Ok([b0, b1, b2])
  {
    var v0: Sextet, v1: Sextet, v2: Sextet, v3: Sextet := b0 / 4, b0 % 4 * 16 + b1 / 16, b1 % 16 * 4 + b2 / 64, b2 % 64;
    QuantumBytes(b0, b1, b2);
    ValueOfChar(v0);
    ValueOfChar(v1);
    ValueOfChar(v2);
    ValueOfChar(v3);
    var q := EncodeQuantum(b0, b1, b2);
    assert q == [Char(v0), Char(v1), Char(v2), Char(v3)];
  }

  /** The sextets of three bytes give those bytes back. */
  lemma QuantumBytes(b0: Byte, b1: Byte, b2: Byte)
    ensures Byte0(b0 / 4, b0 % 4 * 16 + b1 / 16) == b0
    ensures Byte1(b0 % 4 * 16 + b1 / 16, b1 % 16 * 4 + b2 / 64) == b1
    ensures Byte2(b1 % 16 * 4 + b2 / 64, b2 % 64) == b2
  {
    assert (b0 % 4 * 16 + b1 / 16) / 16 == b0 % 4;
    assert (b0 % 4 * 16 + b1 / 16) % 16 == b1 / 16;
    assert (b1 % 16 * 4 + b2 / 64) / 4 == b1 % 16;
    assert (b1 % 16 * 4 + b2 / 64) % 4 == b2 / 64;
  }

  lemma SingleRoundTrip(b0: Byte)
    ensures DecodeStripped(Encode([b0])) == Ok([b0])
  {
    var v0: Sextet, v1: Sextet := b0 / 4, b0 % 4 * 16;
    SingleBytes(b0);
    ValueOfChar(v0);
    ValueOfChar(v1);
    var e := Encode([b0]);
    assert e == [Char(v0), Char(v1), PadChar, PadChar];
    assert Value(PadChar) == None;
    assert DecodeQuantum(e[0], e[1], e[2], e[3], true) == Ok([Byte0(v0, v1)]);
  }

  /** The sextets of a lone final byte give it back. */
  lemma SingleBytes(b0: Byte)
    ensures Byte0(b0 / 4, b0 % 4 * 16) == b0
  {
    assert (b0 % 4 * 16) / 16 == b0 % 4;
  }

  lemma PairRoundTrip(b0: Byte, b1: Byte)
    ensures DecodeStripped(Encode([b0, b1])) == Ok([b0, b1])
  {
    var v0: Sextet, v1: Sextet, v2: Sextet := b0 / 4, b0 % 4 * 16 + b1 / 16, b1 % 16 * 4;
    PairBytes(b0, b1);
    ValueOfChar(v0);
    ValueOfChar(v1);
    ValueOfChar(v2);
    var e := Encode([b0, b1]);
    assert e == [Char(v0), Char(v1), Char(v2), PadChar];
    assert Value(PadChar) == None;
    assert DecodeQuantum(e[0], e[1], e[2], e[3], true) == Ok([Byte0(v0, v1), Byte1(v1, v2)]);
  }

  /** The sextets of two final bytes give them back. */
  lemma PairBytes(b0: Byte, b1: Byte)
    ensures Byte0(b0 / 4, b0 % 4 * 16 + b1 / 16) == b0
    ensures Byte1(b0 % 4 * 16 + b1 / 16, b1 % 16 * 4) == b1
  {
    assert (b0 % 4 * 16 + b1 / 16) / 16 == b0 % 4;
    assert (b0 % 4 * 16 + b1 / 16) % 16 == b1 / 16;
    assert (b1 % 16 * 4) / 4 == b1 % 16;
  }

  lemma QuantumStep(s: Bytes)
    requires |s| >= 3
    requires DecodeStripped(Encode(s[3..])) == Ok(s[3..])
    ensures DecodeStripped(Encode(s)) == Ok(s)
  {
    var q := EncodeQuantum(s[0], s[1], s[2]);
    var rest := Encode(s[3..]);
    assert Encode(s) == q + rest;
    QuantumRoundTrip(s[0], s[1], s[2], rest == []);
    SplitHead(s);
    DecodeAfterQuantum(q, rest, [s[0], s[1], s[2]], s[3..]);
  }

  /** Decoding a leading quantum followed by the rest of an input. */
  lemma DecodeAfterQuantum(q: GoString, rest: GoString, head: Bytes, tail: Bytes)
    requires |q| == 4 && DecodeQuantum(q[0], q[1], q[2], q[3], rest == []) == Ok(head)
    requires rest == [] ==> tail == []
    requires rest != [] ==> DecodeStripped(rest) == Ok(tail)
    ensures DecodeStripped(q + rest) == Ok(head + tail)
  {
    var e := q + rest;
    assert e[0] == q[0] && e[1] == q[1] && e[2] == q[2] && e[3] == q[3];
    if rest == [] {
      assert e == q;
      assert head + tail == head;
    } else {
      assert e[4..] == rest;
    }
  }

  lemma SplitHead(s: Bytes)
    requires |s| >= 3
    ensures s == [s[0], s[1], s[2]] + s[3..]
  {
  }

  lemma {:induction false} DecodeStrippedEncode(s: Bytes)
    ensures DecodeStripped(Encode(s)) == Ok(s)
    decreases |s|
  {
    if |s| == 0 {
    } else if |s| == 1 {
      assert s == [s[0]];
      SingleRoundTrip(s[0]);
    } else if |s| == 2 {
      assert s == [s[0], s[1]];
      PairRoundTrip(s[0], s[1]);
    } else {
      DecodeStrippedEncode(s[3..]);
      QuantumStep(s);
    }
  }

  /** Decoding an encoding gives back exactly the encoded bytes. */
  lemma RoundTrip(s: Bytes)
    ensures Decode(Encode(s)) == Ok(s)
  {
    StripNewlinesOfEncoding(Encode(s));
    DecodeStrippedEncode(s);
  }
}
