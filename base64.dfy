/** Go's `base64.StdEncoding.EncodeToString`: the standard alphabet and "="
    padding of section 4 of RFC 4648, with a decoder for its output. */
module Base64 {
  import opened Wrappers

  type byte = x: int | 0 <= x < 256
  type sextet = x: int | 0 <= x < 64

  const Pad: char := '='

  /** The character of a 6-bit value: A-Z, a-z, 0-9, '+', '/'. */
  function Digit(v: sextet): (c: char)
    ensures c != Pad
  {
    if v < 26 then ('A' as int + v) as char
    else if v < 52 then ('a' as int + (v - 26)) as char
    else if v < 62 then ('0' as int + (v - 52)) as char
    else if v == 62 then '+'
    else '/'
  }

  predicate IsDigit(c: char) {
    'A' <= c <= 'Z' || 'a' <= c <= 'z' || '0' <= c <= '9' || c == '+' || c == '/'
  }

  /** The value of an alphabet character. */
  function DigitValue(c: char): (v: sextet)
    requires IsDigit(c)
  {
    if 'A' <= c <= 'Z' then c as int - 'A' as int
    else if 'a' <= c <= 'z' then c as int - 'a' as int + 26
    else if '0' <= c <= '9' then c as int - '0' as int + 52
    else if c == '+' then 62
    else 63
  }

  lemma DigitRoundTrip(v: sextet)
    ensures IsDigit(Digit(v)) && DigitValue(Digit(v)) == v
  {
  }

  /** Three bytes as four characters. */
  function Quantum(b0: byte, b1: byte, b2: byte): string {
    [Digit(b0 / 4), Digit((b0 % 4) * 16 + b1 / 16), Digit((b1 % 16) * 4 + b2 / 64), Digit(b2 % 64)]
  }

  /** EncodeToString: each group of three bytes gives four characters; a
      final group of one or two bytes gives two or three, padded with "=". */
  function Encode(data: seq<byte>): (s: string)
    ensures |s| == 4 * ((|data| + 2) / 3)
    decreases |data|
  {
    if |data| == 0 then ""
    else if |data| == 1 then [Digit(data[0] / 4), Digit((data[0] % 4) * 16), Pad, Pad]
    else if |data| == 2 then
      [Digit(data[0] / 4), Digit((data[0] % 4) * 16 + data[1] / 16), Digit((data[1] % 16) * 4), Pad]
    else Quantum(data[0], data[1], data[2]) + Encode(data[3..])
  }

  /** Every character of an encoding is in the alphabet, except the "=" of
      the padding, which only ends the text. */
  lemma {:induction false} EncodeAlphabet(data: seq<byte>)
    ensures var s := Encode(data);
            forall k :: 0 <= k < |s| ==> IsDigit(s[k]) || (s[k] == Pad && k >= |s| - 2)
    decreases |data|
  {
    if |data| > 2 {
      var q := Quantum(data[0], data[1], data[2]);
      EncodeAlphabet(data[3..]);
      DigitRoundTrip(data[0] / 4);
      DigitRoundTrip((data[0] % 4) * 16 + data[1] / 16);
      DigitRoundTrip((data[1] % 16) * 4 + data[2] / 64);
      DigitRoundTrip(data[2] % 64);
      var s := Encode(data);
      assert s == q + Encode(data[3..]);
      forall k | 0 <= k < |s|
        ensures IsDigit(s[k]) || (s[k] == Pad && k >= |s| - 2)
      {
        if k >= 4 {
          assert s[k] == Encode(data[3..])[k - 4];
        }
      }
    } else if |data| == 1 {
      DigitRoundTrip(data[0] / 4);
      DigitRoundTrip((data[0] % 4) * 16);
    } else if |data| == 2 {
      DigitRoundTrip(data[0] / 4);
      DigitRoundTrip((data[0] % 4) * 16 + data[1] / 16);
      DigitRoundTrip((data[1] % 16) * 4);
    }
  }

  /** A decoder for padded standard Base64: groups of four characters, the
      last of which may end in one or two "=". */
  function Decode(s: string): (r: Option<seq<byte>>)
    decreases |s|
  {
    if |s| == 0 then Some([])
    else if |s| < 4 then None
    else if |s| == 4 && IsDigit(s[0]) && IsDigit(s[1]) && s[2] == Pad && s[3] == Pad then
      Some([DigitValue(s[0]) * 4 + DigitValue(s[1]) / 16])
    else if |s| == 4 && IsDigit(s[0]) && IsDigit(s[1]) && IsDigit(s[2]) && s[3] == Pad then
      Some([DigitValue(s[0]) * 4 + DigitValue(s[1]) / 16,
            (DigitValue(s[1]) % 16) * 16 + DigitValue(s[2]) / 4])
    else if IsDigit(s[0]) && IsDigit(s[1]) && IsDigit(s[2]) && IsDigit(s[3]) then
      var c0, c1, c2, c3 := DigitValue(s[0]), DigitValue(s[1]), DigitValue(s[2]), DigitValue(s[3]);
      match Decode(s[4..])
      case None => None
      case Some(rest) => Some([c0 * 4 + c1 / 16, (c1 % 16) * 16 + c2 / 4, (c2 % 4) * 64 + c3] + rest)
    else None
  }

  lemma QuantumRoundTrip(b0: byte, b1: byte, b2: byte)
    ensures var c0, c1, c2, c3 := b0 / 4, (b0 % 4) * 16 + b1 / 16, (b1 % 16) * 4 + b2 / 64, b2 % 64;
            && c0 * 4 + c1 / 16 == b0
            && (c1 % 16) * 16 + c2 / 4 == b1
            && (c2 % 4) * 64 + c3 == b2
  {
  }

  lemma DecodeOneByte(b0: byte)
    ensures Decode([Digit(b0 / 4), Digit((b0 % 4) * 16), Pad, Pad]) == Some([b0])
  {
    DigitRoundTrip(b0 / 4);
    DigitRoundTrip((b0 % 4) * 16);
    QuantumRoundTrip(b0, 0, 0);
  }

  lemma DecodeTwoBytes(b0: byte, b1: byte)
    ensures Decode([Digit(b0 / 4), Digit((b0 % 4) * 16 + b1 / 16), Digit((b1 % 16) * 4), Pad]) == Some([b0, b1])
  {
    DigitRoundTrip(b0 / 4);
    DigitRoundTrip((b0 % 4) * 16 + b1 / 16);
    DigitRoundTrip((b1 % 16) * 4);
    QuantumRoundTrip(b0, b1, 0);
  }

  lemma DecodeQuantum(b0: byte, b1: byte, b2: byte, rest: string, tail: seq<byte>)
    requires Decode(rest) == Some(tail)
    ensures Decode(Quantum(b0, b1, b2) + rest) == Some([b0, b1, b2] + tail)
  {
    var s := Quantum(b0, b1, b2) + rest;
    DigitRoundTrip(b0 / 4);
    DigitRoundTrip((b0 % 4) * 16 + b1 / 16);
    DigitRoundTrip((b1 % 16) * 4 + b2 / 64);
    DigitRoundTrip(b2 % 64);
    QuantumRoundTrip(b0, b1, b2);
    assert s[4..] == rest;
    assert s[2] != Pad && s[3] != Pad;
  }

  /** Decoding an encoding gives back the bytes. */
  lemma {:induction false} DecodeEncode(data: seq<byte>)
    ensures Decode(Encode(data)) == Some(data)
    decreases |data|
  {
    if |data| == 1 {
      DecodeOneByte(data[0]);
      assert data == [data[0]];
    } else if |data| == 2 {
      DecodeTwoBytes(data[0], data[1]);
      assert data == [data[0], data[1]];
    } else if |data| > 2 {
      DecodeEncode(data[3..]);
      DecodeQuantum(data[0], data[1], data[2], Encode(data[3..]), data[3..]);
      assert data == [data[0], data[1], data[2]] + data[3..];
    }
  }

  /** A state of 1024 random bytes is 1368 characters long. */
  lemma StateLength(data: seq<byte>)
    requires |data| == 1024
    ensures |Encode(data)| == 1368
  {
  }
}
