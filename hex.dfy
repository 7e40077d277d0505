/** The hexadecimal key codec of cryptoUtils.js (`bufferToHex`, `hexToBuffer`):
    Base16 as in section 8 of RFC 4648, lowercase on output, either case on input. */
module Hex {
  import opened Wrappers
  import opened Bytes

  /** The message `hexToBuffer` throws for malformed input. */
  const InvalidHexMessage := "Invalid HEX string provided."

  /** A digit of the lowercase alphabet `[0-9a-f]`. */
  predicate IsLowerHexDigit(c: char) {
    '0' <= c <= '9' || 'a' <= c <= 'f'
  }

  /** A character of the class `[0-9a-fA-F]`. */
  predicate IsHexDigit(c: char) {
    '0' <= c <= '9' || 'a' <= c <= 'f' || 'A' <= c <= 'F'
  }

  /** The digit `Number.prototype.toString(16)` writes for a value below 16. */
  function NibbleDigit(n: nat): (c: char)
    requires n < 16
    ensures IsLowerHexDigit(c)
  {
    if n < 10 then ('0' as int + n) as char else ('a' as int + n - 10) as char
  }

  /** The value `parseInt(_, 16)` gives one hex digit, in either case. */
  function DigitValue(c: char): (n: nat)
    requires IsHexDigit(c)
    ensures n < 16
  {
    if '0' <= c <= '9' then c as int - '0' as int
    else if 'a' <= c <= 'f' then c as int - 'a' as int + 10
    else c as int - 'A' as int + 10
  }

  /** The lowercase form of a hex digit. */
  function LowerDigit(c: char): (l: char)
    requires IsHexDigit(c)
    ensures IsLowerHexDigit(l) && DigitValue(l) == DigitValue(c)
  {
    if 'A' <= c <= 'F' then (c as int - 'A' as int + 'a' as int) as char else c
  }

  /** Writing a digit and reading it back gives the nibble; reading a digit and
      writing it back gives its lowercase form. */
  lemma DigitRoundTrip(n: nat, c: char)
    requires n < 16 && IsHexDigit(c)
    ensures DigitValue(NibbleDigit(n)) == n
    ensures NibbleDigit(DigitValue(c)) == LowerDigit(c)
  {
  }

  /** `b.toString(16).padStart(2, '0')`. */
  function ByteToHex(b: byte): (h: string)
    ensures |h| == 2 && IsLowerHexDigit(h[0]) && IsLowerHexDigit(h[1])
    ensures 16 * DigitValue(h[0]) + DigitValue(h[1]) == b
  {
    [NibbleDigit(b / 16), NibbleDigit(b % 16)]
  }

  /** `bufferToHex`: each byte becomes its two zero-padded lowercase digits, joined
      without separators. */
  function BufferToHex(buf: seq<byte>): (h: string)
    ensures |h| == 2 * |buf|
    ensures forall i | 0 <= i < |h| :: IsLowerHexDigit(h[i])
    ensures forall i | 0 <= i < |buf| :: h[2 * i..2 * i + 2] == ByteToHex(buf[i])
  {
    if buf == [] then "" else
      var rest := BufferToHex(buf[1..]);
      var h := ByteToHex(buf[0]) + rest;
      assert forall i | 1 <= i < |buf| :: h[2 * i..2 * i + 2] == rest[2 * (i - 1)..2 * (i - 1) + 2];
      h
  }

  /** The test `/^[0-9a-fA-F]*$/` that `hexToBuffer` applies. */
  predicate IsHexString(s: string) {
    forall i | 0 <= i < |s| :: IsHexDigit(s[i])
  }

  /** The input `hexToBuffer` accepts: hex characters only, and an even number of them. */
  predicate ValidHex(s: string) {
    IsHexString(s) && |s| % 2 == 0
  }

  /** `parseInt(hi + lo, 16)` for two hex digits. */
  function PairValue(hi: char, lo: char): byte
    requires IsHexDigit(hi) && IsHexDigit(lo)
  {
    16 * DigitValue(hi) + DigitValue(lo)
  }

  /** The bytes a valid hex string denotes. */
  function Decoded(s: string): seq<byte>
    requires ValidHex(s)
  {
    seq(|s| / 2, i requires 0 <= i < |s| / 2 => PairValue(s[2 * i], s[2 * i + 1]))
  }

  /** The lowercase form of a hex string. */
  function Lowercase(s: string): (l: string)
    requires IsHexString(s)
    ensures |l| == |s| && forall i | 0 <= i < |s| :: l[i] == LowerDigit(s[i])
  {
    seq(|s|, i requires 0 <= i < |s| => LowerDigit(s[i]))
  }

  /** `hexToBuffer`: rejects input that is not an even-length hex string, otherwise
      fills a fresh buffer of half the length, one byte per pair of digits. */
  method HexToBuffer(hex: string) returns (r: Result<seq<byte>>)
    ensures r.Failure? <==> !IsHexString(hex) || |hex| % 2 != 0
    ensures r.Failure? ==> r.error == InvalidHexMessage
    ensures r.Success? ==> |r.value| == |hex| / 2
    ensures r.Success? ==> forall i | 0 <= i < |r.value| ::
              r.value[i] == 16 * DigitValue(hex[2 * i]) + DigitValue(hex[2 * i + 1])
    ensures r.Success? ==> r.value == Decoded(hex)
  {
    if !IsHexString(hex) || |hex| % 2 != 0 {
      return Failure(InvalidHexMessage);
    }
    var bytes := new byte[|hex| / 2];
    var i := 0;
    while i < |hex|
      invariant 0 <= i <= |hex| && i % 2 == 0
      invariant forall k | 0 <= k < i / 2 :: bytes[k] == PairValue(hex[2 * k], hex[2 * k + 1])
    {
      bytes[i / 2] := PairValue(hex[i], hex[i + 1]);
      i := i + 2;
    }
    return Success(bytes[..]);
  }

  /** Round trip: every buffer is a valid hex string once encoded, and decodes back to itself. */
  lemma DecodeEncoded(buf: seq<byte>)
    ensures ValidHex(BufferToHex(buf))
    ensures Decoded(BufferToHex(buf)) == buf
  {
    var h := BufferToHex(buf);
    assert |Decoded(h)| == |buf|;
    forall i | 0 <= i < |buf| ensures Decoded(h)[i] == buf[i] {
      assert h[2 * i..2 * i + 2] == ByteToHex(buf[i]);
      assert h[2 * i] == ByteToHex(buf[i])[0] && h[2 * i + 1] == ByteToHex(buf[i])[1];
    }
  }

  /** The other round trip: decoding then encoding yields the lowercase form of the input,
      so decoding ignores case and the encoder's output is the canonical spelling. */
  lemma EncodeDecoded(s: string)
    requires ValidHex(s)
    ensures BufferToHex(Decoded(s)) == Lowercase(s)
  {
    var d := Decoded(s);
    var h := BufferToHex(d);
    forall i | 0 <= i < |d| ensures h[2 * i] == LowerDigit(s[2 * i]) && h[2 * i + 1] == LowerDigit(s[2 * i + 1]) {
      PairRoundTrip(s[2 * i], s[2 * i + 1]);
      assert h[2 * i..2 * i + 2] == ByteToHex(d[i]);
      assert h[2 * i] == ByteToHex(d[i])[0] && h[2 * i + 1] == ByteToHex(d[i])[1];
    }
    forall j | 0 <= j < |s| ensures h[j] == LowerDigit(s[j]) {
      var i := j / 2;
      assert j == 2 * i || j == 2 * i + 1;
    }
  }

  /** Encoding the value of two digits writes their lowercase forms. */
  lemma PairRoundTrip(hi: char, lo: char)
    requires IsHexDigit(hi) && IsHexDigit(lo)
    ensures ByteToHex(PairValue(hi, lo)) == [LowerDigit(hi), LowerDigit(lo)]
  {
    var b := PairValue(hi, lo);
    assert b / 16 == DigitValue(hi) && b % 16 == DigitValue(lo);
    DigitRoundTrip(0, hi);
    DigitRoundTrip(0, lo);
  }

  /** Two buffers have the same hex text exactly when they are equal. */
  lemma HexInjective(a: seq<byte>, b: seq<byte>)
    ensures BufferToHex(a) == BufferToHex(b) <==> a == b
  {
    if BufferToHex(a) == BufferToHex(b) {
      DecodeEncoded(a);
      DecodeEncoded(b);
    }
  }
}
