/** `bytesToHex` of the launch check (`joinToString("") { "%02X".format(it) }`)
    and a decoder that inverts it. */
module Hex {
  import opened Common

  /** A Kotlin `Byte`: signed, from -128 to 127. */
  newtype JByte = x: int | -128 <= x < 128

  const HexDigits: string := "0123456789ABCDEF"

  /** A character `%X` can print: a digit or an upper-case letter A to F. */
  predicate IsHexDigit(c: char) {
    '0' <= c <= '9' || 'A' <= c <= 'F'
  }

  predicate IsHex(s: string) {
    forall k | 0 <= k < |s| :: IsHexDigit(s[k])
  }

  /** The unsigned value `%X` prints for a byte: Java adds 256 to a negative
      `Byte`, which is the byte modulo 256. */
  function Unsigned(b: JByte): (u: nat)
    ensures u < 256 && (u - b as int) % 256 == 0
  {
    (b as int) % 256
  }

  /** `"%02X".format(b)`: two upper-case hex digits, the high nibble first. */
  function ByteToHex(b: JByte): (r: string)
    ensures |r| == 2 && IsHex(r)
  {
    var u := Unsigned(b);
    [HexDigits[u / 16], HexDigits[u % 16]]
  }

  /** `bytesToHex`: the digits of every byte, in order, with no separator. */
  function BytesToHex(bytes: seq<JByte>): (r: string)
    ensures |r| == 2 * |bytes| && IsHex(r)
  {
    if bytes == [] then "" else ByteToHex(bytes[0]) + BytesToHex(bytes[1..])
  }

  /** The value of one digit of `HexDigits`. */
  function DigitValue(c: char): (v: nat)
    requires IsHexDigit(c)
    ensures v < 16 && HexDigits[v] == c
  {
    if c <= '9' then c as int - '0' as int else c as int - 'A' as int + 10
  }

  /** The byte whose unsigned value is `u`. */
  function FromUnsigned(u: nat): (b: JByte)
    requires u < 256
    ensures Unsigned(b) == u
  {
    if u < 128 then u as JByte else (u - 256) as JByte
  }

  /** Reads a string of digit pairs back into bytes; `None` for an odd length
      or a character that is not an upper-case hex digit. */
  function HexToBytes(s: string): (r: Option<seq<JByte>>)
    ensures r.Some? ==> |s| == 2 * |r.value|
    decreases |s|
  {
    if s == [] then Some([])
    else if |s| == 1 || !IsHexDigit(s[0]) || !IsHexDigit(s[1]) then None
    else
      match HexToBytes(s[2..])
      case None => None
      case Some(rest) => Some([FromUnsigned(16 * DigitValue(s[0]) + DigitValue(s[1]))] + rest)
  }

  /** The digit at position `i` of `HexDigits` is read back as `i`. */
  lemma DigitValueOfDigit(i: nat)
    requires i < 16
    ensures IsHexDigit(HexDigits[i]) && DigitValue(HexDigits[i]) == i
  {
  }

  /** The two digits of a byte are read back as that byte. */
  lemma DecodeByte(b: JByte)
    ensures var h := ByteToHex(b);
      IsHexDigit(h[0]) && IsHexDigit(h[1]) && FromUnsigned(16 * DigitValue(h[0]) + DigitValue(h[1])) == b
  {
    var u := Unsigned(b);
    DigitValueOfDigit(u / 16);
    DigitValueOfDigit(u % 16);
  }

  /** The byte two digits are read as prints as those two digits. */
  lemma EncodeDigits(hi: nat, lo: nat)
    requires hi < 16 && lo < 16
    ensures ByteToHex(FromUnsigned(16 * hi + lo)) == [HexDigits[hi], HexDigits[lo]]
  {
    var u := 16 * hi + lo;
    DivMod16(hi, lo);
    assert Unsigned(FromUnsigned(u)) == u;
  }

  lemma DivMod16(hi: nat, lo: nat)
    requires lo < 16
    ensures (16 * hi + lo) / 16 == hi && (16 * hi + lo) % 16 == lo
  {
  }

  /** One step of the decoder: a leading digit pair followed by a decodable
      rest. */
  lemma DecodeStep(s: string)
    requires |s| >= 2 && IsHexDigit(s[0]) && IsHexDigit(s[1]) && HexToBytes(s[2..]).Some?
    ensures HexToBytes(s) == Some([FromUnsigned(16 * DigitValue(s[0]) + DigitValue(s[1]))] + HexToBytes(s[2..]).value)
  {
  }

  /** Decoding the hex of any byte sequence gives that sequence back. */
  lemma {:induction false} HexRoundTrip(bytes: seq<JByte>)
    ensures HexToBytes(BytesToHex(bytes)) == Some(bytes)
  {
    if bytes != [] {
      var h := ByteToHex(bytes[0]);
      var t := BytesToHex(bytes[1..]);
      var s := BytesToHex(bytes);
      assert s == h + t;
      HexRoundTrip(bytes[1..]);
      DecodeByte(bytes[0]);
      assert s[0] == h[0] && s[1] == h[1] && s[2..] == t;
      DecodeStep(s);
      assert bytes == [bytes[0]] + bytes[1..];
    }
  }

  /** Whatever decodes was the hex of what it decodes to: together with
      `HexRoundTrip`, hex strings and byte sequences are in one-to-one
      correspondence. */
  lemma {:induction false} HexDecodeSound(s: string)
    requires HexToBytes(s).Some?
    ensures BytesToHex(HexToBytes(s).value) == s
    decreases |s|
  {
    if s != [] {
      HexDecodeSound(s[2..]);
      var hi, lo := DigitValue(s[0]), DigitValue(s[1]);
      var rest := HexToBytes(s[2..]).value;
      var bytes := HexToBytes(s).value;
      assert bytes == [FromUnsigned(16 * hi + lo)] + rest;
      EncodeDigits(hi, lo);
      assert BytesToHex(bytes) == ByteToHex(bytes[0]) + BytesToHex(bytes[1..]);
      assert bytes[1..] == rest;
      assert s == [s[0], s[1]] + s[2..];
    }
  }

  /** `bytesToHex` is injective: different digests never print the same. */
  lemma BytesToHexInjective(a: seq<JByte>, b: seq<JByte>)
    ensures BytesToHex(a) == BytesToHex(b) ==> a == b
  {
    HexRoundTrip(a);
    HexRoundTrip(b);
  }
}
