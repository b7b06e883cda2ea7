/** `randomHex` of lib/siwe-server.ts as a map over sampled bytes. */
module Hex {
  import opened Text

  type byte = b: int | 0 <= b < 256

  function HexDigit(d: nat): (c: char)
    requires d < 16
    ensures IsLowerHexDigit(c)
  {
    if d < 10 then '0' + d as char else 'a' + (d - 10) as char
  }

  function DigitValue(c: char): (d: nat)
    requires IsLowerHexDigit(c)
    ensures d < 16
  {
    if c <= '9' then (c - '0') as nat else (c - 'a') as nat + 10
  }

  /** The digits are the usual sixteen. */
  lemma HexDigitIs(d: nat)
    requires d < 16
    ensures HexDigit(d) == "0123456789abcdef"[d]
  {
  }

  lemma HexDigitOf(c: char)
    requires IsLowerHexDigit(c)
    ensures HexDigit(DigitValue(c)) == c
  {
  }

  /** Two lower-case hexadecimal digits for each byte. */
  function RandomHex(bytes: seq<byte>): (s: string)
    ensures IsLowerHex(s, 2 * |bytes|)
  {
    if bytes == [] then "" else [HexDigit(bytes[0] / 16), HexDigit(bytes[0] % 16)] + RandomHex(bytes[1..])
  }

  /** Each byte's high digit first, then its low one. */
  lemma {:induction false} RandomHexAt(bytes: seq<byte>, i: nat)
    requires i < |bytes|
    ensures RandomHex(bytes)[2 * i] == "0123456789abcdef"[bytes[i] / 16]
    ensures RandomHex(bytes)[2 * i + 1] == "0123456789abcdef"[bytes[i] % 16]
  {
    HexDigitIs(bytes[i] / 16);
    HexDigitIs(bytes[i] % 16);
    if i > 0 {
      RandomHexAt(bytes[1..], i - 1);
    }
  }

  function Decode(s: string): (bytes: seq<byte>)
    requires IsLowerHex(s, |s|) && |s| % 2 == 0
    ensures 2 * |bytes| == |s|
  {
    if s == "" then [] else [16 * DigitValue(s[0]) + DigitValue(s[1])] + Decode(s[2..])
  }

  /** Decoding recovers the sampled bytes. */
  lemma {:induction false} DecodeRandomHex(bytes: seq<byte>)
    ensures Decode(RandomHex(bytes)) == bytes
  {
    if bytes != [] {
      DecodeRandomHex(bytes[1..]);
      var s := RandomHex(bytes);
      assert s[2..] == RandomHex(bytes[1..]);
      assert 16 * DigitValue(s[0]) + DigitValue(s[1]) == bytes[0];
    }
  }

  /** Every even-length lower-case hexadecimal string is the text of its bytes. */
  lemma {:induction false} RandomHexDecode(s: string)
    requires IsLowerHex(s, |s|) && |s| % 2 == 0
    ensures RandomHex(Decode(s)) == s
  {
    if s != "" {
      RandomHexDecode(s[2..]);
      var high, low, rest := DigitValue(s[0]), DigitValue(s[1]), Decode(s[2..]);
      HexDigitOf(s[0]);
      HexDigitOf(s[1]);
      assert (16 * high + low) / 16 == high && (16 * high + low) % 16 == low;
      assert ([16 * high + low] + rest)[1..] == rest;
      assert s == [s[0], s[1]] + s[2..];
    }
  }

  /** Distinct samples give distinct tokens. */
  lemma RandomHexInjective(a: seq<byte>, b: seq<byte>)
    requires RandomHex(a) == RandomHex(b)
    ensures a == b
  {
    DecodeRandomHex(a);
    DecodeRandomHex(b);
  }
}
