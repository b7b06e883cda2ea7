/** Text as the store and the routes see it: binary collation, fixed-width
    decimal printing, ASCII case folding and hexadecimal strings. */
module Text {
  datatype Option<+T> = None | Some(value: T)

  /** SQLite's BINARY collation on ASCII text, the order behind `gt` and `lte`. */
  predicate TextLess(a: string, b: string)
  {
    b != [] && (a == [] || a[0] < b[0] || (a[0] == b[0] && TextLess(a[1..], b[1..])))
  }

  predicate TextAtMost(a: string, b: string)
  {
    a == b || TextLess(a, b)
  }

  /** Lexicographic order on sequences of numbers of one length. */
  predicate SeqLess(f: seq<int>, g: seq<int>)
    requires |f| == |g|
  {
    f != [] && (f[0] < g[0] || (f[0] == g[0] && SeqLess(f[1..], g[1..])))
  }

  lemma {:induction false} TextTotal(a: string, b: string)
    ensures TextLess(a, b) || TextLess(b, a) || a == b
    ensures !(TextLess(a, b) && TextLess(b, a))
    ensures !TextLess(a, a)
  {
    if a != [] && b != [] {
      TextTotal(a[1..], b[1..]);
      assert a == [a[0]] + a[1..] && b == [b[0]] + b[1..];
      TextTotal(a[1..], a[1..]);
    } else if a != [] {
      TextTotal(a[1..], a[1..]);
    }
  }

  /** Comparing concatenations: the first parts decide unless they are equal. */
  lemma {:induction false} TextLessConcat(a: string, b: string, x: string, y: string)
    requires |a| == |b|
    ensures TextLess(a + x, b + y) <==> TextLess(a, b) || (a == b && TextLess(x, y))
  {
    if a == [] {
      assert a + x == x && b + y == y;
    } else {
      TextLessConcat(a[1..], b[1..], x, y);
      assert (a + x)[1..] == a[1..] + x && (b + y)[1..] == b[1..] + y;
      assert a == [a[0]] + a[1..] && b == [b[0]] + b[1..];
    }
  }

  function Pow10(width: nat): (p: nat)
    ensures p > 0
  {
    if width == 0 then 1 else 10 * Pow10(width - 1)
  }

  function Digit(d: nat): (c: char)
    requires d < 10
  {
    '0' + d as char
  }

  /** The last `width` decimal digits of `n`, padded with zeros on the left. */
  function Pad(n: nat, width: nat): (s: string)
    ensures |s| == width
    ensures forall k :: 0 <= k < width ==> '0' <= s[k] <= '9'
  {
    if width == 0 then "" else Pad(n / 10, width - 1) + [Digit(n % 10)]
  }

  /** On numbers that fit, fixed-width printing preserves and reflects order. */
  lemma {:induction false} PadOrder(m: nat, n: nat, width: nat)
    requires m < Pow10(width) && n < Pow10(width)
    ensures TextLess(Pad(m, width), Pad(n, width)) <==> m < n
    ensures Pad(m, width) == Pad(n, width) <==> m == n
  {
    if width > 0 {
      PadOrder(m / 10, n / 10, width - 1);
      var a, b := Pad(m / 10, width - 1), Pad(n / 10, width - 1);
      var x, y := [Digit(m % 10)], [Digit(n % 10)];
      TextLessConcat(a, b, x, y);
      assert TextLess(x, y) <==> m % 10 < n % 10;
      assert Pad(m, width) == Pad(n, width) ==> a == b && x == y by {
        assert Pad(m, width)[..width - 1] == a && Pad(n, width)[..width - 1] == b;
        assert Pad(m, width)[width - 1] == x[0] && Pad(n, width)[width - 1] == y[0];
      }
    }
  }

  function LowerChar(c: char): (r: char)
  {
    if 'A' <= c <= 'Z' then 'a' + (c - 'A') else c
  }

  /** `String.prototype.toLowerCase` on ASCII text. */
  function Lower(s: string): (r: string)
    ensures |r| == |s|
    ensures forall k :: 0 <= k < |s| ==> r[k] == LowerChar(s[k])
  {
    seq(|s|, i requires 0 <= i < |s| => LowerChar(s[i]))
  }

  predicate IsCapital(c: char) { 'A' <= c <= 'Z' }

  /** The two cases of one letter, thirty-two code points apart. */
  predicate CasePair(capital: char, small: char)
  {
    IsCapital(capital) && small as int == capital as int + 32
  }

  /** The same text but for the case of ASCII letters. */
  predicate SameUpToCase(a: string, b: string)
  {
    |a| == |b| && forall k :: 0 <= k < |a| ==> a[k] == b[k] || CasePair(a[k], b[k]) || CasePair(b[k], a[k])
  }

  predicate NoCapitals(s: string) { forall k :: 0 <= k < |s| ==> !IsCapital(s[k]) }

  /** Lower-casing merges exactly the texts that agree up to case. */
  lemma LowerMerges(a: string, b: string)
    ensures Lower(a) == Lower(b) <==> SameUpToCase(a, b)
  {
    if Lower(a) == Lower(b) {
      forall k | 0 <= k < |a|
        ensures a[k] == b[k] || CasePair(a[k], b[k]) || CasePair(b[k], a[k])
      {
        assert Lower(a)[k] == Lower(b)[k];
      }
    }
  }

  /** It changes no text without capitals, leaves none in any, and keeps every
      text up to case. */
  lemma LowerFixes(s: string)
    ensures NoCapitals(Lower(s)) && SameUpToCase(s, Lower(s)) && (NoCapitals(s) ==> Lower(s) == s)
  {
  }

  const HEX_DIGITS := "0123456789abcdefABCDEF"

  lemma HexDigits(c: char)
    ensures IsHexDigit(c) <==> c in HEX_DIGITS
    ensures IsLowerHexDigit(c) <==> c in HEX_DIGITS[..16]
  {
    assert HEX_DIGITS == "0123456789abcdef" + "ABCDEF";
  }

  predicate IsHexDigit(c: char) { '0' <= c <= '9' || 'a' <= c <= 'f' || 'A' <= c <= 'F' }

  predicate IsLowerHexDigit(c: char) { '0' <= c <= '9' || 'a' <= c <= 'f' }

  predicate IsLowerHex(s: string, length: nat)
  {
    |s| == length && forall k :: 0 <= k < |s| ==> IsLowerHexDigit(s[k])
  }

  /** `/^0x[0-9a-fA-F]{n}$/` */
  predicate IsHexWord(s: string, length: nat)
  {
    |s| == length + 2 && s[0] == '0' && s[1] == 'x' && forall k :: 2 <= k < |s| ==> IsHexDigit(s[k])
  }

  predicate IsAddress(s: string) { IsHexWord(s, 40) }

  /** `/^0x[0-9a-f]{40}$/` */
  predicate IsLowerAddress(s: string) { IsAddress(s) && IsLowerHex(s[2..], 40) }

  lemma LowerAddress(s: string)
    requires IsAddress(s)
    ensures IsLowerAddress(Lower(s))
  {
    var r := Lower(s);
    assert forall k :: 2 <= k < |s| ==> IsHexDigit(s[k]) && IsLowerHexDigit(r[k]);
    assert forall k :: 0 <= k < 40 ==> r[2..][k] == r[k + 2];
  }
}
