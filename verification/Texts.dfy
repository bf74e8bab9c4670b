/** Text shapes that several components insist on. */
module Texts {
  predicate IsHexDigit(c: char) {
    '0' <= c <= '9' || 'a' <= c <= 'f' || 'A' <= c <= 'F'
  }

  /** 0x and 32 bytes of hex. */
  predicate IsHash(text: string) {
    |text| == 66 && text[..2] == "0x" && forall k :: 2 <= k < 66 ==> IsHexDigit(text[k])
  }

  predicate IsSpace(c: char) {
    || '\t' <= c <= '\r' || c == ' ' || c == '\U{00A0}' || c == '\U{1680}' || '\U{2000}' <= c <= '\U{200A}'
    || c == '\U{2028}' || c == '\U{2029}' || c == '\U{202F}' || c == '\U{205F}' || c == '\U{3000}' || c == '\U{FEFF}'
  }

  /** Nothing is left after trimming. */
  predicate IsBlank(text: string) {
    forall k :: 0 <= k < |text| ==> IsSpace(text[k])
  }

  const HEX_DIGITS := "0123456789abcdef"

  /** The number's last `width` hex digits. */
  function Hex(n: nat, width: nat): (text: string)
    ensures |text| == width && forall k :: 0 <= k < width ==> IsHexDigit(text[k])
  {
    if width == 0 then "" else Hex(n / 16, width - 1) + [HEX_DIGITS[n % 16]]
  }

  /** 0x and 32 bytes. */
  function HashText(n: nat): (text: string)
    ensures IsHash(text)
  {
    "0x" + Hex(n, 64)
  }

  /** `String(n)`. */
  function Digits(n: nat): string {
    if n < 10 then [('0' as int + n) as char] else Digits(n / 10) + Digits(n % 10)
  }

  lemma {:induction false} DigitsAreDigits(n: nat)
    ensures |Digits(n)| > 0 && forall k :: 0 <= k < |Digits(n)| ==> '0' <= Digits(n)[k] <= '9'
  {
    if n >= 10 {
      DigitsAreDigits(n / 10);
      DigitsAreDigits(n % 10);
    }
  }

  lemma {:induction false} DigitsAreUnique(a: nat, b: nat)
    requires Digits(a) == Digits(b)
    ensures a == b
    decreases a
  {
    DigitsAreDigits(a / 10);
    DigitsAreDigits(b / 10);
    if a >= 10 && b >= 10 {
      var s := Digits(a);
      assert |Digits(a % 10)| == |Digits(b % 10)| == 1;
      assert s[..|s| - 1] == Digits(a / 10) == Digits(b / 10);
      assert s[|s| - 1] == Digits(a % 10)[0] == Digits(b % 10)[0];
      DigitsAreUnique(a / 10, b / 10);
    }
  }

  /** A text splits at its first colon in one way. */
  lemma SplitsAtColon(a: string, x: string, b: string, y: string)
    requires ':' !in a && ':' !in b && a + ":" + x == b + ":" + y
    ensures a == b && x == y
  {
    var whole, other := a + ":" + x, b + ":" + y;
    assert whole[|a|] == ':' && other[|b|] == ':';
    assert forall k :: 0 <= k < |a| ==> whole[k] == a[k];
    assert forall k :: 0 <= k < |b| ==> other[k] == b[k];
    assert a == whole[..|a|] && b == other[..|b|];
    assert x == whole[|a| + 1..] && y == other[|b| + 1..];
  }
}
