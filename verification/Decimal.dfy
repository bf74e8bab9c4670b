/** Decimal numerals as the system writes them: no sign, no leading zeros. */
module Decimal {
  /** UTF-16 code units, the characters of the program's strings. */
  type CodeUnit = n: nat | n < 0x1_0000

  type Text = seq<CodeUnit>

  const ZERO: CodeUnit := 48

  predicate IsDigit(c: CodeUnit) { ZERO <= c < ZERO + 10 }

  predicate IsDigits(text: Text) {
    |text| > 0 && forall k :: 0 <= k < |text| ==> IsDigit(text[k])
  }

  predicate IsNumeral(text: Text) {
    IsDigits(text) && (text[0] == ZERO ==> |text| == 1)
  }

  function ValueOf(text: Text): (n: nat)
    requires forall k :: 0 <= k < |text| ==> IsDigit(text[k])
  {
    if text == [] then 0
    else
      var last := text[|text| - 1];
      assert IsDigit(last);
      10 * ValueOf(text[..|text| - 1]) + (last - ZERO)
  }

  function Numeral(n: nat): Text {
    if n < 10 then [ZERO + n] else Numeral(n / 10) + [ZERO + n % 10]
  }

  lemma {:induction false} NumeralsRead(n: nat)
    ensures IsNumeral(Numeral(n)) && ValueOf(Numeral(n)) == n
    ensures n > 0 ==> Numeral(n)[0] != ZERO
  {
    var text := Numeral(n);
    if n < 10 {
      assert text[..0] == [];
      assert ValueOf(text) == 10 * ValueOf(text[..0]) + (text[0] - ZERO);
    } else {
      NumeralsRead(n / 10);
      assert text[..|text| - 1] == Numeral(n / 10);
    }
  }

  lemma {:induction false} NumeralsAreUnique(text: Text)
    requires IsNumeral(text)
    ensures Numeral(ValueOf(text)) == text
    ensures text[0] != ZERO ==> ValueOf(text) > 0
  {
    var init := text[..|text| - 1];
    if init == [] {
      assert text == [text[0]];
      assert ValueOf(init) == 0;
    } else {
      assert text[0] != ZERO && init[0] == text[0];
      NumeralsAreUnique(init);
      assert text == init + [text[|text| - 1]];
    }
  }

  /** Comparing numerals as texts or as numbers is the same thing. */
  lemma SameTextSameNumber(a: Text, b: Text)
    requires IsNumeral(a) && IsNumeral(b)
    ensures a == b <==> ValueOf(a) == ValueOf(b)
  {
    NumeralsAreUnique(a);
    NumeralsAreUnique(b);
  }
}
