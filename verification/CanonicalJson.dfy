/** Canonical JSON: objects print with their keys in code-unit order, whatever
    order they were built in. Numbers are integers here. */
module CanonicalJson {
  import opened Wrappers
  import opened Decimal
  import Texts

  datatype List<+T> = Nil | Cons(head: T, tail: List<T>)

  /** An object's members in insertion order. */
  datatype Members<+T> = End | Member(key: Text, value: T, rest: Members<T>)

  datatype Value =
    | Null
    | Bool(b: bool)
    | Number(n: int)
    | String(text: Text)
    | Array(items: List<Value>)
    | Object(members: Members<Value>)

  const QUOTE: CodeUnit := 34
  const COMMA: CodeUnit := 44
  const MINUS: CodeUnit := 45
  const COLON: CodeUnit := 58
  const LBRACKET: CodeUnit := 91
  const BACKSLASH: CodeUnit := 92
  const RBRACKET: CodeUnit := 93
  const LBRACE: CodeUnit := 123
  const RBRACE: CodeUnit := 125
  const NULL_TEXT: Text := [110, 117, 108, 108]
  const TRUE_TEXT: Text := [116, 114, 117, 101]
  const FALSE_TEXT: Text := [102, 97, 108, 115, 101]

  // ---------------------------------------------------------------- key order

  /** The default sort order of strings: lexicographic by code unit. */
  predicate Precedes(a: Text, b: Text) {
    if b == [] then false
    else if a == [] then true
    else a[0] < b[0] || (a[0] == b[0] && Precedes(a[1..], b[1..]))
  }

  lemma {:induction false} KeysAreOrdered(a: Text, b: Text)
    ensures Precedes(a, b) || a == b || Precedes(b, a)
    ensures !(Precedes(a, b) && Precedes(b, a)) && !Precedes(a, a)
  {
    if a != [] { KeysAreOrdered(a[1..], if b == [] then [] else b[1..]); }
    if a != [] && b != [] && a[1..] == b[1..] && a[0] == b[0] {
      assert a == [a[0]] + a[1..] && b == [b[0]] + b[1..];
    }
  }

  lemma {:induction false} PrecedesTransitively(a: Text, b: Text, c: Text)
    requires Precedes(a, b) && Precedes(b, c)
    ensures Precedes(a, c)
  {
    if a != [] && a[0] == b[0] == c[0] {
      PrecedesTransitively(a[1..], b[1..], c[1..]);
    }
  }

  function Insert<T>(key: Text, value: T, members: Members<T>): Members<T> {
    if members.End? || Precedes(key, members.key) then Member(key, value, members)
    else Member(members.key, members.value, Insert(key, value, members.rest))
  }

  function SortByKey<T>(members: Members<T>): Members<T> {
    if members.End? then End else Insert(members.key, members.value, SortByKey(members.rest))
  }

  // ---------------------------------------------------------------- the printer

  predicate IsLead(c: CodeUnit) { 0xD800 <= c < 0xDC00 }

  predicate IsTrail(c: CodeUnit) { 0xDC00 <= c < 0xE000 }

  function HexDigit(d: nat): CodeUnit
    requires d < 16
  {
    if d < 10 then ZERO + d else 97 + d - 10
  }

  function UnicodeEscape(c: CodeUnit): Text {
    [BACKSLASH, 117, HexDigit(c / 4096), HexDigit(c / 256 % 16), HexDigit(c / 16 % 16), HexDigit(c % 16)]
  }

  /** One code unit that is not half of a surrogate pair. */
  function EscapeUnit(c: CodeUnit): Text {
    if c == QUOTE || c == BACKSLASH then [BACKSLASH, c]
    else if c == 8 then [BACKSLASH, 98]
    else if c == 9 then [BACKSLASH, 116]
    else if c == 10 then [BACKSLASH, 110]
    else if c == 12 then [BACKSLASH, 102]
    else if c == 13 then [BACKSLASH, 114]
    else if c < 32 || IsLead(c) || IsTrail(c) then UnicodeEscape(c)
    else [c]
  }

  function Escape(text: Text): Text {
    if text == [] then []
    else if IsLead(text[0]) && |text| > 1 && IsTrail(text[1]) then [text[0], text[1]] + Escape(text[2..])
    else EscapeUnit(text[0]) + Escape(text[1..])
  }

  function Quoted(text: Text): Text {
    [QUOTE] + Escape(text) + [QUOTE]
  }

  function PrintInt(n: int): Text {
    if n < 0 then [MINUS] + Numeral(-n) else Numeral(n)
  }

  /** `canonicalJson`. */
  function Print(v: Value): Text {
    match v
    case Null => NULL_TEXT
    case Bool(b) => if b then TRUE_TEXT else FALSE_TEXT
    case Number(n) => PrintInt(n)
    case String(text) => Quoted(text)
    case Array(items) => [LBRACKET] + JoinItems(PrintItems(items)) + [RBRACKET]
    case Object(members) => [LBRACE] + JoinMembers(SortByKey(PrintValues(members))) + [RBRACE]
  }

  function PrintItems(items: List<Value>): List<Text> {
    if items.Nil? then Nil else Cons(Print(items.head), PrintItems(items.tail))
  }

  function PrintValues(members: Members<Value>): Members<Text> {
    if members.End? then End else Member(members.key, Print(members.value), PrintValues(members.rest))
  }

  function JoinItems(items: List<Text>): Text {
    if items.Nil? then []
    else if items.tail.Nil? then items.head
    else items.head + [COMMA] + JoinItems(items.tail)
  }

  function JoinMembers(members: Members<Text>): Text {
    if members.End? then []
    else
      var first := Quoted(members.key) + [COLON] + members.value;
      if members.rest.End? then first else first + [COMMA] + JoinMembers(members.rest)
  }

  // ---------------------------------------------------------------- the text is JSON

  function Units(s: string): (text: Text)
    ensures |text| == |s|
  {
    seq(|s|, i requires 0 <= i < |s| => Unit(s[i]))
  }

  function Unit(c: char): CodeUnit {
    if (c as int) < 0x10000 then c as int else 0xFFFD
  }

  /** The escapes of ECMA-262's QuoteJSONString: quote and backslash, the five short
      ones, four lower-case hex digits for other controls and lone surrogates, and
      nothing else. */
  lemma EscapesAsJson(c: CodeUnit)
    ensures EscapeUnit(Unit('"')) == Units("\\\"") && EscapeUnit(Unit('\\')) == Units("\\\\")
    ensures EscapeUnit(8) == Units("\\b") && EscapeUnit(9) == Units("\\t") && EscapeUnit(10) == Units("\\n")
    ensures EscapeUnit(12) == Units("\\f") && EscapeUnit(13) == Units("\\r")
    ensures (c < 32 && c !in {8, 9, 10, 12, 13}) || 0xD800 <= c < 0xE000 ==>
              EscapeUnit(c) == Units("\\u" + Texts.Hex(c, 4))
    ensures (32 <= c < 0xD800 || 0xE000 <= c) && c != Unit('"') && c != Unit('\\') ==> EscapeUnit(c) == [c]
  {
    HexHasFourDigits(c);
  }

  lemma HexStep(n: nat, width: nat)
    requires width > 0
    ensures Texts.Hex(n, width) == Texts.Hex(n / 16, width - 1) + [Texts.HEX_DIGITS[n % 16]]
  {
  }

  lemma HexOfNone(n: nat)
    ensures Texts.Hex(n, 0) == ""
  {
  }

  lemma DigitsAreHex(d: nat)
    requires d < 16
    ensures Unit(Texts.HEX_DIGITS[d]) == HexDigit(d)
  {
  }

  lemma SixteenthsCompose(c: CodeUnit)
    ensures c / 16 / 16 == c / 256 && c / 256 / 16 == c / 4096 < 16
  {
  }

  lemma HexOfTwo(n: nat)
    requires n < 256
    ensures Texts.Hex(n, 2) == [Texts.HEX_DIGITS[n / 16], Texts.HEX_DIGITS[n % 16]]
  {
    hide Texts.Hex;
    HexStep(n, 2);
    HexStep(n / 16, 1);
    HexOfNone(n / 16 / 16);
  }

  lemma HexTwoMore(n: nat)
    ensures Texts.Hex(n, 4) == Texts.Hex(n / 16 / 16, 2) + [Texts.HEX_DIGITS[n / 16 % 16], Texts.HEX_DIGITS[n % 16]]
  {
    hide Texts.Hex;
    HexStep(n, 4);
    HexStep(n / 16, 3);
  }

  lemma HexOfFour(c: CodeUnit)
    ensures c / 4096 < 16
    ensures Texts.Hex(c, 4) == [Texts.HEX_DIGITS[c / 4096], Texts.HEX_DIGITS[c / 256 % 16], Texts.HEX_DIGITS[c / 16 % 16],
                                Texts.HEX_DIGITS[c % 16]]
  {
    SixteenthsCompose(c);
    hide Texts.Hex;
    HexTwoMore(c);
    HexOfTwo(c / 256);
  }

  lemma HexHasFourDigits(c: CodeUnit)
    ensures UnicodeEscape(c) == Units("\\u" + Texts.Hex(c, 4))
  {
    HexOfFour(c);
    DigitsAreHex(c / 4096);
    DigitsAreHex(c / 256 % 16);
    DigitsAreHex(c / 16 % 16);
    DigitsAreHex(c % 16);
    hide Texts.Hex, HexDigit;
    var text := "\\u" + Texts.Hex(c, 4);
    assert |text| == 6 && text[0] == '\\' && text[1] == 'u';
    assert Unit('\\') == BACKSLASH && Unit('u') == 117;
  }

  /** The literals and numbers, as they are written. */
  lemma LiteralsAsJson(n: int, text: Text)
    ensures Print(Null) == Units("null") && Print(Bool(true)) == Units("true") && Print(Bool(false)) == Units("false")
    ensures Print(Number(n)) == if n < 0 then Units("-") + Numeral(-n) else Numeral(n)
    ensures Print(String(text)) == Units("\"") + Escape(text) + Units("\"")
    ensures Print(Array(Nil)) == Units("[]") && Print(Object(End)) == Units("{}")
  {
    hide Escape, Numeral;
  }

  /** What stands around items and members, and between them. */
  lemma BracketsAsJson(items: List<Value>, members: Members<Value>)
    ensures Print(Array(items)) == Units("[") + JoinItems(PrintItems(items)) + Units("]")
    ensures Print(Object(members)) == Units("{") + JoinMembers(SortByKey(PrintValues(members))) + Units("}")
  {
    hide SortByKey, PrintItems, PrintValues;
  }

  lemma SeparatorsAsJson(first: Text, second: Text, items: List<Text>, key: Text, other: Text, members: Members<Text>)
    ensures JoinItems(Cons(first, Cons(second, items))) == first + Units(",") + JoinItems(Cons(second, items))
    ensures JoinMembers(Member(key, first, End)) == Quoted(key) + Units(":") + first
    ensures JoinMembers(Member(key, first, Member(other, second, members)))
         == JoinMembers(Member(key, first, End)) + Units(",") + JoinMembers(Member(other, second, members))
  {
    hide Quoted;
  }

  // ---------------------------------------------------------------- the parser

  datatype Parsed<+T> = Parsed(value: T, rest: Text)

  function HexValue(c: CodeUnit): Option<nat> {
    if IsDigit(c) then Some(c - ZERO) else if 97 <= c < 103 then Some(c - 97 + 10) else None
  }

  /** The four digits of a \u escape. */
  function ParseHex(text: Text): Option<CodeUnit>
    requires |text| >= 4
  {
    var a, b, c, d := HexValue(text[0]), HexValue(text[1]), HexValue(text[2]), HexValue(text[3]);
    if a.None? || b.None? || c.None? || d.None? || a.value >= 16 || b.value >= 16 || c.value >= 16 || d.value >= 16
    then None
    else Some(a.value * 4096 + b.value * 256 + c.value * 16 + d.value)
  }

  function ParseEscape(text: Text): (p: Option<Parsed<CodeUnit>>)
    ensures p.Some? ==> |p.value.rest| < |text|
  {
    if text == [] then None
    else if text[0] == QUOTE || text[0] == BACKSLASH then Some(Parsed(text[0], text[1..]))
    else if text[0] == 98 then Some(Parsed(8, text[1..]))
    else if text[0] == 116 then Some(Parsed(9, text[1..]))
    else if text[0] == 110 then Some(Parsed(10, text[1..]))
    else if text[0] == 102 then Some(Parsed(12, text[1..]))
    else if text[0] == 114 then Some(Parsed(13, text[1..]))
    else if text[0] != 117 || |text| < 5 then None
    else
      var c := ParseHex(text[1..5]);
      if c.None? then None else Some(Parsed(c.value, text[5..]))
  }

  /** The characters up to the closing quote. */
  function ParseChars(text: Text): (p: Option<Parsed<Text>>)
    ensures p.Some? ==> |p.value.rest| < |text|
    decreases |text|
  {
    if text == [] then None
    else if text[0] == QUOTE then Some(Parsed([], text[1..]))
    else if text[0] == BACKSLASH then
      var c := ParseEscape(text[1..]);
      if c.None? then None
      else
        var more := ParseChars(c.value.rest);
        if more.None? then None else Some(Parsed([c.value.value] + more.value.value, more.value.rest))
    else
      var more := ParseChars(text[1..]);
      if more.None? then None else Some(Parsed([text[0]] + more.value.value, more.value.rest))
  }

  function DigitsLength(text: Text): (n: nat)
    ensures n <= |text|
    ensures forall k :: 0 <= k < n ==> IsDigit(text[k])
  {
    if text == [] || !IsDigit(text[0]) then 0 else 1 + DigitsLength(text[1..])
  }

  function ParseNat(text: Text): (p: Option<Parsed<nat>>)
    ensures p.Some? ==> |p.value.rest| < |text|
  {
    var n := DigitsLength(text);
    if n == 0 then None else Some(Parsed(ValueOf(text[..n]), text[n..]))
  }

  function ParseLiteral(text: Text): (p: Option<Parsed<Value>>)
    ensures p.Some? ==> |p.value.rest| < |text|
  {
    if NULL_TEXT <= text then Some(Parsed(Null, text[4..]))
    else if TRUE_TEXT <= text then Some(Parsed(Bool(true), text[4..]))
    else if FALSE_TEXT <= text then Some(Parsed(Bool(false), text[5..]))
    else None
  }

  function ParseNumber(text: Text): (p: Option<Parsed<Value>>)
    requires text != []
    ensures p.Some? ==> |p.value.rest| < |text|
  {
    if text[0] == MINUS then
      var p := ParseNat(text[1..]);
      if p.None? then None
      else
        var magnitude: int := p.value.value;
        Some(Parsed(Number(-magnitude), p.value.rest))
    else
      var p := ParseNat(text);
      if p.None? then None else Some(Parsed(Number(p.value.value), p.value.rest))
  }

  function ParseString(text: Text): (p: Option<Parsed<Value>>)
    requires text != []
    ensures p.Some? ==> |p.value.rest| < |text|
  {
    var p := ParseChars(text[1..]);
    if p.None? then None else Some(Parsed(String(p.value.value), p.value.rest))
  }

  /** The first character says what kind of value follows. */
  function ParseValue(text: Text): (p: Option<Parsed<Value>>)
    ensures p.Some? ==> |p.value.rest| < |text|
    decreases |text|, 0
  {
    if text == [] then None
    else if text[0] == QUOTE then ParseString(text)
    else if text[0] == MINUS || IsDigit(text[0]) then ParseNumber(text)
    else if text[0] == LBRACKET then
      if |text| > 1 && text[1] == RBRACKET then Some(Parsed(Array(Nil), text[2..]))
      else
        var p := ParseItems(text[1..]);
        if p.None? then None else Some(Parsed(Array(p.value.value), p.value.rest))
    else if text[0] == LBRACE then
      if |text| > 1 && text[1] == RBRACE then Some(Parsed(Object(End), text[2..]))
      else
        var p := ParseMembers(text[1..]);
        if p.None? then None else Some(Parsed(Object(p.value.value), p.value.rest))
    else ParseLiteral(text)
  }

  /** One or more items and the closing bracket. */
  function ParseItems(text: Text): (p: Option<Parsed<List<Value>>>)
    ensures p.Some? ==> |p.value.rest| < |text|
    decreases |text|, 1
  {
    var first := ParseValue(text);
    if first.None? || first.value.rest == [] then None
    else if first.value.rest[0] == RBRACKET then Some(Parsed(Cons(first.value.value, Nil), first.value.rest[1..]))
    else if first.value.rest[0] != COMMA then None
    else
      var more := ParseItems(first.value.rest[1..]);
      if more.None? then None else Some(Parsed(Cons(first.value.value, more.value.value), more.value.rest))
  }

  /** One or more members and the closing brace. */
  function ParseMembers(text: Text): (p: Option<Parsed<Members<Value>>>)
    ensures p.Some? ==> |p.value.rest| < |text|
    decreases |text|, 1
  {
    if text == [] || text[0] != QUOTE then None
    else
      var key := ParseChars(text[1..]);
      if key.None? || key.value.rest == [] || key.value.rest[0] != COLON then None
      else
        var first := ParseValue(key.value.rest[1..]);
        if first.None? || first.value.rest == [] then None
        else if first.value.rest[0] == RBRACE
        then Some(Parsed(Member(key.value.value, first.value.value, End), first.value.rest[1..]))
        else if first.value.rest[0] != COMMA then None
        else
          var more := ParseMembers(first.value.rest[1..]);
          if more.None? then None
          else Some(Parsed(Member(key.value.value, first.value.value, more.value.value), more.value.rest))
  }

  // ---------------------------------------------------------------- strings and numbers read back

  lemma HexReadsBack(c: CodeUnit)
    ensures var digits := UnicodeEscape(c)[2..]; |digits| == 4 && ParseHex(digits) == Some(c)
  {
    assert c / 4096 < 16;
    var a, b, d := c / 4096, c / 256 % 16, c / 16 % 16;
    assert c / 16 == (c / 256) * 16 + d && c / 256 == a * 16 + b;
    HexDigitReadsBack(a);
    HexDigitReadsBack(b);
    HexDigitReadsBack(d);
    HexDigitReadsBack(c % 16);
  }

  lemma HexDigitReadsBack(d: nat)
    requires d < 16
    ensures HexValue(HexDigit(d)) == Some(d)
  {
  }

  /** What parses `text` parses `unit` followed by it, one character longer. */
  ghost predicate ReadsAs(unit: Text, c: CodeUnit, s: Text) {
    ParseChars(s).Some? ==>
      ParseChars(unit + s) == Some(Parsed([c] + ParseChars(s).value.value, ParseChars(s).value.rest))
  }

  lemma RawReadsBack(c: CodeUnit, s: Text)
    requires c != QUOTE && c != BACKSLASH
    ensures ReadsAs([c], c, s)
  {
  }

  lemma UnitReadsBack(c: CodeUnit, s: Text)
    ensures ReadsAs(EscapeUnit(c), c, s)
  {
    var unit := EscapeUnit(c);
    var text := unit + s;
    if unit[0] == BACKSLASH {
      var escaped := text[1..];
      if |unit| == 6 {
        HexReadsBack(c);
        assert escaped[1..5] == UnicodeEscape(c)[2..];
        assert escaped[5..] == s;
      } else {
        assert escaped[1..] == s;
      }
      assert ParseEscape(escaped) == Some(Parsed(c, s));
    } else {
      RawReadsBack(c, s);
    }
  }

  predicate ReadsBack(text: Text, s: Text) {
    ParseChars(Escape(text) + ([QUOTE] + s)) == Some(Parsed(text, s))
  }

  lemma PairReadsBack(text: Text, s: Text)
    requires |text| > 1 && IsLead(text[0]) && IsTrail(text[1]) && ReadsBack(text[2..], s)
    ensures ReadsBack(text, s)
  {
    hide ParseChars;
    var more := Escape(text[2..]) + ([QUOTE] + s);
    RawReadsBack(text[1], more);
    RawReadsBack(text[0], [text[1]] + more);
    assert Escape(text) + ([QUOTE] + s) == [text[0]] + ([text[1]] + more);
    assert [text[0]] + ([text[1]] + text[2..]) == text;
  }

  lemma UnpairedReadsBack(text: Text, s: Text)
    requires text != [] && !(|text| > 1 && IsLead(text[0]) && IsTrail(text[1])) && ReadsBack(text[1..], s)
    ensures ReadsBack(text, s)
  {
    hide ParseChars, EscapeUnit;
    var more := Escape(text[1..]) + ([QUOTE] + s);
    UnitReadsBack(text[0], more);
    assert Escape(text) + ([QUOTE] + s) == EscapeUnit(text[0]) + more;
    assert [text[0]] + text[1..] == text;
  }

  lemma {:induction false} EscapedReadsBack(text: Text, s: Text)
    ensures ReadsBack(text, s)
  {
    if text == [] {
      assert Escape(text) + ([QUOTE] + s) == [QUOTE] + s;
      assert ([QUOTE] + s)[1..] == s;
    } else if |text| > 1 && IsLead(text[0]) && IsTrail(text[1]) {
      EscapedReadsBack(text[2..], s);
      PairReadsBack(text, s);
    } else {
      EscapedReadsBack(text[1..], s);
      UnpairedReadsBack(text, s);
    }
  }

  /** What may follow a value: nothing, or a delimiter. */
  predicate Stops(s: Text) {
    s == [] || s[0] == COMMA || s[0] == RBRACKET || s[0] == RBRACE
  }

  lemma {:induction false} DigitsStop(digits: Text, s: Text)
    requires (forall k :: 0 <= k < |digits| ==> IsDigit(digits[k])) && Stops(s)
    ensures DigitsLength(digits + s) == |digits|
  {
    if digits == [] {
      assert digits + s == s;
    } else {
      assert IsDigit(digits[0]);
      assert (digits + s)[1..] == digits[1..] + s;
      DigitsStop(digits[1..], s);
    }
  }

  lemma NumeralReadsBack(n: nat, s: Text)
    requires Stops(s)
    ensures ParseNat(Numeral(n) + s) == Some(Parsed(n, s))
  {
    NumeralsRead(n);
    DigitsStop(Numeral(n), s);
    assert (Numeral(n) + s)[..|Numeral(n)|] == Numeral(n);
    assert (Numeral(n) + s)[|Numeral(n)|..] == s;
  }

  lemma IntReadsBack(n: int, s: Text)
    requires Stops(s)
    ensures ParseNumber(PrintInt(n) + s) == Some(Parsed(Number(n), s))
    ensures PrintInt(n)[0] == MINUS || IsDigit(PrintInt(n)[0])
  {
    if n < 0 { NegativeReadsBack(n, s); } else { NaturalReadsBack(n, s); }
  }

  lemma NegativeReadsBack(n: int, s: Text)
    requires Stops(s) && n < 0
    ensures ParseNumber(PrintInt(n) + s) == Some(Parsed(Number(n), s)) && PrintInt(n)[0] == MINUS
  {
    var digits := Numeral(-n);
    NumeralReadsBack(-n, s);
    hide Numeral, ParseNat, Stops;
    MinusSplits(digits, s);
    assert PrintInt(n) == [MINUS] + digits;
  }

  lemma MinusSplits(digits: Text, s: Text)
    ensures ([MINUS] + digits + s)[0] == MINUS && ([MINUS] + digits + s)[1..] == digits + s
  {
  }

  lemma NaturalReadsBack(n: nat, s: Text)
    requires Stops(s)
    ensures ParseNumber(PrintInt(n) + s) == Some(Parsed(Number(n), s)) && IsDigit(PrintInt(n)[0])
  {
    NumeralsRead(n);
    NumeralReadsBack(n, s);
    hide Numeral, ParseNat;
    assert IsDigit(Numeral(n)[0]);
  }

  // ---------------------------------------------------------------- values read back

  /** A value's text, members in the order they are in, with `s` after it. */
  function Emit(v: Value, s: Text): Text {
    match v
    case Null => NULL_TEXT + s
    case Bool(b) => (if b then TRUE_TEXT else FALSE_TEXT) + s
    case Number(n) => PrintInt(n) + s
    case String(text) => [QUOTE] + (Escape(text) + ([QUOTE] + s))
    case Array(items) => [LBRACKET] + EmitItems(items, [RBRACKET] + s)
    case Object(members) => [LBRACE] + EmitMembers(members, [RBRACE] + s)
  }

  function EmitItems(items: List<Value>, s: Text): Text {
    if items.Nil? then s
    else Emit(items.head, if items.tail.Nil? then s else [COMMA] + EmitItems(items.tail, s))
  }

  function EmitMembers(members: Members<Value>, s: Text): Text {
    if members.End? then s
    else
      var after := if members.rest.End? then s else [COMMA] + EmitMembers(members.rest, s);
      [QUOTE] + (Escape(members.key) + ([QUOTE] + ([COLON] + Emit(members.value, after))))
  }

  lemma LiteralReadsBack(v: Value, s: Text)
    requires v.Null? || v.Bool?
    ensures ParseValue(Emit(v, s)) == Some(Parsed(v, s))
  {
  }

  lemma StringReadsBack(text: Text, s: Text)
    ensures ParseValue(Emit(String(text), s)) == Some(Parsed(String(text), s))
  {
    EscapedReadsBack(text, s);
    assert Emit(String(text), s)[1..] == Escape(text) + ([QUOTE] + s);
  }

  /** The parser inverts the printer, whatever delimiter follows. */
  lemma {:induction false} ValueReadsBack(v: Value, s: Text)
    requires Stops(s)
    ensures ParseValue(Emit(v, s)) == Some(Parsed(v, s))
    decreases v
  {
    match v
    case Null => LiteralReadsBack(v, s);
    case Bool(_) => LiteralReadsBack(v, s);
    case Number(n) => IntReadsBack(n, s);
    case String(text) => StringReadsBack(text, s);
    case Array(items) =>
      if items.Nil? {
        EmptyReadsBack(v, s);
      } else {
        ItemsReadBack(items, s);
        ValueStarts(items.head, if items.tail.Nil? then [RBRACKET] + s else [COMMA] + EmitItems(items.tail, [RBRACKET] + s));
        assert Emit(v, s)[1..] == EmitItems(items, [RBRACKET] + s);
      }
    case Object(members) =>
      if members.End? {
        EmptyReadsBack(v, s);
      } else {
        MembersReadBack(members, s);
        assert Emit(v, s)[1..] == EmitMembers(members, [RBRACE] + s);
      }
  }

  lemma EmptyReadsBack(v: Value, s: Text)
    requires v == Array(Nil) || v == Object(End)
    ensures ParseValue(Emit(v, s)) == Some(Parsed(v, s))
  {
    if v.Array? {
      assert Emit(v, s) == [LBRACKET] + ([RBRACKET] + s);
    } else {
      assert Emit(v, s) == [LBRACE] + ([RBRACE] + s);
    }
    assert Emit(v, s)[2..] == s;
  }

  lemma ValueStarts(v: Value, s: Text)
    ensures Emit(v, s) != [] && Emit(v, s)[0] != RBRACKET
  {
    if v.Number? {
      if v.n >= 0 { NumeralsRead(v.n); assert IsDigit(Numeral(v.n)[0]); }
    }
  }

  lemma {:induction false} ItemsReadBack(items: List<Value>, s: Text)
    requires items.Cons?
    ensures ParseItems(EmitItems(items, [RBRACKET] + s)) == Some(Parsed(items, s))
    decreases items
  {
    var closing := [RBRACKET] + s;
    if items.tail.Nil? {
      ValueReadsBack(items.head, closing);
      assert closing[1..] == s;
    } else {
      var more := EmitItems(items.tail, closing);
      ValueReadsBack(items.head, [COMMA] + more);
      ItemsReadBack(items.tail, s);
      assert ([COMMA] + more)[1..] == more;
    }
  }

  lemma {:induction false} MembersReadBack(members: Members<Value>, s: Text)
    requires members.Member?
    ensures ParseMembers(EmitMembers(members, [RBRACE] + s)) == Some(Parsed(members, s))
    decreases members
  {
    var closing := [RBRACE] + s;
    if members.rest.End? {
      ValueReadsBack(members.value, closing);
      MemberReadsBack(members.key, Emit(members.value, closing));
      assert closing[1..] == s;
    } else {
      var more := EmitMembers(members.rest, closing);
      ValueReadsBack(members.value, [COMMA] + more);
      MemberReadsBack(members.key, Emit(members.value, [COMMA] + more));
      MembersReadBack(members.rest, s);
      assert ([COMMA] + more)[1..] == more;
    }
  }

  /** A printed key and its colon leave the value to be read. */
  lemma MemberReadsBack(key: Text, value: Text)
    ensures var text := [QUOTE] + (Escape(key) + ([QUOTE] + ([COLON] + value)));
            && ParseChars(text[1..]) == Some(Parsed(key, [COLON] + value))
            && ([COLON] + value)[1..] == value
  {
    EscapedReadsBack(key, [COLON] + value);
    assert ([QUOTE] + (Escape(key) + ([QUOTE] + ([COLON] + value))))[1..] == Escape(key) + ([QUOTE] + ([COLON] + value));
  }

  // ---------------------------------------------------------------- canonical form

  /** The same value with every object's members in key order. */
  function Normal(v: Value): Value {
    match v
    case Array(items) => Array(NormalItems(items))
    case Object(members) => Object(SortByKey(NormalValues(members)))
    case _ => v
  }

  function NormalItems(items: List<Value>): List<Value> {
    if items.Nil? then Nil else Cons(Normal(items.head), NormalItems(items.tail))
  }

  function NormalValues(members: Members<Value>): Members<Value> {
    if members.End? then End else Member(members.key, Normal(members.value), NormalValues(members.rest))
  }

  /** A printed value with anything after it is what `Emit` makes of its normal form. */
  ghost predicate Prints(text: Text, v: Value) {
    forall s: Text :: text + s == Emit(v, s)
  }

  ghost predicate ItemsPrint(texts: List<Text>, items: List<Value>) {
    if texts.Nil? || items.Nil? then texts.Nil? && items.Nil?
    else Prints(texts.head, items.head) && ItemsPrint(texts.tail, items.tail)
  }

  ghost predicate MembersPrint(texts: Members<Text>, members: Members<Value>) {
    if texts.End? || members.End? then texts.End? && members.End?
    else texts.key == members.key && Prints(texts.value, members.value) && MembersPrint(texts.rest, members.rest)
  }

  lemma {:induction false} InsertPrints(key: Text, text: Text, texts: Members<Text>, v: Value, members: Members<Value>)
    requires Prints(text, v) && MembersPrint(texts, members)
    ensures MembersPrint(Insert(key, text, texts), Insert(key, v, members))
  {
    hide Prints;
    if !texts.End? && !Precedes(key, texts.key) {
      InsertPrints(key, text, texts.rest, v, members.rest);
    }
  }

  lemma {:induction false} SortPrints(texts: Members<Text>, members: Members<Value>)
    requires MembersPrint(texts, members)
    ensures MembersPrint(SortByKey(texts), SortByKey(members))
  {
    hide Prints;
    if !texts.End? {
      SortPrints(texts.rest, members.rest);
      InsertPrints(texts.key, texts.value, SortByKey(texts.rest), members.value, SortByKey(members.rest));
    }
  }

  lemma {:induction false} JoinedItemsPrint(texts: List<Text>, items: List<Value>, s: Text)
    requires ItemsPrint(texts, items)
    ensures JoinItems(texts) + s == EmitItems(items, s)
  {
    hide Emit;
    if texts.Nil? {
      assert [] + s == s;
    } else if texts.tail.Nil? {
      assert texts.head + s == Emit(items.head, s);
    } else {
      JoinedItemsPrint(texts.tail, items.tail, s);
      var more := JoinItems(texts.tail) + s;
      assert JoinItems(texts) + s == texts.head + ([COMMA] + more);
      assert texts.head + ([COMMA] + more) == Emit(items.head, [COMMA] + more);
    }
  }

  lemma {:induction false} JoinedMembersPrint(texts: Members<Text>, members: Members<Value>, s: Text)
    requires MembersPrint(texts, members)
    ensures JoinMembers(texts) + s == EmitMembers(members, s)
  {
    hide Emit, Escape;
    if texts.End? {
      assert [] + s == s;
    } else if texts.rest.End? {
      MemberPrints(texts.key, texts.value, members.value, s);
    } else {
      JoinedMembersPrint(texts.rest, members.rest, s);
      var more := JoinMembers(texts.rest) + s;
      MemberPrints(texts.key, texts.value, members.value, [COMMA] + more);
      assert JoinMembers(texts) + s == Quoted(texts.key) + [COLON] + texts.value + ([COMMA] + more);
    }
  }

  lemma MemberPrints(key: Text, text: Text, v: Value, s: Text)
    requires Prints(text, v)
    ensures Quoted(key) + [COLON] + text + s == [QUOTE] + (Escape(key) + ([QUOTE] + ([COLON] + Emit(v, s))))
  {
    assert text + s == Emit(v, s);
    assert Quoted(key) + [COLON] + text + s == [QUOTE] + (Escape(key) + ([QUOTE] + ([COLON] + (text + s))));
  }

  lemma ArrayPrints(items: List<Value>, s: Text)
    requires ItemsPrint(PrintItems(items), NormalItems(items))
    ensures Print(Array(items)) + s == Emit(Normal(Array(items)), s)
  {
    JoinedItemsPrint(PrintItems(items), NormalItems(items), [RBRACKET] + s);
    hide PrintItems, NormalItems, JoinItems, EmitItems;
    assert Print(Array(items)) + s == [LBRACKET] + (JoinItems(PrintItems(items)) + ([RBRACKET] + s));
  }

  lemma ObjectPrints(members: Members<Value>, s: Text)
    requires MembersPrint(PrintValues(members), NormalValues(members))
    ensures Print(Object(members)) + s == Emit(Normal(Object(members)), s)
  {
    var texts := SortByKey(PrintValues(members));
    SortPrints(PrintValues(members), NormalValues(members));
    JoinedMembersPrint(texts, SortByKey(NormalValues(members)), [RBRACE] + s);
    hide PrintValues, NormalValues, SortByKey, JoinMembers, EmitMembers;
    assert Print(Object(members)) + s == [LBRACE] + (JoinMembers(texts) + ([RBRACE] + s));
  }

  lemma {:induction false} PrintsNormalForm(v: Value)
    ensures Prints(Print(v), Normal(v))
    decreases v
  {
    match v
    case String(text) =>
      forall s: Text ensures Print(v) + s == Emit(Normal(v), s) {
        assert Quoted(text) + s == [QUOTE] + (Escape(text) + ([QUOTE] + s));
      }
    case Array(items) =>
      ItemsPrintNormalForms(items);
      forall s: Text ensures Print(v) + s == Emit(Normal(v), s) { ArrayPrints(items, s); }
    case Object(members) =>
      ValuesPrintNormalForms(members);
      forall s: Text ensures Print(v) + s == Emit(Normal(v), s) { ObjectPrints(members, s); }
    case _ =>
  }

  lemma {:induction false} ItemsPrintNormalForms(items: List<Value>)
    ensures ItemsPrint(PrintItems(items), NormalItems(items))
    decreases items
  {
    if !items.Nil? {
      PrintsNormalForm(items.head);
      ItemsPrintNormalForms(items.tail);
    }
  }

  lemma {:induction false} ValuesPrintNormalForms(members: Members<Value>)
    ensures MembersPrint(PrintValues(members), NormalValues(members))
    decreases members
  {
    if !members.End? {
      PrintsNormalForm(members.value);
      ValuesPrintNormalForms(members.rest);
    }
  }

  /** The text of a value reads back as the value with its keys in order. */
  lemma PrintedTextReadsBack(v: Value)
    ensures ParseValue(Print(v)) == Some(Parsed(Normal(v), []))
  {
    PrintsNormalForm(v);
    assert Print(v) + [] == Print(v) == Emit(Normal(v), []);
    ValueReadsBack(Normal(v), []);
  }

  // ---------------------------------------------------------------- what the text means

  predicate Has<T>(members: Members<T>, key: Text) {
    !members.End? && (members.key == key || Has(members.rest, key))
  }

  function Get<T>(members: Members<T>, key: Text): (value: T)
    requires Has(members, key)
  {
    if members.key == key then members.value else Get(members.rest, key)
  }

  predicate HasDistinctKeys<T>(members: Members<T>) {
    members.End? || (!Has(members.rest, members.key) && HasDistinctKeys(members.rest))
  }

  /** A value as a program can hold it: no object has a key twice. */
  predicate IsJson(v: Value) {
    match v
    case Array(items) => AreJson(items)
    case Object(members) => HasDistinctKeys(members) && ValuesAreJson(members)
    case _ => true
  }

  predicate AreJson(items: List<Value>) {
    items.Nil? || (IsJson(items.head) && AreJson(items.tail))
  }

  predicate ValuesAreJson(members: Members<Value>) {
    members.End? || (IsJson(members.value) && ValuesAreJson(members.rest))
  }

  lemma {:induction false} GetIsSmaller(members: Members<Value>, key: Text)
    requires Has(members, key)
    ensures Size(Get(members, key)) < SizeOfMembers(members)
    ensures ValuesAreJson(members) ==> IsJson(Get(members, key))
  {
    if members.key != key { GetIsSmaller(members.rest, key); }
  }

  function Size(v: Value): nat {
    match v
    case Array(items) => 1 + SizeOfItems(items)
    case Object(members) => 1 + SizeOfMembers(members)
    case _ => 0
  }

  function SizeOfItems(items: List<Value>): nat {
    if items.Nil? then 0 else 1 + Size(items.head) + SizeOfItems(items.tail)
  }

  function SizeOfMembers(members: Members<Value>): nat {
    if members.End? then 0 else 1 + Size(members.value) + SizeOfMembers(members.rest)
  }

  /** Equal up to the order of keys: objects have the same keys with equal values. */
  ghost predicate Same(v: Value, w: Value)
    decreases Size(v)
  {
    if v.Array? && w.Array? then SameItems(v.items, w.items)
    else if v.Object? && w.Object? then SameMembers(v.members, w.members)
    else v == w
  }

  ghost predicate SameItems(a: List<Value>, b: List<Value>)
    decreases SizeOfItems(a)
  {
    if a.Nil? || b.Nil? then a.Nil? && b.Nil? else Same(a.head, b.head) && SameItems(a.tail, b.tail)
  }

  ghost predicate SameMembers(m: Members<Value>, n: Members<Value>)
    decreases SizeOfMembers(m), 1
  {
    forall key :: SameAt(m, n, key)
  }

  ghost predicate SameAt(m: Members<Value>, n: Members<Value>, key: Text)
    decreases SizeOfMembers(m), 0
  {
    && (Has(m, key) <==> Has(n, key))
    && (Has(m, key) ==> (GetIsSmaller(m, key); Same(Get(m, key), Get(n, key))))
  }

  // Sorting does not change what is found under a key.

  lemma {:induction false} InsertFinds<T>(k: Text, value: T, members: Members<T>, key: Text)
    requires !Has(members, k)
    ensures Has(Insert(k, value, members), key) <==> k == key || Has(members, key)
    ensures Has(Insert(k, value, members), key) ==>
              Get(Insert(k, value, members), key) == if k == key then value else Get(members, key)
  {
    if !members.End? && !Precedes(k, members.key) {
      InsertFinds(k, value, members.rest, key);
    }
  }

  lemma {:induction false} SortFinds<T>(members: Members<T>, key: Text)
    requires HasDistinctKeys(members)
    ensures Has(SortByKey(members), key) <==> Has(members, key)
    ensures Has(members, key) ==> Get(SortByKey(members), key) == Get(members, key)
  {
    if !members.End? {
      SortFinds(members.rest, key);
      SortFinds(members.rest, members.key);
      InsertFinds(members.key, members.value, SortByKey(members.rest), key);
    }
  }

  /** Keys strictly increase and all come after `low`. */
  predicate Increases<T>(low: Option<Text>, members: Members<T>)
    decreases members
  {
    members.End? || ((low.Some? ==> Precedes(low.value, members.key)) && Increases(Some(members.key), members.rest))
  }

  lemma {:induction false} InsertIncreases<T>(low: Option<Text>, key: Text, value: T, members: Members<T>)
    requires Increases(low, members) && !Has(members, key) && (low.Some? ==> Precedes(low.value, key))
    ensures Increases(low, Insert(key, value, members))
    decreases members
  {
    if !members.End? && !Precedes(key, members.key) {
      KeysAreOrdered(key, members.key);
      InsertIncreases(Some(members.key), key, value, members.rest);
    }
  }

  lemma {:induction false} SortIncreases<T>(members: Members<T>)
    requires HasDistinctKeys(members)
    ensures Increases(None, SortByKey(members))
  {
    if !members.End? {
      SortIncreases(members.rest);
      SortFinds(members.rest, members.key);
      InsertIncreases(None, members.key, members.value, SortByKey(members.rest));
    }
  }

  lemma {:induction false} LowerKeysAreAbsent<T>(low: Text, members: Members<T>, key: Text)
    requires Increases(Some(low), members) && (key == low || Precedes(key, low))
    ensures !Has(members, key)
    decreases members
  {
    if !members.End? {
      KeysAreOrdered(low, members.key);
      if key != low { PrecedesTransitively(key, low, members.key); }
      KeysAreOrdered(key, members.key);
      LowerKeysAreAbsent(members.key, members.rest, key);
    }
  }

  /** In increasing order, what is found under the keys is all there is. */
  lemma {:induction false} IncreasingIsExtensional<T>(low: Option<Text>, a: Members<T>, b: Members<T>)
    requires Increases(low, a) && Increases(low, b)
    requires forall key :: FoundAlike(a, b, key)
    ensures a == b
    decreases a
  {
    BothAreEmpty(a, b);
    if !a.End? {
      FirstKeysAgree(a, b);
      assert FoundAlike(a, b, a.key);
      forall key ensures FoundAlike(a.rest, b.rest, key) {
        assert FoundAlike(a, b, key);
        if key == a.key {
          LowerKeysAreAbsent(a.key, a.rest, key);
          LowerKeysAreAbsent(b.key, b.rest, key);
        }
      }
      IncreasingIsExtensional(Some(a.key), a.rest, b.rest);
    }
  }

  predicate FoundAlike<T(==)>(a: Members<T>, b: Members<T>, key: Text) {
    && (Has(a, key) <==> Has(b, key))
    && (Has(a, key) ==> Get(a, key) == Get(b, key))
  }

  lemma BothAreEmpty<T>(a: Members<T>, b: Members<T>)
    requires forall key :: FoundAlike(a, b, key)
    ensures a.End? <==> b.End?
  {
    if a.Member? { assert FoundAlike(a, b, a.key); }
    if b.Member? { assert FoundAlike(a, b, b.key); }
  }

  lemma FirstKeysAgree<T>(a: Members<T>, b: Members<T>)
    requires a.Member? && b.Member? && Increases(Some(a.key), a.rest) && Increases(Some(b.key), b.rest)
    requires FoundAlike(a, b, a.key) && FoundAlike(a, b, b.key)
    ensures a.key == b.key
  {
    KeysAreOrdered(a.key, b.key);
    if Precedes(a.key, b.key) {
      LowerKeysAreAbsent(b.key, b.rest, a.key);
    } else if Precedes(b.key, a.key) {
      LowerKeysAreAbsent(a.key, a.rest, b.key);
    }
  }

  lemma {:induction false} NormalValuesFind(members: Members<Value>, key: Text)
    ensures Has(NormalValues(members), key) <==> Has(members, key)
    ensures Has(members, key) ==> Get(NormalValues(members), key) == Normal(Get(members, key))
  {
    if !members.End? { NormalValuesFind(members.rest, key); }
  }

  lemma {:induction false} NormalValuesAreDistinct(members: Members<Value>)
    requires HasDistinctKeys(members)
    ensures HasDistinctKeys(NormalValues(members))
  {
    if !members.End? {
      NormalValuesAreDistinct(members.rest);
      NormalValuesFind(members.rest, members.key);
    }
  }

  lemma NormalMembersFind(members: Members<Value>, key: Text)
    requires HasDistinctKeys(members)
    ensures var sorted := SortByKey(NormalValues(members));
            && (Has(sorted, key) <==> Has(members, key))
            && (Has(members, key) ==> Get(sorted, key) == Normal(Get(members, key)))
  {
    NormalValuesAreDistinct(members);
    NormalValuesFind(members, key);
    SortFinds(NormalValues(members), key);
  }

  /** Equal normal forms are exactly equality up to the order of keys. */
  lemma {:induction false} NormalFormsAgree(v: Value, w: Value)
    requires IsJson(v) && IsJson(w)
    ensures Normal(v) == Normal(w) <==> Same(v, w)
    decreases Size(v)
  {
    if v.Array? && w.Array? {
      NormalItemsAgree(v.items, w.items);
    } else if v.Object? && w.Object? {
      NormalMembersAgree(v.members, w.members);
    }
  }

  lemma {:induction false} NormalItemsAgree(a: List<Value>, b: List<Value>)
    requires AreJson(a) && AreJson(b)
    ensures NormalItems(a) == NormalItems(b) <==> SameItems(a, b)
    decreases SizeOfItems(a)
  {
    if !a.Nil? && !b.Nil? {
      NormalFormsAgree(a.head, b.head);
      NormalItemsAgree(a.tail, b.tail);
    }
  }

  lemma {:induction false} NormalMembersAgree(m: Members<Value>, n: Members<Value>)
    requires HasDistinctKeys(m) && ValuesAreJson(m) && HasDistinctKeys(n) && ValuesAreJson(n)
    ensures SortByKey(NormalValues(m)) == SortByKey(NormalValues(n)) <==> SameMembers(m, n)
    decreases SizeOfMembers(m)
  {
    var a, b := SortByKey(NormalValues(m)), SortByKey(NormalValues(n));
    forall key ensures FoundAlike(a, b, key) <==> SameAt(m, n, key) {
      NormalMembersFind(m, key);
      NormalMembersFind(n, key);
      if Has(m, key) && Has(n, key) {
        GetIsSmaller(m, key);
        GetIsSmaller(n, key);
        NormalFormsAgree(Get(m, key), Get(n, key));
      }
    }
    if SameMembers(m, n) {
      NormalValuesAreDistinct(m);
      NormalValuesAreDistinct(n);
      SortIncreases(NormalValues(m));
      SortIncreases(NormalValues(n));
      forall key ensures FoundAlike(a, b, key) { assert SameAt(m, n, key); }
      IncreasingIsExtensional(None, a, b);
    }
  }

  /** Two values have the same canonical text exactly when they are equal up to the
      order of keys: the text hides the insertion order and nothing else. */
  lemma TextDeterminesValue(v: Value, w: Value)
    requires IsJson(v) && IsJson(w)
    ensures Print(v) == Print(w) <==> Same(v, w)
  {
    PrintedTextReadsBack(v);
    PrintedTextReadsBack(w);
    PrintsNormalForm(v);
    PrintsNormalForm(w);
    assert Print(v) + [] == Print(v) == Emit(Normal(v), []);
    assert Print(w) + [] == Print(w) == Emit(Normal(w), []);
    NormalFormsAgree(v, w);
  }
}
