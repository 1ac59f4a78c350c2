/**
 * JSON as text: a compact printer for trees and a parser after sections 2 to 7 of RFC
 * 8259, which inverts it. The parser takes any whitespace, number and escape the standard
 * allows; a code escape comes out as UTF-8, a surrogate without its partner is malformed.
 * A byte is the char with its code. The results hold for all chars, so for all bytes.
 */
module JsonText {
  import opened Prelude
  import opened JsonTree

  datatype Parsed<+T> = Parsed(value: T, rest: string) | Malformed

  // ---------------------------------------------------------------- numbers

  predicate IsDigit(c: char) { '0' <= c <= '9' }

  function Digit(d: nat): (c: char)
    requires d < 10
    ensures IsDigit(c) && c as int - 48 == d
  {
    (48 + d) as char
  }

  function Decimal(n: nat): (text: string)
    ensures |text| >= 1
  {
    if n < 10 then [Digit(n)] else Decimal(n / 10) + [Digit(n % 10)]
  }

  /** std::to_string of an integer. */
  function IntText(i: int): string {
    if i < 0 then "-" + Decimal(-i) else Decimal(i)
  }

  predicate AllDigits(text: string) { forall i :: 0 <= i < |text| ==> IsDigit(text[i]) }

  function DigitsValue(text: string): int {
    if text == "" then 0 else DigitsValue(text[..|text| - 1]) * 10 + (text[|text| - 1] as int - 48)
  }

  /** Length of the longest prefix of digits. */
  function DigitRun(s: string): (k: nat)
    ensures k <= |s|
  {
    if s == "" || !IsDigit(s[0]) then 0 else 1 + DigitRun(s[1..])
  }

  lemma {:induction false} DigitRunDigits(s: string)
    ensures AllDigits(s[..DigitRun(s)])
    ensures DigitRun(s) < |s| ==> !IsDigit(s[DigitRun(s)])
  {
    if s != "" && IsDigit(s[0]) {
      DigitRunDigits(s[1..]);
      assert s[..DigitRun(s)] == [s[0]] + s[1..][..DigitRun(s[1..])];
    }
  }

  /** A number ends here: the next byte cannot continue it. */
  predicate EndsNumber(rest: string) {
    rest == "" || (!IsDigit(rest[0]) && rest[0] != '.' && rest[0] != 'e' && rest[0] != 'E')
  }

  /** Section 6: digits without a leading zero, and neither fraction nor exponent behind them. */
  function ParseMagnitude(s: string): (r: Parsed<int>)
    ensures r.Parsed? ==> |r.rest| < |s|
  {
    var k := DigitRun(s);
    if k == 0 || (k > 1 && s[0] == '0') || !EndsNumber(s[k..]) then Malformed
    else Parsed(DigitsValue(s[..k]), s[k..])
  }

  /** Length of a fraction at the head of s: a point and digits. */
  function FractionRun(s: string): (k: nat)
    ensures k <= |s|
  {
    if s == "" || s[0] != '.' then 0
    else
      var k := DigitRun(s[1..]);
      if k == 0 then 0 else 1 + k
  }

  /** Length of an exponent at the head of s: e or E, a sign or none, and digits. */
  function ExponentRun(s: string): (k: nat)
    ensures k <= |s|
  {
    if s == "" || (s[0] != 'e' && s[0] != 'E') then 0
    else
      var sign := if |s| > 1 && (s[1] == '+' || s[1] == '-') then 1 else 0;
      var k := DigitRun(s[1 + sign..]);
      if k == 0 then 0 else 1 + sign + k
  }

  /** Length of a number without sign but with a fraction or an exponent, or 0. */
  function DecimalRun(body: string): (n: nat)
    ensures n <= |body|
  {
    var k := DigitRun(body);
    if k == 0 || (k > 1 && body[0] == '0') then 0
    else
      var fraction := FractionRun(body[k..]);
      var exponent := ExponentRun(body[k + fraction..]);
      if fraction + exponent == 0 then 0 else k + fraction + exponent
  }

  function SignLength(s: string): (k: nat)
    ensures k <= |s|
  {
    if s != "" && s[0] == '-' then 1 else 0
  }

  /** A number with a fraction or an exponent, kept as it is written. */
  function ParseDecimal(s: string): (r: Parsed<Json>)
    ensures r.Parsed? ==> |r.rest| < |s|
  {
    var minus := SignLength(s);
    var n := DecimalRun(s[minus..]);
    if n == 0 then Malformed else Parsed(JDecimal(s[..minus + n]), s[minus + n..])
  }

  /** Section 6: an optional minus, digits, and perhaps a fraction and an exponent. */
  function ParseNumber(s: string): (r: Parsed<Json>)
    ensures r.Parsed? ==> |r.rest| < |s|
  {
    var minus := SignLength(s);
    var r := ParseMagnitude(s[minus..]);
    if r.Malformed? then ParseDecimal(s)
    else Parsed(JInt(if minus == 1 then -r.value else r.value), r.rest)
  }

  lemma {:induction false} DecimalDigits(n: nat)
    ensures AllDigits(Decimal(n)) && DigitsValue(Decimal(n)) == n
    ensures Decimal(n)[0] == '0' ==> |Decimal(n)| == 1
    ensures n > 0 ==> Decimal(n)[0] != '0'
  {
    if n < 10 {
      assert Decimal(n)[..0] == "";
    } else {
      DecimalDigits(n / 10);
      assert Decimal(n)[..|Decimal(n)| - 1] == Decimal(n / 10);
    }
  }

  lemma {:induction false} DigitRunOf(digits: string, rest: string)
    requires AllDigits(digits)
    requires rest == "" || !IsDigit(rest[0])
    ensures DigitRun(digits + rest) == |digits|
  {
    if digits == "" {
      assert digits + rest == rest;
    } else {
      assert (digits + rest)[1..] == digits[1..] + rest;
      DigitRunOf(digits[1..], rest);
    }
  }

  lemma DecimalParses(n: nat, rest: string)
    requires EndsNumber(rest)
    ensures ParseMagnitude(Decimal(n) + rest) == Parsed(n, rest)
    ensures IsDigit((Decimal(n) + rest)[0])
  {
    var digits := Decimal(n);
    DecimalDigits(n);
    DigitRunOf(digits, rest);
    assert (digits + rest)[..|digits|] == digits && (digits + rest)[|digits|..] == rest;
  }

  lemma NumberUnfolds(body: string)
    requires body != "" && IsDigit(body[0]) && ParseMagnitude(body).Parsed?
    ensures var r := ParseMagnitude(body);
            && ParseNumber("-" + body) == Parsed(JInt(-r.value), r.rest)
            && ParseNumber(body) == Parsed(JInt(r.value), r.rest)
  {
    assert ("-" + body)[1..] == body;
  }

  /** Reading back what std::to_string writes, for every integer, the most negative one included. */
  lemma IntTextParses(i: int, rest: string)
    requires EndsNumber(rest)
    ensures ParseNumber(IntText(i) + rest) == Parsed(JInt(i), rest)
    ensures (IntText(i) + rest)[0] == '-' || IsDigit((IntText(i) + rest)[0])
  {
    var n := if i < 0 then -i else i;
    DecimalParses(n, rest);
    NumberUnfolds(Decimal(n) + rest);
    assert "-" + Decimal(n) + rest == "-" + (Decimal(n) + rest);
  }

  /** What std::to_string makes of a finite double: digits, a point and digits, with a sign or without. */
  predicate IsFixed(text: string) {
    var minus := SignLength(text);
    var k := DigitRun(text[minus..]);
    && k > 0 && (k > 1 ==> text[minus] != '0')
    && minus + k + 1 < |text| && text[minus + k] == '.' && AllDigits(text[minus + k + 1..])
  }

  lemma FixedBodyParses(digits: string, fraction: string, rest: string)
    requires AllDigits(digits) && digits != "" && (|digits| > 1 ==> digits[0] != '0')
    requires AllDigits(fraction) && fraction != "" && EndsNumber(rest)
    ensures var body := digits + ("." + (fraction + rest));
            ParseMagnitude(body).Malformed? && DecimalRun(body) == |digits| + 1 + |fraction|
  {
    var point := "." + (fraction + rest);
    var body := digits + point;
    DigitRunOf(digits, point);
    DigitRunOf(fraction, rest);
    assert body[|digits|..] == point && point[1..] == fraction + rest;
    assert body[|digits| + 1 + |fraction|..] == rest;
  }

  lemma FixedSplits(text: string) returns (digits: string, fraction: string)
    requires IsFixed(text)
    ensures AllDigits(digits) && digits != "" && (|digits| > 1 ==> digits[0] != '0')
    ensures AllDigits(fraction) && fraction != ""
    ensures text[SignLength(text)..] == digits + ("." + fraction)
  {
    var minus := SignLength(text);
    var k := DigitRun(text[minus..]);
    DigitRunDigits(text[minus..]);
    digits, fraction := text[minus..][..k], text[minus + k + 1..];
  }

  lemma DecimalUnfolds(s: string, n: nat)
    requires ParseMagnitude(s[SignLength(s)..]).Malformed? && DecimalRun(s[SignLength(s)..]) == n > 0
    ensures ParseNumber(s) == Parsed(JDecimal(s[..SignLength(s) + n]), s[SignLength(s) + n..])
  {
    assert ParseNumber(s) == ParseDecimal(s);
  }

  /** Such a number is read as the text it is. */
  lemma FixedParses(text: string, rest: string)
    requires IsFixed(text) && EndsNumber(rest)
    ensures ParseNumber(text + rest) == Parsed(JDecimal(text), rest)
    ensures text[0] == '-' || IsDigit(text[0])
  {
    var minus, s := SignLength(text), text + rest;
    var digits, fraction := FixedSplits(text);
    var n := |digits| + 1 + |fraction|;
    assert text[minus] == text[minus..][0] == digits[0];
    assert SignLength(s) == minus;
    assert s[minus..] == text[minus..] + rest;
    Assoc(digits, "." + fraction, rest);
    Assoc(".", fraction, rest);
    FixedBodyParses(digits, fraction, rest);
    DecimalUnfolds(s, n);
    assert minus + n == |text| && s[..|text|] == text && s[|text|..] == rest;
  }

  lemma FixedNoControl(text: string)
    requires IsFixed(text)
    ensures forall i :: 0 <= i < |text| ==> text[i] >= ' '
  {
    var minus := SignLength(text);
    var k := DigitRun(text[minus..]);
    DigitRunDigits(text[minus..]);
    forall i | 0 <= i < |text|
      ensures text[i] >= ' '
    {
      if minus <= i < minus + k {
        assert text[i] == text[minus..][..k][i - minus];
      } else if i > minus + k {
        assert text[i] == text[minus + k + 1..][i - minus - k - 1];
      }
    }
  }

  // ---------------------------------------------------------------- strings

  const BACKSPACE: char := 8 as char
  const FORMFEED: char := 12 as char

  function HexDigit(d: nat): char
    requires d < 16
  {
    if d < 10 then (48 + d) as char else (55 + d) as char
  }

  function HexValue(c: char): Option<nat> {
    if '0' <= c <= '9' then Some(c as int - 48)
    else if 'A' <= c <= 'F' then Some(c as int - 55)
    else if 'a' <= c <= 'f' then Some(c as int - 87)
    else None
  }

  function EscapeChar(c: char): string {
    if c == '\\' then "\\\\"
    else if c == '"' then "\\\""
    else if c == BACKSPACE then "\\b"
    else if c == FORMFEED then "\\f"
    else if c == '\n' then "\\n"
    else if c == '\r' then "\\r"
    else if c == '\t' then "\\t"
    else if c < ' ' then "\\u00" + [HexDigit(c as int / 16), HexDigit(c as int % 16)]
    else [c]
  }

  function FlatMap(f: char -> string, text: string): string {
    if text == "" then "" else f(text[0]) + FlatMap(f, text[1..])
  }

  function Escape(text: string): string { FlatMap(EscapeChar, text) }

  function Quote(text: string): string { "\"" + (Escape(text) + "\"") }

  /** A char that stands for itself inside a JSON string. */
  predicate PlainChar(c: char) { c >= ' ' && c != '"' && c != '\\' }

  predicate Plain(text: string) { forall i :: 0 <= i < |text| ==> PlainChar(text[i]) }

  /** The char a two-byte escape stands for. */
  function ShortEscape(c: char): Option<char> {
    if c == '"' || c == '\\' || c == '/' then Some(c)
    else if c == 'b' then Some(BACKSPACE)
    else if c == 'f' then Some(FORMFEED)
    else if c == 'n' then Some('\n')
    else if c == 'r' then Some('\r')
    else if c == 't' then Some('\t')
    else None
  }

  /** The code four hexadecimal digits spell. */
  function HexCode(a: char, b: char, c: char, d: char): (code: Option<nat>)
    ensures code.Some? ==> code.value < 0x1_0000
  {
    var a, b, c, d := HexValue(a), HexValue(b), HexValue(c), HexValue(d);
    if a.None? || b.None? || c.None? || d.None? then None
    else Some(((a.value * 16 + b.value) * 16 + c.value) * 16 + d.value)
  }

  /** The bytes of a code point, after section 3 of RFC 3629. */
  function Utf8(code: nat): (bytes: string)
    requires code < 0x11_0000
    ensures 1 <= |bytes| <= 4
  {
    if code < 0x80 then [code as char]
    else if code < 0x800 then [(0xC0 + code / 0x40) as char, (0x80 + code % 0x40) as char]
    else if code < 0x1_0000 then
      [(0xE0 + code / 0x1000) as char, (0x80 + code / 0x40 % 0x40) as char, (0x80 + code % 0x40) as char]
    else
      [(0xF0 + code / 0x4_0000) as char, (0x80 + code / 0x1000 % 0x40) as char,
       (0x80 + code / 0x40 % 0x40) as char, (0x80 + code % 0x40) as char]
  }

  /** What the first width chars of a string body stand for. */
  datatype Unit = Unit(text: string, width: nat)

  /** A code escape, or two of them for a surrogate pair. */
  function CodeUnit(s: string): (u: Option<Unit>)
    requires |s| >= 2 && s[0] == '\\' && s[1] == 'u'
    ensures u.Some? ==> |u.value.text| < u.value.width <= |s| && u.value.width > 2
    ensures u.Some? ==> forall i :: 0 <= i < u.value.width ==> s[i] != '"'
  {
    if |s| < 6 then None
    else
      var high := HexCode(s[2], s[3], s[4], s[5]);
      if high.None? then None
      else if high.value < 0xD800 || high.value >= 0xE000 then Some(Unit(Utf8(high.value), 6))
      else if high.value >= 0xDC00 || |s| < 12 || s[6] != '\\' || s[7] != 'u' then None
      else
        var low := HexCode(s[8], s[9], s[10], s[11]);
        if low.None? || low.value < 0xDC00 || low.value >= 0xE000 then None
        else Some(Unit(Utf8(0x1_0000 + (high.value - 0xD800) * 0x400 + (low.value - 0xDC00)), 12))
  }

  /** Section 7: one plain char or one escape. */
  function FirstUnit(s: string): (u: Option<Unit>)
    requires s != ""
    ensures u.Some? ==> 1 <= u.value.width <= |s|
  {
    if s[0] != '\\' then (if PlainChar(s[0]) then Some(Unit([s[0]], 1)) else None)
    else if |s| < 2 then None
    else if ShortEscape(s[1]).Some? then Some(Unit([ShortEscape(s[1]).value], 2))
    else if s[1] == 'u' then CodeUnit(s)
    else None
  }

  /** Section 7, from just after an opening quote up to and including the closing one. */
  function ParseChars(s: string): (r: Parsed<string>)
    ensures r.Parsed? ==> |r.rest| < |s|
    decreases |s|
  {
    if s == "" then Malformed
    else if s[0] == '"' then Parsed("", s[1..])
    else
      var u := FirstUnit(s);
      if u.None? then Malformed else Prepend(u.value.text, ParseChars(s[u.value.width..]))
  }

  function Prepend(text: string, r: Parsed<string>): Parsed<string> {
    if r.Parsed? then Parsed(text + r.value, r.rest) else Malformed
  }

  lemma EscapeCharUnit(c: char, s: string)
    ensures FirstUnit(EscapeChar(c) + s) == Some(Unit([c], |EscapeChar(c)|)) && EscapeChar(c)[0] != '"'
  {
  }

  /** One escaped char is read back as one char, whatever follows. */
  lemma EscapeCharParses(c: char, s: string)
    ensures ParseChars(EscapeChar(c) + s) == Prepend([c], ParseChars(s))
  {
    EscapeCharUnit(c, s);
    assert (EscapeChar(c) + s)[|EscapeChar(c)|..] == s;
  }

  /** Unescaping inverts escaping; nothing after the closing quote is touched. */
  lemma {:induction false} EscapeParses(text: string, rest: string)
    ensures ParseChars(Escape(text) + ("\"" + rest)) == Parsed(text, rest)
  {
    if text == "" {
      assert Escape(text) + ("\"" + rest) == "\"" + rest;
    } else {
      var tail := Escape(text[1..]) + ("\"" + rest);
      assert Escape(text) + ("\"" + rest) == EscapeChar(text[0]) + tail;
      EscapeCharParses(text[0], tail);
      EscapeParses(text[1..], rest);
      assert [text[0]] + text[1..] == text;
    }
  }

  /** Escaped text holds no quote that would end the string. */
  lemma {:induction false} EscapeNeverCloses(text: string)
    ensures ParseChars(Escape(text)) == Malformed
  {
    if text != "" {
      EscapeCharParses(text[0], Escape(text[1..]));
      EscapeNeverCloses(text[1..]);
    }
  }

  lemma UnitLocal(s: string, more: string)
    requires s != "" && FirstUnit(s).Some?
    ensures FirstUnit(s + more) == FirstUnit(s)
  {
  }

  /** A string body that closes is read the same in front of any text. */
  lemma {:induction false} ParseCharsLocal(s: string, more: string)
    requires ParseChars(s).Parsed?
    ensures ParseChars(s + more) == Parsed(ParseChars(s).value, ParseChars(s).rest + more)
    decreases |s|
  {
    if s[0] == '"' {
      assert (s + more)[1..] == s[1..] + more;
    } else {
      UnitLocal(s, more);
      var width := FirstUnit(s).value.width;
      assert (s + more)[width..] == s[width..] + more;
      ParseCharsLocal(s[width..], more);
    }
  }

  lemma {:induction false} EscapeConcat(a: string, b: string)
    ensures Escape(a + b) == Escape(a) + Escape(b)
  {
    if a == "" {
      assert a + b == b;
    } else {
      assert (a + b)[1..] == a[1..] + b;
      EscapeConcat(a[1..], b);
    }
  }

  lemma EscapeInjective(a: string, b: string)
    requires Escape(a) == Escape(b)
    ensures a == b
  {
    EscapeParses(a, "");
    EscapeParses(b, "");
  }

  lemma {:induction false} EscapePlain(text: string)
    requires Plain(text)
    ensures Escape(text) == text
  {
    if text != "" {
      EscapePlain(text[1..]);
    }
  }

  /** No byte below 0x20. */
  predicate NoControl(s: string) { forall i :: 0 <= i < |s| ==> s[i] >= ' ' }

  lemma {:induction false} EscapeNoControl(text: string)
    ensures NoControl(Escape(text))
  {
    if text != "" {
      EscapeNoControl(text[1..]);
      assert NoControl(EscapeChar(text[0]));
    }
  }

  /** Every code is that of a byte. */
  predicate IsBytes(s: string) { forall i :: 0 <= i < |s| ==> s[i] as int < 256 }

  lemma {:induction false} EscapeIsBytes(text: string)
    requires IsBytes(text)
    ensures IsBytes(Escape(text))
  {
    if text != "" {
      EscapeIsBytes(text[1..]);
      assert IsBytes(EscapeChar(text[0]));
    }
  }

  // ---------------------------------------------------------------- printing

  function Print(j: Json): string
    decreases j, 0
  {
    match j
    case JNull => "null"
    case JBool(flag) => if flag then "true" else "false"
    case JInt(number) => IntText(number)
    case JDecimal(lexeme) => lexeme
    case JString(text) => Quote(text)
    case JArray(items) => "[" + (PrintItems(items) + "]")
    case JObject(members) => "{" + (PrintMembers(members) + "}")
  }

  function PrintItems(items: seq<Json>): string
    decreases items, 1
  {
    if |items| == 0 then ""
    else if |items| == 1 then Print(items[0])
    else Print(items[0]) + ("," + PrintItems(items[1..]))
  }

  function PrintMember(m: Member): string
    decreases m, 1
  {
    Quote(m.key) + (":" + Print(m.value))
  }

  function PrintMembers(members: seq<Member>): string
    decreases members, 1
  {
    if |members| == 0 then ""
    else if |members| == 1 then PrintMember(members[0])
    else PrintMember(members[0]) + ("," + PrintMembers(members[1..]))
  }

  /** Trees whose fractional numbers are digits, a point and digits. */
  predicate Printable(j: Json) {
    match j
    case JDecimal(lexeme) => IsFixed(lexeme)
    case JArray(items) => forall i :: 0 <= i < |items| ==> Printable(items[i])
    case JObject(members) => forall i :: 0 <= i < |members| ==> Printable(members[i].value)
    case _ => true
  }

  // ---------------------------------------------------------------- parsing

  /** Section 2: insignificant whitespace. */
  predicate IsSpace(c: char) { c == ' ' || c == '\t' || c == '\n' || c == '\r' }

  function SkipSpace(s: string): (rest: string)
    ensures |rest| <= |s|
  {
    if s != "" && IsSpace(s[0]) then SkipSpace(s[1..]) else s
  }

  /** Section 3: a literal name, or else a number. */
  function ParseWord(s: string): (r: Parsed<Json>)
    ensures r.Parsed? ==> |r.rest| < |s|
  {
    if "true" <= s then Parsed(JBool(true), s[4..])
    else if "false" <= s then Parsed(JBool(false), s[5..])
    else if "null" <= s then Parsed(JNull, s[4..])
    else ParseNumber(s)
  }

  function ParseValue(s: string): (r: Parsed<Json>)
    ensures r.Parsed? ==> |r.rest| < |s|
    decreases |s|, 0
  {
    if s == "" then Malformed
    else if IsSpace(s[0]) then ParseValue(s[1..])
    else if s[0] == '"' then
      var r := ParseChars(s[1..]);
      if r.Parsed? then Parsed(JString(r.value), r.rest) else Malformed
    else if s[0] == '[' then
      var body := SkipSpace(s[1..]);
      if body != "" && body[0] == ']' then Parsed(JArray([]), body[1..])
      else
        var r := ParseItems(body);
        if r.Parsed? then Parsed(JArray(r.value), r.rest) else Malformed
    else if s[0] == '{' then
      var body := SkipSpace(s[1..]);
      if body != "" && body[0] == '}' then Parsed(JObject([]), body[1..])
      else
        var r := ParseMembers(body);
        if r.Parsed? then Parsed(JObject(r.value), r.rest) else Malformed
    else ParseWord(s)
  }

  /** One or more values separated by commas, up to and including the closing bracket. */
  function ParseItems(s: string): (r: Parsed<seq<Json>>)
    ensures r.Parsed? ==> |r.rest| < |s| && |r.value| > 0
    decreases |s|, 1
  {
    var first := ParseValue(s);
    if first.Malformed? then Malformed
    else
      var after := SkipSpace(first.rest);
      if after == "" then Malformed
      else if after[0] == ']' then Parsed([first.value], after[1..])
      else if after[0] == ',' then
        var others := ParseItems(after[1..]);
        if others.Parsed? then Parsed([first.value] + others.value, others.rest) else Malformed
      else Malformed
  }

  function ParseMember(s: string): (r: Parsed<Member>)
    ensures r.Parsed? ==> |r.rest| < |s|
    decreases |s|, 1
  {
    var start := SkipSpace(s);
    if start == "" || start[0] != '"' then Malformed
    else
      var key := ParseChars(start[1..]);
      if key.Malformed? then Malformed
      else
        var colon := SkipSpace(key.rest);
        if colon == "" || colon[0] != ':' then Malformed
        else
          var value := ParseValue(colon[1..]);
          if value.Parsed? then Parsed(Member(key.value, value.value), value.rest) else Malformed
  }

  /** One or more members separated by commas, up to and including the closing brace. */
  function ParseMembers(s: string): (r: Parsed<seq<Member>>)
    ensures r.Parsed? ==> |r.rest| < |s| && |r.value| > 0
    decreases |s|, 2
  {
    var first := ParseMember(s);
    if first.Malformed? then Malformed
    else
      var after := SkipSpace(first.rest);
      if after == "" then Malformed
      else if after[0] == '}' then Parsed([first.value], after[1..])
      else if after[0] == ',' then
        var others := ParseMembers(after[1..]);
        if others.Parsed? then Parsed([first.value] + others.value, others.rest) else Malformed
      else Malformed
  }

  /** A whole text that is one value, with nothing but whitespace around it. */
  function ParseDocument(s: string): Option<Json> {
    var r := ParseValue(s);
    if r.Parsed? && SkipSpace(r.rest) == "" then Some(r.value) else None
  }

  // ---------------------------------------------------------------- round trip

  lemma QuoteParses(text: string, rest: string)
    ensures (Quote(text) + rest)[0] == '"'
    ensures ParseChars((Quote(text) + rest)[1..]) == Parsed(text, rest)
  {
    var inside := Escape(text) + ("\"" + rest);
    EscapeParses(text, rest);
    Assoc("\"", Escape(text) + "\"", rest);
    Assoc(Escape(text), "\"", rest);
    assert ("\"" + inside)[0] == '"' && ("\"" + inside)[1..] == inside;
  }

  /** The first byte of a printed value never closes an empty array or object. */
  lemma PrintHead(j: Json)
    requires Printable(j)
    ensures |Print(j)| > 0 && Print(j)[0] != ']' && Print(j)[0] != '}' && Print(j)[0] != ',' && !IsSpace(Print(j)[0])
  {
    match j
    case JInt(number) => DecimalDigits(if number < 0 then -number else number);
    case JDecimal(lexeme) => FixedParses(lexeme, "");
    case _ =>
  }

  lemma WordsParse(rest: string)
    ensures ParseValue("null" + rest) == Parsed(JNull, rest)
    ensures ParseValue("true" + rest) == Parsed(JBool(true), rest)
    ensures ParseValue("false" + rest) == Parsed(JBool(false), rest)
  {
  }

  lemma StringValue(body: string)
    ensures var r := ParseChars(body);
            ParseValue("\"" + body) == if r.Parsed? then Parsed(JString(r.value), r.rest) else Malformed
  {
    assert ("\"" + body)[1..] == body;
  }

  lemma NumberValue(s: string)
    requires s != "" && (s[0] == '-' || IsDigit(s[0]))
    ensures ParseValue(s) == ParseNumber(s)
  {
    assert "true"[0] == 't' && "false"[0] == 'f' && "null"[0] == 'n';
    assert ParseWord(s) == ParseNumber(s);
    assert !IsSpace(s[0]) && s[0] != '"' && s[0] != '[' && s[0] != '{';
  }

  lemma ArrayUnfolds(body: string)
    requires body != "" && !IsSpace(body[0])
    ensures body[0] == ']' ==> ParseValue("[" + body) == Parsed(JArray([]), body[1..])
    ensures body[0] != ']' ==>
              var r := ParseItems(body);
              ParseValue("[" + body) == if r.Parsed? then Parsed(JArray(r.value), r.rest) else Malformed
  {
    assert ("[" + body)[1..] == body;
  }

  lemma ObjectUnfolds(body: string)
    requires body != "" && !IsSpace(body[0])
    ensures body[0] == '}' ==> ParseValue("{" + body) == Parsed(JObject([]), body[1..])
    ensures body[0] != '}' ==>
              var r := ParseMembers(body);
              ParseValue("{" + body) == if r.Parsed? then Parsed(JObject(r.value), r.rest) else Malformed
  {
    assert ("{" + body)[1..] == body;
  }

  /** Parsing inverts printing, for every such tree. */
  lemma {:induction false} PrintParses(j: Json, rest: string)
    requires Printable(j)
    requires j.JInt? || j.JDecimal? ==> EndsNumber(rest)
    ensures ParseValue(Print(j) + rest) == Parsed(j, rest)
    decreases j, 0
  {
    match j
    case JNull => WordsParse(rest);
    case JBool(flag) => WordsParse(rest);
    case JInt(number) =>
      IntTextParses(number, rest);
      NumberValue(IntText(number) + rest);
    case JDecimal(lexeme) =>
      FixedParses(lexeme, rest);
      NumberValue(lexeme + rest);
    case JString(text) => QuoteParses(text, rest);
    case JArray(items) => PrintArrayParses(items, rest);
    case JObject(members) => PrintObjectParses(members, rest);
  }

  lemma {:induction false} PrintArrayParses(items: seq<Json>, rest: string)
    requires forall i :: 0 <= i < |items| ==> Printable(items[i])
    ensures ParseValue(Print(JArray(items)) + rest) == Parsed(JArray(items), rest)
    decreases items, 2
  {
    var body := PrintItems(items) + ("]" + rest);
    assert Print(JArray(items)) + rest == "[" + body;
    if |items| == 0 {
      assert body == "]" + rest && body[0] == ']' && body[1..] == rest;
    } else {
      PrintHead(items[0]);
      assert body[0] == Print(items[0])[0];
      PrintItemsParses(items, rest);
    }
    ArrayUnfolds(body);
  }

  lemma {:induction false} PrintObjectParses(members: seq<Member>, rest: string)
    requires forall i :: 0 <= i < |members| ==> Printable(members[i].value)
    ensures ParseValue(Print(JObject(members)) + rest) == Parsed(JObject(members), rest)
    decreases members, 2
  {
    var body := PrintMembers(members) + ("}" + rest);
    assert Print(JObject(members)) + rest == "{" + body;
    if |members| == 0 {
      assert body == "}" + rest && body[1..] == rest;
    } else {
      assert body[0] == PrintMember(members[0])[0] == '"';
      PrintMembersParses(members, rest);
    }
    ObjectUnfolds(body);
  }

  /** What one value and a comma or a bracket lead on to. */
  lemma ItemsUnfold(s: string, v: Json, after: string)
    requires ParseValue(s) == Parsed(v, after) && after != ""
    ensures after[0] == ']' ==> ParseItems(s) == Parsed([v], after[1..])
    ensures after[0] == ',' ==>
              var others := ParseItems(after[1..]);
              ParseItems(s) == if others.Parsed? then Parsed([v] + others.value, others.rest) else Malformed
  {
  }

  lemma ItemsTextSplits(items: seq<Json>, close: string)
    requires |items| > 1
    ensures PrintItems(items) + close == Print(items[0]) + ("," + (PrintItems(items[1..]) + close))
  {
    var others := PrintItems(items[1..]);
    Assoc(Print(items[0]), "," + others, close);
    Assoc(",", others, close);
  }

  lemma {:induction false} PrintItemsParses(items: seq<Json>, rest: string)
    requires |items| > 0
    requires forall i :: 0 <= i < |items| ==> Printable(items[i])
    ensures ParseItems(PrintItems(items) + ("]" + rest)) == Parsed(items, rest)
    decreases items, 1
  {
    var s := PrintItems(items) + ("]" + rest);
    if |items| == 1 {
      PrintParses(items[0], "]" + rest);
      ItemsUnfold(s, items[0], "]" + rest);
      assert ("]" + rest)[1..] == rest && [items[0]] == items;
    } else {
      var tail := PrintItems(items[1..]) + ("]" + rest);
      ItemsTextSplits(items, "]" + rest);
      PrintParses(items[0], "," + tail);
      PrintItemsParses(items[1..], rest);
      ItemsUnfold(s, items[0], "," + tail);
      assert ("," + tail)[1..] == tail && [items[0]] + items[1..] == items;
    }
  }

  /** A quoted key and a colon in front of any value text. */
  lemma MemberUnfolds(key: string, s: string)
    ensures var v := ParseValue(s);
            ParseMember(Quote(key) + (":" + s)) ==
            if v.Parsed? then Parsed(Member(key, v.value), v.rest) else Malformed
  {
    QuoteParses(key, ":" + s);
    var colon := ":" + s;
    assert colon[0] == ':' && colon[1..] == s;
  }

  /** What one member and a comma or a brace lead on to. */
  lemma MembersUnfold(s: string, m: Member, after: string)
    requires ParseMember(s) == Parsed(m, after) && after != ""
    ensures after[0] == '}' ==> ParseMembers(s) == Parsed([m], after[1..])
    ensures after[0] == ',' ==>
              var others := ParseMembers(after[1..]);
              ParseMembers(s) == if others.Parsed? then Parsed([m] + others.value, others.rest) else Malformed
  {
  }

  lemma {:induction false} PrintMemberParses(m: Member, rest: string)
    requires Printable(m.value) && EndsNumber(rest)
    ensures ParseMember(PrintMember(m) + rest) == Parsed(m, rest)
    decreases m, 1
  {
    assert PrintMember(m) + rest == Quote(m.key) + (":" + (Print(m.value) + rest));
    PrintParses(m.value, rest);
    MemberUnfolds(m.key, Print(m.value) + rest);
  }

  lemma MembersTextSplits(members: seq<Member>, close: string)
    requires |members| > 1
    ensures PrintMembers(members) + close == PrintMember(members[0]) + ("," + (PrintMembers(members[1..]) + close))
  {
    var others := PrintMembers(members[1..]);
    Assoc(PrintMember(members[0]), "," + others, close);
    Assoc(",", others, close);
  }

  lemma {:induction false} PrintMembersParses(members: seq<Member>, rest: string)
    requires |members| > 0
    requires forall i :: 0 <= i < |members| ==> Printable(members[i].value)
    ensures ParseMembers(PrintMembers(members) + ("}" + rest)) == Parsed(members, rest)
    decreases members, 1
  {
    var s := PrintMembers(members) + ("}" + rest);
    if |members| == 1 {
      PrintMemberParses(members[0], "}" + rest);
      MembersUnfold(s, members[0], "}" + rest);
      assert ("}" + rest)[1..] == rest && [members[0]] == members;
    } else {
      var tail := PrintMembers(members[1..]) + ("}" + rest);
      MembersTextSplits(members, "}" + rest);
      PrintMemberParses(members[0], "," + tail);
      PrintMembersParses(members[1..], rest);
      MembersUnfold(s, members[0], "," + tail);
      assert ("," + tail)[1..] == tail && [members[0]] + members[1..] == members;
    }
  }

  lemma PrintRoundTrip(j: Json)
    requires Printable(j)
    ensures ParseDocument(Print(j)) == Some(j)
  {
    PrintParses(j, "");
    assert Print(j) + "" == Print(j);
  }

  /** Printed trees are one line of text. */
  lemma {:induction false} PrintNoControl(j: Json)
    requires Printable(j)
    ensures NoControl(Print(j))
    decreases j, 0
  {
    match j
    case JInt(number) => DecimalDigits(if number < 0 then -number else number);
    case JDecimal(lexeme) => FixedNoControl(lexeme);
    case JString(text) => EscapeNoControl(text);
    case JArray(items) => PrintItemsNoControl(items);
    case JObject(members) => PrintMembersNoControl(members);
    case _ =>
  }

  lemma {:induction false} PrintItemsNoControl(items: seq<Json>)
    requires forall i :: 0 <= i < |items| ==> Printable(items[i])
    ensures NoControl(PrintItems(items))
    decreases items, 1
  {
    if |items| > 0 {
      PrintNoControl(items[0]);
      PrintItemsNoControl(items[1..]);
    }
  }

  lemma {:induction false} PrintMembersNoControl(members: seq<Member>)
    requires forall i :: 0 <= i < |members| ==> Printable(members[i].value)
    ensures NoControl(PrintMembers(members))
    decreases members, 1
  {
    if |members| > 0 {
      EscapeNoControl(members[0].key);
      PrintNoControl(members[0].value);
      PrintMembersNoControl(members[1..]);
    }
  }

  // ---------------------------------------------------------------- printing one element more

  lemma {:induction false} PrintItemsSnoc(items: seq<Json>, last: Json)
    requires |items| > 0
    ensures PrintItems(items + [last]) == PrintItems(items) + ("," + Print(last))
  {
    var longer := items + [last];
    assert longer[0] == items[0] && longer[1..] == items[1..] + [last];
    if |items| == 1 {
      assert longer[1..] == [last];
    } else {
      PrintItemsSnoc(items[1..], last);
      assert PrintItems(longer) == Print(items[0]) + ("," + (PrintItems(items[1..]) + ("," + Print(last))));
    }
  }

  lemma {:induction false} PrintMembersSnoc(members: seq<Member>, last: Member)
    requires |members| > 0
    ensures PrintMembers(members + [last]) == PrintMembers(members) + ("," + PrintMember(last))
  {
    var longer := members + [last];
    assert longer[0] == members[0] && longer[1..] == members[1..] + [last];
    if |members| == 1 {
      assert longer[1..] == [last];
    } else {
      PrintMembersSnoc(members[1..], last);
      assert PrintMembers(longer) ==
             PrintMember(members[0]) + ("," + (PrintMembers(members[1..]) + ("," + PrintMember(last))));
    }
  }

  // ---------------------------------------------------------------- as the standard writes it

  const DIGITS := "0123456789"
  const HEX_DIGITS := "0123456789ABCDEF"

  /** Section 7: the escapes with a letter, the others below 0x20 by code, and any other char as it is. */
  lemma EscapesAsWritten(c: char)
    ensures Escape([c]) ==
            if c == '"' then "\\\""
            else if c == '\\' then "\\\\"
            else if c as int == 0x08 then "\\b"
            else if c as int == 0x0C then "\\f"
            else if c as int == 0x0A then "\\n"
            else if c as int == 0x0D then "\\r"
            else if c as int == 0x09 then "\\t"
            else if c as int < 0x20 then "\\u00" + [HEX_DIGITS[c as int / 16], HEX_DIGITS[c as int % 16]]
            else [c]
  {
    var one := [c];
    assert one[1..] == "" && Escape(one) == EscapeChar(c) + Escape("");
    assert EscapeChar(c) + "" == EscapeChar(c);
    HexDigitsAsWritten(c as int / 16 % 16);
    HexDigitsAsWritten(c as int % 16);
  }

  lemma HexDigitsAsWritten(d: nat)
    requires d < 16
    ensures HexDigit(d) == HEX_DIGITS[d]
  {
  }

  /** Section 6: digits to base ten, and a minus in front of negative numbers. */
  lemma NumbersAsWritten(n: nat, d: nat)
    requires d < 10
    ensures IntText(d) == [DIGITS[d]]
    ensures n > 0 ==> IntText(10 * n + d) == IntText(n) + [DIGITS[d]]
    ensures n > 0 ==> IntText(-(n as int)) == "-" + IntText(n)
  {
    assert (10 * n + d) / 10 == n && (10 * n + d) % 10 == d;
    assert Digit(d) == DIGITS[d];
  }

  /** Sections 3, 4, 5 and 7: names, lists, members and quotes. */
  lemma SyntaxAsWritten(a: Json, b: Json, k: string, l: string)
    ensures Print(JNull) == "null" && Print(JBool(true)) == "true" && Print(JBool(false)) == "false"
    ensures Print(JString(k)) == "\"" + (Escape(k) + "\"")
    ensures Print(JArray([])) == "[]" && Print(JObject([])) == "{}"
    ensures Print(JArray([a, b])) == "[" + (Print(a) + ("," + Print(b)) + "]")
    ensures Print(JObject([Member(k, a), Member(l, b)])) ==
            "{" + (Print(JString(k)) + (":" + Print(a)) + ("," + (Print(JString(l)) + (":" + Print(b)))) + "}")
  {
    var items, members := [a, b], [Member(k, a), Member(l, b)];
    assert items[1..] == [b] && members[1..] == [Member(l, b)];
    assert PrintItems([b]) == Print(b) && PrintItems(items) == Print(a) + ("," + Print(b));
    assert PrintMembers([Member(l, b)]) == PrintMember(Member(l, b));
    assert PrintMembers(members) == PrintMember(Member(k, a)) + ("," + PrintMember(Member(l, b)));
  }
}
