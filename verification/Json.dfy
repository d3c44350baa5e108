/** JSON texts as json.dumps writes them and JSON.parse reads them. */
module Json {
  import opened Wrappers

  datatype Json =
    | Null
    | Bool(b: bool)
    | Number(n: real)
    | Str(s: string)
    | Array(items: seq<Json>)
    | Object(fields: map<string, Json>)

  datatype Parsed<+T> = Fail | Got(value: T, rest: string)

  predicate IsWhite(c: char) {
    c == ' ' || c == '\t' || c == '\n' || c == '\r'
  }

  function SkipWhite(s: string): (r: string)
    ensures |r| <= |s|
  {
    if s != [] && IsWhite(s[0]) then SkipWhite(s[1..]) else s
  }

  function HexValue(c: char): Option<nat> {
    if '0' <= c <= '9' then Some(c as int - '0' as int)
    else if 'a' <= c <= 'f' then Some(c as int - 'a' as int + 10)
    else if 'A' <= c <= 'F' then Some(c as int - 'A' as int + 10)
    else None
  }

  /** The number written by four hexadecimal digits. */
  function Hex4(s: string): (r: Option<nat>)
    ensures r.Some? ==> |s| >= 4 && r.value < 0x10000
  {
    if |s| < 4 || HexValue(s[0]).None? || HexValue(s[1]).None? || HexValue(s[2]).None? || HexValue(s[3]).None? then None
    else
      Some(4096 * HexValue(s[0]).value + 256 * HexValue(s[1]).value + 16 * HexValue(s[2]).value +
           HexValue(s[3]).value)
  }

  predicate IsHighSurrogate(n: nat) {
    0xD800 <= n < 0xDC00
  }

  predicate IsLowSurrogate(n: nat) {
    0xDC00 <= n < 0xE000
  }

  /** The character that the escape after a backslash and u names, and the length of what
      names it: a pair of surrogates takes a second escape. */
  function UnicodeChar(s: string): (r: Option<(char, nat)>)
    ensures r.Some? ==> 4 <= r.value.1 <= |s|
  {
    var first := Hex4(s);
    if first.None? || IsLowSurrogate(first.value) then None
    else if !IsHighSurrogate(first.value) then Some((first.value as char, 4))
    else if |s| < 10 || s[4] != '\\' || s[5] != 'u' then None
    else
      var second := Hex4(s[6..]);
      if second.None? || !IsLowSurrogate(second.value) then None
      else Some(((0x10000 + (first.value - 0xD800) * 1024 + second.value - 0xDC00) as char, 10))
  }

  function ShortEscape(c: char): Option<char> {
    match c
    case '"' => Some('"')
    case '\\' => Some('\\')
    case '/' => Some('/')
    case 'b' => Some('\U{8}')
    case 'f' => Some('\U{C}')
    case 'n' => Some('\n')
    case 'r' => Some('\r')
    case 't' => Some('\t')
    case _ => None
  }

  /** The rest of a string literal after its opening quote. */
  function ParseChars(s: string, read: string): (r: Parsed<string>)
    ensures r.Got? ==> |r.rest| < |s|
    decreases |s|
  {
    if s == [] || s[0] < ' ' then Fail
    else if s[0] == '"' then Got(read, s[1..])
    else if s[0] != '\\' then ParseChars(s[1..], read + [s[0]])
    else if |s| < 2 then Fail
    else if s[1] == 'u' then
      match UnicodeChar(s[2..])
      case None => Fail
      case Some((c, length)) => ParseChars(s[2 + length..], read + [c])
    else if ShortEscape(s[1]).None? then Fail
    else ParseChars(s[2..], read + [ShortEscape(s[1]).value])
  }

  predicate IsDigit(c: char) {
    '0' <= c <= '9'
  }

  /** Reads the digits in front, most significant first. */
  function ParseDigits(s: string, value: nat): (r: Parsed<nat>)
    ensures r.Got? && |r.rest| <= |s|
    decreases |s|
  {
    if s != [] && IsDigit(s[0]) then ParseDigits(s[1..], 10 * value + (s[0] as int - '0' as int))
    else Got(value, s)
  }

  function Power10(e: nat): (p: nat)
    ensures p > 0
  {
    if e == 0 then 1 else 10 * Power10(e - 1)
  }

  /** The optional fraction of a number: its value, or Fail on a bare dot. */
  function ParseFraction(s: string, whole: nat): (r: Parsed<real>)
    ensures r.Got? ==> |r.rest| <= |s|
  {
    if s == [] || s[0] != '.' then Got(whole as real, s)
    else if |s| < 2 || !IsDigit(s[1]) then Fail
    else
      var digits := ParseDigits(s[1..], 0);
      var count := |s| - 1 - |digits.rest|;
      Got(whole as real + digits.value as real / Power10(count) as real, digits.rest)
  }

  function ParseExponent(s: string, mantissa: real): (r: Parsed<real>)
    ensures r.Got? ==> |r.rest| <= |s|
  {
    if s == [] || (s[0] != 'e' && s[0] != 'E') then Got(mantissa, s)
    else
      var signed := |s| > 1 && (s[1] == '+' || s[1] == '-');
      var t := if signed then s[2..] else s[1..];
      if t == [] || !IsDigit(t[0]) then Fail
      else
        var digits := ParseDigits(t, 0);
        var scale := Power10(digits.value) as real;
        Got(if signed && s[1] == '-' then mantissa / scale else mantissa * scale, digits.rest)
  }

  function ParseUnsigned(s: string): (r: Parsed<real>)
    ensures r.Got? ==> |r.rest| < |s|
  {
    if s == [] || !IsDigit(s[0]) then Fail
    else
      var whole := if s[0] == '0' then Got(0, s[1..]) else ParseDigits(s, 0);
      DigitsConsume(s);
      match ParseFraction(whole.rest, whole.value)
      case Fail => Fail
      case Got(mantissa, rest) => ParseExponent(rest, mantissa)
  }

  lemma DigitsConsume(s: string)
    requires s != [] && IsDigit(s[0])
    ensures |ParseDigits(s, 0).rest| < |s|
  {
  }

  function ParseNumber(s: string): (r: Parsed<Json>)
    ensures r.Got? ==> |r.rest| < |s|
  {
    var negative := s != [] && s[0] == '-';
    match ParseUnsigned(if negative then s[1..] else s)
    case Fail => Fail
    case Got(n, rest) => Got(Number(if negative then -n else n), rest)
  }

  function ParseLiteral(s: string, word: string, value: Json): (r: Parsed<Json>)
    requires word != []
    ensures r.Got? ==> |r.rest| < |s|
  {
    if |word| <= |s| && s[..|word|] == word then Got(value, s[|word|..]) else Fail
  }

  function ParseValue(s: string): (r: Parsed<Json>)
    ensures r.Got? ==> |r.rest| < |s|
    decreases |s|, 1
  {
    var t := SkipWhite(s);
    if t == [] then Fail
    else
      match t[0]
      case '{' =>
        var u := SkipWhite(t[1..]);
        if u != [] && u[0] == '}' then Got(Object(map[]), u[1..]) else ParseMembers(u, map[])
      case '[' =>
        var u := SkipWhite(t[1..]);
        if u != [] && u[0] == ']' then Got(Array([]), u[1..]) else ParseElements(u, [])
      case '"' =>
        (match ParseChars(t[1..], "")
         case Fail => Fail
         case Got(text, rest) => Got(Str(text), rest))
      case 't' => ParseLiteral(t, "true", Bool(true))
      case 'f' => ParseLiteral(t, "false", Bool(false))
      case 'n' => ParseLiteral(t, "null", Null)
      case _ => ParseNumber(t)
  }

  /** Members up to the closing brace; a repeated name keeps its last value. */
  function ParseMembers(s: string, fields: map<string, Json>): (r: Parsed<Json>)
    ensures r.Got? ==> |r.rest| < |s|
    decreases |s|, 0
  {
    if s == [] || s[0] != '"' then Fail
    else
      match ParseChars(s[1..], "")
      case Fail => Fail
      case Got(name, afterName) =>
        var t := SkipWhite(afterName);
        if t == [] || t[0] != ':' then Fail
        else
          match ParseValue(t[1..])
          case Fail => Fail
          case Got(value, afterValue) =>
            var u := SkipWhite(afterValue);
            if u == [] then Fail
            else if u[0] == '}' then Got(Object(fields[name := value]), u[1..])
            else if u[0] == ',' then ParseMembers(SkipWhite(u[1..]), fields[name := value])
            else Fail
  }

  function ParseElements(s: string, items: seq<Json>): (r: Parsed<Json>)
    ensures r.Got? ==> |r.rest| < |s|
    decreases |s|, 2
  {
    match ParseValue(s)
    case Fail => Fail
    case Got(value, afterValue) =>
      var u := SkipWhite(afterValue);
      if u == [] then Fail
      else if u[0] == ']' then Got(Array(items + [value]), u[1..])
      else if u[0] == ',' then ParseElements(u[1..], items + [value])
      else Fail
  }

  function Parse(s: string): Result<Json> {
    match ParseValue(s)
    case Fail => Err
    case Got(value, rest) => if SkipWhite(rest) == [] then Ok(value) else Err
  }

  function HexDigit(n: nat): char
    requires n < 16
  {
    if n < 10 then ('0' as int + n) as char else ('a' as int + n - 10) as char
  }

  function UnicodeEscape(n: nat): string
    requires n < 0x10000
  {
    ['\\', 'u', HexDigit(n / 4096), HexDigit(n / 256 % 16), HexDigit(n / 16 % 16), HexDigit(n % 16)]
  }

  /** One character of a string under ensure_ascii. */
  function Escaped(c: char): string {
    if c == '"' then "\\\""
    else if c == '\\' then "\\\\"
    else if c == '\n' then "\\n"
    else if c == '\r' then "\\r"
    else if c == '\t' then "\\t"
    else if c == '\U{C}' then "\\f"
    else if c == '\U{8}' then "\\b"
    else if ' ' <= c <= '~' then [c]
    else if c as int < 0x10000 then UnicodeEscape(c as int)
    else
      var n := c as int - 0x10000;
      UnicodeEscape(0xD800 + n / 1024) + UnicodeEscape(0xDC00 + n % 1024)
  }

  function EscapedAll(s: string): string {
    if s == [] then "" else Escaped(s[0]) + EscapedAll(s[1..])
  }

  function Quoted(s: string): string {
    "\"" + EscapedAll(s) + "\""
  }

  function Decimal(n: nat): (r: string)
    ensures r != []
  {
    if n < 10 then [('0' as int + n) as char]
    else Decimal(n / 10) + [('0' as int + n % 10) as char]
  }

  /** Escapes as section 7 of RFC 8259 has them: the short ones, four hexadecimal digits, and a
      pair of surrogates above U+FFFF. */
  lemma EscapesAreStandard()
    ensures Escaped('"') == "\\\"" && Escaped('\\') == "\\\\" && Escaped('\n') == "\\n" && Escaped('\t') == "\\t"
    ensures Escaped('\U{7F}') == "\\u007f" && Escaped('\U{20AC}') == "\\u20ac"
    ensures Escaped('\U{1D11E}') == "\\ud834\\udd1e"
  {
    assert 0xD11E / 1024 == 0x34 && 0xD11E % 1024 == 0x11E;
  }

  lemma HexDigits(n: nat)
    requires n < 0x10000
    ensures 4096 * (n / 4096) + 256 * (n / 256 % 16) + 16 * (n / 16 % 16) + n % 16 == n
  {
    assert n / 256 == 16 * (n / 4096) + n / 256 % 16;
    assert n / 16 == 16 * (n / 256) + n / 16 % 16;
  }

  lemma HexDigitRoundTrip(n: nat)
    requires n < 16
    ensures HexValue(HexDigit(n)) == Some(n)
  {
  }

  lemma HexRoundTrip(n: nat, tail: string)
    requires n < 0x10000
    ensures Hex4((UnicodeEscape(n) + tail)[2..]) == Some(n)
  {
    hide HexValue, HexDigit;
    HexDigitRoundTrip(n / 4096);
    HexDigitRoundTrip(n / 256 % 16);
    HexDigitRoundTrip(n / 16 % 16);
    HexDigitRoundTrip(n % 16);
    HexDigits(n);
  }

  lemma OneEscape(c: char, tail: string)
    requires c as int < 0x10000
    ensures UnicodeChar((UnicodeEscape(c as int) + tail)[2..]) == Some((c, 4))
  {
    hide UnicodeEscape, Hex4;
    HexRoundTrip(c as int, tail);
  }

  /** A character above U+FFFF is written as two escapes and read back from them. */
  lemma TwoEscapes(c: char, tail: string)
    requires c as int >= 0x10000
    ensures UnicodeChar((Escaped(c) + tail)[2..]) == Some((c, 10))
  {
    var n := c as int - 0x10000;
    var high, low := 0xD800 + n / 1024, 0xDC00 + n % 1024;
    var rest := UnicodeEscape(low) + tail;
    assert Escaped(c) + tail == UnicodeEscape(high) + rest;
    assert |UnicodeEscape(high)| == 6 && rest[0] == '\\' && rest[1] == 'u';
    hide Escaped, UnicodeEscape, Hex4;
    HexRoundTrip(high, rest);
    HexRoundTrip(low, tail);
    var s := (UnicodeEscape(high) + rest)[2..];
    assert s[4] == rest[0] && s[5] == rest[1] && s[6..] == rest[2..];
  }

  lemma EscapeShapes(c: char)
    ensures Escaped(c) == [c] ==> c >= ' ' && c != '"' && c != '\\'
    ensures |Escaped(c)| == 2 ==> Escaped(c)[0] == '\\' && Escaped(c)[1] != 'u' && ShortEscape(Escaped(c)[1]) == Some(c)
    ensures Escaped(c) != [c] && |Escaped(c)| != 2 ==>
      Escaped(c)[0] == '\\' && Escaped(c)[1] == 'u' &&
      |Escaped(c)| == (if c as int < 0x10000 then 6 else 12) &&
      (c as int < 0x10000 ==> Escaped(c) == UnicodeEscape(c as int))
  {
    hide HexDigit;
  }

  lemma OneCharRoundTrip(c: char, tail: string, read: string)
    ensures ParseChars(Escaped(c) + tail, read) == ParseChars(tail, read + [c])
  {
    var s := Escaped(c) + tail;
    EscapeShapes(c);
    if Escaped(c) != [c] && |Escaped(c)| != 2 {
      if c as int < 0x10000 { OneEscape(c, tail); } else { TwoEscapes(c, tail); }
    }
    hide UnicodeChar, ShortEscape, Escaped, UnicodeEscape;
    assert s[|Escaped(c)|..] == tail;
  }

  /** A written string literal reads back as the string. */
  lemma {:induction false} StringRoundTrip(s: string, tail: string, read: string)
    ensures ParseChars(EscapedAll(s) + "\"" + tail, read) == Got(read + s, tail)
  {
    hide Escaped, UnicodeChar, ShortEscape;
    if s == [] {
      assert EscapedAll(s) + "\"" + tail == "\"" + tail;
      assert ("\"" + tail)[1..] == tail;
      assert read + s == read;
    } else {
      var rest := EscapedAll(s[1..]) + "\"" + tail;
      assert EscapedAll(s) + "\"" + tail == Escaped(s[0]) + rest;
      hide ParseChars, EscapedAll;
      OneCharRoundTrip(s[0], rest, read);
      StringRoundTrip(s[1..], tail, read + [s[0]]);
      assert read + [s[0]] + s[1..] == read + s;
    }
  }

  lemma {:induction false} DigitsRoundTrip(n: nat, tail: string)
    ensures ParseDigits(Decimal(n) + tail, 0) == ParseDigits(tail, n)
  {
    if n < 10 {
      assert (Decimal(n) + tail)[1..] == tail;
    } else {
      var d := ('0' as int + n % 10) as char;
      assert Decimal(n) + tail == Decimal(n / 10) + ([d] + tail);
      DigitsRoundTrip(n / 10, [d] + tail);
      assert ([d] + tail)[1..] == tail;
    }
  }

  lemma {:induction false} DecimalStarts(n: nat)
    ensures IsDigit(Decimal(n)[0]) && (n > 0 ==> Decimal(n)[0] != '0')
  {
    if n < 10 {
    } else {
      DecimalStarts(n / 10);
    }
  }

  /** What may follow a number without being read as part of it. */
  predicate EndsNumber(tail: string) {
    tail == [] || tail[0] == ',' || tail[0] == '}'
  }

  lemma NumberRoundTrip(n: nat, tail: string)
    requires EndsNumber(tail)
    ensures ParseValue(Decimal(n) + tail) == Got(Number(n as real), tail)
  {
    var s := Decimal(n) + tail;
    DecimalStarts(n);
    DigitsRoundTrip(n, tail);
    assert s[0] == Decimal(n)[0];
    assert SkipWhite(s) == s;
    assert n == 0 ==> s == ['0'] + tail && s[1..] == tail;
    assert ParseDigits(s, 0) == Got(n, tail);
    assert ParseUnsigned(s) == Got(n as real, tail);
  }

  datatype Scalar = Text(s: string) | Count(n: nat)

  function ScalarText(v: Scalar): string {
    match v
    case Text(s) => Quoted(s)
    case Count(n) => Decimal(n)
  }

  function ScalarValue(v: Scalar): Json {
    match v
    case Text(s) => Str(s)
    case Count(n) => Number(n as real)
  }

  function MembersText(ms: seq<(string, Scalar)>): string
    requires ms != []
  {
    Quoted(ms[0].0) + ":" + ScalarText(ms[0].1) +
    (if |ms| == 1 then "}" else "," + MembersText(ms[1..]))
  }

  /** json.dumps of a dictionary with separators (",", ":"). */
  function Dumps(ms: seq<(string, Scalar)>): string
    requires ms != []
  {
    "{" + MembersText(ms)
  }

  function Fields(fields: map<string, Json>, ms: seq<(string, Scalar)>): map<string, Json>
    decreases |ms|
  {
    if ms == [] then fields else Fields(fields[ms[0].0 := ScalarValue(ms[0].1)], ms[1..])
  }

  lemma TextRoundTrip(s: string, tail: string)
    ensures ParseValue(Quoted(s) + tail) == Got(Str(s), tail)
  {
    var t := Quoted(s) + tail;
    assert t[0] == '"' && t[1..] == EscapedAll(s) + "\"" + tail;
    StringRoundTrip(s, tail, "");
    assert "" + s == s;
    hide EscapedAll, Quoted, ParseChars, ParseMembers, ParseElements, ParseNumber, ParseLiteral;
    assert SkipWhite(t) == t;
  }

  lemma ScalarRoundTrip(v: Scalar, tail: string)
    requires EndsNumber(tail)
    ensures ParseValue(ScalarText(v) + tail) == Got(ScalarValue(v), tail)
  {
    hide ParseValue, Quoted, Decimal;
    match v
    case Text(s) => TextRoundTrip(s, tail);
    case Count(n) => NumberRoundTrip(n, tail);
  }

  lemma OneMember(name: string, v: Scalar, fields: map<string, Json>, after: string)
    requires after != [] && (after[0] == ',' || after[0] == '}')
    ensures ParseMembers(Quoted(name) + (":" + (ScalarText(v) + after)), fields) ==
      if after[0] == '}' then Got(Object(fields[name := ScalarValue(v)]), after[1..])
      else ParseMembers(SkipWhite(after[1..]), fields[name := ScalarValue(v)])
  {
    hide ParseChars, ParseValue, EscapedAll, ScalarText, ScalarValue;
    var value := ScalarText(v) + after;
    var s := Quoted(name) + (":" + value);
    assert s[0] == '"' && s[1..] == EscapedAll(name) + "\"" + (":" + value);
    StringRoundTrip(name, ":" + value, "");
    assert "" + name == name;
    assert SkipWhite(":" + value) == ":" + value;
    assert (":" + value)[1..] == value;
    ScalarRoundTrip(v, after);
    assert SkipWhite(after) == after;
  }

  lemma {:induction false} MembersRoundTrip(ms: seq<(string, Scalar)>, fields: map<string, Json>, tail: string)
    requires ms != []
    ensures ParseMembers(MembersText(ms) + tail, fields) == Got(Object(Fields(fields, ms)), tail)
    decreases |ms|
  {
    hide ParseMembers, ScalarText, ScalarValue, Quoted;
    var after := (if |ms| == 1 then "}" else "," + MembersText(ms[1..])) + tail;
    assert MembersText(ms) + tail == Quoted(ms[0].0) + (":" + (ScalarText(ms[0].1) + after));
    OneMember(ms[0].0, ms[0].1, fields, after);
    if |ms| == 1 {
      assert after[1..] == tail;
      assert ms[1..] == [];
    } else {
      var next := MembersText(ms[1..]) + tail;
      assert after[1..] == next;
      assert SkipWhite(next) == next by { QuoteStarts(ms[1..], tail); }
      MembersRoundTrip(ms[1..], fields[ms[0].0 := ScalarValue(ms[0].1)], tail);
    }
  }

  lemma QuoteStarts(ms: seq<(string, Scalar)>, tail: string)
    requires ms != []
    ensures SkipWhite(MembersText(ms) + tail) == MembersText(ms) + tail
  {
    assert (MembersText(ms) + tail)[0] == '"';
  }

  /** A dumped dictionary of strings and natural numbers parses back to itself. */
  lemma DumpsRoundTrip(ms: seq<(string, Scalar)>)
    requires ms != []
    ensures Parse(Dumps(ms)) == Ok(Object(Fields(map[], ms)))
  {
    hide ParseMembers, ParseChars;
    var s := Dumps(ms);
    MembersRoundTrip(ms, map[], "");
    QuoteStarts(ms, "");
    assert s[1..] == MembersText(ms) + "";
    assert SkipWhite(s) == s && SkipWhite(s[1..]) == s[1..];
  }
}
