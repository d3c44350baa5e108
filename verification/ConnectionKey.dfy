/** The connection key from the installer's files to the extension, and the
    Basic credential from the extension back to the server. */
module ConnectionKey {
  import opened Wrappers
  import opened Text
  import opened Browser
  import opened Base64
  import opened Json
  import Routing

  const KEY_PREFIX := "shbvpn1:"
  const MAX_KEY_LENGTH: nat := 4096

  predicate IsControl(c: char) {
    c < ' ' || c == '\U{7F}'
  }

  /** The length of a string in JavaScript, which counts UTF-16 code units. */
  function Units(s: string): (n: nat)
    ensures n >= |s| && (s == [] ==> n == 0)
    ensures (forall i :: 0 <= i < |s| ==> s[i] as int < 0x10000) ==> n == |s|
  {
    if s == [] then 0 else (if s[0] as int < 0x10000 then 1 else 2) + Units(s[1..])
  }

  predicate IsUsername(s: string) {
    1 <= Units(s) <= 256 && forall i :: 0 <= i < |s| ==> !IsControl(s[i]) && s[i] != ':'
  }

  predicate IsPassword(s: string) {
    1 <= Units(s) <= 512 && forall i :: 0 <= i < |s| ==> !IsControl(s[i])
  }

  predicate IsPort(n: real) {
    n.Floor as real == n && 1.0 <= n <= 65535.0
  }

  /** validateConnection on a parsed value. */
  function ValidateConnection(j: Json): Result<Connection> {
    if !j.Object? || j.fields.Keys != {"host", "password", "port", "username", "v"} then Err
    else if j.fields["v"] != Number(1.0) then Err
    else
      var host, port, username, password :=
        j.fields["host"], j.fields["port"], j.fields["username"], j.fields["password"];
      if !host.Str? || !Routing.IsValidHost(host.s) || !port.Number? || !IsPort(port.n) ||
         !username.Str? || !IsUsername(username.s) || !password.Str? || !IsPassword(password.s) then Err
      else Ok(Connection(Lower(host.s), port.n.Floor, username.s, password.s))
  }

  /** The text of a sequence of ASCII bytes. */
  function AsciiText(b: seq<Byte>): Result<string> {
    if b == [] then Ok("")
    else
      match AsciiText(b[1..])
      case Err => Err
      case Ok(rest) => if b[0] >= 128 then Err else Ok([b[0] as char] + rest)
  }

  predicate IsAscii(s: string) {
    forall i :: 0 <= i < |s| ==> s[i] as int < 128
  }

  function AsciiBytes(s: string): (r: seq<Byte>)
    requires IsAscii(s)
    ensures |r| == |s|
  {
    if s == [] then [] else [s[0] as int] + AsciiBytes(s[1..])
  }

  lemma {:induction false} AsciiRoundTrip(s: string)
    requires IsAscii(s)
    ensures AsciiText(AsciiBytes(s)) == Ok(s)
  {
    if s == [] {
    } else {
      AsciiRoundTrip(s[1..]);
      assert AsciiBytes(s)[1..] == AsciiBytes(s[1..]);
      assert [s[0]] + s[1..] == s;
    }
  }

  function ParseConnectionKey(raw: string): Result<Connection> {
    var key := Trim(raw);
    if !Routing.StartsWith(key, KEY_PREFIX) || |key| > MAX_KEY_LENGTH || |key| == |KEY_PREFIX| then Err
    else
      match UrlDecoded(key[|KEY_PREFIX|..])
      case Err => Err
      case Ok(bytes) =>
        match AsciiText(bytes)
        case Err => Err
        case Ok(text) =>
          match Parse(text)
          case Err => Err
          case Ok(value) => ValidateConnection(value)
  }

  function Members(host: string, port: nat, username: string, password: string): seq<(string, Scalar)> {
    [("v", Count(1)), ("host", Text(host)), ("port", Count(port)), ("username", Text(username)),
     ("password", Text(password))]
  }

  function Payload(host: string, port: nat, username: string, password: string): string {
    Dumps(Members(host, port, username, password))
  }

  /** What str.strip of Python takes off. */
  predicate IsPythonSpace(c: char) {
    (IsSpace(c) && c != '\U{FEFF}') || '\U{1C}' <= c <= '\U{1F}' || c == '\U{85}'
  }

  function Strip(s: string): string {
    TrimBoth(s, IsPythonSpace)
  }

  /** The parts of a string before and after the first occurrence of a character. */
  function Cut(s: string, c: char): Option<(string, string)> {
    if s == [] then None
    else if s[0] == c then Some(("", s[1..]))
    else
      match Cut(s[1..], c)
      case None => None
      case Some(parts) => Some(([s[0]] + parts.0, parts.1))
  }

  lemma {:induction false} CutAtFirst(a: string, b: string, c: char)
    requires c !in a
    ensures Cut(a + [c] + b, c) == Some((a, b))
  {
    var s := a + [c] + b;
    if a == [] {
      assert s[1..] == b;
    } else {
      assert s[1..] == a[1..] + [c] + b;
      CutAtFirst(a[1..], b, c);
      assert [a[0]] + a[1..] == a;
    }
  }

  lemma AsciiAppend(a: string, b: string)
    requires IsAscii(a) && IsAscii(b)
    ensures IsAscii(a + b)
  {
  }

  lemma AsciiEscape(c: char)
    ensures IsAscii(Escaped(c))
  {
  }

  lemma {:induction false} AsciiEscapes(s: string)
    ensures IsAscii(EscapedAll(s))
  {
    hide Escaped;
    if s == [] {
    } else {
      AsciiEscapes(s[1..]);
      AsciiEscape(s[0]);
      AsciiAppend(Escaped(s[0]), EscapedAll(s[1..]));
    }
  }

  lemma {:induction false} AsciiDecimals(n: nat)
    ensures IsAscii(Decimal(n))
  {
    if n < 10 {
    } else {
      AsciiDecimals(n / 10);
    }
  }

  lemma AsciiScalar(v: Scalar)
    ensures IsAscii(ScalarText(v))
  {
    match v
    case Text(s) => AsciiEscapes(s);
    case Count(n) => AsciiDecimals(n);
  }

  lemma {:induction false} AsciiMembers(ms: seq<(string, Scalar)>)
    requires ms != []
    ensures IsAscii(MembersText(ms))
    decreases |ms|
  {
    hide IsAscii, ScalarText, Quoted;
    var head := Quoted(ms[0].0) + ":" + ScalarText(ms[0].1);
    AsciiScalar(ms[0].1);
    AsciiScalar(Text(ms[0].0));
    assert IsAscii(Quoted(ms[0].0)) by { ScalarOfText(ms[0].0); }
    Punctuation();
    AsciiAppend(Quoted(ms[0].0), ":");
    AsciiAppend(Quoted(ms[0].0) + ":", ScalarText(ms[0].1));
    if |ms| == 1 {
      AsciiAppend(head, "}");
    } else {
      AsciiMembers(ms[1..]);
      AsciiAppend(",", MembersText(ms[1..]));
      AsciiAppend(head, "," + MembersText(ms[1..]));
    }
  }

  lemma ScalarOfText(s: string)
    ensures ScalarText(Text(s)) == Quoted(s)
  {
  }

  lemma Punctuation()
    ensures IsAscii(":") && IsAscii(",") && IsAscii("{") && IsAscii("}")
  {
  }

  lemma AsciiPayload(host: string, port: nat, username: string, password: string)
    ensures IsAscii(Payload(host, port, username, password))
  {
    AsciiMembers(Members(host, port, username, password));
    AsciiAppend("{", MembersText(Members(host, port, username, password)));
  }

  /** What export-key prints for a configuration and the text of the credentials file. */
  function ExportedKey(host: string, port: nat, credentials: string): Option<string> {
    match Cut(Strip(credentials), ':')
    case None => None
    case Some(parts) =>
      AsciiPayload(host, port, parts.0, parts.1);
      Some(KEY_PREFIX + UrlEncoded(AsciiBytes(Payload(host, port, parts.0, parts.1))))
  }

  lemma FieldsOfMembers(host: string, port: nat, username: string, password: string)
    ensures Fields(map[], Members(host, port, username, password)) ==
      map["v" := Number(1.0), "host" := Str(host), "port" := Number(port as real),
          "username" := Str(username), "password" := Str(password)]
  {
    var ms := Members(host, port, username, password);
    var f1: map<string, Json> := map["v" := Number(1.0)];
    var f2 := f1["host" := Str(host)];
    var f3 := f2["port" := Number(port as real)];
    var f4 := f3["username" := Str(username)];
    assert ms[1..][1..] == ms[2..] && ms[2..][1..] == ms[3..] && ms[3..][1..] == ms[4..] && ms[4..][1..] == [];
    assert Fields(map[], ms) == Fields(f1, ms[1..]);
    assert Fields(f1, ms[1..]) == Fields(f2, ms[2..]);
    assert Fields(f2, ms[2..]) == Fields(f3, ms[3..]);
    assert Fields(f3, ms[3..]) == Fields(f4, ms[4..]);
    assert Fields(f4, ms[4..]) == Fields(f4["password" := Str(password)], []);
  }

  /** The payload reads back as the connection, host lower-cased. */
  lemma PayloadRoundTrip(host: string, port: nat, username: string, password: string)
    requires Routing.IsValidHost(host) && 1 <= port <= 65535 && IsUsername(username) && IsPassword(password)
    ensures Parse(Payload(host, port, username, password)).Ok?
    ensures ValidateConnection(Parse(Payload(host, port, username, password)).value) ==
      Ok(Connection(Lower(host), port, username, password))
  {
    hide Routing.IsValidHost, Parse, Dumps;
    DumpsRoundTrip(Members(host, port, username, password));
    FieldsOfMembers(host, port, username, password);
    assert (port as real).Floor == port;
  }

  /** Printable ASCII. */
  predicate IsPrintable(s: string) {
    forall i :: 0 <= i < |s| ==> ' ' <= s[i] <= '~'
  }

  predicate IsLineEnding(s: string) {
    s == "" || s == "\n" || s == "\r\n"
  }

  lemma StripEnding(s: string, ending: string)
    requires s != [] && !IsPythonSpace(s[0]) && !IsPythonSpace(s[|s| - 1]) && IsLineEnding(ending)
    ensures Strip(s + ending) == s
  {
    TrimExactly(s + ending, s, IsPythonSpace);
    assert s + ending == "" + s + ending;
    assert Framed(s + ending, "", s, ending, IsPythonSpace);
  }

  /** Credentials as the installer generates them: printable, separated by a colon,
      without spaces at either end of the line. */
  predicate IsCredentials(username: string, password: string) {
    IsUsername(username) && IsPassword(password) && IsPrintable(username) && IsPrintable(password) &&
    username[0] != ' ' && password[|password| - 1] != ' '
  }

  function CredentialsText(username: string, password: string, ending: string): string {
    username + ":" + password + ending
  }

  lemma ExporterReads(username: string, password: string, ending: string)
    requires IsCredentials(username, password) && IsLineEnding(ending)
    ensures Cut(Strip(CredentialsText(username, password, ending)), ':') == Some((username, password))
  {
    var s := username + ":" + password;
    assert s[0] == username[0] && s[|s| - 1] == password[|password| - 1];
    StripEnding(s, ending);
    CutAtFirst(username, password, ':');
  }

  const MAX_PAYLOAD: nat := 3066

  lemma PrefixComesOff(encoded: string)
    requires encoded != [] && !IsSpace(encoded[|encoded| - 1])
    ensures var key := KEY_PREFIX + encoded;
      Trim(key) == key && Routing.StartsWith(key, KEY_PREFIX) && key[|KEY_PREFIX|..] == encoded
  {
    var key := KEY_PREFIX + encoded;
    assert key[0] == 's' && key[|key| - 1] == encoded[|encoded| - 1];
    TrimStays(key);
  }

  lemma LettersAreNoSpaces(c: char)
    requires Value(c, true).Some?
    ensures !IsSpace(c)
  {
  }

  /** The exported key imports as the connection exactly when its payload fits the key length. */
  lemma KeyRoundTrip(host: string, port: nat, username: string, password: string, ending: string)
    requires Routing.IsValidHost(host) && 1 <= port <= 65535
    requires IsCredentials(username, password) && IsLineEnding(ending)
    ensures var key := ExportedKey(host, port, CredentialsText(username, password, ending));
      key.Some? &&
      (ParseConnectionKey(key.value) == Ok(Connection(Lower(host), port, username, password)) <==>
         |Payload(host, port, username, password)| <= MAX_PAYLOAD)
  {
    hide Routing.IsValidHost, Parse, Payload, UrlEncoded, UrlDecoded, Trim, Cut, Strip, Lower,
      Routing.StartsWith, ValidateConnection, CredentialsText, Value;
    ExporterReads(username, password, ending);
    AsciiPayload(host, port, username, password);
    var payload := Payload(host, port, username, password);
    var bytes := AsciiBytes(payload);
    var encoded := UrlEncoded(bytes);
    UrlRoundTrip(bytes);
    AsciiRoundTrip(payload);
    assert payload != [] by { PayloadStarts(host, port, username, password); }
    LettersAreNoSpaces(encoded[|encoded| - 1]);
    PrefixComesOff(encoded);
    PayloadRoundTrip(host, port, username, password);
  }

  lemma PayloadStarts(host: string, port: nat, username: string, password: string)
    ensures Payload(host, port, username, password) != []
  {
  }

  predicate IsPlain(s: string) {
    forall i :: 0 <= i < |s| ==> ' ' <= s[i] <= '~' && s[i] != '"' && s[i] != '\\'
  }

  lemma {:induction false} PlainEscapes(s: string)
    requires IsPlain(s)
    ensures EscapedAll(s) == s
  {
    if s == [] {
    } else {
      PlainEscapes(s[1..]);
      assert [s[0]] + s[1..] == s;
    }
  }

  lemma Regroups(name: string, value: string, tail: string)
    ensures ("\"" + name + "\"") + ":" + ("\"" + value + "\"") + tail ==
      "\"" + (name + ("\":\"" + (value + ("\"" + tail))))
  {
    assert "\"" + ":" + "\"" == "\":\"";
  }

  lemma TextMember(ms: seq<(string, Scalar)>, name: string, value: string)
    requires ms != [] && ms[0] == (name, Scalar.Text(value)) && IsPlain(name) && IsPlain(value)
    ensures MembersText(ms) ==
      "\"" + (name + ("\":\"" + (value + ("\"" + if |ms| == 1 then "}" else "," + MembersText(ms[1..])))))
  {
    PlainEscapes(name);
    PlainEscapes(value);
    var tail := if |ms| == 1 then "}" else "," + MembersText(ms[1..]);
    assert MembersText(ms) == ("\"" + name + "\"") + ":" + ("\"" + value + "\"") + tail;
    hide *;
    Regroups(name, value, tail);
  }

  lemma RegroupsCount(name: string, value: string, tail: string)
    ensures ("\"" + name + "\"") + ":" + value + tail == "\"" + (name + ("\":" + (value + tail)))
  {
    assert "\"" + ":" == "\":";
  }

  lemma CountMember(ms: seq<(string, Scalar)>, name: string, n: nat)
    requires |ms| > 1 && ms[0] == (name, Count(n)) && IsPlain(name)
    ensures MembersText(ms) == "\"" + (name + ("\":" + (Decimal(n) + ("," + MembersText(ms[1..])))))
  {
    PlainEscapes(name);
    var value, tail := Decimal(n), "," + MembersText(ms[1..]);
    assert MembersText(ms) == ("\"" + name + "\"") + ":" + value + tail;
    hide *;
    RegroupsCount(name, value, tail);
  }

  lemma Literals(x: string)
    ensures "\"" + ("," + ("\"" + ("password" + ("\":\"" + x)))) == "\",\"password\":\"" + x
    ensures "," + ("\"" + ("username" + ("\":\"" + x))) == ",\"username\":\"" + x
    ensures "\"" + ("," + ("\"" + ("port" + ("\":" + x)))) == "\",\"port\":" + x
    ensures "{" + ("\"" + ("v" + ("\":" + ("1" + ("," + ("\"" + ("host" + ("\":\"" + x)))))))) ==
      "{\"v\":1,\"host\":\"" + x
    ensures "\"" + "}" == "\"}"
  {
  }

  /** The payload of plain members, written out as the exporter prints it. */
  lemma PayloadText(host: string, port: nat, username: string, password: string)
    requires IsPlain(host) && IsPlain(username) && IsPlain(password)
    ensures Payload(host, port, username, password) ==
      "{\"v\":1,\"host\":\"" + (host + ("\",\"port\":" + (Decimal(port) + (",\"username\":\"" + (username +
      ("\",\"password\":\"" + (password + "\"}")))))))
  {
    hide MembersText;
    var ms := Members(host, port, username, password);
    assert ms[1..][1..] == ms[2..] && ms[2..][1..] == ms[3..] && ms[3..][1..] == ms[4..];
    CountMember(ms, "v", 1);
    TextMember(ms[1..], "host", host);
    CountMember(ms[2..], "port", port);
    TextMember(ms[3..], "username", username);
    TextMember(ms[4..], "password", password);
    assert Decimal(1) == "1";
    hide Decimal, IsPlain, Members;
    var x4 := password + "\"}";
    var x3 := username + ("\",\"password\":\"" + x4);
    var x2 := Decimal(port) + (",\"username\":\"" + x3);
    Literals(x4);
    Literals(x3);
    Literals(x2);
    Literals(host + ("\",\"port\":" + x2));
  }

  lemma {:induction false} PrintableEscapes(s: string)
    requires IsPrintable(s)
    ensures |EscapedAll(s)| <= 2 * |s|
  {
    if s == [] {
    } else {
      PrintableEscapes(s[1..]);
    }
  }

  lemma MemberLength(ms: seq<(string, Scalar)>)
    requires ms != [] && IsPlain(ms[0].0)
    ensures |MembersText(ms)| ==
      |ms[0].0| + 4 + |ScalarText(ms[0].1)| + (if |ms| == 1 then 0 else |MembersText(ms[1..])|)
  {
    hide ScalarText;
    PlainEscapes(ms[0].0);
  }

  lemma PayloadLength(host: string, port: nat, username: string, password: string)
    ensures |Payload(host, port, username, password)| ==
      53 + |EscapedAll(host)| + |Decimal(port)| + |EscapedAll(username)| + |EscapedAll(password)|
  {
    hide MembersText, EscapedAll, Decimal;
    var ms := Members(host, port, username, password);
    assert ms[1..][1..] == ms[2..] && ms[2..][1..] == ms[3..] && ms[3..][1..] == ms[4..];
    MemberLength(ms);
    MemberLength(ms[1..]);
    MemberLength(ms[2..]);
    MemberLength(ms[3..]);
    MemberLength(ms[4..]);
    assert |Decimal(1)| == 1 by { DigitsBelow(1, 1); }
  }

  lemma {:induction false} PortDigits(n: nat)
    requires n <= 65535
    ensures |Decimal(n)| <= 5
  {
    assert n >= 10 ==> n / 10 <= 6553 && Decimal(n) == Decimal(n / 10) + [Decimal(n)[|Decimal(n)| - 1]];
    if n >= 10000 { DigitsBelow(n / 10, 4); } else { DigitsBelow(n, 4); }
  }

  lemma {:induction false} DigitsBelow(n: nat, k: nat)
    requires k > 0 && n < Power10(k)
    ensures |Decimal(n)| <= k
  {
    if n < 10 {
    } else {
      DigitsBelow(n / 10, k - 1);
    }
  }

  /** Every ASCII host fits, so its key always imports. */
  lemma AsciiHostsFit(host: string, port: nat, username: string, password: string)
    requires Routing.IsValidHost(host) && IsAscii(host) && 1 <= port <= 65535 && IsCredentials(username, password)
    ensures |Payload(host, port, username, password)| <= MAX_PAYLOAD
  {
    Routing.ValidHostChars(host);
    assert |host| <= 253;
    hide Routing.IsValidHost, Payload;
    assert IsPlain(host) by {
      forall i | 0 <= i < |host| ensures ' ' <= host[i] <= '~' && host[i] != '"' && host[i] != '\\' {
        assert Routing.IsHostChar(LowerChar(host[i]));
      }
    }
    PlainEscapes(host);
    PrintableEscapes(username);
    PrintableEscapes(password);
    PortDigits(port);
    PayloadLength(host, port, username, password);
  }

  function Repeated(c: char, n: nat): (s: string)
    ensures |s| == n && forall i :: 0 <= i < n ==> s[i] == c
  {
    if n == 0 then "" else [c] + Repeated(c, n - 1)
  }

  lemma OneTimeMore(n: nat, k: nat)
    requires n > 0
    ensures n * k == (n - 1) * k + k
  {
  }

  lemma {:induction false} EscapedRepeated(c: char, n: nat, k: nat)
    requires |Escaped(c)| == k
    ensures |EscapedAll(Repeated(c, n))| == n * k
  {
    hide Escaped;
    if n == 0 {
    } else {
      assert Repeated(c, n)[1..] == Repeated(c, n - 1);
      assert |EscapedAll(Repeated(c, n))| == k + |EscapedAll(Repeated(c, n - 1))|;
      hide EscapedAll, Repeated;
      EscapedRepeated(c, n - 1, k);
      OneTimeMore(n, k);
    }
  }

  lemma {:induction false} EscapedAppend(a: string, b: string)
    ensures EscapedAll(a + b) == EscapedAll(a) + EscapedAll(b)
  {
    hide Escaped;
    if a == [] {
      assert a + b == b;
    } else {
      assert (a + b)[1..] == a[1..] + b;
      EscapedAppend(a[1..], b);
    }
  }

  /** Four labels of one letter each repeated, 253 characters long. */
  function FourLabels(c: char): string {
    Repeated(c, 63) + "." + (Repeated(c, 63) + "." + (Repeated(c, 63) + "." + Repeated(c, 61)))
  }

  lemma FourLabelsAt(c: char, i: nat)
    requires i < 253
    ensures |FourLabels(c)| == 253
    ensures FourLabels(c)[i] == if i == 63 || i == 127 || i == 191 then '.' else c
  {
  }

  lemma FourLabelsSplit(c: char)
    requires c != '.'
    ensures Split(FourLabels(c), '.') == [Repeated(c, 63), Repeated(c, 63), Repeated(c, 63), Repeated(c, 61)]
  {
    var l63, l61 := Repeated(c, 63), Repeated(c, 61);
    SplitPlain(l63, '.');
    SplitPlain(l61, '.');
    hide Repeated, Split;
    SplitAt(l63, l63 + "." + (l63 + "." + l61), '.');
    SplitAt(l63, l63 + "." + l61, '.');
    SplitAt(l63, l61, '.');
  }

  lemma LowerFourLabels()
    ensures Lower(FourLabels('\U{212A}')) == FourLabels('k')
    ensures Trim(FourLabels('\U{212A}')) == FourLabels('\U{212A}')
  {
    hide FourLabels, Trim, Repeated;
    var host := FourLabels('\U{212A}');
    FourLabelsAt('\U{212A}', 0);
    FourLabelsAt('\U{212A}', 252);
    FourLabelsAt('k', 0);
    forall i: nat | i < 253 ensures Lower(host)[i] == FourLabels('k')[i] {
      FourLabelsAt('\U{212A}', i);
      FourLabelsAt('k', i);
    }
    TrimStays(host);
  }

  lemma RepeatedIsLabel(n: nat)
    requires 1 <= n <= 63
    ensures Routing.IsLabel(Repeated('k', n)) && !Routing.AllDigits(Repeated('k', n))
  {
    assert !Routing.IsDigit(Repeated('k', n)[0]);
  }

  lemma ValidByLabels(host: string, parts: seq<string>, i: nat, k: nat)
    requires 3 <= |host| <= 253 && host == Trim(host) && parts == Split(Lower(host), '.')
    requires i < |parts| && !Routing.AllDigits(parts[i]) && forall j :: 0 <= j < |parts| ==> Routing.IsLabel(parts[j])
    requires k < |host| && Lower(host)[k] == '.' && !Routing.IsDigit(Lower(host)[0]) && Lower(host)[0] != '.'
    ensures Routing.IsValidHost(host)
  {
    hide Lower, Trim, Split, Routing.IsLabel, Routing.AllDigits, Routing.IsDigit;
  }

  /** Written with the Kelvin sign, whose lower case is the ASCII letter k, such a
      host passes the extension's host check. */
  lemma KelvinHostIsValid()
    ensures Routing.IsValidHost(FourLabels('\U{212A}'))
  {
    hide Lower, FourLabels, Repeated, Routing.IsLabel, Routing.AllDigits, Trim, Split, Routing.IsValidHost;
    LowerFourLabels();
    FourLabelsAt('\U{212A}', 0);
    FourLabelsAt('k', 0);
    FourLabelsAt('k', 63);
    FourLabelsSplit('k');
    RepeatedIsLabel(63);
    RepeatedIsLabel(61);
    ValidByLabels(FourLabels('\U{212A}'), Split(FourLabels('k'), '.'), 0, 63);
  }

  lemma FourLabelsEscape(c: char)
    requires |Escaped(c)| == 6
    ensures |EscapedAll(FourLabels(c))| == 1503
  {
    hide Escaped;
    var k63, k61 := Repeated(c, 63), Repeated(c, 61);
    EscapedRepeated(c, 63, 6);
    EscapedRepeated(c, 61, 6);
    PlainEscapes(".");
    hide EscapedAll, Repeated;
    EscapedAppend(k63 + ".", k63 + "." + (k63 + "." + k61));
    EscapedAppend(k63 + ".", k63 + "." + k61);
    EscapedAppend(k63 + ".", k61);
    EscapedAppend(k63, ".");
  }

  lemma QuotesAreCredentials()
    ensures IsCredentials(Repeated('"', 256), Repeated('"', 512))
  {
    hide Units, Repeated;
  }

  /** A valid host and credentials whose key does not import: it is longer than the parser accepts. */
  lemma KelvinHostDoesNotImport() returns (host: string, username: string, password: string, key: string)
    ensures Routing.IsValidHost(host) && IsCredentials(username, password)
    ensures ExportedKey(host, 443, CredentialsText(username, password, "\n")) == Some(key)
    ensures ParseConnectionKey(key) != Ok(Connection(Lower(host), 443, username, password))
  {
    host, username, password := FourLabels('\U{212A}'), Repeated('"', 256), Repeated('"', 512);
    assert |Escaped('\U{212A}')| == 6;
    assert |Escaped('"')| == 2;
    hide *;
    KelvinHostIsValid();
    QuotesAreCredentials();
    FourLabelsEscape('\U{212A}');
    EscapedRepeated('"', 256, 2);
    EscapedRepeated('"', 512, 2);
    PayloadLength(host, 443, username, password);
    LineEndingLf();
    KeyRoundTrip(host, 443, username, password, "\n");
    key := ExportedKey(host, 443, CredentialsText(username, password, "\n")).value;
  }

  lemma LineEndingLf()
    ensures IsLineEnding("\n") && MAX_PAYLOAD == 3066
  {
  }
}
