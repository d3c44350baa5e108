/** The hosts that keys and exclusions may name, written out: dotted quads without leading zeros,
    and names of at least two labels. */
module Hosts {
  import opened Wrappers
  import opened Text
  import opened Browser
  import opened ConnectionKey
  import Json
  import Routing

  // Dotted quads.

  lemma {:induction false} DecimalReads(n: nat)
    ensures var s := Json.Decimal(n); Routing.AllDigits(s) && Routing.DecimalValue(s) == n
  {
    if n < 10 {
    } else {
      DecimalReads(n / 10);
      var s := Json.Decimal(n);
      assert s[..|s| - 1] == Json.Decimal(n / 10);
    }
  }

  lemma {:induction false} ReadsDecimal(s: string)
    requires s != [] && Routing.AllDigits(s) && (s[0] == '0' ==> |s| == 1)
    ensures Json.Decimal(Routing.DecimalValue(s)) == s
    ensures s[0] != '0' ==> Routing.DecimalValue(s) > 0
  {
    if |s| == 1 {
      assert s == [s[0]];
    } else {
      var t := s[..|s| - 1];
      ReadsDecimal(t);
      assert s == t + [s[|s| - 1]];
    }
  }

  /** An octet is the decimal text of a number below 256. */
  lemma OctetExactly(s: string)
    ensures Routing.IsOctet(s) <==> exists n: nat :: n < 256 && s == Json.Decimal(n)
  {
    if Routing.IsOctet(s) { ReadsDecimal(s); }
    if n: nat :| n < 256 && s == Json.Decimal(n) {
      DecimalReads(n);
      Json.DecimalStarts(n);
    }
  }

  function Quad(a: nat, b: nat, c: nat, d: nat): string {
    Json.Decimal(a) + "." + (Json.Decimal(b) + "." + (Json.Decimal(c) + "." + Json.Decimal(d)))
  }

  lemma QuadSplits(a: nat, b: nat, c: nat, d: nat)
    ensures Split(Quad(a, b, c, d), '.') == [Json.Decimal(a), Json.Decimal(b), Json.Decimal(c), Json.Decimal(d)]
  {
    var s, t, u, v := Json.Decimal(a), Json.Decimal(b), Json.Decimal(c), Json.Decimal(d);
    DecimalReads(a);
    DecimalReads(b);
    DecimalReads(c);
    DecimalReads(d);
    hide Json.Decimal, Routing.DecimalValue, Split;
    SplitPlain(s, '.');
    SplitPlain(t, '.');
    SplitPlain(u, '.');
    SplitPlain(v, '.');
    SplitAt(u, v, '.');
    SplitAt(t, u + "." + v, '.');
    SplitAt(s, t + "." + (u + "." + v), '.');
    assert [s] + ([t] + ([u] + [v])) == [s, t, u, v];
  }

  predicate DigitsAndDots(s: string) {
    forall i :: 0 <= i < |s| ==> '0' <= s[i] <= '9' || s[i] == '.'
  }

  lemma ShortDecimal(n: nat)
    requires n < 256
    ensures 1 <= |Json.Decimal(n)| <= 3
  {
    if n >= 10 {
      assert |Json.Decimal(n)| == |Json.Decimal(n / 10)| + 1;
      if n >= 100 { assert |Json.Decimal(n / 10)| == |Json.Decimal(n / 100)| + 1; }
    }
  }

  lemma PlainLower(s: string)
    requires DigitsAndDots(s)
    ensures Lower(s) == s
  {
  }

  lemma QuadIsPlain(a: nat, b: nat, c: nat, d: nat)
    requires a < 256 && b < 256 && c < 256 && d < 256
    ensures DigitsAndDots(Quad(a, b, c, d)) && 7 <= |Quad(a, b, c, d)| <= 15
    ensures Trim(Quad(a, b, c, d)) == Quad(a, b, c, d)
  {
    DecimalReads(a);
    DecimalReads(b);
    DecimalReads(c);
    DecimalReads(d);
    ShortDecimal(a);
    ShortDecimal(b);
    ShortDecimal(c);
    ShortDecimal(d);
    hide Json.Decimal, Routing.DecimalValue, Trim, Split;
    var s := Quad(a, b, c, d);
    forall i | 0 <= i < |s| ensures '0' <= s[i] <= '9' || s[i] == '.' {
      assert s[i] in Json.Decimal(a) || s[i] in Json.Decimal(b) || s[i] in Json.Decimal(c) || s[i] in Json.Decimal(d) ||
        s[i] == '.';
    }
    assert s[0] == Json.Decimal(a)[0];
    assert s[|s| - 1] == Json.Decimal(d)[|Json.Decimal(d)| - 1];
    TrimStays(s);
  }

  predicate FourOctets(parts: seq<string>) {
    |parts| == 4 && forall i :: 0 <= i < 4 ==> Routing.IsOctet(parts[i])
  }

  /** A host of digits and dots is judged by its four octets alone. */
  lemma PlainHost(host: string)
    requires DigitsAndDots(host)
    ensures Routing.IsValidHost(host) <==>
      3 <= |host| <= 253 && Trim(host) == host && FourOctets(Split(host, '.'))
  {
    PlainLower(host);
    hide Lower, Trim, Split, Routing.DecimalValue;
  }

  lemma OctetText(n: nat)
    requires n < 256
    ensures Routing.IsOctet(Json.Decimal(n))
  {
    OctetExactly(Json.Decimal(n));
    hide Json.Decimal, Routing.IsOctet;
  }

  lemma OctetValue(s: string) returns (n: nat)
    requires Routing.IsOctet(s)
    ensures n < 256 && s == Json.Decimal(n)
  {
    OctetExactly(s);
    hide Json.Decimal, Routing.IsOctet;
    n :| n < 256 && s == Json.Decimal(n);
  }

  /** Every dotted quad is a valid host. */
  lemma QuadIsValid(a: nat, b: nat, c: nat, d: nat)
    requires a < 256 && b < 256 && c < 256 && d < 256
    ensures Routing.IsValidHost(Quad(a, b, c, d))
  {
    QuadIsPlain(a, b, c, d);
    PlainHost(Quad(a, b, c, d));
    QuadSplits(a, b, c, d);
    OctetText(a);
    OctetText(b);
    OctetText(c);
    OctetText(d);
    hide Quad, Json.Decimal, Trim, Split, Routing.IsValidHost, DigitsAndDots, Routing.IsOctet;
  }

  lemma QuadOnly(host: string) returns (a: nat, b: nat, c: nat, d: nat)
    requires DigitsAndDots(host) && Routing.IsValidHost(host)
    ensures a < 256 && b < 256 && c < 256 && d < 256 && host == Quad(a, b, c, d)
  {
    PlainHost(host);
    hide Quad, Json.Decimal, Trim, Split, Routing.IsValidHost, DigitsAndDots, Join, Routing.IsOctet;
    var parts := Split(host, '.');
    a := OctetValue(parts[0]);
    b := OctetValue(parts[1]);
    c := OctetValue(parts[2]);
    d := OctetValue(parts[3]);
    QuadSplits(a, b, c, d);
    assert parts == Split(Quad(a, b, c, d), '.');
    JoinSplit(host, '.');
    JoinSplit(Quad(a, b, c, d), '.');
  }

  /** Where a valid host is made of digits and dots alone, it is exactly a dotted quad. */
  lemma QuadsExactly(host: string)
    requires DigitsAndDots(host)
    ensures Routing.IsValidHost(host) <==>
      exists a: nat, b: nat, c: nat, d: nat :: a < 256 && b < 256 && c < 256 && d < 256 && host == Quad(a, b, c, d)
  {
    hide Quad, Routing.IsValidHost, DigitsAndDots;
    if Routing.IsValidHost(host) { var a, b, c, d := QuadOnly(host); }
    if a: nat, b: nat, c: nat, d: nat :| a < 256 && b < 256 && c < 256 && d < 256 && host == Quad(a, b, c, d) {
      QuadIsValid(a, b, c, d);
    }
  }

  // Names.

  /** A label: letters, digits and inner hyphens. */
  predicate IsNameLabel(s: string) {
    1 <= |s| <= 63 && s[0] != '-' && s[|s| - 1] != '-' &&
    forall i :: 0 <= i < |s| ==> 'a' <= s[i] <= 'z' || '0' <= s[i] <= '9' || s[i] == '-'
  }

  lemma {:induction false} DotSplits(s: string)
    ensures '.' in s <==> |Split(s, '.')| >= 2
  {
    if s == [] {
    } else {
      DotSplits(s[1..]);
      assert s == [s[0]] + s[1..];
    }
  }

  lemma LowerKeepsKind(s: string)
    ensures DigitsAndDots(Lower(s)) <==> DigitsAndDots(s)
  {
    assert forall i :: 0 <= i < |s| ==>
      (('0' <= Lower(s)[i] <= '9' || Lower(s)[i] == '.') <==> ('0' <= s[i] <= '9' || s[i] == '.'));
  }

  /** Any other host is valid exactly if it has at least two labels, all of that form once it is
      in lower case. */
  lemma NamesExactly(host: string)
    requires !DigitsAndDots(host)
    ensures Routing.IsValidHost(host) <==>
      3 <= |host| <= 253 && Trim(host) == host && |Split(Lower(host), '.')| >= 2 &&
      forall part :: part in Split(Lower(host), '.') ==> IsNameLabel(part)
  {
    var value := Lower(host);
    LowerKeepsKind(host);
    DotSplits(value);
    LabelsAlike();
    hide Lower, Trim, Split, Routing.IsLabel, IsNameLabel;
    if Routing.IsDottedQuad(Split(value, '.')) { PlainParts(value); }
  }

  lemma LabelsAlike()
    ensures forall s :: Routing.IsLabel(s) <==> IsNameLabel(s)
  {
  }

  lemma PlainParts(s: string)
    requires Routing.IsDottedQuad(Split(s, '.'))
    ensures DigitsAndDots(s)
  {
    PlainChars(s);
  }

  lemma {:induction false} PlainChars(s: string)
    requires forall part :: part in Split(s, '.') ==> Routing.AllDigits(part)
    ensures DigitsAndDots(s)
  {
    if s == [] {
    } else {
      var parts, rest := Split(s, '.'), Split(s[1..], '.');
      if s[0] == '.' {
        assert forall part :: part in rest ==> part in parts;
      } else {
        assert parts[0] in parts && parts[0] == [s[0]] + rest[0];
        assert forall k :: 0 <= k < |rest[0]| ==> parts[0][k + 1] == rest[0][k];
        assert parts[0][0] == s[0];
        assert forall part :: part in rest[1..] ==> part in parts;
        assert rest == [rest[0]] + rest[1..];
      }
      PlainChars(s[1..]);
      assert s == [s[0]] + s[1..];
    }
  }

  // Keys.

  /** What the installer generates, written out: a name of 1 to 256 and a password of 1 to 512
      printable ASCII characters, no colon in the name, no space at either end of the line. */
  predicate Printable(username: string, password: string) {
    1 <= |username| <= 256 && 1 <= |password| <= 512 && username[0] != ' ' && password[|password| - 1] != ' ' &&
    (forall i :: 0 <= i < |username| ==> ' ' <= username[i] <= '~' && username[i] != ':') &&
    (forall i :: 0 <= i < |password| ==> ' ' <= password[i] <= '~')
  }

  lemma PrintableExactly(username: string, password: string)
    ensures IsCredentials(username, password) <==> Printable(username, password)
  {
    assert forall c: char :: ' ' <= c <= '~' ==> c as int < 0x10000 && !IsControl(c);
    hide Units;
  }

  /** The key of an installation on an IPv4 address imports, with exactly what was exported. */
  lemma QuadKeyImports(a: nat, b: nat, c: nat, d: nat, port: nat, username: string, password: string, ending: string)
    requires a < 256 && b < 256 && c < 256 && d < 256 && 1 <= port <= 65535
    requires Printable(username, password) && (ending == "" || ending == "\n" || ending == "\r\n")
    ensures var key := ExportedKey(Quad(a, b, c, d), port, username + ":" + password + ending);
      key.Some? && "shbvpn1:" <= key.value &&
      ParseConnectionKey(key.value) == Ok(Connection(Quad(a, b, c, d), port, username, password))
  {
    QuadIsValid(a, b, c, d);
    QuadIsPlain(a, b, c, d);
    PlainLower(Quad(a, b, c, d));
    hide Quad;
    HostKeyImports(Quad(a, b, c, d), port, username, password, ending);
  }

  lemma HostKeyImports(host: string, port: nat, username: string, password: string, ending: string)
    requires Routing.IsValidHost(host) && IsAscii(host) && 1 <= port <= 65535
    requires Printable(username, password) && IsLineEnding(ending)
    ensures var key := ExportedKey(host, port, username + ":" + password + ending);
      key.Some? && "shbvpn1:" <= key.value &&
      ParseConnectionKey(key.value) == Ok(Connection(Lower(host), port, username, password))
  {
    PrintableExactly(username, password);
    hide Routing.IsValidHost, ParseConnectionKey, Payload, Lower, Printable, IsCredentials;
    KeyRoundTrip(host, port, username, password, ending);
    AsciiHostsFit(host, port, username, password);
  }

  lemma NameChars(s: string)
    requires forall part :: part in Split(s, '.') ==> IsNameLabel(part)
    ensures forall i :: 0 <= i < |s| ==> Routing.IsHostChar(s[i])
  {
    hide Split;
    assert forall part :: part in Split(s, '.') ==> forall k :: 0 <= k < |part| ==> Routing.IsHostChar(part[k]);
    Routing.CharsOfParts(s);
  }

  lemma HostCharStays(c: char)
    requires Routing.IsHostChar(c)
    ensures LowerChar(c) == c && c as int < 128 && !IsSpace(c)
  {
  }

  lemma HostCharsStay(s: string)
    requires s != [] && forall i :: 0 <= i < |s| ==> Routing.IsHostChar(s[i])
    ensures Lower(s) == s && Trim(s) == s && IsAscii(s)
  {
    forall i | 0 <= i < |s| ensures LowerChar(s[i]) == s[i] && s[i] as int < 128 && !IsSpace(s[i]) {
      HostCharStays(s[i]);
    }
    hide Routing.IsHostChar, LowerChar, IsSpace, Trim;
    TrimStays(s);
  }

  lemma NameIsValid(host: string)
    requires 3 <= |host| <= 253 && '.' in host && !DigitsAndDots(host)
    requires forall part :: part in Split(host, '.') ==> IsNameLabel(part)
    ensures Routing.IsValidHost(host) && Lower(host) == host && IsAscii(host)
  {
    NameChars(host);
    HostCharsStay(host);
    NamesExactly(host);
    DotSplits(host);
    hide Split, Trim, Lower, IsNameLabel, Routing.IsValidHost, DigitsAndDots;
  }

  /** So does the key of an installation on a name of at least two labels. */
  lemma NameKeyImports(host: string, port: nat, username: string, password: string, ending: string)
    requires 3 <= |host| <= 253 && '.' in host && !DigitsAndDots(host)
    requires forall part :: part in Split(host, '.') ==> IsNameLabel(part)
    requires 1 <= port <= 65535 && Printable(username, password)
    requires ending == "" || ending == "\n" || ending == "\r\n"
    ensures var key := ExportedKey(host, port, username + ":" + password + ending);
      key.Some? && "shbvpn1:" <= key.value &&
      ParseConnectionKey(key.value) == Ok(Connection(host, port, username, password))
  {
    NameIsValid(host);
    hide Split, Lower, IsNameLabel, DigitsAndDots, Routing.IsValidHost, Printable, ExportedKey, ParseConnectionKey;
    HostKeyImports(host, port, username, password, ending);
  }
}
