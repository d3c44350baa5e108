/** Splitting a requested authority into a host and an allowed port. */
module Targets {
  import opened Wrappers

  /** The first position of a character, or the length if there is none. */
  function IndexOf(s: string, c: char): (i: nat)
    ensures i <= |s| && (i < |s| ==> s[i] == c)
    ensures forall k :: 0 <= k < i ==> s[k] != c
  {
    if s == [] || s[0] == c then 0 else 1 + IndexOf(s[1..], c)
  }

  /** The last position of a character, or -1. */
  function LastIndexOf(s: string, c: char): (i: int)
    ensures -1 <= i < |s| && (i >= 0 ==> s[i] == c)
    ensures forall k :: i < k < |s| ==> s[k] != c
  {
    if s == [] then -1 else if s[|s| - 1] == c then |s| - 1 else LastIndexOf(s[..|s| - 1], c)
  }

  lemma FirstIndex(s: string, c: char, i: nat)
    requires i < |s| && s[i] == c && forall k :: 0 <= k < i ==> s[k] != c
    ensures IndexOf(s, c) == i
  {
  }

  lemma LastIndex(s: string, c: char, i: nat)
    requires i < |s| && s[i] == c && forall k :: i < k < |s| ==> s[k] != c
    ensures LastIndexOf(s, c) == i
  {
  }

  predicate StartsWith(s: string, c: char) {
    s != [] && s[0] == c
  }

  /** net.SplitHostPort. */
  function SplitHostPort(s: string): Option<(string, string)> {
    var i := LastIndexOf(s, ':');
    if i < 0 then None
    else if StartsWith(s, '[') then
      var end := IndexOf(s, ']');
      if end + 1 != i then None
      else if '[' in s[1..] || ']' in s[i..] then None
      else Some((s[1..end], s[i + 1..]))
    else if ':' in s[..i] || '[' in s || ']' in s then None
    else Some((s[..i], s[i + 1..]))
  }

  predicate NoBrackets(s: string) {
    '[' !in s && ']' !in s
  }

  /** The two written forms of a host with a port. */
  predicate Written(s: string, host: string, port: string) {
    NoBrackets(host) && NoBrackets(port) && ':' !in port &&
    ((s == host + ":" + port && ':' !in host) || s == "[" + host + "]:" + port)
  }

  lemma SplitsBracketed(s: string, host: string, port: string)
    requires NoBrackets(host) && NoBrackets(port) && ':' !in port && s == "[" + host + "]:" + port
    ensures SplitHostPort(s) == Some((host, port))
  {
    var end := |host| + 1;
    assert s[1..end] == host && s[end + 2..] == port;
    assert forall k :: 1 <= k < end ==> s[k] == host[k - 1];
    assert forall k :: end + 2 <= k < |s| ==> s[k] == port[k - end - 2];
    FirstIndex(s, ']', end);
    LastIndex(s, ':', end + 1);
    hide IndexOf, LastIndexOf;
    assert '[' !in s[1..] && ']' !in s[end + 1..];
  }

  lemma SplitsPlain(s: string, host: string, port: string)
    requires NoBrackets(host) && NoBrackets(port) && ':' !in port && ':' !in host && s == host + ":" + port
    ensures SplitHostPort(s) == Some((host, port))
  {
    assert s[|host| + 1..] == port && s[..|host|] == host;
    assert forall k :: |host| + 1 <= k < |s| ==> s[k] == port[k - |host| - 1];
    LastIndex(s, ':', |host|);
    hide IndexOf, LastIndexOf;
    assert NoBrackets(s) by { assert forall c :: c in s <==> c in host || c == ':' || c in port; }
  }

  lemma SplitIsWritten(s: string)
    requires SplitHostPort(s).Some?
    ensures Written(s, SplitHostPort(s).value.0, SplitHostPort(s).value.1)
  {
    hide IndexOf, LastIndexOf;
    var (host, port) := SplitHostPort(s).value;
    var i := LastIndexOf(s, ':');
    assert forall k :: i < k < |s| ==> s[k] == port[k - i - 1];
    if StartsWith(s, '[') {
      var end := IndexOf(s, ']');
      assert s == "[" + host + "]:" + port;
      assert forall c :: c in host ==> c in s[1..];
      assert forall k :: 0 <= k < |host| ==> host[k] == s[k + 1];
      assert forall c :: c in port ==> c in s[i..] && c in s[1..];
    } else {
      assert s == host + ":" + port;
      assert forall c :: c in host || c in port ==> c in s;
    }
  }

  /** SplitHostPort undoes exactly the two written forms. */
  lemma SplitExactly(s: string, host: string, port: string)
    ensures SplitHostPort(s) == Some((host, port)) <==> Written(s, host, port)
  {
    if Written(s, host, port) {
      if s == "[" + host + "]:" + port { SplitsBracketed(s, host, port); } else { SplitsPlain(s, host, port); }
    }
    if SplitHostPort(s).Some? { SplitIsWritten(s); }
  }

  predicate IsDigits(s: string) {
    s != [] && forall i :: 0 <= i < |s| ==> '0' <= s[i] <= '9'
  }

  function Digits(s: string): nat
    requires forall i :: 0 <= i < |s| ==> '0' <= s[i] <= '9'
  {
    if s == [] then 0 else 10 * Digits(s[..|s| - 1]) + (s[|s| - 1] as int - '0' as int)
  }

  const INT64_MAX := 0x7fff_ffff_ffff_ffff

  /** strconv.Atoi: an optional sign and decimal digits within 64 bits. */
  function Atoi(s: string): Option<int> {
    var signed := StartsWith(s, '+') || StartsWith(s, '-');
    var digits := if signed then s[1..] else s;
    if !IsDigits(digits) then None
    else
      var magnitude: int := Digits(digits);
      var n := if StartsWith(s, '-') then -magnitude else magnitude;
      if -INT64_MAX - 1 <= n <= INT64_MAX then Some(n) else None
  }

  const ALLOWED_PORTS := {80, 443, 8080, 8443, 9443}

  datatype SplitError = InvalidTarget | InvalidAddress | InvalidHost | InvalidPort | BlockedPort

  datatype Split = Target(host: string, port: string) | Failed(error: SplitError)

  const REFUSED_CHARS := "@/#?\\\r\n\t "

  predicate ContainsAny(s: string, chars: string) {
    exists i :: 0 <= i < |s| && s[i] in chars
  }

  function SplitTarget(authority: string, defaultPort: string): Split {
    if authority == "" || ContainsAny(authority, REFUSED_CHARS) then Failed(InvalidTarget)
    else if StartsWith(authority, '[') && authority[|authority| - 1] == ']' && defaultPort != "" then
      Checked(authority[1..|authority| - 1], defaultPort)
    else if StartsWith(authority, '[') || ':' in authority then
      match SplitHostPort(authority)
      case None => Failed(InvalidAddress)
      case Some((host, port)) => Checked(host, port)
    else Checked(authority, defaultPort)
  }

  function Checked(host: string, port: string): Split {
    if host == "" || host == "." || '%' in host then Failed(InvalidHost)
    else
      match Atoi(port)
      case None => Failed(InvalidPort)
      case Some(n) =>
        if n < 1 || n > 65535 then Failed(InvalidPort)
        else if n !in ALLOWED_PORTS then Failed(BlockedPort)
        else Target(host, port)
  }

  predicate AllowedPort(port: string) {
    Atoi(port).Some? && Atoi(port).value in ALLOWED_PORTS
  }

  predicate Decimal(port: string, digits: string) {
    (port == digits || port == "+" + digits) && IsDigits(digits) && Digits(digits) in ALLOWED_PORTS
  }

  lemma DecimalIsAllowed(port: string, digits: string)
    requires Decimal(port, digits)
    ensures AllowedPort(port)
  {
    hide Digits;
    assert '0' <= digits[0] <= '9';
    if port == "+" + digits { assert port[1..] == digits; }
  }

  /** An allowed port is an optional plus sign and decimal digits of one of the five numbers. */
  lemma AllowedPortIsDecimal(port: string)
    ensures AllowedPort(port) <==> exists digits :: Decimal(port, digits)
  {
    hide Digits;
    if AllowedPort(port) {
      if StartsWith(port, '+') { assert port == "+" + port[1..]; }
      assert Decimal(port, if StartsWith(port, '+') then port[1..] else port);
    }
    forall digits | Decimal(port, digits) ensures AllowedPort(port) { DecimalIsAllowed(port, digits); }
  }

  lemma {:induction false} PositiveDigits(s: string)
    requires IsDigits(s) && s[0] != '0'
    ensures Digits(s) > 0
  {
    if |s| > 1 { PositiveDigits(s[..|s| - 1]); }
  }

  lemma {:induction false} SameDigits(s: string, t: string)
    requires IsDigits(s) && IsDigits(t) && s[0] != '0' && t[0] != '0' && Digits(s) == Digits(t)
    ensures s == t
    decreases |s|
  {
    var x, y := s[..|s| - 1], t[..|t| - 1];
    if |s| > 1 { PositiveDigits(x); }
    if |t| > 1 { PositiveDigits(y); }
    assert s == x + [s[|s| - 1]] && t == y + [t[|t| - 1]];
    if |s| > 1 && |t| > 1 {
      SameDigits(x, y);
    } else {
      assert Digits("") == 0;
    }
  }

  lemma PortValues()
    ensures Digits("80") == 80 && Digits("443") == 443 && Digits("8080") == 8080 && Digits("8443") == 8443
    ensures Digits("9443") == 9443
  {
    assert "80"[..1] == "8" && "443"[..2] == "44" && "44"[..1] == "4" && "8080"[..3] == "808" && "808"[..2] == "80";
    assert "8443"[..3] == "844" && "844"[..2] == "84" && "84"[..1] == "8";
    assert "9443"[..3] == "944" && "944"[..2] == "94" && "94"[..1] == "9";
  }

  /** Written without a sign and leading zeros, the allowed ports are five texts. */
  lemma AllowedPortsExactly(port: string)
    requires port != [] && port[0] != '0' && port[0] != '+'
    ensures AllowedPort(port) <==> port in ["80", "443", "8080", "8443", "9443"]
  {
    PortValues();
    AllowedPortIsDecimal(port);
    hide AllowedPort, Digits;
    if port in ["80", "443", "8080", "8443", "9443"] { assert Decimal(port, port); }
    if AllowedPort(port) {
      var digits :| Decimal(port, digits);
      assert port == digits;
      forall text | text in ["80", "443", "8080", "8443", "9443"] && Digits(text) == Digits(port)
        ensures port == text
      {
        SameDigits(port, text);
      }
    }
  }

  lemma AllowedPortIsPlain(port: string)
    requires AllowedPort(port)
    ensures ':' !in port && NoBrackets(port)
  {
    AllowedPortIsDecimal(port);
    hide AllowedPort, Digits;
    var digits :| Decimal(port, digits);
    assert forall c :: c in port ==> c in digits || c == '+';
    assert forall c :: c in digits ==> '0' <= c <= '9';
  }

  predicate IsHost(host: string) {
    host != "" && host != "." && '%' !in host
  }

  /** What splitTarget accepts: a written host and port, or a host alone where the
      request has a default port; the port's value is on the list. */
  lemma SplitTargetExactly(authority: string, defaultPort: string, host: string, port: string)
    requires ':' !in defaultPort && NoBrackets(defaultPort)
    ensures SplitTarget(authority, defaultPort) == Target(host, port) <==>
      (forall c :: c in authority ==> c !in "@/#?\\\r\n\t ") && IsHost(host) && AllowedPort(port) &&
      (if StartsWith(authority, '[') && authority[|authority| - 1] == ']' && defaultPort != ""
       then authority == "[" + host + "]" && port == defaultPort
       else Written(authority, host, port) ||
            (authority == host && port == defaultPort && ':' !in host && !StartsWith(host, '[')))
  {
    hide Atoi;
    SplitExactly(authority, host, port);
    hide SplitHostPort;
    assert AllowedPort(port) ==> 1 <= Atoi(port).value <= 65535;
    assert Written(authority, host, port) ==> ':' in authority by {
      if authority == host + ":" + port { assert authority[|host|] == ':'; }
      if authority == "[" + host + "]:" + port { assert authority[|host| + 2] == ':'; }
    }
    if StartsWith(authority, '[') && authority[|authority| - 1] == ']' && |authority| >= 2 {
      assert authority == "[" + authority[1..|authority| - 1] + "]";
    }
    if authority == "[" + host + "]" { assert authority[1..|authority| - 1] == host; }
  }
}
