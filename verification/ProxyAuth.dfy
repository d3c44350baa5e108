/** Reading the credentials file and checking Proxy-Authorization. */
module ProxyAuth {
  import opened Wrappers
  import opened Text
  import opened Base64
  import opened ConnectionKey

  function TrimSuffix(s: string, suffix: string): string {
    if EndsWith(s, suffix) then s[..|s| - |suffix|] else s
  }

  /** readCredentials on the text of the file. */
  function ReadCredentials(data: string): Option<(string, string)> {
    var value := TrimSuffix(TrimSuffix(data, "\r\n"), "\n");
    match Cut(value, ':')
    case None => None
    case Some(parts) =>
      if parts.0 == "" || parts.1 == "" || '\r' in value || '\n' in value then None else Some(parts)
  }

  lemma {:induction false} CutJoins(s: string, c: char)
    requires Cut(s, c).Some?
    ensures s == Cut(s, c).value.0 + [c] + Cut(s, c).value.1 && c !in Cut(s, c).value.0
  {
    if s[0] == c {
    } else {
      CutJoins(s[1..], c);
    }
  }

  lemma TrimsSuffix(s: string, suffix: string)
    ensures TrimSuffix(s + suffix, suffix) == s
  {
    assert (s + suffix)[|s|..] == suffix && (s + suffix)[..|s|] == s;
  }

  lemma TrimSuffixSplits(s: string, suffix: string)
    ensures TrimSuffix(s, suffix) == s || s == TrimSuffix(s, suffix) + suffix
  {
  }

  lemma KeepsSuffix(s: string, suffix: string)
    requires s != [] && suffix != [] && s[|s| - 1] != suffix[|suffix| - 1]
    ensures TrimSuffix(s, suffix) == s
  {
    if |suffix| <= |s| { assert s[|s| - |suffix|..][|suffix| - 1] == s[|s| - 1]; }
  }

  predicate IsLine(username: string, password: string) {
    username != "" && password != "" && ':' !in username && '\r' !in username + password && '\n' !in username + password
  }

  /** What the two trims take off: LF, CRLF, both in that order, or nothing. */
  predicate IsEnding(ending: string) {
    ending == "" || ending == "\n" || ending == "\r\n" || ending == "\n\r\n"
  }

  lemma TrimsEnding(line: string, ending: string)
    requires line != [] && line[|line| - 1] != '\r' && line[|line| - 1] != '\n'
    requires IsEnding(ending)
    ensures TrimSuffix(TrimSuffix(line + ending, "\r\n"), "\n") == line
  {
    hide TrimSuffix;
    KeepsSuffix(line, "\n");
    KeepsSuffix(line, "\r\n");
    TrimsSuffix(line, "\n");
    TrimsSuffix(line, "\r\n");
    if ending == "" {
      assert line + ending == line;
    } else if ending == "\n" {
      assert TrimSuffix(line + "\n", "\r\n") == line + "\n" by { LfIsNoCrlf(line); }
    } else if ending == "\n\r\n" {
      TrimsSuffix(line + "\n", "\r\n");
      assert line + "\n" + "\r\n" == line + ending;
    }
  }

  lemma LfIsNoCrlf(line: string)
    requires line != [] && line[|line| - 1] != '\r'
    ensures TrimSuffix(line + "\n", "\r\n") == line + "\n"
  {
    var s := line + "\n";
    assert s[|s| - 2..][0] == line[|line| - 1];
  }

  /** A file is read exactly when it is one line user:password, both parts present,
      with an optional ending: LF, CRLF or, as the two trims allow, LF and CRLF. */
  lemma ReadsOneLine(data: string, username: string, password: string)
    ensures ReadCredentials(data) == Some((username, password)) <==>
      IsLine(username, password) && exists ending | IsEnding(ending) :: data == username + ":" + password + ending
  {
    var line := username + ":" + password;
    var value := TrimSuffix(TrimSuffix(data, "\r\n"), "\n");
    if ReadCredentials(data) == Some((username, password)) {
      CutJoins(value, ':');
      assert value == line;
      assert IsLine(username, password) by { CharsOfLine(username, password); }
      TrimSuffixSplits(data, "\r\n");
      TrimSuffixSplits(TrimSuffix(data, "\r\n"), "\n");
      assert line + "\n" + "\r\n" == line + "\n\r\n" && line + "" == line;
      assert data == line + "" || data == line + "\n" || data == line + "\r\n" || data == line + "\n\r\n";
      assert exists ending | IsEnding(ending) :: data == line + ending by {
        assert IsEnding("") && IsEnding("\n") && IsEnding("\r\n") && IsEnding("\n\r\n");
      }
    }
    if IsLine(username, password) && exists ending | IsEnding(ending) :: data == username + ":" + password + ending {
      var ending :| IsEnding(ending) && data == username + ":" + password + ending;
      CharsOfLine(username, password);
      assert line[|line| - 1] == password[|password| - 1] && password[|password| - 1] in line;
      TrimsEnding(line, ending);
      CutAtFirst(username, password, ':');
    }
  }

  lemma CharsOfLine(username: string, password: string)
    ensures forall c :: c in username + ":" + password <==> c in username || c in password || c == ':'
    ensures forall c :: c in username + password <==> c in username || c in password
  {
  }

  /** The representative of each character's orbit under Unicode simple folding. */
  type Folding = char -> char

  /** strings.EqualFold. */
  predicate EqualFold(fold: Folding, s: string, t: string) {
    |s| == |t| && forall i :: 0 <= i < |s| ==> fold(s[i]) == fold(t[i])
  }

  predicate IsGoSpace(c: char) {
    (IsSpace(c) && c != '\U{FEFF}') || c == '\U{85}'
  }

  /** strings.TrimSpace. */
  function TrimSpace(s: string): string {
    TrimBoth(s, IsGoSpace)
  }

  const MAX_ENCODED: nat := 1024

  /** The decoded credential of a Basic header, as far as the header is acceptable. */
  function HeaderCredential(fold: Folding, header: string): Result<seq<Byte>> {
    match Cut(header, ' ')
    case None => Err
    case Some(parts) =>
      if !EqualFold(fold, parts.0, "Basic") || |parts.1| > MAX_ENCODED then Err
      else StdDecoded(TrimSpace(parts.1))
  }

  /** A header is read exactly if it is the scheme Basic in any case, a space, and at most 1024
      characters of padded base64, white space around it aside. */
  lemma HeaderExactly(fold: Folding, header: string, credential: seq<Byte>)
    ensures HeaderCredential(fold, header) == Ok(credential) <==>
      exists scheme, encoded, before, core, after ::
        header == scheme + " " + encoded && ' ' !in scheme && EqualFold(fold, scheme, "Basic") &&
        |encoded| <= 1024 && Framed(encoded, before, core, after, IsGoSpace) && StdDecoded(core) == Ok(credential)
  {
    hide StdDecoded, EqualFold, IsGoSpace;
    if HeaderCredential(fold, header) == Ok(credential) {
      CutJoins(header, ' ');
      var (scheme, encoded) := Cut(header, ' ').value;
      assert header == scheme + " " + encoded;
      TrimExactly(encoded, TrimSpace(encoded), IsGoSpace);
      var before, after :| Framed(encoded, before, TrimSpace(encoded), after, IsGoSpace);
    }
    if scheme, encoded, before, core, after :|
      header == scheme + " " + encoded && ' ' !in scheme && EqualFold(fold, scheme, "Basic") &&
      |encoded| <= 1024 && Framed(encoded, before, core, after, IsGoSpace) && StdDecoded(core) == Ok(credential)
    {
      CutAtFirst(scheme, encoded, ' ');
      TrimExactly(encoded, core, IsGoSpace);
    }
  }

  /** `tag` is the keyed hash of this process, `expected` the tag of its credentials. */
  predicate Authorized<T(==)>(fold: Folding, header: string, tag: seq<Byte> -> T, expected: T) {
    HeaderCredential(fold, header).Ok? && tag(HeaderCredential(fold, header).value) == expected
  }

  /** What the browser sends for the connection's user and password. */
  function BasicHeader(username: string, password: string): string
    requires IsAscii(username + ":" + password)
  {
    "Basic " + StdEncoded(AsciiBytes(username + ":" + password))
  }

  lemma BasicCutsOff(fold: Folding, encoded: string)
    ensures Cut("Basic " + encoded, ' ') == Some(("Basic", encoded)) && EqualFold(fold, "Basic", "Basic")
  {
    CutAtFirst("Basic", encoded, ' ');
    assert "Basic" + [' '] + encoded == "Basic " + encoded;
  }

  lemma EncodedIsTrimmed(b: seq<Byte>)
    ensures TrimSpace(StdEncoded(b)) == StdEncoded(b)
  {
  }

  /** The header limit in bytes of the credential. */
  lemma EncodedFits(b: seq<Byte>)
    ensures |StdEncoded(b)| <= MAX_ENCODED <==> |b| <= 768
  {
    hide Letters, Sextets;
    StdRoundTrip(b);
  }

  /** The server reads back the very bytes, if their encoding fits the limit. */
  lemma HeaderRoundTrip(fold: Folding, username: string, password: string)
    requires IsAscii(username + ":" + password)
    ensures HeaderCredential(fold, BasicHeader(username, password)) ==
      if |username| + 1 + |password| <= 768 then Ok(AsciiBytes(username + ":" + password)) else Err
  {
    hide EqualFold, StdEncoded, StdDecoded, TrimSpace, Cut, Value;
    var b := AsciiBytes(username + ":" + password);
    BasicCutsOff(fold, StdEncoded(b));
    EncodedFits(b);
    EncodedIsTrimmed(b);
    StdRoundTrip(b);
  }

  lemma PrintableIsAscii(username: string, password: string)
    requires IsCredentials(username, password)
    ensures IsAscii(username + ":" + password) && IsLine(username, password)
  {
    CharsOfLine(username, password);
    var line := username + ":" + password;
    forall i | 0 <= i < |line| ensures line[i] as int < 128 { assert line[i] in line; }
  }

  /** A server that read the credentials file accepts the header of the connection the
      exported key carries exactly when user:password is at most 768 bytes long. */
  lemma ServerAcceptsExportedCredentials<T>(fold: Folding, username: string, password: string, ending: string,
                                            tag: seq<Byte> -> T)
    requires IsCredentials(username, password) && IsLineEnding(ending)
    ensures IsAscii(username + ":" + password)
    ensures ReadCredentials(CredentialsText(username, password, ending)) == Some((username, password))
    ensures HeaderCredential(fold, BasicHeader(username, password)).Ok? <==> |username| + 1 + |password| <= 768
    ensures HeaderCredential(fold, BasicHeader(username, password)).Ok? ==>
      tag(HeaderCredential(fold, BasicHeader(username, password)).value) == tag(AsciiBytes(username + ":" + password))
  {
    PrintableIsAscii(username, password);
    ReadsOneLine(CredentialsText(username, password, ending), username, password);
    HeaderRoundTrip(fold, username, password);
  }

  /** With a collision-free tag only the configured credentials are authorized. */
  lemma OnlyConfiguredCredentials<T(!new)>(fold: Folding, header: string, tag: seq<Byte> -> T,
                                           credentials: seq<Byte>)
    requires forall a, b :: tag(a) == tag(b) ==> a == b
    ensures HeaderCredential(fold, header).Ok? && tag(HeaderCredential(fold, header).value) == tag(credentials) <==>
      HeaderCredential(fold, header) == Ok(credentials)
  {
  }
}
