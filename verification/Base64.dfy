/** Base64 of section 4 and base64url of section 5 of RFC 4648. */
module Base64 {
  import opened Wrappers
  import opened Text

  type Byte = b: int | 0 <= b < 256

  type Sextet = n: int | 0 <= n < 64

  /** The six-bit groups of the input, the last one filled with zero bits. */
  function Sextets(b: seq<Byte>): (r: seq<Sextet>)
    ensures 3 * |r| == 4 * |b| + (if |b| % 3 == 1 then 2 else if |b| % 3 == 2 then 1 else 0)
  {
    if b == [] then []
    else if |b| == 1 then [b[0] / 4, b[0] % 4 * 16]
    else if |b| == 2 then [b[0] / 4, b[0] % 4 * 16 + b[1] / 16, b[1] % 16 * 4]
    else
      assert |b[3..]| % 3 == |b| % 3;
      [b[0] / 4, b[0] % 4 * 16 + b[1] / 16, b[1] % 16 * 4 + b[2] / 64, b[2] % 64] + Sextets(b[3..])
  }

  function FirstByte(a: Sextet, b: Sextet): Byte {
    (a as int) * 4 + (b as int) / 16
  }

  function SecondByte(b: Sextet, c: Sextet): Byte {
    (b as int) % 16 * 16 + (c as int) / 4
  }

  function ThirdByte(c: Sextet, d: Sextet): Byte {
    (c as int) % 4 * 64 + (d as int)
  }

  /** The forgiving decoder: bits that fill no byte are dropped, one lone group is an error. */
  function Bytes(s: seq<Sextet>): Result<seq<Byte>> {
    if s == [] then Ok([])
    else if |s| == 1 then Err
    else if |s| == 2 then Ok([FirstByte(s[0], s[1])])
    else if |s| == 3 then Ok([FirstByte(s[0], s[1]), SecondByte(s[1], s[2])])
    else
      match Bytes(s[4..])
      case Err => Err
      case Ok(rest) => Ok([FirstByte(s[0], s[1]), SecondByte(s[1], s[2]), ThirdByte(s[2], s[3])] + rest)
  }

  lemma GroupsOfThree(a: Byte, b: Byte, c: Byte)
    ensures FirstByte(a / 4, a % 4 * 16 + b / 16) == a
    ensures SecondByte(a % 4 * 16 + b / 16, b % 16 * 4 + c / 64) == b
    ensures ThirdByte(b % 16 * 4 + c / 64, c % 64) == c
  {
  }

  lemma {:induction false} BytesOfSextets(b: seq<Byte>)
    ensures Bytes(Sextets(b)) == Ok(b)
  {
    hide FirstByte, SecondByte, ThirdByte;
    if |b| == 1 {
      GroupsOfThree(b[0], 0, 0);
      assert Sextets(b)[1] == b[0] % 4 * 16 + 0 / 16;
      assert b == [b[0]];
    } else if |b| == 2 {
      GroupsOfThree(b[0], b[1], 0);
      assert Sextets(b)[2] == b[1] % 16 * 4 + 0 / 64;
      assert b == [b[0], b[1]];
    } else if |b| >= 3 {
      assert Sextets(b)[4..] == Sextets(b[3..]);
      BytesOfSextets(b[3..]);
      GroupsOfThree(b[0], b[1], b[2]);
      assert [b[0], b[1], b[2]] + b[3..] == b;
    }
  }

  function Letter(n: Sextet, url: bool): char {
    if n < 26 then ('A' as int + n) as char
    else if n < 52 then ('a' as int + n - 26) as char
    else if n < 62 then ('0' as int + n - 52) as char
    else if n == 62 then if url then '-' else '+'
    else if url then '_' else '/'
  }

  function Value(c: char, url: bool): Option<Sextet> {
    if 'A' <= c <= 'Z' then Some(c as int - 'A' as int)
    else if 'a' <= c <= 'z' then Some(c as int - 'a' as int + 26)
    else if '0' <= c <= '9' then Some(c as int - '0' as int + 52)
    else if c == (if url then '-' else '+') then Some(62)
    else if c == (if url then '_' else '/') then Some(63)
    else None
  }

  function Letters(s: seq<Sextet>, url: bool): (r: string)
    ensures |r| == |s|
    ensures forall i :: 0 <= i < |s| ==> r[i] == Letter(s[i], url)
  {
    if s == [] then "" else [Letter(s[0], url)] + Letters(s[1..], url)
  }

  function Values(t: string, url: bool): Result<seq<Sextet>> {
    if t == [] then Ok([])
    else
      match Values(t[1..], url)
      case Err => Err
      case Ok(rest) => if Value(t[0], url).Some? then Ok([Value(t[0], url).value] + rest) else Err
  }

  lemma {:induction false} ValuesOfLetters(s: seq<Sextet>, url: bool)
    ensures Values(Letters(s, url), url) == Ok(s)
  {
    if s == [] {
    } else {
      ValuesOfLetters(s[1..], url);
      assert Letters(s, url)[1..] == Letters(s[1..], url);
      assert [s[0]] + s[1..] == s;
    }
  }

  /** Unpadded base64url, as the key uses it. */
  function UrlEncoded(b: seq<Byte>): string {
    Letters(Sextets(b), true)
  }

  function UrlDecoded(t: string): Result<seq<Byte>> {
    match Values(t, true)
    case Err => Err
    case Ok(s) => Bytes(s)
  }

  lemma UrlRoundTrip(b: seq<Byte>)
    ensures UrlDecoded(UrlEncoded(b)) == Ok(b)
    ensures 3 * |UrlEncoded(b)| == 4 * |b| + (if |b| % 3 == 1 then 2 else if |b| % 3 == 2 then 1 else 0)
    ensures forall i :: 0 <= i < |UrlEncoded(b)| ==> Value(UrlEncoded(b)[i], true).Some?
  {
    BytesOfSextets(b);
    ValuesOfLetters(Sextets(b), true);
  }

  function Padding(n: nat): string {
    if n % 3 == 1 then "==" else if n % 3 == 2 then "=" else ""
  }

  /** Padded standard base64, as a Basic credential uses it. */
  function StdEncoded(b: seq<Byte>): string {
    Letters(Sextets(b), false) + Padding(|b|)
  }

  function WithoutLineBreaks(t: string): string {
    if t == [] then "" else (if t[0] == '\n' || t[0] == '\r' then "" else [t[0]]) + WithoutLineBreaks(t[1..])
  }

  /** The letters before at most two final '=' signs of a text of whole quartets. */
  function Unpadded(t: string): Result<string> {
    if |t| % 4 != 0 then Err
    else if |t| >= 4 && t[|t| - 2..] == "==" then Ok(t[..|t| - 2])
    else if |t| >= 4 && t[|t| - 1..] == "=" then Ok(t[..|t| - 1])
    else Ok(t)
  }

  /** base64.StdEncoding.DecodeString. */
  function StdDecoded(t: string): Result<seq<Byte>> {
    match Unpadded(WithoutLineBreaks(t))
    case Err => Err
    case Ok(letters) =>
      match Values(letters, false)
      case Err => Err
      case Ok(s) => Bytes(s)
  }

  lemma {:induction false} NoLineBreaks(t: string)
    requires forall i :: 0 <= i < |t| ==> t[i] != '\n' && t[i] != '\r'
    ensures WithoutLineBreaks(t) == t
  {
    if t == [] {
    } else {
      NoLineBreaks(t[1..]);
      assert [t[0]] + t[1..] == t;
    }
  }

  lemma LettersArePlain(s: seq<Sextet>, url: bool)
    ensures forall i :: 0 <= i < |s| ==>
      Letters(s, url)[i] != '=' && Letters(s, url)[i] != '\n' && Letters(s, url)[i] != '\r'
  {
  }

  lemma PaddingComesOff(letters: string, n: nat)
    requires 3 * |letters| == 4 * n + (if n % 3 == 1 then 2 else if n % 3 == 2 then 1 else 0)
    requires forall i :: 0 <= i < |letters| ==> letters[i] != '='
    ensures Unpadded(letters + Padding(n)) == Ok(letters)
  {
    var t := letters + Padding(n);
    assert Padding(n) == "" ==> t == letters;
    if letters != [] {
      assert t[|letters| - 1] == letters[|letters| - 1];
      assert |t| >= 4 && |t| % 4 == 0;
      if n % 3 == 1 {
        assert t[|t| - 2..] == "==";
      } else {
        assert t[|t| - 2..][if n % 3 == 2 then 0 else 1] != '=';
        if n % 3 == 2 { assert t[|t| - 1..] == "="; } else { assert t[|t| - 1..][0] != '='; }
      }
    }
  }

  lemma StdRoundTrip(b: seq<Byte>)
    ensures StdDecoded(StdEncoded(b)) == Ok(b)
    ensures 3 * |StdEncoded(b)| == 4 * |b| + (if |b| % 3 == 1 then 8 else if |b| % 3 == 2 then 4 else 0)
  {
    hide Letter;
    LettersArePlain(Sextets(b), false);
    NoLineBreaks(StdEncoded(b));
    PaddingComesOff(Letters(Sextets(b), false), |b|);
    BytesOfSextets(b);
    ValuesOfLetters(Sextets(b), false);
  }

  // The encoding apart from its formulas.

  /** The bytes of one group as a number, most significant first. */
  function ByteValue(b: seq<Byte>): nat
    requires 1 <= |b| <= 3
  {
    var x := b[0] as nat;
    if |b| == 1 then x else if |b| == 2 then x * 256 + b[1] as nat else (x * 256 + b[1] as nat) * 256 + b[2] as nat
  }

  function SextetValue(s: seq<Sextet>): nat
    requires 2 <= |s| <= 4
  {
    var x := (s[0] as nat) * 64 + s[1] as nat;
    if |s| == 2 then x else if |s| == 3 then x * 64 + s[2] as nat else (x * 64 + s[2] as nat) * 64 + s[3] as nat
  }

  predicate SameGroup(b: seq<Byte>, s: seq<Sextet>) {
    1 <= |b| <= 3 && |s| == |b| + 1 &&
    SextetValue(s) == ByteValue(b) * (if |b| == 3 then 1 else if |b| == 2 then 4 else 16)
  }

  lemma FirstGroup(b: seq<Byte>)
    ensures |b| >= 3 ==> |Sextets(b)| >= 4 && SameGroup(b[..3], Sextets(b)[..4])
    ensures |b| >= 3 ==> Sextets(b)[4..] == Sextets(b[3..])
    ensures 1 <= |b| <= 2 ==> SameGroup(b, Sextets(b))
  {
    if |b| >= 3 {
      assert Sextets(b)[..4] == [b[0] / 4, b[0] % 4 * 16 + b[1] / 16, b[1] % 16 * 4 + b[2] / 64, b[2] % 64];
    }
  }

  lemma Shifted<T>(s: seq<T>, d: nat, i: nat, j: nat)
    requires i <= j && d + j <= |s|
    ensures s[d..][i..j] == s[d + i..d + j]
  {
  }

  /** The six-bit groups are the bits of the bytes in order: three bytes are the number that their
      four groups are, the one or two at the end are it up to four or two zero bits. */
  lemma {:induction false} SameBits(b: seq<Byte>, k: nat)
    requires 3 * k < |b|
    ensures var s := Sextets(b);
      if 3 * k + 3 <= |b| then 4 * k + 4 <= |s| && SameGroup(b[3 * k..3 * k + 3], s[4 * k..4 * k + 4])
      else 4 * k <= |s| && SameGroup(b[3 * k..], s[4 * k..])
    decreases k
  {
    FirstGroup(b);
    hide SameGroup, Sextets;
    if k == 0 {
      assert b[0..] == b && Sextets(b)[0..] == Sextets(b);
    } else {
      SameBits(b[3..], k - 1);
      if 3 * k + 3 <= |b| {
        Shifted(b, 3, 3 * (k - 1), 3 * k);
        Shifted(Sextets(b), 4, 4 * (k - 1), 4 * k);
      } else {
        Shifted(b, 3, 3 * (k - 1), |b| - 3);
        Shifted(Sextets(b), 4, 4 * (k - 1), |Sextets(b)| - 4);
      }
    }
  }

  /** The alphabets of tables 1 and 2 of RFC 4648. */
  lemma AlphabetsAreStandard(n: Sextet)
    ensures Letter(n, false) == (UPPER_LETTERS + LOWER_LETTERS + "0123456789" + "+/")[n]
    ensures Letter(n, true) == (UPPER_LETTERS + LOWER_LETTERS + "0123456789" + "-_")[n]
  {
    LettersInOrder(n);
  }
}
