/** Hosts, exclusions and the PAC decision. */
module Routing {
  import opened Wrappers
  import opened Text
  import opened Browser

  const MAX_EXCLUSIONS: nat := 100

  predicate IsDigit(c: char) {
    '0' <= c <= '9'
  }

  predicate AllDigits(s: string) {
    forall i :: 0 <= i < |s| ==> IsDigit(s[i])
  }

  function DecimalValue(s: string): nat
    requires AllDigits(s)
  {
    if s == [] then 0 else 10 * DecimalValue(s[..|s| - 1]) + (s[|s| - 1] as int - '0' as int)
  }

  /** A decimal octet without leading zeros. */
  predicate IsOctet(s: string) {
    s != [] && AllDigits(s) && DecimalValue(s) <= 255 && (s[0] == '0' ==> |s| == 1)
  }

  predicate IsDottedQuad(parts: seq<string>) {
    |parts| == 4 && forall i :: 0 <= i < 4 ==> parts[i] != [] && AllDigits(parts[i])
  }

  predicate IsAlnum(c: char) {
    IsDigit(c) || 'a' <= c <= 'z'
  }

  predicate IsLabel(s: string) {
    1 <= |s| <= 63 && IsAlnum(s[0]) && IsAlnum(s[|s| - 1]) &&
    forall i :: 0 <= i < |s| ==> IsAlnum(s[i]) || s[i] == '-'
  }

  predicate IsValidHost(host: string) {
    3 <= |host| <= 253 && host == Trim(host) &&
    var value := Lower(host);
    var parts := Split(value, '.');
    if IsDottedQuad(parts) then forall i :: 0 <= i < 4 ==> IsOctet(parts[i])
    else
      !(forall i :: 0 <= i < |value| ==> IsDigit(value[i]) || value[i] == '.') &&
      '.' in value &&
      forall i :: 0 <= i < |parts| ==> IsLabel(parts[i])
  }

  predicate IsHostChar(c: char) {
    IsAlnum(c) || c == '-' || c == '.'
  }

  lemma {:induction false} CharsOfParts(s: string)
    requires forall i :: 0 <= i < |Split(s, '.')| ==>
      forall k :: 0 <= k < |Split(s, '.')[i]| ==> IsHostChar(Split(s, '.')[i][k])
    ensures forall i :: 0 <= i < |s| ==> IsHostChar(s[i])
  {
    if s == [] {
    } else {
      var rest := Split(s[1..], '.');
      if s[0] == '.' {
        assert forall i :: 0 <= i < |rest| ==> Split(s, '.')[i + 1] == rest[i];
      } else {
        assert forall i :: 1 <= i < |rest| ==> Split(s, '.')[i] == rest[i];
        assert forall k :: 0 <= k < |rest[0]| ==> Split(s, '.')[0][k + 1] == rest[0][k];
        assert Split(s, '.')[0][0] == s[0];
      }
      CharsOfParts(s[1..]);
    }
  }

  /** A valid host is made of lower-case host characters once lowered. */
  lemma ValidHostChars(host: string)
    requires IsValidHost(host)
    ensures forall i :: 0 <= i < |host| ==> IsHostChar(Lower(host)[i])
  {
    CharsOfParts(Lower(host));
  }

  /** Lowering keeps a host valid. */
  lemma LowerHostIsValid(host: string)
    requires IsValidHost(host)
    ensures IsValidHost(Lower(host))
  {
    LowerTwice(host);
    ValidHostChars(host);
    TrimStays(Lower(host));
  }

  /** Characters of the class [\s,;]. */
  predicate IsSeparator(c: char) {
    IsSpace(c) || c == ',' || c == ';'
  }

  function WordLength(s: string): (n: nat)
    ensures n <= |s|
    ensures forall i :: 0 <= i < n ==> !IsSeparator(s[i])
    ensures n < |s| ==> IsSeparator(s[n])
  {
    if s == [] || IsSeparator(s[0]) then 0 else 1 + WordLength(s[1..])
  }

  /** raw.split(/[\s,;]+/).filter(Boolean) */
  function Items(s: string): seq<string>
    decreases |s|
  {
    if s == [] then []
    else if IsSeparator(s[0]) then Items(s[1..])
    else [s[..WordLength(s)]] + Items(s[WordLength(s)..])
  }

  predicate StartsWith(s: string, prefix: string) {
    |prefix| <= |s| && s[..|prefix|] == prefix
  }

  function Domain(item: string): string {
    Lower(if StartsWith(item, "*.") then item[2..] else item)
  }

  function Added(result: seq<string>, domain: string): seq<string> {
    if domain in result then result else result + [domain]
  }

  /** The loop of normalizeExclusions over its remaining items. */
  function Collect(items: seq<string>, result: seq<string>): Result<seq<string>> {
    if items == [] then Ok(result)
    else
      var domain := Domain(items[0]);
      if !IsValidHost(domain) then Err
      else
        var next := Added(result, domain);
        if |next| > MAX_EXCLUSIONS then Err else Collect(items[1..], next)
  }

  function Normalized(raw: string): Result<seq<string>> {
    Collect(Items(raw), [])
  }

  method NormalizeExclusions(raw: string) returns (r: Result<seq<string>>)
    ensures r == Normalized(raw)
  {
    var items := Items(raw);
    var result: seq<string> := [];
    for k := 0 to |items|
      invariant Collect(items[k..], result) == Normalized(raw)
    {
      assert items[k..][1..] == items[k + 1..];
      var domain := Domain(items[k]);
      if !IsValidHost(domain) {
        return Err;
      }
      if domain !in result {
        result := result + [domain];
      }
      if |result| > MAX_EXCLUSIONS {
        return Err;
      }
    }
    return Ok(result);
  }

  predicate Distinct(xs: seq<string>) {
    forall i, j :: 0 <= i < j < |xs| ==> xs[i] != xs[j]
  }

  /** An accepted list: valid lower-case hosts, none twice, at most a hundred. */
  predicate Normal(xs: seq<string>) {
    |xs| <= MAX_EXCLUSIONS && Distinct(xs) && forall i :: 0 <= i < |xs| ==> IsValidHost(xs[i]) && Lower(xs[i]) == xs[i]
  }

  ghost predicate Named(items: seq<string>, x: string) {
    exists i :: 0 <= i < |items| && Domain(items[i]) == x
  }

  lemma {:induction false} CollectIsNormal(items: seq<string>, result: seq<string>)
    requires Normal(result) && Collect(items, result).Ok?
    ensures Normal(Collect(items, result).value)
    ensures forall x :: x in Collect(items, result).value <==> x in result || Named(items, x)
  {
    hide IsValidHost;
    if items == [] {
    } else {
      var domain := Domain(items[0]);
      LowerTwice(if StartsWith(items[0], "*.") then items[0][2..] else items[0]);
      var next := Added(result, domain);
      CollectIsNormal(items[1..], next);
      forall x: string ensures Named(items, x) <==> x == domain || Named(items[1..], x) {
        NamedTail(items, x);
      }
    }
  }

  lemma NamedTail(items: seq<string>, x: string)
    requires items != []
    ensures Named(items, x) <==> x == Domain(items[0]) || Named(items[1..], x)
  {
    if i :| 0 < i < |items| && Domain(items[i]) == x { assert items[1..][i - 1] == items[i]; }
  }

  /** An accepted text yields exactly the domains it names. */
  lemma NormalizedIsNormal(raw: string)
    requires Normalized(raw).Ok?
    ensures Normal(Normalized(raw).value)
    ensures forall x :: x in Normalized(raw).value <==> Named(Items(raw), x)
  {
    hide IsValidHost;
    CollectIsNormal(Items(raw), []);
  }

  function Domains(items: seq<string>): set<string> {
    set item | item in items :: Domain(item)
  }

  function Elements(xs: seq<string>): set<string> {
    set x | x in xs
  }

  lemma {:induction false} SizeOfElements(xs: seq<string>)
    requires Distinct(xs)
    ensures |Elements(xs)| == |xs|
  {
    if xs == [] {
    } else {
      var before, last := xs[..|xs| - 1], xs[|xs| - 1];
      SizeOfElements(before);
      assert xs == before + [last];
      assert Elements(xs) == Elements(before) + {last} && last !in Elements(before);
    }
  }

  lemma SubsetSize(a: set<string>, b: set<string>)
    requires a <= b
    ensures |a| <= |b|
  {
    assert b == a + (b - a);
  }

  lemma AddedElements(items: seq<string>, result: seq<string>)
    requires items != [] && Distinct(result)
    ensures var next := Added(result, Domain(items[0]));
      Distinct(next) && Domains(items) + Elements(result) == Domains(items[1..]) + Elements(next)
    ensures forall x :: x in Domains(items) <==> x == Domain(items[0]) || x in Domains(items[1..])
  {
    hide Domain;
    assert items == [items[0]] + items[1..];
    var domain := Domain(items[0]);
    assert Elements(Added(result, domain)) == Elements(result) + {domain};
    assert Domains(items) == {domain} + Domains(items[1..]);
  }

  lemma {:induction false} CollectExactly(items: seq<string>, result: seq<string>)
    requires Distinct(result) && |result| <= MAX_EXCLUSIONS
    ensures Collect(items, result).Ok? <==>
      (forall x :: x in Domains(items) ==> IsValidHost(x)) && |Domains(items) + Elements(result)| <= MAX_EXCLUSIONS
  {
    hide IsValidHost, Domain;
    SizeOfElements(result);
    if items == [] {
      assert Domains(items) + Elements(result) == Elements(result);
    } else {
      var next := Added(result, Domain(items[0]));
      AddedElements(items, result);
      SizeOfElements(next);
      if |next| > MAX_EXCLUSIONS {
        SubsetSize(Elements(next), Domains(items[1..]) + Elements(next));
      } else {
        hide Domains, Elements, Distinct;
        CollectExactly(items[1..], next);
      }
    }
  }

  /** A text is accepted exactly when every domain it names is a valid host and it names
      at most a hundred different ones. */
  lemma AcceptsExactly(raw: string)
    ensures Normalized(raw).Ok? <==>
      (forall x :: x in Domains(Items(raw)) ==> IsValidHost(x)) && |Domains(Items(raw))| <= 100
  {
    hide IsValidHost, Items;
    CollectExactly(Items(raw), []);
    assert Domains(Items(raw)) + Elements([]) == Domains(Items(raw));
  }

  lemma HostCharsAreNoSeparators(c: char)
    requires IsHostChar(c)
    ensures !IsSeparator(c) && c != '*'
  {
  }

  lemma HostWordStays(x: string)
    requires x != [] && Lower(x) == x && forall i :: 0 <= i < |x| ==> IsHostChar(x[i])
    ensures Domain(x) == x && forall i :: 0 <= i < |x| ==> !IsSeparator(x[i])
  {
    hide Lower, IsSeparator, IsHostChar;
    forall i | 0 <= i < |x| ensures !IsSeparator(x[i]) && x[i] != '*' {
      HostCharsAreNoSeparators(x[i]);
    }
    assert !StartsWith(x, "*.") by {
      if |x| >= 2 { assert x[..2][0] == x[0]; }
    }
  }

  lemma ValidDomainStays(x: string)
    requires IsValidHost(x) && Lower(x) == x
    ensures x != [] && Domain(x) == x && forall i :: 0 <= i < |x| ==> !IsSeparator(x[i])
  {
    ValidHostChars(x);
    assert x != [];
    hide IsValidHost, Lower;
    HostWordStays(x);
  }

  lemma {:induction false} ItemsOfWord(x: string, rest: string)
    requires x != [] && forall i :: 0 <= i < |x| ==> !IsSeparator(x[i])
    requires rest == [] || IsSeparator(rest[0])
    ensures Items(x + rest) == [x] + Items(rest)
  {
    var s := x + rest;
    assert WordLength(s) == |x|;
    assert s[..|x|] == x && s[|x|..] == rest;
  }

  lemma ItemsAfterSeparator(c: char, t: string)
    requires IsSeparator(c)
    ensures Items([c] + t) == Items(t)
  {
    assert ([c] + t)[1..] == t;
  }

  predicate Word(x: string) {
    x != [] && forall k :: 0 <= k < |x| ==> !IsSeparator(x[k])
  }

  lemma {:induction false} ItemsOfJoin(xs: seq<string>)
    requires forall i :: 0 <= i < |xs| ==> Word(xs[i])
    ensures Items(Join(xs, "\n")) == xs
  {
    if xs == [] {
    } else if |xs| == 1 {
      ItemsOfWord(xs[0], "");
      assert xs[0] + "" == xs[0];
      assert xs == [xs[0]];
    } else {
      var rest := "\n" + Join(xs[1..], "\n");
      ItemsOfWord(xs[0], rest);
      ItemsAfterSeparator('\n', Join(xs[1..], "\n"));
      hide Items, Word, IsSeparator;
      assert xs[0] + rest == Join(xs, "\n");
      ItemsOfJoin(xs[1..]);
      assert [xs[0]] + xs[1..] == xs;
    }
  }

  lemma {:induction false} CollectKeeps(xs: seq<string>, k: nat)
    requires Normal(xs) && k <= |xs|
    ensures Collect(xs[k..], xs[..k]) == Ok(xs)
    decreases |xs| - k
  {
    hide IsValidHost, Domain;
    if k < |xs| {
      ValidDomainStays(xs[k]);
      assert xs[..k] + [xs[k]] == xs[..k + 1];
      assert xs[k..][1..] == xs[k + 1..];
      CollectKeeps(xs, k + 1);
    } else {
      assert xs[..k] == xs;
    }
  }

  /** Normalising the joined result again changes nothing. */
  lemma NormalizingTwice(xs: seq<string>)
    requires Normal(xs)
    ensures Normalized(Join(xs, "\n")) == Ok(xs)
  {
    forall i | 0 <= i < |xs| ensures Word(xs[i]) {
      ValidDomainStays(xs[i]);
    }
    ItemsOfJoin(xs);
    CollectKeeps(xs, 0);
  }

  /** The items are the words between separators, and an item names its domain in lower case
      without one leading wildcard. */
  lemma ReadsItems(word: string, separator: char, rest: string)
    requires word != [] && forall k :: 0 <= k < |word| ==> word[k] !in " \t\r\n,;" && word[k] as int < 128
    requires forall k :: 0 <= k < |word| ==> word[k] >= ' '
    requires separator in " \t\r\n,;"
    ensures Items("") == [] && Items([separator] + rest) == Items(rest)
    ensures Items(word) == [word] && Items(word + [separator] + rest) == [word] + Items(rest)
    ensures Domain("*." + word) == Lower(word)
    ensures !("*." <= word) ==> Domain(word) == Lower(word)
  {
    ItemsAfterSeparator(separator, rest);
    ItemsOfWord(word, "");
    assert word + "" == word;
    ItemsOfWord(word, [separator] + rest);
    assert word + [separator] + rest == word + ([separator] + rest);
    assert ("*." + word)[2..] == word && ("*." + word)[..2] == "*.";
    hide Items, IsSeparator, Lower;
  }

  function WithoutLastDot(s: string): string {
    if s != [] && s[|s| - 1] == '.' then s[..|s| - 1] else s
  }

  predicate Excludes(domain: string, host: string) {
    host == domain || EndsWith(host, "." + domain)
  }

  predicate IsExcludedHost(host: string, exclusions: seq<string>) {
    exists i :: 0 <= i < |exclusions| && Excludes(exclusions[i], WithoutLastDot(Lower(host)))
  }

  datatype Route = Direct | Https(host: string, port: int)

  /** The function of the generated script. */
  method FindProxyForURL(pac: Pac, host: string) returns (r: Route)
    ensures r == if IsExcludedHost(host, pac.exclusions) then Direct else Https(pac.host, pac.port)
  {
    var h := WithoutLastDot(Lower(host));
    for i := 0 to |pac.exclusions|
      invariant forall k :: 0 <= k < i ==> !Excludes(pac.exclusions[k], h)
    {
      var d := pac.exclusions[i];
      SliceIsEndsWith(h, "." + d);
      if h == d || LastChars(h, |d| + 1) == "." + d {
        return Direct;
      }
    }
    return Https(pac.host, pac.port);
  }

  lemma SliceIsEndsWith(s: string, t: string)
    ensures LastChars(s, |t|) == t <==> EndsWith(s, t)
  {
    if |t| >= |s| { assert s == s[|s| - |s|..]; }
  }

  /** A host goes direct exactly when its labels end in those of an exclusion. */
  lemma ExcludedByLabels(host: string, exclusions: seq<string>)
    ensures IsExcludedHost(host, exclusions) <==>
      exists i :: 0 <= i < |exclusions| &&
        LabelSuffix(Split(exclusions[i], '.'), Split(WithoutLastDot(Lower(host)), '.'))
  {
    forall i | 0 <= i < |exclusions|
      ensures Excludes(exclusions[i], WithoutLastDot(Lower(host))) <==>
        LabelSuffix(Split(exclusions[i], '.'), Split(WithoutLastDot(Lower(host)), '.'))
    {
      SuffixByLabels(WithoutLastDot(Lower(host)), exclusions[i]);
    }
  }

  lemma LowerKeepsDots()
    ensures forall c :: LowerChar(c) == '.' <==> c == '.'
  {
  }

  lemma LowerDot(host: string)
    requires host == [] || host[|host| - 1] != '.'
    ensures WithoutLastDot(Lower(host + ".")) == Lower(host) && WithoutLastDot(Lower(host)) == Lower(host)
  {
    LowerKeepsDots();
    hide Lower, LowerChar;
    assert Lower(host + ".") == Lower(host) + ".";
  }

  /** A host is routed alike however it is spelt: in upper case, or with its root dot. */
  lemma SpellingsAgree(host: string, exclusions: seq<string>)
    requires host == [] || host[|host| - 1] != '.'
    ensures IsExcludedHost(host + ".", exclusions) <==> IsExcludedHost(host, exclusions)
    ensures IsExcludedHost(Lower(host), exclusions) <==> IsExcludedHost(host, exclusions)
  {
    LowerTwice(host);
    LowerDot(host);
    hide Lower, WithoutLastDot, Excludes;
  }
}
