/** Hop-by-hop headers (RFC 9110, section 7.6.1): what is taken out of a forwarded request. */
module Headers {
  import opened Wrappers
  import opened Text
  import opened ProxyAuth

  /** Header fields by canonical name, each with its values in order. */
  type Fields = map<string, seq<string>>

  predicate IsTokenChar(c: char) {
    'a' <= c <= 'z' || 'A' <= c <= 'Z' || '0' <= c <= '9' || c in "!#$%&'*+-.^_`|~"
  }

  predicate IsToken(s: string) {
    s != "" && forall i :: 0 <= i < |s| ==> IsTokenChar(s[i])
  }

  function AsciiUpper(c: char): char {
    if 'a' <= c <= 'z' then (c as int - 32) as char else c
  }

  function AsciiLower(c: char): char {
    if 'A' <= c <= 'Z' then (c as int + 32) as char else c
  }

  function Capitalized(s: string, upper: bool): (r: string)
    ensures |r| == |s|
  {
    if s == "" then ""
    else
      var c := if upper then AsciiUpper(s[0]) else AsciiLower(s[0]);
      [c] + Capitalized(s[1..], c == '-')
  }

  /** http.CanonicalHeaderKey. */
  function Canonical(name: string): string {
    if IsToken(name) then Capitalized(name, true) else name
  }

  /** Equal up to the case of ASCII letters. */
  predicate SameName(a: string, b: string) {
    |a| == |b| && forall i :: 0 <= i < |a| ==> AsciiLower(a[i]) == AsciiLower(b[i])
  }

  lemma {:induction false} CapitalizedByCase(a: string, b: string, upper: bool)
    requires |a| == |b|
    ensures Capitalized(a, upper) == Capitalized(b, upper) <==> SameName(a, b)
  {
    if a == "" {
    } else {
      var x := if upper then AsciiUpper(a[0]) else AsciiLower(a[0]);
      var y := if upper then AsciiUpper(b[0]) else AsciiLower(b[0]);
      assert x == y <==> AsciiLower(a[0]) == AsciiLower(b[0]);
      CapitalizedByCase(a[1..], b[1..], x == '-');
      var ra, rb := Capitalized(a[1..], x == '-'), Capitalized(b[1..], y == '-');
      assert ([x] + ra)[0] == x && ([x] + ra)[1..] == ra && ([y] + rb)[0] == y && ([y] + rb)[1..] == rb;
      assert SameName(a, b) <==> AsciiLower(a[0]) == AsciiLower(b[0]) && SameName(a[1..], b[1..]) by {
        assert forall i :: 0 < i < |a| ==> a[i] == a[1..][i - 1] && b[i] == b[1..][i - 1];
      }
    }
  }

  lemma TokensByCase(a: string, b: string)
    requires SameName(a, b)
    ensures IsToken(a) <==> IsToken(b)
  {
    assert forall i :: 0 <= i < |a| ==> IsTokenChar(a[i]) == IsTokenChar(b[i]) by {
      assert forall c, d :: AsciiLower(c) == AsciiLower(d) ==> IsTokenChar(c) == IsTokenChar(d);
    }
  }

  lemma {:induction false} CapitalizedIsToken(s: string, upper: bool)
    ensures SameName(Capitalized(s, upper), s)
  {
    if s == "" {
    } else {
      var c := if upper then AsciiUpper(s[0]) else AsciiLower(s[0]);
      CapitalizedIsToken(s[1..], c == '-');
      assert forall i :: 0 < i < |s| ==> s[i] == s[1..][i - 1];
    }
  }

  /** A canonical token is the canonical form of exactly the names equal to it up to case. */
  lemma CanonicalByCase(key: string, name: string)
    requires IsToken(key) && Canonical(key) == key
    ensures Canonical(name) == key <==> SameName(key, name)
  {
    if SameName(key, name) {
      TokensByCase(key, name);
      CapitalizedByCase(key, name, true);
    }
    if Canonical(name) == key {
      if IsToken(name) { CapitalizedIsToken(name, true); }
    }
  }

  function Values(h: Fields, name: string): seq<string> {
    if Canonical(name) in h then h[Canonical(name)] else []
  }

  function Get(h: Fields, name: string): string {
    if Values(h, name) == [] then "" else Values(h, name)[0]
  }

  /** The comma-separated members of a list of values. */
  ghost predicate Lists(values: seq<string>, token: string) {
    exists v, f :: v in values && f in Split(v, ',') && token == TrimSpace(f)
  }

  const FIXED := ["Connection", "Proxy-Connection", "Proxy-Authorization", "Proxy-Authenticate", "Keep-Alive", "TE",
                  "Trailer", "Transfer-Encoding", "Upgrade"]

  function PartKeys(parts: seq<string>): set<string> {
    set f | f in parts :: Canonical(TrimSpace(f))
  }

  function NamedKeys(values: seq<string>): set<string> {
    set v, f | v in values && f in Split(v, ',') :: Canonical(TrimSpace(f))
  }

  function FixedKeys(names: seq<string>): set<string> {
    set name | name in names :: Canonical(name)
  }

  function HopKeys(h: Fields): set<string> {
    NamedKeys(Values(h, "Connection")) + FixedKeys(FIXED)
  }

  predicate HasToken(fold: Folding, values: seq<string>, token: string) {
    exists v, f :: v in values && f in Split(v, ',') && EqualFold(fold, TrimSpace(f), token)
  }

  predicate WantsUpgrade(fold: Folding, h: Fields) {
    Get(h, "Upgrade") != "" && HasToken(fold, Values(h, "Connection"), "Upgrade")
  }

  function Forwarded(fold: Folding, h: Fields): Fields {
    var kept := h - HopKeys(h);
    if WantsUpgrade(fold, h) then kept["Connection" := ["Upgrade"]]["Upgrade" := [Get(h, "Upgrade")]] else kept
  }

  class Header {
    const fold: Folding
    var fields: Fields

    constructor (fold: Folding, fields: Fields)
      ensures this.fold == fold && this.fields == fields
    {
      this.fold, this.fields := fold, fields;
    }

    method Del(name: string)
      modifies this
      ensures fields == old(fields) - {Canonical(name)}
    {
      fields := fields - {Canonical(name)};
    }

    method Set(name: string, value: string)
      modifies this
      ensures fields == old(fields)[Canonical(name) := [value]]
    {
      fields := fields[Canonical(name) := [value]];
    }

    method HeaderHasToken(name: string, token: string) returns (r: bool)
      ensures r == HasToken(fold, Values(fields, name), token)
    {
      var values := Values(fields, name);
      for i := 0 to |values|
        invariant forall k, f :: 0 <= k < i && f in Split(values[k], ',') ==> !EqualFold(fold, TrimSpace(f), token)
      {
        var parts := Split(values[i], ',');
        for j := 0 to |parts|
          invariant forall l :: 0 <= l < j ==> !EqualFold(fold, TrimSpace(parts[l]), token)
        {
          if EqualFold(fold, TrimSpace(parts[j]), token) { return true; }
        }
      }
      return false;
    }

    /** The inner loop over one Connection value. */
    method DelListed(value: string)
      modifies this
      ensures fields == old(fields) - PartKeys(Split(value, ','))
    {
      hide Canonical, TrimSpace;
      var parts := Split(value, ',');
      for j := 0 to |parts|
        invariant fields == old(fields) - PartKeys(parts[..j])
      {
        Del(TrimSpace(parts[j]));
        assert parts[..j + 1] == parts[..j] + [parts[j]];
      }
      assert parts[..|parts|] == parts;
    }

    /** The loop over the fixed names. */
    method DelFixed()
      modifies this
      ensures fields == old(fields) - FixedKeys(FIXED)
    {
      hide Canonical;
      for i := 0 to |FIXED|
        invariant fields == old(fields) - FixedKeys(FIXED[..i])
      {
        Del(FIXED[i]);
        assert FIXED[..i + 1] == FIXED[..i] + [FIXED[i]];
      }
      assert FIXED[..|FIXED|] == FIXED;
    }

    method RemoveHopHeaders()
      modifies this
      ensures fields == old(fields) - HopKeys(old(fields))
    {
      var values := Values(fields, "Connection");
      hide Canonical, NamedKeys, PartKeys, FixedKeys;
      NamedKeysStart(values);
      for i := 0 to |values|
        invariant fields == old(fields) - NamedKeys(values[..i])
      {
        DelListed(values[i]);
        NamedKeysGrow(values, i);
      }
      assert values[..|values|] == values;
      DelFixed();
    }

    /** The headers of the request sent upstream. */
    method Forward()
      modifies this
      ensures fields == Forwarded(fold, old(fields))
    {
      var upgrade := Get(fields, "Upgrade");
      var listed := HeaderHasToken("Connection", "Upgrade");
      var wantsUpgrade := upgrade != "" && listed;
      RemoveHopHeaders();
      if wantsUpgrade {
        UpgradeIsCanonical();
        Set("Connection", "Upgrade");
        Set("Upgrade", upgrade);
      }
    }
  }

  lemma NamedKeysGrow(values: seq<string>, i: nat)
    requires i < |values|
    ensures NamedKeys(values[..i + 1]) == NamedKeys(values[..i]) + PartKeys(Split(values[i], ','))
  {
    hide Canonical, TrimSpace;
    assert values[..i + 1] == values[..i] + [values[i]];
  }

  lemma NamedKeysStart(values: seq<string>)
    ensures NamedKeys(values[..0]) == {}
  {
  }

  lemma {:induction false} LowerStays(s: string)
    requires forall i :: 0 <= i < |s| ==> 'a' <= s[i] <= 'z'
    ensures Capitalized(s, false) == s
  {
    if s == "" {
    } else {
      LowerStays(s[1..]);
    }
  }

  lemma WordIsCanonical(s: string)
    requires s != "" && 'A' <= s[0] <= 'Z' && forall i :: 1 <= i < |s| ==> 'a' <= s[i] <= 'z'
    ensures Canonical(s) == s
  {
    LowerStays(s[1..]);
  }

  lemma UpgradeIsCanonical()
    ensures Canonical("Connection") == "Connection" && Canonical("Upgrade") == "Upgrade"
  {
    hide Canonical;
    WordIsCanonical("Connection");
    WordIsCanonical("Upgrade");
  }

  /** A field is hop-by-hop if its name is one of the fixed ones or a member of Connection. */
  ghost predicate IsHop(h: Fields, key: string) {
    exists name :: (name in FIXED || Lists(Values(h, "Connection"), name)) && SameName(key, name)
  }

  lemma HopKeysByName(h: Fields, key: string)
    requires IsToken(key) && Canonical(key) == key
    ensures key in HopKeys(h) <==> IsHop(h, key)
  {
    hide IsToken, TrimSpace;
    var values := Values(h, "Connection");
    hide Values;
    forall name ensures Canonical(name) == key <==> SameName(key, name) { CanonicalByCase(key, name); }
    hide Canonical, SameName;
  }

  /** The forwarded headers are the received ones without exactly the hop-by-hop fields, all
      other values unchanged and in order; only an upgrade the client asked for in both
      fields comes back. */
  lemma ForwardsExactly(fold: Folding, h: Fields, key: string)
    requires IsToken(key) && Canonical(key) == key
    ensures !IsHop(h, key) ==>
      (key in Forwarded(fold, h) <==> key in h) && (key in h ==> Forwarded(fold, h)[key] == h[key])
    ensures IsHop(h, key) && key in Forwarded(fold, h) ==>
      WantsUpgrade(fold, h) && (key == "Connection" || key == "Upgrade")
    ensures "Connection" in Forwarded(fold, h) <==> WantsUpgrade(fold, h)
    ensures "Upgrade" in Forwarded(fold, h) <==> WantsUpgrade(fold, h)
    ensures WantsUpgrade(fold, h) ==>
      Forwarded(fold, h)["Connection"] == ["Upgrade"] && Forwarded(fold, h)["Upgrade"] == [Get(h, "Upgrade")]
  {
    HopKeysByName(h, key);
    UpgradeIsCanonical();
    assert "Connection" in FixedKeys(FIXED) && "Upgrade" in FixedKeys(FIXED);
    assert SameName("Connection", "Connection") && SameName("Upgrade", "Upgrade");
    assert "Connection" in FIXED && "Upgrade" in FIXED;
    hide WantsUpgrade, HopKeys, IsToken, Canonical;
  }

  /** The names that no proxy forwards. */
  predicate IsHopName(name: string) {
    name in ["Connection", "Proxy-Connection", "Proxy-Authorization", "Proxy-Authenticate", "Keep-Alive", "TE",
             "Trailer", "Transfer-Encoding", "Upgrade"]
  }

  /** Whatever its case, such a field is not forwarded, the credentials of the proxy least of all;
      Connection and Upgrade come back for an upgrade alone. */
  lemma NeverForwarded(fold: Folding, h: Fields, key: string, name: string)
    requires IsToken(key) && Canonical(key) == key && SameName(key, name) && IsHopName(name)
    ensures key in Forwarded(fold, h) ==> WantsUpgrade(fold, h) && (key == "Connection" || key == "Upgrade")
    ensures name == "Proxy-Authorization" ==> key !in Forwarded(fold, h)
  {
    ForwardsExactly(fold, h, key);
    assert |"Proxy-Authorization"| == 19 && |"Connection"| == 10 && |"Upgrade"| == 7;
    hide IsToken, Canonical, Forwarded, WantsUpgrade;
  }
}
