/** String operations of the source languages, on sequences of characters. */
module Text {
  import opened Wrappers

  /** toLowerCase where it can yield an ASCII character: letters and the Kelvin sign. */
  function LowerChar(c: char): char {
    if 'A' <= c <= 'Z' then (c as int + 32) as char
    else if c == '\U{212A}' then 'k'
    else c
  }

  function Lower(s: string): (r: string)
    ensures |r| == |s|
    ensures forall i :: 0 <= i < |s| ==> r[i] == LowerChar(s[i])
  {
    if s == [] then [] else [LowerChar(s[0])] + Lower(s[1..])
  }

  const UPPER_LETTERS := "ABCDEFGHIJKLMNOPQRSTUVWXYZ"
  const LOWER_LETTERS := "abcdefghijklmnopqrstuvwxyz"

  lemma LettersInOrder(n: nat)
    ensures |UPPER_LETTERS| == 26 && |LOWER_LETTERS| == 26
    ensures n < 26 ==> UPPER_LETTERS[n] == ('A' as int + n) as char && LOWER_LETTERS[n] == ('a' as int + n) as char
  {
  }

  lemma LowersAlphabet(n: nat)
    requires n < 26
    ensures |UPPER_LETTERS| == 26 && |LOWER_LETTERS| == 26 && LowerChar(UPPER_LETTERS[n]) == LOWER_LETTERS[n]
  {
    LettersInOrder(n);
  }

  lemma LowerTwice(s: string)
    ensures Lower(Lower(s)) == Lower(s)
  {
    assert forall c :: LowerChar(LowerChar(c)) == LowerChar(c);
  }

  /** What \s and trim treat as white space in JavaScript. */
  predicate IsSpace(c: char) {
    '\U{9}' <= c <= '\U{D}' || c == ' ' || c == '\U{A0}' || c == '\U{1680}' || '\U{2000}' <= c <= '\U{200A}' ||
    c == '\U{2028}' || c == '\U{2029}' || c == '\U{202F}' || c == '\U{205F}' || c == '\U{3000}' || c == '\U{FEFF}'
  }

  function TrimLeft(s: string, space: char -> bool): string {
    if s != [] && space(s[0]) then TrimLeft(s[1..], space) else s
  }

  function TrimRight(s: string, space: char -> bool): string {
    if s != [] && space(s[|s| - 1]) then TrimRight(s[..|s| - 1], space) else s
  }

  function TrimBoth(s: string, space: char -> bool): string {
    TrimRight(TrimLeft(s, space), space)
  }

  /** s.trim() */
  function Trim(s: string): string {
    TrimBoth(s, IsSpace)
  }

  predicate Spaces(s: string, space: char -> bool) {
    forall i :: 0 <= i < |s| ==> space(s[i])
  }

  /** `s` is `core`, itself without spaces at its ends, between spaces. */
  ghost predicate Framed(s: string, before: string, core: string, after: string, space: char -> bool) {
    s == before + core + after && Spaces(before, space) && Spaces(after, space) &&
    (core != [] ==> !space(core[0]) && !space(core[|core| - 1]))
  }

  lemma {:induction false} TrimsLeft(before: string, s: string, space: char -> bool)
    requires Spaces(before, space) && (s != [] ==> !space(s[0]))
    ensures TrimLeft(before + s, space) == s
  {
    if before == [] {
      assert before + s == s;
    } else {
      assert (before + s)[1..] == before[1..] + s;
      TrimsLeft(before[1..], s, space);
    }
  }

  lemma {:induction false} TrimsRight(s: string, after: string, space: char -> bool)
    requires Spaces(after, space) && (s != [] ==> !space(s[|s| - 1]))
    ensures TrimRight(s + after, space) == s
  {
    if after == [] {
      assert s + after == s;
    } else {
      assert (s + after)[..|s + after| - 1] == s + after[..|after| - 1];
      TrimsRight(s, after[..|after| - 1], space);
    }
  }

  lemma {:induction false} LeftTrimmed(s: string, space: char -> bool) returns (before: string)
    ensures s == before + TrimLeft(s, space) && Spaces(before, space)
    ensures TrimLeft(s, space) != [] ==> !space(TrimLeft(s, space)[0])
  {
    if s != [] && space(s[0]) {
      before := LeftTrimmed(s[1..], space);
      assert s == [s[0]] + before + TrimLeft(s, space);
      before := [s[0]] + before;
    } else {
      before := [];
    }
  }

  lemma {:induction false} RightTrimmed(s: string, space: char -> bool) returns (after: string)
    ensures s == TrimRight(s, space) + after && Spaces(after, space)
    ensures TrimRight(s, space) != [] ==> !space(TrimRight(s, space)[|TrimRight(s, space)| - 1])
  {
    if s != [] && space(s[|s| - 1]) {
      after := RightTrimmed(s[..|s| - 1], space);
      assert s == TrimRight(s, space) + (after + [s[|s| - 1]]);
      after := after + [s[|s| - 1]];
    } else {
      after := [];
    }
  }

  /** Trimming takes off exactly the spaces at both ends. */
  lemma TrimExactly(s: string, core: string, space: char -> bool)
    ensures TrimBoth(s, space) == core <==> exists before, after :: Framed(s, before, core, after, space)
  {
    if TrimBoth(s, space) == core {
      var left := TrimLeft(s, space);
      var before := LeftTrimmed(s, space);
      var after := RightTrimmed(left, space);
      assert core != [] ==> core[0] == left[0];
      assert Framed(s, before, core, after, space);
    }
    if before, after :| Framed(s, before, core, after, space) {
      if core == [] {
        assert s == (before + after) + [];
        TrimsLeft(before + after, [], space);
      } else {
        assert s == before + (core + after);
        TrimsLeft(before, core + after, space);
        TrimsRight(core, after, space);
      }
    }
  }

  lemma TrimStays(s: string)
    requires s != [] && !IsSpace(s[0]) && !IsSpace(s[|s| - 1])
    ensures Trim(s) == s
  {
  }

  predicate EndsWith(s: string, t: string) {
    |t| <= |s| && s[|s| - |t|..] == t
  }

  /** s.slice(-n) for n > 0. */
  function LastChars(s: string, n: nat): string {
    if n >= |s| then s else s[|s| - n..]
  }

  /** s.split(c) for a one-character separator. */
  function Split(s: string, c: char): (r: seq<string>)
    ensures r != []
  {
    if s == [] then [""]
    else
      var rest := Split(s[1..], c);
      if s[0] == c then [""] + rest
      else [[s[0]] + rest[0]] + rest[1..]
  }

  /** parts.join(separator). */
  function Join(parts: seq<string>, separator: string): string {
    if parts == [] then ""
    else if |parts| == 1 then parts[0]
    else parts[0] + separator + Join(parts[1..], separator)
  }

  lemma {:induction false} SplitPlain(s: string, c: char)
    requires c !in s
    ensures Split(s, c) == [s]
  {
    if s == [] {
    } else {
      SplitPlain(s[1..], c);
      assert [s[0]] + s[1..] == s;
    }
  }

  lemma {:induction false} SplitAt(s: string, t: string, c: char)
    ensures Split(s + [c] + t, c) == Split(s, c) + Split(t, c)
  {
    if s == [] {
      assert s + [c] + t == [c] + t;
      assert ([c] + t)[1..] == t;
    } else {
      assert (s + [c] + t)[1..] == s[1..] + [c] + t;
      SplitAt(s[1..], t, c);
    }
  }

  lemma {:induction false} JoinSplit(s: string, c: char)
    ensures Join(Split(s, c), [c]) == s
  {
    if s == [] {
    } else {
      JoinSplit(s[1..], c);
      var rest := Split(s[1..], c);
      if s[0] == c {
        assert ([""] + rest)[1..] == rest;
        assert "" + [c] + s[1..] == s;
      } else {
        var parts := [[s[0]] + rest[0]] + rest[1..];
        assert parts[1..] == rest[1..];
        if |rest| > 1 {
          assert s[1..] == rest[0] + [c] + Join(rest[1..], [c]);
        }
      }
    }
  }

  lemma {:induction false} JoinAppend(a: seq<string>, b: seq<string>, separator: string)
    requires a != [] && b != []
    ensures Join(a + b, separator) == Join(a, separator) + separator + Join(b, separator)
  {
    if |a| == 1 {
      assert (a + b)[1..] == b;
    } else {
      assert (a + b)[1..] == a[1..] + b;
      JoinAppend(a[1..], b, separator);
      assert a[0] + separator + (Join(a[1..], separator) + separator + Join(b, separator)) ==
        (a[0] + separator + Join(a[1..], separator)) + separator + Join(b, separator);
    }
  }

  predicate LabelSuffix(d: seq<string>, h: seq<string>) {
    |d| <= |h| && h[|h| - |d|..] == d
  }

  /** A string is another one, or ends in a dot and it, exactly when its labels end in the other's labels. */
  lemma SuffixByLabels(h: string, d: string)
    ensures (h == d || EndsWith(h, "." + d)) <==> LabelSuffix(Split(d, '.'), Split(h, '.'))
  {
    if EndsWith(h, "." + d) {
      var p := h[..|h| - |d| - 1];
      assert h == p + "." + d;
      SplitAt(p, d, '.');
    }
    if LabelSuffix(Split(d, '.'), Split(h, '.')) {
      var hs, ds := Split(h, '.'), Split(d, '.');
      JoinSplit(h, '.');
      JoinSplit(d, '.');
      if |hs| != |ds| {
        var p := hs[..|hs| - |ds|];
        assert hs == p + ds;
        JoinAppend(p, ds, ".");
        assert h == Join(p, ".") + "." + d;
      }
    }
  }
}
