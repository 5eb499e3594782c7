/** The string operations of Python that the assistant relies on: `lower()`,
    `strip()`, `in`, `startswith`, `endswith`, `rfind`, `replace` and `join`,
    over `string` (a sequence of characters). */
module Text {
  import opened Wrappers

  /** Python's `str.isspace()` on the ASCII range: space, the controls
      \t \n \v \f \r, and the separators \x1c to \x1f. */
  predicate IsSpace(c: char) {
    c == ' ' || ('\t' <= c <= '\r') || ('\U{1C}' <= c <= '\U{1F}')
  }

  /** Python's `str.lower()` on one character; only A-Z change. */
  function LowerChar(c: char): char {
    if 'A' <= c <= 'Z' then (c as int + 32) as char else c
  }

  function Lower(s: string): string {
    seq(|s|, i requires 0 <= i < |s| => LowerChar(s[i]))
  }

  predicate IsLower(s: string) {
    forall i :: 0 <= i < |s| ==> !('A' <= s[i] <= 'Z')
  }

  predicate AllSpace(s: string) {
    forall i :: 0 <= i < |s| ==> IsSpace(s[i])
  }

  function StripLeft(s: string): string {
    if |s| > 0 && IsSpace(s[0]) then StripLeft(s[1..]) else s
  }

  function StripRight(s: string): string {
    if |s| > 0 && IsSpace(s[|s| - 1]) then StripRight(s[..|s| - 1]) else s
  }

  /** Python's `str.strip()` with no argument. */
  function Strip(s: string): string {
    StripRight(StripLeft(s))
  }

  /** Neither end of `s` is white space. */
  predicate IsStripped(s: string) {
    s == [] || (!IsSpace(s[0]) && !IsSpace(s[|s| - 1]))
  }

  /** `p` occurs in `t` starting at position `i`. */
  predicate OccursAt(t: string, p: string, i: int) {
    0 <= i <= |t| && p <= t[i..]
  }

  /** The leftmost occurrence of `p` in `t` at or after `i` (`str.find`). */
  function FindFrom(t: string, p: string, i: nat): (r: Option<nat>)
    requires i <= |t|
    ensures r.Some? ==> i <= r.value && OccursAt(t, p, r.value)
    ensures r.Some? ==> forall j :: i <= j < r.value ==> !OccursAt(t, p, j)
    ensures r.None? ==> forall j :: i <= j <= |t| ==> !OccursAt(t, p, j)
    decreases |t| - i
  {
    if OccursAt(t, p, i) then Some(i)
    else if i == |t| then None
    else FindFrom(t, p, i + 1)
  }

  /** Python's `p in t` for strings. */
  predicate Contains(t: string, p: string) {
    FindFrom(t, p, 0).Some?
  }

  /** Python's `any(w in t for w in words)`. */
  predicate AnyIn(t: string, words: seq<string>) {
    exists k :: 0 <= k < |words| && Contains(t, words[k])
  }

  predicate EndsWith(s: string, suffix: string) {
    |suffix| <= |s| && s[|s| - |suffix|..] == suffix
  }

  /** The longest prefix of `s` without a line feed: what a greedy `.+` or
      `.*` of Python's `re` consumes. */
  function Line(s: string): (r: string)
    ensures r <= s && '\n' !in r
    ensures |r| < |s| ==> s[|r|] == '\n'
  {
    if s == [] || s[0] == '\n' then [] else [s[0]] + Line(s[1..])
  }

  /** Python's `s.rfind(c)`: the last index of `c`, or -1. */
  function RFind(s: string, c: char): (r: int)
    ensures -1 <= r < |s|
    ensures r >= 0 ==> s[r] == c
    ensures forall k :: r < k < |s| ==> s[k] != c
  {
    if s == [] then -1
    else if s[|s| - 1] == c then |s| - 1
    else RFind(s[..|s| - 1], c)
  }

  /** Python's `s.replace(c, rep)` for a one-character `c`. */
  function Replace(s: string, c: char, rep: string): (r: string)
    ensures c !in rep ==> c !in r
  {
    if s == [] then []
    else (if s[0] == c then rep else [s[0]]) + Replace(s[1..], c, rep)
  }

  /** Replacing a character by a single character keeps the length and
      changes exactly the positions that held it. */
  lemma {:induction false} ReplaceCharwise(s: string, c: char, d: char)
    ensures |Replace(s, c, [d])| == |s|
    ensures forall k :: 0 <= k < |s| ==> Replace(s, c, [d])[k] == (if s[k] == c then d else s[k])
  {
    if s != [] {
      ReplaceCharwise(s[1..], c, d);
      var head := if s[0] == c then [d] else [s[0]];
      assert Replace(s, c, [d]) == head + Replace(s[1..], c, [d]);
      forall k | 0 < k < |s|
        ensures Replace(s, c, [d])[k] == (if s[k] == c then d else s[k])
      {
        assert s[k] == s[1..][k - 1];
      }
    }
  }

  /** Python's `sep.join(parts)`. */
  function Join(parts: seq<string>, sep: string): string {
    if |parts| == 0 then ""
    else if |parts| == 1 then parts[0]
    else parts[0] + sep + Join(parts[1..], sep)
  }

  /** Python's slice `s[:n]` for a non-negative `n`. */
  function Take<T>(s: seq<T>, n: nat): (r: seq<T>)
    ensures |r| <= n && r <= s
    ensures |s| <= n ==> r == s
  {
    if |s| <= n then s else s[..n]
  }

  // ---------------------------------------------------------------------
  // Lemmas about lower-casing and stripping

  lemma LowerIsLower(s: string)
    ensures IsLower(Lower(s))
  {
  }

  lemma LowerOfLower(s: string)
    requires IsLower(s)
    ensures Lower(s) == s
  {
  }

  lemma LowerIdempotent(s: string)
    ensures Lower(Lower(s)) == Lower(s)
  {
    LowerIsLower(s);
    LowerOfLower(Lower(s));
  }

  lemma LowerAppend(a: string, b: string)
    ensures Lower(a + b) == Lower(a) + Lower(b)
  {
  }

  lemma LowerKeepsSpace(c: char)
    ensures IsSpace(LowerChar(c)) <==> IsSpace(c)
    ensures IsSpace(c) ==> LowerChar(c) == c
  {
  }

  lemma {:induction false} StripLeftLower(s: string)
    ensures StripLeft(Lower(s)) == Lower(StripLeft(s))
    decreases |s|
  {
    if |s| > 0 {
      LowerKeepsSpace(s[0]);
      assert Lower(s)[0] == LowerChar(s[0]);
      if IsSpace(s[0]) {
        assert Lower(s)[1..] == Lower(s[1..]);
        StripLeftLower(s[1..]);
      }
    }
  }

  lemma {:induction false} StripRightLower(s: string)
    ensures StripRight(Lower(s)) == Lower(StripRight(s))
    decreases |s|
  {
    if |s| > 0 {
      LowerKeepsSpace(s[|s| - 1]);
      if IsSpace(s[|s| - 1]) {
        assert Lower(s)[..|s| - 1] == Lower(s[..|s| - 1]);
        StripRightLower(s[..|s| - 1]);
      }
    }
  }

  /** Lower-casing and stripping commute: white space has no case. */
  lemma StripLowerCommute(s: string)
    ensures Strip(Lower(s)) == Lower(Strip(s))
  {
    StripLeftLower(s);
    StripRightLower(StripLeft(s));
  }

  lemma {:induction false} StripLeftSpacePrefix(w: string, s: string)
    requires AllSpace(w)
    ensures StripLeft(w + s) == StripLeft(s)
    decreases |w|
  {
    if |w| == 0 {
      assert w + s == s;
    } else {
      assert (w + s)[0] == w[0];
      assert (w + s)[1..] == w[1..] + s;
      StripLeftSpacePrefix(w[1..], s);
    }
  }

  lemma {:induction false} StripRightSpaceSuffix(s: string, w: string)
    requires AllSpace(w)
    ensures StripRight(s + w) == StripRight(s)
    decreases |w|
  {
    if |w| == 0 {
      assert s + w == s;
    } else {
      assert (s + w)[|s + w| - 1] == w[|w| - 1];
      assert (s + w)[..|s + w| - 1] == s + w[..|w| - 1];
      StripRightSpaceSuffix(s, w[..|w| - 1]);
    }
  }

  /** Stripping from the left leaves a suffix of `s` whose dropped part is white. */
  lemma {:induction false} StripLeftIsSuffix(s: string)
    ensures |StripLeft(s)| <= |s|
    ensures StripLeft(s) == s[|s| - |StripLeft(s)|..]
    ensures AllSpace(s[..|s| - |StripLeft(s)|])
    ensures StripLeft(s) == [] || !IsSpace(StripLeft(s)[0])
    decreases |s|
  {
    if |s| > 0 && IsSpace(s[0]) {
      StripLeftIsSuffix(s[1..]);
    }
  }

  lemma {:induction false} StripRightIsPrefix(s: string)
    ensures StripRight(s) <= s
    ensures AllSpace(s[|StripRight(s)|..])
    ensures StripRight(s) == [] || !IsSpace(StripRight(s)[|StripRight(s)| - 1])
    decreases |s|
  {
    if |s| > 0 && IsSpace(s[|s| - 1]) {
      var p := s[..|s| - 1];
      StripRightIsPrefix(p);
      var r := StripRight(p);
      assert StripRight(s) == r;
      assert s[|r|..] == p[|r|..] + [s[|s| - 1]];
    } else {
      assert StripRight(s) == s;
      assert s[|s|..] == [];
    }
  }

  /** Suffix white space behind a non-white start passes through `StripLeft`. */
  lemma {:induction false} StripLeftAppend(s: string, w: string)
    requires AllSpace(w)
    ensures StripLeft(s) != [] ==> StripLeft(s + w) == StripLeft(s) + w
    ensures StripLeft(s) == [] ==> StripLeft(s + w) == []
    decreases |s|
  {
    if |s| == 0 {
      assert s + w == w;
      AllSpaceStripLeft(w);
    } else if IsSpace(s[0]) {
      assert (s + w)[1..] == s[1..] + w;
      StripLeftAppend(s[1..], w);
    } else {
      assert (s + w)[0] == s[0];
    }
  }

  lemma {:induction false} AllSpaceStripLeft(w: string)
    requires AllSpace(w)
    ensures StripLeft(w) == []
    decreases |w|
  {
    if |w| > 0 {
      AllSpaceStripLeft(w[1..]);
    }
  }

  /** Surrounding white space does not change the stripped text. */
  lemma StripIgnoresPadding(w1: string, s: string, w2: string)
    requires AllSpace(w1) && AllSpace(w2)
    ensures Strip(w1 + s + w2) == Strip(s)
  {
    assert w1 + s + w2 == w1 + (s + w2);
    StripLeftSpacePrefix(w1, s + w2);
    StripLeftAppend(s, w2);
    if StripLeft(s) != [] {
      StripRightSpaceSuffix(StripLeft(s), w2);
    }
  }

  /** The result of `Strip` starts and ends with a non-white character, and
      what was removed is white. */
  lemma StripIsStripped(s: string)
    ensures IsStripped(Strip(s))
  {
    var l := StripLeft(s);
    StripLeftIsSuffix(s);
    StripRightIsPrefix(l);
    var r := StripRight(l);
    if r != [] {
      assert r[0] == l[0];
    }
  }

  lemma {:induction false} StrippedFixed(s: string)
    requires IsStripped(s)
    ensures Strip(s) == s
  {
  }

  lemma StripIdempotent(s: string)
    ensures Strip(Strip(s)) == Strip(s)
  {
    StripIsStripped(s);
    StrippedFixed(Strip(s));
  }

  // ---------------------------------------------------------------------
  // Lemmas about containment

  /** `Contains` is the existence of an occurrence. */
  lemma ContainsIff(t: string, p: string)
    ensures Contains(t, p) <==> exists i :: OccursAt(t, p, i)
  {
    if exists i :: OccursAt(t, p, i) {
      var i :| OccursAt(t, p, i);
      assert 0 <= i <= |t|;
    }
  }

  lemma ContainsAt(t: string, p: string, i: int)
    requires OccursAt(t, p, i)
    ensures Contains(t, p)
  {
    ContainsIff(t, p);
  }

  /** An occurrence of `p` is an occurrence of each prefix of `p`. */
  lemma ContainsPrefixOf(t: string, p: string, q: string)
    requires Contains(t, p) && q <= p
    ensures Contains(t, q)
  {
    var i := FindFrom(t, p, 0).value;
    assert OccursAt(t, q, i);
    ContainsAt(t, q, i);
  }

  /** Two adjacent occurrences make an occurrence of the concatenation. */
  lemma OccursConcat(t: string, p: string, q: string, i: int)
    requires OccursAt(t, p, i) && OccursAt(t, q, i + |p|)
    ensures OccursAt(t, p + q, i)
  {
    assert t[i..] == t[i..i + |p|] + t[i + |p|..];
  }

  /** An occurrence of `p` holds an occurrence of each slice of `p`. */
  lemma OccursSlice(t: string, p: string, i: int, lo: int, hi: int)
    requires OccursAt(t, p, i) && 0 <= lo <= hi <= |p|
    ensures OccursAt(t, p[lo..hi], i + lo)
  {
    assert t[i + lo..][..hi - lo] == t[i..][lo..hi];
  }

  /** Where the stripped text starts in the original. */
  function StripOffset(s: string): nat {
    StripLeftIsSuffix(s);
    |s| - |StripLeft(s)|
  }

  /** The stripped text is a slice of the original. */
  lemma StripIsSlice(s: string)
    ensures StripOffset(s) + |Strip(s)| <= |s|
    ensures Strip(s) == s[StripOffset(s)..StripOffset(s) + |Strip(s)|]
  {
    StripLeftIsSuffix(s);
    StripRightIsPrefix(StripLeft(s));
  }

  /** Stripping a piece of the text leaves a piece of the text, and adds no
      line feed. */
  lemma StripKeepsOccurrence(t: string, g: string)
    requires Contains(t, g)
    ensures Contains(t, Strip(g))
    ensures '\n' !in g ==> '\n' !in Strip(g)
  {
    var i := FindFrom(t, g, 0).value;
    var v := Strip(g);
    StripIsSlice(g);
    var lo := StripOffset(g);
    OccursSlice(t, g, i, lo, lo + |v|);
    ContainsAt(t, v, i + lo);
    forall k | 0 <= k < |v|
      ensures v[k] == g[lo + k]
    {
    }
  }

  /** A character of `p` that `t` lacks rules out `p in t`. */
  lemma MissingCharRulesOut(t: string, p: string, c: char)
    requires c in p && c !in t
    ensures !Contains(t, p)
  {
    var k :| 0 <= k < |p| && p[k] == c;
    forall i | 0 <= i <= |t|
      ensures !OccursAt(t, p, i)
    {
      if i + k < |t| {
        assert t[i..][k] == t[i + k] != c;
      }
    }
  }

  // ---------------------------------------------------------------------
  // `text.lower().strip()`, the normal form that commands and application
  // names are compared in

  function Normalise(text: string): string {
    Strip(Lower(text))
  }

  lemma LowerSpaces(w: string)
    requires AllSpace(w)
    ensures Lower(w) == w
  {
    forall k | 0 <= k < |w|
      ensures Lower(w)[k] == w[k]
    {
      LowerKeepsSpace(w[k]);
    }
  }

  /** Normalising twice changes nothing. */
  lemma NormaliseIdempotent(text: string)
    ensures Normalise(Normalise(text)) == Normalise(text)
  {
    var l := Lower(text);
    StripLowerCommute(l);
    LowerIdempotent(text);
    StripIdempotent(l);
  }

  /** The normal form ignores letter case. */
  lemma NormaliseIgnoresCase(text: string)
    ensures Normalise(Lower(text)) == Normalise(text)
  {
    LowerIdempotent(text);
  }

  /** The normal form ignores surrounding white space. */
  lemma NormaliseIgnoresPadding(w1: string, text: string, w2: string)
    requires AllSpace(w1) && AllSpace(w2)
    ensures Normalise(w1 + text + w2) == Normalise(text)
  {
    LowerAppend(w1 + text, w2);
    LowerAppend(w1, text);
    LowerSpaces(w1);
    LowerSpaces(w2);
    StripIgnoresPadding(w1, Lower(text), w2);
  }

  /** The normal form is stripped and lower-case. */
  lemma NormaliseShape(text: string)
    ensures IsStripped(Normalise(text)) && IsLower(Normalise(text))
  {
    StripIsStripped(Lower(text));
    StripIsSlice(Lower(text));
    LowerIsLower(text);
    var l := Lower(text);
    var o := StripOffset(l);
    forall i | 0 <= i < |Normalise(text)|
      ensures !('A' <= Normalise(text)[i] <= 'Z')
    {
      assert Normalise(text)[i] == l[o + i];
    }
  }
}
