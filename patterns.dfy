/** The fragment of Python's `re.search` that the intent table uses.

    Every pattern of the table is a choice of literal heads, tried in order at
    each position, followed by one of five tails.  The semantics below is that
    of the backtracking matcher on lower-case text: the leftmost position wins,
    heads are tried in list order, and the greedy groups take the longest
    extent that lets the rest of the pattern match.  A `.` never matches a
    line feed. */
module Patterns {
  import opened Wrappers
  import opened Text

  /** What follows the literal head of a pattern. */
  datatype Tail =
    | Done                          // nothing; the pattern has no group
    | Rest                          // `(.+)`
    | DigitRun                      // `(\d+)`
    | InClause                      // `(?:\s+in\s+(.+))?`
    | RestBefore(ends: seq<string>) // `(.+)(?:e1|e2|...)`

  /** `(?:h1|h2|...)` followed by a tail. */
  datatype Pattern = Pattern(heads: seq<string>, tail: Tail)

  /** What a successful match reports: `match.groups()` is empty for
      `NoGroups`; for `Group1(g)` it is `(g,)`, where `None` stands for an
      optional group that did not take part. */
  datatype Captures = NoGroups | Group1(group: Option<string>) {
    /** `match.groups() and match.group(1)` is truthy. */
    predicate HasText() {
      Group1? && group.Some? && group.value != ""
    }
    /** `match.group(1)`, read as the empty text when it is absent. */
    function Text(): string {
      if Group1? && group.Some? then group.value else ""
    }
  }

  /** A plain literal pattern such as `take a screenshot`. */
  function Lit(s: string): Pattern {
    Pattern([s], Done)
  }

  predicate IsDigit(c: char) {
    '0' <= c <= '9'
  }

  /** The length of the run of digits starting at `a`. */
  function DigitsFrom(t: string, a: nat): (n: nat)
    requires a <= |t|
    ensures a + n <= |t|
    ensures forall k :: a <= k < a + n ==> IsDigit(t[k])
    ensures a + n == |t| || !IsDigit(t[a + n])
    decreases |t| - a
  {
    if a < |t| && IsDigit(t[a]) then 1 + DigitsFrom(t, a + 1) else 0
  }

  /** The length of the run of white space starting at `a` (what `\s+`
      takes before it backtracks). */
  function SpaceFrom(t: string, a: nat): (n: nat)
    requires a <= |t|
    ensures a + n <= |t|
    ensures forall k :: a <= k < a + n ==> IsSpace(t[k])
    ensures a + n == |t| || !IsSpace(t[a + n])
    decreases |t| - a
  {
    if a < |t| && IsSpace(t[a]) then 1 + SpaceFrom(t, a + 1) else 0
  }

  /** A `.` can match at position `i`. */
  predicate DotAt(t: string, i: int) {
    0 <= i < |t| && t[i] != '\n'
  }

  /** The largest `k` in 1..`k0` such that `.` can match at `b + k`: the way
      `\s+(.+)` backtracks its white space. */
  function GroupStart(t: string, b: nat, k0: nat): (r: Option<nat>)
    ensures r.Some? ==> 1 <= r.value <= k0 && DotAt(t, b + r.value)
    ensures forall j :: b + (if r.Some? then r.value else 0) < j <= b + k0 ==> !DotAt(t, j)
  {
    if k0 == 0 then None
    else if DotAt(t, b + k0) then Some(k0)
    else GroupStart(t, b, k0 - 1)
  }

  /** Group 1 of `\s+in\s+(.+)` tried at `a`, or `None` when the optional
      clause cannot match there. */
  function InClauseGroup(t: string, a: nat): (r: Option<string>)
    requires a <= |t|
    ensures r.Some? ==> r.value != [] && '\n' !in r.value
  {
    var w1 := SpaceFrom(t, a);
    if w1 == 0 || !OccursAt(t, "in", a + w1) then None
    else
      var b := a + w1 + 2;
      var w2 := SpaceFrom(t, b);
      match GroupStart(t, b, w2)
      case None => None
      case Some(k) => Some(Line(t[b + k..]))
  }

  /** Some ending occurs at position `e`. */
  predicate EndsAt(t: string, ends: seq<string>, e: int) {
    exists k :: 0 <= k < |ends| && OccursAt(t, ends[k], e)
  }

  /** The largest `e` with `a < e <= e0` where an ending occurs: where a greedy
      `(.+)` followed by an ending stops. */
  function LastEnd(t: string, ends: seq<string>, a: nat, e0: nat): (r: Option<nat>)
    ensures r.Some? ==> a < r.value <= e0 && EndsAt(t, ends, r.value)
    ensures forall e :: (if r.Some? then r.value else a) < e <= e0 ==> !EndsAt(t, ends, e)
    decreases e0
  {
    if e0 <= a then None
    else if EndsAt(t, ends, e0) then Some(e0)
    else LastEnd(t, ends, a, e0 - 1)
  }

  /** The tail tried at position `a`, just after a head. */
  function TailAt(tail: Tail, t: string, a: nat): Option<Captures>
    requires a <= |t|
  {
    match tail
    case Done => Some(NoGroups)
    case Rest =>
      var g := Line(t[a..]);
      if g == [] then None else Some(Group1(Some(g)))
    case DigitRun =>
      var n := DigitsFrom(t, a);
      if n == 0 then None else Some(Group1(Some(t[a..a + n])))
    case InClause => Some(Group1(InClauseGroup(t, a)))
    case RestBefore(ends) =>
      match LastEnd(t, ends, a, a + |Line(t[a..])|)
      case None => None
      case Some(e) => Some(Group1(Some(t[a..e])))
  }

  /** Head `h` taken at position `i` lets the tail match after it. */
  predicate Fits(h: string, tail: Tail, t: string, i: nat) {
    OccursAt(t, h, i) && TailAt(tail, t, i + |h|).Some?
  }

  /** The first head, from index `k` on, that fits at position `i`: the
      alternatives `(?:h1|h2|...)` tried in order. */
  function FirstHead(heads: seq<string>, tail: Tail, t: string, i: nat, k: nat): (r: Option<nat>)
    ensures r.Some? ==> k <= r.value < |heads| && Fits(heads[r.value], tail, t, i)
    ensures forall j :: k <= j < |heads| && (r.None? || j < r.value) ==> !Fits(heads[j], tail, t, i)
    decreases |heads| - k
  {
    if k >= |heads| then None
    else if Fits(heads[k], tail, t, i) then Some(k)
    else FirstHead(heads, tail, t, i, k + 1)
  }

  /** The pattern anchored at position `i` (`re.match` on `t[i..]`). */
  function MatchAt(p: Pattern, t: string, i: nat): Option<Captures> {
    match FirstHead(p.heads, p.tail, t, i, 0)
    case None => None
    case Some(k) => TailAt(p.tail, t, i + |p.heads[k]|)
  }

  /** The leftmost position at or after `i` where the pattern matches. */
  function FirstPos(p: Pattern, t: string, i: nat): (r: Option<nat>)
    requires i <= |t|
    ensures r.Some? ==> i <= r.value <= |t| && MatchAt(p, t, r.value).Some?
    ensures forall j :: i <= j <= |t| && (r.None? || j < r.value) ==> MatchAt(p, t, j).None?
    decreases |t| - i
  {
    if MatchAt(p, t, i).Some? then Some(i)
    else if i == |t| then None
    else FirstPos(p, t, i + 1)
  }

  /** `re.search(p, t)`: the captures of the leftmost match, if any. */
  function Search(p: Pattern, t: string): Option<Captures> {
    match FirstPos(p, t, 0)
    case None => None
    case Some(i) => MatchAt(p, t, i)
  }

  // ---------------------------------------------------------------------
  // Lemmas

  /** The search succeeds exactly when the pattern matches at some position. */
  lemma SearchIff(p: Pattern, t: string)
    ensures Search(p, t).Some? <==> exists i :: 0 <= i <= |t| && MatchAt(p, t, i).Some?
  {
  }

  /** The search reports the captures of its leftmost match. */
  lemma SearchIsLeftmost(p: Pattern, t: string)
    requires Search(p, t).Some?
    ensures exists i :: 0 <= i <= |t| && Search(p, t) == MatchAt(p, t, i) &&
                        (forall j :: 0 <= j < i ==> MatchAt(p, t, j).None?)
  {
    var i := FirstPos(p, t, 0).value;
    assert Search(p, t) == MatchAt(p, t, i);
  }

  /** A match anywhere makes the search succeed. */
  lemma MatchMakesSearch(p: Pattern, t: string, i: nat)
    requires i <= |t| && MatchAt(p, t, i).Some?
    ensures Search(p, t).Some?
  {
    SearchIff(p, t);
  }

  /** A head that fits at `i` makes the pattern match there. */
  lemma HeadMatches(p: Pattern, t: string, i: nat, k: nat)
    requires k < |p.heads| && Fits(p.heads[k], p.tail, t, i)
    ensures MatchAt(p, t, i).Some?
  {
  }

  /** A successful search has found one of the heads in the text. */
  lemma SearchFindsHead(p: Pattern, t: string)
    ensures Search(p, t).Some? ==> exists k :: 0 <= k < |p.heads| && Contains(t, p.heads[k])
  {
    if Search(p, t).Some? {
      var i := FirstPos(p, t, 0).value;
      var k := FirstHead(p.heads, p.tail, t, i, 0).value;
      ContainsAt(t, p.heads[k], i);
    }
  }

  /** A pattern whose every head needs a character the text lacks cannot
      match: the cheap refutation that the intent ordering lemmas use. */
  lemma MissingCharNoSearch(p: Pattern, t: string, cs: seq<char>)
    requires |cs| == |p.heads|
    requires forall k :: 0 <= k < |p.heads| ==> cs[k] in p.heads[k] && cs[k] !in t
    ensures Search(p, t).None?
  {
    forall k | 0 <= k < |p.heads|
      ensures !Contains(t, p.heads[k])
    {
      MissingCharRulesOut(t, p.heads[k], cs[k]);
    }
    SearchFindsHead(p, t);
  }

  /** Exactly the tails other than `Done` report a group. */
  lemma TailsGroup(p: Pattern, t: string, i: nat)
    requires MatchAt(p, t, i).Some?
    ensures MatchAt(p, t, i).value.Group1? <==> !p.tail.Done?
  {
  }

  /** A pattern without a tail is found exactly when one of its heads occurs. */
  lemma AnySearchIff(heads: seq<string>, t: string)
    ensures Search(Pattern(heads, Done), t).Some? <==> AnyIn(t, heads)
    ensures Search(Pattern(heads, Done), t).Some? ==> Search(Pattern(heads, Done), t) == Some(NoGroups)
  {
    var p := Pattern(heads, Done);
    if AnyIn(t, heads) {
      var k :| 0 <= k < |heads| && Contains(t, heads[k]);
      var i := FindFrom(t, heads[k], 0).value;
      HeadMatches(p, t, i, k);
      MatchMakesSearch(p, t, i);
    } else {
      SearchFindsHead(p, t);
    }
  }

  /** A literal pattern is found exactly when its text occurs. */
  lemma LitSearchIff(s: string, t: string)
    ensures Search(Lit(s), t).Some? <==> Contains(t, s)
    ensures Search(Lit(s), t).Some? ==> Search(Lit(s), t) == Some(NoGroups)
  {
    AnySearchIff([s], t);
    if Contains(t, s) {
      assert AnyIn(t, [s]) by { assert [s][0] == s; }
    }
  }

  /** A pattern with an optional clause is found exactly when a head occurs;
      the clause only decides the group. */
  lemma InClauseSearchIff(heads: seq<string>, t: string)
    ensures Search(Pattern(heads, InClause), t).Some? <==> AnyIn(t, heads)
    ensures Search(Pattern(heads, InClause), t).Some? ==> Search(Pattern(heads, InClause), t).value.Group1?
  {
    var p := Pattern(heads, InClause);
    if AnyIn(t, heads) {
      var k :| 0 <= k < |heads| && Contains(t, heads[k]);
      var i := FindFrom(t, heads[k], 0).value;
      HeadMatches(p, t, i, k);
      MatchMakesSearch(p, t, i);
    } else {
      SearchFindsHead(p, t);
    }
  }

  /** The group of `(.+)`: a non-empty rest of a line, found just after a head. */
  lemma RestGroup(p: Pattern, t: string, i: nat)
    requires p.tail.Rest? && MatchAt(p, t, i).Some?
    ensures MatchAt(p, t, i).value.HasText()
    ensures var g := MatchAt(p, t, i).value.Text();
      '\n' !in g &&
      exists k :: 0 <= k < |p.heads| && OccursAt(t, p.heads[k] + g, i)
  {
    var k := FirstHead(p.heads, p.tail, t, i, 0).value;
    OccursConcat(t, p.heads[k], Line(t[i + |p.heads[k]|..]), i);
  }

  /** The group of `(\d+)`: a non-empty run of digits. */
  lemma DigitGroup(p: Pattern, t: string, i: nat)
    requires p.tail.DigitRun? && MatchAt(p, t, i).Some?
    ensures var c := MatchAt(p, t, i).value;
      c.HasText() && forall k :: 0 <= k < |c.Text()| ==> IsDigit(c.Text()[k])
  {
  }

  /** The tail `(.+)` before an ending: a non-empty part of the line that an
      ending follows. */
  lemma BeforeTail(ends: seq<string>, t: string, a: nat)
    requires a <= |t| && TailAt(RestBefore(ends), t, a).Some?
    ensures TailAt(RestBefore(ends), t, a).value.HasText()
    ensures var g := TailAt(RestBefore(ends), t, a).value.Text();
      '\n' !in g && OccursAt(t, g, a) && EndsAt(t, ends, a + |g|)
  {
    var l := Line(t[a..]);
    var e := LastEnd(t, ends, a, a + |l|).value;
    assert t[a..e] == l[..e - a];
  }

  /** The group before an ending: non-empty, right after a head, and followed
      in the text by one of the endings. */
  lemma BeforeGroup(p: Pattern, t: string, i: nat)
    requires p.tail.RestBefore? && MatchAt(p, t, i).Some?
    ensures MatchAt(p, t, i).value.HasText()
    ensures var g := MatchAt(p, t, i).value.Text();
      '\n' !in g &&
      exists k :: 0 <= k < |p.heads| && OccursAt(t, p.heads[k] + g, i) &&
                  EndsAt(t, p.tail.ends, i + |p.heads[k]| + |g|)
  {
    var k := FirstHead(p.heads, p.tail, t, i, 0).value;
    var a := i + |p.heads[k]|;
    assert MatchAt(p, t, i) == TailAt(p.tail, t, a);
    BeforeTail(p.tail.ends, t, a);
    OccursConcat(t, p.heads[k], TailAt(p.tail, t, a).value.Text(), i);
  }

  /** A keyword followed by a character other than a line feed makes `kw (.+)` match. */
  lemma KeywordFollowed(p: Pattern, t: string, i: nat, k: nat, c: char)
    requires p.tail.Rest? && k < |p.heads| && c != '\n'
    requires OccursAt(t, p.heads[k] + [c], i)
    ensures Search(p, t).Some?
  {
    var a := i + |p.heads[k]|;
    assert t[i..][|p.heads[k]|] == c;
    assert t[a..][0] == c;
    assert OccursAt(t, p.heads[k], i);
    HeadMatches(p, t, i, k);
    MatchMakesSearch(p, t, i);
  }

  /** The group of a `(.+)` search: a non-empty single line of the text. */
  lemma RestCaptureOccurs(p: Pattern, t: string, c: Captures)
    requires p.tail == Rest && Search(p, t) == Some(c)
    ensures c.HasText() && '\n' !in c.Text() && Contains(t, c.Text())
  {
    var i := FirstPos(p, t, 0).value;
    RestGroup(p, t, i);
    var g := c.Text();
    var j :| 0 <= j < |p.heads| && OccursAt(t, p.heads[j] + g, i);
    OccursSlice(t, p.heads[j] + g, i, |p.heads[j]|, |p.heads[j] + g|);
    assert (p.heads[j] + g)[|p.heads[j]|..] == g;
    ContainsAt(t, g, i + |p.heads[j]|);
  }
}
