/** Search result shaping (web_search.py). The HTTP requests, the HTML and
    XML parsing and the wikipedia package are replaced by what they yield:
    each backend is given the texts it would have scraped, or the error it
    would have raised. */
module WebSearch {
  import opened Wrappers
  import opened Text
  import opened Config
  import opened Results

  /** One entry of a result's `sources` list. */
  datatype Source = Source(title: string, snippet: string, url: Option<string>)

  /** The dictionary that the search functions return. Keys that a given
      dictionary lacks are `None` (or empty for `abstract` and `sources`). */
  datatype SearchResult = SearchResult(
    success: bool,
    query: Option<string>,
    abstractText: string,
    sources: seq<Source>,
    summary: Option<string>,
    error: Option<string>,
    url: Option<string>)
  {
    /** Python's truthiness of `result.get('summary')`. */
    predicate HasSummary() {
      summary.Some? && summary.value != []
    }

    /** The same dictionary as the controller reads it. */
    function AsAction(): (r: ActionResult)
      ensures r.success == success && r.summary == summary && r.error == error
      ensures !r.requiresConfirmation && !r.stopRequested
    {
      ActionResult(success, summary, error, false, None, false)
    }
  }

  /** A successful search answer. */
  function Answer(query: string, abstractText: string, sources: seq<Source>, summary: string): SearchResult {
    SearchResult(true, Some(query), abstractText, sources, Some(summary), None, None)
  }

  /** `{'success': False, 'error': e}`. */
  function NoAnswer(e: string): SearchResult {
    SearchResult(false, None, "", [], None, Some(e), None)
  }

  // ---------------------------------------------------------------------
  // _truncate_text (web_search.py:351-366)

  /** The larger of three integers. */
  function Max3(a: int, b: int, c: int): int {
    if a >= b && a >= c then a else if b >= c then b else c
  }

  predicate IsSentenceEnd(c: char) {
    c == '.' || c == '!' || c == '?'
  }

  /** `max(cut.rfind('.'), cut.rfind('!'), cut.rfind('?'))`: the index of the
      last sentence-ending character, or -1 when there is none. */
  function SentenceEnd(cut: string): (r: int)
    ensures -1 <= r < |cut|
    ensures r >= 0 ==> IsSentenceEnd(cut[r])
    ensures forall k :: r < k < |cut| ==> !IsSentenceEnd(cut[k])
  {
    Max3(RFind(cut, '.'), RFind(cut, '!'), RFind(cut, '?'))
  }

  /** `s.rsplit(' ', 1)[0]`: everything before the last space, or all of `s`
      when it has none. */
  function BeforeLastSpace(s: string): (r: string)
    ensures r <= s
    ensures ' ' !in s ==> r == s
    ensures ' ' in s ==> |r| < |s| && s[|r|] == ' ' && ' ' !in s[|r| + 1..]
  {
    var k := RFind(s, ' ');
    if k < 0 then s else s[..k]
  }

  /** `_truncate_text(text, max_length)`. The float comparison
      `last > max_length * 0.7` is written `10 * last > 7 * max_length`. */
  function Truncate(text: string, maxLength: nat): (r: string)
    ensures |r| <= maxLength + 3
  {
    if |text| <= maxLength then text
    else
      var cut := text[..maxLength];
      var last := SentenceEnd(cut);
      if 10 * last > 7 * maxLength then cut[..last + 1]
      else BeforeLastSpace(cut) + "..."
  }

  /** A text that fits is returned unchanged. */
  lemma TruncateShort(text: string, maxLength: nat)
    requires |text| <= maxLength
    ensures Truncate(text, maxLength) == text
  {
  }

  /** When the last sentence end of the first `maxLength` characters lies
      beyond 70% of them, the result is the prefix up to and including it. */
  lemma TruncateAtSentence(text: string, maxLength: nat)
    requires |text| > maxLength
    requires 10 * SentenceEnd(text[..maxLength]) > 7 * maxLength
    ensures var r := Truncate(text, maxLength);
      r <= text && 0 < |r| <= maxLength && IsSentenceEnd(r[|r| - 1]) &&
      (forall k :: |r| <= k < maxLength ==> !IsSentenceEnd(text[k]))
  {
  }

  /** Otherwise the first `maxLength` characters are cut at their last space
      (kept whole when there is none) and "..." is appended. */
  lemma TruncateAtSpace(text: string, maxLength: nat)
    requires |text| > maxLength
    requires 10 * SentenceEnd(text[..maxLength]) <= 7 * maxLength
    ensures var r := Truncate(text, maxLength);
      |r| >= 3 && EndsWith(r, "...") && r[..|r| - 3] <= text &&
      ((|r| - 3 == maxLength && ' ' !in text[..maxLength]) ||
       (|r| - 3 < maxLength && text[|r| - 3] == ' ' && ' ' !in text[|r| - 2..maxLength]))
  {
    var cut := text[..maxLength];
    var b := BeforeLastSpace(cut);
    assert Truncate(text, maxLength) == b + "...";
    assert (b + "...")[..|b|] == b;
    if ' ' in cut {
      assert text[|b| + 1..maxLength] == cut[|b| + 1..];
    }
  }

  /** Truncation yields the empty string exactly for the empty text. */
  lemma TruncateEmptyIff(text: string, maxLength: nat)
    ensures Truncate(text, maxLength) == [] <==> text == []
  {
    if |text| > maxLength {
      var last := SentenceEnd(text[..maxLength]);
      if 10 * last > 7 * maxLength {
        assert |text[..maxLength][..last + 1]| == last + 1;
      } else {
        assert |BeforeLastSpace(text[..maxLength]) + "..."| >= 3;
      }
    }
  }

  // ---------------------------------------------------------------------
  // Summaries built from result lists (web_search.py:89-97, 203-211)

  function Snippets(rs: seq<Source>): (r: seq<string>)
    ensures |r| == |rs| && forall k :: 0 <= k < |rs| ==> r[k] == rs[k].snippet
  {
    seq(|rs|, k requires 0 <= k < |rs| => rs[k].snippet)
  }

  /** `'. '.join([r['snippet'] for r in results[:2]])`. */
  function SummaryText(rs: seq<Source>): string {
    Join(Snippets(Take(rs, 2)), ". ")
  }

  lemma JoinNonEmpty(parts: seq<string>, sep: string)
    requires |parts| > 0 && parts[0] != []
    ensures Join(parts, sep) != []
  {
  }

  /** A summary built from results whose first snippet is non-empty is
      non-empty, so such an answer passes `result.get('summary')`. */
  lemma SummaryTextNonEmpty(rs: seq<Source>)
    requires |rs| > 0 && rs[0].snippet != []
    ensures Truncate(SummaryText(rs), SearchSummaryLength) != []
  {
    JoinNonEmpty(Snippets(Take(rs, 2)), ". ");
    TruncateEmptyIff(SummaryText(rs), SearchSummaryLength);
  }

  /** The summary text is the first snippet, followed by `. ` and the
      second snippet when there is one; later results do not contribute. */
  lemma SummaryTextFirstTwo(rs: seq<Source>)
    requires |rs| > 0
    ensures |rs| == 1 ==> SummaryText(rs) == rs[0].snippet
    ensures |rs| >= 2 ==> SummaryText(rs) == rs[0].snippet + ". " + rs[1].snippet
  {
    var parts := Snippets(Take(rs, 2));
    if |rs| >= 2 {
      assert |parts| == 2 && parts[1..] == [rs[1].snippet];
      assert Join(parts[1..], ". ") == rs[1].snippet;
      assert Join(parts, ". ") == parts[0] + ". " + Join(parts[1..], ". ");
    }
  }

  // ---------------------------------------------------------------------
  // _bing_search (web_search.py:44-102)

  /** One `li.b_algo` element: the texts of its `h2` and `p` children, when
      it has them. */
  datatype BingItem = BingItem(title: Option<string>, snippet: Option<string>)

  /** What the Bing page yields: its result items and the text of the
      `div.b_rs` answer box, when there is one. */
  datatype BingPage = BingPage(items: seq<BingItem>, answerBox: Option<string>)

  /** An item that has both a title and a snippet element. */
  predicate BingUsable(it: BingItem) {
    it.title.Some? && it.snippet.Some?
  }

  /** The source recorded for a usable item. */
  function BingSourceOf(it: BingItem): Source
    requires BingUsable(it)
  {
    Source(Strip(it.title.value), Truncate(Strip(it.snippet.value), 100), None)
  }

  /** The sources the item loop appends: items missing a title or a snippet
      are skipped. */
  function BingSources(items: seq<BingItem>): (r: seq<Source>)
    ensures |r| <= |items|
    ensures forall k :: 0 <= k < |r| ==> r[k].url.None? && |r[k].snippet| <= 103
  {
    if items == [] then []
    else
      var it := items[0];
      var rest := BingSources(items[1..]);
      if BingUsable(it) then [BingSourceOf(it)] + rest else rest
  }

  /** The Bing sources are exactly those of the usable items: none when no
      item is usable, every usable item gives one, and each comes from one. */
  lemma BingSourcesExact(items: seq<BingItem>)
    ensures var r := BingSources(items);
      (r == [] <==> forall j :: 0 <= j < |items| ==> !BingUsable(items[j])) &&
      (forall j :: 0 <= j < |items| && BingUsable(items[j]) ==> BingSourceOf(items[j]) in r) &&
      (forall s :: s in r ==> exists j :: 0 <= j < |items| && BingUsable(items[j]) && s == BingSourceOf(items[j]))
  {
    BingEmptyIff(items);
    BingEveryUsable(items);
    BingEachFromUsable(items);
  }

  /** One item of the Bing loop. */
  lemma BingStep(items: seq<BingItem>)
    requires items != []
    ensures BingSources(items) ==
      (if BingUsable(items[0]) then [BingSourceOf(items[0])] else []) + BingSources(items[1..])
  {
  }

  lemma {:induction false} BingEmptyIff(items: seq<BingItem>)
    ensures BingSources(items) == [] <==> forall j :: 0 <= j < |items| ==> !BingUsable(items[j])
  {
    if items != [] {
      var tail := items[1..];
      BingStep(items);
      BingEmptyIff(tail);
      assert forall j :: 0 < j < |items| ==> items[j] == tail[j - 1];
    }
  }

  lemma {:induction false} BingEveryUsable(items: seq<BingItem>)
    ensures forall j :: 0 <= j < |items| && BingUsable(items[j]) ==> BingSourceOf(items[j]) in BingSources(items)
  {
    if items != [] {
      var tail := items[1..];
      BingStep(items);
      BingEveryUsable(tail);
      forall j | 0 < j < |items| && BingUsable(items[j])
        ensures BingSourceOf(items[j]) in BingSources(items)
      {
        assert items[j] == tail[j - 1];
      }
    }
  }

  lemma {:induction false} BingEachFromUsable(items: seq<BingItem>)
    ensures forall s :: s in BingSources(items) ==>
      exists j :: 0 <= j < |items| && BingUsable(items[j]) && s == BingSourceOf(items[j])
  {
    if items != [] {
      var tail := items[1..];
      BingStep(items);
      BingEachFromUsable(tail);
      forall s | s in BingSources(items)
        ensures exists j :: 0 <= j < |items| && BingUsable(items[j]) && s == BingSourceOf(items[j])
      {
        var head := if BingUsable(items[0]) then [BingSourceOf(items[0])] else [];
        assert s in head || s in BingSources(tail);
        if s in BingSources(tail) {
          var j :| 0 <= j < |tail| && BingUsable(tail[j]) && s == BingSourceOf(tail[j]);
          assert tail[j] == items[j + 1];
          assert BingUsable(items[j + 1]) && s == BingSourceOf(items[j + 1]);
        } else {
          assert BingUsable(items[0]) && s == BingSourceOf(items[0]);
        }
      }
    }
  }

  /** The item loop of web_search.py:57-74 over the first
      `MAX_SEARCH_RESULTS` items. */
  method CollectBingSources(items: seq<BingItem>) returns (results: seq<Source>)
    ensures results == BingSources(Take(items, MaxSearchResults))
  {
    var todo := Take(items, MaxSearchResults);
    results := [];
    var i := 0;
    while i < |todo|
      invariant 0 <= i <= |todo|
      invariant results + BingSources(todo[i..]) == BingSources(todo)
    {
      var it := todo[i];
      assert todo[i..][1..] == todo[i + 1..];
      if it.title.Some? && it.snippet.Some? {
        results := results + [BingSourceOf(it)];
      }
      i := i + 1;
    }
  }


  /** `_bing_search`: a non-empty answer box wins; otherwise the collected
      results give the abstract and summary; otherwise "No results found". */
  function BingSearch(query: string, page: Result<BingPage>): (r: SearchResult)
    ensures r.success ==> r.query == Some(query) && r.summary.Some? && |r.sources| <= MaxSearchResults
    ensures !r.success ==> r.summary.None?
  {
    match page
    case Failure(e) => NoAnswer(e)
    case Success(p) =>
      var results := BingSources(Take(p.items, MaxSearchResults));
      var answer := if p.answerBox.Some? then Strip(p.answerBox.value) else "";
      if answer != [] then
        Answer(query, answer, results, Truncate(answer, SearchSummaryLength))
      else if results != [] then
        Answer(query, SummaryText(results), results, Truncate(SummaryText(results), SearchSummaryLength))
      else NoAnswer("No results found")
  }

  /** Without an answer box, Bing answers exactly when some item had both
      a title and a snippet, and its summary is that of the first results. */
  lemma BingSummaryFromResults(query: string, page: Result<BingPage>)
    requires page.Success? && (page.value.answerBox.None? || Strip(page.value.answerBox.value) == [])
    ensures var results := BingSources(Take(page.value.items, MaxSearchResults));
      var r := BingSearch(query, page);
      (r.success <==> results != []) &&
      (results != [] ==> r.summary == Some(Truncate(SummaryText(results), SearchSummaryLength)) &&
                         r.sources == results)
  {
  }

  // ---------------------------------------------------------------------
  // _duckduckgo_search (web_search.py:104-153)

  /** An entry of `RelatedTopics`: `text` is `None` when the entry is not a
      dictionary holding a `Text` key. */
  datatype DdgTopic = DdgTopic(text: Option<string>, firstUrl: Option<string>)

  /** The decoded instant-answer JSON; a missing key reads as empty. */
  datatype DdgAnswer = DdgAnswer(abstractText: string, definition: string, answer: string, relatedTopics: seq<DdgTopic>)

  /** `url.split('/')[-1].replace('_', ' ')`: the last path segment, with
      underscores read as spaces. */
  function UrlTitle(url: string): (r: string)
    ensures '_' !in r && '/' !in r
  {
    var seg := url[RFind(url, '/') + 1..];
    AfterLast(url, '/');
    ReplaceKeeps(seg, '_', " ", '/');
    Replace(seg, '_', " ")
  }

  /** The title has one character per character after the last '/', each
      the same except that '_' reads as a space. */
  lemma UrlTitleSegment(url: string)
    ensures var r := UrlTitle(url); var i := RFind(url, '/');
      |r| == |url| - (i + 1) &&
      forall k :: 0 <= k < |r| ==> r[k] == (if url[i + 1 + k] == '_' then ' ' else url[i + 1 + k])
  {
    var i := RFind(url, '/');
    var seg := url[i + 1..];
    var r := UrlTitle(url);
    assert r == Replace(seg, '_', " ");
    UnderscoresAsSpaces(seg);
    forall k | 0 <= k < |r|
      ensures r[k] == (if url[i + 1 + k] == '_' then ' ' else url[i + 1 + k])
    {
      assert seg[k] == url[i + 1 + k];
    }
  }

  lemma UnderscoresAsSpaces(seg: string)
    ensures |Replace(seg, '_', " ")| == |seg|
    ensures forall k :: 0 <= k < |seg| ==> Replace(seg, '_', " ")[k] == (if seg[k] == '_' then ' ' else seg[k])
  {
    assert " " == [' '];
    ReplaceCharwise(seg, '_', ' ');
  }

  lemma AfterLast(s: string, c: char)
    ensures c !in s[RFind(s, c) + 1..]
  {
    var r := RFind(s, c);
    var tail := s[r + 1..];
    forall k | 0 <= k < |tail|
      ensures tail[k] != c
    {
      assert tail[k] == s[r + 1 + k];
    }
  }

  lemma {:induction false} ReplaceKeeps(s: string, c: char, rep: string, d: char)
    requires d !in s && d !in rep
    ensures d !in Replace(s, c, rep)
  {
    if s != [] {
      assert d !in s[1..];
      ReplaceKeeps(s[1..], c, rep, d);
    }
  }

  /** An entry that is a dictionary holding a `Text` key. */
  predicate DdgUsable(t: DdgTopic) {
    t.text.Some?
  }

  /** The source recorded for a usable entry. */
  function DdgSourceOf(t: DdgTopic): Source
    requires DdgUsable(t)
  {
    var url := t.firstUrl.GetOr("");
    Source(UrlTitle(url), Truncate(t.text.value, 100), Some(url))
  }

  /** The sources the related-topic loop appends. */
  function DdgSources(topics: seq<DdgTopic>): (r: seq<Source>)
    ensures |r| <= |topics|
    ensures forall k :: 0 <= k < |r| ==> r[k].url.Some? && '_' !in r[k].title && |r[k].snippet| <= 103
  {
    if topics == [] then []
    else
      var t := topics[0];
      var rest := DdgSources(topics[1..]);
      if t.text.Some? then
        var url := t.firstUrl.GetOr("");
        [Source(UrlTitle(url), Truncate(t.text.value, 100), Some(url))] + rest
      else rest
  }

  /** The DuckDuckGo sources are exactly those of the entries with a `Text`
      key: none when there is no such entry, one for each, each from one. */
  lemma DdgSourcesExact(topics: seq<DdgTopic>)
    ensures var r := DdgSources(topics);
      (r == [] <==> forall j :: 0 <= j < |topics| ==> !DdgUsable(topics[j])) &&
      (forall j :: 0 <= j < |topics| && DdgUsable(topics[j]) ==> DdgSourceOf(topics[j]) in r) &&
      (forall s :: s in r ==> exists j :: 0 <= j < |topics| && DdgUsable(topics[j]) && s == DdgSourceOf(topics[j]))
  {
    DdgEmptyIff(topics);
    DdgEveryUsable(topics);
    DdgEachFromUsable(topics);
  }

  /** One entry of the related-topic loop. */
  lemma DdgStep(topics: seq<DdgTopic>)
    requires topics != []
    ensures DdgSources(topics) ==
      (if DdgUsable(topics[0]) then [DdgSourceOf(topics[0])] else []) + DdgSources(topics[1..])
  {
  }

  lemma {:induction false} DdgEmptyIff(topics: seq<DdgTopic>)
    ensures DdgSources(topics) == [] <==> forall j :: 0 <= j < |topics| ==> !DdgUsable(topics[j])
  {
    if topics != [] {
      var tail := topics[1..];
      DdgStep(topics);
      DdgEmptyIff(tail);
      assert forall j :: 0 < j < |topics| ==> topics[j] == tail[j - 1];
    }
  }

  lemma {:induction false} DdgEveryUsable(topics: seq<DdgTopic>)
    ensures forall j :: 0 <= j < |topics| && DdgUsable(topics[j]) ==> DdgSourceOf(topics[j]) in DdgSources(topics)
  {
    if topics != [] {
      var tail := topics[1..];
      DdgStep(topics);
      DdgEveryUsable(tail);
      var head := if DdgUsable(topics[0]) then [DdgSourceOf(topics[0])] else [];
      var rest := DdgSources(tail);
      assert DdgSources(topics) == head + rest;
      forall j | 0 <= j < |topics| && DdgUsable(topics[j])
        ensures DdgSourceOf(topics[j]) in DdgSources(topics)
      {
        if j == 0 {
          assert DdgSourceOf(topics[0]) in head;
        } else {
          assert topics[j] == tail[j - 1];
          assert DdgSourceOf(tail[j - 1]) in rest;
        }
      }
    }
  }

  lemma {:induction false} DdgEachFromUsable(topics: seq<DdgTopic>)
    ensures forall s :: s in DdgSources(topics) ==>
      exists j :: 0 <= j < |topics| && DdgUsable(topics[j]) && s == DdgSourceOf(topics[j])
  {
    if topics != [] {
      var tail := topics[1..];
      DdgStep(topics);
      DdgEachFromUsable(tail);
      forall s | s in DdgSources(topics)
        ensures exists j :: 0 <= j < |topics| && DdgUsable(topics[j]) && s == DdgSourceOf(topics[j])
      {
        var head := if DdgUsable(topics[0]) then [DdgSourceOf(topics[0])] else [];
        assert s in head || s in DdgSources(tail);
        if s in DdgSources(tail) {
          var j :| 0 <= j < |tail| && DdgUsable(tail[j]) && s == DdgSourceOf(tail[j]);
          assert tail[j] == topics[j + 1];
          assert DdgUsable(topics[j + 1]) && s == DdgSourceOf(topics[j + 1]);
        } else {
          assert DdgUsable(topics[0]) && s == DdgSourceOf(topics[0]);
        }
      }
    }
  }

  /** The related-topic loop of web_search.py:138-145 over the first
      `MAX_SEARCH_RESULTS` entries. */
  method CollectDdgSources(topics: seq<DdgTopic>) returns (sources: seq<Source>)
    ensures sources == DdgSources(Take(topics, MaxSearchResults))
  {
    var todo := Take(topics, MaxSearchResults);
    sources := [];
    for i := 0 to |todo|
      invariant sources + DdgSources(todo[i..]) == DdgSources(todo)
    {
      var t := todo[i];
      assert todo[i..][1..] == todo[i + 1..];
      if t.text.Some? {
        var url := t.firstUrl.GetOr("");
        sources := sources + [Source(UrlTitle(url), Truncate(t.text.value, 100), Some(url))];
      }
    }
  }

  /** The instant answer: AbstractText, else Definition, else Answer. */
  function DdgAbstract(d: DdgAnswer): string {
    if d.abstractText != [] then d.abstractText
    else if d.definition != [] then d.definition
    else d.answer
  }

  function DuckDuckGoSearch(query: string, data: Result<DdgAnswer>): (r: SearchResult)
    ensures r.success ==> r.query == Some(query) && r.HasSummary() && |r.sources| <= MaxSearchResults
  {
    match data
    case Failure(e) => NoAnswer(e)
    case Success(d) =>
      var abs := DdgAbstract(d);
      if abs != [] then
        TruncateEmptyIff(abs, SearchSummaryLength);
        Answer(query, abs, DdgSources(Take(d.relatedTopics, MaxSearchResults)), Truncate(abs, SearchSummaryLength))
      else NoAnswer("No instant answer available")
  }

  /** Field precedence: the answer is the first non-empty of AbstractText,
      Definition and Answer, and the search fails exactly when all three are
      empty. */
  lemma DuckDuckGoPrecedence(query: string, d: DdgAnswer)
    ensures var r := DuckDuckGoSearch(query, Success(d));
      (r.success <==> d.abstractText != [] || d.definition != [] || d.answer != []) &&
      (d.abstractText != [] ==> r.abstractText == d.abstractText) &&
      (d.abstractText == [] && d.definition != [] ==> r.abstractText == d.definition) &&
      (d.abstractText == [] && d.definition == [] ==> r.abstractText == d.answer) &&
      (!r.success ==> r.error == Some("No instant answer available"))
  {
  }

  // ---------------------------------------------------------------------
  // _google_search_fallback (web_search.py:155-216)

  /** What the Google page yields: the text of the featured-snippet element,
      when one is found, and the texts of the `BNeawe`/`VwiC3b` elements in
      document order. */
  datatype GooglePage = GooglePage(featured: Option<string>, texts: seq<string>)

  /** A text that the loop takes for a title: shorter than 100 characters and
      not ending in a period. */
  predicate LooksLikeTitle(text: string) {
    |text| < 100 && !EndsWith(text, ".")
  }

  /** The pairs the loop emits from `texts[i..]`, given the pending title and
      the number of results still allowed. */
  function Pairing(texts: seq<string>, i: nat, title: Option<string>, budget: nat): (r: seq<Source>)
    requires i <= |texts|
    ensures |r| <= budget
    decreases |texts| - i
  {
    if i == |texts| || budget == 0 then []
    else
      var text := Strip(texts[i]);
      if text == [] then Pairing(texts, i + 1, title, budget)
      else if LooksLikeTitle(text) then Pairing(texts, i + 1, Some(text), budget)
      else if title.Some? && |text| > 20 then
        [Source(title.value, Truncate(text, 100), None)] + Pairing(texts, i + 1, None, budget - 1)
      else Pairing(texts, i + 1, title, budget)
  }

  /** The pairing loop of web_search.py:184-201. */
  method PairResults(texts: seq<string>) returns (results: seq<Source>)
    ensures results == Pairing(texts, 0, None, MaxSearchResults)
  {
    var title: Option<string> := None;
    results := [];
    var i := 0;
    while i < |texts|
      invariant 0 <= i <= |texts| && |results| < MaxSearchResults
      invariant results + Pairing(texts, i, title, MaxSearchResults - |results|) == Pairing(texts, 0, None, MaxSearchResults)
    {
      var text := Strip(texts[i]);
      i := i + 1;
      if text == [] {
        continue;
      }
      if LooksLikeTitle(text) {
        title := Some(text);
      } else if title.Some? && |text| > 20 {
        results := results + [Source(title.value, Truncate(text, 100), None)];
        title := None;
        if |results| >= MaxSearchResults {
          break;
        }
      }
    }
  }

  /** Source `s` was paired from the page: its title is the stripped text of
      an element `j` that looks like a title, and its snippet is the truncated
      stripped text of a later element `k` of more than 20 characters. */
  predicate PairedFrom(texts: seq<string>, s: Source) {
    exists j, k :: 0 <= j < k < |texts| && Strip(texts[j]) == s.title &&
      |Strip(texts[k])| > 20 && s.snippet == Truncate(Strip(texts[k]), 100)
  }

  /** A pair that the Google loop could have emitted from `texts`. */
  predicate WellPaired(texts: seq<string>, s: Source) {
    s.title != [] && LooksLikeTitle(s.title) && PairedFrom(texts, s)
  }

  predicate AllWellPaired(texts: seq<string>, srcs: seq<Source>) {
    forall s :: s in srcs ==> WellPaired(texts, s)
  }

  /** Every pair the Google loop emits has a non-empty title that looks like
      a title, taken from an earlier element than its snippet. */
  lemma PairingProvenance(texts: seq<string>)
    ensures forall s :: s in Pairing(texts, 0, None, MaxSearchResults) ==>
      s.title != [] && LooksLikeTitle(s.title) && PairedFrom(texts, s)
  {
    ProvenanceFrom(texts, 0, None, 0, MaxSearchResults);
    var ps := Pairing(texts, 0, None, MaxSearchResults);
    forall s | s in ps ensures s.title != [] && LooksLikeTitle(s.title) && PairedFrom(texts, s) {
      assert WellPaired(texts, s);
    }
  }

  /** The same from element `i` on, with the pending title read from element `jt`. */
  lemma {:induction false} ProvenanceFrom(texts: seq<string>, i: nat, title: Option<string>, jt: nat, budget: nat)
    requires i <= |texts|
    requires title.Some? ==>
      title.value != [] && LooksLikeTitle(title.value) && jt < i && Strip(texts[jt]) == title.value
    ensures AllWellPaired(texts, Pairing(texts, i, title, budget))
    decreases |texts| - i
  {
    if i < |texts| && budget > 0 {
      var text := Strip(texts[i]);
      PairingStep(texts, i, title, budget);
      if text == [] {
        ProvenanceFrom(texts, i + 1, title, jt, budget);
      } else if LooksLikeTitle(text) {
        ProvenanceFrom(texts, i + 1, Some(text), i, budget);
      } else if title.Some? && |text| > 20 {
        EmittedPair(texts, jt, i, title.value);
        ProvenanceFrom(texts, i + 1, None, 0, budget - 1);
        WellPairedCons(texts, Source(title.value, Truncate(text, 100), None), Pairing(texts, i + 1, None, budget - 1));
      } else {
        ProvenanceFrom(texts, i + 1, title, jt, budget);
      }
    }
  }

  lemma WellPairedCons(texts: seq<string>, s0: Source, rest: seq<Source>)
    requires WellPaired(texts, s0) && AllWellPaired(texts, rest)
    ensures AllWellPaired(texts, [s0] + rest)
  {
    forall s | s in [s0] + rest ensures WellPaired(texts, s) {
      if s != s0 { assert s in rest; }
    }
  }

  /** One element of the pairing loop. */
  lemma PairingStep(texts: seq<string>, i: nat, title: Option<string>, budget: nat)
    requires i < |texts| && budget > 0
    ensures var text := Strip(texts[i]);
      (text == [] ==> Pairing(texts, i, title, budget) == Pairing(texts, i + 1, title, budget)) &&
      (text != [] && LooksLikeTitle(text) ==>
         Pairing(texts, i, title, budget) == Pairing(texts, i + 1, Some(text), budget)) &&
      (text != [] && !LooksLikeTitle(text) && title.Some? && |text| > 20 ==>
         Pairing(texts, i, title, budget) ==
           [Source(title.value, Truncate(text, 100), None)] + Pairing(texts, i + 1, None, budget - 1)) &&
      (text != [] && !LooksLikeTitle(text) && !(title.Some? && |text| > 20) ==>
         Pairing(texts, i, title, budget) == Pairing(texts, i + 1, title, budget))
  {
  }

  lemma EmittedPair(texts: seq<string>, j: nat, i: nat, title: string)
    requires j < i < |texts| && |Strip(texts[i])| > 20 && Strip(texts[j]) == title
    requires title != [] && LooksLikeTitle(title)
    ensures WellPaired(texts, Source(title, Truncate(Strip(texts[i]), 100), None))
  {
  }


  /** Every emitted snippet is non-empty. */
  lemma {:induction false} PairingSnippets(texts: seq<string>, i: nat, title: Option<string>, budget: nat)
    requires i <= |texts|
    ensures forall s :: s in Pairing(texts, i, title, budget) ==> s.snippet != [] && |s.snippet| <= 103
    decreases |texts| - i
  {
    if i < |texts| && budget > 0 {
      var text := Strip(texts[i]);
      TruncateEmptyIff(text, 100);
      if text == [] {
        PairingSnippets(texts, i + 1, title, budget);
      } else if LooksLikeTitle(text) {
        PairingSnippets(texts, i + 1, Some(text), budget);
      } else if title.Some? && |text| > 20 {
        PairingSnippets(texts, i + 1, None, budget - 1);
      } else {
        PairingSnippets(texts, i + 1, title, budget);
      }
    }
  }

  /** `_google_search_fallback`: a non-empty featured snippet wins; otherwise
      the paired results give the abstract and summary; otherwise "No search
      results found". */
  function GoogleSearch(query: string, page: Result<GooglePage>): (r: SearchResult)
    ensures r.success ==> r.query == Some(query) && r.summary.Some?
  {
    match page
    case Failure(e) => NoAnswer(e)
    case Success(p) =>
      var featured := if p.featured.Some? then Strip(p.featured.value) else "";
      if featured != [] then
        Answer(query, featured, [Source("Featured Result", featured, None)], Truncate(featured, SearchSummaryLength))
      else
        var results := Pairing(p.texts, 0, None, MaxSearchResults);
        if results != [] then
          Answer(query, SummaryText(results), results, Truncate(SummaryText(results), SearchSummaryLength))
        else NoAnswer("No search results found")
  }

  /** A successful Google answer always carries a non-empty summary, and
      at most `MAX_SEARCH_RESULTS` sources. */
  lemma GoogleAnswerHasSummary(query: string, page: Result<GooglePage>)
    ensures var r := GoogleSearch(query, page);
      r.success ==> r.HasSummary() && |r.sources| <= MaxSearchResults
  {
    if page.Success? {
      var p := page.value;
      var featured := if p.featured.Some? then Strip(p.featured.value) else "";
      TruncateEmptyIff(featured, SearchSummaryLength);
      if featured == [] {
        var results := Pairing(p.texts, 0, None, MaxSearchResults);
        PairingSnippets(p.texts, 0, None, MaxSearchResults);
        if results != [] {
          assert results[0] in results;
          SummaryTextNonEmpty(results);
        }
      }
    }
  }

  // ---------------------------------------------------------------------
  // Wikipedia (web_search.py:218-301)

  datatype WikiArticle = WikiArticle(summary: string, url: string)

  /** What a `wikipedia.summary`/`wikipedia.page` lookup does: find the
      article, raise `DisambiguationError` with its options (and then the
      lookup of the first option), raise `PageError`, or raise anything
      else. */
  datatype WikiLookup =
    | WikiHit(article: WikiArticle)
    | WikiAmbiguous(options: seq<string>, firstOption: Option<WikiArticle>)
    | WikiPageMissing
    | WikiError(message: string)

  /** A disambiguation whose first option could be looked up (`e.options[0]`
      raises on an empty option list). */
  predicate Resolved(lookup: WikiLookup) {
    lookup.WikiAmbiguous? && |lookup.options| > 0 && lookup.firstOption.Some?
  }

  /** `_wikipedia_fallback`. An ambiguous query falls back to the first
      option; when there is none, or it fails too, the search has failed. */
  function WikipediaFallback(query: string, lookup: WikiLookup): (r: SearchResult)
    ensures r.HasSummary() || r.success
    ensures !r.success ==> r.summary == Some("I couldn't find reliable information about '" + query + "'. Please try rephrasing your search.")
  {
    if lookup.WikiHit? then
      var a := lookup.article;
      Answer(query, a.summary, [Source("Wikipedia", a.summary, None)], Truncate(a.summary, SearchSummaryLength))
    else if Resolved(lookup) then
      var a := lookup.firstOption.value;
      Answer(query, a.summary, [Source("Wikipedia - " + lookup.options[0], a.summary, None)], Truncate(a.summary, SearchSummaryLength))
    else
      SearchResult(false, None, "", [], Some("I couldn't find reliable information about '" + query + "'. Please try rephrasing your search."),
        Some("No information found"), None)
  }

  /** `search_wikipedia`, the dedicated lookup: every outcome carries a
      summary, and each failure names the query. */
  function SearchWikipedia(query: string, lookup: WikiLookup): (r: SearchResult)
    ensures r.summary.Some?
    ensures r.success <==> lookup.WikiHit? || Resolved(lookup)
  {
    match lookup
    case WikiHit(a) =>
      SearchResult(true, Some(query), "", [], Some(a.summary), None, Some(a.url))
    case WikiAmbiguous(options, first) =>
      if Resolved(lookup) then
        SearchResult(true, Some(query), "", [], Some("Found information about " + options[0] + ": " + first.value.summary),
          None, Some(first.value.url))
      else
        SearchResult(false, None, "", [], Some("I found multiple topics for '" + query + "'. Could you be more specific?"),
          Some("Multiple topics found"), None)
    case WikiPageMissing =>
      SearchResult(false, None, "", [], Some("I couldn't find a Wikipedia page for '" + query + "'."), Some("Page not found"), None)
    case WikiError(e) =>
      SearchResult(false, None, "", [], Some("Error searching Wikipedia for '" + query + "'."), Some(e), None)
  }

  // ---------------------------------------------------------------------
  // search_web (web_search.py:15-42)

  /** What each backend yields for one query. */
  datatype Backends = Backends(
    bing: Result<BingPage>,
    duckDuckGo: Result<DdgAnswer>,
    google: Result<GooglePage>,
    wikipedia: WikiLookup)

  /** The fallback order over the four backend results. */
  function Fallback(bing: SearchResult, ddg: SearchResult, google: SearchResult, wiki: SearchResult): SearchResult {
    if bing.success && bing.HasSummary() then bing
    else if ddg.success && ddg.HasSummary() then ddg
    else if google.success then google
    else wiki
  }

  /** `search_web`. */
  function SearchWeb(query: string, b: Backends): SearchResult {
    Fallback(BingSearch(query, b.bing), DuckDuckGoSearch(query, b.duckDuckGo),
      GoogleSearch(query, b.google), WikipediaFallback(query, b.wikipedia))
  }

  /** The result is the first backend's answer that passes its test, and the
      Wikipedia fallback only when none does. */
  lemma FallbackOrder(bing: SearchResult, ddg: SearchResult, google: SearchResult, wiki: SearchResult)
    ensures var r := Fallback(bing, ddg, google, wiki);
      (bing.success && bing.HasSummary() ==> r == bing) &&
      (!(bing.success && bing.HasSummary()) && ddg.success && ddg.HasSummary() ==> r == ddg) &&
      (!(bing.success && bing.HasSummary()) && !(ddg.success && ddg.HasSummary()) && google.success ==> r == google) &&
      (!(bing.success && bing.HasSummary()) && !(ddg.success && ddg.HasSummary()) && !google.success ==> r == wiki)
  {
  }

  /** Every search answer passes the caller's `success and summary` test
      unless it is the Wikipedia fallback's, and a failed search always
      explains itself. */
  lemma SearchWebAnswers(query: string, b: Backends)
    ensures var r := SearchWeb(query, b);
      (r.HasSummary() || (r.success && r == WikipediaFallback(query, b.wikipedia))) &&
      (!r.success ==> r == WikipediaFallback(query, b.wikipedia)) &&
      (r.success && r != WikipediaFallback(query, b.wikipedia) ==> r.query == Some(query))
  {
    GoogleAnswerHasSummary(query, b.google);
  }

  // ---------------------------------------------------------------------
  // get_news_headlines (web_search.py:303-349)

  /** One RSS `item`: the texts of its `title` and `description`, when present. */
  datatype FeedItem = FeedItem(title: Option<string>, description: Option<string>)

  datatype Headline = Headline(title: string, description: string)

  datatype NewsResult = NewsResult(success: bool, headlines: seq<Headline>, summary: string, topic: Option<string>, error: Option<string>)
  {
    function AsAction(): (r: ActionResult)
      ensures r.success == success && r.summary == Some(summary) && r.error == error
      ensures !r.requiresConfirmation && !r.stopRequested
    {
      ActionResult(success, Some(summary), error, false, None, false)
    }
  }

  const TechnologyFeed := "https://feeds.bbci.co.uk/news/technology/rss.xml"

  const Feeds: map<string, string> := map[
    "technology" := TechnologyFeed,
    "science" := "https://feeds.bbci.co.uk/news/science_and_environment/rss.xml",
    "business" := "https://feeds.bbci.co.uk/news/business/rss.xml",
    "world" := "https://feeds.bbci.co.uk/news/world/rss.xml"]

  /** `rss_feeds.get(topic.lower(), rss_feeds['technology'])`. */
  function FeedUrl(topic: string): (r: string)
    ensures r in Feeds.Values
  {
    var key := Lower(topic);
    assert "technology" in Feeds;
    if key in Feeds then Feeds[key] else TechnologyFeed
  }

  /** Topics are matched case-insensitively, and an unknown topic reads the
      technology feed. */
  lemma FeedUrlKnown(topic: string)
    ensures Lower(topic) in Feeds ==> FeedUrl(topic) == Feeds[Lower(topic)]
    ensures Lower(topic) !in Feeds ==> FeedUrl(topic) == Feeds["technology"]
    ensures FeedUrl(Lower(topic)) == FeedUrl(topic)
  {
    LowerIdempotent(topic);
  }

  /** One headline: the title, or "No title" without one; the description,
      or empty without one, truncated to 100 characters. */
  function HeadlineOf(item: FeedItem): (h: Headline)
    ensures item.title.Some? ==> h.title == item.title.value
    ensures item.title.None? ==> h.title == "No title"
    ensures |h.description| <= 103
    ensures h.description == [] <==> item.description.None? || item.description.value == []
    ensures item.description.Some? && |item.description.value| <= 100 ==> h.description == item.description.value
  {
    TruncateEmptyIff(item.description.GetOr(""), 100);
    Headline(item.title.GetOr("No title"), Truncate(item.description.GetOr(""), 100))
  }

  /** The headlines the item loop collects: one per item, in feed order. */
  function Headlines(items: seq<FeedItem>): (r: seq<Headline>)
    ensures |r| == |items| && forall k :: 0 <= k < |items| ==> r[k] == HeadlineOf(items[k])
  {
    seq(|items|, k requires 0 <= k < |items| => HeadlineOf(items[k]))
  }

  /** The item loop of web_search.py:318-326 over the first five items. */
  method CollectHeadlines(items: seq<FeedItem>) returns (headlines: seq<Headline>)
    ensures headlines == Headlines(Take(items, 5))
  {
    var todo := Take(items, 5);
    headlines := [];
    for i := 0 to |todo|
      invariant headlines == Headlines(todo[..i])
    {
      headlines := headlines + [HeadlineOf(todo[i])];
    }
    assert todo[..|todo|] == todo;
  }

  function Titles(hs: seq<Headline>): (r: seq<string>)
    ensures |r| == |hs| && forall k :: 0 <= k < |hs| ==> r[k] == hs[k].title
  {
    seq(|hs|, k requires 0 <= k < |hs| => hs[k].title)
  }

  function NewsFailure(topic: string): string {
    "I couldn't fetch " + topic + " news right now."
  }

  /** `get_news_headlines(topic)`, given what fetching each feed URL yields. */
  function GetNewsHeadlines(topic: string, fetch: string -> Result<seq<FeedItem>>): (r: NewsResult)
    ensures |r.headlines| <= 5
  {
    match fetch(FeedUrl(topic))
    case Failure(e) => NewsResult(false, [], NewsFailure(topic), None, Some(e))
    case Success(items) =>
      var hs := Headlines(Take(items, 5));
      if hs != [] then
        NewsResult(true, hs, "Here are the latest " + topic + " headlines: " + Join(Titles(Take(hs, 3)), ". "), Some(topic), None)
      else NewsResult(false, [], NewsFailure(topic), None, None)
  }

  /** The news answer succeeds exactly when the feed has items; it then keeps
      the first five and its summary lists the titles of the first three. */
  lemma NewsSummary(topic: string, fetch: string -> Result<seq<FeedItem>>)
    ensures var r := GetNewsHeadlines(topic, fetch);
      (r.success <==> fetch(FeedUrl(topic)).Success? && fetch(FeedUrl(topic)).value != []) &&
      (r.success ==>
        r.headlines == Headlines(Take(fetch(FeedUrl(topic)).value, 5)) &&
        r.summary == "Here are the latest " + topic + " headlines: " + Join(Titles(Take(r.headlines, 3)), ". ")) &&
      (!r.success ==> r.summary == NewsFailure(topic))
  {
  }
}
