/** The intent classifier and the confirmation gate of `NLPProcessor`.

    A command is lower-cased and stripped, then every pattern of the intent
    table is searched for, intent by intent in table order and pattern by
    pattern in list order; the first that is found decides the intent, and
    its captures fill in the entities.  Text that no pattern finds is a
    general query. */
module Nlp {
  import opened Wrappers
  import opened Text
  import opened Patterns

  datatype Intent =
    | WebSearch | OpenApp | CloseApp | SystemInfo | Screenshot | VolumeControl
    | Time | Date | Weather | Wikipedia | SpotifyControl | StopListening
    | Help | Greeting | ListProcesses | GeneralQuery
  {
    /** The intent's name, as the registry and the handlers know it. */
    function Name(): string {
      match this
      case WebSearch => "web_search"
      case OpenApp => "open_app"
      case CloseApp => "close_app"
      case SystemInfo => "system_info"
      case Screenshot => "screenshot"
      case VolumeControl => "volume_control"
      case Time => "time"
      case Date => "date"
      case Weather => "weather"
      case Wikipedia => "wikipedia"
      case SpotifyControl => "spotify_control"
      case StopListening => "stop_listening"
      case Help => "help"
      case Greeting => "greeting"
      case ListProcesses => "list_processes"
      case GeneralQuery => "general_query"
    }
  }

  /** The intents of the pattern table, in the table's insertion order. */
  const TableOrder: seq<Intent> := [
    WebSearch, OpenApp, CloseApp, SystemInfo, Screenshot, VolumeControl,
    Time, Date, Weather, Wikipedia, SpotifyControl, StopListening,
    Help, Greeting, ListProcesses
  ]

  /** `kw (.+)`. */
  function Kw(kw: string): Pattern {
    Pattern([kw], Rest)
  }

  /** The pattern list of each intent, in list order. */
  function PatternsFor(i: Intent): seq<Pattern> {
    match i
    case WebSearch => [
      Pattern(["search the web for ", "search google for ", "search internet for ", "search for "], Rest),
      Kw("look up "),
      Pattern(["find information about ", "find info about ", "find "], Rest),
      Kw("what is "), Kw("who is "), Kw("tell me about "), Kw("google "),
      Kw("search "), Kw("find ")]
    case OpenApp => [Kw("open "), Kw("launch "), Kw("start "), Kw("run ")]
    case CloseApp => [Kw("close "), Kw("quit "), Kw("exit "), Kw("stop "), Kw("kill "), Kw("end ")]
    case SystemInfo => [
      // `system info(?:rmation)?`, `computer specs?` and `hardware info(?:rmation)?`
      // are found exactly where their mandatory part is.
      Lit("system info"), Lit("computer spec"), Lit("hardware info"), Lit("memory usage"),
      Lit("cpu usage"), Lit("system status"), Lit("computer status")]
    case Screenshot => [
      Lit("take a screenshot"), Lit("capture screen"), Lit("screenshot"),
      Lit("screen capture"), Lit("capture my screen")]
    case VolumeControl => [
      Pattern(["set volume to ", "change volume to ", "volume to "], DigitRun),
      Pattern(["turn volume up", "turn volume down", "set volume up", "set volume down",
               "volume up", "volume down"], Done),
      Pattern(["increase the volume", "increase volume", "raise the volume", "raise volume"], Done),
      Pattern(["decrease the volume", "decrease volume", "lower the volume", "lower volume"], Done),
      Lit("mute"), Lit("unmute"), Lit("volume up"), Lit("volume down")]
    case Time => [
      Lit("what time is it"), Lit("current time"), Lit("tell me the time"),
      Lit("what's the time"), Lit("time please")]
    case Date => [
      Pattern(["what's the date", "what's today's date", "what's date",
               "what is the date", "what is today's date", "what is date"], Done),
      Lit("today's date"), Lit("what day is it"), Lit("what's today"), Lit("date please")]
    case Weather => [
      Pattern(["weather"], InClause), Pattern(["what's the weather"], InClause),
      Pattern(["temperature"], InClause), Lit("how's the weather")]
    case Wikipedia => [Kw("wikipedia "), Kw("wiki "), Kw("summary of "), Kw("wikipedia search ")]
    case SpotifyControl => [
      Lit("play spotify"), Lit("pause spotify"), Lit("stop spotify"), Lit("resume spotify"),
      Lit("start spotify"),
      Lit("next song"), Lit("skip song"), Lit("previous song"), Lit("spotify next"),
      Lit("spotify skip"), Lit("spotify previous"),
      Pattern(["play ", "search "], RestBefore([" on spotify", " spotify"])),
      Pattern(["spotify play ", "spotify search "], Rest),
      Pattern(["play "], RestBefore([" on spotify"])),
      Kw("spotify "),
      Lit("play music")]
    case StopListening => [
      Lit("stop listening"), Lit("stop"), Lit("exit"), Lit("quit"), Lit("goodbye"),
      Lit("bye"), Lit("shutdown"), Lit("turn off")]
    case Help => [
      Lit("help"), Lit("what can you do"), Lit("commands"), Lit("capabilities"),
      Lit("what are your commands"), Lit("show commands"), Lit("list commands")]
    case Greeting => [
      Lit("hello"), Lit("hi"), Lit("hey"), Lit("good morning"), Lit("good afternoon"),
      Lit("good evening"), Lit("howdy"), Lit("what's up")]
    case ListProcesses => [
      Lit("list processes"), Lit("show running processes"), Lit("what processes are running"),
      Lit("debug processes"), Lit("running programs"), Lit("active processes")]
    case GeneralQuery => []
  }

  /** The pattern lists of the table, one per intent of `TableOrder`. */
  function PatternTable(): (r: seq<seq<Pattern>>)
    ensures |r| == |TableOrder|
    ensures forall a :: 0 <= a < |r| ==> r[a] == PatternsFor(TableOrder[a])
  {
    seq(|TableOrder|, a requires 0 <= a < |TableOrder| => PatternsFor(TableOrder[a]))
  }

  /** Pattern `b` of list `a` of `tbl` is found in `t`. */
  predicate Matches(tbl: seq<seq<Pattern>>, t: string, a: int, b: int) {
    0 <= a < |tbl| && 0 <= b < |tbl[a]| && Search(tbl[a][b], t).Some?
  }

  /** `(a, b)` comes before `(c, d)` in the order the table is scanned. */
  predicate Before(a: int, b: int, c: int, d: int) {
    a < c || (a == c && b < d)
  }

  /** The first pattern found, by its position in the table. */
  datatype Hit = Hit(index: nat, pattern: nat, captures: Captures)

  /** The scan of the table from list `a`, pattern `b`, on: the nested loop
      with its early return. */
  function FirstMatch(tbl: seq<seq<Pattern>>, t: string, a: nat, b: nat): (r: Option<Hit>)
    requires a <= |tbl|
    ensures r.Some? ==> Matches(tbl, t, r.value.index, r.value.pattern) &&
                        !Before(r.value.index, r.value.pattern, a, b) &&
                        Search(tbl[r.value.index][r.value.pattern], t) == Some(r.value.captures)
    ensures forall c, d :: !Before(c, d, a, b) &&
                           (r.None? || Before(c, d, r.value.index, r.value.pattern)) ==>
                           !Matches(tbl, t, c, d)
    decreases |tbl| - a, if a < |tbl| then |tbl[a]| - b else 0
  {
    if a == |tbl| then None
    else if b >= |tbl[a]| then FirstMatch(tbl, t, a + 1, 0)
    else match Search(tbl[a][b], t)
      case Some(c) => Some(Hit(a, b, c))
      case None => FirstMatch(tbl, t, a, b + 1)
  }

  /** The scan of the whole table over the normalised text. */
  function Scan(n: string): Option<Hit> {
    FirstMatch(PatternTable(), n, 0, 0)
  }

  /** The entity map of a classification; a key the code does not set is `None`. */
  datatype Entities = Entities(
    query: Option<string>,
    appName: Option<string>,
    action: Option<string>,
    level: Option<int>,
    location: Option<string>)

  const NoEntities := Entities(None, None, None, None, None)

  datatype Classification = Classification(intent: Intent, entities: Entities)

  /** Python's `int()` of a string of ASCII digits. */
  function DigitsValue(s: string): (v: nat)
    ensures s == [] ==> v == 0
  {
    if s == [] then 0
    else DigitsValue(s[..|s| - 1]) * 10 + (s[|s| - 1] as int - '0' as int) % 10
  }

  const UpWords := ["volume up", "increase", "raise"]
  const DownWords := ["volume down", "decrease", "lower"]

  /** The volume entities: a level when `volume to` is in the text and the
      match has a group, otherwise the first action whose words occur. */
  function VolumeEntities(n: string, c: Captures): Entities {
    if Contains(n, "volume to") && c.Group1? then
      NoEntities.(level := Some(DigitsValue(c.Text())))
    else if AnyIn(n, UpWords) then NoEntities.(action := Some("up"))
    else if AnyIn(n, DownWords) then NoEntities.(action := Some("down"))
    else if Contains(n, "mute") && !Contains(n, "unmute") then NoEntities.(action := Some("mute"))
    else if Contains(n, "unmute") then NoEntities.(action := Some("unmute"))
    else NoEntities
  }

  const PlayPhrases := ["play spotify", "start spotify", "resume spotify"]
  const PausePhrases := ["pause spotify", "stop spotify"]
  const NextWords := ["next song", "skip song", "spotify next", "spotify skip"]
  const PreviousWords := ["previous song", "spotify previous"]

  /** The Spotify entities: always an action, and a query for a search. */
  function SpotifyEntities(n: string, c: Captures): Entities {
    if n in PlayPhrases then NoEntities.(action := Some("play"))
    else if n in PausePhrases then NoEntities.(action := Some("pause"))
    else if n == "play music" then NoEntities.(action := Some("play"))
    else if AnyIn(n, NextWords) then NoEntities.(action := Some("next"))
    else if AnyIn(n, PreviousWords) then NoEntities.(action := Some("previous"))
    else if AnyIn(n, ["play", "search"]) && Contains(n, "spotify") then
      NoEntities.(action := Some("search_and_play"),
                  query := if c.HasText() then Some(Strip(c.Text())) else None)
    else if Contains(n, "spotify") && c.HasText() then
      NoEntities.(action := Some("search_and_play"), query := Some(Strip(c.Text())))
    else NoEntities.(action := Some("play"))
  }

  /** The entities that the found pattern's captures give the intent. */
  function Fill(intent: Intent, n: string, c: Captures): Entities {
    match intent
    case WebSearch => NoEntities.(query := Some(Strip(c.Text())))
    case Wikipedia => NoEntities.(query := Some(Strip(c.Text())))
    case OpenApp => NoEntities.(appName := Some(Strip(c.Text())))
    case CloseApp => NoEntities.(appName := Some(Strip(c.Text())))
    case VolumeControl => VolumeEntities(n, c)
    case Weather =>
      NoEntities.(location := Some(if c.HasText() then Strip(c.Text()) else "current"))
    case SpotifyControl => SpotifyEntities(n, c)
    case _ => NoEntities
  }

  /** `extract_intent`: the intent of the first pattern found, or a general
      query carrying the normalised text. */
  function Classify(text: string): Classification {
    var n := Normalise(text);
    match Scan(n)
    case Some(h) => Classification(TableOrder[h.index], Fill(TableOrder[h.index], n, h.captures))
    case None => Classification(GeneralQuery, NoEntities.(query := Some(n)))
  }

  // ---------------------------------------------------------------------
  // The confirmation gate

  const DangerousIntents := ["system_shutdown", "delete_file", "format_drive"]
  const DangerousPhrases := ["delete system", "format drive", "shutdown computer", "restart computer", "delete all"]

  /** `requires_confirmation`. */
  predicate RequiresConfirmation(intent: string, e: Entities) {
    if intent in DangerousIntents then true
    else if e.query.Some? || e.appName.Some? then
      AnyIn(Lower(e.query.GetOr("") + " " + e.appName.GetOr("")), DangerousPhrases)
    else false
  }

  // ---------------------------------------------------------------------
  // Lemmas: the order of the scan

  /** `extract_intent` is total, and answers a general query exactly when no
      pattern of the table is found in the normalised text. */
  lemma ClassifyTotal(text: string)
    ensures var n := Normalise(text);
      var r := Classify(text);
      (r.intent == GeneralQuery <==> forall a, b :: !Matches(PatternTable(), n, a, b)) &&
      (r.intent == GeneralQuery ==> r.entities == NoEntities.(query := Some(n))) &&
      (r.intent != GeneralQuery ==> r.intent in TableOrder)
  {
    FirstMatchNone(PatternTable(), Normalise(text));
    TableOmitsGeneralQuery();
  }

  lemma TableOmitsGeneralQuery()
    ensures forall a :: 0 <= a < |TableOrder| ==> TableOrder[a] != GeneralQuery
  {
  }

  /** The scan finds nothing exactly when no pattern of the table is found. */
  lemma FirstMatchNone(tbl: seq<seq<Pattern>>, t: string)
    ensures FirstMatch(tbl, t, 0, 0).None? <==> forall a, b :: !Matches(tbl, t, a, b)
  {
  }

  /** A pattern that is found bounds the list where the scan stops. */
  lemma FirstMatchBound(tbl: seq<seq<Pattern>>, t: string, a: nat, b: nat)
    requires Matches(tbl, t, a, b)
    ensures FirstMatch(tbl, t, 0, 0).Some? && FirstMatch(tbl, t, 0, 0).value.index <= a
  {
  }

  /** First match wins: the intent is that of a pattern that is found, and no
      pattern scanned before it is found. */
  lemma ClassifyFirstMatch(text: string)
    requires Classify(text).intent != GeneralQuery
    ensures var n := Normalise(text);
      exists a, b :: Matches(PatternTable(), n, a, b) && TableOrder[a] == Classify(text).intent &&
        Classify(text).entities == Fill(TableOrder[a], n, Search(PatternTable()[a][b], n).value) &&
        forall c, d :: Before(c, d, a, b) ==> !Matches(PatternTable(), n, c, d)
  {
    var n := Normalise(text);
    var h := Scan(n).value;
    assert Matches(PatternTable(), n, h.index, h.pattern);
  }

  /** A pattern that is found bounds the intent: only an intent at or before
      its own in the table can win. */
  lemma FoundPatternBoundsIntent(text: string, a: nat, b: nat)
    requires Matches(PatternTable(), Normalise(text), a, b)
    ensures Classify(text).intent != GeneralQuery
    ensures exists c :: 0 <= c <= a && TableOrder[c] == Classify(text).intent
  {
    FirstMatchBound(PatternTable(), Normalise(text), a, b);
    TableOmitsGeneralQuery();
  }

  /** A command containing "stop listening" is never classified as
      `stop_listening`: `stop (.+)` of `close_app` comes first in the table. */
  lemma StopListeningShadowed(text: string)
    requires Contains(Normalise(text), "stop listening")
    ensures Classify(text).intent in [WebSearch, OpenApp, CloseApp]
  {
    var n := Normalise(text);
    StopKeywordFound(n);
    CloseStopEntry();
    FoundMatches(PatternTable(), n, 2, 3);
    FoundPatternBoundsIntent(text, 2, 3);
  }

  lemma StopKeywordFound(n: string)
    requires Contains(n, "stop listening")
    ensures Search(Kw("stop "), n).Some?
  {
    ContainsPrefixOf(n, "stop listening", "stop l");
    var i := FindFrom(n, "stop l", 0).value;
    var p := Kw("stop ");
    assert p.heads[0] + ['l'] == "stop l";
    KeywordFollowed(p, n, i, 0, 'l');
  }

  /** Pattern 3 of `close_app` is `stop (.+)`. */
  lemma CloseStopEntry()
    ensures 3 < |PatternTable()[2]| && PatternTable()[2][3] == Kw("stop ")
  {
    assert PatternTable()[2] == PatternsFor(CloseApp);
  }

  lemma FoundMatches(tbl: seq<seq<Pattern>>, t: string, a: nat, b: nat)
    requires a < |tbl| && b < |tbl[a]| && Search(tbl[a][b], t).Some?
    ensures Matches(tbl, t, a, b)
  {
  }

  /** Any text in which a `web_search` pattern is found is a web search, with
      the query taken from the first of its patterns that is found. */
  lemma WebSearchComesFirst(text: string, b: nat)
    requires Matches(PatternTable(), Normalise(text), 0, b)
    ensures Classify(text).intent == WebSearch
  {
    FoundPatternBoundsIntent(text, 0, b);
  }

  // ---------------------------------------------------------------------
  // Lemmas: normalisation

  /** The classification does not depend on letter case. */
  lemma ClassifyIgnoresCase(text: string)
    ensures Classify(Lower(text)) == Classify(text)
  {
    LowerIdempotent(text);
  }

  /** The classification does not depend on surrounding white space. */
  lemma ClassifyIgnoresPadding(w1: string, text: string, w2: string)
    requires AllSpace(w1) && AllSpace(w2)
    ensures Classify(w1 + text + w2) == Classify(text)
  {
    NormaliseIgnoresPadding(w1, text, w2);
  }

  // ---------------------------------------------------------------------
  // Lemmas: the entities

  /** Which entity keys each intent's rule sets. */
  lemma FillKeys(i: Intent, n: string, c: Captures)
    ensures var e := Fill(i, n, c);
      (i in [WebSearch, Wikipedia] ==>
         e.query.Some? && e.appName.None? && e.action.None? && e.level.None? && e.location.None?) &&
      (i in [OpenApp, CloseApp] ==>
         e.appName.Some? && e.query.None? && e.action.None? && e.level.None? && e.location.None?) &&
      (i == Weather ==>
         e.location.Some? && e.query.None? && e.appName.None? && e.action.None? && e.level.None?) &&
      (i == SpotifyControl ==> e.action.Some? && e.appName.None?) &&
      (i in [SystemInfo, Screenshot, Time, Date, StopListening, Help, Greeting, ListProcesses] ==>
         e == NoEntities)
  {
  }

  /** Which entity keys each classification sets. */
  lemma EntityKeys(text: string)
    ensures var r := Classify(text); var e := r.entities;
      (r.intent in [WebSearch, Wikipedia, GeneralQuery] ==>
         e.query.Some? && e.appName.None? && e.action.None? && e.level.None? && e.location.None?) &&
      (r.intent in [OpenApp, CloseApp] ==>
         e.appName.Some? && e.query.None? && e.action.None? && e.level.None? && e.location.None?) &&
      (r.intent == Weather ==>
         e.location.Some? && e.query.None? && e.appName.None? && e.action.None? && e.level.None?) &&
      (r.intent == SpotifyControl ==> e.action.Some? && e.appName.None?) &&
      (r.intent in [SystemInfo, Screenshot, Time, Date, StopListening, Help, Greeting, ListProcesses] ==>
         e == NoEntities)
  {
    var n := Normalise(text);
    match Scan(n)
    case None =>
    case Some(h) =>
      assert Classify(text) == Classification(TableOrder[h.index], Fill(TableOrder[h.index], n, h.captures));
      FillKeys(TableOrder[h.index], n, h.captures);
  }

  /** The patterns of the intents that take a query or an application name
      all end in `(.+)`. */
  lemma KeywordPatternsRest(i: Intent)
    requires i in [WebSearch, Wikipedia, OpenApp, CloseApp]
    ensures forall b :: 0 <= b < |PatternsFor(i)| ==> PatternsFor(i)[b].tail == Rest
  {
    if i == WebSearch { WebSearchPatternsRest(); }
    else if i == Wikipedia { WikipediaPatternsRest(); }
    else if i == OpenApp { OpenPatternsRest(); }
    else { ClosePatternsRest(); }
  }

  lemma WebSearchPatternsRest()
    ensures forall b :: 0 <= b < |PatternsFor(WebSearch)| ==> PatternsFor(WebSearch)[b].tail == Rest
  {
  }

  lemma WikipediaPatternsRest()
    ensures forall b :: 0 <= b < |PatternsFor(Wikipedia)| ==> PatternsFor(Wikipedia)[b].tail == Rest
  {
  }

  lemma OpenPatternsRest()
    ensures forall b :: 0 <= b < |PatternsFor(OpenApp)| ==> PatternsFor(OpenApp)[b].tail == Rest
  {
  }

  lemma ClosePatternsRest()
    ensures forall b :: 0 <= b < |PatternsFor(CloseApp)| ==> PatternsFor(CloseApp)[b].tail == Rest
  {
  }

  /** The hit of a scan is the search result of its pattern. */
  lemma ScanHit(n: string)
    requires Scan(n).Some?
    ensures var h := Scan(n).value;
      h.index < |TableOrder| && h.pattern < |PatternsFor(TableOrder[h.index])| &&
      Search(PatternsFor(TableOrder[h.index])[h.pattern], n) == Some(h.captures)
  {
  }

  /** The stripped group of `(.+)` is a stripped single line of the text. */
  lemma RestCapture(p: Pattern, n: string, c: Captures)
    requires p.tail == Rest && Search(p, n) == Some(c)
    ensures var v := Strip(c.Text()); IsStripped(v) && '\n' !in v && Contains(n, v)
  {
    RestCaptureOccurs(p, n, c);
    StripKeepsOccurrence(n, c.Text());
    StripIsStripped(c.Text());
  }

  /** A classification other than a general query is the intent of the hit,
      with the entities its rule gives. */
  lemma ClassifyHit(text: string)
    ensures var n := Normalise(text); var r := Classify(text);
      r.intent != GeneralQuery ==>
        Scan(n).Some? &&
        r == Classification(TableOrder[Scan(n).value.index],
                            Fill(TableOrder[Scan(n).value.index], n, Scan(n).value.captures))
  {
  }

  /** The hit of a keyword intent is a `(.+)` pattern. */
  lemma KeywordHit(text: string)
    requires Classify(text).intent in [WebSearch, Wikipedia, OpenApp, CloseApp]
    ensures var n := Normalise(text); var h := Scan(n).value;
      Search(PatternsFor(TableOrder[h.index])[h.pattern], n) == Some(h.captures) &&
      PatternsFor(TableOrder[h.index])[h.pattern].tail == Rest
  {
    var n := Normalise(text);
    ClassifyHit(text);
    ScanHit(n);
    KeywordPatternsRest(TableOrder[Scan(n).value.index]);
  }

  /** The keyword intents' rules take the stripped group. */
  lemma FillKeyword(i: Intent, n: string, c: Captures)
    ensures i in [WebSearch, Wikipedia] ==> Fill(i, n, c).query == Some(Strip(c.Text()))
    ensures i in [OpenApp, CloseApp] ==> Fill(i, n, c).appName == Some(Strip(c.Text()))
  {
  }

  /** The query and application name are the stripped group of the pattern
      found: a stripped single line that occurs in the normalised text. */
  lemma KeywordEntities(text: string)
    requires Classify(text).intent in [WebSearch, Wikipedia, OpenApp, CloseApp]
    ensures var r := Classify(text);
      var v := if r.intent in [WebSearch, Wikipedia] then r.entities.query else r.entities.appName;
      v.Some? && IsStripped(v.value) && '\n' !in v.value && Contains(Normalise(text), v.value)
  {
    var n := Normalise(text);
    ClassifyHit(text);
    KeywordHit(text);
    var h := Scan(n).value;
    FillKeyword(TableOrder[h.index], n, h.captures);
    RestCapture(PatternsFor(TableOrder[h.index])[h.pattern], n, h.captures);
  }

  /** Volume entities: a level exactly when `volume to` is in the text and a
      number was captured, else the first action of up, down, mute, unmute
      whose words occur. */
  lemma VolumeCascade(n: string, c: Captures)
    ensures var e := VolumeEntities(n, c);
      e.query.None? && e.appName.None? && e.location.None? &&
      (e.level.Some? <==> Contains(n, "volume to") && c.Group1?) &&
      (e.level.Some? ==> e.action.None?) &&
      (e.action == Some("up") <==> e.level.None? && AnyIn(n, UpWords)) &&
      (e.action == Some("down") <==> e.level.None? && !AnyIn(n, UpWords) && AnyIn(n, DownWords)) &&
      (e.action == Some("mute") <==>
         e.level.None? && !AnyIn(n, UpWords) && !AnyIn(n, DownWords) &&
         Contains(n, "mute") && !Contains(n, "unmute")) &&
      (e.action == Some("unmute") <==>
         e.level.None? && !AnyIn(n, UpWords) && !AnyIn(n, DownWords) && Contains(n, "unmute")) &&
      (e.action.Some? ==> e.action.value in ["up", "down", "mute", "unmute"])
  {
  }

  /** Only the first volume pattern, `(?:set |change |)volume to (\d+)`, has a group. */
  lemma VolumePatterns()
    ensures var ps := PatternsFor(VolumeControl);
      |ps| > 0 && ps[0].tail == DigitRun &&
      (forall j :: 0 <= j < |ps[0].heads| ==> EndsWith(ps[0].heads[j], "volume to ")) &&
      forall b :: 0 < b < |ps| ==> ps[b].tail == Done
  {
  }

  /** A volume hit with a group is a hit of the first volume pattern. */
  lemma VolumeGroupFirst(n: string)
    requires Scan(n).Some? && TableOrder[Scan(n).value.index] == VolumeControl
    requires Scan(n).value.captures.Group1?
    ensures Scan(n).value.pattern == 0
    ensures Search(PatternsFor(VolumeControl)[0], n) == Some(Scan(n).value.captures)
  {
    ScanHit(n);
    VolumePatterns();
    var h := Scan(n).value;
    var p := PatternsFor(VolumeControl)[h.pattern];
    TailsGroup(p, n, FirstPos(p, n, 0).value);
  }

  /** A number captured after a head ending in `volume to ` follows
      `volume to ` in the text. */
  lemma DigitCapture(p: Pattern, n: string, c: Captures)
    requires p.tail == DigitRun && Search(p, n) == Some(c)
    requires forall j :: 0 <= j < |p.heads| ==> EndsWith(p.heads[j], "volume to ")
    ensures var ds := c.Text();
      ds != [] && (forall k :: 0 <= k < |ds| ==> IsDigit(ds[k])) && Contains(n, "volume to " + ds)
  {
    var i := FirstPos(p, n, 0).value;
    var k := FirstHead(p.heads, p.tail, n, i, 0).value;
    var a := i + |p.heads[k]|;
    assert c == TailAt(DigitRun, n, a).value;
    DigitTail(n, a);
    DigitsAfter(p.heads[k], n, i, c.Text());
  }

  lemma DigitTail(t: string, a: nat)
    requires a <= |t| && TailAt(DigitRun, t, a).Some?
    ensures var ds := TailAt(DigitRun, t, a).value.Text();
      ds != [] && (forall k :: 0 <= k < |ds| ==> IsDigit(ds[k])) && OccursAt(t, ds, a)
  {
  }

  lemma DigitsAfter(hd: string, n: string, i: nat, ds: string)
    requires OccursAt(n, hd, i) && EndsWith(hd, "volume to ") && OccursAt(n, ds, i + |hd|)
    ensures Contains(n, "volume to " + ds)
  {
    var w := "volume to ";
    OccursSlice(n, hd, i, |hd| - |w|, |hd|);
    OccursConcat(n, w, ds, i + |hd| - |w|);
    ContainsAt(n, w + ds, i + |hd| - |w|);
  }

  /** The level is read from the digits that follow `volume to `. */
  lemma VolumeLevelFromDigits(text: string)
    requires Classify(text).intent == VolumeControl && Classify(text).entities.level.Some?
    ensures var n := Normalise(text);
      exists ds :: ds != [] && (forall k :: 0 <= k < |ds| ==> IsDigit(ds[k])) &&
        Contains(n, "volume to " + ds) && Classify(text).entities.level == Some(DigitsValue(ds))
  {
    var n := Normalise(text);
    ClassifyHit(text);
    var h := Scan(n).value;
    var c := h.captures;
    var e := Classify(text).entities;
    assert e == Fill(VolumeControl, n, c);
    assert e == VolumeEntities(n, c);
    VolumeLevelIs(n, c);
    VolumeGroupFirst(n);
    VolumePatterns();
    DigitCapture(PatternsFor(VolumeControl)[0], n, c);
    var ds := c.Text();
    assert ds != [] && (forall k :: 0 <= k < |ds| ==> IsDigit(ds[k])) && Contains(n, "volume to " + ds);
  }

  lemma VolumeLevelIs(n: string, c: Captures)
    requires VolumeEntities(n, c).level.Some?
    ensures c.Group1? && VolumeEntities(n, c).level == Some(DigitsValue(c.Text()))
  {
  }

  /** The weather location is the stripped group when one was captured, and
      `current` otherwise. */
  lemma WeatherLocation(n: string, c: Captures)
    ensures var l := Fill(Weather, n, c).location;
      l.Some? && (c.HasText() ==> l.value == Strip(c.Text())) && (!c.HasText() ==> l.value == "current")
  {
  }

  /** The Spotify action is always set, to one of five values; a query comes
      only with a search. */
  lemma SpotifyActions(n: string, c: Captures)
    ensures var e := SpotifyEntities(n, c);
      e.action.Some? &&
      e.action.value in ["play", "pause", "next", "previous", "search_and_play"] &&
      (e.query.Some? ==> e.action.value == "search_and_play" && Contains(n, "spotify") && c.HasText()) &&
      (e.action.value == "pause" <==> n in PausePhrases) &&
      (e.action.value == "search_and_play" ==> Contains(n, "spotify")) &&
      e.appName.None? && e.level.None? && e.location.None?
    // the branches of nlp.py:195-218, each taken only when the earlier ones are not
    ensures var a := SpotifyEntities(n, c).action.value;
      var exact := n in PlayPhrases || n in PausePhrases || n == "play music";
      (n in PlayPhrases || n == "play music" ==> a == "play") &&
      (!exact && AnyIn(n, NextWords) ==> a == "next") &&
      (!exact && !AnyIn(n, NextWords) && AnyIn(n, PreviousWords) ==> a == "previous") &&
      (!exact && !AnyIn(n, NextWords) && !AnyIn(n, PreviousWords) &&
       AnyIn(n, ["play", "search"]) && Contains(n, "spotify") ==>
         a == "search_and_play" &&
         SpotifyEntities(n, c).query == (if c.HasText() then Some(Strip(c.Text())) else None)) &&
      (!exact && !AnyIn(n, NextWords) && !AnyIn(n, PreviousWords) &&
       !(AnyIn(n, ["play", "search"]) && Contains(n, "spotify")) ==>
         (a == "search_and_play" <==> Contains(n, "spotify") && c.HasText()) &&
         (a != "search_and_play" ==> a == "play"))
  {
  }

  // ---------------------------------------------------------------------
  // Lemmas: the gate

  /** No intent the classifier produces is in the dangerous set. */
  lemma NoIntentIsDangerous(i: Intent)
    ensures i.Name() !in DangerousIntents
  {
  }

  /** For a classified intent the gate fires exactly when the query or the
      application name is present and a dangerous phrase occurs in them. */
  lemma GateForIntents(i: Intent, e: Entities)
    ensures RequiresConfirmation(i.Name(), e) <==>
      (e.query.Some? || e.appName.Some?) &&
      exists k :: 0 <= k < |DangerousPhrases| &&
        Contains(Lower(e.query.GetOr("") + " " + e.appName.GetOr("")), DangerousPhrases[k])
  {
    NoIntentIsDangerous(i);
  }

  /** The gate ignores the case of the entities. */
  lemma GateIgnoresCase(intent: string, q: string)
    ensures RequiresConfirmation(intent, NoEntities.(query := Some(q))) ==
            RequiresConfirmation(intent, NoEntities.(query := Some(Lower(q))))
  {
    LowerAppend(q, " ");
    LowerAppend(Lower(q), " ");
    LowerIdempotent(q);
    assert Lower(" ") == " ";
    LowerAppend(q + " ", "");
    LowerAppend(Lower(q) + " ", "");
  }
}
