/** The action dispatcher `ActionHandler` (actions.py): the confirmation gate
    runs first, then the intent's handler is looked up in the registry and
    given the entities. Handlers check for missing entities, normalise their
    parameters and call the search and system collaborators, whose answers
    are fixed in advance by a `World`. */
module Actions {
  import opened Wrappers
  import opened Text
  import opened Results
  import opened Nlp
  import opened WebSearch
  import opened SystemActions

  /** `get_current_time()` when it succeeds: the formatted time and date. */
  datatype Clock = Clock(time: string, date: string)

  /** What the collaborators answer. Each function gives the answer for the
      argument the handler passes; `greetingPick` is the index that
      `random.choice` draws. */
  datatype World = World(
    backends: string -> Backends,               // the four backends of `search_web(query)`
    wikipedia: string -> WikiLookup,            // the lookup of `search_wikipedia(query)`
    feeds: string -> Result<seq<FeedItem>>,     // the RSS items at each feed URL
    os: OsType,
    spawn: string -> Option<string>,            // `subprocess.Popen` of a launch command
    processes: Result<seq<Proc>>,               // `psutil.process_iter()`
    spotify: SpotifyEnv,
    volume: (string, Option<int>) -> Report,    // `control_volume(action, level)`
    systemInfo: Report,                         // `get_system_info()`
    screenshot: Report,                         // `take_screenshot()`
    clock: Result<Clock>,                       // `get_current_time()`
    processList: Report,                        // `list_running_processes()`
    helpText: string,                           // `get_help_text()`
    greetingPick: nat,
    custom: (string, Entities) -> ActionResult) // handlers added with `register_action`

  /** A registry binding: one of the built-in handlers, or a handler added
      at run time, known by its name. */
  datatype Handler = Builtin(intent: Intent) | Custom(name: string)

  /** The registry that `__init__` builds (actions.py:14-31). */
  function DefaultRegistry(): map<string, Handler> {
    map[
      "web_search" := Builtin(WebSearch), "wikipedia" := Builtin(Wikipedia),
      "open_app" := Builtin(OpenApp), "close_app" := Builtin(CloseApp),
      "system_info" := Builtin(SystemInfo), "screenshot" := Builtin(Screenshot),
      "volume_control" := Builtin(VolumeControl), "time" := Builtin(Time),
      "date" := Builtin(Date), "weather" := Builtin(Weather), "help" := Builtin(Help),
      "greeting" := Builtin(Greeting), "stop_listening" := Builtin(StopListening),
      "general_query" := Builtin(GeneralQuery), "spotify_control" := Builtin(SpotifyControl),
      "list_processes" := Builtin(ListProcesses)]
  }

  /** Every intent the classifier can return is bound, to its own built-in
      handler. */
  lemma DefaultRegistryTotal(i: Intent)
    ensures i.Name() in DefaultRegistry() && DefaultRegistry()[i.Name()] == Builtin(i)
  {
  }

  /** The registry is the only state of `ActionHandler` that changes; the
      collaborators are fixed when it is built. */
  class ActionHandler {
    var registry: map<string, Handler>
    const world: World

    constructor (world: World)
      ensures registry == DefaultRegistry() && this.world == world
    {
      registry := DefaultRegistry();
      this.world := world;
    }

    /** `register_action(intent, handler)`: insert or overwrite one binding. */
    method RegisterAction(intent: string, handler: Handler)
      modifies this
      ensures registry == old(registry)[intent := handler]
      ensures intent in registry && registry[intent] == handler
      ensures forall k :: k in old(registry) && k != intent ==> k in registry && registry[k] == old(registry)[k]
      ensures registry.Keys == old(registry).Keys + {intent}
    {
      registry := registry[intent := handler];
    }
  }

  // ---------------------------------------------------------------------
  // The handlers (actions.py:73-191)

  const NewsWords := ["news", "headlines", "latest"]
  const NewsTopics := ["science", "business", "world", "technology"]

  /** The first news topic, from index `k` on, that the lower-cased query
      contains; `technology` when none does. */
  function TopicFrom(q: string, k: nat): string
    decreases |NewsTopics| - k
  {
    if k >= |NewsTopics| then "technology"
    else if Contains(q, NewsTopics[k]) then NewsTopics[k]
    else TopicFrom(q, k + 1)
  }

  /** The topic of a news query. */
  function NewsTopic(query: string): string {
    TopicFrom(Lower(query), 0)
  }

  /** The topic loop of actions.py:79-83, with its early `break`. */
  method PickNewsTopic(query: string) returns (topic: string)
    ensures topic == NewsTopic(query)
  {
    var q := Lower(query);
    topic := "technology";
    var k := 0;
    while k < |NewsTopics|
      invariant 0 <= k <= |NewsTopics|
      invariant TopicFrom(q, k) == TopicFrom(q, 0)
    {
      if Contains(q, NewsTopics[k]) {
        topic := NewsTopics[k];
        break;
      }
      k := k + 1;
    }
  }

  /** `NewsTopics[j]` is the first topic from index `k` on that `q` contains. */
  predicate FirstTopicAt(q: string, k: nat, j: int) {
    k <= j < |NewsTopics| && Contains(q, NewsTopics[j]) &&
    forall m :: k <= m < j ==> !Contains(q, NewsTopics[m])
  }

  lemma {:induction false} TopicFromFirst(q: string, k: nat)
    requires k <= |NewsTopics|
    ensures var t := TopicFrom(q, k);
      t in NewsTopics &&
      (forall j :: FirstTopicAt(q, k, j) ==> t == NewsTopics[j]) &&
      ((forall m :: k <= m < |NewsTopics| ==> !Contains(q, NewsTopics[m])) ==> t == "technology")
    decreases |NewsTopics| - k
  {
    if k < |NewsTopics| && !Contains(q, NewsTopics[k]) {
      TopicFromFirst(q, k + 1);
    }
  }

  /** The news topic is the first of science, business, world, technology
      that the query contains, and technology when it contains none. */
  lemma NewsTopicFirst(query: string)
    ensures var t := NewsTopic(query); var q := Lower(query);
      t in NewsTopics &&
      (forall j :: FirstTopicAt(q, 0, j) ==> t == NewsTopics[j]) &&
      ((forall m :: 0 <= m < |NewsTopics| ==> !Contains(q, NewsTopics[m])) ==> t == "technology")
  {
    TopicFromFirst(Lower(query), 0);
  }

  /** `_handle_web_search`: a query about the news reads a feed, any other
      query searches the web. */
  function HandleWebSearch(e: Entities, w: World): ActionResult {
    var query := e.query.GetOr("");
    if query == [] then Failed("What would you like me to search for?")
    else if AnyIn(Lower(query), NewsWords) then GetNewsHeadlines(NewsTopic(query), w.feeds).AsAction()
    else SearchWeb(query, w.backends(query)).AsAction()
  }

  function HandleWikipedia(e: Entities, w: World): ActionResult {
    var query := e.query.GetOr("");
    if query == [] then Failed("What would you like me to look up on Wikipedia?")
    else SearchWikipedia(query, w.wikipedia(query)).AsAction()
  }

  function HandleOpenApp(e: Entities, w: World): ActionResult {
    var app := e.appName.GetOr("");
    if app == [] then Failed("Which application would you like me to open?")
    else OpenApplication(w.os, app, w.spawn)
  }

  function HandleCloseApp(e: Entities, w: World): ActionResult {
    var app := e.appName.GetOr("");
    if app == [] then Failed("Which application would you like me to close?")
    else CloseResult(app, w.processes)
  }

  /** `_handle_volume_control`: a level always means `set`. */
  function HandleVolume(e: Entities, w: World): ActionResult {
    var action := e.action.GetOr("");
    if action == [] && e.level.None? then Failed("How would you like me to control the volume?")
    else w.volume(if e.level.Some? then "set" else action, e.level).AsAction()
  }

  /** `_handle_time` and `_handle_date`: the clock's answer with its summary
      rewritten on success. */
  function HandleClock(w: World, wantDate: bool): ActionResult {
    match w.clock
    case Failure(err) => FailedWith(err, "I couldn't get the current time.")
    case Success(c) =>
      if wantDate then Succeeded("Today is " + c.date + ".")
      else Succeeded("The current time is " + c.time + ".")
  }

  function HandleWeather(e: Entities): ActionResult {
    var location := e.location.GetOr("your area");
    Failed("Weather information for " + location +
           " is not available yet. You can add a weather API key to enable this feature.")
  }

  const Greetings := [
    "Hello! How can I assist you today?",
    "Hi there! What can I do for you?",
    "Hey! I'm ready to help.",
    "Good to hear from you! What do you need?",
    "Hello! I'm here and ready to assist."]

  const Goodbye := "Goodbye! Have a great day!"

  /** `_handle_stop`: the only built-in result that asks the controller to stop. */
  function HandleStop(): ActionResult {
    ActionResult(true, Some(Goodbye), None, false, None, true)
  }

  /** `_handle_general_query`: the web answer only when it succeeded with a
      summary. */
  function HandleGeneralQuery(e: Entities, w: World): ActionResult {
    var query := e.query.GetOr("");
    if query == [] then Failed("I didn't understand that. Could you rephrase?")
    else
      var r := SearchWeb(query, w.backends(query));
      if r.success && r.HasSummary() then r.AsAction()
      else Failed("I'm not sure about that. You could try searching the web for '" + query + "'.")
  }

  function HandleSpotify(e: Entities, w: World): ActionResult {
    var action := e.action.GetOr("play");
    if action == [] then Failed("What would you like me to do with Spotify?")
    else ControlSpotify(w.os, action, e.query.GetOr(""), w.spotify)
  }

  /** Calling a registry binding with the entities. */
  function Invoke(h: Handler, e: Entities, w: World): ActionResult {
    match h
    case Custom(name) => w.custom(name, e)
    case Builtin(i) =>
      match i
      case WebSearch => HandleWebSearch(e, w)
      case Wikipedia => HandleWikipedia(e, w)
      case OpenApp => HandleOpenApp(e, w)
      case CloseApp => HandleCloseApp(e, w)
      case SystemInfo => w.systemInfo.AsAction()
      case Screenshot => w.screenshot.AsAction()
      case VolumeControl => HandleVolume(e, w)
      case Time => HandleClock(w, false)
      case Date => HandleClock(w, true)
      case Weather => HandleWeather(e)
      case Help => Succeeded(w.helpText)
      case Greeting => Succeeded(Greetings[w.greetingPick % |Greetings|])
      case StopListening => HandleStop()
      case GeneralQuery => HandleGeneralQuery(e, w)
      case SpotifyControl => HandleSpotify(e, w)
      case ListProcesses => w.processList.AsAction()
  }

  // ---------------------------------------------------------------------
  // process_command (actions.py:41-68)

  const NotUnderstood := "I didn't understand that command. Try saying 'help' to see what I can do."

  /** The answer of the gate: a successful result that carries the raw text. */
  function ConfirmationRequest(i: Intent, text: string): (r: ActionResult)
    ensures r.success && r.requiresConfirmation && !r.stopRequested && r.originalCommand == Some(text)
  {
    ActionResult(true,
      Some("Are you sure you want to " + Replace(i.Name(), '_', " ") + "? Say 'confirm' or 'go ahead' to proceed."),
      None, true, Some(text), false)
  }

  /** `process_command(text)`: classify, gate, then route through the
      registry. */
  function ProcessCommand(registry: map<string, Handler>, w: World, text: string): (r: ActionResult)
    ensures var c := Classify(text);
      (RequiresConfirmation(c.intent.Name(), c.entities) ==> r == ConfirmationRequest(c.intent, text)) &&
      (!RequiresConfirmation(c.intent.Name(), c.entities) && c.intent.Name() in registry ==>
         r == Invoke(registry[c.intent.Name()], c.entities, w)) &&
      (!RequiresConfirmation(c.intent.Name(), c.entities) && c.intent.Name() !in registry ==>
         r == Failed(NotUnderstood))
  {
    var c := Classify(text);
    if RequiresConfirmation(c.intent.Name(), c.entities) then ConfirmationRequest(c.intent, text)
    else if c.intent.Name() in registry then Invoke(registry[c.intent.Name()], c.entities, w)
    else Failed(NotUnderstood)
  }

  // ---------------------------------------------------------------------
  // Lemmas

  /** When the gate fires no handler runs: the answer is the same whatever
      the registry and the collaborators are, and it carries the raw text. */
  lemma GateRunsNoHandler(reg1: map<string, Handler>, w1: World, reg2: map<string, Handler>, w2: World, text: string)
    requires var c := Classify(text); RequiresConfirmation(c.intent.Name(), c.entities)
    ensures ProcessCommand(reg1, w1, text) == ProcessCommand(reg2, w2, text)
    ensures var r := ProcessCommand(reg1, w1, text);
      r.success && r.requiresConfirmation && r.originalCommand == Some(text)
  {
  }

  /** With the registry of `__init__`, every command reaches the handler of
      its intent: "I didn't understand" is never the answer. */
  lemma DefaultRegistryRoutes(w: World, text: string)
    ensures var c := Classify(text); var r := ProcessCommand(DefaultRegistry(), w, text);
      !RequiresConfirmation(c.intent.Name(), c.entities) ==> r == Invoke(Builtin(c.intent), c.entities, w)
  {
    DefaultRegistryTotal(Classify(text).intent);
  }

  /** A built-in handler never asks for confirmation, and only the stop
      handler asks the controller to stop. */
  lemma BuiltinFlags(i: Intent, e: Entities, w: World)
    ensures !Invoke(Builtin(i), e, w).requiresConfirmation
    ensures Invoke(Builtin(i), e, w).stopRequested <==> i == StopListening
  {
  }

  /** The stop handler always succeeds and always asks to stop. */
  lemma StopAlwaysStops(e: Entities, w: World)
    ensures var r := Invoke(Builtin(StopListening), e, w);
      r.success && r.stopRequested && r.summary == Some(Goodbye)
  {
  }

  /** The weather handler always fails, naming the location. */
  lemma WeatherAlwaysFails(e: Entities)
    ensures var r := HandleWeather(e);
      !r.success && r.summary.Some? &&
      (e.location.Some? ==>
         r.summary.value[..24 + |e.location.value|] == "Weather information for " + e.location.value)
  {
    if e.location.Some? {
      var pre := "Weather information for " + e.location.value;
      var post := " is not available yet. You can add a weather API key to enable this feature.";
      assert HandleWeather(e).summary.value == pre + post;
      assert |pre| == 24 + |e.location.value|;
      assert (pre + post)[..|pre|] == pre;
    }
  }

  /** A missing or empty query or application name is answered with a
      question, and no collaborator is consulted: the answer is the same for
      every world. */
  lemma MissingEntityAsks(i: Intent, e: Entities, w1: World, w2: World)
    requires i in [WebSearch, Wikipedia, GeneralQuery] ==> e.query.GetOr("") == []
    requires i in [OpenApp, CloseApp] ==> e.appName.GetOr("") == []
    requires i in [WebSearch, Wikipedia, GeneralQuery, OpenApp, CloseApp]
    ensures var r := Invoke(Builtin(i), e, w1);
      !r.success && r.summary.Some? && r.summary.value != [] && !r.requiresConfirmation &&
      r == Invoke(Builtin(i), e, w2)
  {
    match i {
      case WebSearch =>
        AsksWith(i, e, w1, w2, "What would you like me to search for?");
      case Wikipedia =>
        AsksWith(i, e, w1, w2, "What would you like me to look up on Wikipedia?");
      case OpenApp =>
        AsksWith(i, e, w1, w2, "Which application would you like me to open?");
      case CloseApp =>
        AsksWith(i, e, w1, w2, "Which application would you like me to close?");
      case GeneralQuery =>
        AsksWith(i, e, w1, w2, "I didn't understand that. Could you rephrase?");
    }
  }

  lemma AsksWith(i: Intent, e: Entities, w1: World, w2: World, question: string)
    requires Invoke(Builtin(i), e, w1) == Failed(question) == Invoke(Builtin(i), e, w2)
    requires question != []
    ensures var r := Invoke(Builtin(i), e, w1);
      !r.success && r.summary.Some? && r.summary.value != [] && !r.requiresConfirmation &&
      r == Invoke(Builtin(i), e, w2)
  {
  }

  /** The volume handler asks when it has neither an action nor a level,
      and a level turns the call into `set` whatever the action. */
  lemma VolumeRouting(e: Entities, w: World)
    ensures e.action.GetOr("") == [] && e.level.None? ==>
      Invoke(Builtin(VolumeControl), e, w) == Failed("How would you like me to control the volume?")
    ensures e.level.Some? ==> Invoke(Builtin(VolumeControl), e, w) == w.volume("set", e.level).AsAction()
    ensures e.level.None? && e.action.GetOr("") != [] ==>
      Invoke(Builtin(VolumeControl), e, w) == w.volume(e.action.value, None).AsAction()
  {
  }

  /** A web-search query that mentions the news reads the feed of its topic;
      any other non-empty query searches the web. */
  lemma WebSearchRouting(e: Entities, w: World)
    requires e.query.GetOr("") != []
    ensures var q := e.query.value; var r := Invoke(Builtin(WebSearch), e, w);
      (AnyIn(Lower(q), NewsWords) ==> r == GetNewsHeadlines(NewsTopic(q), w.feeds).AsAction()) &&
      (!AnyIn(Lower(q), NewsWords) ==> r == SearchWeb(q, w.backends(q)).AsAction())
  {
  }

  /** A general query answers with the web result only when it succeeded
      with a summary, and otherwise fails naming the query. */
  lemma GeneralQueryAnswer(e: Entities, w: World)
    requires e.query.GetOr("") != []
    ensures var q := e.query.value; var s := SearchWeb(q, w.backends(q));
      var r := HandleGeneralQuery(e, w);
      (s.success && s.HasSummary() ==> r == s.AsAction()) &&
      (!(s.success && s.HasSummary()) ==>
         r == Failed("I'm not sure about that. You could try searching the web for '" + q + "'.")) &&
      r.summary.Some? && r.summary.value != []
  {
    assert e.query.GetOr("") == e.query.value;
  }

  /** The greeting is one of the five canned greetings. */
  lemma GreetingIsCanned(e: Entities, w: World)
    ensures var r := Invoke(Builtin(Greeting), e, w);
      r.success && r.summary.Some? && r.summary.value in Greetings
  {
  }

  /** The time and date handlers rewrite only a successful clock answer. */
  lemma ClockSummaries(e: Entities, w: World)
    ensures w.clock.Success? ==>
      Invoke(Builtin(Time), e, w) == Succeeded("The current time is " + w.clock.value.time + ".") &&
      Invoke(Builtin(Date), e, w) == Succeeded("Today is " + w.clock.value.date + ".")
    ensures w.clock.Failure? ==>
      !Invoke(Builtin(Time), e, w).success && !Invoke(Builtin(Date), e, w).success
  {
  }
}
