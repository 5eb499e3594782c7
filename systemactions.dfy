/** The decision logic of `SystemController` (system_actions.py): how an
    application name is resolved to a launch command or a process keyword,
    how `close_application` walks the process list and classifies what it
    found, and how Spotify actions are gated and dispatched per operating
    system. Every subprocess, psutil, win32, keyboard, dbus and AppleScript
    call is replaced by the outcome it produces. */
module SystemActions {
  import opened Wrappers
  import opened Text
  import opened Results

  /** A lower-cased `platform.system()` other than the three the controller
      dispatches on. */
  type OtherOsName = s: string | s !in ["windows", "linux", "darwin"] witness "freebsd"

  /** `platform.system().lower()`. */
  datatype OsType = Windows | Linux | Darwin | OtherOs(name: OtherOsName) {
    function Name(): string {
      match this
      case Windows => "windows"
      case Linux => "linux"
      case Darwin => "darwin"
      case OtherOs(n) => n
    }
  }

  /** Each operating-system name belongs to exactly one case. */
  lemma OsNames(os: OsType)
    ensures os.Name() == "windows" <==> os.Windows?
    ensures os.Name() == "linux" <==> os.Linux?
    ensures os.Name() == "darwin" <==> os.Darwin?
  {
    if os.OtherOs? {
      assert os.name !in ["windows", "linux", "darwin"];
    }
  }

  // ---------------------------------------------------------------------
  // open_application (system_actions.py:67-105)

  /** `app_mappings`: the launch command of each known application. */
  function OpenCommands(os: OsType): map<string, string> {
    var win := os.Windows?;
    map[
      "notepad" := if win then "notepad.exe" else "gedit",
      "calculator" := if win then "calc.exe" else "gnome-calculator",
      "browser" := if win then "start chrome" else "google-chrome",
      "chrome" := if win then "start chrome" else "google-chrome",
      "firefox" := if win then "start firefox" else "firefox",
      "file manager" := if win then "explorer" else "nautilus",
      "terminal" := if win then "cmd" else "gnome-terminal",
      "command prompt" := if win then "cmd" else "gnome-terminal",
      "spotify" := if win then "start spotify" else "spotify",
      "discord" := if win then "start discord" else "discord",
      "steam" := if win then "start steam" else "steam",
      "word" := if win then "start winword" else "libreoffice --writer",
      "excel" := if win then "start excel" else "libreoffice --calc",
      "powerpoint" := if win then "start powerpnt" else "libreoffice --impress"]
  }

  /** `app_mappings.get(app_name, app_name)`. */
  function OpenCommand(os: OsType, name: string): string {
    if name in OpenCommands(os) then OpenCommands(os)[name] else name
  }

  /** `open_application(app_name)`. `spawn` stands for `subprocess.Popen` on
      the command: `None` when it starts, `Some(e)` when it raises `e`. */
  function OpenApplication(os: OsType, appName: string, spawn: string -> Option<string>): (r: ActionResult)
    ensures r.success <==> spawn(OpenCommand(os, Normalise(appName))).None?
    ensures r.success ==> r.summary == Some("Opening " + Normalise(appName) + ".")
    ensures !r.success ==>
      r.summary == Some("I couldn't open " + Normalise(appName) + ". Make sure it's installed.") &&
      r.error == spawn(OpenCommand(os, Normalise(appName)))
    ensures !r.requiresConfirmation && !r.stopRequested
  {
    var name := Normalise(appName);
    match spawn(OpenCommand(os, name))
    case None => Succeeded("Opening " + name + ".")
    case Some(e) => FailedWith(e, "I couldn't open " + name + ". Make sure it's installed.")
  }

  /** Names outside the table are launched as they are; names in it are
      launched by their table command. */
  lemma OpenCommandDefault(os: OsType, name: string)
    ensures name !in OpenCommands(os) ==> OpenCommand(os, name) == name
    ensures name in OpenCommands(os) ==> OpenCommand(os, name) in OpenCommands(os).Values
  {
  }

  /** Opening does not depend on the case of the name or on white space
      around it. */
  lemma OpenIgnoresCaseAndPadding(os: OsType, w1: string, appName: string, w2: string, spawn: string -> Option<string>)
    requires AllSpace(w1) && AllSpace(w2)
    ensures OpenApplication(os, w1 + appName + w2, spawn) == OpenApplication(os, appName, spawn)
    ensures OpenApplication(os, Lower(appName), spawn) == OpenApplication(os, appName, spawn)
  {
    NormaliseIgnoresPadding(w1, appName, w2);
    NormaliseIgnoresCase(appName);
  }

  // ---------------------------------------------------------------------
  // close_application (system_actions.py:107-184)

  /** `app_keywords`: the process-name keyword of each known application. */
  const CloseKeywords: map<string, string> := map[
    "spotify" := "spotify", "chrome" := "chrome", "browser" := "chrome",
    "firefox" := "firefox", "brave" := "brave", "brave browser" := "brave",
    "edge" := "msedge", "notepad" := "notepad", "calculator" := "calc",
    "word" := "winword", "excel" := "excel", "powerpoint" := "powerpnt",
    "discord" := "discord", "steam" := "steam", "vlc" := "vlc",
    "vs code" := "code", "visual studio code" := "code", "teams" := "teams",
    "zoom" := "zoom"]

  /** `app_keywords.get(app_name, app_name)`. */
  function CloseKeyword(name: string): string {
    if name in CloseKeywords then CloseKeywords[name] else name
  }

  /** A process as `psutil.process_iter()` yields it: its name, or `None`
      when reading it raises (the process vanished or access is denied), and
      whether `terminate()` returns normally. */
  datatype Proc = Proc(name: Option<string>, terminates: bool)

  /** The process's lower-cased name contains the keyword. */
  predicate Matches(p: Proc, keyword: string) {
    p.name.Some? && Contains(Lower(p.name.value), keyword)
  }

  /** The names appended to `found_processes`, in iteration order. */
  function FoundNames(procs: seq<Proc>, keyword: string): seq<string> {
    if procs == [] then []
    else (if Matches(procs[0], keyword) then [procs[0].name.value] else []) + FoundNames(procs[1..], keyword)
  }

  /** The names appended to `closed_processes`, in iteration order. */
  function ClosedNames(procs: seq<Proc>, keyword: string): seq<string> {
    if procs == [] then []
    else (if Matches(procs[0], keyword) && procs[0].terminates then [procs[0].name.value] else []) +
         ClosedNames(procs[1..], keyword)
  }

  /** The loop of system_actions.py:140-157: each matching process is
      recorded as found and then, if `terminate()` succeeds, as closed. */
  method ScanProcesses(procs: seq<Proc>, keyword: string) returns (found: seq<string>, closed: seq<string>)
    ensures found == FoundNames(procs, keyword)
    ensures closed == ClosedNames(procs, keyword)
  {
    found, closed := [], [];
    var i := 0;
    while i < |procs|
      invariant 0 <= i <= |procs|
      invariant found + FoundNames(procs[i..], keyword) == FoundNames(procs, keyword)
      invariant closed + ClosedNames(procs[i..], keyword) == ClosedNames(procs, keyword)
    {
      var p := procs[i];
      ScanStep(procs, keyword, i);
      ghost var f, c := FoundNames(procs[i + 1..], keyword), ClosedNames(procs[i + 1..], keyword);
      if p.name.Some? && Contains(Lower(p.name.value), keyword) {
        assert found + ([p.name.value] + f) == (found + [p.name.value]) + f;
        found := found + [p.name.value];
        if p.terminates {
          assert closed + ([p.name.value] + c) == (closed + [p.name.value]) + c;
          closed := closed + [p.name.value];
        } else {
          assert [] + c == c;
        }
      } else {
        assert [] + f == f && [] + c == c;
      }
      i := i + 1;
    }
    assert procs[|procs|..] == [];
  }

  /** One step of the scan: the lists of `procs[i..]` are those of its head
      followed by those of `procs[i + 1..]`. */
  lemma ScanStep(procs: seq<Proc>, keyword: string, i: nat)
    requires i < |procs|
    ensures var p := procs[i];
      FoundNames(procs[i..], keyword) ==
        (if Matches(p, keyword) then [p.name.value] else []) + FoundNames(procs[i + 1..], keyword) &&
      ClosedNames(procs[i..], keyword) ==
        (if Matches(p, keyword) && p.terminates then [p.name.value] else []) + ClosedNames(procs[i + 1..], keyword)
  {
    assert procs[i..][1..] == procs[i + 1..];
    assert procs[i..][0] == procs[i];
  }

  /** What was closed was found first, every found name contains the
      keyword, and something was found exactly when some process matches. */
  lemma ScanFacts(procs: seq<Proc>, keyword: string)
    ensures forall x :: x in ClosedNames(procs, keyword) ==> x in FoundNames(procs, keyword)
    ensures |ClosedNames(procs, keyword)| <= |FoundNames(procs, keyword)|
    ensures forall x :: x in FoundNames(procs, keyword) ==> Contains(Lower(x), keyword)
    ensures FoundNames(procs, keyword) != [] <==> exists k :: 0 <= k < |procs| && Matches(procs[k], keyword)
    ensures ClosedNames(procs, keyword) != [] <==>
      exists k :: 0 <= k < |procs| && Matches(procs[k], keyword) && procs[k].terminates
  {
    ClosedWithinFound(procs, keyword);
    FoundContainKeyword(procs, keyword);
    ScanNonEmpty(procs, keyword);
  }

  lemma {:induction false} ClosedWithinFound(procs: seq<Proc>, keyword: string)
    ensures forall x :: x in ClosedNames(procs, keyword) ==> x in FoundNames(procs, keyword)
    ensures |ClosedNames(procs, keyword)| <= |FoundNames(procs, keyword)|
  {
    if procs != [] {
      ClosedWithinFound(procs[1..], keyword);
    }
  }

  lemma {:induction false} FoundContainKeyword(procs: seq<Proc>, keyword: string)
    ensures forall x :: x in FoundNames(procs, keyword) ==> Contains(Lower(x), keyword)
  {
    if procs != [] {
      FoundContainKeyword(procs[1..], keyword);
    }
  }

  lemma ScanNonEmpty(procs: seq<Proc>, keyword: string)
    ensures FoundNames(procs, keyword) != [] <==> exists k :: 0 <= k < |procs| && Matches(procs[k], keyword)
    ensures ClosedNames(procs, keyword) != [] <==>
      exists k :: 0 <= k < |procs| && Matches(procs[k], keyword) && procs[k].terminates
  {
    FoundNonEmpty(procs, keyword);
    ClosedNonEmpty(procs, keyword);
  }

  lemma {:induction false} FoundNonEmpty(procs: seq<Proc>, keyword: string)
    ensures FoundNames(procs, keyword) != [] <==> exists k :: 0 <= k < |procs| && Matches(procs[k], keyword)
  {
    if procs != [] {
      var tail := procs[1..];
      FoundNonEmpty(tail, keyword);
      var head := if Matches(procs[0], keyword) then [procs[0].name.value] else [];
      assert FoundNames(procs, keyword) == head + FoundNames(tail, keyword);
      if exists k :: 1 <= k < |procs| && Matches(procs[k], keyword) {
        var k :| 1 <= k < |procs| && Matches(procs[k], keyword);
        assert procs[k] == tail[k - 1];
      }
      if exists k :: 0 <= k < |tail| && Matches(tail[k], keyword) {
        var k :| 0 <= k < |tail| && Matches(tail[k], keyword);
        assert tail[k] == procs[k + 1];
      }
    }
  }

  lemma {:induction false} ClosedNonEmpty(procs: seq<Proc>, keyword: string)
    ensures ClosedNames(procs, keyword) != [] <==>
      exists k :: 0 <= k < |procs| && Matches(procs[k], keyword) && procs[k].terminates
  {
    if procs != [] {
      var tail := procs[1..];
      ClosedNonEmpty(tail, keyword);
      var head := if Matches(procs[0], keyword) && procs[0].terminates then [procs[0].name.value] else [];
      assert ClosedNames(procs, keyword) == head + ClosedNames(tail, keyword);
      if exists k :: 1 <= k < |procs| && Matches(procs[k], keyword) && procs[k].terminates {
        var k :| 1 <= k < |procs| && Matches(procs[k], keyword) && procs[k].terminates;
        assert procs[k] == tail[k - 1];
      }
      if exists k :: 0 <= k < |tail| && Matches(tail[k], keyword) && tail[k].terminates {
        var k :| 0 <= k < |tail| && Matches(tail[k], keyword) && tail[k].terminates;
        assert tail[k] == procs[k + 1];
      }
    }
  }

  /** `list(set(xs))`, in order of first occurrence. (Python's set order is
      arbitrary; only the members are fixed.) */
  function Unique(xs: seq<string>): (r: seq<string>)
    ensures forall x :: x in r <==> x in xs
    ensures forall i, j :: 0 <= i < j < |r| ==> r[i] != r[j]
  {
    if xs == [] then []
    else
      var rest := Unique(xs[..|xs| - 1]);
      if xs[|xs| - 1] in rest then rest else rest + [xs[|xs| - 1]]
  }

  /** The three outcomes of system_actions.py:161-176. */
  function CloseOutcome(appName: string, found: seq<string>, closed: seq<string>): (r: ActionResult)
    ensures r.success <==> closed != []
    ensures r.success ==> r.summary == Some("Closed " + Join(Unique(closed), ", ") + ".")
    ensures !r.success && found != [] ==>
      r.summary == Some("Found " + appName + " but couldn't close it due to permissions.")
    ensures !r.success && found == [] ==>
      r.summary == Some("I couldn't find any running process for '" + appName + "'. Make sure it's running first.")
  {
    if closed != [] then Succeeded("Closed " + Join(Unique(closed), ", ") + ".")
    else if found != [] then Failed("Found " + appName + " but couldn't close it due to permissions.")
    else Failed("I couldn't find any running process for '" + appName + "'. Make sure it's running first.")
  }

  /** `close_application(app_name)` over the process list that
      `psutil.process_iter()` yields, or the error it raises. */
  function CloseResult(appName: string, listing: Result<seq<Proc>>): ActionResult {
    var name := Normalise(appName);
    match listing
    case Failure(e) => FailedWith(e, "Error trying to close " + name + ": " + e)
    case Success(procs) =>
      var keyword := CloseKeyword(name);
      CloseOutcome(name, FoundNames(procs, keyword), ClosedNames(procs, keyword))
  }

  /** `close_application` as the code runs it: normalise, resolve the
      keyword, scan the processes, classify. */
  method CloseApplication(appName: string, listing: Result<seq<Proc>>) returns (r: ActionResult)
    ensures r == CloseResult(appName, listing)
  {
    var name := Normalise(appName);
    if listing.Failure? {
      return FailedWith(listing.error, "Error trying to close " + name + ": " + listing.error);
    }
    var keyword := CloseKeyword(name);
    var found, closed := ScanProcesses(listing.value, keyword);
    r := CloseOutcome(name, found, closed);
  }

  /** Closing succeeds exactly when a process whose name contains the
      resolved keyword terminates; it reports a permission problem when such
      processes exist but none terminates, and "not found" when none exists. */
  lemma CloseClassification(appName: string, procs: seq<Proc>)
    ensures var name := Normalise(appName);
      var kw := CloseKeyword(name);
      var r := CloseResult(appName, Success(procs));
      (r.success <==> exists k :: 0 <= k < |procs| && Matches(procs[k], kw) && procs[k].terminates) &&
      ((exists k :: 0 <= k < |procs| && Matches(procs[k], kw)) && !r.success ==>
         r.summary == Some("Found " + name + " but couldn't close it due to permissions.")) &&
      ((forall k :: 0 <= k < |procs| ==> !Matches(procs[k], kw)) ==>
         r.summary == Some("I couldn't find any running process for '" + name + "'. Make sure it's running first."))
  {
    ScanFacts(procs, CloseKeyword(Normalise(appName)));
  }

  /** Each name in a "Closed" summary is the name of a process that matched
      the keyword and terminated, and each appears once. */
  lemma ClosedSummaryNames(procs: seq<Proc>, keyword: string)
    ensures var u := Unique(ClosedNames(procs, keyword));
      (forall x :: x in u ==> x in FoundNames(procs, keyword) && Contains(Lower(x), keyword)) &&
      (forall x :: x in ClosedNames(procs, keyword) ==> x in u)
  {
    ScanFacts(procs, keyword);
  }

  /** Names outside the table are searched for as they are. */
  lemma CloseKeywordDefault(name: string)
    ensures name !in CloseKeywords ==> CloseKeyword(name) == name
    ensures name in CloseKeywords ==> CloseKeyword(name) in CloseKeywords.Values
  {
  }

  // ---------------------------------------------------------------------
  // Spotify control (system_actions.py:186-433)

  /** How a subprocess call ends: it ran, it failed the way the caller
      catches (`CalledProcessError`, or a timeout), or it raised something
      else, with the exception's text. */
  datatype CmdOutcome = Ran | CallFailed | Raised(message: string)

  /** What the Windows media backends would do: whether a Spotify process
      is running, whether `start spotify` launches, whether pywin32,
      keyboard and nircmd are usable, and how the PowerShell focus call ends. */
  datatype WindowsMedia = WindowsMedia(
    running: bool, startOk: bool, win32: bool, keyboard: bool, nircmd: bool, powershell: CmdOutcome)

  /** The collaborators Spotify control calls. `player(verb)` is the dbus or
      AppleScript player command for `play`, `pause`, `next`, `previous`;
      `opener(url)` opens a `spotify:search:` URL. */
  datatype SpotifyEnv = SpotifyEnv(
    windows: WindowsMedia, player: string -> CmdOutcome, opener: string -> CmdOutcome)

  const MediaActions := ["play", "pause", "next", "previous"]

  /** `f"spotify:search:{query.replace(' ', '%20')}"`. */
  function SearchUrl(query: string): string {
    "spotify:search:" + Replace(query, ' ', "%20")
  }

  /** The search URL holds no space, and a query without spaces is put in
      as it is. */
  lemma {:induction false} SearchUrlShape(query: string)
    ensures ' ' !in SearchUrl(query)
    ensures ' ' !in query ==> SearchUrl(query) == "spotify:search:" + query
    ensures |Replace(query, ' ', "%20")| >= |query|
  {
    ReplaceNoOp(query);
    ReplaceGrows(query);
  }

  lemma {:induction false} ReplaceNoOp(s: string)
    ensures ' ' !in s ==> Replace(s, ' ', "%20") == s
  {
    if s != [] && ' ' !in s {
      assert ' ' !in s[1..];
      ReplaceNoOp(s[1..]);
      assert s == [s[0]] + s[1..];
    }
  }

  lemma {:induction false} ReplaceGrows(s: string)
    ensures |Replace(s, ' ', "%20")| >= |s|
  {
    if s != [] {
      ReplaceGrows(s[1..]);
    }
  }

  /** What the three Windows key-injection backends report for a media action. */
  function MediaKeySummary(action: string): string {
    if action == "play" then "Playing Spotify."
    else if action == "pause" then "Pausing Spotify."
    else if action == "next" then "Skipped to next track."
    else "Went to previous track."
  }

  /** `action_messages` after the PowerShell focus succeeded. */
  function FocusSummary(action: string): string {
    if action == "play" then "Started Spotify playback."
    else if action == "pause" then "Paused Spotify playback."
    else if action == "next" then "Skipped to next track."
    else "Went to previous track."
  }

  const SpotifyNotRunning := "Spotify is not running. Please open Spotify first."
  const SpotifyAskQuery := "What would you like me to search for on Spotify?"

  /** `_control_spotify_windows(action, query)`. */
  function SpotifyWindows(action: string, query: string, env: SpotifyEnv): ActionResult {
    var w := env.windows;
    if !w.running && action !in ["search_and_play", "play"] then Failed(SpotifyNotRunning)
    else if !w.running && action == "play" then
      if w.startOk then Succeeded("Starting Spotify.")
      else Failed("Could not start Spotify. Please make sure it's installed.")
    else if action in MediaActions && (w.win32 || w.keyboard || w.nircmd) then
      Succeeded(MediaKeySummary(action))
    // `_focus_spotify_and_send_keys`: its PowerShell call runs for every
    // action; a missing PowerShell escapes to the outer handler.
    else if w.powershell.Raised? then
      FailedWith(w.powershell.message, "Windows Spotify control failed: " + w.powershell.message)
    else if w.powershell.Ran? && action in MediaActions then Succeeded(FocusSummary(action))
    else if action == "search_and_play" then
      if query == [] then Failed(SpotifyAskQuery)
      else match env.opener(SearchUrl(query))
        case Raised(e) => FailedWith(e, "Windows Spotify control failed: " + e)
        case _ => Succeeded("Opening Spotify and searching for '" + query + "'.")
    else Failed("Could not control Spotify. Try installing 'pip install pywin32' or 'pip install keyboard' for better media control, or use 'nircmd' utility.")
  }

  /** The player command each media action sends. */
  function PlayerVerb(action: string): string {
    if action == "play" then "Play"
    else if action == "pause" then "Pause"
    else if action == "next" then "Next"
    else "Previous"
  }

  /** What Linux and macOS report for a media action that ran. */
  function PlayerSummary(action: string): string {
    if action == "play" then "Playing Spotify."
    else if action == "pause" then "Paused Spotify."
    else if action == "next" then "Skipped to next track."
    else "Went to previous track."
  }

  /** `_control_spotify_linux` and `_control_spotify_macos`, which differ
      only in their messages. */
  function SpotifyUnix(os: OsType, action: string, query: string, env: SpotifyEnv): (r: ActionResult)
    requires os.Linux? || os.Darwin?
    ensures !r.requiresConfirmation && !r.stopRequested
  {
    var failedCall := if os.Linux? then "Spotify is not running or dbus control is not available."
                      else "Spotify is not running or AppleScript control failed.";
    var crashed := if os.Linux? then "Linux Spotify control failed: " else "macOS Spotify control failed: ";
    if action in MediaActions then
      match env.player(PlayerVerb(action))
      case Ran => Succeeded(PlayerSummary(action))
      case CallFailed => Failed(failedCall)
      case Raised(e) => FailedWith(e, crashed + e)
    else if action == "search_and_play" then
      if query == [] then Failed(SpotifyAskQuery)
      else match env.opener(SearchUrl(query))
        case Raised(e) => FailedWith(e, crashed + e)
        case _ => Succeeded("Searching for '" + query + "' on Spotify.")
    else Failed("Unknown Spotify action: " + action)
  }

  /** `control_spotify(action, query)`: dispatch on the operating system. */
  function ControlSpotify(os: OsType, action: string, query: string, env: SpotifyEnv): (r: ActionResult)
    ensures !r.requiresConfirmation && !r.stopRequested
    ensures os.OtherOs? ==> r == Failed("Spotify control is not supported on " + os.name + ".")
  {
    match os
    case Windows => SpotifyWindows(action, query, env)
    case OtherOs(n) => Failed("Spotify control is not supported on " + n + ".")
    case _ => SpotifyUnix(os, action, query, env)
  }

  /** On Windows, once the gate is passed, a media action succeeds exactly
      when a key-injection backend is usable or the PowerShell focus ran, and
      a search succeeds exactly when PowerShell did not crash, the query is
      non-empty and opening the search URL did not crash. */
  lemma SpotifyWindowsActions(action: string, query: string, env: SpotifyEnv)
    requires env.windows.running || action == "search_and_play"
    ensures var w := env.windows; var r := ControlSpotify(Windows, action, query, env);
      (action in MediaActions ==>
         (r.success <==> w.win32 || w.keyboard || w.nircmd || w.powershell.Ran?)) &&
      (action == "search_and_play" ==>
         (r.success <==> !w.powershell.Raised? && query != [] && !env.opener(SearchUrl(query)).Raised?)) &&
      (action !in MediaActions && action != "search_and_play" ==> !r.success)
  {
  }

  /** On Windows, without a running Spotify only `play` and
      `search_and_play` get past the gate. */
  lemma SpotifyWindowsGate(action: string, query: string, env: SpotifyEnv)
    requires !env.windows.running
    ensures var r := ControlSpotify(Windows, action, query, env);
      (action !in ["search_and_play", "play"] ==> r == Failed(SpotifyNotRunning)) &&
      (action == "play" ==> r.success == env.windows.startOk)
  {
  }

  /** On Linux and macOS an empty search is answered with a question, and
      the opener is never consulted: the result is the same whatever it does. */
  lemma SpotifyEmptySearch(os: OsType, env1: SpotifyEnv, env2: SpotifyEnv)
    requires os.Linux? || os.Darwin?
    ensures ControlSpotify(os, "search_and_play", "", env1) == Failed(SpotifyAskQuery)
    ensures ControlSpotify(os, "search_and_play", "", env1) == ControlSpotify(os, "search_and_play", "", env2)
  {
  }

  /** On Linux and macOS an action outside the five known ones is refused by
      name, without calling the player or the opener. */
  lemma SpotifyUnknownAction(os: OsType, action: string, query: string, env: SpotifyEnv)
    requires os.Linux? || os.Darwin?
    requires action !in MediaActions && action != "search_and_play"
    ensures ControlSpotify(os, action, query, env) == Failed("Unknown Spotify action: " + action)
  {
  }

  /** On Linux and macOS a media action succeeds exactly when its player
      command runs, and a search exactly when the query is non-empty and the
      URL opener does not raise; the opener is given the `%20` URL. */
  lemma SpotifyUnixSuccess(os: OsType, action: string, query: string, env: SpotifyEnv)
    requires os.Linux? || os.Darwin?
    ensures var r := ControlSpotify(os, action, query, env);
      (action in MediaActions ==> (r.success <==> env.player(PlayerVerb(action)).Ran?)) &&
      (action == "search_and_play" ==>
         (r.success <==> query != [] && !env.opener(SearchUrl(query)).Raised?))
  {
  }
}
