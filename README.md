# Aethera voice assistant: the text-to-action pipeline in Dafny

Aethera is a voice assistant. It listens for a spoken command and transcribes it. It classifies the text into an *intent* with *entities*, using an ordered table of regular expressions. It holds back commands that look dangerous until the user confirms them, and otherwise dispatches the intent to a handler through a registry. The handlers search the web, read news feeds, open and close applications, drive Spotify, or answer from the clock. The handler's result record is then spoken.

This project models that pipeline and proves properties of it:

| module | file | models |
|---|---|---|
| `Wrappers`, `Config`, `Text` | `wrappers.dfy`, `config.dfy`, `text.dfy` | Python's `lower()`, `strip()`, `in`, `str.join`, `str.replace` and slicing on strings, plus the configuration constants |
| `Patterns` | `patterns.dfy` | the subset of `re.search` that the intent table uses. A pattern is a list of alternative heads followed by one of five tails: nothing, `(.+)`, `(\d+)`, the optional ` in (.+)` clause, or a greedy `(.+)` before an ending |
| `Nlp` | `nlp.dfy` | `NLPProcessor`: the intent table in order, `extract_intent` as a first-match search, the entity rules, and `requires_confirmation` |
| `Results` | `results.dfy` | the result dictionaries handlers return, as a record |
| `WebSearch` | `websearch.dfy` | `WebSearcher`: `_truncate_text`, the four search backends over abstract page contents, the fallback order of `search_web`, Wikipedia, and news headlines |
| `SystemActions` | `systemactions.dfy` | `SystemController`: application name resolution, the process-closing loop and its outcome, and Spotify control on each OS |
| `Speech` | `speech.dfy` | the two string helpers of `SpeechHandler` |
| `Actions` | `actions.dfy` | `ActionHandler`: the registry (a class with a `map` field), the handlers, and `process_command` |
| `Assistant` | `assistant.dfy` | `AetheraAssistant`: the confirmation state machine, as a class whose methods are proved equal to pure step functions over a `Session` value |

Several collaborators are fields of a `World` value that the handlers read:
- the network (per-query backend results, Wikipedia lookups, RSS feeds)
- the process list
- subprocess launching
- the clock
- the volume, system-information and screenshot backends
- the choice made by `random.choice`

Speech output is a log (`seq<string>`) that the controller appends to. Listening is a sequence of transcription results fed to `Run`.

## Model

| member | source | states |
|---|---|---|
| Text.StripLowerCommute | nlp.py:163 | stripping and lower-casing commute, so `text.lower().strip()` equals the other order |
| Text.StripIdempotent | main.py:62 | stripping twice is stripping once |
| Text.StripIgnoresPadding | nlp.py:163 | whitespace added on either side does not change the stripped text |
| Text.NormaliseIdempotent | nlp.py:163 | normalising (lower then strip) a normalised text changes nothing |
| Text.NormaliseIgnoresCase | system_actions.py:69 | normalising the lower-cased text gives the same result |
| Text.NormaliseIgnoresPadding | system_actions.py:69 | surrounding whitespace does not change the normalised text |
| Text.NormaliseShape | nlp.py:163 | a normalised text is lower-case and has no surrounding whitespace |
| Text.ContainsIff | nlp.py:178 | `p in t` holds iff `p` occurs at some position of `t` |
| Patterns.FirstHead | nlp.py:8 | alternatives `(?:a\|b)` are tried in order: the chosen head fits, and no earlier one does |
| Patterns.LastEnd | nlp.py:111 | a greedy `(.+)` before an ending stops at the last position within the line where an ending occurs |
| Patterns.FirstPos | nlp.py:167 | the match position is the leftmost one at which the pattern matches |
| Patterns.SearchIff | nlp.py:167 | `re.search` succeeds iff the pattern matches at some position |
| Patterns.SearchIsLeftmost | nlp.py:167 | the search result is the match at the leftmost matching position |
| Patterns.LitSearchIff | nlp.py:96-100 | a literal pattern matches iff it is a substring, and it captures no group |
| Patterns.AnySearchIff | nlp.py:121 | a group-free alternation matches iff one alternative is a substring |
| Patterns.InClauseSearchIff | nlp.py:81-83 | a keyword with the optional ` in (.+)` clause matches iff the keyword occurs, and it always yields group 1 |
| Patterns.RestGroup | nlp.py:8-16 | `kw (.+)` captures a non-empty rest of the line right after a head |
| Patterns.RestCaptureOccurs | nlp.py:172 | the captured group is a non-empty, single-line substring of the text |
| Patterns.DigitGroup | nlp.py:54 | `(\d+)` captures a non-empty run of digits |
| Patterns.BeforeGroup | nlp.py:111 | the greedy group before an ending is non-empty, follows a head, and is followed by an ending |
| Patterns.TailsGroup | nlp.py:167 | a match has group 1 exactly when the pattern has a capturing tail |
| Nlp.FirstMatch | nlp.py:165-168 | the hit matches, and no (intent, pattern) pair earlier in table order matches |
| Nlp.ClassifyTotal | nlp.py:162-222 | the result is `general_query` with the normalised text as query iff no pattern matches; otherwise it is an intent of the table |
| Nlp.FirstMatchNone | nlp.py:165-168 | the scan finds nothing iff no pattern of the table matches |
| Nlp.FirstMatchBound | nlp.py:165-168 | whenever intent `a` has a matching pattern, the winning intent is `a` or an earlier one |
| Nlp.ClassifyFirstMatch | nlp.py:165-220 | a classified intent comes from a matching pattern, and no earlier pattern matches; its entities are those of that match |
| Nlp.FoundPatternBoundsIntent | nlp.py:165-168 | a text matching the pattern at position `a` of the table classifies to an intent at or before `a` |
| Nlp.StopListeningShadowed | nlp.py:30 | a text containing `stop listening` never classifies as `stop_listening`, because `stop (.+)` under `close_app` is tried first |
| Nlp.WebSearchComesFirst | nlp.py:7-16 | any text that matches a `web_search` pattern classifies as `web_search` |
| Nlp.ClassifyIgnoresCase | nlp.py:163 | classification does not depend on letter case |
| Nlp.ClassifyIgnoresPadding | nlp.py:163 | classification does not depend on surrounding whitespace |
| Nlp.FillKeys | nlp.py:169-218 | the set of entity keys filled for each intent |
| Nlp.EntityKeys | nlp.py:169-222 | the entity keys for every classified text, including `query` for `general_query` |
| Nlp.KeywordEntities | nlp.py:171-174 | the query or application name is a stripped, single-line substring of the normalised text |
| Nlp.VolumeCascade | nlp.py:175-185 | the level is set iff `volume to` occurs and a group exists; otherwise up, down, mute-without-unmute and unmute are tried in that order |
| Nlp.VolumeLevelFromDigits | nlp.py:176-177 | a volume level is `int()` of a digit run that follows `volume to ` in the text |
| Nlp.WeatherLocation | nlp.py:186-190 | the location is the stripped group when one was captured, otherwise `current` |
| Nlp.SpotifyActions | nlp.py:191-218 | the action is always one of five values, decided branch by branch: the exact play phrases and "play music" give `play`, the exact pause phrases and only they give `pause`; otherwise a next-song phrase gives `next`, then a previous-song phrase `previous`; then "play" or "search" together with "spotify" gives `search_and_play` with the stripped capture as query when there is one; then "spotify" with a capture gives `search_and_play`; anything else gives `play` |
| Nlp.NoIntentIsDangerous | nlp.py:225-228 | no intent the classifier produces is in the dangerous-intent list |
| Nlp.GateForIntents | nlp.py:224-235 | for a classified intent, the gate fires iff a query or application name is present and a dangerous phrase occurs in `lower(query + ' ' + app_name)` |
| Nlp.GateIgnoresCase | nlp.py:231-233 | the gate does not depend on the case of the query |
| Results.Report.AsAction | actions.py:111-115 | a collaborator's report passes through unchanged, and it never asks for confirmation or for a stop |
| WebSearch.Truncate | web_search.py:351-366 | the result is at most `max_length + 3` characters |
| WebSearch.SentenceEnd | web_search.py:357-361 | the largest of the three `rfind` results: a sentence end, with none after it |
| WebSearch.BeforeLastSpace | web_search.py:366 | `rsplit(' ', 1)[0]`: the prefix before the last space, or the whole text without one |
| WebSearch.TruncateShort | web_search.py:353-354 | a text of at most `max_length` characters is returned unchanged |
| WebSearch.TruncateAtSentence | web_search.py:356-364 | past 70% of the limit, the cut ends at the last sentence end, is a prefix of at most `max_length` characters, and no sentence end follows it within the limit |
| WebSearch.TruncateAtSpace | web_search.py:366 | otherwise the result is `...` appended to `text[:max]` cut before its last space, or to the whole of `text[:max]` exactly when it has no space |
| WebSearch.TruncateEmptyIff | web_search.py:351-366 | the result is empty iff the text is empty |
| WebSearch.SummaryTextFirstTwo | web_search.py:90 | the summary text is the first snippet, joined by `. ` to the second when there is one |
| WebSearch.SummaryTextNonEmpty | web_search.py:89-97 | a summary built from results whose first snippet is non-empty is non-empty |
| WebSearch.BingSources | web_search.py:60-74 | at most one source per item, each without a URL and with a snippet of at most 103 characters |
| WebSearch.BingSourcesExact | web_search.py:60-74 | the sources are exactly those of the items with both a title and a snippet: none when no item has both, one for every such item, and each from such an item (stripped title, snippet truncated to 100) |
| WebSearch.CollectBingSources | web_search.py:57-74 | the loop over the first `MAX_SEARCH_RESULTS` items collects exactly `BingSources` of them |
| WebSearch.BingSearch | web_search.py:44-102 | a success carries the query, a summary and at most three sources; a failure carries no summary |
| WebSearch.BingSummaryFromResults | web_search.py:76-99 | without answer-box text, Bing answers iff some result was collected, with the summary of the first results |
| WebSearch.UrlTitle | web_search.py:142 | the title contains neither `_` nor `/` |
| WebSearch.UrlTitleSegment | web_search.py:142 | the title is the text after the last `/` of the URL, character for character, with each `_` read as a space |
| WebSearch.DdgSources | web_search.py:139-145 | at most one source per entry, each with a URL, a title free of `_` and a snippet of at most 103 characters |
| WebSearch.DdgSourcesExact | web_search.py:139-145 | the sources are exactly those of the entries with a `Text` key: none when there is no such entry, one for every such entry, and each from such an entry (URL title, text truncated to 100, the URL) |
| WebSearch.CollectDdgSources | web_search.py:137-145 | the loop over the first `MAX_SEARCH_RESULTS` topics collects exactly `DdgSources` of them |
| WebSearch.DuckDuckGoSearch | web_search.py:104-153 | a success carries the query, a non-empty summary and at most three sources |
| WebSearch.DuckDuckGoPrecedence | web_search.py:126-150 | AbstractText is preferred, then Definition, then Answer; the search fails iff all three are empty |
| WebSearch.Pairing | web_search.py:184-201 | the pairing loop emits at most its budget of pairs |
| WebSearch.PairResults | web_search.py:184-201 | the loop with its `current_title` variable computes exactly `Pairing` with budget `MAX_SEARCH_RESULTS` |
| WebSearch.PairingProvenance | web_search.py:186-198 | every pair's title is a title-like element text taken from an earlier element than its snippet, which is a truncated text of more than 20 characters |
| WebSearch.PairingSnippets | web_search.py:193-197 | every snippet is non-empty and at most 103 characters |
| WebSearch.GoogleSearch | web_search.py:155-216 | a success carries the query and a summary |
| WebSearch.GoogleAnswerHasSummary | web_search.py:170-211 | a successful Google answer has a non-empty summary and at most three sources |
| WebSearch.WikipediaFallback | web_search.py:218-251 | a failure says it found no reliable information about the query |
| WebSearch.SearchWikipedia | web_search.py:253-301 | there is always a summary; success holds iff the page was found or a disambiguation resolved through its first option |
| WebSearch.FallbackOrder | web_search.py:19-34 | Bing if it succeeded with a summary, else DuckDuckGo under the same test, else Google if it succeeded, else Wikipedia |
| WebSearch.SearchWebAnswers | web_search.py:15-34 | the answer has a summary or is the Wikipedia fallback, and every failure is the Wikipedia fallback |
| WebSearch.FeedUrl | web_search.py:306-313 | the feed URL is always one of the four known feeds |
| WebSearch.FeedUrlKnown | web_search.py:313 | a known topic (in any case) picks its feed, and any other topic picks the technology feed |
| WebSearch.HeadlineOf | web_search.py:320-326 | the title is the item's title, or "No title" without one; the description is at most 103 characters, empty exactly when the item has no or an empty description, and unchanged when it has at most 100 characters |
| WebSearch.CollectHeadlines | web_search.py:318-326 | the loop over the first 5 items collects exactly their headlines |
| WebSearch.GetNewsHeadlines | web_search.py:303-349 | at most 5 headlines are kept |
| WebSearch.NewsSummary | web_search.py:313-349 | success iff the feed gave items. The summary then names the topic and lists the first three titles; on failure it says the news could not be fetched |
| Speech.WakeWordDetectedIff | speech.py:73-74 | a wake word is detected iff one occurs in the lower-cased text |
| Speech.WakeWordIgnoresCase | speech.py:73-74 | detection does not depend on letter case |
| Speech.RemoveWakeWord | speech.py:76-81 | the result never has surrounding whitespace |
| Speech.RemoveWakeWordFirst | speech.py:77-81 | the first wake word in list order that starts the lower-cased text is cut by its length and the rest is stripped; without one, the text is only stripped |
| Speech.RemovesConfiguredWakeWord | speech.py:76-81 | with the configured wake words, `remove_wake_word(w + command)` is `command.strip()` for each wake word `w` |
| SystemActions.OsNames | system_actions.py:14 | `os_type` is `windows`, `linux` or `darwin` exactly for those three systems; any other system name is a fourth case |
| SystemActions.OpenApplication | system_actions.py:67-105 | success iff launching the resolved command of the normalised name does not fail; the summaries name the normalised name |
| SystemActions.OpenCommandDefault | system_actions.py:71-88 | a name missing from the table launches itself, and a known name launches its table entry |
| SystemActions.OpenIgnoresCaseAndPadding | system_actions.py:69 | the outcome does not depend on the case of the name or on surrounding whitespace |
| SystemActions.ScanProcesses | system_actions.py:137-157 | the loop collects exactly the names of matching processes (found) and of those whose terminate succeeded (closed) |
| SystemActions.ScanFacts | system_actions.py:140-157 | closed ⊆ found, and every found name contains the keyword when lower-cased. Found is non-empty iff some process matches, and closed is non-empty iff some matching process terminates |
| SystemActions.Unique | system_actions.py:162 | deduplication keeps exactly the same names, each once |
| SystemActions.CloseOutcome | system_actions.py:161-176 | success iff something was closed, else the permissions message if something was found, else the not-found message |
| SystemActions.CloseApplication | system_actions.py:107-184 | the method computes the close result, including the error path when the process list cannot be read |
| SystemActions.CloseClassification | system_actions.py:109-176 | success iff some process matching the resolved keyword terminates, with the two failure messages as above |
| SystemActions.ClosedSummaryNames | system_actions.py:161-166 | the names in the success summary are exactly the closed ones, all of them found and matching the keyword |
| SystemActions.CloseKeywordDefault | system_actions.py:112-134 | a name missing from the keyword table is searched for as itself |
| SystemActions.SearchUrlShape | system_actions.py:293 | the search URL holds no space, and a query without spaces is put in unchanged |
| SystemActions.SpotifyUnix | system_actions.py:338-433 | Linux and macOS control never asks for confirmation or for a stop |
| SystemActions.ControlSpotify | system_actions.py:186-205 | an unsupported OS gets "Spotify control is not supported on ..." |
| SystemActions.SpotifyWindowsGate | system_actions.py:211-225 | on Windows without a running Spotify, everything but play and search is refused, and play succeeds iff Spotify starts |
| SystemActions.SpotifyWindowsActions | system_actions.py:227-301 | past the gate, a media action succeeds iff a key backend is usable or the PowerShell focus ran. A search succeeds iff PowerShell did not crash, the query is non-empty and opening the URL did not crash. Anything else fails |
| SystemActions.SpotifyEmptySearch | system_actions.py:367-369 | on Linux and macOS, a search with an empty query asks what to search for, whatever the environment |
| SystemActions.SpotifyUnknownAction | system_actions.py:375-376 | on Linux and macOS, an unknown action gives "Unknown Spotify action" |
| SystemActions.SpotifyUnixSuccess | system_actions.py:338-433 | a media action succeeds iff the player command ran; a search succeeds iff the query is non-empty and opening the URL did not crash |
| Actions.DefaultRegistryTotal | actions.py:14-31 | every intent the classifier can return is bound, to its own built-in handler |
| Actions.ActionHandler.constructor | actions.py:9-31 | the registry starts as the sixteen built-in bindings, and the handler keeps the collaborators it is given |
| Actions.ActionHandler.RegisterAction | actions.py:70-71 | exactly one key is set to the new handler, and every other binding is unchanged |
| Actions.PickNewsTopic | actions.py:79-83 | the loop with `break` computes the news topic |
| Actions.TopicFromFirst | actions.py:80-83 | from index `k` on, the topic is the first listed topic the query contains, and `technology` when it contains none |
| Actions.NewsTopicFirst | actions.py:78-84 | the news topic is the first of science, business, world, technology that the lower-cased query contains, and technology when it contains none |
| Actions.ConfirmationRequest | actions.py:46-53 | the confirmation answer succeeds, asks for confirmation and carries the raw command |
| Actions.GateRunsNoHandler | actions.py:45-53 | when the gate fires, the answer is the same for every registry and collaborator |
| Actions.DefaultRegistryRoutes | actions.py:55-56 | with the default registry, every ungated command reaches its intent's built-in handler |
| Actions.BuiltinFlags | actions.py:73-191 | no built-in handler asks for confirmation, and only `stop_listening` asks to stop |
| Actions.StopAlwaysStops | actions.py:160-165 | the stop handler always succeeds with the goodbye line and a stop request |
| Actions.WeatherAlwaysFails | actions.py:141-146 | the weather handler always fails, naming the location |
| Actions.MissingEntityAsks | actions.py:73-109 | a missing or empty query or application name gets a clarifying failure without consulting any collaborator |
| Actions.VolumeRouting | actions.py:117-127 | with neither action nor level, the handler asks; a level forces `set` |
| Actions.WebSearchRouting | actions.py:73-88 | a query mentioning news, headlines or latest reads the topic's feed; any other query searches the web |
| Actions.GeneralQueryAnswer | actions.py:167-179 | the web answer is returned only when it succeeded with a summary; otherwise a failure naming the query |
| Actions.GreetingIsCanned | actions.py:154-158 | the greeting is one of the five canned lines |
| Actions.ClockSummaries | actions.py:129-139 | time and date rewrite the clock's summary on success and fail with it |
| Assistant.AetheraAssistant.constructor | main.py:17-19 | listening, not awaiting, no pending command, nothing spoken |
| Assistant.AetheraAssistant.Speak | speech.py:60-63 | speaking appends one line to the log |
| Assistant.AetheraAssistant.Shutdown | main.py:131-134 | listening stops and the shutdown line is spoken |
| Assistant.AetheraAssistant.HandleActionResult | main.py:105-129 | the fields and the log are updated as `AfterResult` describes |
| Assistant.AetheraAssistant.HandleCommand | main.py:61-71 | blank commands are ignored; others go through `process_command` |
| Assistant.AetheraAssistant.HandleConfirmation | main.py:73-103 | the fields and the log are updated as `AfterConfirmation` describes |
| Assistant.AetheraAssistant.ListenAndProcess | main.py:43-59 | a failed listen does nothing; otherwise the text is routed on `awaiting_confirmation` |
| Assistant.AetheraAssistant.Run | main.py:28-34 | after the greeting, the loop processes transcriptions until listening stops or the input runs out |
| Assistant.InitialConsistent | main.py:17-19 | the initial state satisfies the invariant |
| Assistant.AfterResultConsistent | main.py:105-116 | handling a result keeps `awaiting_confirmation` iff a non-empty command is pending |
| Assistant.InvokeWellFormed | actions.py:55-56 | a handler's result never asks for confirmation without a command to confirm |
| Assistant.ProcessCommandWellFormed | actions.py:45-53 | `process_command` on a non-blank command gives a well-formed result, because the gate stores the command itself |
| Assistant.AfterListenConsistent | main.py:43-103 | every transition keeps `awaiting_confirmation` iff `pending_action` is non-empty |
| Assistant.StepsConsistent | main.py:32-34 | the invariant holds after any sequence of transcriptions |
| Assistant.RunConsistent | main.py:28-34 | a whole run from the initial state ends in a consistent state |
| Assistant.FailedListenIsNoOp | main.py:47-50 | a failed listen changes nothing |
| Assistant.BlankCommandIgnored | main.py:62-65 | a blank command changes nothing |
| Assistant.AffirmativeWins | main.py:78-90 | an affirmative reply confirms even if it also contains a negative word: both fields are cleared and the pending text is replayed |
| Assistant.NegativeCancels | main.py:97-100 | a negative reply clears both fields and speaks the cancellation |
| Assistant.UnclearReplyReprompts | main.py:102-103 | any other reply leaves the fields unchanged and speaks the prompt again |
| Assistant.ConfirmationBeforeStop | main.py:107-111 | a confirmation request takes precedence over a stop request |
| Assistant.StopShutsDown | main.py:113-116 | a stop result speaks its summary, then the shutdown line, and stops listening |
| Assistant.StoppedStaysStopped | main.py:32 | once listening has stopped, no further input is consumed |
| Assistant.ClassifyStripped | main.py:62 | stripping a command before classifying it does not change its classification |
| Assistant.GateStoresCommand | main.py:107-110 | a gated command is stored stripped, and its question is spoken |
| Assistant.ReplayInvokes | main.py:86-90 | replaying a command whose intent is registered calls that handler with its entities |
| Assistant.ConfirmReplaysCommand | main.py:79-90 | a gated command followed by an affirmative reply calls the registry handler with the command's own classification, without the gate; only the question is spoken in between |

## Left out

- Audio: microphone capture, speech recognition and speech synthesis (`listen`, `speak`, `speak_async`, `setup_tts`). A transcription is an input `Heard(ok, text)`, and speaking appends to a log.
- Threads, `time.sleep`, the signal handler, `KeyboardInterrupt`, and `sys.exit` in `_shutdown` and in the constructor's error path. Shutdown only clears `is_listening`, and the loop then ends.
- The catch-all `except` blocks of `run`, `_listen_and_process`, `_handle_action_result`, `process_command` and `search_web`. Nothing in the model raises, so these branches have no counterpart.
- Actual HTTP requests, HTML, XML and JSON parsing, and the `wikipedia` package. Each backend sees an abstract page: Bing items and answer box, DuckDuckGo fields, Google element texts and featured snippet, RSS items, or a Wikipedia lookup outcome.
- psutil, subprocess, pycaw, pywin32, keyboard, nircmd, PowerShell, dbus, osascript and ImageGrab are abstract outcomes. In particular, `Popen(command.split())` is part of the abstract `spawn`.
- `get_system_info`, `take_screenshot`, `list_running_processes` and the per-OS volume backends are abstract reports, because their content is OS data, floating point (`_bytes_to_gb`, the volume scalars) or sorting of OS data.
- `get_help_text`: its text is a constant, so it is a field of the world.
- `random.choice` among the greetings is a world-chosen index. `datetime.strftime` output is part of the clock.
- `list(set(closed))` has no defined order. `Unique` keeps first occurrences, and only membership and the absence of duplicates are stated.
- `lower()` is modelled for ASCII letters only, and `\s` as ASCII whitespace plus `\x1c`-`\x1f`. Unicode case mapping and Unicode whitespace are not modelled.
- Regular expressions are modelled only for the shapes the intent table uses, not as a general engine. `last > max_length * 0.7` is written as `10 * last > 7 * max_length`. The two agree for the lengths the code passes (100 and 200, where `max_length * 0.7` is exactly 70.0 and 140.0); for other lengths the float product can fall just below the exact value (`90 * 0.7` is `62.99999999999999`), which the model does not reproduce.
- The `DEBUG` lines that `close_application` prints to the console (system_actions.py:110-159 and 179) are not modelled, because they are console output only and do not affect the result.
- `CONFIRMATION_REQUIRED` in config.py is not used by the gate, so it is not modelled.
- The two worked examples of first-match order ("stop listening" and "wikipedia search x") are stated for all texts rather than for those literal strings: `Nlp.StopListeningShadowed` and `Nlp.WebSearchComesFirst`.
- Spotify entities: "play some jazz on spotify" captures "some jazz on", because the code's `(.+)` is greedy (nlp.py:111). The model follows the code, and states only that a query comes from the text.
- Assistant.AetheraAssistant.Run: the microphone loop runs over a finite sequence of transcriptions, so a run that never stops listening is modelled only up to the end of its input.
- WebSearch.WikipediaFallback: its contract states the failure message only. The success summaries are truncations of abstract lookup text and are described by `Truncate`'s lemmas.
- WebSearch.GetNewsHeadlines: its own contract bounds the headline count only. `WebSearch.NewsSummary` states its full behaviour.
