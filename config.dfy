/** The configuration constants that the modelled code reads. */
module Config {
  /** The wake words, in the order they are tried (config.py, `WAKE_WORDS`). */
  const WakeWords: seq<string> := ["aethera", "hey aethera", "ok aethera"]

  /** How many search results are kept (`MAX_SEARCH_RESULTS`). */
  const MaxSearchResults: nat := 3

  /** The longest search summary, in characters (`SEARCH_SUMMARY_LENGTH`). */
  const SearchSummaryLength: nat := 200
}
