/** The two pure string helpers of `SpeechHandler` (speech.py): finding a
    wake word in a transcription and removing one from its start. The
    microphone, the recogniser and speech synthesis are not modelled. */
module Speech {
  import opened Text
  import opened Config

  /** `is_wake_word_detected(text, wake_words)`. */
  predicate IsWakeWordDetected(text: string, wakeWords: seq<string>) {
    AnyIn(Lower(text), wakeWords)
  }

  /** A wake word is detected exactly when one of them occurs somewhere in
      the lower-cased text. */
  lemma WakeWordDetectedIff(text: string, wakeWords: seq<string>)
    ensures IsWakeWordDetected(text, wakeWords) <==>
      exists k, i :: 0 <= k < |wakeWords| && OccursAt(Lower(text), wakeWords[k], i)
  {
    var t := Lower(text);
    if IsWakeWordDetected(text, wakeWords) {
      var k :| 0 <= k < |wakeWords| && Contains(t, wakeWords[k]);
      ContainsIff(t, wakeWords[k]);
    }
    if exists k, i :: 0 <= k < |wakeWords| && OccursAt(t, wakeWords[k], i) {
      var k, i :| 0 <= k < |wakeWords| && OccursAt(t, wakeWords[k], i);
      ContainsAt(t, wakeWords[k], i);
    }
  }

  /** Detection does not depend on the case of the transcription. */
  lemma WakeWordIgnoresCase(text: string, wakeWords: seq<string>)
    ensures IsWakeWordDetected(Lower(text), wakeWords) == IsWakeWordDetected(text, wakeWords)
  {
    LowerIdempotent(text);
  }

  /** Wake word `w` starts the lower-cased text `lowered`. */
  predicate StartsWith(lowered: string, w: string) {
    w <= lowered
  }

  /** The loop of `remove_wake_word` from wake word `k` on: the first wake
      word that starts the lower-cased text is cut from the original text by
      its length; the rest is stripped either way. */
  function RemoveFrom(text: string, wakeWords: seq<string>, k: nat): (r: string)
    ensures IsStripped(r)
    decreases |wakeWords| - k
  {
    if k >= |wakeWords| then
      StripIsStripped(text);
      Strip(text)
    else if StartsWith(Lower(text), wakeWords[k]) then
      StripIsStripped(text[|wakeWords[k]|..]);
      Strip(text[|wakeWords[k]|..])
    else RemoveFrom(text, wakeWords, k + 1)
  }

  /** `remove_wake_word(text, wake_words)`. */
  function RemoveWakeWord(text: string, wakeWords: seq<string>): (r: string)
    ensures IsStripped(r)
  {
    RemoveFrom(text, wakeWords, 0)
  }

  /** The first wake word, in list order, that starts the lower-cased text. */
  predicate FirstPrefix(text: string, wakeWords: seq<string>, k: int) {
    0 <= k < |wakeWords| && StartsWith(Lower(text), wakeWords[k]) &&
    forall j :: 0 <= j < k ==> !StartsWith(Lower(text), wakeWords[j])
  }

  lemma {:induction false} RemoveFromFirst(text: string, wakeWords: seq<string>, k: nat, m: nat)
    requires k <= m && FirstPrefix(text, wakeWords, m)
    ensures RemoveFrom(text, wakeWords, k) == Strip(text[|wakeWords[m]|..])
    decreases |wakeWords| - k
  {
    if k < m {
      RemoveFromFirst(text, wakeWords, k + 1, m);
    }
  }

  lemma {:induction false} RemoveFromNone(text: string, wakeWords: seq<string>, k: nat)
    requires forall j :: k <= j < |wakeWords| ==> !StartsWith(Lower(text), wakeWords[j])
    ensures RemoveFrom(text, wakeWords, k) == Strip(text)
    decreases |wakeWords| - k
  {
    if k < |wakeWords| {
      RemoveFromNone(text, wakeWords, k + 1);
    }
  }

  /** The first wake word that starts the text is removed, and only that
      one; without one the text is only stripped. */
  lemma RemoveWakeWordFirst(text: string, wakeWords: seq<string>)
    ensures forall m :: FirstPrefix(text, wakeWords, m) ==>
      RemoveWakeWord(text, wakeWords) == Strip(text[|wakeWords[m]|..])
    ensures (forall j :: 0 <= j < |wakeWords| ==> !StartsWith(Lower(text), wakeWords[j])) ==>
      RemoveWakeWord(text, wakeWords) == Strip(text)
  {
    forall m | FirstPrefix(text, wakeWords, m)
      ensures RemoveWakeWord(text, wakeWords) == Strip(text[|wakeWords[m]|..])
    {
      RemoveFromFirst(text, wakeWords, 0, m);
    }
    if forall j :: 0 <= j < |wakeWords| ==> !StartsWith(Lower(text), wakeWords[j]) {
      RemoveFromNone(text, wakeWords, 0);
    }
  }

  /** With the configured wake words, a command said after any one of them
      comes back stripped: "aethera" is tried first, and it cannot start a
      text that begins with "hey" or "ok". */
  lemma RemovesConfiguredWakeWord(k: nat, command: string)
    requires k < |WakeWords|
    ensures RemoveWakeWord(WakeWords[k] + command, WakeWords) == Strip(command)
  {
    var w := WakeWords[k];
    var text := w + command;
    LowerAppend(w, command);
    LowerOfLower(w);
    var l := Lower(text);
    assert l == w + Lower(command);
    assert StartsWith(l, w);
    assert text[|w|..] == command;
    if k == 0 {
      assert FirstPrefix(text, WakeWords, 0);
    } else if k == 1 {
      assert l[0] == 'h';
      assert !StartsWith(l, WakeWords[0]);
      assert FirstPrefix(text, WakeWords, 1);
    } else {
      assert l[0] == 'o';
      assert !StartsWith(l, WakeWords[0]);
      assert !StartsWith(l, WakeWords[1]);
      assert FirstPrefix(text, WakeWords, 2);
    }
    RemoveWakeWordFirst(text, WakeWords);
  }
}
