/** The conversation controller `AetheraAssistant` (main.py). It holds one
    bit of session state, "awaiting confirmation", together with the raw
    command that waits for it, and it decides for every transcription
    whether it is a new command or a reply to a confirmation question.
    Speech output is the log `spoken`; listening is an input of each step. */
module Assistant {
  import opened Wrappers
  import opened Text
  import opened Results
  import opened Nlp
  import opened Actions

  /** What `listen()` returns: whether a transcription was obtained, and the
      text (or the error message). */
  datatype Heard = Heard(ok: bool, text: string)

  /** The controller's fields, and everything it has said so far. */
  datatype Session = Session(listening: bool, awaiting: bool, pending: Option<string>, spoken: seq<string>)

  /** `is_listening = True`, `awaiting_confirmation = False`,
      `pending_action = None` (main.py:17-19). */
  const Initial := Session(true, false, None, [])

  /** Python's truthiness of `pending_action`. */
  predicate HasPending(s: Session) {
    s.pending.Some? && s.pending.value != []
  }

  /** The session invariant: the controller awaits a confirmation exactly
      when it holds a command to confirm. */
  predicate Consistent(s: Session) {
    s.awaiting <==> HasPending(s)
  }

  function Say(s: Session, line: string): Session {
    s.(spoken := s.spoken + [line])
  }

  const ShutdownLine := "Shutting down. Goodbye!"

  /** `_shutdown()`, without the process exit. */
  function AfterShutdown(s: Session): Session {
    Say(s.(listening := false), ShutdownLine)
  }

  /** `_handle_action_result(result)`. */
  function AfterResult(s: Session, r: ActionResult): Session {
    if r.requiresConfirmation then
      Say(s.(awaiting := true, pending := Some(r.originalCommand.GetOr(""))),
          r.summary.GetOr("Do you want me to proceed?"))
    else if r.stopRequested then AfterShutdown(Say(s, r.summary.GetOr("Goodbye!")))
    else if r.summary.GetOr("") != [] then Say(s, r.summary.value)
    else s
  }

  /** `_handle_command(text)`: blank commands are ignored. */
  function AfterCommand(s: Session, text: string, reg: map<string, Handler>, w: World): Session {
    var command := Strip(text);
    if command == [] then s else AfterResult(s, ProcessCommand(reg, w, command))
  }

  const Affirmatives := ["confirm", "yes", "go ahead", "proceed", "do it"]
  const Negatives := ["no", "nope", "cancel", "abort", "nevermind"]

  const NothingToConfirm := "I don't have a pending action to confirm."
  const CouldNotProcess := "I couldn't process that command."
  const Cancelled := "Okay, I've cancelled that action."
  const Reprompt := "Please say 'confirm' or 'yes' to proceed, or 'no' to cancel."

  /** Re-running the pending command: classify the stored raw text again
      and call its handler straight from the registry, without the gate. */
  function Replay(s: Session, command: string, reg: map<string, Handler>, w: World): Session {
    var c := Classify(command);
    if c.intent.Name() in reg then AfterResult(s, Invoke(reg[c.intent.Name()], c.entities, w))
    else Say(s, CouldNotProcess)
  }

  /** `_handle_confirmation(text)`: an affirmative reply is looked for
      before a negative one. */
  function AfterConfirmation(s: Session, text: string, reg: map<string, Handler>, w: World): Session {
    var reply := Normalise(text);
    if AnyIn(reply, Affirmatives) then
      if HasPending(s) then Replay(s.(awaiting := false, pending := None), s.pending.value, reg, w)
      else Say(s, NothingToConfirm).(awaiting := false)
    else if AnyIn(reply, Negatives) then Say(s, Cancelled).(awaiting := false, pending := None)
    else Say(s, Reprompt)
  }

  /** `_listen_and_process()` given what `listen()` returned. */
  function AfterListen(s: Session, h: Heard, reg: map<string, Handler>, w: World): Session {
    if !h.ok then s
    else if s.awaiting then AfterConfirmation(s, h.text, reg, w)
    else AfterCommand(s, h.text, reg, w)
  }

  /** The `while self.is_listening` loop over a sequence of transcriptions:
      it stops at the first stop request or when the inputs run out. */
  function Steps(s: Session, inputs: seq<Heard>, reg: map<string, Handler>, w: World): Session
    decreases |inputs|
  {
    if !s.listening || inputs == [] then s
    else Steps(AfterListen(s, inputs[0], reg, w), inputs[1..], reg, w)
  }

  const Hello := "Hello! Aethera is now active and ready to assist you."

  // ---------------------------------------------------------------------
  // The controller object

  class AetheraAssistant {
    var isListening: bool
    var awaitingConfirmation: bool
    var pendingAction: Option<string>
    var spoken: seq<string>
    const actions: ActionHandler

    /** The fields as a session value. */
    function Current(): Session
      reads this
    {
      Session(isListening, awaitingConfirmation, pendingAction, spoken)
    }

    constructor (actions: ActionHandler)
      ensures Current() == Initial && Consistent(Current())
      ensures this.actions == actions
    {
      isListening := true;
      awaitingConfirmation := false;
      pendingAction := None;
      spoken := [];
      this.actions := actions;
    }

    method Speak(line: string)
      modifies this
      ensures Current() == Say(old(Current()), line)
    {
      spoken := spoken + [line];
    }

    method Shutdown()
      modifies this
      ensures Current() == AfterShutdown(old(Current()))
    {
      isListening := false;
      Speak(ShutdownLine);
    }

    method HandleActionResult(r: ActionResult)
      modifies this
      ensures Current() == AfterResult(old(Current()), r)
    {
      if r.requiresConfirmation {
        awaitingConfirmation := true;
        pendingAction := Some(r.originalCommand.GetOr(""));
        Speak(r.summary.GetOr("Do you want me to proceed?"));
        return;
      }
      if r.stopRequested {
        Speak(r.summary.GetOr("Goodbye!"));
        Shutdown();
        return;
      }
      var summary := r.summary.GetOr("");
      if summary != [] {
        Speak(summary);
      }
    }

    method HandleCommand(text: string)
      modifies this
      ensures Current() == AfterCommand(old(Current()), text, actions.registry, actions.world)
    {
      var command := Strip(text);
      if command == [] {
        return;
      }
      var result := ProcessCommand(actions.registry, actions.world, command);
      HandleActionResult(result);
    }

    method HandleConfirmation(text: string)
      modifies this
      ensures Current() == AfterConfirmation(old(Current()), text, actions.registry, actions.world)
    {
      var reply := Normalise(text);
      if AnyIn(reply, Affirmatives) {
        if pendingAction.Some? && pendingAction.value != [] {
          var original := pendingAction.value;
          awaitingConfirmation := false;
          pendingAction := None;
          var c := Classify(original);
          if c.intent.Name() in actions.registry {
            var result := Invoke(actions.registry[c.intent.Name()], c.entities, actions.world);
            HandleActionResult(result);
          } else {
            Speak(CouldNotProcess);
          }
        } else {
          Speak(NothingToConfirm);
          awaitingConfirmation := false;
        }
      } else if AnyIn(reply, Negatives) {
        Speak(Cancelled);
        awaitingConfirmation := false;
        pendingAction := None;
      } else {
        Speak(Reprompt);
      }
    }

    method ListenAndProcess(h: Heard)
      modifies this
      ensures Current() == AfterListen(old(Current()), h, actions.registry, actions.world)
    {
      if !h.ok {
        return;
      }
      if awaitingConfirmation {
        HandleConfirmation(h.text);
      } else {
        HandleCommand(h.text);
      }
    }

    /** `run()` over the transcriptions the microphone yields. */
    method Run(inputs: seq<Heard>)
      modifies this
      ensures Current() == Steps(Say(old(Current()), Hello), inputs, actions.registry, actions.world)
    {
      Speak(Hello);
      ghost var start := Current();
      var i := 0;
      while isListening && i < |inputs|
        invariant 0 <= i <= |inputs|
        invariant Steps(Current(), inputs[i..], actions.registry, actions.world) ==
                  Steps(start, inputs, actions.registry, actions.world)
      {
        assert inputs[i..][1..] == inputs[i + 1..];
        ListenAndProcess(inputs[i]);
        i := i + 1;
      }
      assert !isListening ==> Steps(Current(), inputs[i..], actions.registry, actions.world) == Current();
      assert i == |inputs| ==> inputs[i..] == [];
    }
  }

  // ---------------------------------------------------------------------
  // Lemmas: the session invariant

  /** A result that asks for confirmation names a command to confirm. */
  predicate WellFormed(r: ActionResult) {
    r.requiresConfirmation ==> r.originalCommand.Some? && r.originalCommand.value != []
  }

  /** Every handler in the world answers with well-formed results; the
      built-in ones always do, so this constrains only the custom handlers. */
  ghost predicate WorldWellFormed(w: World) {
    forall name, e :: WellFormed(w.custom(name, e))
  }

  lemma InitialConsistent()
    ensures Consistent(Initial) && Initial.listening && !Initial.awaiting && Initial.pending.None?
  {
  }

  /** Handling a well-formed result keeps the invariant. */
  lemma AfterResultConsistent(s: Session, r: ActionResult)
    requires Consistent(s) && WellFormed(r)
    ensures Consistent(AfterResult(s, r))
  {
  }

  /** Every result a handler of the registry gives is well-formed. */
  lemma InvokeWellFormed(h: Handler, e: Entities, w: World)
    requires WorldWellFormed(w)
    ensures WellFormed(Invoke(h, e, w))
  {
    if h.Builtin? {
      BuiltinFlags(h.intent, e, w);
    }
  }

  /** `process_command` answers a non-blank command with a well-formed
      result: the gate's answer carries the command itself. */
  lemma ProcessCommandWellFormed(reg: map<string, Handler>, w: World, command: string)
    requires command != [] && WorldWellFormed(w)
    ensures WellFormed(ProcessCommand(reg, w, command))
  {
    var c := Classify(command);
    if !RequiresConfirmation(c.intent.Name(), c.entities) && c.intent.Name() in reg {
      InvokeWellFormed(reg[c.intent.Name()], c.entities, w);
    }
  }

  /** Every transition keeps "awaiting confirmation" and "a command is
      pending" in step. The non-blank check of `_handle_command` is what
      keeps an empty command from ever being stored. */
  lemma AfterListenConsistent(s: Session, h: Heard, reg: map<string, Handler>, w: World)
    requires Consistent(s) && WorldWellFormed(w)
    ensures Consistent(AfterListen(s, h, reg, w))
  {
    if h.ok {
      if s.awaiting {
        var reply := Normalise(h.text);
        if AnyIn(reply, Affirmatives) && HasPending(s) {
          var c := Classify(s.pending.value);
          if c.intent.Name() in reg {
            InvokeWellFormed(reg[c.intent.Name()], c.entities, w);
            AfterResultConsistent(s.(awaiting := false, pending := None), Invoke(reg[c.intent.Name()], c.entities, w));
          }
        }
      } else {
        var command := Strip(h.text);
        if command != [] {
          ProcessCommandWellFormed(reg, w, command);
          AfterResultConsistent(s, ProcessCommand(reg, w, command));
        }
      }
    }
  }

  /** The invariant holds after any sequence of transcriptions. */
  lemma {:induction false} StepsConsistent(s: Session, inputs: seq<Heard>, reg: map<string, Handler>, w: World)
    requires Consistent(s) && WorldWellFormed(w)
    ensures Consistent(Steps(s, inputs, reg, w))
    decreases |inputs|
  {
    if s.listening && inputs != [] {
      AfterListenConsistent(s, inputs[0], reg, w);
      StepsConsistent(AfterListen(s, inputs[0], reg, w), inputs[1..], reg, w);
    }
  }

  /** A whole run from the initial state ends consistent, and once stopped
      it stays stopped. */
  lemma RunConsistent(inputs: seq<Heard>, reg: map<string, Handler>, w: World)
    requires WorldWellFormed(w)
    ensures Consistent(Steps(Say(Initial, Hello), inputs, reg, w))
  {
    StepsConsistent(Say(Initial, Hello), inputs, reg, w);
  }

  // ---------------------------------------------------------------------
  // Lemmas: the confirmation protocol

  /** A failed listen changes nothing. */
  lemma FailedListenIsNoOp(s: Session, text: string, reg: map<string, Handler>, w: World)
    ensures AfterListen(s, Heard(false, text), reg, w) == s
  {
  }

  /** Routing depends only on "awaiting confirmation": a blank command is
      ignored, and a reply in the awaiting state is never treated as a new
      command. */
  lemma BlankCommandIgnored(s: Session, text: string, reg: map<string, Handler>, w: World)
    requires !s.awaiting && Strip(text) == []
    ensures AfterListen(s, Heard(true, text), reg, w) == s
  {
  }

  /** An affirmative reply confirms even when it also holds a negative word:
      both fields are cleared first and the pending command is replayed. */
  lemma AffirmativeWins(s: Session, text: string, reg: map<string, Handler>, w: World)
    requires s.awaiting && HasPending(s) && AnyIn(Normalise(text), Affirmatives)
    ensures AfterListen(s, Heard(true, text), reg, w) ==
            Replay(s.(awaiting := false, pending := None), s.pending.value, reg, w)
  {
  }

  /** A negative reply without an affirmative one cancels: both fields are
      cleared, the cancellation is spoken, and nothing else changes. */
  lemma NegativeCancels(s: Session, text: string, reg: map<string, Handler>, w: World)
    requires s.awaiting && !AnyIn(Normalise(text), Affirmatives) && AnyIn(Normalise(text), Negatives)
    ensures var t := AfterListen(s, Heard(true, text), reg, w);
      !t.awaiting && t.pending.None? && t.listening == s.listening && t.spoken == s.spoken + [Cancelled]
  {
  }

  /** A reply that is neither leaves the state as it was and asks again. */
  lemma UnclearReplyReprompts(s: Session, text: string, reg: map<string, Handler>, w: World)
    requires s.awaiting && !AnyIn(Normalise(text), Affirmatives) && !AnyIn(Normalise(text), Negatives)
    ensures var t := AfterListen(s, Heard(true, text), reg, w);
      t.awaiting && t.pending == s.pending && t.listening == s.listening && t.spoken == s.spoken + [Reprompt]
  {
  }

  /** A confirmation request takes precedence over a stop request. */
  lemma ConfirmationBeforeStop(s: Session, r: ActionResult)
    requires r.requiresConfirmation
    ensures var t := AfterResult(s, r);
      t.awaiting && t.listening == s.listening && t.pending == Some(r.originalCommand.GetOr(""))
  {
  }

  /** A stop result speaks its summary and then shuts down. */
  lemma StopShutsDown(s: Session, r: ActionResult)
    requires !r.requiresConfirmation && r.stopRequested
    ensures var t := AfterResult(s, r);
      !t.listening && t.awaiting == s.awaiting && t.pending == s.pending &&
      t.spoken == s.spoken + [r.summary.GetOr("Goodbye!"), ShutdownLine]
  {
  }

  /** After a stop, the loop consumes no more input. */
  lemma StoppedStaysStopped(s: Session, inputs: seq<Heard>, reg: map<string, Handler>, w: World)
    requires !s.listening
    ensures Steps(s, inputs, reg, w) == s
  {
  }

  /** Stripping a command first does not change its classification. */
  lemma ClassifyStripped(text: string)
    ensures Classify(Strip(text)) == Classify(text)
  {
    StripLowerCommute(text);
    StripIdempotent(Lower(text));
  }

  /** A command the gate holds back is stored stripped, its question is
      spoken, and nothing else changes. */
  lemma GateStoresCommand(s: Session, text: string, reg: map<string, Handler>, w: World)
    requires !s.awaiting && Strip(text) != []
    requires var c := Classify(text); RequiresConfirmation(c.intent.Name(), c.entities)
    ensures var c := Classify(text);
      AfterListen(s, Heard(true, text), reg, w) ==
        Say(s, ConfirmationRequest(c.intent, Strip(text)).summary.value).(awaiting := true, pending := Some(Strip(text)))
  {
    var cmd := Strip(text);
    ClassifyStripped(text);
    assert AfterListen(s, Heard(true, text), reg, w) == AfterResult(s, ProcessCommand(reg, w, cmd));
  }

  /** Replaying a command whose intent is registered calls that handler. */
  lemma ReplayInvokes(s: Session, command: string, reg: map<string, Handler>, w: World)
    requires Classify(command).intent.Name() in reg
    ensures var c := Classify(command);
      Replay(s, command, reg, w) == AfterResult(s, Invoke(reg[c.intent.Name()], c.entities, w))
  {
  }

  /** Round trip: a command held back by the gate and then confirmed reaches
      the registry handler with the intent and entities that the command
      itself classifies to, exactly as a direct dispatch of that pair would;
      the gate's question is the only other thing said. */
  lemma ConfirmReplaysCommand(s: Session, text: string, reply: string, reg: map<string, Handler>, w: World)
    requires !s.awaiting && Strip(text) != []
    requires var c := Classify(text); RequiresConfirmation(c.intent.Name(), c.entities) && c.intent.Name() in reg
    requires AnyIn(Normalise(reply), Affirmatives)
    ensures var c := Classify(text);
      var asked := AfterListen(s, Heard(true, text), reg, w);
      asked.awaiting && asked.pending == Some(Strip(text)) &&
      AfterListen(asked, Heard(true, reply), reg, w) ==
        AfterResult(Say(s, ConfirmationRequest(c.intent, Strip(text)).summary.value).(pending := None),
                    Invoke(reg[c.intent.Name()], c.entities, w))
  {
    var cmd := Strip(text);
    var c := Classify(text);
    GateStoresCommand(s, text, reg, w);
    var said := Say(s, ConfirmationRequest(c.intent, cmd).summary.value);
    var asked := said.(awaiting := true, pending := Some(cmd));
    AffirmativeWins(asked, reply, reg, w);
    assert asked.(awaiting := false, pending := None) == said.(pending := None);
    ClassifyStripped(text);
    ReplayInvokes(said.(pending := None), cmd, reg, w);
  }
}
