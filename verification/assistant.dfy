/**
 * The session state of ai_assistant.py (its module globals) and what the
 * console loop `main` does with it: `reset_conversation`, `save_chat`,
 * `process_voice_command`, the command classifier and the `voice_mode` flag.
 * What the user types or says arrives as two input streams; the clock is a
 * parameter.
 */
module Assistant {
  import opened Outcomes
  import opened PyStr
  import opened Tokens
  import opened Transcript

  /** The module globals of ai_assistant.py as one value. */
  datatype Session = Session(
    history: seq<Message>,
    fileContents: map<string, string>,
    editorMemory: seq<string>,
    editorFiles: set<string>,
    processes: map<string, nat>,
    mainTokens: TokenCounter,
    toolCheckerTokens: TokenCounter,
    codeEditorTokens: TokenCounter,
    codeExecutionTokens: TokenCounter)

  /** The session `reset_conversation` leaves behind. */
  function Cleared(s: Session): Session {
    s.(history := [], fileContents := map[], editorFiles := {},
       mainTokens := Zeroed, toolCheckerTokens := Zeroed,
       codeEditorTokens := Zeroed, codeExecutionTokens := Zeroed)
  }

  /** What a reset keeps and what it empties; a second reset changes nothing more. */
  lemma ClearedKeeps(s: Session)
    ensures Cleared(s).editorMemory == s.editorMemory && Cleared(s).processes == s.processes
    ensures Cleared(s).history == [] && Cleared(s).fileContents == map[] && Cleared(s).editorFiles == {}
    ensures Cleared(Cleared(s)) == Cleared(s)
  {
  }

  const LogHeader := "# Chat Log\n\n"

  /** The `VOICE_COMMANDS` table: exact phrases and the action each one names. */
  datatype VoiceAction = ExitVoiceMode | SaveChatAction | ResetConversationAction

  const VoiceCommands: map<string, VoiceAction> := map[
    "exit voice mode" := ExitVoiceMode,
    "save chat" := SaveChatAction,
    "reset conversation" := ResetConversationAction]

  /** The typed command words of `main`, matched on `user_input.lower()`. */
  datatype Command = ExitCommand | ResetCommand | VoiceCommand | SaveCommand | AutomodeCommand | ChatInput

  /** The `if`/`elif` chain of `main`. */
  function Classify(input: string): (c: Command)
    ensures c == ExitCommand <==> Lower(input) == "exit"
    ensures c == ResetCommand <==> Lower(input) == "reset"
    ensures c == VoiceCommand <==> Lower(input) == "voice"
    ensures c == SaveCommand <==> Lower(input) == "save chat"
    ensures c == AutomodeCommand <==> StartsWith(Lower(input), "automode")
  {
    CommandWordsDistinct();
    var lower := Lower(input);
    if lower == "exit" then ExitCommand
    else if lower == "reset" then ResetCommand
    else if lower == "voice" then VoiceCommand
    else if lower == "save chat" then SaveCommand
    else if StartsWith(lower, "automode") then AutomodeCommand
    else ChatInput
  }

  /** The command words differ pairwise, and all are shorter than `automode` except `save chat`, which does not start with it. */
  lemma CommandWordsDistinct()
    ensures "exit" != "reset" && "exit" != "voice" && "exit" != "save chat"
    ensures "reset" != "voice" && "reset" != "save chat" && "voice" != "save chat"
    ensures !StartsWith("exit", "automode") && !StartsWith("reset", "automode")
    ensures !StartsWith("voice", "automode") && !StartsWith("save chat", "automode")
  {
    assert "save chat"[0] != "automode"[0];
  }

  /** The classifier ignores letter case. */
  lemma ClassifyIgnoresCase(input: string)
    ensures Classify(Lower(input)) == Classify(input)
  {
    LowerIdempotent(input);
  }

  /** What one pass of the loop does to the session. */
  datatype Effect = NoEffect | DoReset | DoSave

  /** One pass of the loop: its effect, the new `voice_mode`, and whether the loop ends. */
  datatype Step = Step(effect: Effect, voiceMode: bool, quit: bool)

  /** A typed line, or a spoken one that is not a voice command, in the given mode. */
  function TypedStep(voiceMode: bool, input: string): Step {
    match Classify(input)
    case ExitCommand => Step(NoEffect, voiceMode, true)
    case ResetCommand => Step(DoReset, voiceMode, false)
    case VoiceCommand => Step(NoEffect, true, false)
    case SaveCommand => Step(DoSave, voiceMode, false)
    case AutomodeCommand => Step(NoEffect, voiceMode, false)
    case ChatInput => Step(NoEffect, voiceMode, false)
  }

  /** One pass in voice mode, given what `voice_input` returned. */
  function HeardStep(heard: Option<string>): Step {
    match heard
    case None => Step(NoEffect, false, false)
    case Some(text) =>
      if text in VoiceCommands then
        match VoiceCommands[text]
        case ExitVoiceMode => Step(NoEffect, false, false)
        case SaveChatAction => Step(DoSave, true, false)
        case ResetConversationAction => Step(DoReset, true, false)
      else TypedStep(true, text)
  }

  /** Voice mode is left only by silence, `exit voice mode`, or ending the program. */
  lemma LeavingVoiceMode(heard: Option<string>)
    ensures !HeardStep(heard).voiceMode ==>
      heard == None || heard == Some("exit voice mode") || HeardStep(heard).quit
  {
  }

  /** Saying `exit` in voice mode is no voice command, so it falls through and ends the program. */
  lemma SpokenExitQuits()
    ensures HeardStep(Some("exit")).quit
  {
    assert "exit" !in VoiceCommands;
    assert Lower("exit") == "exit";
  }

  /** A typed line in text mode. */
  function TypedLine(input: string): Step {
    TypedStep(false, input)
  }

  /** How one pass of the loop turns an input into a step, in voice mode and in text mode. */
  datatype Router = Router(heard: Option<string> -> Step, typed: string -> Step)

  /** The routing of ai_assistant.py's `main`. */
  const MainRouter := Router(HeardStep, TypedLine)

  /** An effect leaves the session as it was or as a reset leaves it, and a later reset forgets which. */
  lemma ClearedAfterApply(s: Session, e: Effect)
    ensures Apply(s, e) == s || Apply(s, e) == Cleared(s)
    ensures Cleared(Apply(s, e)) == Cleared(s)
  {
    ClearedKeeps(s);
  }

  /** A save: the time it was stamped with and the history it wrote. */
  datatype Saved = Saved(now: DateTime, history: seq<Message>)

  /** The file a save writes: its name and its text. */
  function LogFile(r: Saved): (string, string) {
    (ChatFilename(r.now), ChatLog(LogHeader, "Assistant", r.history))
  }

  /** `written` holds the files of the saves `saved`, in order. */
  predicate Files(written: seq<(string, string)>, saved: seq<Saved>) {
    |written| == |saved| && forall i :: 0 <= i < |saved| ==> written[i] == LogFile(saved[i])
  }

  lemma FilesAppend(w1: seq<(string, string)>, s1: seq<Saved>, w2: seq<(string, string)>, s2: seq<Saved>)
    requires Files(w1, s1) && Files(w2, s2)
    ensures Files(w1 + w2, s1 + s2)
  {
    forall i | |s1| <= i < |s1| + |s2|
      ensures (w1 + w2)[i] == LogFile((s1 + s2)[i])
    {
      assert (w1 + w2)[i] == w2[i - |s1|] && (s1 + s2)[i] == s2[i - |s1|];
    }
  }

  /** The outcome of running the loop over the inputs. */
  datatype Run = Run(session: Session, voiceMode: bool, quit: bool, saved: seq<Saved>)

  function Apply(s: Session, e: Effect): Session {
    if e == DoReset then Cleared(s) else s
  }

  /** The save an effect makes, if it is a save. */
  function Saves(s: Session, e: Effect, now: DateTime): seq<Saved> {
    if e == DoSave then [Saved(now, s.history)] else []
  }

  /**
   * The loop of `main` as a function of its inputs: it reads from `heard` in voice
   * mode and from `typed` otherwise, and stops on `exit` or when the stream it
   * reads from is exhausted. `saved` holds the saves made before; the run's saves
   * extend it, the `k`-th one stamped `clock(k)`. `Drive(MainRouter, ...)` is the
   * loop of ai_assistant.py; the lemmas below hold for any routing.
   */
  function Drive(router: Router, s: Session, voiceMode: bool, heard: seq<Option<string>>, typed: seq<string>,
                 clock: nat -> DateTime, saved: seq<Saved>): Run
    decreases |heard| + |typed|
  {
    if (voiceMode && heard == []) || (!voiceMode && typed == []) then Run(s, voiceMode, false, saved)
    else
      var step := if voiceMode then router.heard(heard[0]) else router.typed(typed[0]);
      var saved' := saved + Saves(s, step.effect, clock(|saved|));
      var next := Apply(s, step.effect);
      if step.quit then Run(next, step.voiceMode, true, saved')
      else if voiceMode then Drive(router, next, step.voiceMode, heard[1..], typed, clock, saved')
      else Drive(router, next, step.voiceMode, heard, typed[1..], clock, saved')
  }

  /** Whatever the inputs, the loop leaves the session as it was or as a reset leaves it. */
  lemma {:induction false} DriveOnlyResets(router: Router, s: Session, voiceMode: bool, heard: seq<Option<string>>,
                                           typed: seq<string>, clock: nat -> DateTime, saved: seq<Saved>)
    ensures var r := Drive(router, s, voiceMode, heard, typed, clock, saved).session;
      r == s || r == Cleared(s)
    decreases |heard| + |typed|
  {
    if (voiceMode && heard == []) || (!voiceMode && typed == []) {
    } else {
      var step := if voiceMode then router.heard(heard[0]) else router.typed(typed[0]);
      var saved' := saved + Saves(s, step.effect, clock(|saved|));
      ClearedAfterApply(s, step.effect);
      if !step.quit {
        var next := Apply(s, step.effect);
        if voiceMode {
          DriveOnlyResets(router, next, step.voiceMode, heard[1..], typed, clock, saved');
        } else {
          DriveOnlyResets(router, next, step.voiceMode, heard, typed[1..], clock, saved');
        }
      }
    }
  }

  /** The saves `saved` are stamped by consecutive readings of the clock, from reading `first` on. */
  predicate Stamped(saved: seq<Saved>, clock: nat -> DateTime, first: nat) {
    forall i :: 0 <= i < |saved| ==> saved[i].now == clock(first + i)
  }

  lemma StampedAppend(out: seq<Saved>, rest: seq<Saved>, clock: nat -> DateTime, first: nat)
    requires Stamped(out, clock, first) && Stamped(rest, clock, first + |out|)
    ensures Stamped(out + rest, clock, first)
  {
    forall i | |out| <= i < |out| + |rest|
      ensures (out + rest)[i].now == clock(first + i)
    {
      assert (out + rest)[i] == rest[i - |out|];
      assert first + |out| + (i - |out|) == first + i;
    }
  }

  /**
   * The loop keeps the earlier saves and adds its own after them, stamped by
   * consecutive readings of the clock.
   */
  lemma {:induction false} DriveStamps(router: Router, s: Session, voiceMode: bool, heard: seq<Option<string>>,
                                       typed: seq<string>, clock: nat -> DateTime, saved: seq<Saved>)
    requires Stamped(saved, clock, 0)
    ensures var r := Drive(router, s, voiceMode, heard, typed, clock, saved).saved;
      |saved| <= |r| && r[..|saved|] == saved && Stamped(r, clock, 0)
    decreases |heard| + |typed|
  {
    if (voiceMode && heard == []) || (!voiceMode && typed == []) {
    } else {
      var step := if voiceMode then router.heard(heard[0]) else router.typed(typed[0]);
      var out := Saves(s, step.effect, clock(|saved|));
      var saved' := saved + out;
      assert Stamped(out, clock, |saved|);
      StampedAppend(saved, out, clock, 0);
      if !step.quit {
        var next := Apply(s, step.effect);
        if voiceMode {
          DriveStamps(router, next, step.voiceMode, heard[1..], typed, clock, saved');
        } else {
          DriveStamps(router, next, step.voiceMode, heard, typed[1..], clock, saved');
        }
        var r := Drive(router, s, voiceMode, heard, typed, clock, saved).saved;
        assert r[..|saved|] == r[..|saved'|][..|saved|];
      }
    }
  }

  /**
   * One pass of the loop: on a non-empty stream, `Drive` takes the step the router
   * gives, leaving the session `s'`, mode `mode'`, inputs `heard'`, `typed'` and saves
   * `saved'`; the run then either ends there or goes on from that state.
   */
  lemma DriveAdvance(router: Router, s: Session, voiceMode: bool, heard: seq<Option<string>>,
                     typed: seq<string>, clock: nat -> DateTime, saved: seq<Saved>,
                     s': Session, mode': bool, heard': seq<Option<string>>, typed': seq<string>, saved': seq<Saved>)
    requires if voiceMode then heard != [] else typed != []
    requires var step := if voiceMode then router.heard(heard[0]) else router.typed(typed[0]);
      && s' == Apply(s, step.effect) && mode' == step.voiceMode
      && saved' == saved + Saves(s, step.effect, clock(|saved|))
      && heard' == (if voiceMode then heard[1..] else heard)
      && typed' == (if voiceMode then typed else typed[1..])
    ensures var step := if voiceMode then router.heard(heard[0]) else router.typed(typed[0]);
      var total := Drive(router, s, voiceMode, heard, typed, clock, saved);
      && (step.quit ==> total == Run(s', mode', true, saved'))
      && (!step.quit ==> total == Drive(router, s', mode', heard', typed', clock, saved'))
  {
  }

  /** The module globals of ai_assistant.py. */
  class Assistant {
    var conversationHistory: seq<Message>
    var fileContents: map<string, string>
    var codeEditorMemory: seq<string>
    var codeEditorFiles: set<string>
    var runningProcesses: map<string, nat>
    var mainModelTokens: TokenCounter
    var toolCheckerTokens: TokenCounter
    var codeEditorTokens: TokenCounter
    var codeExecutionTokens: TokenCounter

    /** The state at import time: everything empty, every counter zero. */
    constructor ()
      ensures View() == Session([], map[], [], {}, map[], Zeroed, Zeroed, Zeroed, Zeroed)
    {
      conversationHistory, fileContents, codeEditorMemory := [], map[], [];
      codeEditorFiles, runningProcesses := {}, map[];
      mainModelTokens, toolCheckerTokens := Zeroed, Zeroed;
      codeEditorTokens, codeExecutionTokens := Zeroed, Zeroed;
    }

    function View(): Session
      reads this
    {
      Session(conversationHistory, fileContents, codeEditorMemory, codeEditorFiles, runningProcesses,
              mainModelTokens, toolCheckerTokens, codeEditorTokens, codeExecutionTokens)
    }

    /** `reset_conversation` */
    method ResetConversation()
      modifies this
      ensures View() == Cleared(old(View()))
    {
      conversationHistory := [];
      fileContents := map[];
      codeEditorFiles := {};
      mainModelTokens := Zeroed;
      toolCheckerTokens := Zeroed;
      codeEditorTokens := Zeroed;
      codeExecutionTokens := Zeroed;
    }

    /** `save_chat`: the file name and the text written to it; the session is not changed. */
    method SaveChat(now: DateTime) returns (filename: string, text: string)
      ensures filename == ChatFilename(now)
      ensures text == ChatLog(LogHeader, "Assistant", conversationHistory)
    {
      filename := ChatFilename(now);
      text := FormatTranscript(LogHeader, "Assistant", conversationHistory);
    }

    /**
     * `process_voice_command`: the three exact phrases act, anything else returns
     * `(True, None)` and changes nothing. `written` is the file a save writes.
     */
    method ProcessVoiceCommand(command: string, now: DateTime)
      returns (stay: bool, reply: Option<string>, written: seq<(string, string)>)
      modifies this
      ensures command !in VoiceCommands ==>
        stay && reply == None && written == [] && View() == old(View())
      ensures command == "exit voice mode" ==>
        !stay && reply == Some("Exiting voice mode.") && written == [] && View() == old(View())
      ensures command == "save chat" ==>
        && stay && reply == Some("Chat saved to " + ChatFilename(now))
        && written == [LogFile(Saved(now, old(conversationHistory)))]
        && View() == old(View())
      ensures command == "reset conversation" ==>
        stay && reply == Some("Conversation has been reset.") && written == [] && View() == Cleared(old(View()))
    {
      if command in VoiceCommands {
        match VoiceCommands[command]
        case ExitVoiceMode =>
          return false, Some("Exiting voice mode."), [];
        case SaveChatAction =>
          var filename, text := SaveChat(now);
          return true, Some("Chat saved to " + filename), [(filename, text)];
        case ResetConversationAction =>
          ResetConversation();
          return true, Some("Conversation has been reset."), [];
      }
      return true, None, [];
    }

    /**
     * The `if`/`elif` chain of `main` on one line of input, in the given mode:
     * it does what `TypedStep` says.
     */
    method HandleCommand(text: string, mode: bool, now: DateTime)
      returns (quit: bool, voiceMode: bool, written: seq<(string, string)>)
      modifies this
      ensures var step := TypedStep(mode, text);
        && View() == Apply(old(View()), step.effect)
        && voiceMode == step.voiceMode && quit == step.quit
        && Files(written, Saves(old(View()), step.effect, now))
    {
      quit, voiceMode, written := false, mode, [];
      match Classify(text)
      case ExitCommand =>
        quit := true;
      case ResetCommand =>
        ResetConversation();
      case VoiceCommand =>
        voiceMode := true;
      case SaveCommand =>
        var filename, log := SaveChat(now);
        written := [(filename, log)];
      case AutomodeCommand =>
      case ChatInput =>
    }

    /**
     * One pass of the loop in voice mode, given what `voice_input` returned: it
     * does what `HeardStep` says. A phrase that is no voice command falls through
     * to the typed-command chain.
     */
    method VoicePass(input: Option<string>, now: DateTime)
      returns (quit: bool, voiceMode: bool, written: seq<(string, string)>)
      modifies this
      ensures var step := HeardStep(input);
        && View() == Apply(old(View()), step.effect)
        && voiceMode == step.voiceMode && quit == step.quit
        && Files(written, Saves(old(View()), step.effect, now))
    {
      quit, voiceMode, written := false, true, [];
      if input == None {
        voiceMode := false;
      } else {
        var stay, reply;
        stay, reply, written := ProcessVoiceCommand(input.value, now);
        if !stay {
          voiceMode := false;
        } else if reply == None {
          quit, voiceMode, written := HandleCommand(input.value, voiceMode, now);
        }
      }
    }

    /**
     * One pass of the `while True` loop of `main` on the inputs still to come:
     * it reads the next spoken or typed input, as `voice_mode` says, and does
     * what `MainRouter` says.
     */
    method Pass(mode: bool, heard: seq<Option<string>>, typed: seq<string>, vi: nat, ti: nat, now: DateTime)
      returns (quit: bool, voiceMode: bool, written: seq<(string, string)>)
      requires if mode then vi < |heard| else ti < |typed|
      modifies this
      ensures var step := if mode then MainRouter.heard(heard[vi]) else MainRouter.typed(typed[ti]);
        && View() == Apply(old(View()), step.effect)
        && voiceMode == step.voiceMode && quit == step.quit
        && Files(written, Saves(old(View()), step.effect, now))
    {
      if mode {
        assert MainRouter.heard(heard[vi]) == HeardStep(heard[vi]);
        quit, voiceMode, written := VoicePass(heard[vi], now);
      } else {
        assert MainRouter.typed(typed[ti]) == TypedStep(false, typed[ti]);
        quit, voiceMode, written := HandleCommand(typed[ti], false, now);
      }
    }

    /**
     * The `while True` loop of `main`, run until `exit` or until the input stream
     * it reads from runs dry. It does what `Drive` says, starting in text mode.
     */
    method MainLoop(heard: seq<Option<string>>, typed: seq<string>, clock: nat -> DateTime)
      returns (quit: bool, voiceMode: bool, written: seq<(string, string)>)
      modifies this
      ensures var run := Drive(MainRouter, old(View()), false, heard, typed, clock, []);
        && View() == run.session && voiceMode == run.voiceMode && quit == run.quit
        && Files(written, run.saved)
    {
      ghost var total := Drive(MainRouter, View(), false, heard, typed, clock, []);
      ghost var saves: seq<Saved> := [];
      quit, voiceMode, written := false, false, [];
      var vi, ti := 0, 0;
      assert heard[vi..] == heard && typed[ti..] == typed;
      while !quit && (if voiceMode then vi < |heard| else ti < |typed|)
        invariant vi <= |heard| && ti <= |typed|
        invariant Files(written, saves)
        invariant !quit ==> total == Drive(MainRouter, View(), voiceMode, heard[vi..], typed[ti..], clock, saves)
        invariant quit ==> total == Run(View(), voiceMode, true, saves)
        decreases |heard| - vi + |typed| - ti
      {
        ghost var before, done := View(), saves;
        var mode := voiceMode;
        ghost var hs, ts := heard[vi..], typed[ti..];
        ghost var step := if mode then MainRouter.heard(hs[0]) else MainRouter.typed(ts[0]);
        ghost var out := Saves(before, step.effect, clock(|done|));
        var saved: seq<(string, string)>;
        quit, voiceMode, saved := Pass(mode, heard, typed, vi, ti, clock(|written|));
        if mode {
          vi := vi + 1;
          assert hs[1..] == heard[vi..] && ts == typed[ti..];
        } else {
          ti := ti + 1;
          assert ts[1..] == typed[ti..] && hs == heard[vi..];
        }
        FilesAppend(written, saves, saved, out);
        written, saves := written + saved, saves + out;
        DriveAdvance(MainRouter, before, mode, hs, ts, clock, done,
                     View(), voiceMode, heard[vi..], typed[ti..], saves);
      }
    }
  }
}
