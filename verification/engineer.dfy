/**
 * The chat window of main.py: `chat_with_claude`, `reset_conversation`,
 * `save_chat` and the automode loop `run_automode`, over the module globals
 * `conversation_history` and the four token counters. The language model and
 * the image encoder are oracles.
 */
module Engineer {
  import opened Outcomes
  import opened PyStr
  import opened Tokens
  import opened Transcript

  /** One element of `response.content`: a text block, or a block of another type (a tool call). */
  datatype ResponseBlock = TextOut(text: string) | OtherBlock(kind: string)

  /** What `messages.create` does: raise, or answer with content blocks and a usage report. */
  datatype ModelReply = ApiFailure(msg: string) | Reply(blocks: seq<ResponseBlock>, usage: Usage)

  /** The model endpoint: its `k`-th call answers `script(k)`; `sent` logs the message lists sent. */
  class ModelHost {
    const script: nat -> ModelReply
    var sent: seq<seq<Message>>

    constructor (script: nat -> ModelReply)
      ensures this.script == script && sent == []
    {
      this.script := script;
      sent := [];
    }

    /** `anthropic_client.beta.prompt_caching.messages.create(..., messages=messages, ...)` */
    method Create(messages: seq<Message>) returns (reply: ModelReply)
      modifies this
      ensures sent == old(sent) + [messages]
      ensures reply == script(|old(sent)|)
    {
      reply := script(|sent|);
      sent := sent + [messages];
    }
  }

  // ---------------------------------------------------------------- the reply text

  /** The text of one block: its text if it is a text block, nothing otherwise. */
  function TextPiece(b: ResponseBlock): string {
    if b.TextOut? then b.text else ""
  }

  /** The assistant's answer: the texts of the text blocks, in order. */
  function TextOf(blocks: seq<ResponseBlock>): string {
    if blocks == [] then "" else TextPiece(blocks[0]) + TextOf(blocks[1..])
  }

  /** Reading a reply distributes over concatenation of its blocks. */
  lemma {:induction false} TextOfAppend(b1: seq<ResponseBlock>, b2: seq<ResponseBlock>)
    ensures TextOf(b1 + b2) == TextOf(b1) + TextOf(b2)
  {
    if b1 == [] {
      assert b1 + b2 == b2;
    } else {
      var b := b1 + b2;
      assert b[0] == b1[0] && b[1..] == b1[1..] + b2;
      TextOfAppend(b1[1..], b2);
      var x := TextPiece(b1[0]);
      assert x + (TextOf(b1[1..]) + TextOf(b2)) == (x + TextOf(b1[1..])) + TextOf(b2);
    }
  }

  /** The text blocks of a reply, in order. */
  function TextBlocks(blocks: seq<ResponseBlock>): (r: seq<ResponseBlock>)
    ensures forall i :: 0 <= i < |r| ==> r[i].TextOut?
    ensures |r| <= |blocks|
  {
    if blocks == [] then []
    else (if blocks[0].TextOut? then [blocks[0]] else []) + TextBlocks(blocks[1..])
  }

  /** Blocks of any other type contribute nothing: the answer is that of the text blocks alone. */
  lemma {:induction false} OtherBlocksIgnored(blocks: seq<ResponseBlock>)
    ensures TextOf(blocks) == TextOf(TextBlocks(blocks))
  {
    if blocks != [] {
      var first := blocks[0];
      OtherBlocksIgnored(blocks[1..]);
      var head := if first.TextOut? then [first] else [];
      TextOfAppend(head, TextBlocks(blocks[1..]));
      if head != [] {
        assert TextOf(head) == TextPiece(first) + TextOf([]) by {
          assert head[1..] == [];
        }
      }
    }
  }

  lemma TextOfStep(blocks: seq<ResponseBlock>, i: nat)
    requires i < |blocks|
    ensures TextOf(blocks[..i + 1]) == TextOf(blocks[..i]) + TextPiece(blocks[i])
  {
    var b := blocks[i];
    assert blocks[..i + 1] == blocks[..i] + [b];
    TextOfAppend(blocks[..i], [b]);
    assert [b][1..] == [];
  }

  /** The loop `assistant_response += content_block.text` over the text blocks. */
  method AssistantText(blocks: seq<ResponseBlock>) returns (text: string)
    ensures text == TextOf(blocks)
  {
    text := "";
    for i := 0 to |blocks|
      invariant text == TextOf(blocks[..i])
    {
      TextOfStep(blocks, i);
      if blocks[i].TextOut? {
        text := text + blocks[i].text;
      }
    }
    assert blocks[..|blocks|] == blocks;
  }

  // ---------------------------------------------------------------- one exchange

  // The apologies are written in pieces so that facts about their characters stay cheap to prove.
  const ImageApology := "I'm sorry, " + "there was an " + "error " + "processing " + "the image. " + "Please try again."
  const ApiApology := "I'm sorry, " + "there was an " + "error " + "communicating " + "with the AI. " + "Please try again."

  /**
   * The image argument of a call: `None` when `image_path` is falsy (absent or
   * empty), otherwise what `encode_image_to_base64(image_path)` returned.
   */
  predicate ImageFailed(image: Option<string>) {
    image.Some? && StartsWith(image.value, "Error")
  }

  /** The user turn of this call: the text, or the encoded image followed by the labelled text. */
  function UserTurn(userInput: string, image: Option<string>): Message {
    match image
    case None => Message("user", Plain(userInput))
    case Some(encoded) =>
      Message("user", Blocks([ImageBlock(encoded), TextBlock("User input for image: " + userInput)]))
  }

  /** What a reply makes `chat_with_claude` return. */
  function ResponseOf(reply: ModelReply): string {
    match reply
    case ApiFailure(_) => ApiApology
    case Reply(blocks, _) => TextOf(blocks)
  }

  /** The part of the globals a call updates: the history and `main_model_tokens`. */
  datatype Conversation = Conversation(history: seq<Message>, tokens: TokenCounter)

  /**
   * A model call sent `turn` after the history and got `reply`. A failed call
   * changes nothing; a successful one adds the reported usage to the counter
   * (and `ExchangeAppends` says what it does to the history).
   */
  function Exchange(c: Conversation, turn: Message, reply: ModelReply): (r: Conversation)
    ensures reply.ApiFailure? ==> r == c
    ensures reply.Reply? ==>
      && r.tokens.input == c.tokens.input + reply.usage.inputTokens
      && r.tokens.output == c.tokens.output + reply.usage.outputTokens
      && r.tokens.cacheWrite == Some(reply.usage.cacheCreation)
      && r.tokens.cacheRead == Some(reply.usage.cacheRead)
  {
    match reply
    case ApiFailure(_) => c
    case Reply(blocks, usage) =>
      Conversation(c.history + [turn, Message("assistant", Plain(TextOf(blocks)))], Record(c.tokens, usage))
  }

  /**
   * A successful call appends exactly the user turn and one assistant turn holding
   * the answer, and keeps the earlier history.
   */
  lemma ExchangeAppends(c: Conversation, turn: Message, reply: ModelReply)
    requires reply.Reply?
    ensures var r := Exchange(c, turn, reply);
      && |r.history| == |c.history| + 2 && r.history[..|c.history|] == c.history
      && r.history[|c.history|] == turn
      && r.history[|c.history| + 1] == Message("assistant", Plain(ResponseOf(reply)))
  {
    var h := Exchange(c, turn, reply).history;
    assert h[..|c.history|] == c.history;
  }

  /** Neither apology contains the automode sentinel: neither has an underscore. */
  lemma ApologiesLackSentinel()
    ensures !Contains(ApiApology, Sentinel) && !Contains(ImageApology, Sentinel)
  {
    assert Sentinel[8] == '_';
    MissingCharNotContained(ApiApology, Sentinel, '_');
    MissingCharNotContained(ImageApology, Sentinel, '_');
  }

  // ---------------------------------------------------------------- automode

  const Sentinel := "AUTOMODE_COMPLETE"
  const Continuation := "Continue with the next step."

  /** The reply ends automode: a successful answer whose text contains the sentinel. */
  predicate Stops(reply: ModelReply) {
    reply.Reply? && Contains(TextOf(reply.blocks), Sentinel)
  }

  /** The outcome of automode: the conversation it leaves and every message list the host was sent, one per call. */
  datatype Automated = Automated(conversation: Conversation, sent: seq<seq<Message>>)

  /**
   * `run_automode` as a function: at most `cap` calls, the first sending `input`
   * and every later one the continuation prompt, stopping after the first answer
   * with the sentinel. `sent` holds the lists the host was sent before, so the
   * next call is answered by `script(|sent|)`; the result's `sent` extends it.
   */
  function Automode(c: Conversation, script: nat -> ModelReply, cap: int, input: string,
                    sent: seq<seq<Message>>): Automated
    decreases cap
  {
    if cap <= 0 then Automated(c, sent)
    else
      var turn := Message("user", Plain(input));
      var reply := script(|sent|);
      var c' := Exchange(c, turn, reply);
      var sent' := sent + [c.history + [turn]];
      if Stops(reply) then Automated(c', sent')
      else Automode(c', script, cap - 1, Continuation, sent')
  }

  /** The `n`-th answer of the script holds the sentinel. */
  predicate StopsAt(script: nat -> ModelReply, n: nat) {
    Stops(script(n))
  }

  /** None of the answers `lo` up to `hi` holds the sentinel. */
  predicate NoStopBetween(script: nat -> ModelReply, lo: nat, hi: nat) {
    forall n :: lo <= n < hi ==> !StopsAt(script, n)
  }

  /**
   * Automode only appends to what was sent before, never more than `cap` lists,
   * none when `cap` is not positive and at least one otherwise.
   */
  lemma {:induction false} AutomodeBounded(c: Conversation, script: nat -> ModelReply, cap: int, input: string,
                                           sent: seq<seq<Message>>)
    ensures var r := Automode(c, script, cap, input, sent).sent;
      |sent| <= |r| && r[..|sent|] == sent
    ensures cap <= 0 ==> Automode(c, script, cap, input, sent).sent == sent
    ensures cap > 0 ==> |sent| + 1 <= |Automode(c, script, cap, input, sent).sent| <= |sent| + cap
    decreases cap
  {
    if cap > 0 && !Stops(script(|sent|)) {
      var turn := Message("user", Plain(input));
      var c' := Exchange(c, turn, script(|sent|));
      var sent' := sent + [c.history + [turn]];
      AutomodeBounded(c', script, cap - 1, Continuation, sent');
      PrefixOfPrefix(Automode(c', script, cap - 1, Continuation, sent').sent, sent', sent);
    }
  }

  lemma PrefixOfPrefix<T>(r: seq<T>, s: seq<T>, t: seq<T>)
    requires |s| <= |r| && r[..|s|] == s
    requires |t| <= |s| && s[..|t|] == t
    ensures r[..|t|] == t
  {
    assert r[..|t|] == r[..|s|][..|t|];
  }

  /** The message list sent ends with the user turn `prompt`. */
  predicate EndsWithPrompt(messages: seq<Message>, prompt: string) {
    messages != [] && messages[|messages| - 1] == Message("user", Plain(prompt))
  }

  lemma LastOfAppend(h: seq<Message>, p: string)
    ensures EndsWithPrompt(h + [Message("user", Plain(p))], p)
  {
  }

  /** Every message list after the one at `first` ends with the user turn `prompt`. */
  predicate FollowUps(sent: seq<seq<Message>>, first: nat, prompt: string) {
    forall i :: first < i < |sent| ==> EndsWithPrompt(sent[i], prompt)
  }

  lemma FollowUpsStep(sent: seq<seq<Message>>, first: nat, p: string)
    requires first + 1 < |sent| ==> EndsWithPrompt(sent[first + 1], p)
    requires FollowUps(sent, first + 1, p)
    ensures FollowUps(sent, first, p)
  {
  }

  /**
   * Each call sends the conversation so far followed by the prompt: the goal on
   * the first call, the continuation prompt on every later one.
   */
  lemma {:induction false} AutomodePrompts(c: Conversation, script: nat -> ModelReply, cap: int, input: string,
                                           sent: seq<seq<Message>>)
    ensures var r := Automode(c, script, cap, input, sent).sent;
      cap > 0 ==> |sent| < |r| && r[|sent|] == c.history + [Message("user", Plain(input))]
    ensures FollowUps(Automode(c, script, cap, input, sent).sent, |sent|, Continuation)
    decreases cap
  {
    AutomodeBounded(c, script, cap, input, sent);
    if cap > 0 {
      var turn := Message("user", Plain(input));
      var c' := Exchange(c, turn, script(|sent|));
      var sent' := sent + [c.history + [turn]];
      if !Stops(script(|sent|)) {
        var r := Automode(c', script, cap - 1, Continuation, sent').sent;
        AutomodeBounded(c', script, cap - 1, Continuation, sent');
        AutomodePrompts(c', script, cap - 1, Continuation, sent');
        assert r[|sent|] == r[..|sent'|][|sent|];
        if |sent'| < |r| {
          LastOfAppend(c'.history, Continuation);
        }
        FollowUpsStep(r, |sent|, Continuation);
      }
    }
  }

  /**
   * The sentinel decides the number of calls: if the `k`-th answer (`k <= cap`) is
   * the first with the sentinel, exactly `k` calls are made; and when fewer than
   * `cap` calls are made, the last answer is the first with the sentinel.
   */
  lemma {:induction false} AutomodeStopsOnSentinel(c: Conversation, script: nat -> ModelReply, cap: int,
                                                 input: string, sent: seq<seq<Message>>, k: nat)
    requires 1 <= k <= cap
    ensures StopsAt(script, |sent| + k - 1) && NoStopBetween(script, |sent|, |sent| + k - 1)
        ==> |Automode(c, script, cap, input, sent).sent| == |sent| + k
    ensures |Automode(c, script, cap, input, sent).sent| == |sent| + k && k < cap
        ==> StopsAt(script, |sent| + k - 1) && NoStopBetween(script, |sent|, |sent| + k - 1)
    decreases k
  {
    var n := |sent|;
    var turn := Message("user", Plain(input));
    var c' := Exchange(c, turn, script(n));
    var sent' := sent + [c.history + [turn]];
    if StopsAt(script, n) {
      assert |Automode(c, script, cap, input, sent).sent| == n + 1;
      if k > 1 {
        assert !NoStopBetween(script, n, n + k - 1);
      }
    } else {
      assert Automode(c, script, cap, input, sent) == Automode(c', script, cap - 1, Continuation, sent');
      if k == 1 {
        AutomodeBounded(c', script, cap - 1, Continuation, sent');
      } else {
        AutomodeStopsOnSentinel(c', script, cap - 1, Continuation, sent', k - 1);
        assert |sent'| + (k - 1) - 1 == n + k - 1;
        if NoStopBetween(script, n + 1, n + k - 1) {
          assert NoStopBetween(script, n, n + k - 1);
        }
        if !NoStopBetween(script, n + 1, n + k - 1) {
          assert !NoStopBetween(script, n, n + k - 1);
        }
      }
    }
  }

  /** With no sentinel in the next `cap` answers, automode runs to its cap. */
  lemma {:induction false} AutomodeRunsToCap(c: Conversation, script: nat -> ModelReply, cap: int, input: string,
                                             sent: seq<seq<Message>>)
    requires NoStopBetween(script, |sent|, |sent| + (if cap > 0 then cap else 0))
    ensures |Automode(c, script, cap, input, sent).sent| == |sent| + if cap > 0 then cap else 0
    decreases cap
  {
    if cap > 0 {
      assert !StopsAt(script, |sent|);
      var turn := Message("user", Plain(input));
      var c' := Exchange(c, turn, script(|sent|));
      AutomodeRunsToCap(c', script, cap - 1, Continuation, sent + [c.history + [turn]]);
    }
  }

  /**
   * One pass of `run_automode`'s loop: after the next call, which leaves the
   * conversation `c'` and the lists `sent'`, automode either stops there or
   * goes on from `c'` with one call fewer and the continuation prompt.
   */
  lemma AutomodeAdvance(c: Conversation, script: nat -> ModelReply, cap: int, input: string, sent: seq<seq<Message>>,
                        c': Conversation, sent': seq<seq<Message>>)
    requires cap > 0
    requires c' == Exchange(c, Message("user", Plain(input)), script(|sent|))
    requires sent' == sent + [c.history + [Message("user", Plain(input))]]
    ensures Stops(script(|sent|)) ==> Automode(c, script, cap, input, sent) == Automated(c', sent')
    ensures !Stops(script(|sent|)) ==>
      Automode(c, script, cap, input, sent) == Automode(c', script, cap - 1, Continuation, sent')
  {
  }

  /** With no calls left, automode stops where it is. */
  lemma AutomodeExhausted(c: Conversation, script: nat -> ModelReply, cap: int, input: string,
                          sent: seq<seq<Message>>)
    requires cap <= 0
    ensures Automode(c, script, cap, input, sent) == Automated(c, sent)
  {
  }

  /**
   * `Stops` is the loop's test on the response text: the response holds the
   * sentinel exactly when the reply stops automode, since a failed call answers
   * with the apology, which has no sentinel.
   */
  lemma StopsOnSentinelInResponse(reply: ModelReply)
    ensures Contains(ResponseOf(reply), Sentinel) <==> Stops(reply)
  {
    ApologiesLackSentinel();
  }

  // ---------------------------------------------------------------- module globals

  /** The names main.py's standard-library imports bind (main.py:3-18). */
  const StdlibNames: set<string> := {
    "sys", "os", "asyncio", "threading", "datetime", "json", "shutil", "logging", "re",
    "time", "base64", "difflib", "subprocess", "glob", "mimetypes",
    "Tuple", "Dict", "Any", "List", "Optional"
  }

  /** The names main.py's Qt imports bind (main.py:21-28); `QInputDialog` is not among them. */
  const QtNames: set<string> := {
    "QApplication", "QMainWindow", "QWidget", "QVBoxLayout", "QHBoxLayout", "QTextEdit",
    "QLineEdit", "QPushButton", "QAction", "QFileDialog", "QLabel", "QMenuBar", "QMenu",
    "QMessageBox", "QScrollArea", "QCheckBox", "Qt", "QEventLoop", "QIcon", "QTextCursor",
    "asyncSlot"
  }

  /** The names main.py's other library imports bind (main.py:31-43). */
  const LibraryNames: set<string> := {
    "load_dotenv", "Anthropic", "APIStatusError", "APIError", "TavilyClient",
    "Console", "Markdown", "Panel", "Syntax", "sr", "websockets", "Image", "io"
  }

  /** The names main.py's assignments and definitions bind at top level (main.py:52-133, 415). */
  const DefinedNames: set<string> := {
    "anthropic_api_key", "anthropic_client", "tavily_api_key", "tavily_client",
    "ELEVEN_LABS_API_KEY", "VOICE_ID", "MODEL_ID", "console", "MAX_CONTEXT_TOKENS",
    "main_model_tokens", "tool_checker_tokens", "code_editor_tokens", "code_execution_tokens",
    "conversation_history", "file_contents", "code_editor_memory", "code_editor_files",
    "running_processes", "MAINMODEL", "TOOLCHECKERMODEL", "CODEEDITORMODEL",
    "CODEEXECUTIONMODEL", "BASE_SYSTEM_PROMPT", "tools",
    "setup_virtual_environment", "encode_image_to_base64", "MainWindow", "main"
  }

  /** Every global name of main.py. */
  const MainGlobals: set<string> := StdlibNames + QtNames + LibraryNames + DefinedNames

  /** The dialog class both dialog helpers call. */
  const DialogClass := "QInputDialog"

  /**
   * Evaluating a global name in a module whose globals are `globals`: it raises
   * `NameError` exactly when nothing binds the name. (Python's builtins bind no Qt class.)
   */
  function LookUp(globals: set<string>, name: string): (r: Result<()>)
    ensures r.Raised? <==> name !in globals
    ensures r.Raised? ==> r.exc == NameError(name)
  {
    if name in globals then Returned(()) else Raised(NameError(name))
  }

  /** main.py binds no name `QInputDialog`: neither an import nor a definition does. */
  lemma DialogClassUnbound()
    ensures DialogClass !in MainGlobals
  {
    NotImported();
    assert DialogClass !in DefinedNames;
  }

  /** No import of main.py binds `QInputDialog`. */
  lemma NotImported()
    ensures DialogClass !in StdlibNames + QtNames + LibraryNames
  {
    NotAQtName();
    assert DialogClass !in StdlibNames;
    assert DialogClass !in LibraryNames by { assert DialogClass[0] != "TavilyClient"[0]; }
  }

  /** The Qt imports leave `QInputDialog` out; `QApplication` is the one name of its length. */
  lemma NotAQtName()
    ensures DialogClass !in QtNames
  {
    assert DialogClass[1] != "QApplication"[1];
  }

  // ---------------------------------------------------------------- the window

  const EngineerHeader := "# Claude-3.5-Sonnet Engineer Chat Log\n\n"

  /** The main window's state flags and the module globals it updates. */
  class Engineer {
    var history: seq<Message>
    var mainTokens: TokenCounter
    var toolCheckerTokens: TokenCounter
    var codeEditorTokens: TokenCounter
    var codeExecutionTokens: TokenCounter
    var voiceMode: bool
    var ttsEnabled: bool
    var automode: bool
    var maxIterations: int

    /** The globals at import time and `MainWindow.__init__`'s state variables. */
    constructor ()
      ensures history == [] && mainTokens == Zeroed && toolCheckerTokens == Zeroed
      ensures codeEditorTokens == Zeroed && codeExecutionTokens == Zeroed
      ensures !voiceMode && !ttsEnabled && !automode && maxIterations == 25
    {
      history := [];
      mainTokens, toolCheckerTokens, codeEditorTokens, codeExecutionTokens := Zeroed, Zeroed, Zeroed, Zeroed;
      voiceMode, ttsEnabled, automode := false, false, false;
      maxIterations := 25;
    }

    function Conv(): Conversation
      reads this
    {
      Conversation(history, mainTokens)
    }

    /** The state the model calls never touch: the other three counters and the voice and TTS flags. */
    function Others(): (TokenCounter, TokenCounter, TokenCounter, bool, bool)
      reads this
    {
      (toolCheckerTokens, codeEditorTokens, codeExecutionTokens, voiceMode, ttsEnabled)
    }

    /**
     * `chat_with_claude(user_input, image_path)`. An image the encoder fails on
     * ends the call before the model is asked; otherwise the history and the new
     * turn are sent, and the history and `main_model_tokens` change as `Exchange`
     * says. The other counters and the window's flags are not touched.
     */
    method ChatWithClaude(host: ModelHost, userInput: string, image: Option<string>)
      returns (response: string, exitContinuation: bool)
      modifies this, host
      ensures !exitContinuation
      ensures Others() == old(Others())
      ensures automode == old(automode) && maxIterations == old(maxIterations)
      ensures ImageFailed(image) ==>
        response == ImageApology && Conv() == old(Conv()) && host.sent == old(host.sent)
      ensures !ImageFailed(image) ==>
        var turn := UserTurn(userInput, image);
        var reply := host.script(|old(host.sent)|);
        && host.sent == old(host.sent) + [old(history) + [turn]]
        && response == ResponseOf(reply)
        && Conv() == Exchange(old(Conv()), turn, reply)
    {
      exitContinuation := false;
      var turn: Message;
      if image.Some? {
        if StartsWith(image.value, "Error") {
          return ImageApology, false;
        }
        turn := Message("user", Blocks([ImageBlock(image.value), TextBlock("User input for image: " + userInput)]));
      } else {
        turn := Message("user", Plain(userInput));
      }
      var reply := host.Create(history + [turn]);
      if reply.ApiFailure? {
        return ApiApology, false;
      }
      mainTokens := mainTokens.(input := mainTokens.input + reply.usage.inputTokens);
      mainTokens := mainTokens.(output := mainTokens.output + reply.usage.outputTokens);
      mainTokens := mainTokens.(cacheWrite := Some(reply.usage.cacheCreation));
      mainTokens := mainTokens.(cacheRead := Some(reply.usage.cacheRead));
      response := AssistantText(reply.blocks);
      history := history + [turn];
      history := history + [Message("assistant", Plain(response))];
    }

    /** `reset_conversation`: an empty history and a main counter with only `input` and `output`. */
    method ResetConversation()
      modifies this
      ensures history == [] && mainTokens == InputOutputOnly
      ensures Others() == old(Others())
      ensures automode == old(automode) && maxIterations == old(maxIterations)
    {
      history := [];
      mainTokens := TokenCounter(0, 0, None, None);
    }

    /** `save_chat(filename)`: the text written to `filename`; nothing else changes. */
    method SaveChat(filename: string) returns (written: (string, string))
      ensures written == (filename, ChatLog(EngineerHeader, "Claude", history))
    {
      var text := FormatTranscript(EngineerHeader, "Claude", history);
      written := (filename, text);
    }

    /**
     * One pass of `run_automode`'s loop: the call with `input`. Automode from the
     * state before either stops here, when the response holds the sentinel, or
     * goes on from the new state with one call fewer and the continuation prompt.
     */
    method AutomodePass(host: ModelHost, input: string, ghost cap: int) returns (response: string)
      requires cap > 0
      modifies this, host
      ensures Others() == old(Others()) && automode == old(automode) && maxIterations == old(maxIterations)
      ensures host.sent == old(host.sent) + [old(history) + [Message("user", Plain(input))]]
      ensures var run := Automode(old(Conv()), host.script, cap, input, old(host.sent));
        && (Contains(response, Sentinel) ==> run == Automated(Conv(), host.sent))
        && (!Contains(response, Sentinel) ==> run == Automode(Conv(), host.script, cap - 1, Continuation, host.sent))
    {
      ghost var before, sent := Conv(), host.sent;
      var exitContinuation;
      response, exitContinuation := ChatWithClaude(host, input, None);
      StopsOnSentinelInResponse(host.script(|sent|));
      AutomodeAdvance(before, host.script, cap, input, sent, Conv(), host.sent);
    }

    /**
     * `run_automode(user_input)`. When automode is on, the conversation and the
     * message lists sent are those of `Automode` from the current state;
     * automode is off afterwards in every case.
     */
    method RunAutomode(host: ModelHost, userInput: string)
      modifies this, host
      ensures !automode && maxIterations == old(maxIterations) && Others() == old(Others())
      ensures !old(automode) ==> Conv() == old(Conv()) && host.sent == old(host.sent)
      ensures old(automode) ==>
        var run := Automode(old(Conv()), host.script, maxIterations, userInput, old(host.sent));
        Conv() == run.conversation && host.sent == run.sent
    {
      ghost var wasOn := automode;
      ghost var total := Automode(Conv(), host.script, maxIterations, userInput, host.sent);
      ghost var left := maxIterations;
      var iterationCount := 0;
      var input := userInput;
      while automode && iterationCount < maxIterations
        invariant 0 <= iterationCount && left == maxIterations - iterationCount
        invariant maxIterations == old(maxIterations) && Others() == old(Others())
        invariant !wasOn ==> !automode && Conv() == old(Conv()) && host.sent == old(host.sent)
        invariant wasOn && automode ==> total == Automode(Conv(), host.script, left, input, host.sent)
        invariant wasOn && !automode ==> total == Automated(Conv(), host.sent)
        decreases left
      {
        var response := AutomodePass(host, input, left);
        if Contains(response, Sentinel) {
          automode := false;
          break;
        } else {
          input := Continuation;
        }
        iterationCount := iterationCount + 1;
        left := left - 1;
      }
      if iterationCount >= maxIterations {
        if wasOn && automode {
          AutomodeExhausted(Conv(), host.script, left, input, host.sent);
        }
        automode := false;
      }
    }

    /**
     * `get_number_dialog`: it evaluates `QInputDialog` among the module's `globals`,
     * then `getInt` answers `answer` (`None` when the user cancels).
     */
    method GetNumberDialog(globals: set<string>, answer: Option<int>) returns (r: Result<Option<int>>)
      ensures DialogClass in globals ==> r == Returned(answer)
      ensures DialogClass !in globals ==> r == Raised(NameError(DialogClass))
    {
      var found := LookUp(globals, DialogClass);
      if found.Raised? {
        return Raised(found.exc);
      }
      r := Returned(answer);
    }

    /** `get_text_dialog`: the same lookup, then `getText` answers `answer`. */
    method GetTextDialog(globals: set<string>, answer: Option<string>) returns (r: Result<Option<string>>)
      ensures DialogClass in globals ==> r == Returned(answer)
      ensures DialogClass !in globals ==> r == Raised(NameError(DialogClass))
    {
      var found := LookUp(globals, DialogClass);
      if found.Raised? {
        return Raised(found.exc);
      }
      r := Returned(answer);
    }

    /**
     * `on_automode_triggered` in a module whose globals are `globals`, with the
     * dialogs' answers as parameters. When the dialog class is unbound the first
     * dialog raises `NameError` and nothing changes; otherwise a chosen count and
     * goal run automode with that cap.
     */
    method AutomodeAction(globals: set<string>, host: ModelHost, iterations: Option<int>, goal: Option<string>)
      returns (r: Result<()>)
      modifies this, host
      ensures DialogClass !in globals ==> r == Raised(NameError(DialogClass))
      ensures DialogClass !in globals ==>
        automode == old(automode) && maxIterations == old(maxIterations) &&
        Conv() == old(Conv()) && Others() == old(Others()) && host.sent == old(host.sent)
      ensures DialogClass in globals ==> r == Returned(())
      ensures DialogClass in globals ==> Others() == old(Others())
      ensures DialogClass in globals && iterations.Some? ==> !automode && maxIterations == iterations.value
      ensures DialogClass in globals && iterations.None? ==>
        automode == old(automode) && maxIterations == old(maxIterations) &&
        Conv() == old(Conv()) && host.sent == old(host.sent)
      ensures DialogClass in globals && iterations.Some? && goal.None? ==>
        Conv() == old(Conv()) && host.sent == old(host.sent)
      ensures DialogClass in globals && iterations.Some? && goal.Some? ==>
        var run := Automode(old(Conv()), host.script, iterations.value, goal.value, old(host.sent));
        Conv() == run.conversation && host.sent == run.sent
    {
      var count := GetNumberDialog(globals, iterations);
      if count.Raised? {
        return Raised(count.exc);
      }
      if count.value.Some? {
        maxIterations := count.value.value;
        automode := true;
        var text := GetTextDialog(globals, goal);
        if text.Raised? {
          assert false;
        }
        if text.value.Some? {
          RunAutomode(host, text.value.value);
        } else {
          automode := false;
        }
      }
      r := Returned(());
    }

    /**
     * `on_automode_triggered` as written: main.py never imports `QInputDialog`, so
     * the first dialog raises `NameError` before the cap or automode is set, and
     * the action changes nothing.
     */
    method OnAutomodeTriggered(host: ModelHost, iterations: Option<int>, goal: Option<string>)
      returns (r: Result<()>)
      modifies this, host
      ensures r == Raised(NameError(DialogClass))
      ensures automode == old(automode) && maxIterations == old(maxIterations)
      ensures Conv() == old(Conv()) && Others() == old(Others()) && host.sent == old(host.sent)
    {
      DialogClassUnbound();
      r := AutomodeAction(MainGlobals, host, iterations, goal);
    }

    /**
     * The automode menu action as evidently intended: with `QInputDialog` imported
     * (from `PyQt5.QtWidgets`, beside the other widgets) the dialogs work, and a
     * chosen count and goal run automode with that cap.
     */
    method EnterAutomode(host: ModelHost, iterations: Option<int>, goal: Option<string>)
      modifies this, host
      ensures Others() == old(Others())
      ensures iterations.Some? ==> !automode
      ensures iterations.None? ==> automode == old(automode)
      ensures iterations.None? ==> maxIterations == old(maxIterations) && Conv() == old(Conv()) && host.sent == old(host.sent)
      ensures iterations.Some? ==> maxIterations == iterations.value
      ensures iterations.Some? && goal.None? ==> Conv() == old(Conv()) && host.sent == old(host.sent)
      ensures iterations.Some? && goal.Some? ==>
        var run := Automode(old(Conv()), host.script, iterations.value, goal.value, old(host.sent));
        Conv() == run.conversation && host.sent == run.sent
    {
      var r := AutomodeAction(MainGlobals + {DialogClass}, host, iterations, goal);
    }
  }
}
