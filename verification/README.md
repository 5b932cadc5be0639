# Claude Engineer: a verified model of its session core

Claude Engineer is a chat assistant around a language model, in two front ends.
`ai_assistant.py` is a console program, with an optional voice input mode.
`main.py` is a PyQt window with an "automode" that keeps prompting the model
until it answers with `AUTOMODE_COMPLETE` or an iteration cap is reached.

This project models the part of both programs that works without the model, the
microphone or the screen:

- **The shell-command gate** of `ai_assistant.py`: `sanitize_input`,
  `validate_command_whitelist` and `run_shell_command`. Module `CommandGate`, with
  the Python string builtins it relies on in `PyStr`.
- **The sandboxed code runner** `execute_code`. Module `Executor`. A `FileSystem`
  class tracks every temporary file created and which files exist. The process run,
  whether writing the code succeeds and whether the program deletes its own file
  are oracle values.
- **The session state of `ai_assistant.py`** and its console loop `main`. Module
  `Assistant`, a class over the module globals. It covers:
  - `reset_conversation` and `save_chat`;
  - `process_voice_command`;
  - the case-insensitive command chain;
  - the `voice_mode` flag.
- **The chat window of `main.py`**. Module `Engineer`, a class over the globals and
  the window's state flags. It covers:
  - `chat_with_claude`, with its history and token-counter updates;
  - `reset_conversation` and `save_chat`;
  - `run_automode`;
  - the automode menu action and its two dialog helpers, over the set of global
    names main.py binds: as written (no `QInputDialog` among them, so it raises
    `NameError`) and with that import added.
- **Shared pieces:**
  - the token counters, in module `Tokens`;
  - the Markdown transcript both `save_chat`s write, and the `Chat_%Y%m%d_%H%M%S.md`
    file name, in module `Transcript`.

The model never calls the language model. `Engineer.ModelHost` stands for it:
its `k`-th call answers `script(k)`, and it logs every message list it was sent.
The other inputs are parameters:
- what the user types or says;
- the clock;
- the image encoder's result;
- the outcome of a process run.

Imperative code stays imperative. The loops of `save_chat`, the reply-text loop
and `run_automode` are `method`s with loop invariants. So is the console `main`.
Each of these is proved against a specification function:
- `Transcript.ChatLog` for `save_chat`;
- `Engineer.TextOf` for the reply-text loop;
- `Engineer.Automode` for `run_automode`;
- `Assistant.Drive` for `main`.

Lemmas state what the programs promise about these functions.

`Engineer.Automode` and `Assistant.Drive` take the message lists sent so far and
the saves made so far as an accumulator. One pass of the loop is then one
unfolding of the function.

Automode stops in the model when the *reply* is a successful answer whose text
contains the sentinel (`Engineer.Stops`). The program tests the *response string*
instead. `Engineer.StopsOnSentinelInResponse` proves the two tests agree: a failed
call answers with an apology, and the apology has no `_`, so it cannot contain the
sentinel.

Two quirks of the command gate are proved as they are written.
- **The whitelist's multi-word entries can never match.** The entries
  `"pip list"` and `"python --version"` are compared with a single
  whitespace-free token. See `CommandGate.MultiWordEntriesNeverMatch` and
  `CommandGate.PipListRejected`.
- **A blank command raises.** A command that is blank after sanitizing makes
  `split()[0]` raise `IndexError`. That happens outside the `try`, so
  `run_shell_command(";&|")` raises instead of returning an error dictionary. See
  `CommandGate.SeparatorsOnlyRaise`.

## Model

| member | source | states |
|---|---|---|
| PyStr.Strip | ai_assistant.py:245 | `strip()` leaves a slice of the input with only whitespace removed around it; the result neither begins nor ends with whitespace and is a subsequence of the input |
| PyStr.StripUnchanged | ai_assistant.py:245 | a string that neither begins nor ends with whitespace is its own `strip()` |
| PyStr.RemoveChar | ai_assistant.py:245 | `replace(c, '')` leaves no `c`, keeps every other character in order, shortens the string by the number of occurrences of `c`, and changes nothing when `c` is absent |
| PyStr.Split | ai_assistant.py:241 | `split()` yields whitespace-free non-empty tokens that together spell the non-whitespace characters of the string, in order; the first token is the whole leading run of non-whitespace characters |
| PyStr.SplitFirstToken | ai_assistant.py:241 | the first token of `split()` occurs in the string preceded only by whitespace and followed by whitespace or the end, so it is a maximal word and not a piece of one |
| PyStr.SplitEmpty | ai_assistant.py:241 | `split()` is empty exactly when the string has no non-whitespace character |
| PyStr.Lower | ai_assistant.py:372 | `lower()` keeps the length and lowers each character in place |
| PyStr.LowerIdempotent | ai_assistant.py:372 | lowering twice is lowering once |
| PyStr.ContainsAt | main.py:402 | the `in` test on strings holds exactly when the pattern occurs at some position |
| PyStr.MissingCharNotContained | main.py:402 | a string lacking one of the pattern's characters does not contain the pattern |
| PyStr.IntToString | ai_assistant.py:282 | `str(n)` ends in a digit and begins with `-` exactly for negative `n` |
| PyStr.NatToString | ai_assistant.py:282 | `str(n)` of a natural number is a digit string without leading zeros whose value is `n` |
| PyStr.FixedDigits | ai_assistant.py:225 | a zero-padded `strftime` field has exactly `w` digits and reads back as the value it encodes when the value fits |
| CommandGate.RemoveSeparators | ai_assistant.py:245 | the three `replace` calls leave no `;`, `&` or `\|`, and their result is exactly the input with those three characters filtered out (`NonSeparators`): every other character is kept, in order |
| CommandGate.ReplacesAreFilter | ai_assistant.py:245 | the three chained `replace(c, '')` calls equal one pass that drops every `;`, `&` and `\|` |
| CommandGate.SanitizeInput | ai_assistant.py:243-245 | `sanitize_input` returns the separator-free text of its input with the whitespace around it cut off: a slice of `NonSeparators(s)` with only whitespace outside it, and no whitespace at either end |
| CommandGate.SanitizeInputSound | ai_assistant.py:243-245 | the sanitized command has no `;`, `&` or `\|`, no whitespace at either end, and is a subsequence of the input |
| CommandGate.SanitizeKeepsClean | ai_assistant.py:243-245 | a command with no separator and no surrounding whitespace is left unchanged |
| CommandGate.SanitizeIdempotent | ai_assistant.py:243-245 | sanitizing twice equals sanitizing once |
| CommandGate.NonSpaceOfStrip | ai_assistant.py:241 | `strip()` removes only whitespace: the non-whitespace characters are the same before and after |
| CommandGate.MultiWordEntriesNeverMatch | ai_assistant.py:239-241 | a token is in the five-entry whitelist exactly when it is `ls`, `dir` or `echo`: `pip list` and `python --version` can never match |
| CommandGate.ValidateCommandWhitelist | ai_assistant.py:238-241 | validation raises IndexError exactly when the command has no non-whitespace character; otherwise it is true exactly when the first token is `ls`, `dir` or `echo` |
| CommandGate.ShellDecision | ai_assistant.py:291-295 | the gate raises exactly when the sanitized command is blank; a spawned command is the sanitized one and its first token is whitelisted; a rejected one's first token is not |
| CommandGate.CalledProcessErrorText | ai_assistant.py:309-315 | the text of a `CalledProcessError` begins with `Command '`, the command and `' `, and ends with a full stop |
| CommandGate.RunShellCommand | ai_assistant.py:291-317 | it raises exactly when validation raises; a rejected command yields exactly `{"error": "Command not allowed."}` whatever the process would do; a reply without error comes only from a spawned command that exited with 0 and carries its output |
| CommandGate.RemoveCharAppend | ai_assistant.py:245 | `replace(c, '')` distributes over concatenation |
| CommandGate.FirstToken | ai_assistant.py:241 | a command that begins with a whitespace-free word followed by whitespace has that word as its first token |
| CommandGate.DecisionOfSanitized | ai_assistant.py:291-295 | the gate's verdict on a command is its verdict on the sanitized command |
| CommandGate.DecisionOfWord | ai_assistant.py:291-295 | a clean command that is the word `w` alone, or `w` followed by whitespace, is spawned when `w` is `ls`, `dir` or `echo` and rejected otherwise |
| CommandGate.RemoveSemicolon | ai_assistant.py:245 | deleting the separators of `a;b`, with `a` and `b` separator-free, joins `a` and `b` |
| CommandGate.RmRfRejected | ai_assistant.py:291-295 | `"rm -rf /; ls"` sanitizes to `"rm -rf / ls"` and is rejected |
| CommandGate.LsPasses | ai_assistant.py:291-295 | `"ls -la"` is spawned unchanged |
| CommandGate.LsAlonePasses | ai_assistant.py:291-295 | the bare command `"ls"` is spawned unchanged |
| CommandGate.PipListRejected | ai_assistant.py:239-241 | `"pip list"` is a whitelist entry, yet the command `"pip list"` is rejected |
| CommandGate.SeparatorsOnlyRaise | ai_assistant.py:291-295 | `run_shell_command(";&\|")` raises IndexError rather than returning an error dictionary, whatever the process would do |
| Tokens.Record | main.py:350-353 | one successful call never lowers `input` or `output` and always sets both cache fields |
| Tokens.RecordAllTotals | main.py:350-353 | after any run of calls, `input` and `output` are the starting values plus the reported totals, and the cache fields are those of the last call; no call changes nothing |
| Tokens.TwoCalls | main.py:350-353 | after two calls, `input` and `output` are the sums and the cache fields are the second call's values |
| Tokens.RecordAfterInputOutputReset | main.py:377-380 | a call after main.py's reset, which drops the cache keys, leaves the same counter as a call after a full zeroing |
| Transcript.Repr | main.py:384-391 | the string inside a printed image turn is in double quotes exactly when it holds a `'` and no `"`, and in single quotes otherwise |
| Transcript.EscapedRoundTrip | main.py:384-391 | the escaped text between the quotes reads back as the original string |
| Transcript.ReprRoundTrip | main.py:384-391 | the text between `repr`'s quotes unescapes to the string it was made from |
| Transcript.EscapedQuotesEscaped | main.py:384-391 | every quote character inside the quotes is preceded by a backslash, so the quotes delimit the string |
| Transcript.ApostropheRepr | main.py:384-391 | `don't` is printed as `"don't"`, in double quotes and without escapes |
| Transcript.Section | ai_assistant.py:229-233 | a message contributes a section exactly when its role is user or assistant; the section starts with the `## ` heading naming the speaker and ends with a blank line |
| Transcript.BodyAppend | ai_assistant.py:227-233 | the sections of a history split anywhere are the sections of the first part followed by those of the second |
| Transcript.BodyPrefix | ai_assistant.py:227-233 | formatting one more message appends exactly its section |
| Transcript.OtherRolesIgnored | ai_assistant.py:229-233 | messages with roles other than user and assistant contribute nothing: the transcript equals that of the user and assistant messages alone |
| Transcript.FormatTranscript | ai_assistant.py:226-233 | the `formatted_chat +=` loop yields the header followed by one section per message in history order (`ChatLog`) |
| Transcript.ChatFilename | ai_assistant.py:225 | the file name is `Chat_`, eight digits, `_`, six digits and `.md`, 23 characters in all |
| Transcript.ChatFilenameFields | ai_assistant.py:225 | the year, month, day, hour, minute and second fields sit at offsets 5, 9, 11, 14, 16 and 18 |
| Transcript.ChatFilenameFieldValues | ai_assistant.py:225 | each digit field of the file name reads back as the date-time field it was written from |
| Transcript.ChatFilenameRoundTrip | ai_assistant.py:225 | parsing the file name gives back the date and time it was made from |
| Transcript.ChatFilenameInjective | ai_assistant.py:225 | two saves in different seconds never produce the same file name |
| Executor.FileSystem.constructor | ai_assistant.py:253-255 | a file system with the given files and no temporary file created yet |
| Executor.FileSystem.CreateTemp | ai_assistant.py:254 | a fresh, empty `.py` file that did not exist is created and logged as created; no other file changes |
| Executor.FileSystem.Write | ai_assistant.py:255 | a successful write sets the file's contents; a failed one changes no file |
| Executor.FileSystem.Remove | ai_assistant.py:287-289 | `os.remove` deletes exactly that file and reports whether it existed (a missing file is `FileNotFoundError`) |
| Executor.LengthAboveAll | ai_assistant.py:254 | a length no existing file name reaches, so the new name cannot clash |
| Executor.Report | ai_assistant.py:282 | the execution report begins with `Stdout:\n` and ends with the return code's last character |
| Executor.Execution | ai_assistant.py:272-286 | an error in the `try`, whether the process could not be started or a step after the run failed (decoding its output), returns an empty file name and `Error executing code: ` and the message; any other run returns the file's name and a report beginning `Stdout:\n`; a timed-out run's report is the timeout report |
| Executor.TimeoutDistinguishable | ai_assistant.py:277-282 | a timed-out run's report differs from any completed run's report |
| Executor.ErrorDistinguishable | ai_assistant.py:284-286 | an error result has an empty file name and a text beginning with `E`, while every report begins with `S` |
| Executor.ExecuteCode | ai_assistant.py:247-289 | provisioning failure and non-string code raise before any file is created; otherwise exactly one fresh `.py` file is created; a failed write raises and leaves that file behind, empty; after a successful write the file is removed and the result names it, or is the error text when the `try` failed; a program that ran and deleted its own file makes the removal raise `FileNotFoundError` in place of either, and only a process that never started escapes that |
| Executor.ExecuteCodeGuardedWrite | ai_assistant.py:254-289 | with a `try`/`finally` of its own around the write, a failed write still raises but removes the file first, so no path leaves a file behind; every other result is that of `execute_code` |
| Assistant.ClearedKeeps | ai_assistant.py:209-219 | a reset empties the history, the file contents and the editor files and keeps the editor memory and the running processes; a second reset changes nothing more |
| Assistant.Classify | ai_assistant.py:372-389 | each command word is recognised exactly when the lowered input equals it (or starts with `automode`), independently of the order of the tests |
| Assistant.ClassifyIgnoresCase | ai_assistant.py:372-389 | the command chain gives the same answer for an input and its lowered form |
| Assistant.LeavingVoiceMode | ai_assistant.py:353-368 | voice mode is left only on silence, on `exit voice mode`, or when the program ends |
| Assistant.SpokenExitQuits | ai_assistant.py:359-374 | saying `exit` in voice mode is no voice command, falls through to the command chain and ends the program |
| Assistant.ClearedAfterApply | ai_assistant.py:372-389 | a pass of the loop leaves the session unchanged or reset, and a later reset forgets which |
| Assistant.DriveOnlyResets | ai_assistant.py:352-392 | whatever the inputs, the loop leaves the session either as it was or as a reset leaves it |
| Assistant.DriveStamps | ai_assistant.py:352-392 | the loop keeps earlier saves and appends its own, each stamped with the next reading of the clock |
| Assistant.Assistant.constructor | ai_assistant.py:84-94 | at import time every collection is empty and every counter is zero |
| Assistant.Assistant.ResetConversation | ai_assistant.py:209-219 | the new session is `Cleared` of the old one: history, file contents and editor files empty, all four counters zeroed, editor memory and processes kept |
| Assistant.Assistant.SaveChat | ai_assistant.py:222-236 | the file is named after the time and holds the header `# Chat Log` and the sections of the history; the session is unchanged |
| Assistant.Assistant.ProcessVoiceCommand | ai_assistant.py:173-185 | `exit voice mode` answers `(False, "Exiting voice mode.")`; `save chat` writes the transcript and names the file; `reset conversation` resets; any other phrase answers `(True, None)` and changes nothing |
| Assistant.Assistant.HandleCommand | ai_assistant.py:372-392 | one typed line does what `TypedStep` says: the session effect, the new voice mode, whether the loop ends, and the files written |
| Assistant.Assistant.VoicePass | ai_assistant.py:353-368 | one spoken input does what `HeardStep` says, falling through to the command chain for a phrase that is no voice command |
| Assistant.Assistant.Pass | ai_assistant.py:353-392 | one pass of the loop reads from the stream the current mode names and does what the routing says |
| Assistant.Assistant.MainLoop | ai_assistant.py:344-392 | the whole loop, from text mode, leaves the session, voice mode and exit flag of `Drive` and writes exactly its saves' files |
| Engineer.ModelHost.Create | main.py:328-345 | the call sends the message list, which is logged, and answers the next scripted reply |
| Engineer.TextOfAppend | main.py:358-361 | the answer text distributes over concatenation of the blocks |
| Engineer.OtherBlocksIgnored | main.py:358-361 | blocks that are not text contribute nothing to the answer |
| Engineer.AssistantText | main.py:358-361 | the `assistant_response +=` loop yields the texts of the text blocks in order |
| Engineer.Exchange | main.py:326-369 | a failed call changes neither history nor counter; a successful one adds the reported usage to `input` and `output` and sets both cache fields to the call's values |
| Engineer.ExchangeAppends | main.py:326-369 | a successful call appends exactly the user turn and one assistant turn holding the answer, and keeps the earlier history |
| Engineer.ApologiesLackSentinel | main.py:303 | neither apology contains `AUTOMODE_COMPLETE` |
| Engineer.StopsOnSentinelInResponse | main.py:402-405 | the returned response contains the sentinel exactly when the reply is a successful answer containing it, so an API error never stops automode |
| Engineer.AutomodeBounded | main.py:398-408 | automode only appends to what was sent, at most `max_iterations` calls, none when the cap is not positive and at least one otherwise |
| Engineer.AutomodePrompts | main.py:399-407 | the first call sends the history followed by the goal, and every later call ends with `Continue with the next step.` |
| Engineer.AutomodeStopsOnSentinel | main.py:399-408 | if the `k`-th answer (`k` at most the cap) is the first with the sentinel, exactly `k` calls are made; if fewer calls than the cap are made, the last answer is the first with the sentinel |
| Engineer.AutomodeExhausted | main.py:399 | with no call left under the cap, automode makes no call and changes nothing |
| Engineer.AutomodeRunsToCap | main.py:399-411 | with no sentinel in the next `max_iterations` answers, automode makes exactly `max_iterations` calls |
| Engineer.Engineer.constructor | main.py:73-79 | with the globals main.py:73-79 sets and the fields `__init__` sets at main.py:143-147, the window starts with empty history, zeroed counters, voice, TTS and automode off and a cap of 25 |
| Engineer.Engineer.ChatWithClaude | main.py:295-371 | an image the encoder fails on returns the image apology with no call made and nothing changed; otherwise the history plus the new turn is sent once and the history and main counter change as `Exchange` says, the other counters and flags untouched |
| Engineer.Engineer.ResetConversation | main.py:377-381 | the history becomes empty and `main_model_tokens` holds only `input` and `output`, both 0; the other counters and flags are untouched |
| Engineer.Engineer.SaveChat | main.py:384-391 | the text written is the header `# Claude-3.5-Sonnet Engineer Chat Log` and the sections of the history with the assistant labelled `Claude` |
| Engineer.Engineer.AutomodePass | main.py:400-408 | one pass sends the history and the prompt once; automode from before either stops there, when the response has the sentinel, or goes on from the new state with one call fewer and the continuation prompt |
| Engineer.Engineer.RunAutomode | main.py:396-411 | with automode on, the conversation and the lists sent are those of `Automode` from the starting state; with it off nothing happens; either way automode is off at the end, also for a cap of 0 |
| Engineer.LookUp | main.py:250 | evaluating a global name raises `NameError` carrying that name exactly when the module binds no such name |
| Engineer.DialogClassUnbound | main.py:3-133 | none of main.py's imports, assignments and definitions (with `main` at main.py:415) binds `QInputDialog` |
| Engineer.NotImported | main.py:3-43 | none of main.py's imports binds `QInputDialog` |
| Engineer.NotAQtName | main.py:21-28 | the Qt imports do not bind `QInputDialog` |
| Engineer.Engineer.GetNumberDialog | main.py:249-251 | the count dialog returns the user's answer when `QInputDialog` is bound and raises `NameError("QInputDialog")` otherwise |
| Engineer.Engineer.GetTextDialog | main.py:253-255 | the goal dialog returns the user's answer when `QInputDialog` is bound and raises `NameError("QInputDialog")` otherwise |
| Engineer.Engineer.AutomodeAction | main.py:237-255 | the menu action for any set of module globals: without `QInputDialog` it raises `NameError` and changes nothing; with it, a cancelled count changes nothing, a chosen count becomes the cap, a goal runs automode as `Automode` says, a cancelled goal turns automode off, and automode is off whenever a count was chosen |
| Engineer.Engineer.OnAutomodeTriggered | main.py:237-251 | the menu action with main.py's own globals, whose Qt imports (main.py:21-28) leave `QInputDialog` out, raises `NameError` for `QInputDialog` and changes no state, whatever the dialogs would answer |
| Engineer.Engineer.EnterAutomode | main.py:238-255 | the menu action once `QInputDialog` is imported: a cancelled count dialog changes nothing; a chosen count becomes the cap; with a goal, automode runs as `Automode` says from the current state; a cancelled goal dialog turns automode off and changes nothing else; whenever a count was chosen, automode is off afterwards |

## Left out

- The windowing and console code is not part of this model. That covers `init_ui`, `create_menu`, the display of the dialogs (their answers are parameters), `append_message`, `on_send_clicked`, the other button handlers and the rich console panels. These only display things or route GUI events.
- Speech input and output are left out: `voice_input`, `initialize_speech_recognition`, `cleanup_speech_recognition`, `voice_input_loop` and `text_to_speech`. This is device and network I/O. What `voice_input` returns is an input sequence of the loop (`None` for silence).
- The language model client is the `ModelHost` oracle. The system prompt, the tool list sent and the caching headers are not modelled. In `main.py` the tool list holds one entry, `create_folders`. It is sent as the `tools` argument and, as JSON, in the system prompt. Neither changes any state the model tracks.
- `encode_image_to_base64` is not modelled. The image argument of `ChatWithClaude` is the encoder's result, or `None` when no image path is given.
- The real processes are oracles: `ProcessOutcome` for `execute_code` and `RunOutcome` for `run_shell_command`. The timeout value and the commands that activate the virtual environment belong to that oracle.
- `setup_virtual_environment` is not modelled beyond its outcome. A failure there is the `provisioned == false` case, which raises.
- Executor.FileSystem.CreateTemp: the temporary file's name is only guaranteed to be fresh and end in `.py`. The model picks one deterministic fresh name. Python picks a random one.
- The disk writes of both `save_chat`s are represented by the `(filename, text)` pairs they would write.
- The console loop's input streams are finite in the model. In `Assistant.Drive` the loop also ends when the stream it reads from runs dry. This stands for end of input or an interrupt, which the program handles outside the loop.
- The branches of `main` for `automode` and for plain chat input are `pass` in the program. They have no effect in the model either.
- `running_processes`, `MAX_CONTEXT_TOKENS`, `MAX_CONTINUATION_ITERATIONS`, `file_contents_lock` and the `tools` list of `ai_assistant.py` are declared but never used by the modelled code. They are carried as state where reset touches them and are otherwise left out.
- Concurrency is not modelled. The model is sequential, so the GUI cannot switch automode off while a call is in flight.
- PyStr.Lower: lowers ASCII letters only. Python's `lower()` also folds non-ASCII letters. The command words compared against are ASCII.
- Transcript.ChatFilenameRoundTrip: proved for four-digit years (1000 to 9999). `%Y` writes fewer digits for earlier years.
- Transcript.ChatFilenameInjective: only saves in different seconds get different names. The file name has a resolution of one second, so two saves within the same second get the same name, and `open(filename, 'w')` overwrites the first transcript with the second.
- Transcript.Repr: models `repr`'s choice of quote and its escapes for backslash, newline, carriage return, tab and the chosen quote. Python also writes other control characters and non-printable characters as `\x`, `\u` or `\U` escapes; the model copies them unchanged.
- Messages always carry a role and a content in the model. The `message.get('role', '')` defaults of `ai_assistant.py` and the `KeyError` of `main.py` for a missing key are not modelled.
- CommandGate.RunShellCommand: for a negative return code, the text of `CalledProcessError` is an approximation. Python prints the signal's name there.
- Executor.ExecuteCode: tracks only the files `execute_code` itself creates and removes. The files the run program writes, apart from deleting its own, are not modelled. Neither is the environment directory that `venv.create` makes. Unchanged files after the call therefore mean only that no file of `execute_code`'s own stays behind. A failed write leaves the file empty in the model; what a partial write leaves in it is not modelled.
- The exception text `str(e)` in the error replies of `execute_code` and `run_shell_command` is the message carried by the oracle.

## Findings

| source | as written | input that shows it | evidently intended | confidence | as-written member | corrected member |
|---|---|---|---|---|---|---|
| ai_assistant.py:254-289 | the temporary file is created and written before the `try`, so its `finally` does not cover the write | code the write cannot encode, such as an emoji under a cp1252 locale: `write` raises and the new `.py` file stays on disk | every temporary file is removed, whatever fails | not executed | Executor.ExecuteCode | Executor.ExecuteCodeGuardedWrite |
| main.py:249-254 | `QInputDialog` is used by both dialog helpers but is missing from the PyQt5 imports at main.py:21-23 | choosing the automode menu action: the count dialog raises `NameError` before the cap or automode is set | the count and goal dialogs open and automode runs | not executed | Engineer.Engineer.OnAutomodeTriggered | Engineer.Engineer.EnterAutomode |
