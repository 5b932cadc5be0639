/**
 * The shell-command gate of ai_assistant.py: `sanitize_input`,
 * `validate_command_whitelist` and `run_shell_command`. The process that a
 * permitted command starts is an oracle (`RunOutcome`).
 */
module CommandGate {
  import opened Outcomes
  import opened PyStr

  lemma {:induction false} SubsequenceElements<T>(a: seq<T>, b: seq<T>)
    requires IsSubsequence(a, b)
    ensures forall x :: x in a ==> x in b
    decreases |b|
  {
    if a != [] {
      if IsSubsequence(a, b[1..]) {
        SubsequenceElements(a, b[1..]);
      } else {
        SubsequenceElements(a[1..], b[1..]);
        assert a == [a[0]] + a[1..];
      }
    }
  }

  predicate IsSeparator(c: char) {
    c == ';' || c == '&' || c == '|'
  }

  /** The characters of `s` other than `;`, `&` and `|`, in order. */
  function NonSeparators(s: string): string {
    if s == [] then [] else (if IsSeparator(s[0]) then [] else [s[0]]) + NonSeparators(s[1..])
  }

  /** The three `replace` calls of `sanitize_input`: every separator deleted, nothing else. */
  function RemoveSeparators(s: string): (r: string)
    ensures r == NonSeparators(s)
    ensures ';' !in r && '&' !in r && '|' !in r
    ensures IsSubsequence(r, s)
    ensures ';' !in s && '&' !in s && '|' !in s ==> r == s
  {
    var a := RemoveChar(s, ';');
    var b := RemoveChar(a, '&');
    var c := RemoveChar(b, '|');
    RemoveCharKeepsAbsent(a, '&', ';');
    RemoveCharKeepsAbsent(b, '|', ';');
    RemoveCharKeepsAbsent(b, '|', '&');
    SubsequenceTransitive(c, b, a);
    SubsequenceTransitive(c, a, s);
    ReplacesAreFilter(s);
    c
  }

  lemma RemoveCharSingle(x: char, c: char)
    ensures RemoveChar([x], c) == if x == c then [] else [x]
  {
    assert [x][1..] == [];
  }

  /** The three deletions of one character leave it exactly when it is no separator. */
  lemma ReplacesOfChar(x: char)
    ensures RemoveChar(RemoveChar(RemoveChar([x], ';'), '&'), '|') == if IsSeparator(x) then [] else [x]
  {
    RemoveCharSingle(x, ';');
    RemoveCharSingle(x, '&');
    RemoveCharSingle(x, '|');
  }

  /** Deleting `;`, then `&`, then `|` keeps exactly the characters that are no separator. */
  lemma {:induction false} ReplacesAreFilter(s: string)
    ensures RemoveChar(RemoveChar(RemoveChar(s, ';'), '&'), '|') == NonSeparators(s)
    decreases |s|
  {
    if s != [] {
      var x, t := [s[0]], s[1..];
      assert s == x + t;
      RemoveCharAppend(x, t, ';');
      var a := RemoveChar(x, ';');
      RemoveCharAppend(a, RemoveChar(t, ';'), '&');
      var b := RemoveChar(a, '&');
      RemoveCharAppend(b, RemoveChar(RemoveChar(t, ';'), '&'), '|');
      ReplacesOfChar(s[0]);
      ReplacesAreFilter(t);
    }
  }

  /**
   * `sanitize_input`: delete every `;`, `&` and `|`, then strip. The result is the
   * separator-free text of `s` with the whitespace around it cut off.
   */
  function SanitizeInput(s: string): (r: string)
    ensures exists i :: StrippedAt(NonSeparators(s), r, i)
    ensures r == [] || (!IsSpace(r[0]) && !IsSpace(r[|r| - 1]))
  {
    Strip(RemoveSeparators(s))
  }

  /**
   * The result of `sanitize_input` has no separator, no whitespace at either end,
   * and only characters of the input, in their order.
   */
  lemma SanitizeInputSound(s: string)
    ensures var r := SanitizeInput(s);
      && ';' !in r && '&' !in r && '|' !in r
      && (r == [] || (!IsSpace(r[0]) && !IsSpace(r[|r| - 1])))
      && IsSubsequence(r, s)
  {
    var c := RemoveSeparators(s);
    SeparatorFreeSubsequence(Strip(c), c, s);
  }

  /** Taking a subsequence of a separator-free subsequence of `s`. */
  lemma SeparatorFreeSubsequence(r: string, c: string, s: string)
    requires IsSubsequence(r, c) && IsSubsequence(c, s)
    requires ';' !in c && '&' !in c && '|' !in c
    ensures IsSubsequence(r, s)
    ensures ';' !in r && '&' !in r && '|' !in r
  {
    SubsequenceTransitive(r, c, s);
    SubsequenceElements(r, c);
  }

  /** A command with no separator and no surrounding whitespace is left as it is. */
  lemma SanitizeKeepsClean(c: string)
    requires ';' !in c && '&' !in c && '|' !in c
    requires c == [] || (!IsSpace(c[0]) && !IsSpace(c[|c| - 1]))
    ensures SanitizeInput(c) == c
  {
    StripUnchanged(c);
  }

  /** Sanitizing twice is sanitizing once. */
  lemma SanitizeIdempotent(s: string)
    ensures SanitizeInput(SanitizeInput(s)) == SanitizeInput(s)
  {
    SanitizeInputSound(s);
    SanitizeKeepsClean(SanitizeInput(s));
  }

  /** A slice with only whitespace around it has all the non-whitespace of the string. */
  lemma NonSpaceOfStrippedSlice(s: string, r: string, i: int)
    requires StrippedAt(s, r, i)
    ensures NonSpace(r) == NonSpace(s)
  {
    var pre, post := s[..i], s[i + |r|..];
    assert s == pre + r + post;
    assert forall k :: 0 <= k < |pre| ==> pre[k] == s[k];
    assert forall k :: 0 <= k < |post| ==> post[k] == s[i + |r| + k];
    NonSpaceOfSpaces(pre);
    NonSpaceOfSpaces(post);
    NonSpaceAppend(pre + r, post);
    NonSpaceAppend(pre, r);
  }

  /** Stripping removes whitespace only. */
  lemma NonSpaceOfStrip(s: string)
    ensures NonSpace(Strip(s)) == NonSpace(s)
  {
    var r := Strip(s);
    var i :| StrippedAt(s, r, i);
    NonSpaceOfStrippedSlice(s, r, i);
  }

  /** The whitelist of ai_assistant.py, entries as written. */
  const Whitelist: seq<string> := ["ls", "dir", "echo", "pip list", "python --version"]

  /** A token never contains a space, so the two multi-word entries can never match. */
  lemma MultiWordEntriesNeverMatch(t: string)
    requires IsToken(t)
    ensures t in Whitelist <==> t in ["ls", "dir", "echo"]
  {
    assert IsSpace("pip list"[3]) && IsSpace("python --version"[6]);
  }

  /**
   * `validate_command_whitelist`: the first whitespace-delimited token must be a
   * whitelist entry. `split()[0]` raises IndexError on a blank command.
   */
  function ValidateCommandWhitelist(command: string): (r: Result<bool>)
    ensures r.Raised? <==> NonSpace(command) == []
    ensures r.Raised? ==> r.exc == IndexError
    ensures r.Returned? ==>
      && Split(Strip(command)) != []
      && (r.value <==> Split(Strip(command))[0] in ["ls", "dir", "echo"])
  {
    var tokens := Split(Strip(command));
    NonSpaceOfStrip(command);
    SplitEmpty(Strip(command));
    if tokens == [] then Raised(IndexError)
    else
      MultiWordEntriesNeverMatch(tokens[0]);
      Returned(tokens[0] in Whitelist)
  }

  /** What `run_shell_command` does with a command before any process exists. */
  datatype Decision = Reject | Spawn(command: string)

  /**
   * The decision part of `run_shell_command`: sanitize, then validate outside the
   * `try`. Only a sanitized command whose first token is `ls`, `dir` or `echo` is
   * ever spawned; a command that is blank after sanitizing raises IndexError.
   */
  function ShellDecision(command: string): (d: Result<Decision>)
    ensures d.Raised? <==> NonSpace(SanitizeInput(command)) == []
    ensures d.Returned? && d.value.Spawn? ==>
      && d.value.command == SanitizeInput(command)
      && Split(Strip(d.value.command))[0] in ["ls", "dir", "echo"]
    ensures d.Returned? && d.value.Reject? ==>
      Split(Strip(SanitizeInput(command)))[0] !in ["ls", "dir", "echo"]
  {
    var sanitized := SanitizeInput(command);
    match ValidateCommandWhitelist(sanitized)
    case Raised(e) => Raised(e)
    case Returned(ok) => Returned(if ok then Spawn(sanitized) else Reject)
  }

  /** What `subprocess.run` does with a spawned command (an oracle). */
  datatype RunOutcome =
    | Exited(stdout: string, stderr: string, code: int)
    | Failed(msg: string)   // any exception other than CalledProcessError

  /** The dictionary `run_shell_command` returns; `None` marks an absent key. */
  datatype ShellReply = ShellReply(
    stdout: Option<string>, stderr: Option<string>, returnCode: Option<int>, error: Option<string>)

  const NotAllowed := ShellReply(None, None, None, Some("Command not allowed."))

  /** `str(CalledProcessError(code, cmd))` */
  function CalledProcessErrorText(cmd: string, code: int): (r: string)
    ensures StartsWith(r, "Command '" + cmd + "' ") && r[|r| - 1] == '.'
  {
    var head := "Command '" + cmd + "' ";
    var r := if code < 0 then head + "died with unknown signal " + NatToString(-code) + "."
      else head + "returned non-zero exit status " + IntToString(code) + ".";
    assert r[..|head|] == head;
    r
  }

  /**
   * `run_shell_command`: a rejected command yields exactly `{"error": "Command not
   * allowed."}` whatever the process would have done; `check=True` turns a non-zero
   * exit into a reply that carries the output and an error.
   */
  function RunShellCommand(command: string, run: RunOutcome): (r: Result<ShellReply>)
    ensures r.Raised? <==> ShellDecision(command).Raised?
    ensures ShellDecision(command) == Returned(Reject) ==> r == Returned(NotAllowed)
    ensures r.Returned? && r.value.error == None ==>
      && ShellDecision(command).value.Spawn?
      && run.Exited? && run.code == 0
      && r.value == ShellReply(Some(run.stdout), Some(run.stderr), Some(0), None)
  {
    match ShellDecision(command)
    case Raised(e) => Raised(e)
    case Returned(Reject) => Returned(NotAllowed)
    case Returned(Spawn(c)) =>
      match run
      case Exited(out, err, 0) => Returned(ShellReply(Some(out), Some(err), Some(0), None))
      case Exited(out, err, code) =>
        Returned(ShellReply(Some(out), Some(err), Some(code), Some(CalledProcessErrorText(c, code))))
      case Failed(msg) => Returned(ShellReply(None, None, None, Some("An error occurred: " + msg)))
  }

  /** `replace` distributes over concatenation. */
  lemma {:induction false} RemoveCharAppend(a: string, b: string, c: char)
    ensures RemoveChar(a + b, c) == RemoveChar(a, c) + RemoveChar(b, c)
  {
    if a == [] {
      assert a + b == b;
    } else {
      assert (a + b)[0] == a[0] && (a + b)[1..] == a[1..] + b;
      RemoveCharAppend(a[1..], b, c);
    }
  }

  /** A command that starts with the word `w` followed by whitespace has `w` as first token. */
  lemma {:induction false} FirstToken(w: string, rest: string)
    requires IsToken(w)
    requires rest == [] || IsSpace(rest[0])
    ensures Split(w + rest) != [] && Split(w + rest)[0] == w
  {
    assert LStrip(w + rest) == w + rest;
    TakeWordOf(w, rest);
  }

  lemma {:induction false} TakeWordOf(w: string, rest: string)
    requires forall k :: 0 <= k < |w| ==> !IsSpace(w[k])
    requires rest == [] || IsSpace(rest[0])
    ensures TakeWord(w + rest) == w
  {
    if w == [] {
      assert w + rest == rest;
    } else {
      assert (w + rest)[1..] == w[1..] + rest;
      TakeWordOf(w[1..], rest);
    }
  }

  /** The gate decides on the sanitized command: sanitizing first changes no verdict. */
  lemma DecisionOfSanitized(raw: string)
    ensures ShellDecision(raw) == ShellDecision(SanitizeInput(raw))
  {
    SanitizeIdempotent(raw);
  }

  /** The gate's verdict on a command that sanitizing leaves unchanged and that starts with the word `w`. */
  lemma DecisionOfWord(command: string, w: string, rest: string)
    requires command == w + rest && IsToken(w) && (rest == [] || IsSpace(rest[0]))
    requires SanitizeInput(command) == command && Strip(command) == command
    ensures ShellDecision(command) ==
      Returned(if w in ["ls", "dir", "echo"] then Spawn(command) else Reject)
  {
    FirstToken(w, rest);
  }

  /** Deleting the one `;` between two clean pieces joins them. */
  lemma {:induction false} RemoveSemicolon(a: string, b: string)
    requires ';' !in a && '&' !in a && '|' !in a
    requires ';' !in b && '&' !in b && '|' !in b
    ensures RemoveSeparators(a + ";" + b) == a + b
  {
    RemoveCharAppend(a + ";", b, ';');
    RemoveCharAppend(a, ";", ';');
    assert RemoveChar(";", ';') == [];
    assert RemoveChar(a, ';') == a && RemoveChar(b, ';') == b;
    assert a + [] == a;
    var ab := a + b;
    assert RemoveChar(a + ";" + b, ';') == ab;
    assert '&' !in ab && '|' !in ab;
    assert RemoveChar(ab, '&') == ab;
  }

  lemma RmRfPieces()
    ensures "rm -rf /; ls" == "rm -rf /" + ";" + " ls" && "rm -rf /" + " ls" == "rm -rf / ls"
    ensures ';' !in "rm -rf /" && '&' !in "rm -rf /" && '|' !in "rm -rf /"
    ensures ';' !in " ls" && '&' !in " ls" && '|' !in " ls"
  {
  }

  lemma RmRfSanitized()
    ensures SanitizeInput("rm -rf /; ls") == "rm -rf / ls"
  {
    RmRfPieces();
    RemoveSemicolon("rm -rf /", " ls");
    RmRfStripped();
  }

  lemma RmRfClean()
    ensures SanitizeInput("rm -rf / ls") == "rm -rf / ls"
  {
    SanitizeKeepsClean("rm -rf / ls");
  }

  lemma RmRfStripped()
    ensures Strip("rm -rf / ls") == "rm -rf / ls"
  {
    var c := "rm -rf / ls";
    assert c[0] == 'r' && c[|c| - 1] == 's';
    StripUnchanged(c);
  }

  lemma RmRfWords()
    ensures IsToken("rm") && IsSpace(" -rf / ls"[0]) && "rm -rf / ls" == "rm" + " -rf / ls"
  {
  }

  lemma RmNotListed()
    ensures "rm" !in ["ls", "dir", "echo"]
  {
  }

  /** `"rm -rf /; ls"` sanitizes to `"rm -rf / ls"`, whose first token `rm` is rejected. */
  lemma RmRfRejected()
    ensures SanitizeInput("rm -rf /; ls") == "rm -rf / ls"
    ensures ShellDecision("rm -rf /; ls") == Returned(Reject)
  {
    RmRfSanitized();
    DecisionOfSanitized("rm -rf /; ls");
    RmRfDecision();
  }

  lemma RmRfDecision()
    ensures ShellDecision("rm -rf / ls") == Returned(Reject)
  {
    RmRfClean();
    RmRfStripped();
    RmRfWords();
    RmNotListed();
    DecisionOfWord("rm -rf / ls", "rm", " -rf / ls");
  }

  lemma LsClean()
    ensures SanitizeInput("ls -la") == "ls -la"
  {
    SanitizeKeepsClean("ls -la");
  }

  lemma LsStripped()
    ensures Strip("ls -la") == "ls -la"
  {
    var c := "ls -la";
    assert c[0] == 'l' && c[|c| - 1] == 'a';
    StripUnchanged(c);
  }

  lemma LsWords()
    ensures IsToken("ls") && IsSpace(" -la"[0]) && "ls -la" == "ls" + " -la"
  {
  }

  /** `"ls -la"` passes the gate unchanged. */
  lemma LsPasses()
    ensures ShellDecision("ls -la") == Returned(Spawn("ls -la"))
  {
    LsClean();
    LsStripped();
    LsWords();
    DecisionOfWord("ls -la", "ls", " -la");
  }

  lemma PipListClean()
    ensures SanitizeInput("pip list") == "pip list"
  {
    SanitizeKeepsClean("pip list");
  }

  lemma PipListStripped()
    ensures Strip("pip list") == "pip list"
  {
    var c := "pip list";
    assert c[0] == 'p' && c[|c| - 1] == 't';
    StripUnchanged(c);
  }

  lemma PipListWords()
    ensures IsToken("pip") && IsSpace(" list"[0]) && "pip list" == "pip" + " list"
    ensures "pip" !in ["ls", "dir", "echo"]
  {
  }

  /** `"pip list"`, though written in the whitelist, is rejected: its first token is `pip`. */
  lemma PipListRejected()
    ensures "pip list" in Whitelist
    ensures ShellDecision("pip list") == Returned(Reject)
  {
    PipListClean();
    PipListStripped();
    PipListWords();
    DecisionOfWord("pip list", "pip", " list");
  }

  lemma LsAloneClean()
    ensures SanitizeInput("ls") == "ls" && Strip("ls") == "ls"
  {
    var c := "ls";
    assert c[0] == 'l' && c[|c| - 1] == 's';
    SanitizeKeepsClean(c);
    StripUnchanged(c);
  }

  lemma LsAloneWords()
    ensures IsToken("ls") && "ls" == "ls" + []
  {
  }

  /** The bare command `"ls"` is spawned: a whitelisted word needs nothing after it. */
  lemma LsAlonePasses()
    ensures ShellDecision("ls") == Returned(Spawn("ls"))
  {
    LsAloneClean();
    LsAloneWords();
    DecisionOfWord("ls", "ls", []);
  }

  /** A command made only of separators is blank after sanitizing: validation raises. */
  lemma SeparatorsOnlyRaise(run: RunOutcome)
    ensures RunShellCommand(";&|", run) == Raised(IndexError)
  {
    var c := ";&|";
    assert RemoveChar(c, ';') == "&|" by {
      assert c[1..] == "&|";
      assert RemoveChar("&|", ';') == "&|";
    }
    assert RemoveChar("&|", '&') == "|" by {
      assert "&|"[1..] == "|";
      assert RemoveChar("|", '&') == "|";
    }
    assert RemoveChar("|", '|') == "";
    assert SanitizeInput(c) == "";
  }
}
