/**
 * `execute_code` of ai_assistant.py: provision the isolated environment, check
 * the argument, write the code to a fresh temporary file, run it and always
 * delete the file again. The process is an oracle (`ProcessOutcome`).
 */
module Executor {
  import opened Outcomes
  import opened PyStr

  /** The files on disk, with their contents, and every file ever created, in order. */
  class FileSystem {
    var files: map<string, string>
    var created: seq<string>

    constructor (files: map<string, string>)
      ensures this.files == files && created == []
    {
      this.files := files;
      created := [];
    }

    /**
     * `tempfile.NamedTemporaryFile(mode='w', suffix='.py', delete=False)`: a new,
     * empty `.py` file that did not exist before.
     */
    method CreateTemp() returns (name: string)
      modifies this
      ensures name !in old(files) && EndsWith(name, ".py")
      ensures files == old(files)[name := ""]
      ensures created == old(created) + [name]
    {
      var n := LengthAboveAll(files.Keys);
      name := "tmp" + seq(n, _ => 'x') + ".py";
      assert name[|name| - 3..] == ".py";
      files := files[name := ""];
      created := created + [name];
    }

    /** `tmp_file.write(contents)`: `ok` says whether the write succeeds; a failed one leaves the file as it was. */
    method Write(name: string, contents: string, ok: bool)
      modifies this
      ensures ok ==> files == old(files)[name := contents]
      ensures !ok ==> files == old(files)
      ensures created == old(created)
    {
      if ok {
        files := files[name := contents];
      }
    }

    /** `os.remove(name)`: deletes the file, or fails with `FileNotFoundError` when it is already gone. */
    method Remove(name: string) returns (existed: bool)
      modifies this
      ensures existed <==> name in old(files)
      ensures files == old(files) - {name}
      ensures created == old(created)
    {
      existed := name in files;
      files := files - {name};
    }
  }

  predicate EndsWith(s: string, p: string) {
    |p| <= |s| && s[|s| - |p|..] == p
  }

  /** A length that every name in `names` falls short of. */
  method LengthAboveAll(names: set<string>) returns (n: nat)
    ensures forall f :: f in names ==> |f| < n
  {
    n := 0;
    var rest := names;
    while rest != {}
      invariant rest <= names
      invariant forall f :: f in names - rest ==> |f| < n
      decreases |rest|
    {
      var f :| f in rest;
      if |f| >= n {
        n := |f| + 1;
      }
      rest := rest - {f};
    }
  }

  /** What the `code` argument is: a `str`, or any other Python value. */
  datatype CodeArg = Text(source: string) | NotText

  /** What running the temporary file does (an oracle). */
  datatype ProcessOutcome =
    | Completed(stdout: string, stderr: string, code: int)  // finished within the timeout
    | TimedOut                                              // `asyncio.TimeoutError`, process killed
    | NotStarted(msg: string)      // `create_subprocess_shell` raised: the program never ran
    | FailedAfterRun(msg: string)  // the program ran, then a later step raised (`decode()` of its output)
  {
    /** The `except` branch handles it: `execute_code` answers with an error text. */
    predicate IsError() {
      NotStarted? || FailedAfterRun?
    }
  }

  /** `f"Stdout:\n{stdout}\n\nStderr:\n{stderr}\n\nReturn Code: {return_code}"` */
  function Report(stdout: string, stderr: string, returnCode: string): (r: string)
    ensures StartsWith(r, "Stdout:\n")
    ensures |r| > 0 && (returnCode != [] ==> r[|r| - 1] == returnCode[|returnCode| - 1])
  {
    var r := "Stdout:\n" + stdout + "\n\nStderr:\n" + stderr + "\n\nReturn Code: " + returnCode;
    assert r[..8] == "Stdout:\n";
    r
  }

  const TimeoutReport := Report("", "Execution timed out.", "Timed out")

  /** The pair `execute_code` returns for a process outcome, given the temporary file's name. */
  function Execution(codeFile: string, outcome: ProcessOutcome): (r: (string, string))
    ensures outcome.IsError() ==> r.0 == [] && StartsWith(r.1, "Error executing code: ")
    ensures outcome.IsError() ==> r.1 == "Error executing code: " + outcome.msg
    ensures !outcome.IsError() ==> r.0 == codeFile && StartsWith(r.1, "Stdout:\n")
    ensures outcome.TimedOut? ==> r.1 == TimeoutReport
  {
    match outcome
    case Completed(out, err, code) => (codeFile, Report(out, err, IntToString(code)))
    case TimedOut => (codeFile, TimeoutReport)
    case NotStarted(msg) => ("", "Error executing code: " + msg)
    case FailedAfterRun(msg) => ("", "Error executing code: " + msg)
  }

  /** A timed-out run can never be mistaken for a completed one: its report ends in a letter, not a digit. */
  lemma TimeoutDistinguishable(codeFile: string, stdout: string, stderr: string, code: int)
    ensures Execution(codeFile, TimedOut) != Execution(codeFile, Completed(stdout, stderr, code))
  {
    var t, c := Execution(codeFile, TimedOut).1, Execution(codeFile, Completed(stdout, stderr, code)).1;
    assert t[|t| - 1] == 't';
    assert IsDigit(c[|c| - 1]);
  }

  /** An error result is told apart from any report by its first character, and it names no file. */
  lemma ErrorDistinguishable(codeFile: string, failure: ProcessOutcome, outcome: ProcessOutcome)
    requires failure.IsError() && !outcome.IsError()
    ensures Execution(codeFile, failure).1[0] == 'E'
    ensures Execution(codeFile, outcome).1[0] == 'S'
    ensures Execution(codeFile, failure).0 == []
  {
    var r := Execution(codeFile, outcome).1;
    assert r[..8] == "Stdout:\n";
    assert r[0] == r[..8][0];
  }

  /** Adding a new file, rewriting it and removing it, once or twice, leaves the other files as they were. */
  lemma AddThenRemove(m: map<string, string>, k: string, v: string, w: string)
    requires k !in m
    ensures m[k := v][k := w] - {k} == m
    ensures m[k := v][k := w] - {k} - {k} == m
    ensures m[k := v] - {k} == m
  {
    assert (m[k := v][k := w] - {k}).Keys == m.Keys;
    assert (m[k := v] - {k}).Keys == m.Keys;
  }

  /**
   * `execute_code(code)`. Provisioning failure and a non-string argument raise
   * before any file is created. Otherwise exactly one temporary file is created
   * before the `try`. When writing the code to it fails, the exception escapes
   * and the file stays behind. When the write succeeds, the `finally` removes the
   * file on every path; if the program already deleted it, that removal raises
   * `FileNotFoundError` in place of the result, the error text of a step that
   * failed after the run included. `selfDeleting` says whether the program, once
   * it runs, deletes its own file.
   */
  method ExecuteCode(fs: FileSystem, code: CodeArg, provisioned: bool, writeOk: bool,
                     outcome: ProcessOutcome, selfDeleting: bool)
    returns (r: Result<(string, string)>)
    modifies fs
    ensures !provisioned ==>
      r == Raised(ProvisioningError) && fs.files == old(fs.files) && fs.created == old(fs.created)
    ensures provisioned && code.NotText? ==>
      && r == Raised(ValueError("Code must be a string."))
      && fs.files == old(fs.files) && fs.created == old(fs.created)
    ensures provisioned && code.Text? ==>
      && |fs.created| == |old(fs.created)| + 1
      && fs.created[..|old(fs.created)|] == old(fs.created)
      && var tmp := fs.created[|old(fs.created)|];
         && tmp !in old(fs.files) && EndsWith(tmp, ".py")
         && (!writeOk ==> r == Raised(WriteError) && fs.files == old(fs.files)[tmp := ""])
         && (writeOk ==>
               && fs.files == old(fs.files)
               && r == if selfDeleting && !outcome.NotStarted? then Raised(FileNotFound)
                       else Returned(Execution(tmp, outcome)))
  {
    if !provisioned {
      return Raised(ProvisioningError);
    }
    if code.NotText? {
      return Raised(ValueError("Code must be a string."));
    }
    var codeFile := fs.CreateTemp();
    fs.Write(codeFile, code.source, writeOk);
    if !writeOk {
      return Raised(WriteError);
    }
    AddThenRemove(old(fs.files), codeFile, "", code.source);
    // try: run the file; except: report the error
    var result := Execution(codeFile, outcome);
    if selfDeleting && !outcome.NotStarted? {
      var _ := fs.Remove(codeFile);
    }
    // finally: remove the file
    var existed := fs.Remove(codeFile);
    r := if existed then Returned(result) else Raised(FileNotFound);
  }

  /**
   * `execute_code` with a `try`/`finally` of its own around writing the code, whose
   * `finally` removes the file when the write fails: a failed write still raises,
   * and no path leaves the file behind.
   */
  method ExecuteCodeGuardedWrite(fs: FileSystem, code: CodeArg, provisioned: bool, writeOk: bool,
                               outcome: ProcessOutcome, selfDeleting: bool)
    returns (r: Result<(string, string)>)
    modifies fs
    ensures fs.files == old(fs.files)
    ensures !provisioned ==> r == Raised(ProvisioningError)
    ensures provisioned && code.NotText? ==> r == Raised(ValueError("Code must be a string."))
    ensures provisioned && code.Text? && !writeOk ==> r == Raised(WriteError)
    ensures provisioned && code.Text? && writeOk ==>
      && |fs.created| == |old(fs.created)| + 1
      && r == if selfDeleting && !outcome.NotStarted? then Raised(FileNotFound)
              else Returned(Execution(fs.created[|old(fs.created)|], outcome))
  {
    if !provisioned {
      return Raised(ProvisioningError);
    }
    if code.NotText? {
      return Raised(ValueError("Code must be a string."));
    }
    var codeFile := fs.CreateTemp();
    fs.Write(codeFile, code.source, writeOk);
    AddThenRemove(old(fs.files), codeFile, "", code.source);
    if !writeOk {
      var _ := fs.Remove(codeFile);
      return Raised(WriteError);
    }
    var result := Execution(codeFile, outcome);
    if selfDeleting && !outcome.NotStarted? {
      var _ := fs.Remove(codeFile);
    }
    var existed := fs.Remove(codeFile);
    r := if existed then Returned(result) else Raised(FileNotFound);
  }
}
