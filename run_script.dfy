/** `run_script`: the backend runs a worker script as a child process with
    `check=True` and reduces whatever happened to a `{success, output, error}`
    record.  The process itself is an input: how it ended. */
module RunScript {

  /** The dict `run_script` returns. */
  datatype RunResult = RunResult(success: bool, output: string, error: string)

  /** How `subprocess.run(..., check=True)` ended. */
  datatype ProcessOutcome =
    /** The child ran and exited with `code`; `description` is the text of the
        `CalledProcessError` raised when the code is not zero.  `stdout` and
        `stderr` are the texts as captured in text mode, that is after
        `UniversalNewlines` of what the child wrote. */
    | Exited(code: int, stdout: string, stderr: string, description: string)
    /** The interpreter could not be started (`FileNotFoundError`). */
    | NotFound
    /** Any other exception, with its text. */
    | Crashed(description: string)

  /** `run_script(script_name, args)` for a script at `scriptPath`. */
  function Run(scriptName: string, scriptPath: string, outcome: ProcessOutcome): (r: RunResult)
    ensures r.success <==> outcome.Exited? && outcome.code == 0
    ensures r.output == (if outcome.Exited? then outcome.stdout else "")
    ensures r.success ==> r.error == outcome.stderr
    ensures !r.success ==> |r.error| > 0
  {
    match outcome
    case Exited(code, out, err, description) =>
      if code == 0 then RunResult(true, out, err)
      else RunResult(false, out, "Error running script " + scriptName + ": " + description
                                 + "\nStderr: " + err + "\nStdout: " + out)
    case NotFound => RunResult(false, "", "Error: Script '" + scriptPath + "' not found.")
    case Crashed(description) =>
      RunResult(false, "", "An unexpected error occurred running " + scriptName + ": " + description)
  }

  /** The newline translation of a text-mode capture (`text=True`): every
      `"\r\n"` and every other `"\r"` becomes `"\n"`; the rest is kept. */
  function UniversalNewlines(s: string): (t: string)
    ensures '\r' !in t
    ensures '\r' !in s ==> t == s
    ensures |t| <= |s|
    decreases |s|
  {
    if s == [] then []
    else if s[0] == '\r' then
      "\n" + UniversalNewlines(if |s| > 1 && s[1] == '\n' then s[2..] else s[1..])
    else
      assert s == [s[0]] + s[1..];
      [s[0]] + UniversalNewlines(s[1..])
  }

  /** A capture ends its lines with `"\n"` alone: after a carriage return in
      the child's output the captured text holds a newline at that place. */
  lemma {:induction false} CarriageReturnEndsLine(a: string, b: string)
    requires '\r' !in a
    ensures UniversalNewlines(a + "\r" + b) == a + "\n" + UniversalNewlines(if b != [] && b[0] == '\n' then b[1..] else b)
    decreases |a|
  {
    if a == [] {
      assert a + "\r" + b == "\r" + b;
      CarriageReturnFirst(b);
    } else {
      var s := a + "\r" + b;
      assert s[0] == a[0] && s[1..] == a[1..] + "\r" + b;
      CarriageReturnEndsLine(a[1..], b);
    }
  }

  lemma CarriageReturnFirst(b: string)
    ensures UniversalNewlines("\r" + b) == "\n" + UniversalNewlines(if b != [] && b[0] == '\n' then b[1..] else b)
  {
    var s := "\r" + b;
    assert s[1..] == b;
    assert b != [] ==> s[2..] == b[1..];
  }
}
