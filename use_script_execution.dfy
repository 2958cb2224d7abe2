/** The execution controller (source/hooks/useScriptExecution.ts): which command is
    spawned, the one-shot `isExecuted` flag, and what the child's exit and error
    events do. */
module UseScriptExecution {
  import opened Wrappers
  import opened Host

  const Win32Command := "npm.cmd"
  const DefaultCommand := "npm"

  /** The npm executable for `process.platform`. */
  function NpmCommand(platform: string): (command: string)
    ensures platform == "win32" ==> command == "npm.cmd"
    ensures platform != "win32" ==> command == "npm"
  {
    if platform == "win32" then Win32Command else DefaultCommand
  }

  /** A child process request: an executable and its argument vector, run without a
      shell and with the parent's standard streams. */
  datatype SpawnRequest = SpawnRequest(command: string, args: seq<string>)

  /** What the child reports: it exited (with a code, or `null` when a signal ended
      it), or it could not be run. */
  datatype ChildEvent = Exited(code: Option<int>) | Errored(message: string)

  /** The effect of a child event on the host: an optional line for standard error
      and whether the text UI is asked to exit. */
  datatype Outcome = Outcome(diagnostic: Option<string>, requestExit: bool)

  /** The line `executeScript` writes to standard output before spawning. */
  function ExecutingLine(scriptName: string): string {
    "\nExecuting: npm run " + scriptName + "\n"
  }

  const ExitPrefix := "\nScript exited with code "
  const ErrorPrefix := "Failed to execute script: "

  function DigitChar(d: nat): char
    requires d < 10
  {
    "0123456789"[d]
  }

  predicate IsDigit(c: char) {
    '0' <= c <= '9'
  }

  function DigitValue(c: char): nat
    requires IsDigit(c)
  {
    c as int - '0' as int
  }

  predicate AllDigits(s: string) {
    forall k :: 0 <= k < |s| ==> IsDigit(s[k])
  }

  /** Decimal digits of `n`, most significant first, without leading zeros. */
  function NatToString(n: nat): (s: string)
    ensures s != [] && AllDigits(s)
    ensures n > 0 ==> s[0] != '0'
  {
    if n < 10 then [DigitChar(n)] else NatToString(n / 10) + [DigitChar(n % 10)]
  }

  /** The value of a string of decimal digits. */
  function ParseNat(s: string): nat
    requires AllDigits(s)
  {
    if s == [] then 0 else ParseNat(s[..|s| - 1]) * 10 + DigitValue(s[|s| - 1])
  }

  /** The absolute value of `n`. */
  function Magnitude(n: int): (m: nat)
    ensures m == n || m == -n
  {
    if n < 0 then -n else n
  }

  /** How a template literal prints an exit code: the integer in decimal, or `null`. */
  function CodeText(code: Option<int>): (text: string)
    ensures code.None? ==> text == "null"
    ensures code.Some? && code.value >= 0 ==> text != [] && AllDigits(text)
    ensures code.Some? && code.value < 0 ==> |text| > 1 && text[0] == '-' && AllDigits(text[1..])
  {
    match code
    case None => "null"
    case Some(n) => if n < 0 then "-" + NatToString(Magnitude(n)) else NatToString(n)
  }

  /** Reads an exit code back from its printed form. */
  function ParseCodeText(text: string): Option<Option<int>> {
    if text == "null" then Some(None)
    else if |text| > 1 && text[0] == '-' && AllDigits(text[1..]) then
      var magnitude: int := ParseNat(text[1..]);
      Some(Some(-magnitude))
    else if text != [] && AllDigits(text) then
      Some(Some(ParseNat(text)))
    else None
  }

  /** Reading back the decimal digits gives the number. */
  lemma {:induction false} NatToStringRoundTrip(n: nat)
    ensures ParseNat(NatToString(n)) == n
  {
    var s := NatToString(n);
    if n >= 10 {
      NatToStringRoundTrip(n / 10);
      assert s[..|s| - 1] == NatToString(n / 10);
    }
  }

  /** A minus sign followed by digits reads back as the negated value. */
  lemma ParseNegative(digits: string)
    requires digits != [] && AllDigits(digits)
    ensures ParseCodeText("-" + digits) == Some(Some(-(ParseNat(digits) as int)))
  {
    var t := "-" + digits;
    assert t[1..] == digits;
    assert t != "null" by { assert t[0] == '-'; }
  }

  lemma NegativeCodeRoundTrip(n: int)
    requires n < 0
    ensures ParseCodeText(CodeText(Some(n))) == Some(Some(n))
  {
    var digits := NatToString(Magnitude(n));
    assert CodeText(Some(n)) == "-" + digits;
    ParseNegative(digits);
    NatToStringRoundTrip(Magnitude(n));
  }

  lemma NonNegativeCodeRoundTrip(n: nat)
    ensures ParseCodeText(CodeText(Some(n))) == Some(Some(n))
  {
    var t := NatToString(n);
    assert CodeText(Some(n)) == t;
    assert IsDigit(t[0]);
    assert t != "null" by { assert "null"[0] != t[0]; }
    NatToStringRoundTrip(n);
  }

  /** The printed exit code determines the code: the diagnostic names it exactly. */
  lemma CodeTextRoundTrip(code: Option<int>)
    ensures ParseCodeText(CodeText(code)) == Some(code)
  {
    match code
    case None =>
    case Some(n) =>
      if n < 0 {
        NegativeCodeRoundTrip(n);
      } else {
        NonNegativeCodeRoundTrip(n);
      }
  }

  /** The `exit` and `error` handlers: an exit with a code other than 0 (null
      included) and every error print a diagnostic; every event asks the UI to exit. */
  function ChildOutcome(event: ChildEvent): (o: Outcome)
    ensures o.requestExit
    ensures o.diagnostic.Some? <==> (event.Errored? || event.code != Some(0))
    ensures event.Exited? && o.diagnostic.Some? ==>
              |ExitPrefix| <= |o.diagnostic.value| &&
              o.diagnostic.value[..|ExitPrefix|] == ExitPrefix &&
              ParseCodeText(o.diagnostic.value[|ExitPrefix|..]) == Some(event.code)
    ensures event.Errored? ==> o.diagnostic == Some(ErrorPrefix + event.message)
  {
    match event
    case Exited(code) =>
      if code != Some(0) then
        CodeTextRoundTrip(code);
        var line := ExitPrefix + CodeText(code);
        assert line[|ExitPrefix|..] == CodeText(code);
        Outcome(Some(line), true)
      else Outcome(None, true)
    case Errored(message) => Outcome(Some(ErrorPrefix + message), true)
  }

  class ScriptExecution {
    /** Set once a script has been started; nothing resets it. */
    var isExecuted: bool

    constructor ()
      ensures !isExecuted
    {
      isExecuted := false;
    }

    /** `executeScript`: announce the run on standard output, spawn `npm run <name>`
        with the name as its own argument, and mark the controller as executed. */
    method ExecuteScript(scriptName: string, platform: string, host: Process) returns (spawn: SpawnRequest)
      modifies this, host
      ensures spawn == SpawnRequest(NpmCommand(platform), ["run", scriptName])
      ensures isExecuted
      ensures host.stdout == old(host.stdout) + [ExecutingLine(scriptName)]
      ensures host.stderr == old(host.stderr) && host.exitCode == old(host.exitCode)
      ensures host.exitRequested == old(host.exitRequested)
    {
      host.Log(ExecutingLine(scriptName));
      var npmCommand := NpmCommand(platform);
      spawn := SpawnRequest(npmCommand, ["run", scriptName]);
      isExecuted := true;
    }

    /** The child's handlers, registered by `ExecuteScript`: write the diagnostic, if
        any, to standard error, then ask the UI to exit. The exit code of the host is
        left as it is. */
    method OnChildEvent(event: ChildEvent, host: Process)
      requires isExecuted
      modifies host
      ensures host.stderr == old(host.stderr) +
                (if ChildOutcome(event).diagnostic.Some? then [ChildOutcome(event).diagnostic.value] else [])
      ensures host.exitRequested
      ensures host.exitCode == old(host.exitCode) && host.stdout == old(host.stdout)
    {
      var outcome := ChildOutcome(event);
      if outcome.diagnostic.Some? {
        host.LogError(outcome.diagnostic.value);
      }
      host.RequestExit();
    }
  }

  /** A child that exits with 2 prints a diagnostic naming 2; one that exits with 0
      prints nothing. Both end the UI, and neither touches the exit code, so the host's
      exit status stays whatever it was (0 when unset). */
  lemma ExitCodeExamples()
    ensures ChildOutcome(Exited(Some(2))) == Outcome(Some("\nScript exited with code 2"), true)
    ensures ChildOutcome(Exited(Some(0))) == Outcome(None, true)
    ensures ChildOutcome(Exited(None)) == Outcome(Some("\nScript exited with code null"), true)
  {
    assert NatToString(2) == "2";
    assert CodeText(Some(2)) == "2";
    assert ExitPrefix + "2" == "\nScript exited with code 2";
    assert ExitPrefix + "null" == "\nScript exited with code null";
  }
}
