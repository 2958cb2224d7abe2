/** The host process as the selection engine sees it: the exit code it will end with,
    whether the text-UI library has been asked to exit, and the lines written to the
    standard output and error streams. */
module Host {
  import opened Wrappers

  class Process {
    /** `process.exitCode`; `None` while it is unset. */
    var exitCode: Option<int>
    /** The text UI's `exit()` has been called. */
    var exitRequested: bool
    /** Lines written with `console.log`. */
    var stdout: seq<string>
    /** Lines written with `console.error`. */
    var stderr: seq<string>

    constructor ()
      ensures exitCode == None && !exitRequested && stdout == [] && stderr == []
    {
      exitCode := None;
      exitRequested := false;
      stdout := [];
      stderr := [];
    }

    /** The status the process ends with: an unset exit code means success. */
    function ExitStatus(): (status: int)
      reads this
      ensures exitCode.None? ==> status == 0
      ensures exitCode.Some? ==> status == exitCode.value
    {
      exitCode.GetOr(0)
    }

    method Log(line: string)
      modifies this
      ensures stdout == old(stdout) + [line]
      ensures stderr == old(stderr) && exitCode == old(exitCode) && exitRequested == old(exitRequested)
    {
      stdout := stdout + [line];
    }

    method LogError(line: string)
      modifies this
      ensures stderr == old(stderr) + [line]
      ensures stdout == old(stdout) && exitCode == old(exitCode) && exitRequested == old(exitRequested)
    {
      stderr := stderr + [line];
    }

    method SetExitCode(code: int)
      modifies this
      ensures exitCode == Some(code)
      ensures stdout == old(stdout) && stderr == old(stderr) && exitRequested == old(exitRequested)
    {
      exitCode := Some(code);
    }

    method RequestExit()
      modifies this
      ensures exitRequested
      ensures stdout == old(stdout) && stderr == old(stderr) && exitCode == old(exitCode)
    {
      exitRequested := true;
    }
  }
}
