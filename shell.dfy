/** The guarded shell runner (codeagent/core/shell.py). Before anything runs,
    a command holding a blacklisted pattern is refused, and so is a working
    directory outside the project root; otherwise the process outcome is
    mapped to a CommandResult. Paths are taken as already absolute, the
    process run is an input outcome, and the elapsed time an input number. */
module Shell {
  import opened Common

  datatype CommandResult = CommandResult(stdout: string, stderr: string, exitCode: int, duration: real)

  /** What subprocess.run did: returned, raised TimeoutExpired, or raised anything else. */
  datatype ProcessOutcome =
    | Exited(stdout: string, stderr: string, returnCode: int)
    | TimedOut
    | Failed(message: string)

  const Blacklist: seq<string> := ["rm -rf /", "rm -fr /", "Format-Volume", "dd if=/dev/zero", ":(){:|:&};:"]

  const BlockedPrefix: string := "SecurityError: Command " + "blocked" + " due to restricted pattern: "
  const OutsideRootPrefix: string := "SecurityError: Working directory must be within project root: "
  const TimeoutPrefix: string := "TimeoutError: Command execution exceeded "
  const ExecutionPrefix: string := "ExecutionError: "

  // ---------------------------------------------------------------------------
  // The blacklist

  /** The first pattern, in list order, that occurs in the command. */
  function BlockedBy(patterns: seq<string>, command: string): (r: Option<string>)
    ensures r.Some? ==> r.value in patterns && Contains(command, r.value)
  {
    if |patterns| == 0 then None
    else if Contains(command, patterns[0]) then Some(patterns[0])
    else BlockedBy(patterns[1..], command)
  }

  /** Pattern k is the first one of the list found in the command. */
  ghost predicate FirstFound(patterns: seq<string>, command: string, k: nat) {
    k < |patterns| && Contains(command, patterns[k]) &&
    forall j :: 0 <= j < k ==> !Contains(command, patterns[j])
  }

  /** A command is blocked exactly when some pattern occurs in it, and then by the first such pattern. */
  lemma {:induction false} BlockedByFirst(patterns: seq<string>, command: string)
    ensures BlockedBy(patterns, command).None? <==> forall i :: 0 <= i < |patterns| ==> !Contains(command, patterns[i])
    ensures BlockedBy(patterns, command).Some? ==>
      exists k: nat :: FirstFound(patterns, command, k) && patterns[k] == BlockedBy(patterns, command).value
    decreases |patterns|
  {
    if |patterns| > 0 {
      var tail := patterns[1..];
      BlockedByFirst(tail, command);
      assert forall i :: 0 < i < |patterns| ==> patterns[i] == tail[i - 1];
      if Contains(command, patterns[0]) {
        assert FirstFound(patterns, command, 0);
      } else if BlockedBy(tail, command).Some? {
        var k: nat :| FirstFound(tail, command, k) && tail[k] == BlockedBy(tail, command).value;
        assert FirstFound(patterns, command, k + 1);
      }
    }
  }

  /** The security-check loop of ShellExecutor.run, with its early return. */
  method FirstBlocked(command: string) returns (r: Option<string>)
    ensures r == BlockedBy(Blacklist, command)
  {
    var i := 0;
    while i < |Blacklist|
      invariant 0 <= i <= |Blacklist|
      invariant BlockedBy(Blacklist, command) == BlockedBy(Blacklist[i..], command)
    {
      assert Blacklist[i..][1..] == Blacklist[i + 1..];
      if Contains(command, Blacklist[i]) {
        return Some(Blacklist[i]);
      }
      i := i + 1;
    }
    return None;
  }

  // ---------------------------------------------------------------------------
  // The working-directory check

  /** Windows compares paths lower-cased. */
  function Normalized(path: string, onWindows: bool): string {
    if onWindows then Lower(path) else path
  }

  function Separator(onWindows: bool): char {
    if onWindows then '\\' else '/'
  }

  /** The check as written: `abs_cwd.startswith(abs_root)`. */
  predicate WithinRootAsWritten(dir: string, root: string) {
    root <= dir
  }

  /** The check as intended: the directory is the root itself or lies below it,
      so the root must end where a path component ends. */
  predicate WithinRoot(dir: string, root: string, sep: char) {
    root <= dir &&
    (|dir| == |root| || (|root| > 0 && root[|root| - 1] == sep) || dir[|root|] == sep)
  }

  /** A directory whose name only starts like the root's passes the written check. */
  lemma SiblingPassesAsWritten()
    ensures WithinRootAsWritten("/home/p2", "/home/p")
    ensures !WithinRoot("/home/p2", "/home/p", '/')
  {
    assert "/home/p2"[..7] == "/home/p";
  }

  /** The corrected check only ever refuses more than the written one. */
  lemma WithinRootStricter(dir: string, root: string, sep: char)
    ensures WithinRoot(dir, root, sep) ==> WithinRootAsWritten(dir, root)
  {
  }

  /** The intended meaning: for a root that does not end in the separator,
      the directory is the root or the root, a separator and a rest. */
  lemma WithinRootMeaning(dir: string, root: string, sep: char)
    requires |root| > 0 && root[|root| - 1] != sep
    ensures WithinRoot(dir, root, sep) <==> dir == root || exists rest :: dir == root + [sep] + rest
  {
    if WithinRoot(dir, root, sep) && dir != root {
      var rest := dir[|root| + 1..];
      assert dir == root + [sep] + rest;
    }
    if exists rest :: dir == root + [sep] + rest {
      var rest :| dir == root + [sep] + rest;
      assert dir[..|root|] == root && dir[|root|] == sep;
    }
  }

  /** Every directory is within itself as root. */
  lemma WithinItself(dir: string, sep: char)
    ensures WithinRoot(dir, dir, sep)
  {
  }

  // ---------------------------------------------------------------------------
  // The run

  /** The result for each process outcome; `elapsed` is time.time() - start_time. */
  function FromOutcome(outcome: ProcessOutcome, timeout: int, elapsed: real): (r: CommandResult)
    ensures r.duration == elapsed
  {
    match outcome
    case Exited(out, err, code) => CommandResult(out, err, code, elapsed)
    case TimedOut => CommandResult("", TimeoutPrefix + IntToString(timeout) + " seconds.", -2, elapsed)
    case Failed(message) => CommandResult("", ExecutionPrefix + message, -3, elapsed)
  }

  /** ShellExecutor.run(command, cwd, timeout), with `currentDir` standing for
      os.getcwd() (the project root) and `outcome` for what the process did.
      The directory check is the one the code makes, a plain prefix test. */
  function RunResult(command: string, cwd: Option<string>, currentDir: string, onWindows: bool,
                     timeout: int, outcome: ProcessOutcome, elapsed: real): CommandResult
  {
    var blocked := BlockedBy(Blacklist, command);
    if blocked.Some? then CommandResult("", BlockedPrefix + blocked.value, -1, 0.0)
    else
      var absCwd := Normalized(if cwd.Some? then cwd.value else currentDir, onWindows);
      var absRoot := Normalized(currentDir, onWindows);
      if !WithinRootAsWritten(absCwd, absRoot) then
        CommandResult("", OutsideRootPrefix + absRoot, -1, 0.0)
      else FromOutcome(outcome, timeout, elapsed)
  }

  /** The same run with the directory check as intended (WithinRoot). */
  function RunResultCorrected(command: string, cwd: Option<string>, currentDir: string, onWindows: bool,
                              timeout: int, outcome: ProcessOutcome, elapsed: real): CommandResult
  {
    var blocked := BlockedBy(Blacklist, command);
    if blocked.Some? then CommandResult("", BlockedPrefix + blocked.value, -1, 0.0)
    else
      var absCwd := Normalized(if cwd.Some? then cwd.value else currentDir, onWindows);
      var absRoot := Normalized(currentDir, onWindows);
      if !WithinRoot(absCwd, absRoot, Separator(onWindows)) then
        CommandResult("", OutsideRootPrefix + absRoot, -1, 0.0)
      else FromOutcome(outcome, timeout, elapsed)
  }

  method Run(command: string, cwd: Option<string>, currentDir: string, onWindows: bool,
             timeout: int, outcome: ProcessOutcome, elapsed: real)
    returns (result: CommandResult)
    ensures result == RunResult(command, cwd, currentDir, onWindows, timeout, outcome, elapsed)
  {
    var blocked := FirstBlocked(command);
    if blocked.Some? {
      return CommandResult("", BlockedPrefix + blocked.value, -1, 0.0);
    }
    var dir := if cwd.None? then currentDir else cwd.value;
    var projectRoot := currentDir;
    var absCwd, absRoot := dir, projectRoot;
    if onWindows {
      absCwd, absRoot := Lower(absCwd), Lower(absRoot);
    }
    if !(absRoot <= absCwd) {
      return CommandResult("", OutsideRootPrefix + absRoot, -1, 0.0);
    }
    result := FromOutcome(outcome, timeout, elapsed);
  }

  /** "ls" holds none of the blacklisted patterns, all of them being longer. */
  lemma LsNotBlocked()
    ensures BlockedBy(Blacklist, "ls").None?
  {
  }

  /** With the project root at /home/p, `ls` in the sibling folder /home/p2
      runs under the written check, and is refused under the corrected one. */
  lemma SiblingRunsAsWritten(timeout: int, outcome: ProcessOutcome, elapsed: real)
    ensures RunResult("ls", Some("/home/p2"), "/home/p", false, timeout, outcome, elapsed)
      == FromOutcome(outcome, timeout, elapsed)
    ensures RunResultCorrected("ls", Some("/home/p2"), "/home/p", false, timeout, outcome, elapsed)
      == CommandResult("", OutsideRootPrefix + "/home/p", -1, 0.0)
  {
  }

  /** The two runs agree except where the corrected one refuses a directory
      the written one lets through. */
  lemma CorrectedRunDiffers(command: string, cwd: Option<string>, currentDir: string, onWindows: bool,
                            timeout: int, outcome: ProcessOutcome, elapsed: real)
    ensures var r := RunResult(command, cwd, currentDir, onWindows, timeout, outcome, elapsed);
      var c := RunResultCorrected(command, cwd, currentDir, onWindows, timeout, outcome, elapsed);
      r != c ==> r == FromOutcome(outcome, timeout, elapsed) &&
                 c == CommandResult("", OutsideRootPrefix + Normalized(currentDir, onWindows), -1, 0.0)
  {
  }

  /** Under the corrected check an unblocked command runs exactly when the
      directory is the root or lies below it (for a root not ending in the
      separator). */
  lemma CorrectedRunsOnlyBelowRoot(command: string, cwd: string, currentDir: string, onWindows: bool,
                                   timeout: int, outcome: ProcessOutcome, elapsed: real)
    requires BlockedBy(Blacklist, command).None?
    requires var root := Normalized(currentDir, onWindows); |root| > 0 && root[|root| - 1] != Separator(onWindows)
    ensures var root := Normalized(currentDir, onWindows);
      var dir := Normalized(cwd, onWindows);
      RunResultCorrected(command, Some(cwd), currentDir, onWindows, timeout, outcome, elapsed)
        == (if dir == root || exists rest :: dir == root + [Separator(onWindows)] + rest
            then FromOutcome(outcome, timeout, elapsed)
            else CommandResult("", OutsideRootPrefix + root, -1, 0.0))
  {
    WithinRootMeaning(Normalized(cwd, onWindows), Normalized(currentDir, onWindows), Separator(onWindows));
  }

  // ---------------------------------------------------------------------------
  // What a run reports

  /** A blacklisted command is refused before the directory is looked at and
      before anything runs, naming the first pattern found in list order. */
  lemma BlockedCommand(command: string, cwd: Option<string>, currentDir: string, onWindows: bool,
                       timeout: int, outcome: ProcessOutcome, elapsed: real)
    requires exists i :: 0 <= i < |Blacklist| && Contains(command, Blacklist[i])
    ensures var r := RunResult(command, cwd, currentDir, onWindows, timeout, outcome, elapsed);
      r.stdout == "" && r.exitCode == -1 && r.duration == 0.0 &&
      exists k: nat :: FirstFound(Blacklist, command, k) && r.stderr == BlockedPrefix + Blacklist[k]
  {
    BlockedByFirst(Blacklist, command);
  }

  /** The refusal message says "blocked". */
  lemma BlockedMessageSaysBlocked(pattern: string)
    ensures Contains(BlockedPrefix + pattern, "blocked")
  {
    var tail := " due to restricted pattern: ";
    AppendAssoc("SecurityError: Command " + "blocked", tail, pattern);
    ContainsParts("SecurityError: Command ", "blocked", tail + pattern);
  }

  /** tests/manual_test_shell.py: `rm -rf /` is refused by its own pattern. */
  lemma RmRfRootRefused(cwd: Option<string>, currentDir: string, onWindows: bool,
                        timeout: int, outcome: ProcessOutcome, elapsed: real)
    ensures RunResult("rm -rf /", cwd, currentDir, onWindows, timeout, outcome, elapsed)
      == CommandResult("", BlockedPrefix + "rm -rf /", -1, 0.0)
  {
    assert Contains("rm -rf /", Blacklist[0]);
  }

  /** A working directory that does not start with the root is refused, naming the root. */
  lemma OutsideRootRefused(command: string, cwd: string, currentDir: string, onWindows: bool,
                           timeout: int, outcome: ProcessOutcome, elapsed: real)
    requires BlockedBy(Blacklist, command).None?
    requires !(Normalized(currentDir, onWindows) <= Normalized(cwd, onWindows))
    ensures RunResult(command, Some(cwd), currentDir, onWindows, timeout, outcome, elapsed)
      == CommandResult("", OutsideRootPrefix + Normalized(currentDir, onWindows), -1, 0.0)
  {
  }

  /** Without a cwd the command runs in the current directory, which is
      always within the root: the result is the process outcome's. */
  lemma DefaultCwdRuns(command: string, currentDir: string, onWindows: bool,
                       timeout: int, outcome: ProcessOutcome, elapsed: real)
    requires BlockedBy(Blacklist, command).None?
    ensures RunResult(command, None, currentDir, onWindows, timeout, outcome, elapsed)
      == FromOutcome(outcome, timeout, elapsed)
  {
  }

  /** The outcome mapping: a returned process passes its streams and code
      through, a timeout is -2 with a TimeoutError, any other failure -3 with
      an ExecutionError; neither failure has stdout. */
  lemma OutcomeCodes(outcome: ProcessOutcome, timeout: int, elapsed: real)
    ensures var r := FromOutcome(outcome, timeout, elapsed);
      (outcome.Exited? ==> r.stdout == outcome.stdout && r.stderr == outcome.stderr && r.exitCode == outcome.returnCode) &&
      (outcome.TimedOut? ==> r.exitCode == -2 && r.stdout == "" && "TimeoutError" <= r.stderr) &&
      (outcome.Failed? ==> r.exitCode == -3 && r.stdout == "" && "ExecutionError" <= r.stderr)
  {
    assert "TimeoutError" <= TimeoutPrefix;
    assert "ExecutionError" <= ExecutionPrefix;
  }
}
