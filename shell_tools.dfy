/** The run_shell tool (codeagent/tools/shell_tools.py): runs a command through
    the guarded runner with the default directory and timeout, and renders the
    result as text: the non-empty streams under headers, a line for a non-zero
    exit code, a placeholder for no output, and a cut at 5000 characters. */
module ShellTools {
  import opened Common
  import opened Shell

  const MaxLen: nat := 5000
  const DefaultTimeout: int := 60
  const NoOutputText: string := "[Command finished with no output]"

  function StdoutPart(out: string): string {
    "STDOUT:\n" + out
  }

  function StderrPart(err: string): string {
    "STDERR:\n" + err
  }

  function ExitPart(code: int): string {
    "\n[Exit Code: " + IntToString(code) + "]"
  }

  function TruncationNote(total: nat): string {
    "\n... [Output Truncated, total length " + NatToString(total) + " chars]"
  }

  /** The `output_parts` list, in the order it is filled. */
  function OutputParts(r: CommandResult): seq<string> {
    (if r.stdout != "" then [StdoutPart(r.stdout)] else [])
    + (if r.stderr != "" then [StderrPart(r.stderr)] else [])
    + (if r.exitCode != 0 then [ExitPart(r.exitCode)] else [])
  }

  function Truncated(output: string): string {
    if |output| > MaxLen then output[..MaxLen] + TruncationNote(|output|) else output
  }

  /** The text run_shell returns for a CommandResult. */
  function Format(r: CommandResult): string {
    var joined := Join(OutputParts(r), "\n");
    Truncated(if joined == "" then NoOutputText else joined)
  }

  /** The formatting half of run_shell, filling the parts list step by step. */
  method FormatResult(result: CommandResult) returns (output: string)
    ensures output == Format(result)
  {
    var outputParts: seq<string> := [];
    if result.stdout != "" {
      outputParts := outputParts + [StdoutPart(result.stdout)];
    }
    if result.stderr != "" {
      outputParts := outputParts + [StderrPart(result.stderr)];
    }
    if result.exitCode != 0 {
      outputParts := outputParts + [ExitPart(result.exitCode)];
    }
    assert outputParts == OutputParts(result);
    output := Join(outputParts, "\n");
    if output == "" {
      output := NoOutputText;
    }
    if |output| > MaxLen {
      output := output[..MaxLen] + TruncationNote(|output|);
    }
  }

  /** run_shell: ShellExecutor.run(command) with no cwd and the default
      timeout, then the formatting. */
  method RunShell(command: string, currentDir: string, onWindows: bool,
                  outcome: ProcessOutcome, elapsed: real)
    returns (output: string)
    ensures output == Format(RunResult(command, None, currentDir, onWindows, DefaultTimeout, outcome, elapsed))
  {
    var result := Run(command, None, currentDir, onWindows, DefaultTimeout, outcome, elapsed);
    output := FormatResult(result);
  }

  // ---------------------------------------------------------------------------
  // What the output says

  function Count(b: bool): nat {
    if b then 1 else 0
  }

  /** The parts: the stdout part first when stdout is non-empty, then the
      stderr part when stderr is non-empty, then the exit line when the code
      is non-zero, and nothing else. */
  lemma PartsInOrder(r: CommandResult)
    ensures var parts := OutputParts(r);
      |parts| == Count(r.stdout != "") + Count(r.stderr != "") + Count(r.exitCode != 0) &&
      (r.stdout != "" ==> parts[0] == StdoutPart(r.stdout)) &&
      (r.stderr != "" ==> parts[Count(r.stdout != "")] == StderrPart(r.stderr)) &&
      (r.exitCode != 0 ==> parts[|parts| - 1] == ExitPart(r.exitCode))
  {
  }

  /** Output that fits is returned whole; longer output keeps its first 5000
      characters and then a note whose number reads back as the full length. */
  lemma TruncationRule(output: string)
    ensures |output| <= MaxLen ==> Truncated(output) == output
    ensures |output| > MaxLen ==>
      var t := Truncated(output);
      |t| == MaxLen + |TruncationNote(|output|)| &&
      t[..MaxLen] == output[..MaxLen] &&
      t[MaxLen..] == TruncationNote(|output|) &&
      DigitsValue(NatToString(|output|)) == |output|
  {
    NatToStringRoundTrip(|output|);
  }

  /** With nothing on either stream and exit code 0 the output is the placeholder. */
  lemma QuietRun(r: CommandResult)
    requires r.stdout == "" && r.stderr == "" && r.exitCode == 0
    ensures Format(r) == NoOutputText
  {
  }

  /** Conversely, any stream text or a failing exit code shows up: output that
      fits starts with the stdout part and holds the stderr part and exit line. */
  lemma ShortOutputShowsParts(r: CommandResult)
    requires |Join(OutputParts(r), "\n")| <= MaxLen
    ensures r.stdout != "" ==> StdoutPart(r.stdout) <= Format(r)
    ensures r.stderr != "" ==> Contains(Format(r), StderrPart(r.stderr))
    ensures r.exitCode != 0 ==> Contains(Format(r), ExitPart(r.exitCode))
    ensures (r.stdout != "" || r.stderr != "" || r.exitCode != 0) ==> Format(r) != NoOutputText
  {
    var parts := OutputParts(r);
    PartsInOrder(r);
    if |parts| > 0 {
      JoinStartsWithFirst(parts, "\n");
      assert parts[0][0] == 'S' || parts[0][0] == '\n';
      assert Format(r)[0] == parts[0][0];
    }
    if r.stdout != "" {
      JoinStartsWithFirst(parts, "\n");
    }
    if r.stderr != "" {
      JoinContainsPart(parts, "\n", Count(r.stdout != ""));
    }
    if r.exitCode != 0 {
      JoinContainsPart(parts, "\n", |parts| - 1);
    }
  }

  /** tests/manual_test_shell.py: `rm -rf /` through the tool shows the refusal
      on stderr and exit code -1, and nothing ran. */
  lemma BlockedCommandOutput(currentDir: string, onWindows: bool, outcome: ProcessOutcome, elapsed: real)
    ensures Format(RunResult("rm -rf /", None, currentDir, onWindows, DefaultTimeout, outcome, elapsed))
      == StderrPart(BlockedPrefix + "rm -rf /") + "\n" + ExitPart(-1)
  {
    RmRfRootRefused(None, currentDir, onWindows, DefaultTimeout, outcome, elapsed);
    var r := CommandResult("", BlockedPrefix + "rm -rf /", -1, 0.0);
    assert OutputParts(r) == [StderrPart(BlockedPrefix + "rm -rf /"), ExitPart(-1)];
    assert |Join(OutputParts(r), "\n")| <= MaxLen;
  }

  /** A successful listing shows its stdout under the header and nothing else. */
  lemma ListingOutput(listing: string)
    requires listing != "" && |listing| <= MaxLen - 8
    ensures Format(CommandResult(listing, "", 0, 0.5)) == "STDOUT:\n" + listing
  {
  }
}
