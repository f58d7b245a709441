# codeagent core, modelled in Dafny

codeagent is a terminal coding assistant. A user types a request, and the
agent sends the conversation to a language model. Whatever tools the model
asks for are executed and their results fed back, until the model gives a
final answer. This project models the deterministic parts of that loop, plus
the small snake game shipped next to it:

- `common.dfy`: Python behaviour the other modules rely on. This covers
  truthiness, `str(int)`, `sep.join`, `in` on strings, `strip` and `lower`
  (ASCII), and `s[:n]`.
- `message.dfy`: the `Message` record, its four factories, and
  `to_openai_format`. The wire dictionary is decoded back as a partner, so
  the encoding's round trip is proved.
- `session.dfy`: the `Session` class (a history that begins with the
  system prompt). A replay function over add and clear operations states
  what the history is after any sequence of calls.
- `registry.dfy`: the `ToolRegistry` class (name to handler map plus the
  schema list) and `_generate_schema`.
- `executor.dfy`: `ToolExecutor.execute`, one result per call, in order,
  with the not-found, invalid-JSON and handler-failure paths.
- `agent.dfy`: `Agent.run`'s think-act loop, as a class over a session and a
  registry. It is proved against a trace function over a script of model
  answers.
- `agent_tools.dfy`: `submit_task`, which runs a sub-agent on a fresh
  session and concatenates what it yields.
- `task_manager.dfy` and `task_tools.dfy`: the plan-mode `TaskManager`
  class and the two tools over it. These cover plan creation with
  duplicate ids, the next-ready-task rule, updates and the plan summary
  text.
- `shell.dfy` and `shell_tools.dfy`: `ShellExecutor.run` and `run_shell`.
  `run` applies the blacklist guard, checks the working directory against
  the project root, and maps each process outcome to a result.
  `run_shell` formats that result and truncates it.
- `search.dfy`: `grep_search` over a directory tree given as a value (with
  pruning, the 100-match cap and line shaping) and `glob_search`'s result
  shaping.
- `snake.dfy`: the `Snake` class (reset, update with wrap-around and
  self-collision) and a `Game` class for one frame of the main loop. The
  frame covers the key guard, the move, the eat rule and the food respawn.
  The state invariant (in the grid, a connected body without repeats, score
  tied to length) is proved preserved.

Effects become inputs:

- The model's answers are a finite script of `Result<Message, string>`; an
  `Err` is the client raising.
- JSON parsing is a function `parse`, and tool handlers are run through a
  function `invoke`.
- The process outcome and elapsed time of a shell command are parameters.
- The directory tree that `os.walk` would visit is a `Folder` value.
- `Path.glob`'s matches are a parameter.
- The random food cells are a sequence of choices.
- The context variable holding the active task manager is a nullable
  `TaskManager?` parameter.

## Model

| member | source | states |
|---|---|---|
| Common.Prefix | codeagent/core/task_manager.py:96 | Python slicing `s[:n]`: the result is a prefix of `s` whose length is the smaller of `len(s)` and `n` |
| Common.NatToString | codeagent/tools/shell_tools.py:33 | `str(n)` of a non-negative integer is a non-empty string of decimal digits |
| Common.NatToStringRoundTrip | codeagent/tools/search_tools.py:91 | reading the printed digits back gives the same number, so a printed count is the count |
| Common.NatToStringInjective | codeagent/tools/search_tools.py:91 | different counts print differently |
| Common.IntToString | codeagent/tools/shell_tools.py:23 | `str(i)` is non-empty and starts with '-' exactly for negative numbers |
| Common.Join | codeagent/tools/shell_tools.py:25 | `sep.join` of no parts is "", and of one part is that part |
| Common.JoinStartsWithFirst | codeagent/tools/search_tools.py:68 | a join starts with its first part |
| Common.JoinContainsPart | codeagent/tools/search_tools.py:68 | every part occurs in the joined text |
| Common.JoinShowsAll | codeagent/tools/search_tools.py:93 | all parts occur in the joined text |
| Common.JoinShowsFirst | codeagent/tools/search_tools.py:89-93 | a join of the first n parts plus a trailer shows each of those parts and the trailer |
| Common.SplitJoin | codeagent/tools/search_tools.py:68 | joining parts that hold no newline on "\n" is undone by splitting on it |
| Common.ConcatAppend | codeagent/tools/agent_tools.py:34-37 | the accumulated `+=` text of two runs of chunks is the text of the first followed by that of the second |
| Common.ConcatAround | codeagent/tools/agent_tools.py:34-37 | chunk k sits in the accumulated text between the chunks before it and those after it |
| Common.ConcatEmpty | codeagent/tools/agent_tools.py:39 | the accumulated text is empty exactly when every chunk is empty |
| Common.ContainsAt | codeagent/core/shell.py:39 | Python's `p in s` holds when `p` occurs at some offset of `s` |
| Common.ContainsParts | codeagent/core/shell.py:39 | a string occurs in any text that holds it between two others |
| Common.ContainsPrepend | codeagent/tools/task_tools.py:54 | putting a header in front keeps every substring |
| Common.LongerNotContained | codeagent/core/shell.py:39 | a pattern longer than the text never occurs in it |
| Common.TrimStart | codeagent/tools/search_tools.py:55 | `lstrip`: the result is the suffix left after dropping only leading whitespace, and it does not start with whitespace |
| Common.TrimEnd | codeagent/tools/search_tools.py:55 | `rstrip`: the result is the prefix left after dropping only trailing whitespace, and it does not end with whitespace |
| Common.Strip | codeagent/tools/search_tools.py:55 | `strip`: the text is whitespace, then the result, then whitespace, and a non-empty result has whitespace at neither end |
| Common.Lower | codeagent/tools/search_tools.py:36 | `lower` keeps the length |
| Common.LowerAt | codeagent/tools/search_tools.py:52 | `lower` maps every character on its own |
| Common.LowerTwice | codeagent/tools/search_tools.py:36-52 | lower-casing twice is lower-casing once |
| Messages.ToOpenAIFormat | codeagent/core/message.py:16-34 | "role" is always present; "content" is present iff it is not None; "tool_calls", "tool_call_id" and "name" are present iff truthy, carrying the field's value; no other key |
| Messages.EncodeAll | codeagent/core/session.py:18-20 | one dictionary per message, in order |
| Messages.DecodeEncode | codeagent/core/message.py:16-34 | decoding the wire dictionary gives the message back, up to the falsy fields the format drops |
| Messages.EncodeInjective | codeagent/core/message.py:16-34 | two messages encode the same iff they agree after dropping falsy fields |
| Messages.UserFormat | codeagent/core/message.py:40-42 | a user message is exactly `{"role": "user", "content": c}` |
| Messages.SystemFormat | codeagent/core/message.py:36-38 | a system message is exactly `{"role": "system", "content": c}` |
| Messages.ToolFormat | codeagent/core/message.py:48-50 | a tool message carries role, content, call id and name and nothing else |
| Messages.AssistantCallsFormat | codeagent/core/message.py:44-46 | an assistant message with calls and no content carries role and calls only |
| Sessions.Session.constructor | codeagent/core/session.py:8-12 | a new session's history is just the system message of its prompt |
| Sessions.Session.AddMessage | codeagent/core/session.py:14-16 | the message is appended and nothing else changes |
| Sessions.Session.GetMessages | codeagent/core/session.py:18-20 | the history translated message by message to the wire format |
| Sessions.Session.Clear | codeagent/core/session.py:22-24 | the history is reset to the system message of the kept prompt |
| Sessions.ReplayKeepsSystemPrompt | codeagent/core/session.py:8-24 | after any sequence of adds and clears the history still begins with the system prompt |
| Sessions.ReplayIsSinceLastClear | codeagent/core/session.py:14-24 | after any sequence of operations the history is the system prompt followed by exactly the messages added since the last clear |
| Registry.LastModelHint | codeagent/tools/registry.py:49-58 | the position of the last pydantic-model parameter |
| Registry.ParametersFromLast | codeagent/tools/registry.py:47-64 | the parameter loop leaves the properties and required list of the last model parameter, or the empty object when there is none |
| Registry.SchemaShape | codeagent/tools/registry.py:31-73 | the schema is a "function" entry with the function's name, its docstring or "", and the parameters above |
| Registry.ToolRegistry.constructor | codeagent/tools/registry.py:9-10 | the registry starts with no tools and no schemas |
| Registry.ToolRegistry.Register | codeagent/tools/registry.py:12-21 | the name now maps to the function, overwriting an earlier one; its schema is appended (a re-registered name leaves both schemas); the function is returned |
| Registry.ToolRegistry.GetTool | codeagent/tools/registry.py:23-25 | a tool is found iff its name is registered, and it is the registered function |
| Registry.ToolRegistry.GetSchemas | codeagent/tools/registry.py:27-29 | in a valid registry every registered tool has a schema of its name in the returned list |
| Executor.CallResult | codeagent/core/executor.py:28-79 | every result carries its call's id and function name |
| Executor.ExecuteAll | codeagent/core/executor.py:26-81 | one result per call, the i-th for the i-th call |
| Executor.Execute | codeagent/core/executor.py:17-81 | the loop produces exactly the per-call results, in order |
| Executor.NotFoundResult | codeagent/core/executor.py:35-37 | a missing or unknown name yields "Error: Tool '<name>' not found" |
| Executor.InvalidJsonResult | codeagent/core/executor.py:40-43 | a known tool with unparsable arguments yields "Error: Invalid JSON arguments: <raw>" |
| Executor.MissingArgumentsDefault | codeagent/core/executor.py:31 | absent arguments default to "{}" |
| Executor.ResultContent | codeagent/core/executor.py:33-73 | the content is the handler's output exactly when the tool exists, the arguments parse and the handler returns; otherwise an "Error: " text |
| Executor.ExecutePrefix | codeagent/core/executor.py:28-79 | the results for a prefix of the calls are the prefix of the results: calls do not affect each other |
| Executor.MixedBatch | tests/core/test_executor.py:14-44 | in one batch a failing call does not stop the next: the known tool's output and the not-found error both appear, with their ids |
| AgentLoop.ToolsArgument | codeagent/core/agent.py:45 | the tools argument is None exactly when there are no schemas |
| AgentLoop.ToolMessage | codeagent/core/agent.py:61-65 | a tool result becomes a tool message with the result's id, name and content |
| AgentLoop.ToolMessages | codeagent/core/agent.py:60-66 | one tool message per result, in order |
| AgentLoop.OutputNotices | codeagent/core/agent.py:68 | one output notice per result, in order |
| AgentLoop.Turn | codeagent/core/agent.py:43-77 | a turn only appends to the history; it continues iff the answer has tool calls; a raised client adds nothing and yields nothing; a final answer is appended, yields its content when truthy and nothing otherwise, and ends the run |
| AgentLoop.FirstStop | codeagent/core/agent.py:52-77 | the first answer of the script that is not a successful tool-call answer |
| AgentLoop.Agent.constructor | codeagent/core/agent.py:21-26 | the agent keeps the given session and registry |
| AgentLoop.Agent.AddToolMessages | codeagent/core/agent.py:60-68 | the session gains one tool message per result, and one notice per result is yielded |
| AgentLoop.Agent.TakeTurn | codeagent/core/agent.py:43-77 | one loop iteration changes the session and yields exactly as Turn says |
| AgentLoop.Agent.Run | codeagent/core/agent.py:28-77 | the user message is added, then history, yielded chunks, requests sent and outcome are those of the run trace |
| AgentLoop.TurnsOutcome | codeagent/core/agent.py:41-77 | the run ends at the first answer without calls: finished on an answer, raised on a client error, and one request per answer up to it |
| AgentLoop.TurnsAppendOnly | codeagent/core/agent.py:39-66 | a run only appends to the history |
| AgentLoop.TurnAnswered | codeagent/core/agent.py:49-72 | a turn extends the history by what its answer adds: nothing for a raise, the answer, and one tool message per call when it has calls |
| AgentLoop.RequestsShowHistory | codeagent/core/agent.py:43-66 | request i holds exactly the encoded history before the run followed by what the first i answers added (each answer, then one tool message per call), with the schemas; the run ends holding what every answered request added |
| AgentLoop.CallTurnAnswersEveryCall | codeagent/core/agent.py:49-71 | a tool-call answer is followed by exactly one tool message per call, in call order, carrying the call's id, name and the executor's content for it; the yielded chunks are the count notice and one output notice per call with that call's result; the loop goes on |
| AgentLoop.TurnsKeepsTurn | codeagent/core/agent.py:41-71 | what the first turn adds and yields stays in the run's history and chunks |
| AgentLoop.PlainReply | tests/core/test_agent.py:15-34 | a plain text answer is yielded once, one request is sent, and user and assistant messages are added |
| AgentTools.SubmitTask | codeagent/tools/agent_tools.py:9-42 | the reply is the error text of a raised sub-run, or else its chunks concatenated, or the fallback when empty; it is never empty |
| AgentTools.PromptNamesGoal | codeagent/tools/agent_tools.py:22-26 | the sub-agent prompt opens with its fixed text and names the goal |
| AgentTools.FirstRequestIsFresh | codeagent/tools/agent_tools.py:21-34 | the sub-agent's first request holds only its own system prompt and the goal |
| AgentTools.ReplyNonEmpty | codeagent/tools/agent_tools.py:39-42 | a reply is never empty |
| AgentTools.ReplyIsChunksInOrder | codeagent/tools/agent_tools.py:33-39 | every chunk appears in order in the reply; the fallback is used exactly when all chunks are empty |
| AgentTools.RaisedRunReportsError | codeagent/tools/agent_tools.py:41-42 | a client error is reported as "Error executing sub-task: ..." whatever was yielded before |
| AgentTools.PlainAnswerIsReply | codeagent/tools/agent_tools.py:33-39 | a sub-agent answering with text at once returns that text |
| AgentTools.SilentAnswerFallsBack | codeagent/tools/agent_tools.py:39 | an empty final answer gives "Task completed (no output)." |
| AgentTools.StreamedAnswer | tests/tools/test_agent_tools.py:7-31 | a sub-run that yields the test's three chunks and finishes makes submit_task reply "I have completed the task." |
| Tasks.NewTask | codeagent/core/task_manager.py:12-18 | a declared task keeps id, description and dependencies, and starts pending with no result or error |
| Tasks.BuildPlanKeys | codeagent/core/task_manager.py:36-39 | the plan holds a task for exactly the declared ids, listed once each |
| Tasks.BuildPlanFirstOccurrence | codeagent/core/task_manager.py:36-39 | dictionary order: ids are listed in the order of their first declaration |
| Tasks.BuildPlanLastWins | codeagent/core/task_manager.py:39 | a repeated id holds the task of its last declaration |
| Tasks.NextReadySpec | codeagent/core/task_manager.py:44-62 | the next task is the first in plan order that is pending with all dependencies completed, or None when there is none |
| Tasks.NextReadyMeaning | codeagent/core/task_manager.py:44-62 | on a built plan: None iff no task is ready, else a ready task with no ready task before it |
| Tasks.DanglingDependencyBlocks | codeagent/core/task_manager.py:55-57 | a dependency on an unknown id keeps a task from being ready |
| Tasks.Updated | codeagent/core/task_manager.py:70-74 | the status is set; result and error change only when the new value is truthy |
| Tasks.UpdateKeepsKeys | codeagent/core/task_manager.py:64-74 | an update adds no task and removes none |
| Tasks.ChainScenario | codeagent/core/task_manager.py:44-74 | in a two-task chain only the first is ready, and completing it makes the second ready |
| Tasks.IconRoundTrip | codeagent/core/task_manager.py:85-91 | every status has its own three-character icon |
| Tasks.TaskLinesShape | codeagent/core/task_manager.py:93-98 | a task's line opens with its icon, then " Task <id>: <description>" |
| Tasks.SummaryBodyAppend | codeagent/core/task_manager.py:84-98 | the summary of two runs of ids is the first's followed by the second's |
| Tasks.SummaryBodySplit | codeagent/core/task_manager.py:84-98 | the summary holds task k's lines between those of the tasks before and after it |
| Tasks.PlanSummaryShape | codeagent/core/task_manager.py:80-83 | "No plan active." exactly when there is no task; otherwise the summary opens with the header |
| Tasks.SummaryListsEveryTask | codeagent/core/task_manager.py:83-100 | the summary shows the lines of every task |
| Tasks.TaskManager.constructor | codeagent/core/task_manager.py:24-25 | a new manager has no tasks |
| Tasks.TaskManager.CreatePlan | codeagent/core/task_manager.py:29-39 | the plan is replaced by the one built from the items: a task for exactly the declared ids |
| Tasks.TaskManager.GetTask | codeagent/core/task_manager.py:41-42 | a task is found iff its id is in the plan, and it is that task |
| Tasks.TaskManager.GetNextTask | codeagent/core/task_manager.py:44-62 | the loop returns the first ready task in plan order, or None |
| Tasks.TaskManager.AllDependenciesCompleted | codeagent/core/task_manager.py:53-58 | the inner loop finds every dependency present and completed, or stops at the first that is not |
| Tasks.TaskManager.UpdateTask | codeagent/core/task_manager.py:64-74 | an unknown id fails with "Task <id> not found." and changes nothing; otherwise only that task is updated |
| Tasks.TaskManager.GetPlanSummary | codeagent/core/task_manager.py:76-100 | the text is the header and each task's lines in plan order, or "No plan active." |
| TaskTools.PlanTask | codeagent/tools/task_tools.py:21-35 | without a manager an error; otherwise the plan is rebuilt and the reply is the success line and the summary |
| TaskTools.UpdateTaskStatus | codeagent/tools/task_tools.py:37-56 | without a manager an error; an unknown id is reported and changes nothing; otherwise the task is updated and the reply names its new status ahead of the summary |
| TaskTools.UpdateReplyShowsTask | codeagent/tools/task_tools.py:54 | after an update the reply shows the task's line, which opens with the new status's icon |
| TaskTools.UpdateRepliesDiffer | codeagent/tools/task_tools.py:44-56 | an update reply is never one of the error replies |
| Shell.BlockedBy | codeagent/core/shell.py:38-39 | a reported pattern is in the blacklist and occurs in the command |
| Shell.BlockedByFirst | codeagent/core/shell.py:38-45 | a command is blocked iff some pattern occurs in it, and then by the first such pattern in list order |
| Shell.FirstBlocked | codeagent/core/shell.py:38-45 | the security loop with its early return finds that pattern |
| Shell.SiblingPassesAsWritten | codeagent/core/shell.py:63 | the `startswith` check lets "/home/p2" through for root "/home/p", which the corrected check refuses |
| Shell.WithinRootStricter | codeagent/core/shell.py:63 | the corrected check never lets through what the written one refuses |
| Shell.WithinRootMeaning | codeagent/core/shell.py:63-69 | the corrected check holds iff the directory is the root or lies below it |
| Shell.WithinItself | codeagent/core/shell.py:48-52 | the root itself passes the corrected check |
| Shell.FromOutcome | codeagent/core/shell.py:93-115 | each process outcome keeps the elapsed time as duration |
| Shell.Run | codeagent/core/shell.py:35-115 | the runner refuses, runs or reports exactly as RunResult says, with the prefix test the code makes |
| Shell.LsNotBlocked | codeagent/core/shell.py:38-45 | `ls` holds none of the blacklisted patterns |
| Shell.SiblingRunsAsWritten | codeagent/core/shell.py:63-69 | with the root at /home/p, `ls` in /home/p2 runs as written, and is refused naming the root under the corrected check |
| Shell.CorrectedRunDiffers | codeagent/core/shell.py:63-69 | the corrected run differs from the written one only by refusing a directory the written check lets through |
| Shell.CorrectedRunsOnlyBelowRoot | codeagent/core/shell.py:63-69 | under the corrected check an allowed command runs iff the directory is the root or lies below it, and is refused naming the root otherwise |
| Shell.BlockedCommand | codeagent/core/shell.py:38-45 | a blacklisted command is refused with exit code -1, no output, zero duration, naming the first pattern found |
| Shell.BlockedMessageSaysBlocked | codeagent/core/shell.py:42 | the refusal message says "blocked" |
| Shell.RmRfRootRefused | tests/manual_test_shell.py:21-22 | "rm -rf /" is refused by its own pattern |
| Shell.OutsideRootRefused | codeagent/core/shell.py:63-69 | a directory not beginning with the root is refused, naming the root |
| Shell.DefaultCwdRuns | codeagent/core/shell.py:48-52 | without a cwd an allowed command gives the process outcome's result |
| Shell.OutcomeCodes | codeagent/core/shell.py:93-115 | a returned process passes streams and code through; a timeout is -2 with a TimeoutError; any other failure is -3 with an ExecutionError |
| ShellTools.FormatResult | codeagent/tools/shell_tools.py:16-35 | filling the parts step by step gives Format's text: the present parts joined on newlines, the fallback when there are none, then the cut at 5000 characters |
| ShellTools.RunShell | codeagent/tools/shell_tools.py:8-35 | run_shell formats the runner's result for the command in the current directory with the 60 s default timeout |
| ShellTools.PartsInOrder | codeagent/tools/shell_tools.py:16-23 | stdout, stderr and exit parts appear in that order, each exactly when its condition holds |
| ShellTools.TruncationRule | codeagent/tools/shell_tools.py:31-33 | output up to 5000 characters is kept; longer output is cut to 5000 and followed by a note with the full length |
| ShellTools.QuietRun | codeagent/tools/shell_tools.py:27-28 | a silent successful run reports "[Command finished with no output]" |
| ShellTools.ShortOutputShowsParts | codeagent/tools/shell_tools.py:16-28 | an untruncated reply opens with stdout and shows stderr and a non-zero exit code; the fallback is used only when all three are absent |
| ShellTools.BlockedCommandOutput | codeagent/tools/shell_tools.py:14-25 | a blocked command's reply is its SecurityError and exit code -1 |
| ShellTools.ListingOutput | codeagent/tools/shell_tools.py:16-18 | a successful listing is "STDOUT:\n" followed by the listing |
| Search.FilesOf | codeagent/tools/search_tools.py:43-44 | each file of a directory is visited under its joined path |
| Search.PrunedFolderAddsNothing | codeagent/tools/search_tools.py:41 | a subdirectory that is excluded or hidden, and so pruned from `dirs`, contributes nothing to the walk |
| Search.WalkStartsWithOwnFiles | codeagent/tools/search_tools.py:39-44 | os.walk is top-down: a directory's own files come before its subdirectories' |
| Search.Shown | codeagent/tools/search_tools.py:55 | the shown text is the first 200 characters of the stripped line, or all of it when shorter |
| Search.LineHitsSound | codeagent/tools/search_tools.py:51-56 | every hit names a matching line by its 1-based number |
| Search.LineHitsComplete | codeagent/tools/search_tools.py:51-56 | every matching line is reported |
| Search.HitLineShape | codeagent/tools/search_tools.py:55-56 | a hit reads the path, ":", the line number in decimal digits, ": ", and then the shown text, which is the first 200 characters of the stripped line |
| Search.ShownOneLine | codeagent/tools/search_tools.py:55 | the shown text of a line whose only newline is its last character holds no newline |
| Search.HitLineOneLine | codeagent/tools/search_tools.py:56 | a hit for such a line under a path with no newline holds no newline |
| Search.LineHitsOneLine | codeagent/tools/search_tools.py:51-56 | every hit of such a file holds no newline |
| Search.FileHitsOneLine | codeagent/tools/search_tools.py:39-56 | every hit of such files holds no newline |
| Search.CaseIgnored | codeagent/tools/search_tools.py:36-52 | a case-insensitive search does not depend on the case of the line or the pattern |
| Search.LineHitsPrefix | codeagent/tools/search_tools.py:51-56 | the hits of the first k lines are a prefix of the file's hits |
| Search.FileHitsPrefix | codeagent/tools/search_tools.py:43-56 | the hits of the first k files are a prefix of all hits |
| Search.ScanLines | codeagent/tools/search_tools.py:51-61 | the line loop adds the file's hits, or stops exactly at the 100th hit |
| Search.ScanFiles | codeagent/tools/search_tools.py:39-61 | uncapped means all hits and fewer than 100; capped means exactly the first 100 of at least 100 hits |
| Search.GrepSearch | codeagent/tools/search_tools.py:21-71 | grep_search replies as GrepOutput says for the tree |
| Search.GrepCap | codeagent/tools/search_tools.py:59-68 | 100 or more hits give the first 100 and the truncation line; fewer show every hit; none give "No matches found." |
| Search.GrepReplyLines | codeagent/tools/search_tools.py:59-68 | split on newlines, the reply gives back the hits when there are fewer than 100, else the first 100 and the truncation line |
| Search.GrepOutputLines | codeagent/tools/search_tools.py:21-68 | for files whose paths and lines hold no stray newline, the lines of grep_search's reply are the hits of the walk (capped at 100 and followed by the truncation line), or "No matches found." |
| Search.MissingRootMessage | codeagent/tools/search_tools.py:30-31 | a missing path is reported by both tools as not existing |
| Search.PlainFileRootHasNoMatches | codeagent/tools/search_tools.py:39-66 | os.walk of a plain file visits nothing, so grep finds no matches |
| Search.GlobSearch | codeagent/tools/search_tools.py:73-96 | glob_search replies as GlobOutput says |
| Search.GlobListing | codeagent/tools/search_tools.py:89-93 | up to 100 matches are listed one per line |
| Search.GlobCapListing | codeagent/tools/search_tools.py:89-93 | more than 100 matches list the first 100 and a "... (n more files)" line |
| Search.GlobListsAll | codeagent/tools/search_tools.py:89-93 | up to 100 matches are all shown |
| Search.GlobCap | codeagent/tools/search_tools.py:89-93 | with more than 100 matches the first 100 are shown and the count of the rest |
| SnakeGame.InitialValid | snake_game/game.py:31-35 | the reset state satisfies the invariant |
| SnakeGame.StepInGrid | snake_game/game.py:43-45 | a step wraps around the 30 by 20 grid and always moves |
| SnakeGame.AdvancedMoves | snake_game/game.py:40-53 | unless the new head hits the body (a reset), it is inserted and the tail is popped once the length is exceeded |
| SnakeGame.AdvancedValid | snake_game/game.py:40-53 | update keeps the invariant: in the grid, connected, no repeats, at most `length` cells, score tied to length |
| SnakeGame.EatenValid | snake_game/game.py:107-109 | eating adds one to the length and 10 to the score, keeping the invariant |
| SnakeGame.TurnAsWrittenNeverReverses | snake_game/game.py:94-101 | one key press never turns the snake straight back |
| SnakeGame.DoublePressReversesAsWritten | snake_game/game.py:93-101 | moving right, Up then Left in one frame as written ends up moving left |
| SnakeGame.ReversalResets | snake_game/game.py:48-49 | a reversed snake runs into its own neck and is reset |
| SnakeGame.SteerNeverReverses | snake_game/game.py:93-101 | the corrected guard, checked against the direction last moved, never reverses whatever keys arrive |
| SnakeGame.SinglePressAgrees | snake_game/game.py:94-101 | for one key per frame the corrected guard behaves as written |
| SnakeGame.DoublePressCorrected | snake_game/game.py:93-101 | moving right, Up then Left under the corrected guard moves up |
| SnakeGame.FirstFree | snake_game/game.py:110-113 | the respawned food is a chosen cell not on the snake |
| SnakeGame.FrameValid | snake_game/game.py:93-113 | a frame of main, with the keys handled as written, keeps the invariant; eating adds exactly one length and 10 points to the moved snake; otherwise the frame is just the move |
| SnakeGame.FrameWithValid | snake_game/game.py:103-113 | a move in any direction followed by the eat rule keeps the invariant |
| SnakeGame.CorrectedFrameValid | snake_game/game.py:93-113 | the frame with the corrected guard keeps the invariant and never steps back the way the snake came |
| SnakeGame.DoublePressFrameResets | snake_game/game.py:93-113 | moving right, a frame of main with Up then Left resets the game |
| SnakeGame.DoublePressFrameCorrected | snake_game/game.py:93-113 | the same frame under the corrected guard moves up and keeps the body |
| SnakeGame.Snake.constructor | snake_game/game.py:28-29 | a new snake is in the reset state |
| SnakeGame.Snake.Reset | snake_game/game.py:31-35 | length 3, one cell at the centre, moving right, score 0 |
| SnakeGame.Snake.GetHeadPosition | snake_game/game.py:37-38 | the head is the first cell, inside the grid |
| SnakeGame.Snake.Update | snake_game/game.py:40-53 | the fields move as Advanced says, keeping the invariant |
| SnakeGame.Game.constructor | snake_game/game.py:85-86 | a game starts with a reset snake and the first food cell |
| SnakeGame.Game.RespawnFood | snake_game/game.py:110-113 | the food moves to the first choice not on the snake |
| SnakeGame.Game.Frame | snake_game/game.py:93-113 | one frame handles the keys as written, moves and, after eating, grows and respawns the food; otherwise the food stays |

## Left out

- Input and output: `llm.py` (the model client), `cli/repl.py`, `main.py`, `config.py` and `file_tools.py` are not part of this model. The model's answers are a script passed in as an input.
- `context.py` is not part of this model. The task manager it would supply is a parameter of the plan-mode tools.
- Concurrency: handlers and the agent loop are `async` in the source and run in sequence here.
- Executor.Execute: the `get_type_hints`/pydantic conversion of arguments and the handler call are one function `invoke`. JSON decoding is a function `parse`.
- Registry.GenerateSchema: pydantic's `model_json_schema` is the pair of properties and required names carried by a parameter hint. Reflection (`__name__`, `getdoc`) is fields of `Func`.
- ToolRegistry is a class-level singleton in the source. Here it is an object passed to the executor and agent.
- Shell.Run: `os.path.abspath` is the identity (paths are taken as absolute and normalised). `platform.system()` is the input `onWindows`. `time.time()` is the input `elapsed`. The subprocess is the input `outcome`.
- Shell.Run: the "Path resolution error" branch (shell.py:70-71) is not modelled, since abspath cannot raise on a string here.
- Search.GrepSearch: errors raised by `os.walk` and the "Error during grep" branch are not modelled. An unreadable file is a `None` line list, and it is skipped as the source skips it.
- Search.GlobSearch: glob pattern matching is not modelled. The matches, or the error text the glob raises, are an input.
- Search: `Path` rendering is `dir + "/" + name`.
- Common.Strip, Common.Lower: these cover ASCII only. Unicode case mapping and whitespace are not modelled.
- SnakeGame: pygame rendering, the QUIT event, the frame rate and `Food.__init__`'s first random cell are not modelled. The first cell is a constructor argument.
- SnakeGame.Game.Frame and RespawnFood require the choices to contain a free cell. The source keeps drawing random cells until one is free, which is an unbounded loop.
- AgentTools.SubmitTask requires the script to end the sub-run (`FirstStop(responses) < |responses|`). The real loop asks the model until it stops asking for tools, and a script that runs out is the model-only outcome `Exhausted`.
- TaskTools.UpdatedHeader renders the status by its value ("completed"). Python 3.11 and later render a `str`-mixin enum in an f-string as "TaskStatus.COMPLETED".
- Tasks: `get_task` returns the live `Task` object in the source, and callers could mutate it. Tasks are values here, so that aliasing is not modelled.
- Context compaction, token accounting and `@file:` resolution are exercised by tests/core/test_v13_features.py but not implemented in session.py or agent.py, so they are not modelled.
- Search.GrepOutputLines: requires that no path reached holds a newline and that a line holds one only at its end, as iterating over a file gives them. A file name holding a newline is not covered.
- Search.GrepCap: states what 100 or more hits print; it does not prove that fewer than 100 hits can only come from an uncapped walk. That direction is in Search.ScanFiles.
- Search.GlobCap: states that the count of the rest is shown. That the printed count reads back as `len(results) - 100` is the separate Common.NatToStringRoundTrip.

## Findings

| source | as written | input that shows it | evidently intended | confidence | as-written member | corrected member |
|---|---|---|---|---|---|---|
| codeagent/core/shell.py:63 | `abs_cwd.startswith(abs_root)` accepts any directory whose path merely begins with the root's characters | root "/home/p", cwd "/home/p2" | only the root itself or a directory below it | not executed | Shell.SiblingRunsAsWritten | Shell.CorrectedRunsOnlyBelowRoot |
| snake_game/game.py:93-101 | each key is checked against the direction already changed by an earlier key of the same frame | moving right, keys Up then Left in one frame: the snake turns left into its neck and is reset | a key may not reverse the direction the snake last moved in | not executed | SnakeGame.DoublePressFrameResets | SnakeGame.CorrectedFrameValid |

Shell.Run and SnakeGame.Game.Frame do what the code does: the plain prefix test and the keys checked one after another. The corrected behaviour sits beside them as Shell.RunResultCorrected (with Shell.WithinRoot) and SnakeGame.CorrectedFrameState (with SnakeGame.Steer), and the intended properties are proved about those.
