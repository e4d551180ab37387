# SQL assistant conversation workflow, in Dafny

This project models the conversation workflow of a LangGraph-based SQL assistant and proves properties of it. The assistant runs an agent loop. A language model either loads "skills" (schema documentation kept in a directory) or proposes a PostgreSQL query. The graph then pauses for a human decision. An approved query is executed locally and printed as a table, and the turn is closed with a control message. A rejection sends feedback back to the model.

The model is organised by source file:

| module | file | models |
|---|---|---|
| `Wrappers` | `wrappers.dfy` | `Option` and `Result` |
| `Strings` | `strings.dfy` | the Python string operations the code relies on: `strip`, `startswith`, `join`, `split`, `ljust`, `lower`/`upper` and `str(int)` |
| `SkillRepository` | `repository.dfy` | `skills/repository.py`: which directory entries are skills, and what `get_skill` and `get_skill_names` return. The directory is given abstractly as its entries in iteration order. |
| `Agent` | `agent.py` | messages, the two tools (`load_skill` and the query tool's Markdown table), the three nodes and three routing functions, and one invocation of the compiled graph (`Run`, `Stream`) with its interrupt before `human_approval` |
| `Runtime` | `runtime.dfy` | the compiled graph with its in-memory checkpointer, as a class holding one `ThreadState` (log and pending node) per thread id. `Stream` is a loop proved against `Agent.Stream`. |
| `Api` | `api.dfy` | `api.py`: SQL extraction, `execute_query_locally`, `process_run`, `/chat` (including auto-execution) and `/approval` |
| `Cli` | `cli.dfy` | `main.py`: extraction with the SELECT/WITH warning, the in-place column-width scan, the padded console table, one console turn, and the whole session loop over a given sequence of input lines |

Central results:
- **The control message ends the turn.** `Api.SignalIsControlMessage` and `Agent.SignalClosesRun` show that resuming after an approval never calls the model again. The API (`Api.Approval`, `Api.Chat`) and the console (`Cli.ApprovedTurnCloses`) both leave the thread as its old log plus the control message, with nothing pending.
- **Feedback re-enters the agent.** The agent answers it next (`Api.RejectionIsNotControlMessage`, `Agent.FeedbackReentersAgent`).
- **A failed execution leaves the thread paused** (`Api.Approval`, `Cli.FailedApprovalStaysPaused`).
- **SQL extraction is the regular expression's leftmost match.** It takes the `sql` tag when present and the shortest group (`Api.FencedBlockIsSearch`).
- **The console table is aligned.** Widths are exactly the largest header or cell (`Cli.ColumnWidthBounds`, `Cli.ColumnWidthAttained`). The header, the separator and every full row have the same length (`Cli.ConsoleTableAligned`).

Behaviour kept as the code has it:
- **`/chat` and `/approval` test the error with `if error:`.** A database exception whose message is empty therefore takes the success path (`Api.Failed`).
- **A row with more cells than columns makes the console's width update index past the list** (main.py, line 136). The exception is caught and the thread stays paused (`Cli.ShowResult`).
- **The console compares `exit`/`quit` after lower-casing but without stripping.** On a paused thread they are not exit words at all: they count as a rejection decision (`Cli.ExitWhilePausedRejects`).

## Model

| member | source | states |
|---|---|---|
| `SkillRepository.ListSkills` | src/sql_assistant/skills/repository.py:17-35 | The scan returns exactly the specification listing `Skills(dir)`, and the empty list when the skills directory does not exist. |
| `SkillRepository.SkillsSound` | src/sql_assistant/skills/repository.py:25-34 | Every listed skill comes from an entry that is a directory, not named `__…`, and holds `description.txt`. It carries that entry's name and stripped description, and its content is empty. |
| `SkillRepository.SkillsComplete` | src/sql_assistant/skills/repository.py:25-34 | Every accepted entry is listed, in iteration order, right after the skills of the entries before it. |
| `SkillRepository.Lookup` | src/sql_assistant/skills/repository.py:39 | The entry found under a name has that name. When none is found, no entry has it. |
| `SkillRepository.GetSkill` | src/sql_assistant/skills/repository.py:37-53 | Returns a skill exactly when the directory exists, the name is a directory, and both files are present. The skill is the requested name with the stripped description and content. A missing name gives `None` (as tests/test_core.py asserts). |
| `SkillRepository.SkillNames` | src/sql_assistant/skills/repository.py:57-58 | One name per listed skill, in listing order. |
| `SkillRepository.SkillNamesRoundTrip` | src/sql_assistant/skills/repository.py:55-58 | Splitting the `", "`-joined names at each comma gives back the listed names, each after the first with its leading blank, when no name contains a comma. |
| `SkillRepository.GetSkillNames` | src/sql_assistant/skills/repository.py:55-58 | When there are skills, the text is exactly as long as their names plus a two-character `", "` between neighbours. Its round trip is `SkillNamesRoundTrip`. |
| `Strings.DecimalRoundTrip` | src/sql_assistant/agent.py:86 | The decimal text of the count of omitted rows reads back as that count. |
| `Agent.LoadSkillFound` | src/sql_assistant/agent.py:38-39 | For a skill directory with both files and non-empty stripped content, `load_skill` returns that stripped content. |
| `Agent.LoadSkillNotFound` | src/sql_assistant/agent.py:41-42 | Without such a directory, `load_skill` returns `Skill '<name>' not found.` |
| `Agent.LoadSkillFromRepository` | src/sql_assistant/agent.py:30-42 | `load_skill` answers with the repository's skill content, which is then not empty. Otherwise it answers `Skill '<name>' not found.`, always so when the repository has no such skill. |
| `Agent.FormatQueryResult` | src/sql_assistant/agent.py:74-89 | The loop's text is `QueryResultText`: the zero-row message, or the header, separator, first ten rows and trailer joined by newlines. |
| `Agent.QueryResultShape` | src/sql_assistant/agent.py:79-86 | The header and a `---` separator each have one cell per column, followed by min(n, 10) row lines. When n > 10 the last line is `... (n-10 more rows)`. |
| `Agent.QueryResultTextLines` | src/sql_assistant/agent.py:89 | Splitting the tool's text at line breaks gives back exactly those lines when no cell contains a line break. |
| `Agent.QueryResultIsNoError` | src/sql_assistant/agent.py:74-89 | The text of a successful query starts with the row-count notice or a `|`, so it never carries the error prefix. |
| `Agent.ExecuteResultReportsError` | src/sql_assistant/agent.py:74-93 | The query tool's text starts with `Error executing query: ` exactly when the database raised. |
| `Agent.DispatchResult` | src/sql_assistant/agent.py:149 | The tool node answers a query call with an error text exactly when the database failed, and a `load_skill` call with `load_skill`'s answer. A call to any other tool gets a text beginning `Error: <name>`. The rest of that text (`is not a valid tool, try one of [...]`) is the graph library's own wording and appears nowhere in the repository's source. |
| `Agent.ShouldContinue` | src/sql_assistant/agent.py:156-174 | Routes to `tools` exactly when the last message carries tool calls. Routes to END exactly when it carries none and the message before it is an `execute_postgres_query` result. Otherwise it routes to `human_approval`, and never to `agent`. |
| `Agent.RouteToolOutput` | src/sql_assistant/agent.py:182-190 | END exactly when the last message is an `execute_postgres_query` result, `agent` otherwise. |
| `Agent.CheckApprovalOutcome` | src/sql_assistant/agent.py:200-209 | `agent` exactly when the last message is a human message not starting with `<SYSTEM:`, END otherwise. |
| `Agent.RoutingReadsTail` | src/sql_assistant/agent.py:156-209 | Two logs with the same last two messages are routed alike from every node. |
| `Agent.Execute` | src/sql_assistant/agent.py:134-151 | The agent node returns exactly one AI message. The tool node returns only tool results. `human_approval` returns nothing. |
| `Agent.Run` | src/sql_assistant/agent.py:145-216 | A run leaves a consistent checkpoint. It finishes exactly when nothing is left pending, and is interrupted exactly when it pauses before `human_approval`. |
| `Agent.RunAppends` | src/sql_assistant/agent.py:24-25 | A run only appends: its starting log is a prefix of the log it leaves. |
| `Agent.RunPausesAfterReply` | src/sql_assistant/agent.py:216 | A run pauses only right after the agent's reply that proposes no tool call, so `human_approval` is not executed in the invocation that routes to it. |
| `Agent.ExecuteResultEndsRun` | src/sql_assistant/agent.py:186-188 | A tool step whose last call is the query tool ends the run with the tool results appended. |
| `Agent.ReplyAfterQueryEndsRun` | src/sql_assistant/agent.py:168-171 | The agent's plain reply to a query result ends the run. |
| `Agent.SignalClosesRun` | src/sql_assistant/agent.py:204-207 | Resuming on a human message starting with `<SYSTEM:` appends nothing and ends with nothing pending. |
| `Agent.FeedbackReentersAgent` | src/sql_assistant/agent.py:204-208 | Resuming on any other human message runs the agent next, whose reply follows the feedback in the log. |
| `Agent.Update` | src/sql_assistant/agent.py:24-25 | `update_state` appends the messages to the log and keeps the pending node. |
| `Agent.Stream` | src/sql_assistant/agent.py:153 | Resuming with no input when nothing is pending changes nothing, and every invocation leaves a consistent checkpoint. |
| `Agent.UpdateKeepsApprovalRoute` | src/sql_assistant/agent.py:156-174 | After a human message is appended to a paused log, the agent's edge routes to `human_approval` again. |
| `Runtime.CompiledGraph.constructor` | src/sql_assistant/agent.py:216 | A freshly compiled graph has an empty checkpointer. |
| `Runtime.CompiledGraph.GetState` | src/sql_assistant/api.py:142 | Returns the thread's checkpoint, or the empty state for a new thread. |
| `Runtime.CompiledGraph.UpdateState` | src/sql_assistant/api.py:182 | Only the thread's log changes, by appending. |
| `Runtime.CompiledGraph.Stream` | src/sql_assistant/api.py:139 | The node-by-node loop commits exactly `Agent.Stream`'s result for the thread and leaves every other thread alone. |
| `Runtime.RunNodes` | src/sql_assistant/api.py:139 | Running node after node until the graph ends, the interrupt before `human_approval` or the recursion limit gives exactly `Agent.Run`'s log, pending node and outcome. |
| `Api.FencedBlockIsSearch` | src/sql_assistant/api.py:193-197 | The fenced block found is the pattern's match. There is none exactly when the pattern matches nowhere. Otherwise it is the leftmost match, taking the `sql` tag when present, with the shortest group. |
| `Api.FencedBlock` | src/sql_assistant/api.py:193 | A found group lies inside the message: its start is not after its end, and its end is not past the message's length. |
| `Api.ExtractQuery` | src/sql_assistant/api.py:193-197 | The query is a stripped text, so stripping it again changes nothing, and it is never longer than the message. The same extraction is repeated at api.py:252-257. |
| `Api.ExtractedQueryHasNoFence` | src/sql_assistant/api.py:252-254 | A query taken from a fenced block contains no fence. |
| `Api.ExtractQueryFallback` | src/sql_assistant/api.py:255-257 | Without any match, the query is the whole content, stripped. |
| `Api.ExecuteQueryLocally` | src/sql_assistant/api.py:88-132 | Returns `LocalOutcome` of the database's answer: the error text and error on failure, the no-results text with no structured data for zero rows, else the full Markdown table with the headers and rows. |
| `Api.LocalOutcome` | src/sql_assistant/api.py:107-132 | An error text is returned exactly on a database error, and it is that error's message under the `Error executing query: ` text. Structured data is returned exactly for a non-empty result, and it holds the columns and all the rows. |
| `Api.LocalTableMatchesTool` | src/sql_assistant/api.py:113-119 | Up to ten rows, the local result text equals the query tool's text. |
| `Api.LocalTableLines` | src/sql_assistant/api.py:113-119 | The local result has the header, the separator and one line per row, with no cap. |
| `Api.SignalIsControlMessage` | src/sql_assistant/api.py:271 | The injected message starts with `<SYSTEM:`. |
| `Api.RejectionIsNotControlMessage` | src/sql_assistant/api.py:285 | Rejection feedback never starts with `<SYSTEM:`. |
| `Api.Report` | src/sql_assistant/api.py:144-162 | The status is `approval_required` exactly when the thread is paused before `human_approval`. The response is the last message's content, or `Error: No state found.` with status done for an empty log. A recursion-limit failure is a server error. |
| `Api.ProcessRun` | src/sql_assistant/api.py:134-165 | Commits the stream's result for the thread, touches no other thread, and returns `Report` of it. |
| `Api.ChatOnPausedThreadRejects` | src/sql_assistant/api.py:180-186 | On a paused thread the message becomes `Rejected. Feedback: <message>` and the agent answers it. |
| `Api.ChatOnOpenThreadStartsTurn` | src/sql_assistant/api.py:184-186 | On any other thread the message is fresh input that the agent answers. |
| `Api.ChatTurn` | src/sql_assistant/api.py:180-186 | The turn's run leaves a consistent checkpoint. |
| `Api.ChatTurnKeepsHistory` | src/sql_assistant/api.py:180-186 | The turn's log begins with the old log followed by the message. On a paused thread the message is wrapped as `Rejected. Feedback: …`. |
| `Api.ThreadIdFor` | src/sql_assistant/api.py:173 | The thread id is the requested one or the freshly generated one. An empty requested id counts as missing, so the id is never empty when the generated one is not. |
| `Api.Chat` | src/sql_assistant/api.py:169-233 | Without auto-execution, or when no approval is required, it gives the turn's state and report. Otherwise it extracts and executes the query. A failure reports the auto-mode error and leaves the thread paused. A success closes the turn with the control message and returns the result with its structured data and query. |
| `Api.ExecuteAndClose` | src/sql_assistant/api.py:259-272 | The local execution's result is returned. On an error nothing changes. Otherwise the paused thread becomes its old log plus the control message, with nothing pending, and no other thread changes. |
| `Api.Approval` | src/sql_assistant/api.py:235-286 | Refused with 400 and no change unless the thread is paused. An approved query that fails reports the error and changes nothing. One that succeeds leaves the log plus the control message with nothing pending. A rejection appends the feedback (default `Rejected.`) and reports the resumed run. |
| `Api.FeedbackOrDefault` | src/sql_assistant/api.py:284 | The rejection feedback is never empty: it is the given feedback or `Rejected.`. |
| `Cli.ExtractQueryWithWarning` | src/sql_assistant/main.py:88-101 | The console extracts the same query as the API. The warning is printed only when no fenced block is found. |
| `Cli.KeywordQueryHasNoWarning` | src/sql_assistant/main.py:94-98 | A bare message beginning with SELECT or WITH in any letter case gives no warning. |
| `Cli.OtherMessageWarns` | src/sql_assistant/main.py:94-101 | Every other bare message is executed with the warning: no pattern match anywhere, and the stripped, upper-cased text starts with neither SELECT nor WITH. This includes the empty message and words like `SHOW` or `WHERE`. |
| `Cli.ColumnWidthBounds` | src/sql_assistant/main.py:130-136 | A column is at least as wide as its header and each of its cells. |
| `Cli.ColumnWidthAttained` | src/sql_assistant/main.py:130-136 | A column is exactly as wide as its header or one of its cells. |
| `Cli.ComputeWidths` | src/sql_assistant/main.py:130-136 | The in-place scan fails exactly when some row has more cells than there are columns. Otherwise it yields the column widths. |
| `Cli.PaddedCells` | src/sql_assistant/main.py:138 | One cell per column up to the shorter of the two, each left-justified to its width. |
| `Cli.ConsoleLines` | src/sql_assistant/main.py:140-142 | The header and the dash separator come third and fourth, followed by one padded line per row. |
| `Cli.ShowResult` | src/sql_assistant/main.py:126-145 | Printing fails exactly on a database error or, for non-empty results, a row longer than the header. |
| `Cli.ConsoleTableAligned` | src/sql_assistant/main.py:138-142 | Header, separator and every full row have the same length. |
| `Cli.ConsoleCellsLeftAligned` | src/sql_assistant/main.py:142 | Each cell begins its column's padded field, which is exactly the column's width. |
| `Cli.RenderResult` | src/sql_assistant/main.py:126-145 | The rendering with its loops prints exactly `ShowResult`. |
| `Cli.ConsoleTurn` | src/sql_assistant/main.py:69-203 | A turn reads one or two input lines, and leaving does not touch the conversation. |
| `Cli.ApprovedTurnCloses` | src/sql_assistant/main.py:164-166 | An approved query that runs and prints leaves the log plus the control message, with nothing pending. |
| `Cli.FailedApprovalStaysPaused` | src/sql_assistant/main.py:178-181 | An approved query that raises leaves the thread unchanged and still paused. |
| `Cli.RejectedTurnResumesAgent` | src/sql_assistant/main.py:182-194 | A rejection reads the feedback line, appends it as rejection feedback, and the agent answers it. |
| `Cli.ConsoleApprovalMatchesApi` | src/sql_assistant/main.py:104-166 | For a query that runs, the console and `/approval` agree: the API reports no error, and both leave the same thread state. |
| `Cli.ConsoleStep` | src/sql_assistant/main.py:69-203 | One loop iteration through the graph equals `ConsoleTurn`, and touches no other thread. |
| `Cli.ConsoleApprove` | src/sql_assistant/main.py:83-180 | Approving on the console prints and stores exactly what the approve branch of `ConsoleTurn` prescribes, and touches no other thread. |
| `Cli.ApproveTurn` | src/sql_assistant/main.py:83-181 | An approval reads one line, never ends the session, and leaves a consistent checkpoint. |
| `Cli.ApprovalOutput` | src/sql_assistant/main.py:88-181 | Approving always prints something, and the extraction warning is the first line printed exactly when the extraction warns. |
| `Cli.ExitEndsSession` | src/sql_assistant/main.py:196-200 | `exit` or `quit`, in any case, between turns ends the session with the conversation untouched. |
| `Cli.ExitWhilePausedRejects` | src/sql_assistant/main.py:81-83 | While paused, `exit` is a rejection decision and reads a feedback line. |
| `Cli.SessionAppends` | src/sql_assistant/main.py:69-210 | The session only ever extends the conversation it started with. |
| `Cli.Session` | src/sql_assistant/main.py:69-210 | The session runs turn after turn on the remaining input lines until a turn exits or the input runs out, and leaves a consistent checkpoint. |
| `Cli.RunInteractiveSession` | src/sql_assistant/main.py:46-218 | The loop over the input lines ends in `Session`'s state and prints `Session`'s output. |

## Left out

- The language model is a function of the log it is shown, fixed for a run. `ChatOpenAI`, tool binding, the system prompt built from the skill listing, and temperature are not modelled.
- Query execution is a function from query text to rows or an error text. Connections, the pool in `database.py`, commits and any effect a query has on later queries are not modelled. Cells are already strings (`str(cell)`).
- LangGraph internals are replaced by their observable contract: the append reducer, the pending node, interrupt-before and the recursion limit. `Agent.Run` counts at most 25 node executions per invocation, then stops with the next node pending; LangGraph's exact super-step accounting is approximated by this.
- `Agent.Update`: the pending node is kept instead of being recomputed by the library. `Agent.UpdateKeepsApprovalRoute` shows the two agree for the messages the code appends to a paused thread.
- Tool-call ids, message ids and the `tool_calls` field of responses are not modelled. A tool call has one string argument.
- FastAPI, CORS, request validation, logging, LangSmith tracing, `config.py`, `scripts/generate_data.py` and `tests/verify_agent.py` are not part of this model.
- Several threads sharing one graph concurrently are not modelled. Threads are independent entries of a map.
- Only exceptions with a modelled cause are covered. These are database errors, the recursion limit and the console's index error. Exceptions raised by file reads, by `load_skill` (`Error loading skill`) and by the auto-execution `except` branch (`System Error during auto-execution`) are not modelled.
- `SkillRepository.GetSkill`: skill names are single directory entries. Names containing path separators or `..` are not resolved as paths, and a `description.txt` that is itself a directory is not modelled.
- `Cli.ConsoleTurn`: `lower` and `upper` fold ASCII letters only, and `strip` uses Python's whitespace set of code points.
- `Cli.RunInteractiveSession`: the session ends when the input runs out. The source catches the end-of-input error and prompts again forever.
- `Cli.ConsoleTurn`: of the console output, only the approval path (warning, result table, execution error) is modelled. `print_message_verbose`, the banners and the prompts are not.
- `Cli.ExtractQueryWithWarning`: its own contract states only one direction of the warning condition; the SELECT/WITH cases are stated by `Cli.KeywordQueryHasNoWarning` and `Cli.OtherMessageWarns`.
