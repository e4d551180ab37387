/**
 * The agent workflow: the message log, the two tools, the three nodes
 * (`agent`, `tools`, `human_approval`), the three routing functions and the
 * run of the compiled graph from one node until it ends, pauses before
 * `human_approval`, or exhausts the recursion limit.
 *
 * The language model and the database are parameters (an `Environment`):
 * the model is a function of the log it is shown, the database a function
 * of the query text.
 */
module Agent {

  import opened Wrappers
  import opened Strings
  import SkillRepository

  // ---------------------------------------------------------------- messages

  /** A tool invocation requested by the model: the tool's name and its one string argument. */
  datatype ToolCall = ToolCall(name: string, arg: string)

  /** The three kinds of message that enter the log. */
  datatype Message =
    | Human(content: string)
    | AI(content: string, toolCalls: seq<ToolCall>)
    | Tool(name: string, content: string)

  /** What one call of the model returns. */
  datatype Reply = Reply(content: string, toolCalls: seq<ToolCall>)

  /** What executing a query yields: its columns and stringified rows, or the error text. */
  datatype DbOutcome = Rows(columns: seq<string>, rows: seq<seq<string>>) | DbError(message: string)

  datatype Environment = Environment(
    llm: seq<Message> -> Reply,
    skills: SkillRepository.SkillsDir,
    db: string -> DbOutcome)

  function Last(log: seq<Message>): Message
    requires |log| > 0
  {
    log[|log| - 1]
  }

  // ---------------------------------------------------------------- tools

  const LoadSkillTool := "load_skill"
  const ExecuteTool := "execute_postgres_query"

  function SkillNotFound(name: string): string
  {
    "Skill '" + name + "' not found."
  }

  /** The `load_skill` tool: the skill's content if the skill exists with non-empty content. */
  function LoadSkill(skills: SkillRepository.SkillsDir, name: string): string
  {
    match SkillRepository.GetSkill(skills, name)
    case Some(skill) => if skill.content != "" then skill.content else SkillNotFound(name)
    case None => SkillNotFound(name)
  }

  /** `load_skill` answers with the repository's skill content, which is then not empty, or with the not-found text. */
  lemma LoadSkillFromRepository(skills: SkillRepository.SkillsDir, name: string)
    ensures var r := LoadSkill(skills, name);
      && (SkillRepository.GetSkill(skills, name).None? ==> r == SkillNotFound(name))
      && (r != SkillNotFound(name) ==>
            SkillRepository.GetSkill(skills, name).Some? && r == SkillRepository.GetSkill(skills, name).value.content && r != "")
  {
  }

  /** A directory entry from which `load_skill(name)` returns content: a directory named `name`
      holding both files, whose stripped `content.md` is not empty. */
  predicate IsLoadable(item: SkillRepository.Item, name: string)
  {
    && item.name == name
    && item.entry.Folder?
    && SkillRepository.DescriptionFile in item.entry.files
    && SkillRepository.ContentFile in item.entry.files
    && Strip(item.entry.files[SkillRepository.ContentFile]) != ""
  }

  /** `load_skill` returns the stripped `content.md` of the loadable skill directory `name`. */
  lemma LoadSkillFound(skills: SkillRepository.SkillsDir, name: string, i: nat)
    requires skills.Present? && SkillRepository.UniqueNames(skills.items)
    requires i < |skills.items| && IsLoadable(skills.items[i], name)
    ensures LoadSkill(skills, name) == Strip(skills.items[i].entry.files[SkillRepository.ContentFile])
  {
    var e := SkillRepository.Lookup(skills.items, name);
    var j :| 0 <= j < |skills.items| && skills.items[j] == SkillRepository.Item(name, e.value);
    assert i == j;
  }

  /** Without a loadable directory `name`, `load_skill` answers that the skill was not found. */
  lemma LoadSkillNotFound(skills: SkillRepository.SkillsDir, name: string)
    requires skills.Present? ==> forall i :: 0 <= i < |skills.items| ==> !IsLoadable(skills.items[i], name)
    ensures LoadSkill(skills, name) == SkillNotFound(name)
  {
    if skills.Present? {
      var e := SkillRepository.Lookup(skills.items, name);
      if e.Some? {
        var j :| 0 <= j < |skills.items| && skills.items[j] == SkillRepository.Item(name, e.value);
        assert !IsLoadable(skills.items[j], name);
      }
    }
  }

  const RowCap := 10
  const NoRowsText := "Query executed successfully per row count: 0"

  /** One Markdown table line: `| a | b | c |`. */
  function MarkdownRow(cells: seq<string>): string
  {
    "| " + Join(" | ", cells) + " |"
  }

  /** The lines of a Markdown table: header, a `---` separator with one cell per column, and one line per row. */
  function MarkdownTable(columns: seq<string>, rows: seq<seq<string>>): (lines: seq<string>)
    ensures |lines| == 2 + |rows|
    ensures lines[0] == MarkdownRow(columns)
    ensures lines[1] == MarkdownRow(Repeat("---", |columns|))
    ensures forall i :: 0 <= i < |rows| ==> lines[2 + i] == MarkdownRow(rows[i])
  {
    [MarkdownRow(columns), MarkdownRow(Repeat("---", |columns|))]
      + seq(|rows|, i requires 0 <= i < |rows| => MarkdownRow(rows[i]))
  }

  function MoreRows(extra: nat): string
  {
    "... (" + Decimal(extra) + " more rows)"
  }

  /** The lines `execute_postgres_query` returns for a non-empty result: at most ten rows and a trailer. */
  function QueryResultLines(columns: seq<string>, rows: seq<seq<string>>): seq<string>
    requires |rows| > 0
  {
    if |rows| > RowCap then MarkdownTable(columns, rows[..RowCap]) + [MoreRows(|rows| - RowCap)]
    else MarkdownTable(columns, rows)
  }

  /** The text `execute_postgres_query` returns for a successful query. */
  function QueryResultText(columns: seq<string>, rows: seq<seq<string>>): string
  {
    if |rows| == 0 then NoRowsText else Join("\n", QueryResultLines(columns, rows))
  }

  /** The shape of the query tool's table: header, separator, the first min(n, 10) rows, and
      when more than ten rows came back, a trailer counting the ones left out. */
  lemma QueryResultShape(columns: seq<string>, rows: seq<seq<string>>)
    requires |rows| > 0
    ensures var lines := QueryResultLines(columns, rows);
      var shown := if |rows| > RowCap then RowCap else |rows|;
      && |lines| == 2 + shown + (if |rows| > RowCap then 1 else 0)
      && lines[0] == MarkdownRow(columns)
      && lines[1] == MarkdownRow(Repeat("---", |columns|))
      && (forall i :: 0 <= i < shown ==> lines[2 + i] == MarkdownRow(rows[i]))
      && (|rows| > RowCap ==> lines[|lines| - 1] == MoreRows(|rows| - RowCap))
  {
  }

  /** When no column name or cell contains a line break, the tool's text splits back into exactly those lines. */
  lemma QueryResultTextLines(columns: seq<string>, rows: seq<seq<string>>)
    requires |rows| > 0
    requires forall j :: 0 <= j < |columns| ==> '\n' !in columns[j]
    requires forall i, j :: 0 <= i < |rows| && 0 <= j < |rows[i]| ==> '\n' !in rows[i][j]
    ensures Split(QueryResultText(columns, rows), '\n') == QueryResultLines(columns, rows)
  {
    var lines := QueryResultLines(columns, rows);
    QueryResultShape(columns, rows);
    forall k | 0 <= k < |lines| ensures '\n' !in lines[k] {
      if k == 0 {
        JoinAvoids(" | ", columns, '\n');
      } else if k == 1 {
        JoinAvoids(" | ", Repeat("---", |columns|), '\n');
      } else if k - 2 < |rows| && k - 2 < RowCap {
        JoinAvoids(" | ", rows[k - 2], '\n');
      } else {
        assert lines[k] == MoreRows(|rows| - RowCap);
      }
    }
    SplitJoin(lines, '\n');
  }

  /** `execute_postgres_query`'s formatting: a loop appends one Markdown line per row of the first ten. */
  method FormatQueryResult(columns: seq<string>, rows: seq<seq<string>>) returns (text: string)
    ensures text == QueryResultText(columns, rows)
  {
    if |rows| == 0 {
      return NoRowsText;
    }
    var header := MarkdownRow(columns);
    var separator := MarkdownRow(Repeat("---", |columns|));
    var shown := if |rows| < RowCap then |rows| else RowCap;
    var lines: seq<string> := [];
    var i := 0;
    while i < shown
      invariant 0 <= i <= shown
      invariant |lines| == i
      invariant forall k :: 0 <= k < i ==> lines[k] == MarkdownRow(rows[k])
    {
      lines := lines + [MarkdownRow(rows[i])];
      i := i + 1;
    }
    RowLinesMakeTable(columns, rows, shown, lines);
    if |rows| > RowCap {
      assert [header, separator] + (lines + [MoreRows(|rows| - RowCap)])
        == [header, separator] + lines + [MoreRows(|rows| - RowCap)];
      lines := lines + [MoreRows(|rows| - RowCap)];
    }
    assert [header, separator] + lines == QueryResultLines(columns, rows);
    text := Join("\n", [header, separator] + lines);
  }

  /** The header, the separator and the row lines built so far form the table of the shown rows. */
  lemma RowLinesMakeTable(columns: seq<string>, rows: seq<seq<string>>, shown: nat, lines: seq<string>)
    requires shown == (if |rows| < RowCap then |rows| else RowCap) && |rows| > 0
    requires |lines| == shown && forall k :: 0 <= k < shown ==> lines[k] == MarkdownRow(rows[k])
    ensures |rows| > RowCap ==>
      [MarkdownRow(columns), MarkdownRow(Repeat("---", |columns|))] + lines + [MoreRows(|rows| - RowCap)]
        == QueryResultLines(columns, rows)
    ensures |rows| <= RowCap ==>
      [MarkdownRow(columns), MarkdownRow(Repeat("---", |columns|))] + lines == QueryResultLines(columns, rows)
  {
    var table := MarkdownTable(columns, rows[..shown]);
    assert [MarkdownRow(columns), MarkdownRow(Repeat("---", |columns|))] + lines == table;
    if |rows| <= RowCap {
      assert rows[..shown] == rows;
    }
  }

  const QueryErrorPrefix := "Error executing query: "

  /** A successful query's text never reads as a failure: it starts with the row-count notice or a `|`. */
  lemma QueryResultIsNoError(columns: seq<string>, rows: seq<seq<string>>)
    ensures !StartsWith(QueryResultText(columns, rows), QueryErrorPrefix)
  {
    var text := QueryResultText(columns, rows);
    if |rows| > 0 {
      var lines := QueryResultLines(columns, rows);
      QueryResultShape(columns, rows);
      JoinStartsWithFirst("\n", lines);
      assert lines[0][0] == '|';
      assert text[0] == '|';
    } else {
      assert text[0] == 'Q';
    }
    assert QueryErrorPrefix[0] == 'E';
  }

  /** The result text of `execute_postgres_query` for a query. */
  function ExecuteResult(outcome: DbOutcome): string
  {
    match outcome
    case Rows(columns, rows) => QueryResultText(columns, rows)
    case DbError(message) => QueryErrorPrefix + message
  }

  /** The query tool's text carries the error prefix exactly when the query failed. */
  lemma ExecuteResultReportsError(outcome: DbOutcome)
    ensures StartsWith(ExecuteResult(outcome), QueryErrorPrefix) <==> outcome.DbError?
  {
    if outcome.Rows? {
      QueryResultIsNoError(outcome.columns, outcome.rows);
    }
  }

  /** The tool node's dispatch of one call; an unknown tool name yields an error text, not a failure. */
  function Dispatch(call: ToolCall, env: Environment): string
  {
    if call.name == LoadSkillTool then LoadSkill(env.skills, call.arg)
    else if call.name == ExecuteTool then ExecuteResult(env.db(call.arg))
    else "Error: " + call.name + " is not a valid tool, try one of [" + LoadSkillTool + ", " + ExecuteTool + "]."
  }

  /** A query call's result reports an error exactly when the database failed; a call to an unknown
      tool is answered with an error naming that tool, not with a failure of the run. */
  lemma DispatchResult(call: ToolCall, env: Environment)
    ensures var r := Dispatch(call, env);
      && (call.name == ExecuteTool ==> (StartsWith(r, QueryErrorPrefix) <==> env.db(call.arg).DbError?))
      && (call.name == LoadSkillTool ==> r == LoadSkill(env.skills, call.arg))
      && (call.name != LoadSkillTool && call.name != ExecuteTool ==> StartsWith(r, "Error: " + call.name))
  {
    if call.name == ExecuteTool {
      ExecuteResultReportsError(env.db(call.arg));
    }
  }

  // ---------------------------------------------------------------- graph

  datatype Node = AgentNode | ToolsNode | HumanApprovalNode

  /** Where a conditional edge leads: another node, or the end of the run. */
  datatype Route = Goto(node: Node) | End

  /** The run starts at the agent node; the graph is compiled to interrupt before `human_approval`. */
  const EntryNode := AgentNode
  const InterruptBefore := HumanApprovalNode

  /** The prefix that marks a control message closing a turn after local execution. */
  const SystemPrefix := "<SYSTEM:"

  predicate HasToolCalls(m: Message)
  {
    m.AI? && |m.toolCalls| > 0
  }

  predicate IsResultOf(m: Message, tool: string)
  {
    m.Tool? && m.name == tool
  }

  /** `should_continue`, the edge after the agent node. */
  function ShouldContinue(log: seq<Message>): (r: Route)
    requires |log| > 0
    ensures r == Goto(ToolsNode) <==> HasToolCalls(Last(log))
    ensures r == End <==>
      !HasToolCalls(Last(log)) && |log| > 1 && IsResultOf(log[|log| - 2], ExecuteTool)
    ensures r != Goto(AgentNode)
  {
    if HasToolCalls(Last(log)) then Goto(ToolsNode)
    else if |log| > 1 && IsResultOf(log[|log| - 2], ExecuteTool) then End
    else Goto(HumanApprovalNode)
  }

  /** `route_tool_output`, the edge after the tool node. */
  function RouteToolOutput(log: seq<Message>): (r: Route)
    requires |log| > 0
    ensures r == End <==> IsResultOf(Last(log), ExecuteTool)
    ensures r != End ==> r == Goto(AgentNode)
  {
    if IsResultOf(Last(log), ExecuteTool) then End else Goto(AgentNode)
  }

  /** `check_approval_outcome`, the edge after the approval node. */
  function CheckApprovalOutcome(log: seq<Message>): (r: Route)
    requires |log| > 0
    ensures r == Goto(AgentNode) <==> Last(log).Human? && !StartsWith(Last(log).content, SystemPrefix)
    ensures r != Goto(AgentNode) ==> r == End
  {
    match Last(log)
    case Human(content) => if StartsWith(content, SystemPrefix) then End else Goto(AgentNode)
    case _ => End
  }

  /** The routing function attached to each node. */
  function RouteAfter(node: Node, log: seq<Message>): Route
    requires |log| > 0
  {
    match node
    case AgentNode => ShouldContinue(log)
    case ToolsNode => RouteToolOutput(log)
    case HumanApprovalNode => CheckApprovalOutcome(log)
  }

  /** The last two messages, the only part of the log the routing functions read. */
  function Tail(log: seq<Message>): seq<Message>
  {
    if |log| <= 2 then log else log[|log| - 2..]
  }

  /** Routing depends on the last two messages and nothing earlier in the log. */
  lemma RoutingReadsTail(node: Node, a: seq<Message>, b: seq<Message>)
    requires |a| > 0 && |b| > 0 && Tail(a) == Tail(b)
    ensures RouteAfter(node, a) == RouteAfter(node, b)
  {
    assert Last(a) == Tail(a)[|Tail(a)| - 1];
    assert Last(b) == Tail(b)[|Tail(b)| - 1];
    if |a| > 1 {
      assert a[|a| - 2] == Tail(a)[0];
      assert b[|b| - 2] == Tail(b)[0];
    }
  }

  /** The messages a node returns, which the graph appends to the log (`operator.add`). */
  function Execute(node: Node, log: seq<Message>, env: Environment): (out: seq<Message>)
    ensures node == AgentNode ==> |out| == 1 && out[0].AI?
    ensures node == ToolsNode ==> forall k :: 0 <= k < |out| ==> out[k].Tool?
    ensures node == HumanApprovalNode ==> out == []
  {
    match node
    case AgentNode =>
      var reply := env.llm(log);
      [AI(reply.content, reply.toolCalls)]
    case ToolsNode =>
      if |log| > 0 && Last(log).AI? then
        var calls := Last(log).toolCalls;
        seq(|calls|, k requires 0 <= k < |calls| => Tool(calls[k].name, Dispatch(calls[k], env)))
      else []
    case HumanApprovalNode => []
  }

  // ---------------------------------------------------------------- runs

  /** How one invocation of the graph stopped. */
  datatype Outcome = Finished | Interrupted | RecursionLimitHit

  /** The checkpoint of one thread: its message log and the node pending, if any. */
  datatype ThreadState = ThreadState(log: seq<Message>, pending: Option<Node>)

  /** A pending node always has a log to route on. */
  predicate Consistent(st: ThreadState)
  {
    st.pending.Some? ==> |st.log| > 0
  }

  predicate Paused(st: ThreadState)
  {
    st.pending == Some(HumanApprovalNode)
  }

  datatype RunResult = RunResult(state: ThreadState, outcome: Outcome)

  /** The most node executions one invocation performs before giving up. */
  const RecursionLimit := 25

  /**
   * Execute `node`, append what it returns, then follow the node's routing function:
   * stop at the end, pause before `human_approval`, stop when `budget` further
   * executions are used up, and otherwise execute the next node.
   */
  function Run(log: seq<Message>, node: Node, budget: nat, env: Environment): (r: RunResult)
    requires node == AgentNode || |log| > 0
    ensures Consistent(r.state)
    ensures r.outcome == Finished <==> r.state.pending.None?
    ensures r.outcome == Interrupted <==> Paused(r.state)
    decreases budget
  {
    var log' := log + Execute(node, log, env);
    match RouteAfter(node, log')
    case End => RunResult(ThreadState(log', None), Finished)
    case Goto(next) =>
      if next == HumanApprovalNode then RunResult(ThreadState(log', Some(next)), Interrupted)
      else if budget == 0 then RunResult(ThreadState(log', Some(next)), RecursionLimitHit)
      else Run(log', next, budget - 1, env)
  }

  /** A run only appends: the log it starts from is a prefix of the log it leaves. */
  lemma {:induction false} RunAppends(log: seq<Message>, node: Node, budget: nat, env: Environment)
    requires node == AgentNode || |log| > 0
    ensures log <= Run(log, node, budget, env).state.log
    decreases budget
  {
    var log' := log + Execute(node, log, env);
    var route := RouteAfter(node, log');
    if route.Goto? && route.node != HumanApprovalNode && budget > 0 {
      RunAppends(log', route.node, budget - 1, env);
    }
  }

  /** A run that pauses does so right after the agent's reply, which proposes no tool call:
      `human_approval` is never executed in the invocation that routes to it. */
  lemma {:induction false} RunPausesAfterReply(log: seq<Message>, node: Node, budget: nat, env: Environment)
    requires node == AgentNode || |log| > 0
    ensures var r := Run(log, node, budget, env);
      r.outcome == Interrupted ==>
        |r.state.log| > |log| && Last(r.state.log).AI? && !HasToolCalls(Last(r.state.log))
    decreases budget
  {
    var log' := log + Execute(node, log, env);
    var route := RouteAfter(node, log');
    if route == Goto(HumanApprovalNode) {
      assert node == AgentNode;
      assert Last(log') == Execute(node, log, env)[0];
    } else if route.Goto? && budget > 0 {
      RunPausesAfterReply(log', route.node, budget - 1, env);
      RunAppends(log', route.node, budget - 1, env);
    }
  }

  /** The bypass after a query: when the last call of a tool step is `execute_postgres_query`,
      the run ends right there without another model call. */
  lemma ExecuteResultEndsRun(log: seq<Message>, budget: nat, env: Environment)
    requires |log| > 0 && HasToolCalls(Last(log))
    requires Last(log).toolCalls[|Last(log).toolCalls| - 1].name == ExecuteTool
    ensures Run(log, ToolsNode, budget, env)
      == RunResult(ThreadState(log + Execute(ToolsNode, log, env), None), Finished)
  {
    var out := Execute(ToolsNode, log, env);
    var log' := log + out;
    var calls := Last(log).toolCalls;
    assert out[|out| - 1] == Tool(ExecuteTool, Dispatch(calls[|calls| - 1], env));
    assert Last(log') == out[|out| - 1];
    assert RouteAfter(ToolsNode, log') == End;
  }

  /** The agent's reply after a query result is the turn's final summary: the run ends. */
  lemma ReplyAfterQueryEndsRun(log: seq<Message>, budget: nat, env: Environment)
    requires |log| > 0 && IsResultOf(Last(log), ExecuteTool)
    requires |env.llm(log).toolCalls| == 0
    ensures Run(log, AgentNode, budget, env)
      == RunResult(ThreadState(log + [AI(env.llm(log).content, [])], None), Finished)
  {
    var log' := log + Execute(AgentNode, log, env);
    assert log'[|log'| - 2] == Last(log);
  }

  /** Resuming with a control message closes the turn: nothing is appended and no node follows. */
  lemma SignalClosesRun(log: seq<Message>, signal: string, budget: nat, env: Environment)
    requires StartsWith(signal, SystemPrefix)
    ensures Run(log + [Human(signal)], HumanApprovalNode, budget, env)
      == RunResult(ThreadState(log + [Human(signal)], None), Finished)
  {
    var log' := log + [Human(signal)];
    assert log' + Execute(HumanApprovalNode, log', env) == log';
  }

  /** Resuming with any other human message returns to the agent, which answers it next. */
  lemma FeedbackReentersAgent(log: seq<Message>, feedback: string, budget: nat, env: Environment)
    requires !StartsWith(feedback, SystemPrefix)
    ensures var log' := log + [Human(feedback)];
      && Run(log', HumanApprovalNode, budget + 1, env) == Run(log', AgentNode, budget, env)
      && log' + [AI(env.llm(log').content, env.llm(log').toolCalls)]
           <= Run(log', AgentNode, budget, env).state.log
  {
    var log' := log + [Human(feedback)];
    assert log' + Execute(HumanApprovalNode, log', env) == log';
    RunAppendsAfterFirst(log', AgentNode, budget, env);
  }

  /** A run's log starts with what the node it starts at returns. */
  lemma RunAppendsAfterFirst(log: seq<Message>, node: Node, budget: nat, env: Environment)
    requires node == AgentNode || |log| > 0
    ensures log + Execute(node, log, env) <= Run(log, node, budget, env).state.log
  {
    var log' := log + Execute(node, log, env);
    var route := RouteAfter(node, log');
    if route.Goto? && route.node != HumanApprovalNode && budget > 0 {
      RunAppends(log', route.node, budget - 1, env);
    }
  }

  // ---------------------------------------------------------------- checkpointed invocations

  /** `graph.update_state(config, {"messages": msgs})`: append, keeping the pending node. */
  function Update(st: ThreadState, msgs: seq<Message>): (r: ThreadState)
    requires Consistent(st)
    ensures Consistent(r) && r.pending == st.pending && r.log == st.log + msgs
  {
    ThreadState(st.log + msgs, st.pending)
  }

  /**
   * `graph.stream(input, config)`: with an input, append it and run from the entry node;
   * without one, resume the pending node, or do nothing if no node is pending.
   */
  function Stream(st: ThreadState, input: Option<seq<Message>>, env: Environment): (r: RunResult)
    requires Consistent(st)
    ensures Consistent(r.state)
    ensures input.None? && st.pending.None? ==> r == RunResult(st, Finished)
  {
    match input
    case Some(msgs) => Run(st.log + msgs, EntryNode, RecursionLimit - 1, env)
    case None =>
      if st.pending.None? then RunResult(st, Finished)
      else Run(st.log, st.pending.value, RecursionLimit - 1, env)
  }

  /** Re-evaluating the agent's edge after a human message is appended to a paused log routes to
      `human_approval` again, so keeping the pending node on `update_state` agrees with the graph. */
  lemma UpdateKeepsApprovalRoute(log: seq<Message>, text: string)
    requires |log| > 0 && Last(log).AI? && !HasToolCalls(Last(log))
    ensures ShouldContinue(log + [Human(text)]) == Goto(HumanApprovalNode)
  {
    var log' := log + [Human(text)];
    assert log'[|log'| - 2] == Last(log);
  }
}
