/**
 * The HTTP facade: `/chat` starts a turn or turns a message on a paused
 * thread into rejection feedback, optionally executing the proposed query
 * at once; `/approval` executes an approved query locally and closes the
 * turn with a control message, or resumes the agent with the feedback.
 */
module Api {

  import opened Wrappers
  import opened Strings
  import opened Agent
  import opened Runtime

  // ---------------------------------------------------------------- extracting the query

  const Fence := "```"
  const SqlTag := "sql"

  /** Where the captured group starts for an opening fence at `i`: after the `sql` tag when it is there. */
  function GroupStart(s: string, i: nat): nat
  {
    if OccursAt(s, SqlTag, i + 3) then i + 6 else i + 3
  }

  /** A closing fence after an opening fence and an `sql` tag cannot overlap the tag. */
  lemma FenceNotInTag(s: string, i: nat, k: nat)
    requires OccursAt(s, SqlTag, i + 3) && i + 3 <= k && OccursAt(s, Fence, k)
    ensures i + 6 <= k
  {
    forall m | i + 3 <= m < i + 6 ensures s[m] in SqlTag {
      assert s[m] == s[i + 3..i + 6][m - (i + 3)];
    }
    assert s[k] == s[k..k + 3][0];
  }

  /**
   * The group `re.search(r"```(?:sql)?(.*?)```", s, re.DOTALL)` captures, as the bounds of
   * `s[a..k]`: the first fence opens the block, and the first fence after it closes it.
   */
  function FencedBlock(s: string): (r: Option<(nat, nat)>)
    ensures r.Some? ==> r.value.0 <= r.value.1 <= |s|
  {
    match FindFrom(s, Fence, 0)
    case None => None
    case Some(i) =>
      match FindFrom(s, Fence, i + 3)
      case None => None
      case Some(k) =>
        if OccursAt(s, SqlTag, i + 3) then FenceNotInTag(s, i, k); Some((GroupStart(s, i), k))
        else Some((GroupStart(s, i), k))
  }

  /** The pattern matches with its opening fence at `i` and its group spanning `s[a..k]`. */
  ghost predicate PatternAt(s: string, i: nat, a: nat, k: nat)
  {
    && OccursAt(s, Fence, i)
    && (a == i + 3 || (a == i + 6 && OccursAt(s, SqlTag, i + 3)))
    && a <= k && OccursAt(s, Fence, k)
  }

  /** `FencedBlock` is the regular expression's match: none when the pattern matches nowhere;
      otherwise the leftmost match, taking the `sql` tag when present, with the shortest group. */
  lemma FencedBlockIsSearch(s: string)
    ensures FencedBlock(s).None? <==> forall i: nat, a: nat, k: nat :: !PatternAt(s, i, a, k)
    ensures FencedBlock(s).Some? ==>
      var i := FindFrom(s, Fence, 0).value;
      var a := FencedBlock(s).value.0;
      var k := FencedBlock(s).value.1;
      && PatternAt(s, i, a, k)
      && (forall j: nat, a': nat, k': nat :: j < i ==> !PatternAt(s, j, a', k'))
      && (a == i + 6 <==> OccursAt(s, SqlTag, i + 3))
      && (forall k': nat :: k' < k ==> !PatternAt(s, i, a, k'))
  {
    match FindFrom(s, Fence, 0)
    case None =>
    case Some(i) =>
      match FindFrom(s, Fence, i + 3)
      case None =>
        forall j: nat, a: nat, k: nat ensures !PatternAt(s, j, a, k) {
        }
      case Some(k) =>
        if OccursAt(s, SqlTag, i + 3) {
          FenceNotInTag(s, i, k);
        }
        assert PatternAt(s, i, GroupStart(s, i), k);
        forall j: nat, a': nat, k': nat | j < i ensures !PatternAt(s, j, a', k') {
          assert !OccursAt(s, Fence, j);
        }
        forall k': nat | k' < k ensures !PatternAt(s, i, GroupStart(s, i), k') {
          if i + 3 <= k' {
            assert !OccursAt(s, Fence, k');
          }
        }
  }

  /** The query a message proposes: the stripped group of its first fenced block, else the whole message stripped. */
  function ExtractQuery(content: string): (r: string)
    ensures Strip(r) == r && |r| <= |content|
  {
    match FencedBlock(content)
    case Some((a, k)) => StripIdempotent(content[a..k]); Strip(content[a..k])
    case None => StripIdempotent(content); Strip(content)
  }

  /** A query taken from a fenced block never contains a fence itself. */
  lemma ExtractedQueryHasNoFence(content: string)
    requires FencedBlock(content).Some?
    ensures forall j: nat :: !OccursAt(ExtractQuery(content), Fence, j)
  {
    var a, k := FencedBlock(content).value.0, FencedBlock(content).value.1;
    GroupHasNoFence(content);
    assert ExtractQuery(content) == Strip(content[a..k]);
    StrippedSliceAvoidsFence(content, a, k);
  }

  /** No fence starts at any position of `s[lo..hi]`. */
  predicate NoFenceIn(s: string, lo: nat, hi: nat)
  {
    forall p: nat :: lo <= p < hi ==> !OccursAt(s, Fence, p)
  }

  /** Any slice of a text without a fence is without a fence. */
  lemma SliceAvoidsFence(g: string, x: nat, y: nat)
    requires x <= y <= |g| && forall j: nat :: !OccursAt(g, Fence, j)
    ensures forall j: nat :: !OccursAt(g[x..y], Fence, j)
  {
    SubstringAvoidsFence(g, g[x..y], x);
  }

  /** Stripping a slice in which no fence starts leaves a text without a fence. */
  lemma StrippedSliceAvoidsFence(s: string, a: nat, k: nat)
    requires a <= k <= |s| && NoFenceIn(s, a, k)
    ensures forall j: nat :: !OccursAt(Strip(s[a..k]), Fence, j)
  {
    var group := s[a..k];
    SubstringAvoidsFence(s, group, a);
    var lead, q := LeadingSpace(group), Strip(group);
    SliceAvoidsFence(group, lead, lead + |q|);
  }

  /** No fence starts inside the captured group. */
  lemma GroupHasNoFence(s: string)
    requires FencedBlock(s).Some?
    ensures NoFenceIn(s, FencedBlock(s).value.0, FencedBlock(s).value.1)
  {
    var i := FindFrom(s, Fence, 0).value;
    var k := FindFrom(s, Fence, i + 3).value;
    assert FencedBlock(s).value.1 == k;
    assert i + 3 <= FencedBlock(s).value.0;
  }

  /** A piece of a text, at a place where no fence starts, contains no fence. */
  lemma SubstringAvoidsFence(s: string, t: string, x: nat)
    requires x + |t| <= |s| && t == s[x..x + |t|] && NoFenceIn(s, x, x + |t|)
    ensures forall j: nat :: !OccursAt(t, Fence, j)
  {
    forall j: nat | j + 3 <= |t| ensures !OccursAt(t, Fence, j) {
      var inner, outer := t[j..j + 3], s[x + j..x + j + 3];
      forall m | 0 <= m < 3 ensures inner[m] == outer[m] {
      }
      assert inner == outer;
      assert !OccursAt(s, Fence, x + j);
    }
  }

  /** Without a complete fenced block the whole message, stripped, is the query. */
  lemma ExtractQueryFallback(content: string)
    requires forall i: nat, a: nat, k: nat :: !PatternAt(content, i, a, k)
    ensures ExtractQuery(content) == Strip(content)
  {
    FencedBlockIsSearch(content);
  }

  // ---------------------------------------------------------------- executing locally

  const NoResultsText := "[Execution Result]: No results found."

  /** The `structured_data` of a response: the column names and the rows. */
  datatype QueryTable = QueryTable(headers: seq<string>, rows: seq<seq<string>>)

  /** What `execute_query_locally` returns: the result text, the structured data and the error text. */
  datatype LocalResult = LocalResult(text: string, data: Option<QueryTable>, error: Option<string>)

  function LocalOutcome(outcome: DbOutcome): (r: LocalResult)
    ensures r.error.Some? <==> outcome.DbError?
    ensures outcome.DbError? ==> r.error.value == outcome.message && StartsWith(r.text, QueryErrorPrefix)
    ensures r.data.Some? <==> outcome.Rows? && |outcome.rows| > 0
    ensures r.data.Some? ==> r.data.value == QueryTable(outcome.columns, outcome.rows)
  {
    match outcome
    case DbError(e) => LocalResult(QueryErrorPrefix + e, None, Some(e))
    case Rows(columns, rows) =>
      if |rows| == 0 then LocalResult(NoResultsText, None, None)
      else LocalResult(Join("\n", MarkdownTable(columns, rows)), Some(QueryTable(columns, rows)), None)
  }

  /** Python's `if error:`: an error is reported only when its text is not empty. */
  predicate Failed(error: Option<string>)
  {
    error.Some? && error.value != ""
  }

  /** `execute_query_locally`: run the query, then build one Markdown line per result row in a loop. */
  method ExecuteQueryLocally(query: string, db: string -> DbOutcome) returns (res: LocalResult)
    ensures res == LocalOutcome(db(query))
  {
    match db(query) {
      case DbError(e) =>
        return LocalResult(QueryErrorPrefix + e, None, Some(e));
      case Rows(columns, rows) =>
        if |rows| == 0 {
          return LocalResult(NoResultsText, None, None);
        }
        var header := MarkdownRow(columns);
        var separator := MarkdownRow(Repeat("---", |columns|));
        var rowsMd: seq<string> := [];
        var i := 0;
        while i < |rows|
          invariant 0 <= i <= |rows|
          invariant |rowsMd| == i
          invariant forall k :: 0 <= k < i ==> rowsMd[k] == MarkdownRow(rows[k])
        {
          rowsMd := rowsMd + [MarkdownRow(rows[i])];
          i := i + 1;
        }
        RowLinesMakeFullTable(columns, rows, rowsMd);
        res := LocalResult(Join("\n", [header, separator] + rowsMd), Some(QueryTable(columns, rows)), None);
    }
  }

  /** The header, the separator and one line per row form the table of all the rows. */
  lemma RowLinesMakeFullTable(columns: seq<string>, rows: seq<seq<string>>, lines: seq<string>)
    requires |lines| == |rows| && forall k :: 0 <= k < |rows| ==> lines[k] == MarkdownRow(rows[k])
    ensures [MarkdownRow(columns), MarkdownRow(Repeat("---", |columns|))] + lines == MarkdownTable(columns, rows)
  {
  }

  /** Up to ten rows, the locally executed result reads exactly as the query tool's result. */
  lemma LocalTableMatchesTool(columns: seq<string>, rows: seq<seq<string>>)
    requires 0 < |rows| <= RowCap
    ensures LocalOutcome(Rows(columns, rows)).text == QueryResultText(columns, rows)
  {
  }

  /** The local result lists every row: its lines are the header, the separator and one line per row. */
  lemma LocalTableLines(columns: seq<string>, rows: seq<seq<string>>)
    requires |rows| > 0
    requires forall j :: 0 <= j < |columns| ==> '\n' !in columns[j]
    requires forall i, j :: 0 <= i < |rows| && 0 <= j < |rows[i]| ==> '\n' !in rows[i][j]
    ensures Split(LocalOutcome(Rows(columns, rows)).text, '\n') == MarkdownTable(columns, rows)
  {
    var lines := MarkdownTable(columns, rows);
    forall k | 0 <= k < |lines| ensures '\n' !in lines[k] {
      if k == 0 {
        JoinAvoids(" | ", columns, '\n');
      } else if k == 1 {
        JoinAvoids(" | ", Repeat("---", |columns|), '\n');
      } else {
        JoinAvoids(" | ", rows[k - 2], '\n');
      }
    }
    SplitJoin(lines, '\n');
  }

  // ---------------------------------------------------------------- responses

  datatype Status = Done | ApprovalRequired

  datatype ChatResponse = ChatResponse(
    threadId: string,
    response: string,
    status: Status,
    structuredData: Option<QueryTable>,
    query: Option<string>)

  /** HTTP 400 with its detail, or HTTP 500 for an exception that escapes a handler. */
  datatype ApiError = BadRequest(detail: string) | ServerError

  const NoStateText := "Error: No state found."
  const NotWaitingText := "Conversation is not waiting for approval."

  /** The control message that closes a turn whose query was executed outside the graph. */
  const SystemSignal := "<SYSTEM: Execution Completed Locally>"

  function Rejection(feedback: string): string
  {
    "Rejected. Feedback: " + feedback
  }

  /** The control message carries the prefix the approval edge ends on. */
  lemma SignalIsControlMessage()
    ensures StartsWith(SystemSignal, SystemPrefix)
  {
  }

  /** Rejection feedback never carries that prefix, whatever the user wrote. */
  lemma RejectionIsNotControlMessage(feedback: string)
    ensures !StartsWith(Rejection(feedback), SystemPrefix)
  {
    assert Rejection(feedback)[0] == 'R';
  }

  /** What `process_run` reports about a finished invocation. */
  function Report(t: string, run: RunResult): (r: Result<ChatResponse, ApiError>)
    requires Consistent(run.state)
    ensures r.Err? <==> run.outcome == RecursionLimitHit
    ensures r.Ok? ==> r.value.threadId == t && r.value.structuredData.None? && r.value.query.None?
    ensures r.Ok? ==> (r.value.status == ApprovalRequired <==> Paused(run.state))
    ensures r.Ok? && |run.state.log| == 0 ==> r.value.response == NoStateText
    ensures r.Ok? && |run.state.log| > 0 ==> r.value.response == Last(run.state.log).content
  {
    if run.outcome == RecursionLimitHit then Err(ServerError)
    else if |run.state.log| == 0 then Ok(ChatResponse(t, NoStateText, Done, None, None))
    else
      var status := if Paused(run.state) then ApprovalRequired else Done;
      Ok(ChatResponse(t, Last(run.state.log).content, status, None, None))
  }

  /** `process_run`: run the graph, then report the last message and whether approval is required. */
  method ProcessRun(g: CompiledGraph, t: string, input: Option<seq<Message>>, env: Environment)
    returns (r: Result<ChatResponse, ApiError>)
    requires g.Valid()
    modifies g
    ensures g.Valid()
    ensures var run := Agent.Stream(old(g.StateOf(t)), input, env);
      g.StateOf(t) == run.state && r == Report(t, run)
    ensures g.threads - {t} == old(g.threads) - {t}
  {
    var outcome := g.Stream(t, input, env);
    if outcome == RecursionLimitHit {
      return Err(ServerError);
    }
    var snapshot := g.GetState(t);
    var status := if snapshot.pending == Some(HumanApprovalNode) then ApprovalRequired else Done;
    if |snapshot.log| == 0 {
      return Ok(ChatResponse(t, NoStateText, Done, None, None));
    }
    r := Ok(ChatResponse(t, Last(snapshot.log).content, status, None, None));
  }

  // ---------------------------------------------------------------- /chat

  datatype ChatRequest = ChatRequest(message: string, threadId: Option<string>, autoExecute: bool)

  /** `request.thread_id or str(uuid.uuid4())`: an empty id counts as missing. */
  function ThreadIdFor(requested: Option<string>, newId: string): (r: string)
    ensures r == newId || (requested.Some? && r == requested.value)
    ensures newId != "" ==> r != ""
  {
    if requested.Some? && requested.value != "" then requested.value else newId
  }

  /** The graph invocation of one chat message: rejection feedback and a resume on a paused
      thread, a fresh human message otherwise. */
  function ChatTurn(st: ThreadState, message: string, env: Environment): (r: RunResult)
    requires Consistent(st)
    ensures Consistent(r.state)
  {
    if Paused(st) then Agent.Stream(Update(st, [Human(Rejection(message))]), None, env)
    else Agent.Stream(st, Some([Human(message)]), env)
  }

  /** A chat message keeps the conversation: the old log, then the message (as rejection feedback
      on a paused thread), begin the log the turn leaves. */
  lemma ChatTurnKeepsHistory(st: ThreadState, message: string, env: Environment)
    requires Consistent(st)
    ensures st.log + [Human(if Paused(st) then Rejection(message) else message)] <= ChatTurn(st, message, env).state.log
  {
    if Paused(st) {
      var st' := Update(st, [Human(Rejection(message))]);
      RunAppends(st'.log, st'.pending.value, RecursionLimit - 1, env);
    } else {
      RunAppends(st.log + [Human(message)], EntryNode, RecursionLimit - 1, env);
    }
  }

  /** On a paused thread a chat message is rejection feedback: it follows the proposal in the log
      and the agent answers it. */
  lemma ChatOnPausedThreadRejects(st: ThreadState, message: string, env: Environment)
    requires Consistent(st) && Paused(st)
    ensures var fb := st.log + [Human(Rejection(message))];
      fb + [AI(env.llm(fb).content, env.llm(fb).toolCalls)] <= ChatTurn(st, message, env).state.log
  {
    RejectionIsNotControlMessage(message);
    FeedbackReentersAgent(st.log, Rejection(message), RecursionLimit - 2, env);
  }

  /** On any other thread a chat message is new input: the agent answers it first. */
  lemma ChatOnOpenThreadStartsTurn(st: ThreadState, message: string, env: Environment)
    requires Consistent(st) && !Paused(st)
    ensures var input := st.log + [Human(message)];
      input + [AI(env.llm(input).content, env.llm(input).toolCalls)] <= ChatTurn(st, message, env).state.log
  {
    RunAppendsAfterFirst(st.log + [Human(message)], AgentNode, RecursionLimit - 1, env);
  }

  /** `/chat`. */
  method Chat(g: CompiledGraph, request: ChatRequest, freshId: string, env: Environment)
    returns (r: Result<ChatResponse, ApiError>)
    requires g.Valid()
    modifies g
    ensures g.Valid()
    ensures var t := ThreadIdFor(request.threadId, freshId);
      g.threads - {t} == old(g.threads) - {t}
    ensures var t := ThreadIdFor(request.threadId, freshId);
      var turn := ChatTurn(old(g.StateOf(t)), request.message, env);
      !(request.autoExecute && turn.outcome == Interrupted) ==>
        g.StateOf(t) == turn.state && r == Report(t, turn)
    ensures var t := ThreadIdFor(request.threadId, freshId);
      var turn := ChatTurn(old(g.StateOf(t)), request.message, env);
      request.autoExecute && turn.outcome == Interrupted ==>
        var q := ExtractQuery(Last(turn.state.log).content);
        var local := LocalOutcome(env.db(q));
        if Failed(local.error) then
          && g.StateOf(t) == turn.state
          && r == Ok(ChatResponse(t, "Error executing query (Auto-Mode): " + local.error.value, Done, None, Some(q)))
        else
          && g.StateOf(t) == ThreadState(turn.state.log + [Human(SystemSignal)], None)
          && r == Ok(ChatResponse(t, "**Auto Execution Result**:\n\n" + local.text, Done, local.data, Some(q)))
  {
    var t := ThreadIdFor(request.threadId, freshId);
    var snapshot := g.GetState(t);
    var paused := snapshot.pending == Some(HumanApprovalNode);
    if paused {
      g.UpdateState(t, [Human(Rejection(request.message))]);
    }
    var input := if paused then None else Some([Human(request.message)]);
    r := ProcessRun(g, t, input, env);
    if request.autoExecute && r.Ok? && r.value.status == ApprovalRequired {
      var query := ExtractQuery(r.value.response);
      var local := ExecuteAndClose(g, t, query, env);
      if Failed(local.error) {
        return Ok(ChatResponse(t, "Error executing query (Auto-Mode): " + local.error.value, Done, None, Some(query)));
      }
      r := Ok(ChatResponse(t, "**Auto Execution Result**:\n\n" + local.text, Done, local.data, Some(query)));
    }
  }

  /**
   * The shared tail of approving a paused thread: execute the query locally and, unless it
   * reports an error, append the control message and resume, which ends the turn.
   */
  method ExecuteAndClose(g: CompiledGraph, t: string, query: string, env: Environment)
    returns (local: LocalResult)
    requires g.Valid() && Paused(g.StateOf(t))
    modifies g
    ensures g.Valid()
    ensures local == LocalOutcome(env.db(query))
    ensures Failed(local.error) ==> g.threads == old(g.threads)
    ensures !Failed(local.error) ==>
      && g.StateOf(t) == ThreadState(old(g.StateOf(t)).log + [Human(SystemSignal)], None)
      && g.threads - {t} == old(g.threads) - {t}
  {
    local := ExecuteQueryLocally(query, env.db);
    if Failed(local.error) {
      return;
    }
    ghost var log := g.StateOf(t).log;
    g.UpdateState(t, [Human(SystemSignal)]);
    SignalIsControlMessage();
    SignalClosesRun(log, SystemSignal, RecursionLimit - 1, env);
    var _ := g.Stream(t, None, env);
  }

  // ---------------------------------------------------------------- /approval

  datatype ApprovalRequest = ApprovalRequest(decision: string, feedback: Option<string>, threadId: string)

  /** `request.feedback or "Rejected."`. */
  function FeedbackOrDefault(feedback: Option<string>): (r: string)
    ensures r != ""
    ensures r == "Rejected." || (feedback.Some? && r == feedback.value)
  {
    if feedback.Some? && feedback.value != "" then feedback.value else "Rejected."
  }

  /** `/approval`. */
  method Approval(g: CompiledGraph, request: ApprovalRequest, env: Environment)
    returns (r: Result<ChatResponse, ApiError>)
    requires g.Valid()
    modifies g
    ensures g.Valid()
    ensures var t := request.threadId;
      g.threads - {t} == old(g.threads) - {t}
    ensures var st := old(g.StateOf(request.threadId));
      !Paused(st) ==> r == Err(BadRequest(NotWaitingText)) && g.threads == old(g.threads)
    ensures var t := request.threadId;
      var st := old(g.StateOf(t));
      Paused(st) && request.decision == "approve" ==>
        var q := ExtractQuery(Last(st.log).content);
        var local := LocalOutcome(env.db(q));
        if Failed(local.error) then
          && g.threads == old(g.threads)
          && r == Ok(ChatResponse(t, QueryErrorPrefix + local.error.value, Done, None, Some(q)))
        else
          && g.StateOf(t) == ThreadState(st.log + [Human(SystemSignal)], None)
          && r == Ok(ChatResponse(t, "**Execution Result**:\n\n" + local.text, Done, local.data, Some(q)))
    ensures var t := request.threadId;
      var st := old(g.StateOf(t));
      Paused(st) && request.decision != "approve" ==>
        var run := Agent.Stream(Update(st, [Human(Rejection(FeedbackOrDefault(request.feedback)))]), None, env);
        g.StateOf(t) == run.state && r == Report(t, run)
  {
    var t := request.threadId;
    var snapshot := g.GetState(t);
    if snapshot.pending != Some(HumanApprovalNode) {
      return Err(BadRequest(NotWaitingText));
    }
    if request.decision == "approve" {
      var content := Last(snapshot.log).content;
      var query := ExtractQuery(content);
      var local := ExecuteAndClose(g, t, query, env);
      if Failed(local.error) {
        return Ok(ChatResponse(t, QueryErrorPrefix + local.error.value, Done, None, Some(query)));
      }
      r := Ok(ChatResponse(t, "**Execution Result**:\n\n" + local.text, Done, local.data, Some(query)));
    } else {
      var feedback := FeedbackOrDefault(request.feedback);
      g.UpdateState(t, [Human(Rejection(feedback))]);
      r := ProcessRun(g, t, None, env);
    }
  }
}
