/**
 * The interactive console session: on a paused thread the user approves
 * (the proposed query is executed locally and printed as a padded table,
 * then the turn is closed with the control message) or rejects with
 * feedback (the agent resumes); otherwise each input line is a new turn,
 * until `exit` or `quit`. Of the console output, the model keeps what the
 * approval path prints: the extraction warning and the execution result.
 */
module Cli {

  import opened Wrappers
  import opened Strings
  import opened Agent
  import opened Runtime
  import Api

  // ---------------------------------------------------------------- extracting the query

  const WarningText := "Warning: " + "No SQL code block found. Trying to execute entire message..."

  /** The console's extraction: the API's query, plus whether the no-fenced-block warning is printed,
      which happens when the whole message is taken and does not begin with SELECT or WITH in any case. */
  function ExtractQueryWithWarning(content: string): (r: (string, bool))
    ensures r.0 == Api.ExtractQuery(content)
    ensures r.1 ==> Api.FencedBlock(content).None?
  {
    match Api.FencedBlock(content)
    case Some((a, k)) => (Strip(content[a..k]), false)
    case None =>
      var candidate := Strip(content);
      var upper := Upper(candidate);
      (candidate, !StartsWith(upper, "SELECT") && !StartsWith(upper, "WITH"))
  }

  /** Upper-casing preserves a prefix relation. */
  lemma UpperKeepsPrefix(s: string, p: string)
    requires StartsWith(s, p)
    ensures StartsWith(Upper(s), Upper(p))
  {
    assert Upper(s)[..|p|] == Upper(p);
  }

  /** A bare message that begins with a SELECT or WITH keyword, in any letter case, is executed without a warning. */
  lemma KeywordQueryHasNoWarning(content: string, keyword: string)
    requires Upper(keyword) == "SELECT" || Upper(keyword) == "WITH"
    requires StartsWith(Strip(content), keyword)
    ensures !ExtractQueryWithWarning(content).1
  {
    UpperKeepsPrefix(Strip(content), keyword);
  }

  /** Any other bare message, the empty one included, is executed with a warning. */
  lemma OtherMessageWarns(content: string)
    requires forall i: nat, a: nat, k: nat :: !Api.PatternAt(content, i, a, k)
    requires !StartsWith(Upper(Strip(content)), "SELECT") && !StartsWith(Upper(Strip(content)), "WITH")
    ensures ExtractQueryWithWarning(content).1
  {
    Api.FencedBlockIsSearch(content);
  }

  // ---------------------------------------------------------------- column widths

  function Max(a: nat, b: nat): nat
  {
    if a < b then b else a
  }

  /** Every row has at most one cell per column; a longer row makes the width update index past the list. */
  predicate Fits(columns: seq<string>, rows: seq<seq<string>>)
  {
    forall r :: 0 <= r < |rows| ==> |rows[r]| <= |columns|
  }

  /** The width of column `c` after scanning `rows`: the widest of its header and its cells. */
  function ColumnWidth(columns: seq<string>, rows: seq<seq<string>>, c: nat): nat
    requires c < |columns|
  {
    if |rows| == 0 then |columns[c]|
    else
      var last := rows[|rows| - 1];
      var w := ColumnWidth(columns, rows[..|rows| - 1], c);
      if c < |last| then Max(w, |last[c]|) else w
  }

  function Widths(columns: seq<string>, rows: seq<seq<string>>): (w: seq<nat>)
    ensures |w| == |columns|
  {
    seq(|columns|, c requires 0 <= c < |columns| => ColumnWidth(columns, rows, c))
  }

  /** A column is at least as wide as its header and every one of its cells. */
  lemma {:induction false} ColumnWidthBounds(columns: seq<string>, rows: seq<seq<string>>, c: nat)
    requires c < |columns|
    ensures |columns[c]| <= ColumnWidth(columns, rows, c)
    ensures forall r :: 0 <= r < |rows| && c < |rows[r]| ==> |rows[r][c]| <= ColumnWidth(columns, rows, c)
    decreases |rows|
  {
    if |rows| > 0 {
      var init := rows[..|rows| - 1];
      ColumnWidthBounds(columns, init, c);
      forall r | 0 <= r < |rows| - 1 && c < |rows[r]| ensures |rows[r][c]| <= ColumnWidth(columns, rows, c) {
        assert rows[r] == init[r];
      }
    }
  }

  /** A column is no wider than needed: its width is its header's or one of its cells'. */
  lemma {:induction false} ColumnWidthAttained(columns: seq<string>, rows: seq<seq<string>>, c: nat)
    requires c < |columns|
    ensures ColumnWidth(columns, rows, c) == |columns[c]|
      || exists r :: 0 <= r < |rows| && c < |rows[r]| && ColumnWidth(columns, rows, c) == |rows[r][c]|
    decreases |rows|
  {
    if |rows| > 0 {
      var init := rows[..|rows| - 1];
      ColumnWidthAttained(columns, init, c);
      if ColumnWidth(columns, rows, c) != |columns[c]| && ColumnWidth(columns, rows, c) == ColumnWidth(columns, init, c) {
        var r :| 0 <= r < |init| && c < |init[r]| && ColumnWidth(columns, init, c) == |init[r][c]|;
        assert rows[r] == init[r];
      }
    }
  }

  /** Scanning one more row widens each column to that row's cell, if it has one. */
  lemma ColumnWidthStep(columns: seq<string>, rows: seq<seq<string>>, r: nat, c: nat)
    requires r < |rows| && c < |columns|
    ensures ColumnWidth(columns, rows[..r + 1], c) ==
      if c < |rows[r]| then Max(ColumnWidth(columns, rows[..r], c), |rows[r][c]|) else ColumnWidth(columns, rows[..r], c)
  {
    assert rows[..r + 1][..r] == rows[..r];
  }

  /** The width scan: one entry per column, widened in place row by row; `None` when a row is too long. */
  method ComputeWidths(columns: seq<string>, rows: seq<seq<string>>) returns (r: Option<seq<nat>>)
    ensures r.None? <==> !Fits(columns, rows)
    ensures r.Some? ==> r.value == Widths(columns, rows)
  {
    var widths := new nat[|columns|](c requires 0 <= c < |columns| => |columns[c]|);
    var n := 0;
    while n < |rows|
      invariant 0 <= n <= |rows|
      invariant Fits(columns, rows[..n])
      invariant forall c :: 0 <= c < |columns| ==> widths[c] == ColumnWidth(columns, rows[..n], c)
    {
      var row := rows[n];
      var i := 0;
      while i < |row|
        invariant 0 <= i <= |row| && i <= |columns|
        invariant forall c :: 0 <= c < |columns| ==>
          widths[c] == if c < i then ColumnWidth(columns, rows[..n + 1], c) else ColumnWidth(columns, rows[..n], c)
      {
        if i >= widths.Length {
          return None;
        }
        ColumnWidthStep(columns, rows, n, i);
        widths[i] := Max(widths[i], |row[i]|);
        i := i + 1;
      }
      forall c | 0 <= c < |columns| ensures widths[c] == ColumnWidth(columns, rows[..n + 1], c) {
        ColumnWidthStep(columns, rows, n, c);
      }
      assert forall m :: 0 <= m < n + 1 ==> rows[..n + 1][m] == rows[m];
      n := n + 1;
    }
    assert rows[..n] == rows;
    r := Some(widths[..]);
  }

  // ---------------------------------------------------------------- the console table

  /** The cells padded to their column widths; `zip` stops at the shorter of the two. */
  function PaddedCells(cells: seq<string>, widths: seq<nat>): (r: seq<string>)
    ensures |r| == if |cells| < |widths| then |cells| else |widths|
    ensures forall i :: 0 <= i < |r| ==> r[i] == LJust(cells[i], widths[i])
  {
    var n := if |cells| < |widths| then |cells| else |widths|;
    seq(n, i requires 0 <= i < n => LJust(cells[i], widths[i]))
  }

  function PaddedRow(cells: seq<string>, widths: seq<nat>): string
  {
    Join(" | ", PaddedCells(cells, widths))
  }

  function Dashes(widths: seq<nat>): (r: seq<string>)
    ensures |r| == |widths|
    ensures forall i :: 0 <= i < |r| ==> r[i] == Repeat('-', widths[i])
  {
    seq(|widths|, i requires 0 <= i < |widths| => Repeat('-', widths[i]))
  }

  function SeparatorLine(widths: seq<nat>): string
  {
    Join("-+-", Dashes(widths))
  }

  const Banner := Repeat('=', 33) + " Execution Result " + Repeat('=', 33)
  const Closing := "\n" + Repeat('=', 84)

  /** The printed lines: a blank line, the banner, the header, the separator and one line per row. */
  function ConsoleLines(columns: seq<string>, rows: seq<seq<string>>, widths: seq<nat>): (lines: seq<string>)
    ensures |lines| == 4 + |rows|
    ensures lines[2] == PaddedRow(columns, widths) && lines[3] == SeparatorLine(widths)
    ensures forall i :: 0 <= i < |rows| ==> lines[4 + i] == PaddedRow(rows[i], widths)
  {
    ["", Banner, PaddedRow(columns, widths), SeparatorLine(widths)]
      + seq(|rows|, i requires 0 <= i < |rows| => PaddedRow(rows[i], widths))
  }

  /** What the console prints for a query's outcome, or the text of the exception raised on the way. */
  function ShowResult(outcome: DbOutcome): (r: Result<seq<string>, string>)
    ensures r.Err? <==> outcome.DbError? || (|outcome.rows| > 0 && !Fits(outcome.columns, outcome.rows))
  {
    match outcome
    case DbError(e) => Err(e)
    case Rows(columns, rows) =>
      if |rows| == 0 then Ok(["\n" + Api.NoResultsText])
      else if !Fits(columns, rows) then Err(IndexErrorText)
      else Ok([Join("\n", ConsoleLines(columns, rows, Widths(columns, rows))), Closing])
  }

  const IndexErrorText := "list index out of range"

  /** Equal element lengths give equal total lengths. */
  lemma {:induction false} SumLengthsPointwise(a: seq<string>, b: seq<string>)
    requires |a| == |b| && forall i :: 0 <= i < |a| ==> |a[i]| == |b[i]|
    ensures SumLengths(a) == SumLengths(b)
    decreases |a|
  {
    if |a| > 0 {
      SumLengthsPointwise(a[1..], b[1..]);
    }
  }

  /** Header, separator and every full row of the console table have the same length. */
  lemma ConsoleTableAligned(columns: seq<string>, rows: seq<seq<string>>, k: nat)
    requires |columns| > 0 && Fits(columns, rows)
    requires k < |rows| && |rows[k]| == |columns|
    ensures var w := Widths(columns, rows);
      |PaddedRow(rows[k], w)| == |SeparatorLine(w)| && |PaddedRow(columns, w)| == |SeparatorLine(w)|
  {
    var w := Widths(columns, rows);
    var header, row, dashes := PaddedCells(columns, w), PaddedCells(rows[k], w), Dashes(w);
    forall c | 0 <= c < |columns| ensures |header[c]| == w[c] && |row[c]| == w[c] {
      ColumnWidthBounds(columns, rows, c);
    }
    SumLengthsPointwise(header, dashes);
    SumLengthsPointwise(row, dashes);
    JoinLength(" | ", header);
    JoinLength(" | ", row);
    JoinLength("-+-", dashes);
  }

  /** Every cell appears, left-aligned, in its column of the printed row. */
  lemma ConsoleCellsLeftAligned(columns: seq<string>, rows: seq<seq<string>>, k: nat, c: nat)
    requires Fits(columns, rows)
    requires k < |rows| && c < |rows[k]|
    ensures var padded := PaddedCells(rows[k], Widths(columns, rows));
      |padded[c]| == ColumnWidth(columns, rows, c) && padded[c][..|rows[k][c]|] == rows[k][c]
  {
    ColumnWidthBounds(columns, rows, c);
  }

  /** The console's rendering of a query outcome: the width scan, then one padded line per row. */
  method RenderResult(outcome: DbOutcome) returns (r: Result<seq<string>, string>)
    ensures r == ShowResult(outcome)
  {
    match outcome {
      case DbError(e) =>
        return Err(e);
      case Rows(columns, rows) =>
        if |rows| == 0 {
          return Ok(["\n" + Api.NoResultsText]);
        }
        var widths := ComputeWidths(columns, rows);
        if widths.None? {
          return Err(IndexErrorText);
        }
        var w := widths.value;
        var body: seq<string> := [];
        var i := 0;
        while i < |rows|
          invariant 0 <= i <= |rows|
          invariant |body| == i
          invariant forall m :: 0 <= m < i ==> body[m] == PaddedRow(rows[m], w)
        {
          body := body + [PaddedRow(rows[i], w)];
          i := i + 1;
        }
        RowLinesMakeConsoleTable(columns, rows, w, body);
        r := Ok([Join("\n", ["", Banner, PaddedRow(columns, w), SeparatorLine(w)] + body), Closing]);
    }
  }

  /** The fixed head lines followed by one padded line per row are the console table. */
  lemma RowLinesMakeConsoleTable(columns: seq<string>, rows: seq<seq<string>>, widths: seq<nat>, body: seq<string>)
    requires |body| == |rows| && forall m :: 0 <= m < |rows| ==> body[m] == PaddedRow(rows[m], widths)
    ensures ["", Banner, PaddedRow(columns, widths), SeparatorLine(widths)] + body == ConsoleLines(columns, rows, widths)
  {
  }

  // ---------------------------------------------------------------- one console turn

  /** One turn of the session: the new thread state, how many input lines it read, what it printed,
      and whether the user asked to leave. */
  datatype Turn = Turn(state: ThreadState, consumed: nat, printed: seq<string>, exit: bool)

  const ExitWords := ["exit", "quit"]

  /** The approval branch of a turn: extract, execute and print; only when that raised nothing,
      append the control message and resume. */
  function ApproveTurn(st: ThreadState, env: Environment): (r: Turn)
    requires Consistent(st) && Paused(st)
    ensures r.consumed == 1 && !r.exit && Consistent(r.state)
  {
    var content := Last(st.log).content;
    var query := ExtractQueryWithWarning(content).0;
    var printed := ApprovalOutput(content, env.db(query));
    match ShowResult(env.db(query))
    case Err(_) => Turn(st, 1, printed, false)
    case Ok(_) => Turn(Agent.Stream(Update(st, [Human(Api.SystemSignal)]), None, env).state, 1, printed, false)
  }

  /** What approving prints: the extraction warning, if any, then the result table or the error.
      The warning comes first exactly when the extraction warns. */
  function ApprovalOutput(content: string, outcome: DbOutcome): (printed: seq<string>)
    ensures |printed| > 0 && (ExtractQueryWithWarning(content).1 <==> printed[0] == WarningText)
  {
    var warning := if ExtractQueryWithWarning(content).1 then [WarningText] else [];
    match ShowResult(outcome)
    case Err(e) =>
      var line := "\n" + QueryErrorPrefix + e;
      assert line[0] == '\n';
      warning + [line]
    case Ok(out) => ShownOutputStartsOnNewLine(outcome); warning + out
  }


  /** What a successful execution prints starts on a fresh line. */
  lemma ShownOutputStartsOnNewLine(outcome: DbOutcome)
    requires ShowResult(outcome).Ok?
    ensures var out := ShowResult(outcome).value; |out| > 0 && |out[0]| > 0 && out[0][0] == '\n'
  {
    if outcome.Rows? && |outcome.rows| > 0 {
      var lines := ConsoleLines(outcome.columns, outcome.rows, Widths(outcome.columns, outcome.rows));
      assert Join("\n", lines) == lines[0] + "\n" + Join("\n", lines[1..]);
    }
  }

  /** The turn the console runs on the next input lines. */
  function ConsoleTurn(st: ThreadState, lines: seq<string>, env: Environment): (r: Turn)
    requires Consistent(st) && |lines| > 0
    ensures 1 <= r.consumed <= |lines| && r.consumed <= 2 && Consistent(r.state)
    ensures r.exit ==> r.state == st
  {
    if Paused(st) then
      if Lower(Strip(lines[0])) == "y" then ApproveTurn(st, env)
      else if |lines| < 2 then Turn(st, 1, [], false)
      else Turn(Agent.Stream(Update(st, [Human(Api.Rejection(Strip(lines[1])))]), None, env).state, 2, [], false)
    else if Lower(lines[0]) in ExitWords then Turn(st, 1, [], true)
    else Turn(Agent.Stream(st, Some([Human(lines[0])]), env).state, 1, [], false)
  }

  /** An approved query that runs and prints closes the turn: the control message is logged and nothing is pending. */
  lemma ApprovedTurnCloses(st: ThreadState, lines: seq<string>, env: Environment)
    requires Consistent(st) && Paused(st) && |lines| > 0 && Lower(Strip(lines[0])) == "y"
    requires ShowResult(env.db(ExtractQueryWithWarning(Last(st.log).content).0)).Ok?
    ensures ConsoleTurn(st, lines, env).state == ThreadState(st.log + [Human(Api.SystemSignal)], None)
  {
    Api.SignalIsControlMessage();
    SignalClosesRun(st.log, Api.SystemSignal, RecursionLimit - 1, env);
  }

  /** A query that fails, in the database or in the width scan, leaves the thread paused for another decision. */
  lemma FailedApprovalStaysPaused(st: ThreadState, lines: seq<string>, env: Environment)
    requires Consistent(st) && Paused(st) && |lines| > 0 && Lower(Strip(lines[0])) == "y"
    requires ShowResult(env.db(ExtractQueryWithWarning(Last(st.log).content).0)).Err?
    ensures ConsoleTurn(st, lines, env).state == st && Paused(ConsoleTurn(st, lines, env).state)
  {
  }

  /** Any other decision reads feedback and sends it to the agent, which answers it. */
  lemma RejectedTurnResumesAgent(st: ThreadState, lines: seq<string>, env: Environment)
    requires Consistent(st) && Paused(st) && |lines| >= 2 && Lower(Strip(lines[0])) != "y"
    ensures var fb := st.log + [Human(Api.Rejection(Strip(lines[1])))];
      var turn := ConsoleTurn(st, lines, env);
      turn.consumed == 2 && fb + [AI(env.llm(fb).content, env.llm(fb).toolCalls)] <= turn.state.log
  {
    Api.RejectionIsNotControlMessage(Strip(lines[1]));
    FeedbackReentersAgent(st.log, Api.Rejection(Strip(lines[1])), RecursionLimit - 2, env);
  }

  /** The console and the `/approval` endpoint agree: an approved query that runs leaves the same thread state. */
  lemma ConsoleApprovalMatchesApi(st: ThreadState, lines: seq<string>, env: Environment)
    requires Consistent(st) && Paused(st) && |lines| > 0 && Lower(Strip(lines[0])) == "y"
    requires var q := Api.ExtractQuery(Last(st.log).content);
      env.db(q).Rows? && Fits(env.db(q).columns, env.db(q).rows)
    ensures !Api.Failed(Api.LocalOutcome(env.db(Api.ExtractQuery(Last(st.log).content))).error)
    ensures ConsoleTurn(st, lines, env).state == ThreadState(st.log + [Human(Api.SystemSignal)], None)
  {
    ApprovedTurnCloses(st, lines, env);
  }

  /** One iteration of the session loop: read the decision or the input line and act on it through the graph. */
  method ConsoleStep(g: CompiledGraph, t: string, lines: seq<string>, env: Environment)
    returns (consumed: nat, printed: seq<string>, exit: bool)
    requires g.Valid() && |lines| > 0
    modifies g
    ensures g.Valid()
    ensures var turn := ConsoleTurn(old(g.StateOf(t)), lines, env);
      g.StateOf(t) == turn.state && consumed == turn.consumed && printed == turn.printed && exit == turn.exit
    ensures g.threads - {t} == old(g.threads) - {t}
  {
    var snapshot := g.GetState(t);
    if snapshot.pending == Some(HumanApprovalNode) {
      var decision := Lower(Strip(lines[0]));
      if decision == "y" {
        printed := ConsoleApprove(g, t, env);
        return 1, printed, false;
      }
      if |lines| < 2 {
        return 1, [], false;
      }
      var feedback := Strip(lines[1]);
      g.UpdateState(t, [Human(Api.Rejection(feedback))]);
      var _ := g.Stream(t, None, env);
      return 2, [], false;
    }
    if Lower(lines[0]) in ExitWords {
      return 1, [], true;
    }
    var _ := g.Stream(t, Some([Human(lines[0])]), env);
    return 1, [], false;
  }

  /** The approval branch of one iteration, through the graph. */
  method ConsoleApprove(g: CompiledGraph, t: string, env: Environment) returns (printed: seq<string>)
    requires g.Valid() && Paused(g.StateOf(t))
    modifies g
    ensures g.Valid()
    ensures var turn := ApproveTurn(old(g.StateOf(t)), env);
      g.StateOf(t) == turn.state && printed == turn.printed
    ensures g.threads - {t} == old(g.threads) - {t}
  {
    var snapshot := g.GetState(t);
    var content := Last(snapshot.log).content;
    var (query, warn) := ExtractQueryWithWarning(content);
    printed := if warn then [WarningText] else [];
    var shown := RenderResult(env.db(query));
    if shown.Err? {
      return printed + ["\n" + QueryErrorPrefix + shown.error];
    }
    printed := printed + shown.value;
    g.UpdateState(t, [Human(Api.SystemSignal)]);
    var _ := g.Stream(t, None, env);
  }

  // ---------------------------------------------------------------- the session

  datatype SessionEnd = SessionEnd(state: ThreadState, printed: seq<string>)

  /** The session over the whole input: turns until the user leaves or the input runs out. */
  function Session(st: ThreadState, lines: seq<string>, env: Environment): (r: SessionEnd)
    requires Consistent(st)
    ensures Consistent(r.state)
    decreases |lines|
  {
    if |lines| == 0 then SessionEnd(st, [])
    else
      var turn := ConsoleTurn(st, lines, env);
      if turn.exit then SessionEnd(turn.state, turn.printed)
      else
        var rest := Session(turn.state, lines[turn.consumed..], env);
        SessionEnd(rest.state, turn.printed + rest.printed)
  }

  /** Leaving is only possible between turns, and it leaves the conversation as it was. */
  lemma ExitEndsSession(st: ThreadState, lines: seq<string>, env: Environment)
    requires Consistent(st) && !Paused(st) && |lines| > 0 && Lower(lines[0]) in ExitWords
    ensures Session(st, lines, env) == SessionEnd(st, [])
  {
  }

  /** While a query awaits approval, "exit" is a decision like any other: a rejection with feedback. */
  lemma ExitWhilePausedRejects(st: ThreadState, lines: seq<string>, env: Environment)
    requires Consistent(st) && Paused(st) && |lines| >= 2 && lines[0] == "exit"
    ensures !ConsoleTurn(st, lines, env).exit && ConsoleTurn(st, lines, env).consumed == 2
  {
    assert Strip(lines[0]) == "exit";
    assert Lower("exit") == "exit";
  }

  /** Every conversation the session leaves behind extends the one it started from. */
  lemma {:induction false} SessionAppends(st: ThreadState, lines: seq<string>, env: Environment)
    requires Consistent(st)
    ensures st.log <= Session(st, lines, env).state.log
    decreases |lines|
  {
    if |lines| > 0 {
      var turn := ConsoleTurn(st, lines, env);
      TurnAppends(st, lines, env);
      if !turn.exit {
        SessionAppends(turn.state, lines[turn.consumed..], env);
      }
    }
  }

  lemma TurnAppends(st: ThreadState, lines: seq<string>, env: Environment)
    requires Consistent(st) && |lines| > 0
    ensures st.log <= ConsoleTurn(st, lines, env).state.log
  {
    if Paused(st) {
      if Lower(Strip(lines[0])) == "y" {
        var query := ExtractQueryWithWarning(Last(st.log).content).0;
        if ShowResult(env.db(query)).Ok? {
          ApprovedTurnCloses(st, lines, env);
        }
      } else if |lines| >= 2 {
        RejectedTurnResumesAgent(st, lines, env);
      }
    } else if Lower(lines[0]) !in ExitWords {
      RunAppends(st.log + [Human(lines[0])], AgentNode, RecursionLimit - 1, env);
    }
  }

  /** `run_interactive_session` over a given input: one turn per iteration until the user leaves or the input ends. */
  method RunInteractiveSession(g: CompiledGraph, t: string, lines: seq<string>, env: Environment)
    returns (printed: seq<string>)
    requires g.Valid()
    modifies g
    ensures g.Valid()
    ensures var r := Session(old(g.StateOf(t)), lines, env);
      g.StateOf(t) == r.state && printed == r.printed
    ensures g.threads - {t} == old(g.threads) - {t}
  {
    ghost var goal := Session(g.StateOf(t), lines, env);
    printed := [];
    var rest := lines;
    while |rest| > 0
      invariant g.Valid()
      invariant g.threads - {t} == old(g.threads) - {t}
      invariant goal.state == Session(g.StateOf(t), rest, env).state
      invariant goal.printed == printed + Session(g.StateOf(t), rest, env).printed
      decreases |rest|
    {
      ghost var before := g.StateOf(t);
      var consumed, out, exit := ConsoleStep(g, t, rest, env);
      SessionStep(before, rest, env);
      printed := printed + out;
      if exit {
        return;
      }
      rest := rest[consumed..];
    }
  }

  /** The session after its first turn: the turn's output followed by the rest of the session's. */
  lemma SessionStep(st: ThreadState, lines: seq<string>, env: Environment)
    requires Consistent(st) && |lines| > 0
    ensures var turn := ConsoleTurn(st, lines, env);
      var r := Session(st, lines, env);
      && (turn.exit ==> r == SessionEnd(turn.state, turn.printed))
      && (!turn.exit ==>
            var rest := Session(turn.state, lines[turn.consumed..], env);
            r.state == rest.state && forall p: seq<string> :: (p + turn.printed) + rest.printed == p + r.printed)
  {
    var turn := ConsoleTurn(st, lines, env);
    if !turn.exit {
      var rest := Session(turn.state, lines[turn.consumed..], env);
      assert Session(st, lines, env) == SessionEnd(rest.state, turn.printed + rest.printed);
      forall p: seq<string> ensures (p + turn.printed) + rest.printed == p + (turn.printed + rest.printed) {
      }
    }
  }
}
