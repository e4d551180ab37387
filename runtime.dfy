/**
 * The compiled agent graph together with its in-memory checkpointer: per
 * conversation thread, the message log and the node pending after the last
 * invocation. `GetState`, `UpdateState` and `Stream` are the three graph
 * operations the API and the console session use.
 */
module Runtime {

  import opened Wrappers
  import opened Agent

  class CompiledGraph {

    /** The checkpoint of every thread seen so far, by thread id. */
    var threads: map<string, ThreadState>

    ghost predicate Valid()
      reads this
    {
      forall t :: t in threads ==> Consistent(threads[t])
    }

    /** The snapshot of thread `t`: empty, with nothing pending, for a thread never seen. */
    function StateOf(t: string): (st: ThreadState)
      reads this
      ensures Valid() ==> Consistent(st)
    {
      if t in threads then threads[t] else ThreadState([], None)
    }

    /** `create_agent_graph(checkpointer)`: the graph with an empty checkpointer. */
    constructor ()
      ensures Valid() && threads == map[]
    {
      threads := map[];
    }

    /** `graph.get_state(config)`. */
    method GetState(t: string) returns (st: ThreadState)
      requires Valid()
      ensures st == StateOf(t) && Consistent(st)
    {
      st := if t in threads then threads[t] else ThreadState([], None);
    }

    /** `graph.update_state(config, {"messages": msgs})`: append to the thread's log. */
    method UpdateState(t: string, msgs: seq<Message>)
      requires Valid()
      modifies this
      ensures Valid()
      ensures threads == old(threads)[t := Update(old(StateOf(t)), msgs)]
    {
      var st := GetState(t);
      threads := threads[t := ThreadState(st.log + msgs, st.pending)];
    }

    /**
     * `graph.stream(input, config)` run to completion: execute nodes one at a time on a
     * working copy of the thread's log, then commit it with the node left pending.
     */
    method Stream(t: string, input: Option<seq<Message>>, env: Environment) returns (outcome: Outcome)
      requires Valid()
      modifies this
      ensures Valid()
      ensures var r := Agent.Stream(old(StateOf(t)), input, env);
        outcome == r.outcome && StateOf(t) == r.state
      ensures threads - {t} == old(threads) - {t}
      ensures input.None? && old(StateOf(t)).pending.None? ==> threads == old(threads)
    {
      var st := GetState(t);
      var log: seq<Message>;
      var node: Node;
      match input {
        case Some(msgs) =>
          log, node := st.log + msgs, EntryNode;
        case None =>
          if st.pending.None? {
            return Finished;
          }
          log, node := st.log, st.pending.value;
      }
      var log', pending, outcome' := RunNodes(log, node, env);
      threads := threads[t := ThreadState(log', pending)];
      outcome := outcome';
    }
  }

  /**
   * The node loop of one invocation: execute a node, append what it returns, follow its
   * routing function, and stop at the end, before `human_approval`, or at the recursion limit.
   */
  method RunNodes(log0: seq<Message>, node0: Node, env: Environment)
    returns (log: seq<Message>, pending: Option<Node>, outcome: Outcome)
    requires node0 == AgentNode || |log0| > 0
    ensures RunResult(ThreadState(log, pending), outcome) == Run(log0, node0, RecursionLimit - 1, env)
  {
    log := log0;
    var node := node0;
    var budget: nat := RecursionLimit - 1;
    while true
      invariant node == AgentNode || |log| > 0
      invariant Run(log, node, budget, env) == Run(log0, node0, RecursionLimit - 1, env)
      decreases budget
    {
      log := log + Execute(node, log, env);
      var route := RouteAfter(node, log);
      if route.End? {
        return log, None, Finished;
      } else if route.node == InterruptBefore {
        return log, Some(route.node), Interrupted;
      } else if budget == 0 {
        return log, Some(route.node), RecursionLimitHit;
      }
      node, budget := route.node, budget - 1;
    }
  }
}
