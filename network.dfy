/** The agent network: the router and the bounded loop (`maxIter: 15`) that runs the code
    agent, captures the summary and dispatches its tool calls. */
module AgentNetwork {
  import opened Records
  import opened Text
  import opened FileMap
  import opened SandboxModel
  import opened Tools
  import opened History

  /** `maxIter` of the network. */
  const MaxIter: nat := 15

  /** What the router returns: nothing (stop), or the code agent. */
  datatype Decision = Halt | RunCodeAgent

  /** The router: stop once a summary is set, otherwise schedule the code agent. */
  function Route(summary: string): Decision
  {
    if summary != "" then Halt else RunCodeAgent
  }

  /** A tool invocation the agent emits, with what the sandbox does when it runs. */
  datatype ToolCall =
    | TerminalCall(command: string, run: CommandRun)
    | WriteFilesCall(writes: seq<FileEntry>, fault: Fault)
    | ReadFilesCall(paths: seq<string>, fault: Fault)

  /** What a tool hands back to the agent. createOrUpdateFiles returns nothing. */
  datatype ToolOutput = TerminalText(text: string) | NoOutput | ReadOutput(step: ReadStep)

  /** One agent turn: the last assistant text (if any) and the tool calls of that turn. */
  datatype Turn = Turn(lastText: Option<string>, calls: seq<ToolCall>)

  /** The code agent as an oracle: from the prompt, the history, the iteration number and
      every tool output so far, it produces the next turn. */
  type Agent = (string, seq<TextMessage>, nat, seq<ToolOutput>) -> Turn

  /** Everything a run can change: the agent state, the sandbox's files, and the tool
      outputs returned so far. */
  datatype World = World(summary: string, files: map<string, string>, fs: map<string, string>, outputs: seq<ToolOutput>)

  /** The effect of one tool call. */
  function ApplyCall(w: World, c: ToolCall): World
  {
    match c
    case TerminalCall(_, run) =>
      w.(fs := run.effect(w.fs), outputs := w.outputs + [TerminalText(TerminalOutput(run))])
    case WriteFilesCall(writes, fault) =>
      var done := writes[..Reached(fault, |writes|)];
      w.(files := Merge(w.files, done), fs := Merge(w.fs, done), outputs := w.outputs + [NoOutput])
    case ReadFilesCall(paths, fault) =>
      w.(outputs := w.outputs + [ReadOutput(ReadResult(w.fs, paths, fault))])
  }

  /** The tool calls of a turn, one after another. */
  function ApplyCalls(w: World, calls: seq<ToolCall>): World
    decreases |calls|
  {
    if calls == [] then w else ApplyCall(ApplyCalls(w, calls[..|calls| - 1]), calls[|calls| - 1])
  }

  /** One iteration: `onResponse` captures the summary, then the tools run. */
  function TakeTurn(w: World, t: Turn): World
  {
    ApplyCalls(w.(summary := CapturedSummary(w.summary, t.lastText)), t.calls)
  }

  /** The network loop from iteration `iter`: ask the router, run a turn, repeat, at most
      `MaxIter` turns in all. Yields the final world and the number of turns taken. */
  function Run(w: World, agent: Agent, prompt: string, history: seq<TextMessage>, iter: nat): (World, nat)
    decreases MaxIter - iter
  {
    if iter >= MaxIter || Route(w.summary) == Halt then (w, iter)
    else Run(TakeTurn(w, agent(prompt, history, iter, w.outputs)), agent, prompt, history, iter + 1)
  }

  /** The world after turns `iter` .. `k - 1`, with no router in between. */
  function After(w: World, agent: Agent, prompt: string, history: seq<TextMessage>, iter: nat, k: nat): World
    requires iter <= k
    decreases k - iter
  {
    if iter == k then w
    else After(TakeTurn(w, agent(prompt, history, iter, w.outputs)), agent, prompt, history, iter + 1, k)
  }

  /** The loop never runs more than `MaxIter` turns, and it ends with a summary or with
      the budget spent. */
  lemma {:induction false} RunBounded(w: World, agent: Agent, prompt: string, history: seq<TextMessage>, iter: nat)
    requires iter <= MaxIter
    ensures iter <= Run(w, agent, prompt, history, iter).1 <= MaxIter
    ensures Run(w, agent, prompt, history, iter).0.summary != "" || Run(w, agent, prompt, history, iter).1 == MaxIter
    decreases MaxIter - iter
  {
    if iter < MaxIter && Route(w.summary) == RunCodeAgent {
      RunBounded(TakeTurn(w, agent(prompt, history, iter, w.outputs)), agent, prompt, history, iter + 1);
    }
  }

  /** The loop halts at the first turn after which the summary is non-empty: every turn
      it ran started with an empty summary, and it ran exactly the turns it stopped after. */
  lemma {:induction false} RunHaltsAtFirstSummary(w: World, agent: Agent, prompt: string, history: seq<TextMessage>, iter: nat)
    requires iter <= MaxIter
    ensures var (final, n) := Run(w, agent, prompt, history, iter);
      && iter <= n
      && final == After(w, agent, prompt, history, iter, n)
      && forall k :: iter <= k < n ==> After(w, agent, prompt, history, iter, k).summary == ""
    decreases MaxIter - iter
  {
    if iter < MaxIter && Route(w.summary) == RunCodeAgent {
      var w' := TakeTurn(w, agent(prompt, history, iter, w.outputs));
      RunHaltsAtFirstSummary(w', agent, prompt, history, iter + 1);
      var (final, n) := Run(w', agent, prompt, history, iter + 1);
      forall k | iter <= k < n
        ensures After(w, agent, prompt, history, iter, k).summary == ""
      {
        if k > iter {
          assert After(w, agent, prompt, history, iter, k) == After(w', agent, prompt, history, iter + 1, k);
        }
      }
    }
  }

  /** A tool call never removes a key from the agent's files. */
  lemma ApplyCallKeepsFiles(w: World, c: ToolCall)
    ensures w.files.Keys <= ApplyCall(w, c).files.Keys
    ensures |w.files| <= |ApplyCall(w, c).files|
  {
    if c.WriteFilesCall? {
      MergeNeverShrinks(w.files, c.writes[..Reached(c.fault, |c.writes|)]);
    }
  }

  lemma {:induction false} ApplyCallsKeepFiles(w: World, calls: seq<ToolCall>)
    ensures w.files.Keys <= ApplyCalls(w, calls).files.Keys
    decreases |calls|
  {
    if calls != [] {
      ApplyCallsKeepFiles(w, calls[..|calls| - 1]);
      ApplyCallKeepsFiles(ApplyCalls(w, calls[..|calls| - 1]), calls[|calls| - 1]);
    }
  }

  /** Over a whole run, the set of file paths in the agent state only grows. */
  lemma {:induction false} RunKeepsFiles(w: World, agent: Agent, prompt: string, history: seq<TextMessage>, iter: nat)
    ensures w.files.Keys <= Run(w, agent, prompt, history, iter).0.files.Keys
    decreases MaxIter - iter
  {
    if iter < MaxIter && Route(w.summary) == RunCodeAgent {
      var t := agent(prompt, history, iter, w.outputs);
      ApplyCallsKeepFiles(w.(summary := CapturedSummary(w.summary, t.lastText)), t.calls);
      RunKeepsFiles(TakeTurn(w, t), agent, prompt, history, iter + 1);
    }
  }

  /** Tool calls never touch the summary. */
  lemma {:induction false} ApplyCallsKeepSummary(w: World, calls: seq<ToolCall>)
    ensures ApplyCalls(w, calls).summary == w.summary
    decreases |calls|
  {
    if calls != [] {
      ApplyCallsKeepSummary(w, calls[..|calls| - 1]);
    }
  }

  /** An agent that never writes the marker spends the whole budget and leaves the
      summary empty. */
  lemma {:induction false} NoMarkerSpendsBudget(w: World, agent: Agent, prompt: string, history: seq<TextMessage>, iter: nat)
    requires iter <= MaxIter
    requires w.summary == ""
    requires forall i: nat, outs: seq<ToolOutput> :: var t := agent(prompt, history, i, outs).lastText;
      !(t.Some? && Contains(t.value, TaskSummaryMarker))
    ensures Run(w, agent, prompt, history, iter).1 == MaxIter
    ensures Run(w, agent, prompt, history, iter).0.summary == ""
    decreases MaxIter - iter
  {
    if iter < MaxIter {
      var t := agent(prompt, history, iter, w.outputs);
      CaptureIffMarker(w.summary, t.lastText);
      ApplyCallsKeepSummary(w.(summary := CapturedSummary(w.summary, t.lastText)), t.calls);
      NoMarkerSpendsBudget(TakeTurn(w, t), agent, prompt, history, iter + 1);
    }
  }

  /** An agent whose first turn writes the marker stops the run after one turn. */
  lemma MarkerOnFirstTurnHalts(w: World, agent: Agent, prompt: string, history: seq<TextMessage>)
    requires w.summary == ""
    requires var t := agent(prompt, history, 0, w.outputs).lastText;
      t.Some? && Contains(t.value, TaskSummaryMarker)
    ensures Run(w, agent, prompt, history, 0).1 == 1
    ensures Run(w, agent, prompt, history, 0).0.summary == agent(prompt, history, 0, w.outputs).lastText.value
  {
    var t := agent(prompt, history, 0, w.outputs);
    CaptureIffMarker(w.summary, t.lastText);
    ApplyCallsKeepSummary(w.(summary := CapturedSummary(w.summary, t.lastText)), t.calls);
  }

  /** Run one tool call against the state and the sandbox. */
  method Dispatch(state: AgentState, sandbox: Sandbox, call: ToolCall, ghost outs: seq<ToolOutput>)
    returns (out: ToolOutput)
    modifies state, sandbox
    ensures World(state.summary, state.files, sandbox.fs, outs + [out])
      == ApplyCall(World(old(state.summary), old(state.files), old(sandbox.fs), outs), call)
  {
    match call
    case TerminalCall(_, run) =>
      var text := Terminal(run);
      sandbox.fs := run.effect(sandbox.fs);
      out := TerminalText(text);
    case WriteFilesCall(writes, fault) =>
      CreateOrUpdateFiles(state, sandbox, writes, fault);
      out := NoOutput;
    case ReadFilesCall(paths, fault) =>
      var step := ReadFiles(sandbox, paths, fault);
      out := ReadOutput(step);
  }

  /** One iteration of the loop: `onResponse`, then the turn's tool calls in order. */
  method RunTurn(state: AgentState, sandbox: Sandbox, turn: Turn, outputs: seq<ToolOutput>)
    returns (outputs': seq<ToolOutput>)
    modifies state, sandbox
    ensures World(state.summary, state.files, sandbox.fs, outputs')
      == TakeTurn(World(old(state.summary), old(state.files), old(sandbox.fs), outputs), turn)
  {
    ghost var before := World(state.summary, state.files, sandbox.fs, outputs);
    OnResponse(state, turn.lastText);
    ghost var captured := World(state.summary, state.files, sandbox.fs, outputs);
    assert captured == before.(summary := CapturedSummary(before.summary, turn.lastText));
    outputs' := outputs;
    for j := 0 to |turn.calls|
      invariant World(state.summary, state.files, sandbox.fs, outputs') == ApplyCalls(captured, turn.calls[..j])
    {
      assert turn.calls[..j + 1][..j] == turn.calls[..j];
      var out := Dispatch(state, sandbox, turn.calls[j], outputs');
      outputs' := outputs' + [out];
    }
    assert turn.calls[..|turn.calls|] == turn.calls;
  }

  /** `network.run(prompt, {state})`: the router decides before every turn, and the loop
      stops after `MaxIter` turns. Its outcome is the one `Run` describes. */
  method RunNetwork(state: AgentState, sandbox: Sandbox, agent: Agent, prompt: string, history: seq<TextMessage>)
    returns (iterations: nat, outputs: seq<ToolOutput>)
    modifies state, sandbox
    ensures (World(state.summary, state.files, sandbox.fs, outputs), iterations)
      == Run(World(old(state.summary), old(state.files), old(sandbox.fs), []), agent, prompt, history, 0)
  {
    ghost var start := World(state.summary, state.files, sandbox.fs, []);
    iterations, outputs := 0, [];
    while iterations < MaxIter && Route(state.summary) == RunCodeAgent
      invariant iterations <= MaxIter
      invariant Run(World(state.summary, state.files, sandbox.fs, outputs), agent, prompt, history, iterations)
        == Run(start, agent, prompt, history, 0)
      decreases MaxIter - iterations
    {
      var turn := agent(prompt, history, iterations, outputs);
      outputs := RunTurn(state, sandbox, turn, outputs);
      iterations := iterations + 1;
    }
  }
}
