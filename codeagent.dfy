/** The `code-agent` function as a whole: provisioning, history, the network run, output
    extraction, outcome classification, the single terminal message and the return value. */
module CodeAgent {
  import opened Records
  import opened Text
  import opened SandboxModel
  import opened Tools
  import opened History
  import opened AgentNetwork
  import opened MessageTable

  /** The content of an agent text output: a plain string or a list of text chunks. */
  datatype Content = Plain(text: string) | Parts(parts: seq<string>)

  /** An output element of a single-shot agent run: a text message, or any element whose
      `type` is not `"text"` (a tool call or a tool result). */
  datatype AgentOutput = TextOutput(content: Content) | OtherOutput

  /** The phrase used when the first output is not text. */
  const Fallback := "Here ou go...."

  /** `generateFragmentTitle` / `generateResponse`: read the first output. `None` stands for
      the TypeError of reading `.type` of a missing first element. */
  function GenerateText(outputs: seq<AgentOutput>): Option<string>
  {
    if outputs == [] then None
    else
      match outputs[0]
      case OtherOutput => Some(Fallback)
      case TextOutput(Parts(ps)) => Some(Concat(ps))
      case TextOutput(Plain(s)) => Some(s)
  }

  /** Only the first output decides the text, and a chunked text reads the same as the
      plain string it joins to. */
  lemma GenerateTextUsesFirstOutput(outputs: seq<AgentOutput>, parts: seq<string>)
    requires outputs != []
    ensures GenerateText(outputs) == GenerateText(outputs[..1])
    ensures outputs[0].OtherOutput? ==> GenerateText(outputs) == Some(Fallback)
    ensures outputs[0] == TextOutput(Parts(parts)) ==>
      GenerateText(outputs) == Some(Concat(parts)) && |GenerateText(outputs).value| == TotalLength(parts)
    ensures GenerateText([TextOutput(Parts(parts))]) == GenerateText([TextOutput(Plain(Concat(parts)))])
  {
    ConcatLength(parts);
  }

  /** `isError`: no summary, or no files. */
  predicate IsError(summary: string, files: map<string, string>)
  {
    summary == "" || |files| == 0
  }

  /** The fixed user-facing failure text. */
  const FailureText := "Something went wrong, please try again later."

  /** The label of every return value. */
  const ResultTitle := "Fragment"

  /** The port of the preview server inside the sandbox. */
  const PreviewPort := 3000

  /** The `get-sandbox-url` step's value from the host the sandbox reports. */
  function SandboxUrl(host: string): string
  {
    "https://" + host
  }

  /** The one message `save-result` writes. */
  function TerminalMessage(projectId: string, summary: string, files: map<string, string>,
                           url: string, response: string, title: string, now: int): Message
  {
    if IsError(summary, files) then
      Message(projectId, FailureText, ASSISTANT, ERROR, now, None)
    else
      Message(projectId, response, ASSISTANT, RESULT, now, Some(Fragment(url, title, files)))
  }

  /** Outcome rule: the message is an ERROR with the fixed text and no fragment exactly when
      the run has no summary or no files; otherwise it is a RESULT carrying the response and
      a fragment of the URL, the title and every file. */
  lemma TerminalMessageOutcome(projectId: string, summary: string, files: map<string, string>,
                               url: string, response: string, title: string, now: int)
    ensures var m := TerminalMessage(projectId, summary, files, url, response, title, now);
      && m.projectId == projectId && m.role == ASSISTANT
      && (m.kind == ERROR <==> (summary == "" || files == map[]))
      && (m.fragment.Some? <==> m.kind == RESULT)
      && (m.kind == ERROR ==> m.content == FailureText)
      && (m.kind == RESULT ==> m.content == response && m.fragment == Some(Fragment(url, title, files)))
  {
    if files != map[] {
      var p :| p in files;
      assert p in files.Keys;
    }
  }

  /** The function's return value `{url, title, files, summary}`. */
  datatype RunResult = RunResult(url: string, title: string, files: map<string, string>, summary: string)

  /** The whole run. `sandbox` is null when `Sandbox.create` throws; `historyFails` says that
      the history query throws; `reconnects` says whether `getSandbox` succeeds for the URL step,
      and `hostOf` is the sandbox's `getHost`. The title and response agents and
      `parseAgentOutput` are oracles. `None` is a run that aborted with an exception. */
  method CodeAgentFunction(event: RunEvent, store: MessageStore, sandbox: Sandbox?,
                           historyFails: bool, agent: Agent,
                           titleAgent: string -> seq<AgentOutput>, responseAgent: string -> seq<AgentOutput>,
                           parse: seq<AgentOutput> -> string,
                           reconnects: bool, hostOf: int -> string, now: int)
    returns (result: Option<RunResult>)
    modifies store, sandbox
    ensures sandbox == null ==> result == None && store.messages == old(store.messages)
    ensures sandbox != null && historyFails ==>
      result == None && store.messages == old(store.messages) && sandbox.fs == old(sandbox.fs)
    ensures sandbox != null && !historyFails ==>
      var history := Formatted(ProjectHistory(old(store.messages), event.projectId));
      var (final, _) := Run(World("", map[], old(sandbox.fs), []), agent, event.value, history, 0);
      var url := SandboxUrl(hostOf(PreviewPort));
      && sandbox.fs == final.fs
      && (reconnects ==>
            && result == Some(RunResult(url, ResultTitle, final.files, final.summary))
            && store.messages == old(store.messages) +
                 [TerminalMessage(event.projectId, final.summary, final.files, url,
                                  parse(responseAgent(final.summary)), parse(titleAgent(final.summary)), now)])
      && (!reconnects ==> result == None && store.messages == old(store.messages))
  {
    if sandbox == null {
      return None;
    }
    if historyFails {
      return None;
    }
    var previous := store.FindMany(event.projectId);
    var history := FormatHistory(previous);
    var state := new AgentState();
    var iterations, outputs := RunNetwork(state, sandbox, agent, event.value, history);
    var titleOutput := titleAgent(state.summary);
    var responseOutput := responseAgent(state.summary);
    var isError := IsError(state.summary, state.files);
    if !reconnects {
      return None;
    }
    var url := SandboxUrl(hostOf(PreviewPort));
    if isError {
      store.Create(Message(event.projectId, FailureText, ASSISTANT, ERROR, now, None));
    } else {
      store.Create(Message(event.projectId, parse(responseOutput), ASSISTANT, RESULT, now,
                           Some(Fragment(url, parse(titleOutput), state.files))));
    }
    result := Some(RunResult(url, ResultTitle, state.files, state.summary));
  }

  /** A run whose agent never writes the marker is classified as an error. */
  lemma NoMarkerIsError(agent: Agent, prompt: string, history: seq<TextMessage>, fs: map<string, string>)
    requires forall i: nat, outs: seq<ToolOutput> :: var t := agent(prompt, history, i, outs).lastText;
      !(t.Some? && Contains(t.value, TaskSummaryMarker))
    ensures var (final, n) := Run(World("", map[], fs, []), agent, prompt, history, 0);
      n == MaxIter && IsError(final.summary, final.files)
  {
    NoMarkerSpendsBudget(World("", map[], fs, []), agent, prompt, history, 0);
  }
}
