/** The run-local agent state and the three tool handlers of the code agent
    (Terminal, createOrUpdateFiles, readFile), plus the `onResponse` summary capture. */
module Tools {
  import opened Records
  import opened Text
  import opened FileMap
  import opened SandboxModel

  /** `AgentState`, owned by one run: the completion summary and every file the agent wrote. */
  class AgentState {
    var summary: string
    var files: map<string, string>

    /** `createState({summary: "", files: {}})`. */
    constructor ()
      ensures summary == "" && files == map[]
    {
      summary := "";
      files := map[];
    }
  }

  // ---------------------------------------------------------------- Terminal

  /** One callback invocation while a command runs. */
  datatype StreamChunk = OnStdout(data: string) | OnStderr(data: string)

  /** How `sandbox.commands.run` ends: it resolves with its result's stdout, or it throws. */
  datatype CommandOutcome = Finished(stdout: string) | Threw(error: string)

  /** What the sandbox does for one command: the chunks it streams, in arrival order,
      how the call ends, and what the command does to the sandbox's file system.
      A failed reconnect is a run with no chunks that throws. */
  datatype CommandRun = CommandRun(
    chunks: seq<StreamChunk>,
    outcome: CommandOutcome,
    effect: map<string, string> -> map<string, string>)

  /** The stdout buffer after `chunks`: the stdout chunks, concatenated in order. */
  function StdoutOf(chunks: seq<StreamChunk>): string
    decreases |chunks|
  {
    if chunks == [] then ""
    else
      StdoutOf(chunks[..|chunks| - 1]) +
        match chunks[|chunks| - 1] case OnStdout(d) => d case OnStderr(_) => ""
  }

  /** The stderr buffer after `chunks`: the stderr chunks, concatenated in order. */
  function StderrOf(chunks: seq<StreamChunk>): string
    decreases |chunks|
  {
    if chunks == [] then ""
    else
      StderrOf(chunks[..|chunks| - 1]) +
        match chunks[|chunks| - 1] case OnStderr(d) => d case OnStdout(_) => ""
  }

  /** The text Terminal hands back to the agent when the command throws. */
  function FailureReport(error: string, stdout: string, stderr: string): string
  {
    "Command failed: " + error + "\nstdout: " + stdout + "\nStderr: " + stderr
  }

  /** The Terminal tool's value: stdout on success, otherwise the failure report. */
  function TerminalOutput(run: CommandRun): string
  {
    match run.outcome
    case Finished(out) => out
    case Threw(e) => FailureReport(e, StdoutOf(run.chunks), StderrOf(run.chunks))
  }

  /** The Terminal handler: the callbacks append to two buffers; the handler returns the
      command's stdout, and on an exception the report of it, never raising itself. */
  method Terminal(run: CommandRun) returns (output: string)
    ensures output == TerminalOutput(run)
  {
    var stdout, stderr := "", "";
    for i := 0 to |run.chunks|
      invariant stdout == StdoutOf(run.chunks[..i])
      invariant stderr == StderrOf(run.chunks[..i])
    {
      ghost var seen := run.chunks[..i + 1];
      assert seen[..i] == run.chunks[..i] && seen[i] == run.chunks[i];
      match run.chunks[i]
      case OnStdout(d) => stdout := stdout + d;
      case OnStderr(d) => stderr := stderr + d;
    }
    assert run.chunks[..|run.chunks|] == run.chunks;
    match run.outcome
    case Finished(out) => output := out;
    case Threw(e) => output := FailureReport(e, stdout, stderr);
  }

  /** The stdout buffer reads the chunks of the two halves of a stream one after the other. */
  lemma {:induction false} StdoutAppend(a: seq<StreamChunk>, b: seq<StreamChunk>)
    ensures StdoutOf(a + b) == StdoutOf(a) + StdoutOf(b)
    decreases |b|
  {
    if b == [] {
      assert a + b == a;
    } else {
      var n := |b| - 1;
      assert (a + b)[..|a + b| - 1] == a + b[..n];
      assert (a + b)[|a + b| - 1] == b[n];
      StdoutAppend(a, b[..n]);
    }
  }

  /** The same for the stderr buffer. */
  lemma {:induction false} StderrAppend(a: seq<StreamChunk>, b: seq<StreamChunk>)
    ensures StderrOf(a + b) == StderrOf(a) + StderrOf(b)
    decreases |b|
  {
    if b == [] {
      assert a + b == a;
    } else {
      var n := |b| - 1;
      assert (a + b)[..|a + b| - 1] == a + b[..n];
      assert (a + b)[|a + b| - 1] == b[n];
      StderrAppend(a, b[..n]);
    }
  }

  /** A failed command's report embeds the error and both buffers at fixed places. */
  lemma FailureReportShape(run: CommandRun)
    requires run.outcome.Threw?
    ensures var out := TerminalOutput(run);
      var head := "Command failed: " + run.outcome.error + "\nstdout: ";
      var tail := "\nStderr: " + StderrOf(run.chunks);
      && |out| == |head| + |StdoutOf(run.chunks)| + |tail|
      && out[..|head|] == head
      && out[|head|..|head| + |StdoutOf(run.chunks)|] == StdoutOf(run.chunks)
      && out[|out| - |tail|..] == tail
  {
  }

  // ----------------------------------------------------- createOrUpdateFiles

  /** The createOrUpdateFiles step's value: the updated mapping, or `"Error" + error`. */
  datatype WriteStep = Written(files: map<string, string>) | WriteFailed(message: string)

  /** The step body. `updatedFiles` is the very object `state.files`, so each write lands in
      the state at once; a throw leaves the writes made so far in place. */
  method RunWriteStep(state: AgentState, sandbox: Sandbox, writes: seq<FileEntry>, fault: Fault)
    returns (step: WriteStep)
    modifies state, sandbox
    ensures state.summary == old(state.summary)
    ensures state.files == Merge(old(state.files), writes[..Reached(fault, |writes|)])
    ensures sandbox.fs == Merge(old(sandbox.fs), writes[..Reached(fault, |writes|)])
    ensures step == if Hits(fault, |writes|) then WriteFailed("Error" + fault.error)
                    else Written(state.files)
  {
    if fault.ConnectFails? {
      assert writes[..0] == [];
      return WriteFailed("Error" + fault.error);
    }
    for i := 0 to |writes|
      invariant fault.FailsAt? ==> i <= fault.index
      invariant state.summary == old(state.summary)
      invariant state.files == Merge(old(state.files), writes[..i])
      invariant sandbox.fs == Merge(old(sandbox.fs), writes[..i])
    {
      if fault.FailsAt? && fault.index == i {
        return WriteFailed("Error" + fault.error);
      }
      assert writes[..i + 1][..i] == writes[..i];
      sandbox.Write(writes[i].path, writes[i].content);
      state.files := state.files[writes[i].path := writes[i].content];
    }
    assert writes[..|writes|] == writes;
    step := Written(state.files);
  }

  /** The handler: run the step, and store its value only when it is a mapping. */
  method CreateOrUpdateFiles(state: AgentState, sandbox: Sandbox, writes: seq<FileEntry>, fault: Fault)
    modifies state, sandbox
    ensures state.summary == old(state.summary)
    ensures state.files == Merge(old(state.files), writes[..Reached(fault, |writes|)])
    ensures sandbox.fs == Merge(old(sandbox.fs), writes[..Reached(fault, |writes|)])
  {
    var step := RunWriteStep(state, sandbox, writes, fault);
    if step.Written? {
      state.files := step.files;
    }
  }

  // ---------------------------------------------------------------- readFile

  /** The readFiles step's value: the `{path, content}` list that is serialised with
      `JSON.stringify`, or `"Error" + error`. */
  datatype ReadStep = Serialized(entries: seq<FileEntry>) | ReadFailed(message: string)

  /** The error a read of an absent path throws. */
  function MissingFileError(path: string): string
  {
    "file not found: " + path
  }

  /** The index of the first path that is not in `fs`, or `|paths|`. */
  function FirstMissing(fs: map<string, string>, paths: seq<string>): (k: nat)
    ensures k <= |paths|
    ensures forall i :: 0 <= i < k ==> paths[i] in fs
    ensures k < |paths| ==> paths[k] !in fs
  {
    if paths == [] then 0
    else if paths[0] !in fs then 0
    else 1 + FirstMissing(fs, paths[1..])
  }

  /** What readFile's step returns: the first read that throws decides the error;
      when none throws, one entry per path in input order. */
  function ReadResult(fs: map<string, string>, paths: seq<string>, fault: Fault): ReadStep
  {
    if fault.ConnectFails? then ReadFailed("Error" + fault.error)
    else
      var r := Reached(fault, |paths|);
      var m := FirstMissing(fs, paths);
      var k := if r < m then r else m;
      if k < |paths| then
        ReadFailed("Error" + if fault.FailsAt? && fault.index == k then fault.error else MissingFileError(paths[k]))
      else
        Serialized(seq(|paths|, i requires 0 <= i < |paths| => FileEntry(paths[i], fs[paths[i]])))
  }

  /** readFile succeeds exactly when no fault fires and every path exists, and then it
      lists each requested path with its content, in order. */
  lemma ReadSucceedsIff(fs: map<string, string>, paths: seq<string>, fault: Fault)
    ensures ReadResult(fs, paths, fault).Serialized? <==>
      !Hits(fault, |paths|) && forall i :: 0 <= i < |paths| ==> paths[i] in fs
    ensures ReadResult(fs, paths, fault).Serialized? ==>
      var entries := ReadResult(fs, paths, fault).entries;
      |entries| == |paths| &&
      forall i :: 0 <= i < |paths| ==> entries[i] == FileEntry(paths[i], fs[paths[i]])
  {
  }

  /** The readFile handler: read each path in order and collect `{path, content}`. */
  method ReadFiles(sandbox: Sandbox, paths: seq<string>, fault: Fault) returns (step: ReadStep)
    ensures step == ReadResult(sandbox.fs, paths, fault)
  {
    if fault.ConnectFails? {
      return ReadFailed("Error" + fault.error);
    }
    var contents: seq<FileEntry> := [];
    for i := 0 to |paths|
      invariant fault.FailsAt? ==> i <= fault.index
      invariant forall j :: 0 <= j < i ==> paths[j] in sandbox.fs
      invariant |contents| == i
      invariant forall j :: 0 <= j < i ==> contents[j] == FileEntry(paths[j], sandbox.fs[paths[j]])
    {
      if fault.FailsAt? && fault.index == i {
        return ReadFailed("Error" + fault.error);
      }
      if paths[i] !in sandbox.fs {
        return ReadFailed("Error" + MissingFileError(paths[i]));
      }
      contents := contents + [FileEntry(paths[i], sandbox.fs[paths[i]])];
    }
    step := Serialized(contents);
  }

  /** A path written by a successful createOrUpdateFiles reads back with the content
      of its last write in that call. */
  lemma ReadAfterWrite(fs: map<string, string>, writes: seq<FileEntry>, i: nat)
    requires i < |writes|
    ensures LastWrite(writes, writes[i].path).Some?
    ensures var p := writes[i].path;
      ReadResult(Merge(fs, writes), [p], NoFault) == Serialized([FileEntry(p, LastWrite(writes, p).value)])
  {
    var p := writes[i].path;
    LastWriteIsLastOccurrence(writes, p);
    MergeLastWriteWins(fs, writes, p);
    var after := Merge(fs, writes);
    assert FirstMissing(after, [p]) == 1;
    assert ReadResult(after, [p], NoFault).entries == [FileEntry(p, after[p])];
  }

  // ------------------------------------------------------------- onResponse

  /** The completion marker the code agent writes around its final summary. */
  const TaskSummaryMarker := "<task_summary>"

  /** The summary after `onResponse`: the whole last assistant text when that text is
      present, non-empty and contains the marker; otherwise the summary as it was. */
  function CapturedSummary(summary: string, lastText: Option<string>): string
  {
    if lastText.Some? && lastText.value != "" && Contains(lastText.value, TaskSummaryMarker)
    then lastText.value
    else summary
  }

  /** The non-empty check before the marker test never matters: the summary is replaced
      exactly when the text contains the marker. */
  lemma {:induction false} CaptureIffMarker(summary: string, lastText: Option<string>)
    ensures lastText.Some? && Contains(lastText.value, TaskSummaryMarker) ==>
      CapturedSummary(summary, lastText) == lastText.value
    ensures !(lastText.Some? && Contains(lastText.value, TaskSummaryMarker)) ==>
      CapturedSummary(summary, lastText) == summary
    ensures summary != "" ==> CapturedSummary(summary, lastText) != ""
  {
    if lastText.Some? && Contains(lastText.value, TaskSummaryMarker) {
      ContainsNonEmpty(lastText.value, TaskSummaryMarker);
    }
  }

  /** The `onResponse` lifecycle hook: capture the summary; the files are not touched. */
  method OnResponse(state: AgentState, lastText: Option<string>)
    modifies state
    ensures state.summary == CapturedSummary(old(state.summary), lastText)
    ensures state.files == old(state.files)
  {
    if lastText.Some? && lastText.value != "" {
      if Contains(lastText.value, TaskSummaryMarker) {
        state.summary := lastText.value;
      }
    }
  }
}
