# Code-agent workflow and projects router, modelled in Dafny

This project models the core of a "vibe coding" service. The service takes a natural-language
build request and runs a language-model coding agent inside a sandbox. The agent loops over
tool calls until it writes a completion summary, and the service then stores one outcome
message.

Two source files are modelled:

- `src/inngest/functions.ts`, the `code-agent` workflow:
  - the history step: the project's stored messages, newest first, become agent text messages;
  - the run-local `AgentState { summary, files }`, a class;
  - the three tool handlers: `Terminal`, `createOrUpdateFiles` and `readFile`;
  - the `onResponse` summary capture;
  - the router and the network loop bounded by `maxIter: 15`;
  - the output-extraction helpers;
  - the `isError` classification, the `save-result` step and the return value.
- `src/modules/projects/server/procedures.ts`, the `projectsRouter`. It is a class with an
  in-memory project table, a message table and an outgoing event list. It has three
  procedures: `getOne`, `getMany` and `create`.

The external collaborators are parameters or small in-memory classes:

- The language model is an `Agent` oracle. It maps the prompt, the history, the iteration
  number and every tool output so far to the next turn: the last assistant text and the
  turn's tool calls.
- The E2B sandbox is a `Sandbox` class holding a file map. A `Fault` value says where a
  sandbox call throws. A `CommandRun` value gives the chunks a command streams, how the
  command ends, and what it does to the files.
- Prisma is the `MessageStore` class (the one message table, which the router and the workflow
  share) and the `ProjectsRouter` project table. The event client is the `events` list.

Files, one module each: `records.dfy` (shared rows), `ordering.dfy` (`orderBy: {createdAt:
"desc"}`), `messages.dfy` (the message table and the history query), `text.dfy` (`includes`, `join("")`),
`filemap.dfy` (the last-write-wins merge), `sandbox.dfy`, `tools.dfy`, `history.dfy`,
`network.dfy`, `codeagent.dfy`, `projects.dfy`.

How the model is built:

- The network loop `AgentNetwork.RunNetwork` is proved equal to a pure function
  `AgentNetwork.Run` of the starting state. The routing, bounding and monotonicity facts are
  lemmas about `Run`.
- Each tool handler is a method. Its `ensures` ties the new state, or the value it returns, to
  a pure function (`Merge`, `ReadResult`, `TerminalOutput`). The lemmas give those functions
  their meaning.

Behaviour of the code that the model keeps as written:

- History order. The query orders by `createdAt` descending, and the loop pushes the messages
  in that order without reversing them (`src/inngest/functions.ts:31-46`). So the agent sees
  the newest message first. `MessageTable.ProjectHistoryIsProjectNewestFirst` states the
  order, and `History.FormattedAppend` states that formatting keeps it.
- Tool reconnects. In all three tool handlers `getSandbox` is called inside the `try`. So a
  failed reconnect becomes the tool's error value (`Fault.ConnectFails`, or a `CommandRun`
  that throws). Only the `get-sandbox-url` step, which has no `try`, aborts the run
  (`reconnects == false`).
- Partial writes. A failing `createOrUpdateFiles` does not reassign `state.files`. But
  `updatedFiles` is the same object as `state.data.files`, so the writes made before the throw
  stay in the state (`src/inngest/functions.ts:116-130`). The model keeps them.
- Router tests. The router tests expect `userId` filtering and `updateAt` ordering, which
  `procedures.ts` does not do. The model follows `procedures.ts`.

## Model

| member | source | states |
|---|---|---|
| `MessageTable.OfProjectCounts` | src/inngest/functions.ts:32-34 | `where: {projectId}`: every row of that project is kept as often as it is stored, and no row of another project is. |
| `MessageTable.OfProjectAppend` | src/inngest/functions.ts:32-34 | Storing one more row extends the project's filtered rows by exactly that row when it belongs to the project, and leaves them unchanged otherwise. |
| `MessageTable.ProjectHistoryIsProjectNewestFirst` | src/inngest/functions.ts:31-38 | The history query (`MessageTable.MessageStore.FindMany`, which returns `ProjectHistory`) returns exactly the project's messages (as a multiset of rows), sorted by `createdAt` descending. |
| `MessageTable.StoredMessageInHistory` | src/inngest/functions.ts:31-38 | A message stored for the project by `MessageTable.MessageStore.Create`, such as the USER message `create` writes, appears in that project's history; storing a message of another project leaves that history exactly as it was. |
| `History.FormatHistory` | src/inngest/functions.ts:40-48 | The step body's loop returns exactly `Formatted(messages)`: one text message per queried message, in query order. |
| `History.FormattedEntries` | src/inngest/functions.ts:40-46 | The history has one entry per stored message. Entry i has role assistant iff stored message i has role ASSISTANT, and user otherwise. Its content is the stored content. |
| `History.FormattedAppend` | src/inngest/functions.ts:40-46 | Formatting keeps the order of the queried rows: formatting a concatenation is the concatenation of the formattings, so nothing is reversed. |
| `Tools.AgentState.constructor` | src/inngest/functions.ts:51-59 | A run starts with an empty summary and an empty file map. |
| `Tools.Terminal` | src/inngest/functions.ts:77-99 | Returns the command's stdout on success. On any exception it returns `Command failed: <e>\nstdout: <stdout buffer>\nStderr: <stderr buffer>` and never raises. The buffers are built by the per-chunk loop. |
| `Tools.StdoutAppend` | src/inngest/functions.ts:83-85 | The stdout buffer is the in-order concatenation of the stdout chunks: the buffer of a concatenated stream is the concatenation of the two buffers. |
| `Tools.StderrAppend` | src/inngest/functions.ts:86-88 | The stderr buffer is the in-order concatenation of the stderr chunks, in the same sense. |
| `Tools.FailureReportShape` | src/inngest/functions.ts:92-97 | The failure report starts with `Command failed: ` and the error, holds the stdout buffer after `\nstdout: `, and ends with `\nStderr: ` and the stderr buffer. |
| `Tools.RunWriteStep` | src/inngest/functions.ts:114-127 | The step writes the files in order into the sandbox and into `state.files` (aliased), up to the first throw. It returns the updated map, or `"Error" + error` when a reconnect or a write throws. |
| `Tools.CreateOrUpdateFiles` | src/inngest/functions.ts:112-131 | After the handler, `state.files` is the old map merged with the writes made before any throw. An error string is never stored, and the summary is unchanged. |
| `FileMap.MergeLastWriteWins` | src/inngest/functions.ts:118-121 | After a merge a path is present iff it was present or written. A written path holds the content of its last write in the call. An untouched path keeps its old content. |
| `FileMap.LastWriteIsLastOccurrence` | src/inngest/functions.ts:118-121 | `LastWrite` is none iff no entry has the path; otherwise it is the content of an entry with that path after which no entry has the path. |
| `FileMap.MergeKeys` | src/inngest/functions.ts:116-122 | The key set after a call is the old key set plus the call's paths. |
| `FileMap.MergeNeverShrinks` | src/inngest/functions.ts:116-130 | No key is removed and the number of files never decreases. |
| `FileMap.MergeCompose` | src/inngest/functions.ts:118-121 | Two successive calls have the effect of one call with both lists in order. |
| `FileMap.TwoCallsKeepBothFiles` | src/inngest/functions.ts:118-121 | Writing `a.txt` then `b.txt` in two calls yields `{a.txt: 1, b.txt: 2}`. |
| `Tools.FirstMissing` | src/inngest/functions.ts:144-146 | Returns the index of the first requested path that the sandbox lacks, or the list length when every path exists. |
| `Tools.ReadFiles` | src/inngest/functions.ts:139-153 | The handler reads the paths in order and returns `ReadResult`: the entry list, or `"Error" + error` from the first read that throws. |
| `Tools.ReadSucceedsIff` | src/inngest/functions.ts:140-151 | readFile succeeds iff no fault fires and every path exists. It then returns one `{path, content}` per requested path, in input order. |
| `Tools.ReadAfterWrite` | src/inngest/functions.ts:118-121 | A path written in a successful createOrUpdateFiles reads back with the content of its last write in that call. |
| `Text.Contains` | src/inngest/functions.ts:162 | `includes` holds iff the marker occurs at some index of the text. |
| `Tools.CaptureIffMarker` | src/inngest/functions.ts:158-167 | The summary becomes the whole last assistant text iff that text contains `<task_summary>`; otherwise it is unchanged. The truthiness check is implied by the marker test. A set summary stays non-empty. |
| `Tools.OnResponse` | src/inngest/functions.ts:158-167 | The hook sets the summary as `CapturedSummary` says and leaves the files unchanged. |
| `AgentNetwork.Dispatch` | src/inngest/functions.ts:70-155 | One tool call changes the state, the sandbox files and the output list as `ApplyCall` says. |
| `AgentNetwork.RunTurn` | src/inngest/functions.ts:157-167 | One iteration runs `onResponse` and then the turn's tool calls in order, as `TakeTurn` says. |
| `AgentNetwork.RunNetwork` | src/inngest/functions.ts:171-186 | The loop, with the router asked before each turn and at most 15 turns, ends in the state and turn count that `Run` gives. |
| `AgentNetwork.RunBounded` | src/inngest/functions.ts:171-184 | The loop runs at most 15 turns. It ends with a non-empty summary or after exactly 15 turns. |
| `AgentNetwork.RunHaltsAtFirstSummary` | src/inngest/functions.ts:176-183 | The router `AgentNetwork.Route` halts at the first non-empty summary: the final state is the state after the turns taken, and every one of those turns started with an empty summary. |
| `AgentNetwork.RunKeepsFiles` | src/inngest/functions.ts:112-131 | Over a whole run the set of paths in `state.files` only grows. |
| `AgentNetwork.ApplyCallsKeepSummary` | src/inngest/functions.ts:70-155 | Tool calls never change the summary. |
| `AgentNetwork.NoMarkerSpendsBudget` | src/inngest/functions.ts:171-184 | An agent that never writes the marker runs all 15 turns, and the summary stays empty. |
| `AgentNetwork.MarkerOnFirstTurnHalts` | src/inngest/functions.ts:158-183 | A marker in the first turn stops the run after one turn, with that text as the summary. |
| `CodeAgent.GenerateTextUsesFirstOutput` | src/inngest/functions.ts:211-236 | About `CodeAgent.GenerateText`, the shared body of `generateFragmentTitle` and `generateResponse`: only the first output decides the extracted text. A non-text first output gives `Here ou go....`. A chunked first output gives the in-order join of its chunks, as long as all chunks together, which reads the same as the plain string it joins to. |
| `Text.ConcatAppend` | src/inngest/functions.ts:216-217 | `join("")` is in order: joining a concatenation of chunk lists is concatenating the joins. |
| `Text.ConcatLength` | src/inngest/functions.ts:216-217 | The joined text is as long as all the chunks together. |
| `CodeAgent.TerminalMessageOutcome` | src/inngest/functions.ts:237-274 | About `CodeAgent.IsError` and `CodeAgent.TerminalMessage`: the saved message is ASSISTANT. It is ERROR iff the summary is empty or there are no files, and then its content is the fixed failure text. A fragment exists iff the type is RESULT, and it holds the URL, the title and every file. |
| `CodeAgent.NoMarkerIsError` | src/inngest/functions.ts:237-239 | A run whose agent never writes the marker uses all 15 turns and is classified as an error. |
| `CodeAgent.CodeAgentFunction` | src/inngest/functions.ts:19-281 | If `Sandbox.create` throws, nothing is saved. If the history query throws, the network does not run and nothing is saved. Otherwise the agent gets the formatted `ProjectHistory` of the stored messages. If the URL reconnect throws, the network has run but nothing is saved. Otherwise exactly one terminal message is appended, chosen by `CodeAgent.IsError` and built by `CodeAgent.TerminalMessage`, and the return value `{https://host(3000), "Fragment", files, summary}` has the same shape either way. |
| `Projects.ValidateId` | src/modules/projects/server/procedures.ts:10-12 | The id is accepted iff it is non-empty. |
| `Projects.ValidateValue` | src/modules/projects/server/procedures.ts:36-40 | The value is accepted iff its length is between 1 and 10000. An empty value gets "Message cannot be empty"; a value over 10000 gets "Message is too long". |
| `Projects.Find` | src/modules/projects/server/procedures.ts:14-19 | The lookup returns a project with the id, and returns none iff no project has it. |
| `Projects.FindUnique` | src/modules/projects/server/procedures.ts:14-19 | With distinct ids, the lookup returns the one project with that id. |
| `Ordering.Insert` | src/modules/projects/server/procedures.ts:28-32 | Inserting into a newest-first list keeps it newest first and adds exactly the one row. |
| `Ordering.OrderedIsNewestFirst` | src/modules/projects/server/procedures.ts:28-32 | `orderBy: {createdAt: "desc"}` gives a list sorted by createdAt descending that is a permutation of its input. |
| `Projects.ProjectsRouter.GetOne` | src/modules/projects/server/procedures.ts:9-24 | An empty id is a validation error. For a valid id, a failing `findUnique` fails the call with its error. A missing id is NOT_FOUND "Project not found". With the table's ids distinct, it otherwise returns exactly the one stored project `projects[i]` whose id is the requested one. |
| `Projects.ProjectsRouter.GetMany` | src/modules/projects/server/procedures.ts:25-34 | A failing `findMany` fails the call with its error. Otherwise it returns every project, newest first, with no filtering. |
| `Projects.ProjectsRouter.Create` | src/modules/projects/server/procedures.ts:35-66 | An invalid value or a database failure changes nothing and sends nothing. On success, one project is added and its one USER/RESULT message is appended to the shared message table, then one `code-agent/run` event is sent, its data the same `RunEvent(value, id)` that `CodeAgent.CodeAgentFunction` receives, and the project is returned. If the send fails, the project stays and the call fails. |
| `Projects.CreatedIsFound` | src/modules/projects/server/procedures.ts:43-56 | A project that create inserted keeps the ids distinct, and getOne then finds it. |

## Left out

- The language model, `gemini`, the prompts and `createAgent` are left out. The coding agent
  is the `Agent` oracle, and the title and response agents are oracles over the summary.
- agent-kit is not part of this model. One network iteration is one agent run: inference,
  then `onResponse`, then the turn's tool calls in order. A turn's calls are fixed at
  inference, so the agent reacts to tool results only from the next turn on. The real loop's
  bookkeeping is not modelled.
- `lastAssistantTextMessageContent`, `parseAgentOutput` and `generateSlug` are not part of
  this model. They are an `Option<string>` per turn, a `parse` function parameter and the
  `name` argument.
- Durable step memoization, replay and redelivery are provided by Inngest. They are not
  modelled: every step body runs exactly once.
- `console.error` logging is left out because it is I/O.
- E2B is reduced to a file map, a `Fault` per call and a `CommandRun` per command. A
  command's effect on the sandbox files is an oracle function. `Sandbox.create` with template
  `vibe-testa-nextjs-9` is a nullable `Sandbox` parameter, and `getHost` is a function of the
  port.
- Tools.MissingFileError: the text E2B throws for an absent path is unknown. The model uses
  the placeholder `file not found: <path>`.
- Tools.ReadFiles: `JSON.stringify` is not modelled. `Serialized(entries)` stands for the JSON
  text of the entry list.
- An exception is modelled as its string conversion. So `"Error" + error` and `${e}` are
  concatenations of that string.
- `network.state.data.files || {}`: the files map is never missing in the model, so the `{}`
  fallback and the `|| {}` in `isError` never apply.
- CodeAgent.GenerateText: content chunks are modelled as strings. If agent-kit's chunks are
  objects, `join("")` would stringify them, and that is not modelled. In the source, both
  helpers are defined but never called. The missing-first-output TypeError is `None`.
- CodeAgent.CodeAgentFunction:
  - a failure of `prisma.message.create` in `save-result`, or of the title and response agents,
    is not modelled;
  - a throw from the coding agent's inference inside `network.run`
    (`src/inngest/functions.ts:186`) is not modelled. The `Agent` oracle always yields a turn,
    so the model has no run that aborts in the middle of the network. In the source such a run
    would keep the sandbox writes made so far and save no message;
  - the nested create is spelled `fragement` at `src/inngest/functions.ts:265`. This is taken
    to match the schema's relation name, which is not part of this model.
- Projects.ValidateValue: zod counts string length in UTF-16 code units. The model counts
  Dafny characters.
- Projects.ValidateValue: tRPC's exact error payload (the zod issue list) is not modelled;
  only the BAD_REQUEST kind and the schema's message are.
- Projects.ProjectsRouter.Create: the database id, the slug and the timestamp are parameters.
  Any Prisma failure is `dbError`, as in `getOne` and `getMany`. An id that is already taken fails with Prisma's
  unique-constraint message.
- Ordering.OrderNewestFirst: the order of rows with equal `createdAt` is left to the
  database, for projects and messages alike. The model fixes one order.
- Authentication and the `userId` that the router tests expect are left out, because the
  procedures do not use them.
- The UI components, pages, `next.config.ts` and the test files
  `src/modules/messages/server/__tests__/procedures.test.ts`,
  `src/modules/projects/server/__tests__/procedures.router.test.ts`,
  `src/trpc/__tests__/init.auth.guard.test.ts` and `src/hooks/__tests__/use-current-theme.test.tsx`
  are left out. They are rendering, configuration and test glue.
- Concurrency between runs is left out. Each run owns its state and sandbox.
