/** Records shared by the code-agent workflow and the projects router:
    the persisted Message and Fragment rows, a file entry `{path, content}` and the run event. */
module Records {

  datatype Option<+T> = None | Some(value: T)

  /** The persisted message role (Prisma enum MessageRole). */
  datatype MessageRole = USER | ASSISTANT

  /** The persisted message type (Prisma enum MessageType). */
  datatype MessageType = RESULT | ERROR

  /** `{path, content}`, the element of a createOrUpdateFiles call and of a readFile result. */
  datatype FileEntry = FileEntry(path: string, content: string)

  /** The artifact bundle stored beside a successful terminal message. */
  datatype Fragment = Fragment(sandboxUrl: string, title: string, files: map<string, string>)

  /** A row of the message table. `createdAt` is the database clock when the row was written. */
  datatype Message = Message(
    projectId: string,
    content: string,
    role: MessageRole,
    kind: MessageType,
    createdAt: int,
    fragment: Option<Fragment>)

  /** The data of the `code-agent/run` event: the user's request and its project. The projects
      router sends it and the code-agent function receives it. */
  datatype RunEvent = RunEvent(value: string, projectId: string)
}
