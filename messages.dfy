/** The message table, shared by the projects router (which stores a project's first USER
    message) and the code-agent workflow (which reads a project's history and stores the
    terminal message). */
module MessageTable {
  import opened Records
  import opened Ordering

  /** The creation time the history query orders by. */
  function CreatedAt(m: Message): int
  {
    m.createdAt
  }

  /** `where: {projectId}`: the rows of one project, in table order. */
  function OfProject(rows: seq<Message>, projectId: string): seq<Message>
  {
    if rows == [] then []
    else (if rows[0].projectId == projectId then [rows[0]] else []) + OfProject(rows[1..], projectId)
  }

  /** Every row of the project is kept as often as it is stored, and no other row is. */
  lemma {:induction false} OfProjectCounts(rows: seq<Message>, projectId: string)
    ensures forall m :: multiset(OfProject(rows, projectId))[m] ==
                        (if m.projectId == projectId then multiset(rows)[m] else 0)
  {
    if rows != [] {
      assert rows == [rows[0]] + rows[1..];
      OfProjectCounts(rows[1..], projectId);
    }
  }

  /** The `get-previous-messages` query: one project's messages, newest first. */
  function ProjectHistory(rows: seq<Message>, projectId: string): seq<Message>
  {
    OrderNewestFirst(OfProject(rows, projectId), CreatedAt)
  }

  /** The history holds exactly the project's messages, each as often as it is stored, and
      no other row; it is sorted by `createdAt` descending. */
  lemma ProjectHistoryIsProjectNewestFirst(rows: seq<Message>, projectId: string)
    ensures NewestFirst(ProjectHistory(rows, projectId), CreatedAt)
    ensures forall m :: multiset(ProjectHistory(rows, projectId))[m] ==
                        (if m.projectId == projectId then multiset(rows)[m] else 0)
  {
    OrderedIsNewestFirst(OfProject(rows, projectId), CreatedAt);
    OfProjectCounts(rows, projectId);
  }

  /** Storing one more row extends the project's rows by that row when it belongs to the
      project, and leaves them as they were otherwise. */
  lemma {:induction false} OfProjectAppend(rows: seq<Message>, m: Message, projectId: string)
    ensures OfProject(rows + [m], projectId) ==
            OfProject(rows, projectId) + (if m.projectId == projectId then [m] else [])
  {
    if rows != [] {
      assert (rows + [m])[1..] == rows[1..] + [m];
      OfProjectAppend(rows[1..], m, projectId);
    }
  }

  /** A message stored for a project appears in that project's history, and storing a
      message of another project leaves that history exactly as it was. */
  lemma StoredMessageInHistory(rows: seq<Message>, m: Message, projectId: string)
    ensures m.projectId == projectId ==> m in ProjectHistory(rows + [m], projectId)
    ensures m.projectId != projectId ==> ProjectHistory(rows + [m], projectId) == ProjectHistory(rows, projectId)
  {
    OfProjectAppend(rows, m, projectId);
    var before := OfProject(rows, projectId);
    if m.projectId == projectId {
      var after := before + [m];
      assert OfProject(rows + [m], projectId) == after;
      assert m in multiset(after) by {
        assert after[|before|] == m;
      }
      assert multiset(ProjectHistory(rows + [m], projectId)) == multiset(after);
    } else {
      assert before + [] == before;
      assert OfProject(rows + [m], projectId) == before;
    }
  }

  /** The table. */
  class MessageStore {
    var messages: seq<Message>

    constructor (rows: seq<Message>)
      ensures messages == rows
    {
      messages := rows;
    }

    /** `prisma.message.create`. */
    method Create(m: Message)
      modifies this
      ensures messages == old(messages) + [m]
    {
      messages := messages + [m];
    }

    /** `prisma.message.findMany({where: {projectId}, orderBy: {createdAt: "desc"}})`. */
    method FindMany(projectId: string) returns (rows: seq<Message>)
      ensures rows == ProjectHistory(messages, projectId)
    {
      rows := ProjectHistory(messages, projectId);
    }
  }
}
