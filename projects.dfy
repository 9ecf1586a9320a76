/** The projects router: `getOne`, `getMany` and `create`, against an in-memory project
    table, the shared message table and the outgoing event list. */
module Projects {
  import opened Records
  import opened Ordering
  import MessageTable

  /** A row of the project table. `createdAt` is the database clock at insertion. */
  datatype Project = Project(id: string, name: string, createdAt: int)

  /** An event sent to the workflow runner: `{name, data}`, where `data` is what the
      `code-agent` function receives as its event. */
  datatype Event = Event(name: string, data: RunEvent)

  /** The error a procedure fails with: BAD_REQUEST from input validation, NOT_FOUND,
      or an error thrown by the database or the event client. */
  datatype RouterError = BadRequest(message: string) | NotFound(message: string) | Internal(message: string)

  datatype Result<+T> = Ok(value: T) | Err(error: RouterError)

  const RunEventName := "code-agent/run"
  const MaxValueLength := 10000

  /** The message Prisma reports when the id is already taken. */
  const DuplicateIdError := "Unique constraint failed on the fields: (`id`)"

  /** `getOne`'s input schema: a non-empty id. */
  function ValidateId(id: string): (r: Option<RouterError>)
    ensures r.None? <==> |id| >= 1
  {
    if |id| < 1 then Some(BadRequest("Project ID is required")) else None
  }

  /** `create`'s input schema: between 1 and 10000 characters. */
  function ValidateValue(value: string): (r: Option<RouterError>)
    ensures r.None? <==> 1 <= |value| <= MaxValueLength
    ensures |value| == 0 ==> r == Some(BadRequest("Message cannot be empty"))
    ensures |value| > MaxValueLength ==> r == Some(BadRequest("Message is too long"))
  {
    if |value| < 1 then Some(BadRequest("Message cannot be empty"))
    else if |value| > MaxValueLength then Some(BadRequest("Message is too long"))
    else None
  }

  /** `findUnique({where: {id}})`. */
  function Find(projects: seq<Project>, id: string): (r: Option<Project>)
    ensures r.Some? ==> r.value in projects && r.value.id == id
    ensures r.None? <==> forall i :: 0 <= i < |projects| ==> projects[i].id != id
  {
    if projects == [] then None
    else if projects[0].id == id then Some(projects[0])
    else Find(projects[1..], id)
  }

  /** No two projects share an id. */
  ghost predicate DistinctIds(projects: seq<Project>)
  {
    forall i, j :: 0 <= i < j < |projects| ==> projects[i].id != projects[j].id
  }

  /** With distinct ids, Find returns the one project that has the id. */
  lemma FindUnique(projects: seq<Project>, i: nat)
    requires DistinctIds(projects)
    requires i < |projects|
    ensures Find(projects, projects[i].id) == Some(projects[i])
  {
    var r := Find(projects, projects[i].id);
    var j :| 0 <= j < |projects| && projects[j] == r.value;
    assert j == i;
  }

  /** The creation time `getMany` orders by. */
  function CreatedAt(p: Project): int
  {
    p.createdAt
  }

  /** The router's view of the stores. */
  class ProjectsRouter {
    var projects: seq<Project>
    /** The message table the code-agent workflow also reads and writes. */
    const store: MessageTable.MessageStore
    var events: seq<Event>

    ghost predicate Valid()
      reads this
    {
      DistinctIds(projects)
    }

    constructor (store: MessageTable.MessageStore)
      ensures Valid() && projects == [] && events == [] && this.store == store
    {
      projects, events := [], [];
      this.store := store;
    }

    /** `getOne`: the project with that id, NOT_FOUND when there is none, and a validation
        error for an empty id. `dbError` is a failure of the `findUnique` query, which runs
        only after the input has been validated. */
    method GetOne(id: string, dbError: Option<string>) returns (r: Result<Project>)
      requires Valid()
      ensures |id| == 0 ==> r == Err(BadRequest("Project ID is required"))
      ensures |id| >= 1 && dbError.Some? ==> r == Err(Internal(dbError.value))
      ensures r.Ok? ==> r.value in projects && r.value.id == id
      ensures |id| >= 1 && dbError.None? && (forall i :: 0 <= i < |projects| ==> projects[i].id != id) ==>
        r == Err(NotFound("Project not found"))
      ensures |id| >= 1 && dbError.None? ==>
        forall i :: 0 <= i < |projects| && projects[i].id == id ==> r == Ok(projects[i])
    {
      forall i | 0 <= i < |projects| && projects[i].id == id
        ensures Find(projects, id) == Some(projects[i])
      {
        FindUnique(projects, i);
      }
      var invalid := ValidateId(id);
      if invalid.Some? {
        return Err(invalid.value);
      }
      if dbError.Some? {
        return Err(Internal(dbError.value));
      }
      var found := Find(projects, id);
      if found.None? {
        return Err(NotFound("Project not found"));
      }
      r := Ok(found.value);
    }

    /** `getMany`: every project, newest first, none left out and none added; an error when
        the `findMany` query (`dbError`) fails. */
    method GetMany(dbError: Option<string>) returns (r: Result<seq<Project>>)
      ensures dbError.Some? ==> r == Err(Internal(dbError.value))
      ensures dbError.None? ==>
        r.Ok? && NewestFirst(r.value, CreatedAt) && multiset(r.value) == multiset(projects)
    {
      if dbError.Some? {
        return Err(Internal(dbError.value));
      }
      var ps := OrderNewestFirst(projects, CreatedAt);
      OrderedIsNewestFirst(projects, CreatedAt);
      r := Ok(ps);
    }

    /** `create`: validate the value, insert the project with its first message, then send
        the run event. `newId`, `name` (the slug) and `now` come from the database and the
        slug generator; `dbError` is a failure of the insert and `sendError` of the send. */
    method Create(value: string, newId: string, name: string, now: int,
                  dbError: Option<string>, sendError: Option<string>)
      returns (r: Result<Project>)
      requires Valid()
      modifies this, store
      ensures Valid()
      ensures ValidateValue(value).Some? ==>
        r == Err(ValidateValue(value).value) && unchanged(this) && unchanged(store)
      ensures ValidateValue(value).None? && (dbError.Some? || Find(old(projects), newId).Some?) ==>
        r.Err? && r.error.Internal? && unchanged(this) && unchanged(store)
      ensures ValidateValue(value).None? && dbError.None? && Find(old(projects), newId).None? ==>
        && projects == old(projects) + [Project(newId, name, now)]
        && store.messages == old(store.messages) + [Message(newId, value, USER, RESULT, now, None)]
        && (sendError.None? ==>
              r == Ok(Project(newId, name, now)) &&
              events == old(events) + [Event(RunEventName, RunEvent(value, newId))])
        && (sendError.Some? ==> r == Err(Internal(sendError.value)) && events == old(events))
    {
      var invalid := ValidateValue(value);
      if invalid.Some? {
        return Err(invalid.value);
      }
      if dbError.Some? {
        return Err(Internal(dbError.value));
      }
      if Find(projects, newId).Some? {
        return Err(Internal(DuplicateIdError));
      }
      var created := Project(newId, name, now);
      projects := projects + [created];
      store.Create(Message(newId, value, USER, RESULT, now, None));
      if sendError.Some? {
        return Err(Internal(sendError.value));
      }
      events := events + [Event(RunEventName, RunEvent(value, newId))];
      r := Ok(created);
    }
  }

  /** A project that `create` inserted is what `getOne` then finds. */
  lemma CreatedIsFound(projects: seq<Project>, p: Project)
    requires DistinctIds(projects)
    requires Find(projects, p.id).None?
    ensures DistinctIds(projects + [p])
    ensures Find(projects + [p], p.id) == Some(p)
  {
    FindUnique(projects + [p], |projects|);
  }
}
