/**
 * The `/api/tasks` handlers: `validateTaskData` in its create and
 * partial-update modes, and the POST, PATCH and DELETE decision chains.
 * A due date string becomes a time through `parseDate`.
 */
module TaskRoute {
  import opened Wrappers
  import opened Json
  import opened Domain

  /** Every rule of create mode. */
  ghost predicate CreateRules(data: Payload) {
    && NonEmptyStr(Get(data, "title"))
    && NonEmptyStr(Get(data, "dueDate"))
    && StrIn(Get(data, "status"), TaskStatuses)
    && StrIn(Get(data, "priority"), TaskPriorities)
  }

  /** Every rule of update mode: a field may be absent, but a present one must be well-formed. */
  ghost predicate UpdateRules(data: Payload) {
    && AbsentOrStr(Get(data, "title"))
    && AbsentOrStr(Get(data, "dueDate"))
    && AbsentOrIn(Get(data, "status"), TaskStatuses)
    && AbsentOrIn(Get(data, "priority"), TaskPriorities)
  }

  /** The rules both modes check last. */
  ghost predicate CommonRules(data: Payload) {
    && AbsentNullOrStr(Get(data, "description"))
    && AbsentNullOrStr(Get(data, "contactId"))
  }

  /** The create-mode checks of `validateTaskData`, in their order. */
  function CreateModeCheck(data: Payload): (r: Check)
    ensures r.Pass? <==> CreateRules(data)
  {
    var title, dueDate := Get(data, "title"), Get(data, "dueDate");
    var status, priority := Get(data, "status"), Get(data, "priority");
    if !Truthy(title) || !IsStr(title) then Fail("Title is required and must be a string")
    else if !Truthy(dueDate) || !IsStr(dueDate) then Fail("Due date is required and must be a valid date")
    else if !Truthy(status) || !StrIn(status, TaskStatuses) then
      Fail("Status must be one of: TODO, IN_PROGRESS, DONE")
    else if !Truthy(priority) || !StrIn(priority, TaskPriorities) then
      Fail("Priority must be one of: LOW, MEDIUM, HIGH")
    else Pass
  }

  /** The update-mode checks of `validateTaskData`, in their order. */
  function UpdateModeCheck(data: Payload): (r: Check)
    ensures r.Pass? <==> UpdateRules(data)
  {
    var title, dueDate := Get(data, "title"), Get(data, "dueDate");
    var status, priority := Get(data, "status"), Get(data, "priority");
    if title.Some? && !IsStr(title) then Fail("Title must be a string")
    else if dueDate.Some? && !IsStr(dueDate) then Fail("Due date must be a valid date")
    else if status.Some? && !StrIn(status, TaskStatuses) then
      Fail("Status must be one of: TODO, IN_PROGRESS, DONE")
    else if priority.Some? && !StrIn(priority, TaskPriorities) then
      Fail("Priority must be one of: LOW, MEDIUM, HIGH")
    else Pass
  }

  /** `validateTaskData(data, isUpdate)`: the message of the first rule `data` breaks. */
  function ValidateTaskData(data: Payload, isUpdate: bool): (r: Check)
    ensures r.Pass? <==> (if isUpdate then UpdateRules(data) else CreateRules(data)) && CommonRules(data)
  {
    var description, contactId := Get(data, "description"), Get(data, "contactId");
    var modeCheck := if !isUpdate then CreateModeCheck(data) else UpdateModeCheck(data);
    if modeCheck.Fail? then modeCheck
    else if description.Some? && !IsNull(description) && !IsStr(description) then
      Fail("Description must be a string")
    else if contactId.Some? && !IsNull(contactId) && !IsStr(contactId) then
      Fail("Contact ID must be a string")
    else Pass
  }

  /** Create mode rejects a missing, empty or non-string title before looking at anything else. */
  lemma CreateNeedsTitle(data: Payload)
    requires !NonEmptyStr(Get(data, "title"))
    ensures ValidateTaskData(data, false) == Fail("Title is required and must be a string")
  {
  }

  /** Enum membership is exact: a lowercase priority such as "medium" is refused. */
  lemma CreateRefusesLowercasePriority(data: Payload)
    requires NonEmptyStr(Get(data, "title")) && NonEmptyStr(Get(data, "dueDate"))
    requires StrIn(Get(data, "status"), TaskStatuses)
    requires Get(data, "priority") == Some(Str("medium"))
    ensures ValidateTaskData(data, false) == Fail("Priority must be one of: LOW, MEDIUM, HIGH")
  {
  }

  /** Update mode passes a body that names no field; create mode does not. */
  lemma UpdateAllowsEmpty()
    ensures ValidateTaskData(map[], true) == Pass
    ensures ValidateTaskData(map[], false) == Fail("Title is required and must be a string")
  {
  }

  /** POST: validate, check the contact a non-empty `contactId` names, then create with defaults. */
  method PostTask(db: Db, data: Payload, newId: Id, parseDate: string -> int) returns (res: Response<Task>, db': Db)
    requires newId !in db.tasks
    ensures res.Err? ==> db' == db
    ensures ValidateTaskData(data, false).Fail? ==> res == Err(400, ValidateTaskData(data, false).error)
    ensures ValidateTaskData(data, false).Pass? && NamesUnknown(Get(data, "contactId"), db.contacts.Keys) ==>
      res == Err(404, "Contact not found")
    ensures res.Ok? <==>
      ValidateTaskData(data, false).Pass? && !NamesUnknown(Get(data, "contactId"), db.contacts.Keys)
    ensures res.Ok? ==> db' == db.(tasks := db.tasks[newId := res.value])
    ensures res.Ok? ==> var t := res.value;
      && t.id == newId
      && Get(data, "title") == Some(Str(t.title)) && t.title != ""
      && Get(data, "dueDate").Some? && t.dueDate == parseDate(Get(data, "dueDate").value.s)
      && Get(data, "status") == Some(Str(t.status)) && t.status in TaskStatuses
      && Get(data, "priority") == Some(Str(t.priority)) && t.priority in TaskPriorities
      && (t.description.None? <==> !Truthy(Get(data, "description")))
      && (t.description.Some? ==> Get(data, "description") == Some(Str(t.description.value)))
      && (t.contactId.None? <==> !Truthy(Get(data, "contactId")))
      && (t.contactId.Some? ==> Get(data, "contactId") == Some(Str(t.contactId.value)) && t.contactId.value in db.contacts)
    ensures WellFormed(db) ==> WellFormed(db')
    ensures TasksLinked(db) ==> TasksLinked(db')
  {
    var validation := ValidateTaskData(data, false);
    if validation.Fail? {
      return Err(400, validation.error), db;
    }
    var contactId := Get(data, "contactId");
    if Truthy(contactId) && TextOf(contactId) !in db.contacts {
      return Err(404, "Contact not found"), db;
    }
    var task := Task(
      newId,
      TextOf(Get(data, "title")),
      OrNull(Get(data, "description")),
      parseDate(TextOf(Get(data, "dueDate"))),
      TextOf(Get(data, "status")),
      TextOf(Get(data, "priority")),
      OrNull(contactId));
    return Ok(task), db.(tasks := db.tasks[newId := task]);
  }

  /** What PATCH writes: each field the body names takes the body's value, every other field keeps its value. */
  ghost predicate PatchedFrom(before: Task, after: Task, data: Payload, parseDate: string -> int) {
    && after.id == before.id
    && (if "title" in data then data["title"] == Str(after.title) else after.title == before.title)
    && (if "description" in data then data["description"] == AsValue(after.description)
        else after.description == before.description)
    && (if "dueDate" in data then data["dueDate"].Str? && after.dueDate == parseDate(data["dueDate"].s)
        else after.dueDate == before.dueDate)
    && (if "status" in data then data["status"] == Str(after.status) else after.status == before.status)
    && (if "priority" in data then data["priority"] == Str(after.priority) else after.priority == before.priority)
    && (if "contactId" in data then data["contactId"] == AsValue(after.contactId)
        else after.contactId == before.contactId)
  }

  /** The `updateData` PATCH builds, applied to the stored task: one assignment per field the body names. */
  method ApplyTaskUpdate(task: Task, data: Payload, parseDate: string -> int) returns (updated: Task)
    requires UpdateRules(data) && CommonRules(data)
    ensures PatchedFrom(task, updated, data, parseDate)
  {
    updated := task;
    if "title" in data {
      updated := updated.(title := TextOf(Get(data, "title")));
    }
    if "description" in data {
      updated := updated.(description := NullableText(Get(data, "description")));
    }
    if "dueDate" in data {
      updated := updated.(dueDate := parseDate(TextOf(Get(data, "dueDate"))));
    }
    if "status" in data {
      updated := updated.(status := TextOf(Get(data, "status")));
    }
    if "priority" in data {
      updated := updated.(priority := TextOf(Get(data, "priority")));
    }
    if "contactId" in data {
      updated := updated.(contactId := NullableText(Get(data, "contactId")));
    }
  }

  /**
   * The lookup skips an empty `contactId`, so `updateData.contactId = ""`
   * reaches the database, whose task-to-contact relation refuses it unless
   * a contact has the id "".
   */
  predicate EmptyLinkRefused(db: Db, data: Payload) {
    Get(data, "contactId") == Some(Str("")) && "" !in db.contacts
  }

  /** A write the contact rules let through keeps every task's contact stored. */
  lemma PatchKeepsTasksLinked(db: Db, id: Id, data: Payload, task: Task, parseDate: string -> int)
    requires id in db.tasks
    requires !NamesUnknown(Get(data, "contactId"), db.contacts.Keys) && !EmptyLinkRefused(db, data)
    requires PatchedFrom(db.tasks[id], task, data, parseDate)
    ensures TasksLinked(db) ==> TasksLinked(db.(tasks := db.tasks[id := task]))
  {
    if TasksLinked(db) && task.contactId.Some? {
      if "contactId" in data {
        assert Get(data, "contactId") == Some(Str(task.contactId.value));
      } else {
        assert db.tasks[id].contactId == task.contactId;
      }
    }
  }

  /** The part of PATCH after the task is found: the contact lookup, then `prisma.task.update`. */
  method UpdateTaskById(db: Db, id: Id, data: Payload, parseDate: string -> int) returns (res: Response<Task>, db': Db)
    requires id in db.tasks
    requires UpdateRules(data) && CommonRules(data)
    ensures res.Err? ==> db' == db
    ensures NamesUnknown(Get(data, "contactId"), db.contacts.Keys) ==> res == Err(404, "Contact not found")
    ensures !NamesUnknown(Get(data, "contactId"), db.contacts.Keys) && EmptyLinkRefused(db, data) ==>
      res == Err(500, "Failed to update task")
    ensures res.Ok? <==> !NamesUnknown(Get(data, "contactId"), db.contacts.Keys) && !EmptyLinkRefused(db, data)
    ensures res.Ok? ==> db' == db.(tasks := db.tasks[id := res.value])
    ensures res.Ok? ==> PatchedFrom(db.tasks[id], res.value, data, parseDate)
    ensures WellFormed(db) ==> WellFormed(db')
    ensures TasksLinked(db) ==> TasksLinked(db')
  {
    var contactId := Get(data, "contactId");
    if Truthy(contactId) && TextOf(contactId) !in db.contacts {
      return Err(404, "Contact not found"), db;
    }
    if EmptyLinkRefused(db, data) {
      return Err(500, "Failed to update task"), db;
    }
    var task := ApplyTaskUpdate(db.tasks[id], data, parseDate);
    PatchKeepsTasksLinked(db, id, data, task, parseDate);
    return Ok(task), db.(tasks := db.tasks[id := task]);
  }

  /**
   * PATCH: id, then the update-mode rules, then the task, then a non-empty
   * `contactId`; then a partial write, which the database refuses for a
   * link to no contact.
   */
  method PatchTask(db: Db, body: Payload, parseDate: string -> int) returns (res: Response<Task>, db': Db)
    ensures res.Err? ==> db' == db
    ensures IdOf(Get(body, "id")).NoId? ==> res == Err(400, "Task ID is required")
    ensures !IdOf(Get(body, "id")).NoId? && ValidateTaskData(Fields(body), true).Fail? ==>
      res == Err(400, ValidateTaskData(Fields(body), true).error)
    ensures IdOf(Get(body, "id")).NotAnId? && ValidateTaskData(Fields(body), true).Pass? ==>
      res == Err(500, "Failed to update task")
    ensures IdOf(Get(body, "id")).Id? && ValidateTaskData(Fields(body), true).Pass? ==>
      var id := IdOf(Get(body, "id")).id;
      && (id !in db.tasks ==> res == Err(404, "Task not found"))
      && (id in db.tasks && NamesUnknown(Get(body, "contactId"), db.contacts.Keys) ==>
            res == Err(404, "Contact not found"))
      && ((id in db.tasks && !NamesUnknown(Get(body, "contactId"), db.contacts.Keys)
           && EmptyLinkRefused(db, Fields(body))) ==> res == Err(500, "Failed to update task"))
      && ((id in db.tasks && !NamesUnknown(Get(body, "contactId"), db.contacts.Keys)
           && !EmptyLinkRefused(db, Fields(body))) ==>
            res.Ok? && db' == db.(tasks := db.tasks[id := res.value])
            && PatchedFrom(db.tasks[id], res.value, Fields(body), parseDate))
    ensures WellFormed(db) ==> WellFormed(db')
    ensures TasksLinked(db) ==> TasksLinked(db')
  {
    var id := IdOf(Get(body, "id"));
    if id.NoId? {
      return Err(400, "Task ID is required"), db;
    }
    var data := Fields(body);
    var validation := ValidateTaskData(data, true);
    if validation.Fail? {
      return Err(400, validation.error), db;
    }
    if id.NotAnId? {
      return Err(500, "Failed to update task"), db;
    }
    if id.id !in db.tasks {
      return Err(404, "Task not found"), db;
    }
    assert Get(data, "contactId") == Get(body, "contactId");
    res, db' := UpdateTaskById(db, id.id, data, parseDate);
  }

  /** A PATCH carrying only the id of a known task succeeds and changes nothing. */
  lemma PatchWithOnlyIdChangesNothing(before: Task, after: Task, parseDate: string -> int)
    requires PatchedFrom(before, after, map[], parseDate)
    ensures after == before
  {
  }

  /** A null `contactId` clears the link, and does so without any contact lookup. */
  lemma NullContactClearsLink(db: Db, data: Payload)
    requires Get(data, "contactId") == Some(Null)
    ensures !NamesUnknown(Get(data, "contactId"), db.contacts.Keys)
    ensures forall before, after, parseDate :: PatchedFrom(before, after, data, parseDate) ==> after.contactId.None?
  {
  }

  /** DELETE `?id=`: a missing or empty id is refused, an unknown id is reported as not found. */
  method DeleteTask(db: Db, id: Option<string>) returns (res: Response<Deleted>, db': Db)
    ensures id.None? || id.value == "" ==> res == Err(400, "Task ID is required")
    ensures id.Some? && id.value != "" && id.value !in db.tasks ==> res == Err(404, "Task not found")
    ensures res.Ok? <==> id.Some? && id.value in db.tasks && id.value != ""
    ensures res.Err? ==> db' == db
    ensures res.Ok? ==> db' == db.(tasks := db.tasks - {id.value})
    ensures WellFormed(db) ==> WellFormed(db')
    ensures TasksLinked(db) ==> TasksLinked(db')
  {
    if id.None? || id.value == "" {
      return Err(400, "Task ID is required"), db;
    }
    if id.value !in db.tasks {
      return Err(404, "Task not found"), db;
    }
    return Ok(Deleted), db.(tasks := db.tasks - {id.value});
  }
}
