/**
 * The client-side cache of the CRM (`useCRMStore`): four record lists and
 * the search term. Every action sends one request and changes its list only
 * when the reply is ok: it appends, replaces or removes by id. The server's
 * reply is a parameter of each action; an action reports the message it
 * throws, if any, and the JSON body it sends, where the body is built on the
 * client.
 */
module Store {
  import opened Wrappers
  import opened Json
  import opened Domain
  import opened Seqs

  function ContactKey(c: Contact): string { c.id }
  function DealKey(d: Deal): string { d.id }
  function TaskKey(t: Task): string { t.id }
  function ActivityKey(a: Activity): string { a.id }

  /** `new Error(error.error || fallback)`: the server's message, or the fallback for an empty one. */
  function ThrownMessage<T>(reply: Response<T>, fallback: string): (msg: string)
    requires reply.Err?
    ensures reply.message != "" ==> msg == reply.message
    ensures reply.message == "" ==> msg == fallback
  {
    if reply.message != "" then reply.message else fallback
  }

  /** `{ id, ...fields }`: the fields, with the id added unless the fields carry one of their own. */
  function WithId(id: string, fields: Payload): (body: Payload)
    ensures "id" in body
    ensures "id" in fields ==> body["id"] == fields["id"]
    ensures "id" !in fields ==> body["id"] == Str(id)
    ensures forall k :: k != "id" ==> Get(body, k) == Get(fields, k)
  {
    map["id" := Str(id)] + fields
  }

  /** The status `toggleTaskStatus` moves a task to: the next one in the cycle, `TODO` for anything else. */
  function NextStatus(status: string): (next: string)
    ensures next in TaskStatuses
  {
    match status
    case "TODO" => "IN_PROGRESS"
    case "IN_PROGRESS" => "DONE"
    case "DONE" => "TODO"
    case _ => "TODO"
  }

  /** The cycle has length three and moves every known status; an unknown status restarts at `TODO`. */
  lemma {:induction false} StatusCycle(status: string)
    ensures status in TaskStatuses ==> NextStatus(NextStatus(NextStatus(status))) == status
    ensures status in TaskStatuses ==> NextStatus(status) != status
    ensures status !in TaskStatuses ==> NextStatus(status) == "TODO"
  {
    if status in TaskStatuses {
      assert status == "TODO" || status == "IN_PROGRESS" || status == "DONE";
    }
  }

  class CrmStore {
    var contacts: seq<Contact>
    var deals: seq<Deal>
    var tasks: seq<Task>
    var activities: seq<Activity>
    var searchTerm: string

    /** The initial state: every list empty and no search term. */
    constructor ()
      ensures contacts == [] && deals == [] && tasks == [] && activities == [] && searchTerm == ""
    {
      contacts, deals, tasks, activities, searchTerm := [], [], [], [], "";
    }

    /** `setSearchTerm`: the term, and nothing else. */
    method SetSearchTerm(term: string)
      modifies this`searchTerm
      ensures searchTerm == term
    {
      searchTerm := term;
    }

    // Fetching replaces a list with the server's; a failed fetch is logged and leaves the list.

    method FetchContacts(reply: Response<seq<Contact>>)
      modifies this`contacts
      ensures contacts == if reply.Ok? then reply.value else old(contacts)
    {
      if reply.Ok? {
        contacts := reply.value;
      }
    }

    method FetchDeals(reply: Response<seq<Deal>>)
      modifies this`deals
      ensures deals == if reply.Ok? then reply.value else old(deals)
    {
      if reply.Ok? {
        deals := reply.value;
      }
    }

    method FetchTasks(reply: Response<seq<Task>>)
      modifies this`tasks
      ensures tasks == if reply.Ok? then reply.value else old(tasks)
    {
      if reply.Ok? {
        tasks := reply.value;
      }
    }

    method FetchActivities(reply: Response<seq<Activity>>)
      modifies this`activities
      ensures activities == if reply.Ok? then reply.value else old(activities)
    {
      if reply.Ok? {
        activities := reply.value;
      }
    }

    // Contact actions.

    /** `addContact`: append the created contact; a refusal throws a fixed message. */
    method AddContact(reply: Response<Contact>) returns (thrown: Option<string>)
      modifies this`contacts
      ensures reply.Ok? ==> thrown.None? && contacts == old(contacts) + [reply.value]
      ensures reply.Err? ==> thrown == Some("Failed to create contact") && contacts == old(contacts)
    {
      if reply.Err? {
        return Some("Failed to create contact");
      }
      contacts := contacts + [reply.value];
      return None;
    }

    /**
     * `updateContact`: an empty id throws before any request; otherwise the
     * reply, a whole contact, is merged over every entry with that id.
     */
    method UpdateContact(id: string, fields: Payload, reply: Response<Contact>)
      returns (request: Option<Payload>, thrown: Option<string>)
      modifies this`contacts
      ensures id == "" ==> request.None? && thrown == Some("Contact ID is required") && contacts == old(contacts)
      ensures id != "" ==> request == Some(WithId(id, fields))
      ensures id != "" && reply.Err? ==>
        thrown == Some(ThrownMessage(reply, "Failed to update contact")) && contacts == old(contacts)
      ensures id != "" && reply.Ok? ==>
        thrown.None? && contacts == ReplaceWhere(old(contacts), ContactKey, id, reply.value)
    {
      if id == "" {
        return None, Some("Contact ID is required");
      }
      request := Some(WithId(id, fields));
      if reply.Err? {
        return request, Some(ThrownMessage(reply, "Failed to update contact"));
      }
      contacts := ReplaceWhere(contacts, ContactKey, id, reply.value);
      thrown := None;
    }

    /** `deleteContact`: drop every entry with that id once the server agrees. */
    method DeleteContact(id: string, reply: Response<Deleted>) returns (thrown: Option<string>)
      modifies this`contacts
      ensures reply.Ok? ==> thrown.None? && contacts == RemoveWhere(old(contacts), ContactKey, id)
      ensures reply.Err? ==>
        thrown == Some(ThrownMessage(reply, "Failed to delete contact")) && contacts == old(contacts)
    {
      if reply.Err? {
        return Some(ThrownMessage(reply, "Failed to delete contact"));
      }
      contacts := RemoveWhere(contacts, ContactKey, id);
      return None;
    }

    // Deal actions.

    /** `addDeal`: append the created deal; a refusal throws a fixed message. */
    method AddDeal(reply: Response<Deal>) returns (thrown: Option<string>)
      modifies this`deals
      ensures reply.Ok? ==> thrown.None? && deals == old(deals) + [reply.value]
      ensures reply.Err? ==> thrown == Some("Failed to create deal") && deals == old(deals)
    {
      if reply.Err? {
        return Some("Failed to create deal");
      }
      deals := deals + [reply.value];
      return None;
    }

    /** `updateDeal`: replace every entry with that id by the returned deal. */
    method UpdateDeal(id: string, fields: Payload, reply: Response<Deal>)
      returns (request: Payload, thrown: Option<string>)
      modifies this`deals
      ensures request == WithId(id, fields)
      ensures reply.Ok? ==> thrown.None? && deals == ReplaceWhere(old(deals), DealKey, id, reply.value)
      ensures reply.Err? ==> thrown == Some("Failed to update deal") && deals == old(deals)
    {
      request := WithId(id, fields);
      if reply.Err? {
        return request, Some("Failed to update deal");
      }
      deals := ReplaceWhere(deals, DealKey, id, reply.value);
      thrown := None;
    }

    /** `deleteDeal`: drop every entry with that id once the server agrees. */
    method DeleteDeal(id: string, reply: Response<Deleted>) returns (thrown: Option<string>)
      modifies this`deals
      ensures reply.Ok? ==> thrown.None? && deals == RemoveWhere(old(deals), DealKey, id)
      ensures reply.Err? ==> thrown == Some("Failed to delete deal") && deals == old(deals)
    {
      if reply.Err? {
        return Some("Failed to delete deal");
      }
      deals := RemoveWhere(deals, DealKey, id);
      return None;
    }

    /** `moveDeal`: send `{ id, stage }` and replace the entry by the returned deal. */
    method MoveDeal(id: string, newStage: string, reply: Response<Deal>)
      returns (request: Payload, thrown: Option<string>)
      modifies this`deals
      ensures request == map["id" := Str(id), "stage" := Str(newStage)]
      ensures reply.Ok? ==> thrown.None? && deals == ReplaceWhere(old(deals), DealKey, id, reply.value)
      ensures reply.Err? ==> thrown == Some("Failed to move deal") && deals == old(deals)
    {
      request := map["id" := Str(id), "stage" := Str(newStage)];
      if reply.Err? {
        return request, Some("Failed to move deal");
      }
      deals := ReplaceWhere(deals, DealKey, id, reply.value);
      thrown := None;
    }

    // Task actions.

    /** `addTask`: append and return the created task; a refusal throws the server's message. */
    method AddTask(reply: Response<Task>) returns (created: Option<Task>, thrown: Option<string>)
      modifies this`tasks
      ensures reply.Ok? ==> created == Some(reply.value) && thrown.None? && tasks == old(tasks) + [reply.value]
      ensures reply.Err? ==>
        created.None? && thrown == Some(ThrownMessage(reply, "Failed to create task")) && tasks == old(tasks)
    {
      if reply.Err? {
        return None, Some(ThrownMessage(reply, "Failed to create task"));
      }
      tasks := tasks + [reply.value];
      return Some(reply.value), None;
    }

    /**
     * `updateTask`: an empty id throws before any request; otherwise the
     * reply, a whole task, is merged over every entry with that id.
     */
    method UpdateTask(id: string, fields: Payload, reply: Response<Task>)
      returns (request: Option<Payload>, thrown: Option<string>)
      modifies this`tasks
      ensures id == "" ==> request.None? && thrown == Some("Task ID is required") && tasks == old(tasks)
      ensures id != "" ==> request == Some(WithId(id, fields))
      ensures id != "" && reply.Err? ==>
        thrown == Some(ThrownMessage(reply, "Failed to update task")) && tasks == old(tasks)
      ensures id != "" && reply.Ok? ==> thrown.None? && tasks == ReplaceWhere(old(tasks), TaskKey, id, reply.value)
    {
      if id == "" {
        return None, Some("Task ID is required");
      }
      request := Some(WithId(id, fields));
      if reply.Err? {
        return request, Some(ThrownMessage(reply, "Failed to update task"));
      }
      tasks := ReplaceWhere(tasks, TaskKey, id, reply.value);
      thrown := None;
    }

    /** `deleteTask`: drop every entry with that id once the server agrees. */
    method DeleteTask(id: string, reply: Response<Deleted>) returns (thrown: Option<string>)
      modifies this`tasks
      ensures reply.Ok? ==> thrown.None? && tasks == RemoveWhere(old(tasks), TaskKey, id)
      ensures reply.Err? ==> thrown == Some(ThrownMessage(reply, "Failed to delete task")) && tasks == old(tasks)
    {
      if reply.Err? {
        return Some(ThrownMessage(reply, "Failed to delete task"));
      }
      tasks := RemoveWhere(tasks, TaskKey, id);
      return None;
    }

    /**
     * `toggleTaskStatus`: a task missing from the cache throws without a
     * request; otherwise `updateTask` is asked for the next status.
     */
    method ToggleTaskStatus(id: string, reply: Response<Task>) returns (request: Option<Payload>, thrown: Option<string>)
      modifies this`tasks
      ensures Find(old(tasks), KeyIs(TaskKey, id)).None? ==>
        request.None? && thrown == Some("Task not found") && tasks == old(tasks)
      ensures Find(old(tasks), KeyIs(TaskKey, id)).Some? && id != "" ==>
        var next := NextStatus(Find(old(tasks), KeyIs(TaskKey, id)).value.status);
        && request == Some(map["id" := Str(id), "status" := Str(next)])
        && (reply.Ok? ==> thrown.None? && tasks == ReplaceWhere(old(tasks), TaskKey, id, reply.value))
        && (reply.Err? ==> thrown == Some(ThrownMessage(reply, "Failed to update task")) && tasks == old(tasks))
      ensures id == "" ==> request.None? && thrown.Some? && tasks == old(tasks)
    {
      var task := Find(tasks, KeyIs(TaskKey, id));
      if task.None? {
        return None, Some("Task not found");
      }
      var fields := map["status" := Str(NextStatus(task.value.status))];
      assert WithId(id, fields) == map["id" := Str(id), "status" := Str(NextStatus(task.value.status))];
      request, thrown := UpdateTask(id, fields, reply);
    }

    // Activity actions: a failure is logged and swallowed, and the list is left as it was.

    method AddActivity(reply: Response<Activity>)
      modifies this`activities
      ensures activities == if reply.Ok? then old(activities) + [reply.value] else old(activities)
    {
      if reply.Ok? {
        activities := activities + [reply.value];
      }
    }

    method UpdateActivity(id: string, fields: Payload, reply: Response<Activity>) returns (request: Payload)
      modifies this`activities
      ensures request == WithId(id, fields)
      ensures activities ==
        if reply.Ok? then ReplaceWhere(old(activities), ActivityKey, id, reply.value) else old(activities)
    {
      request := WithId(id, fields);
      if reply.Ok? {
        activities := ReplaceWhere(activities, ActivityKey, id, reply.value);
      }
    }

    method DeleteActivity(id: string, reply: Response<Deleted>) returns (request: Payload)
      modifies this`activities
      ensures request == map["id" := Str(id)]
      ensures activities == if reply.Ok? then RemoveWhere(old(activities), ActivityKey, id) else old(activities)
    {
      request := map["id" := Str(id)];
      if reply.Ok? {
        activities := RemoveWhere(activities, ActivityKey, id);
      }
    }
  }

  /**
   * An update by id brings in no entry but the reply, and when the id was
   * cached and the reply keeps it, a later `find` by that id gives the reply.
   */
  lemma {:induction false} ReplaceThenFind<T(!new)>(s: seq<T>, key: T -> string, id: string, y: T)
    ensures forall x :: x in ReplaceWhere(s, key, id, y) ==> x == y || x in s
    ensures key(y) == id && (exists x :: x in s && key(x) == id) ==>
      Find(ReplaceWhere(s, key, id, y), KeyIs(key, id)) == Some(y)
  {
    var r := ReplaceWhere(s, key, id, y);
    forall x | x in r ensures x == y || x in s {
      var i :| 0 <= i < |r| && r[i] == x;
    }
    if key(y) == id && exists x :: x in s && key(x) == id {
      ReplaceFindsReply(s, key, id, y);
    }
  }

  /** A delete keeps the other entries in their order: deleting after appending a record with another id appends it after the delete. */
  lemma {:induction false} RemoveThenAppend<T(!new)>(s: seq<T>, key: T -> string, id: string, y: T)
    requires key(y) != id
    ensures RemoveWhere(s + [y], key, id) == RemoveWhere(s, key, id) + [y]
  {
    FilterAppend(s, [y], KeyIsNot(key, id));
    assert Filter([y], KeyIsNot(key, id)) == [y] by {
      assert [y][1..] == [];
    }
  }
}
