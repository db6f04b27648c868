/**
 * The one-off task migration: legacy status and priority values are mapped
 * onto the task enums, one update per stored task, and the reply reports
 * how many tasks were migrated. A `null` column is `None`.
 */
module Migrate {
  import opened Wrappers
  import opened Domain

  /** A stored task as the migration reads it: the columns may hold legacy values or null. */
  datatype LegacyTask = LegacyTask(id: Id, status: Option<string>, priority: Option<string>)

  /** The `update({ where: { id }, data: { status, priority } })` issued for one task. */
  datatype TaskUpdate = TaskUpdate(id: Id, status: string, priority: string)

  /** The success reply: `Successfully migrated ${count} tasks`. */
  datatype Report = Report(count: nat)

  /** `completed` becomes `DONE`, `pending` becomes `TODO`, null or empty becomes `TODO`; anything else stays. */
  function MigratedStatus(status: Option<string>): (r: string)
    ensures status == Some("completed") ==> r == "DONE"
    ensures status == Some("pending") ==> r == "TODO"
    ensures status.None? || status == Some("") ==> r == "TODO"
    ensures status.Some? && status.value !in {"completed", "pending", ""} ==> r == status.value
    ensures r != ""
  {
    match status
    case Some("completed") => "DONE"
    case Some("pending") => "TODO"
    case Some(s) => if s != "" then s else "TODO"
    case None => "TODO"
  }

  /** Null or empty becomes `MEDIUM`; anything else, lowercase included, stays as it is. */
  function MigratedPriority(priority: Option<string>): (r: string)
    ensures priority.None? || priority == Some("") ==> r == "MEDIUM"
    ensures priority.Some? && priority.value != "" ==> r == priority.value
    ensures r != ""
  {
    if priority.None? || priority.value == "" then "MEDIUM" else priority.value
  }

  /** A status the mapping produces maps to itself, and so does a priority. */
  lemma MappingIdempotent(status: Option<string>, priority: Option<string>)
    ensures MigratedStatus(Some(MigratedStatus(status))) == MigratedStatus(status)
    ensures MigratedPriority(Some(MigratedPriority(priority))) == MigratedPriority(priority)
  {
  }

  /** The update for one task. */
  function UpdateFor(task: LegacyTask): (u: TaskUpdate)
    ensures u.id == task.id
  {
    TaskUpdate(task.id, MigratedStatus(task.status), MigratedPriority(task.priority))
  }

  /** `tasks.map(...)`: one update per task, in order, and the count of tasks. */
  function Migration(tasks: seq<LegacyTask>): (r: (seq<TaskUpdate>, Report))
    ensures |r.0| == |tasks| && r.1.count == |tasks|
    ensures forall i :: 0 <= i < |tasks| ==> r.0[i].id == tasks[i].id
    ensures forall i :: 0 <= i < |tasks| ==> r.0[i].status == MigratedStatus(tasks[i].status)
    ensures forall i :: 0 <= i < |tasks| ==> r.0[i].priority == MigratedPriority(tasks[i].priority)
    ensures forall i :: 0 <= i < |tasks| ==> r.0[i].status in TaskStatuses || Some(r.0[i].status) == tasks[i].status
  {
    (seq(|tasks|, i requires 0 <= i < |tasks| => UpdateFor(tasks[i])), Report(|tasks|))
  }

  /** A stored task after its update. */
  function Applied(u: TaskUpdate): LegacyTask {
    LegacyTask(u.id, Some(u.status), Some(u.priority))
  }

  /** Running the migration on its own output issues the same updates again: it is idempotent. */
  lemma {:induction false} MigrationIdempotent(tasks: seq<LegacyTask>)
    ensures var once := Migration(tasks).0;
      Migration(seq(|once|, i requires 0 <= i < |once| => Applied(once[i]))).0 == once
  {
    var once := Migration(tasks).0;
    var stored := seq(|once|, i requires 0 <= i < |once| => Applied(once[i]));
    forall i | 0 <= i < |once| ensures Migration(stored).0[i] == once[i] {
      MappingIdempotent(tasks[i].status, tasks[i].priority);
    }
  }

  /** A legacy lowercase priority survives the migration unchanged. */
  lemma LowercasePriorityKept()
    ensures MigratedPriority(Some("medium")) == "medium"
    ensures "medium" !in TaskPriorities
  {
  }
}
