/**
 * The tasks page: the status filter above the list, and the colour and
 * icon chosen for a task's status and priority, each with a fallback for
 * values outside the enums.
 */
module TasksPage {
  import opened Domain
  import opened ListViews

  function StatusOf(t: Task): string { t.status }

  /** `filteredTasks`: every task for `all`, otherwise exactly the tasks with the chosen status, in order. */
  function FilteredTasks(tasks: seq<Task>, filter: ListFilter): (r: seq<Task>)
    ensures filter.All? ==> r == tasks
    ensures forall t :: t in r <==> t in tasks && (filter.Only? ==> t.status == filter.value)
    ensures |r| <= |tasks|
  {
    Shown(tasks, filter, StatusOf)
  }

  /** When every status is one of the three, the TODO, IN_PROGRESS and DONE lists together hold every task. */
  lemma StatusFiltersCover(tasks: seq<Task>)
    requires forall t :: t in tasks ==> t.status in TaskStatuses
    ensures |FilteredTasks(tasks, Only("TODO"))| + |FilteredTasks(tasks, Only("IN_PROGRESS"))|
          + |FilteredTasks(tasks, Only("DONE"))| == |tasks|
  {
    ThreeFiltersCover(tasks, StatusOf, "TODO", "IN_PROGRESS", "DONE");
  }

  /** A filter on a value no task has, such as the lowercase "todo", shows nothing. */
  lemma UnknownStatusShowsNothing(tasks: seq<Task>, status: string)
    requires forall t :: t in tasks ==> t.status in TaskStatuses
    requires status !in TaskStatuses
    ensures FilteredTasks(tasks, Only(status)) == []
  {
  }

  const DefaultStatusColor := "bg-gray-100 text-gray-800"

  /** `getStatusColor`: a colour of its own for each of the three statuses, grey for anything else. */
  function StatusColor(status: string): (c: string)
    ensures status !in TaskStatuses ==> c == DefaultStatusColor
    ensures status in TaskStatuses ==> c != DefaultStatusColor
  {
    match status
    case "TODO" => "bg-yellow-100 text-yellow-800"
    case "IN_PROGRESS" => "bg-blue-100 text-blue-800"
    case "DONE" => "bg-green-100 text-green-800"
    case _ => DefaultStatusColor
  }

  /** No two statuses share a colour. */
  lemma StatusColorsDistinct(s1: string, s2: string)
    requires s1 in TaskStatuses && s2 in TaskStatuses && s1 != s2
    ensures StatusColor(s1) != StatusColor(s2)
  {
  }

  /** The three icons `getStatusIcon` draws. */
  datatype StatusIcon = XMark | Clock | CheckMark

  /** `getStatusIcon`: a cross for TODO and for every unknown status, a clock while in progress, a check when done. */
  function StatusIconOf(status: string): (icon: StatusIcon)
    ensures status !in TaskStatuses ==> icon == XMark
    ensures icon == XMark <==> status == "TODO" || status !in TaskStatuses
    ensures icon == Clock <==> status == "IN_PROGRESS"
    ensures icon == CheckMark <==> status == "DONE"
  {
    match status
    case "TODO" => XMark
    case "IN_PROGRESS" => Clock
    case "DONE" => CheckMark
    case _ => XMark
  }

  /** `getPriorityColor`: orange for MEDIUM, red for HIGH, grey for LOW and for anything else. */
  function PriorityColor(priority: string): (c: string)
    ensures priority !in TaskPriorities ==> c == "text-gray-600"
    ensures c == "text-gray-600" <==> priority != "MEDIUM" && priority != "HIGH"
    ensures c == "text-orange-600" <==> priority == "MEDIUM"
    ensures c == "text-red-600" <==> priority == "HIGH"
  {
    match priority
    case "LOW" => "text-gray-600"
    case "MEDIUM" => "text-orange-600"
    case "HIGH" => "text-red-600"
    case _ => "text-gray-600"
  }

  /** A priority the migration left lowercase, such as "medium", is drawn like LOW, not like MEDIUM. */
  lemma LowercaseMediumLooksLow()
    ensures PriorityColor("medium") == PriorityColor("LOW")
    ensures PriorityColor("medium") != PriorityColor("MEDIUM")
  {
  }
}
