/**
 * The activities page: the type filter above the list and the colour each
 * type is drawn in. The contact and deal lookups are those of `ListViews`.
 */
module ActivitiesPage {
  import opened Wrappers
  import opened Domain
  import opened ListViews

  function KindOf(a: Activity): string { a.kind }

  /** `filteredActivities`: every activity for `all`, otherwise exactly those of the chosen type, in order. */
  function FilteredActivities(activities: seq<Activity>, filter: ListFilter): (r: seq<Activity>)
    ensures filter.All? ==> r == activities
    ensures forall a :: a in r <==> a in activities && (filter.Only? ==> a.kind == filter.value)
    ensures |r| <= |activities|
  {
    Shown(activities, filter, KindOf)
  }

  /** Activities created through the API have one of the three types, so the email, call and meeting lists hold them all. */
  lemma TypeFiltersCover(activities: seq<Activity>)
    requires forall a :: a in activities ==> a.kind in ActivityTypes
    ensures |FilteredActivities(activities, Only("email"))| + |FilteredActivities(activities, Only("call"))|
          + |FilteredActivities(activities, Only("meeting"))| == |activities|
  {
    ThreeFiltersCover(activities, KindOf, "email", "call", "meeting");
  }

  /** `activityColors[activity.type]`: a colour for each of the three types, undefined for any other. */
  function ActivityColor(kind: string): (c: Option<string>)
    ensures c.Some? <==> kind in ActivityTypes
  {
    match kind
    case "email" => Some("text-purple-600")
    case "call" => Some("text-blue-600")
    case "meeting" => Some("text-green-600")
    case _ => None
  }

  /** No two types share a colour, so the colour alone tells the type. */
  lemma ActivityColorsDistinct(k1: string, k2: string)
    requires k1 in ActivityTypes && k2 in ActivityTypes && k1 != k2
    ensures ActivityColor(k1) != ActivityColor(k2)
  {
  }
}
