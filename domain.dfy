/**
 * The four record kinds of the CRM, the responses the route handlers give,
 * and the record store the handlers read and write. Timestamps
 * (`createdAt`, `updatedAt`, `lastContact`) are not modelled; dates are
 * integers (milliseconds since the epoch).
 */
module Domain {
  import opened Wrappers

  type Id = string

  /** Closed value sets, as the handlers and pages spell them. */
  const TaskStatuses: set<string> := {"TODO", "IN_PROGRESS", "DONE"}
  const TaskPriorities: set<string> := {"LOW", "MEDIUM", "HIGH"}
  const ContactStatuses: set<string> := {"active", "inactive", "lead", "customer", "prospect"}
  const DealStages: set<string> := {"lead", "proposal", "negotiation", "closed"}
  const ActivityTypes: set<string> := {"email", "call", "meeting"}

  datatype Contact = Contact(
    id: Id,
    name: string,
    email: string,
    phone: Option<string>,
    company: Option<string>,
    position: Option<string>,
    status: string)

  datatype Deal = Deal(
    id: Id,
    title: string,
    value: int,
    stage: string,
    contactId: Option<Id>,
    description: Option<string>)

  datatype Task = Task(
    id: Id,
    title: string,
    description: Option<string>,
    dueDate: int,
    status: string,
    priority: string,
    contactId: Option<Id>)

  datatype Activity = Activity(
    id: Id,
    kind: string,  // the `type` column
    description: string,
    date: int,
    contactId: Option<Id>,
    dealId: Option<Id>)

  /** A handler's reply: the JSON body with status 200, or `{ error }` with a status code. */
  datatype Response<+T> = Ok(value: T) | Err(code: int, message: string)

  /** The body `{ success: true }` of a successful DELETE. */
  datatype Deleted = Deleted

  /** The outcome of a validator: the first violated rule's message, if any. */
  datatype Check = Pass | Fail(error: string)

  /** The record store behind the handlers: one table per record kind, keyed by id. */
  datatype Db = Db(
    contacts: map<Id, Contact>,
    deals: map<Id, Deal>,
    tasks: map<Id, Task>,
    activities: map<Id, Activity>)

  /** Every record is stored under its own id. */
  ghost predicate WellFormed(db: Db) {
    && (forall k :: k in db.contacts ==> db.contacts[k].id == k)
    && (forall k :: k in db.deals ==> db.deals[k].id == k)
    && (forall k :: k in db.tasks ==> db.tasks[k].id == k)
    && (forall k :: k in db.activities ==> db.activities[k].id == k)
  }

  // References between tables. The handlers check a contact before they
  // link to it; the database refuses a link to a row that is not stored.

  /** The references of an activity name stored rows. */
  predicate RefsExist(db: Db, a: Activity) {
    && (a.contactId.Some? ==> a.contactId.value in db.contacts)
    && (a.dealId.Some? ==> a.dealId.value in db.deals)
  }

  /** Every task that names a contact names a stored one. */
  ghost predicate TasksLinked(db: Db) {
    forall k :: k in db.tasks ==> db.tasks[k].contactId.Some? ==> db.tasks[k].contactId.value in db.contacts
  }

  /** Every deal that names a contact names a stored one. */
  ghost predicate DealsLinked(db: Db) {
    forall k :: k in db.deals ==> db.deals[k].contactId.Some? ==> db.deals[k].contactId.value in db.contacts
  }

  /** Every stored activity refers only to stored contacts and deals. */
  ghost predicate ActivitiesLinked(db: Db) {
    forall k :: k in db.activities ==> RefsExist(db, db.activities[k])
  }

  /** No task, deal or activity names the contact `id`. */
  ghost predicate ContactUnreferenced(db: Db, id: Id) {
    && (forall k :: k in db.tasks ==> db.tasks[k].contactId != Some(id))
    && (forall k :: k in db.deals ==> db.deals[k].contactId != Some(id))
    && (forall k :: k in db.activities ==> db.activities[k].contactId != Some(id))
  }

  /** No activity names the deal `id`. */
  ghost predicate DealUnreferenced(db: Db, id: Id) {
    forall k :: k in db.activities ==> db.activities[k].dealId != Some(id)
  }
}
