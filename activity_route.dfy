/**
 * The `/api/activities` handlers: `validateActivityData`, and POST, PATCH
 * and DELETE. PATCH validates like POST and rewrites every column, so a
 * field the body leaves out is reset. An unknown id on PATCH or DELETE
 * falls through to the generic 500 reply. The current time `now` and date
 * parsing are parameters.
 */
module ActivityRoute {
  import opened Wrappers
  import opened Json
  import opened Domain

  /** Every rule `validateActivityData` checks; only the type is required. */
  ghost predicate ActivityRules(data: Payload) {
    && StrIn(Get(data, "type"), ActivityTypes)
    && FalsyOrStr(Get(data, "description"))
    && FalsyOrStr(Get(data, "date"))
    && FalsyOrStr(Get(data, "contactId"))
    && FalsyOrStr(Get(data, "dealId"))
  }

  /** `validateActivityData(data)`: the message of the first rule `data` breaks. */
  function ValidateActivityData(data: Payload): (r: Check)
    ensures r.Pass? <==> ActivityRules(data)
  {
    var kind, description, date := Get(data, "type"), Get(data, "description"), Get(data, "date");
    var contactId, dealId := Get(data, "contactId"), Get(data, "dealId");
    if !Truthy(kind) || !StrIn(kind, ActivityTypes) then Fail("Type must be one of: email, call, meeting")
    else if Truthy(description) && !IsStr(description) then Fail("Description must be a string")
    else if Truthy(date) && !IsStr(date) then Fail("Date must be a valid date")
    else if Truthy(contactId) && !IsStr(contactId) then Fail("Contact ID must be a string")
    else if Truthy(dealId) && !IsStr(dealId) then Fail("Deal ID must be a string")
    else Pass
  }

  /** The type is checked first: a body with a bad type reports the type, whatever else is wrong with it. */
  lemma TypeReportedFirst(data: Payload)
    requires !StrIn(Get(data, "type"), ActivityTypes)
    ensures ValidateActivityData(data) == Fail("Type must be one of: email, call, meeting")
  {
  }

  /** The record `create` and `update` are given: defaults for every falsy field. */
  function ActivityFrom(id: Id, data: Payload, now: int, parseDate: string -> int): (a: Activity)
    requires ActivityRules(data)
    ensures a.id == id && Get(data, "type") == Some(Str(a.kind)) && a.kind in ActivityTypes
    ensures Truthy(Get(data, "description")) ==> Get(data, "description") == Some(Str(a.description))
    ensures !Truthy(Get(data, "description")) ==> a.description == ""
    ensures Truthy(Get(data, "date")) ==> a.date == parseDate(TextOf(Get(data, "date")))
    ensures !Truthy(Get(data, "date")) ==> a.date == now
    ensures a.contactId.None? <==> !Truthy(Get(data, "contactId"))
    ensures a.contactId.Some? ==> Get(data, "contactId") == Some(Str(a.contactId.value))
    ensures a.dealId.None? <==> !Truthy(Get(data, "dealId"))
    ensures a.dealId.Some? ==> Get(data, "dealId") == Some(Str(a.dealId.value))
  {
    var date := Get(data, "date");
    Activity(
      id,
      TextOf(Get(data, "type")),
      OrElse(Get(data, "description"), ""),
      if Truthy(date) then parseDate(TextOf(date)) else now,
      OrNull(Get(data, "contactId")),
      OrNull(Get(data, "dealId")))
  }

  /** POST: validate, then create; a reference to a missing row is refused by the database. */
  method PostActivity(db: Db, data: Payload, newId: Id, now: int, parseDate: string -> int)
    returns (res: Response<Activity>, db': Db)
    requires newId !in db.activities
    ensures res.Err? ==> db' == db
    ensures ValidateActivityData(data).Fail? ==> res == Err(400, ValidateActivityData(data).error)
    ensures ValidateActivityData(data).Pass? && !RefsExist(db, ActivityFrom(newId, data, now, parseDate)) ==>
      res == Err(500, "Failed to create activity")
    ensures res.Ok? <==> ValidateActivityData(data).Pass? && RefsExist(db, ActivityFrom(newId, data, now, parseDate))
    ensures res.Ok? ==> res.value == ActivityFrom(newId, data, now, parseDate)
    ensures res.Ok? ==> db' == db.(activities := db.activities[newId := res.value])
    ensures WellFormed(db) ==> WellFormed(db')
    ensures ActivitiesLinked(db) ==> ActivitiesLinked(db')
  {
    var validation := ValidateActivityData(data);
    if validation.Fail? {
      return Err(400, validation.error), db;
    }
    var activity := ActivityFrom(newId, data, now, parseDate);
    if !RefsExist(db, activity) {
      return Err(500, "Failed to create activity"), db;
    }
    return Ok(activity), db.(activities := db.activities[newId := activity]);
  }

  /** PATCH: id, then the create rules on the rest of the body, then a full rewrite of the stored activity. */
  method PatchActivity(db: Db, body: Payload, now: int, parseDate: string -> int)
    returns (res: Response<Activity>, db': Db)
    ensures res.Err? ==> db' == db
    ensures IdOf(Get(body, "id")).NoId? ==> res == Err(400, "Activity ID is required")
    ensures !IdOf(Get(body, "id")).NoId? && ValidateActivityData(Fields(body)).Fail? ==>
      res == Err(400, ValidateActivityData(Fields(body)).error)
    ensures !IdOf(Get(body, "id")).NoId? && ValidateActivityData(Fields(body)).Pass? ==>
      && (IdOf(Get(body, "id")).NotAnId? ==> res == Err(500, "Failed to update activity"))
      && (IdOf(Get(body, "id")).Id? && IdOf(Get(body, "id")).id !in db.activities ==>
            res == Err(500, "Failed to update activity"))
    ensures res.Ok? <==>
      && IdOf(Get(body, "id")).Id? && ValidateActivityData(Fields(body)).Pass?
      && IdOf(Get(body, "id")).id in db.activities
      && RefsExist(db, ActivityFrom(IdOf(Get(body, "id")).id, Fields(body), now, parseDate))
    ensures res.Ok? ==> var id := IdOf(Get(body, "id")).id;
      && res.value == ActivityFrom(id, Fields(body), now, parseDate)
      && db' == db.(activities := db.activities[id := res.value])
    ensures WellFormed(db) ==> WellFormed(db')
    ensures ActivitiesLinked(db) ==> ActivitiesLinked(db')
  {
    var id := IdOf(Get(body, "id"));
    if id.NoId? {
      return Err(400, "Activity ID is required"), db;
    }
    var data := Fields(body);
    var validation := ValidateActivityData(data);
    if validation.Fail? {
      return Err(400, validation.error), db;
    }
    if id.NotAnId? || id.id !in db.activities {
      return Err(500, "Failed to update activity"), db;
    }
    var activity := ActivityFrom(id.id, data, now, parseDate);
    if !RefsExist(db, activity) {
      return Err(500, "Failed to update activity"), db;
    }
    return Ok(activity), db.(activities := db.activities[id.id := activity]);
  }

  /** PATCH keeps nothing of the stored activity but its id: a field the body leaves out gets its create default. */
  lemma PatchResetsOmittedFields(id: Id, body: Payload, now: int, parseDate: string -> int, a1: Activity)
    requires ActivityRules(Fields(body))
    requires a1 == ActivityFrom(id, Fields(body), now, parseDate)
    ensures "description" !in body ==> a1.description == ""
    ensures "date" !in body ==> a1.date == now
    ensures "contactId" !in body ==> a1.contactId.None?
    ensures "dealId" !in body ==> a1.dealId.None?
  {
    assert forall k :: k != "id" ==> Get(Fields(body), k) == Get(body, k);
  }

  /** DELETE `{ id }`: only a missing id gets its own reply; a bad or unknown id gets the generic one. */
  method DeleteActivity(db: Db, body: Payload) returns (res: Response<Deleted>, db': Db)
    ensures IdOf(Get(body, "id")).NoId? ==> res == Err(400, "Activity ID is required")
    ensures IdOf(Get(body, "id")).NotAnId? ==> res == Err(500, "Failed to delete activity")
    ensures IdOf(Get(body, "id")).Id? && IdOf(Get(body, "id")).id !in db.activities ==>
      res == Err(500, "Failed to delete activity")
    ensures res.Ok? <==> IdOf(Get(body, "id")).Id? && IdOf(Get(body, "id")).id in db.activities
    ensures res.Err? ==> db' == db
    ensures res.Ok? ==> db' == db.(activities := db.activities - {IdOf(Get(body, "id")).id})
    ensures WellFormed(db) ==> WellFormed(db')
    ensures ActivitiesLinked(db) ==> ActivitiesLinked(db')
  {
    var id := IdOf(Get(body, "id"));
    if id.NoId? {
      return Err(400, "Activity ID is required"), db;
    }
    if id.NotAnId? || id.id !in db.activities {
      return Err(500, "Failed to delete activity"), db;
    }
    return Ok(Deleted), db.(activities := db.activities - {id.id});
  }
}
