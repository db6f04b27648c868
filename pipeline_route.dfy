/**
 * The `/api/pipeline` handlers: `validateDealData`, deal creation with its
 * defaults, the stage move of PATCH and DELETE. The deal table's value
 * column is taken to default to 0 when POST gives no value.
 */
module PipelineRoute {
  import opened Wrappers
  import opened Json
  import opened Domain

  /** Every rule `validateDealData` checks. */
  ghost predicate DealRules(data: Payload) {
    && NonEmptyStr(Get(data, "title"))
    && (Get(data, "value").None? || (Get(data, "value").value.Num? && Get(data, "value").value.n >= 0))
    && FalsyOrIn(Get(data, "stage"), DealStages)
    && FalsyOrStr(Get(data, "contactId"))
  }

  /** `validateDealData(data)`: the message of the first rule `data` breaks. */
  function ValidateDealData(data: Payload): (r: Check)
    ensures r.Pass? <==> DealRules(data)
  {
    var title, value := Get(data, "title"), Get(data, "value");
    var stage, contactId := Get(data, "stage"), Get(data, "contactId");
    if !Truthy(title) || !IsStr(title) then Fail("Title is required and must be a string")
    else if value.Some? && (!value.value.Num? || value.value.n < 0) then Fail("Value must be a non-negative number")
    else if Truthy(stage) && !StrIn(stage, DealStages) then Fail("Invalid stage value")
    else if Truthy(contactId) && !IsStr(contactId) then Fail("Contact ID must be a string")
    else Pass
  }

  /** A null value is not a number, so it is refused even though it is falsy. */
  lemma NullValueRefused(data: Payload)
    requires NonEmptyStr(Get(data, "title"))
    requires Get(data, "value") == Some(Null)
    ensures ValidateDealData(data) == Fail("Value must be a non-negative number")
  {
  }

  /** The deal value a POST stores: the body's number, or the column default 0. */
  function ValueOf(v: Option<Value>): (n: int)
    requires v.None? || v.value.Num?
    ensures v.Some? ==> v == Some(Num(n))
    ensures v.None? ==> n == 0
  {
    if v.None? then 0 else v.value.n
  }

  /** Every deal has a value of at least 0. */
  ghost predicate ValuesNonNegative(db: Db) {
    forall k :: k in db.deals ==> db.deals[k].value >= 0
  }

  /** Every deal's stage is one of the four pipeline stages. */
  ghost predicate StagesValid(db: Db) {
    forall k :: k in db.deals ==> db.deals[k].stage in DealStages
  }

  /** POST: validate, check the contact a non-empty `contactId` names, then create in stage `lead` unless told otherwise. */
  method PostDeal(db: Db, data: Payload, newId: Id) returns (res: Response<Deal>, db': Db)
    requires newId !in db.deals
    ensures res.Err? ==> db' == db
    ensures ValidateDealData(data).Fail? ==> res == Err(400, ValidateDealData(data).error)
    ensures ValidateDealData(data).Pass? && NamesUnknown(Get(data, "contactId"), db.contacts.Keys) ==>
      res == Err(404, "Contact not found")
    ensures res.Ok? <==> ValidateDealData(data).Pass? && !NamesUnknown(Get(data, "contactId"), db.contacts.Keys)
    ensures res.Ok? ==> db' == db.(deals := db.deals[newId := res.value])
    ensures res.Ok? ==> var d := res.value;
      && d.id == newId
      && Get(data, "title") == Some(Str(d.title)) && d.title != ""
      && d.value >= 0 && (Get(data, "value").Some? ==> Get(data, "value") == Some(Num(d.value)))
      && d.stage in DealStages
      && (Truthy(Get(data, "stage")) ==> Get(data, "stage") == Some(Str(d.stage)))
      && (!Truthy(Get(data, "stage")) ==> d.stage == "lead")
      && (d.contactId.None? <==> !Truthy(Get(data, "contactId")))
      && (d.contactId.Some? ==> Get(data, "contactId") == Some(Str(d.contactId.value)) && d.contactId.value in db.contacts)
      && d.description.None?
    ensures WellFormed(db) ==> WellFormed(db')
    ensures ValuesNonNegative(db) ==> ValuesNonNegative(db')
    ensures StagesValid(db) ==> StagesValid(db')
    ensures DealsLinked(db) ==> DealsLinked(db')
  {
    var validation := ValidateDealData(data);
    if validation.Fail? {
      return Err(400, validation.error), db;
    }
    var contactId := Get(data, "contactId");
    if Truthy(contactId) && TextOf(contactId) !in db.contacts {
      return Err(404, "Contact not found"), db;
    }
    var deal := Deal(
      newId,
      TextOf(Get(data, "title")),
      ValueOf(Get(data, "value")),
      OrElse(Get(data, "stage"), "lead"),
      OrNull(contactId),
      None);
    return Ok(deal), db.(deals := db.deals[newId := deal]);
  }

  /**
   * PATCH `{ id, stage }`: the id, then the deal, then a truthy stage must
   * be a member; `update({ data: { stage } })` then leaves the deal as it is
   * for an absent stage, writes any string (the empty one too), and is
   * refused by the database client for null, 0 or false.
   */
  method PatchDeal(db: Db, body: Payload) returns (res: Response<Deal>, db': Db)
    ensures res.Err? ==> db' == db
    ensures IdOf(Get(body, "id")).NoId? ==> res == Err(400, "Deal ID is required")
    ensures IdOf(Get(body, "id")).NotAnId? ==> res == Err(500, "Failed to update deal")
    ensures IdOf(Get(body, "id")).Id? ==>
      var id, stage := IdOf(Get(body, "id")).id, Get(body, "stage");
      && (id !in db.deals ==> res == Err(404, "Deal not found"))
      && (id in db.deals && Truthy(stage) && !StrIn(stage, DealStages) ==> res == Err(400, "Invalid stage value"))
      && (id in db.deals && !Truthy(stage) && stage.Some? && !IsStr(stage) ==> res == Err(500, "Failed to update deal"))
      && (id in db.deals && (stage.None? || IsStr(stage)) && (Truthy(stage) ==> StrIn(stage, DealStages)) ==>
            res.Ok? && db' == db.(deals := db.deals[id := res.value]))
    ensures res.Ok? ==> var id := IdOf(Get(body, "id")).id;
      && IdOf(Get(body, "id")).Id? && id in db.deals
      && res.value == db.deals[id].(stage := res.value.stage)
      && (Get(body, "stage").None? ==> res.value == db.deals[id])
      && (Get(body, "stage").Some? ==> Get(body, "stage") == Some(Str(res.value.stage)))
    ensures WellFormed(db) ==> WellFormed(db')
    ensures ValuesNonNegative(db) ==> ValuesNonNegative(db')
    ensures DealsLinked(db) ==> DealsLinked(db')
    ensures StagesValid(db) && Get(body, "stage") != Some(Str("")) ==> StagesValid(db')
  {
    var id := IdOf(Get(body, "id"));
    if id.NoId? {
      return Err(400, "Deal ID is required"), db;
    }
    if id.NotAnId? {
      return Err(500, "Failed to update deal"), db;
    }
    if id.id !in db.deals {
      return Err(404, "Deal not found"), db;
    }
    var stage := Get(body, "stage");
    if Truthy(stage) && !StrIn(stage, DealStages) {
      return Err(400, "Invalid stage value"), db;
    }
    var deal := db.deals[id.id];
    if stage.Some? {
      if !IsStr(stage) {
        return Err(500, "Failed to update deal"), db;
      }
      deal := deal.(stage := TextOf(stage));
    }
    return Ok(deal), db.(deals := db.deals[id.id := deal]);
  }

  /** DELETE `{ id }`: the id, then the deal; a non-string id is refused by the database client. */
  method DeleteDeal(db: Db, body: Payload) returns (res: Response<Deleted>, db': Db)
    ensures IdOf(Get(body, "id")).NoId? ==> res == Err(400, "Deal ID is required")
    ensures IdOf(Get(body, "id")).NotAnId? ==> res == Err(500, "Failed to delete deal")
    ensures IdOf(Get(body, "id")).Id? && IdOf(Get(body, "id")).id !in db.deals ==> res == Err(404, "Deal not found")
    ensures res.Ok? <==> IdOf(Get(body, "id")).Id? && IdOf(Get(body, "id")).id in db.deals
    ensures res.Err? ==> db' == db
    ensures res.Ok? ==> db' == db.(deals := db.deals - {IdOf(Get(body, "id")).id})
    ensures WellFormed(db) ==> WellFormed(db')
    ensures ValuesNonNegative(db) ==> ValuesNonNegative(db')
    ensures StagesValid(db) ==> StagesValid(db')
    ensures DealsLinked(db) ==> DealsLinked(db')
    ensures ActivitiesLinked(db) && (res.Ok? ==> DealUnreferenced(db, IdOf(Get(body, "id")).id)) ==>
      ActivitiesLinked(db')
  {
    var id := IdOf(Get(body, "id"));
    if id.NoId? {
      return Err(400, "Deal ID is required"), db;
    }
    if id.NotAnId? {
      return Err(500, "Failed to delete deal"), db;
    }
    if id.id !in db.deals {
      return Err(404, "Deal not found"), db;
    }
    return Ok(Deleted), db.(deals := db.deals - {id.id});
  }
}
