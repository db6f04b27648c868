/**
 * The `/api/contacts` handlers: `validateContactData`, the email
 * uniqueness rule of POST and PATCH, the defaults of a new contact, and
 * the not-found replies.
 */
module ContactRoute {
  import opened Wrappers
  import opened Json
  import opened Domain

  /** Every rule of create mode. */
  ghost predicate CreateRules(data: Payload) {
    NonEmptyStr(Get(data, "name")) && NonEmptyStr(Get(data, "email"))
  }

  /** Every rule of update mode: only the type of a present name or email is checked. */
  ghost predicate UpdateRules(data: Payload) {
    AbsentOrStr(Get(data, "name")) && AbsentOrStr(Get(data, "email"))
  }

  /** The rules both modes check last; each applies only to a truthy value. */
  ghost predicate CommonRules(data: Payload) {
    && FalsyOrStr(Get(data, "phone"))
    && FalsyOrStr(Get(data, "company"))
    && FalsyOrStr(Get(data, "position"))
    && FalsyOrIn(Get(data, "status"), ContactStatuses)
  }

  /** `validateContactData(data, isUpdate)`: the message of the first rule `data` breaks. */
  function ValidateContactData(data: Payload, isUpdate: bool): (r: Check)
    ensures r.Pass? <==> (if isUpdate then UpdateRules(data) else CreateRules(data)) && CommonRules(data)
  {
    var name, email := Get(data, "name"), Get(data, "email");
    var phone, company, position := Get(data, "phone"), Get(data, "company"), Get(data, "position");
    var status := Get(data, "status");
    var modeCheck :=
      if !isUpdate then
        if !Truthy(name) || !IsStr(name) then Fail("Name is required and must be a string")
        else if !Truthy(email) || !IsStr(email) then Fail("Email is required and must be a string")
        else Pass
      else
        if name.Some? && !IsStr(name) then Fail("Name must be a string")
        else if email.Some? && !IsStr(email) then Fail("Email must be a string")
        else Pass;
    if modeCheck.Fail? then modeCheck
    else if Truthy(phone) && !IsStr(phone) then Fail("Phone must be a string")
    else if Truthy(company) && !IsStr(company) then Fail("Company must be a string")
    else if Truthy(position) && !IsStr(position) then Fail("Position must be a string")
    else if Truthy(status) && !StrIn(status, ContactStatuses) then Fail("Invalid status value")
    else Pass
  }

  /** Update mode accepts empty strings for name and email; create mode refuses them. */
  lemma EmptyNameOnlyPassesUpdate(data: Payload)
    requires data == map["name" := Str(""), "email" := Str("")]
    ensures ValidateContactData(data, true) == Pass
    ensures ValidateContactData(data, false) == Fail("Name is required and must be a string")
  {
    assert Get(data, "phone").None? && Get(data, "status").None?;
  }

  /** A falsy status is never checked; a truthy one must be a member, so "Active" is refused. */
  lemma StatusCheckedOnlyWhenTruthy(data: Payload)
    requires UpdateRules(data)
    requires FalsyOrStr(Get(data, "phone")) && FalsyOrStr(Get(data, "company")) && FalsyOrStr(Get(data, "position"))
    ensures !Truthy(Get(data, "status")) ==> ValidateContactData(data, true) == Pass
    ensures Get(data, "status") == Some(Str("Active")) ==> ValidateContactData(data, true) == Fail("Invalid status value")
  {
  }

  /** `findFirst({ where: { email, NOT: { id: except } } })` finds a contact. */
  predicate EmailTaken(contacts: map<Id, Contact>, email: string, except: Option<Id>) {
    exists c :: c in contacts.Values && c.email == email && Some(c.id) != except
  }

  /** Two different contacts share an email only when that email is empty. */
  ghost predicate EmailsUnique(db: Db) {
    forall a, b :: a in db.contacts && b in db.contacts && a != b && db.contacts[a].email == db.contacts[b].email
      ==> db.contacts[a].email == ""
  }

  /** Storing `c` under `k` keeps emails unique when no other contact has its non-empty email. */
  lemma {:induction false} WriteKeepsEmailsUnique(db: Db, k: Id, c: Contact)
    requires EmailsUnique(db)
    requires c.email == "" || forall o :: o in db.contacts && o != k ==> db.contacts[o].email != c.email
    ensures EmailsUnique(db.(contacts := db.contacts[k := c]))
  {
    var m := db.contacts[k := c];
    forall a, b | a in m && b in m && a != b && m[a].email == m[b].email
      ensures m[a].email == ""
    {
      if a != k && b != k {
        assert db.contacts[a].email == db.contacts[b].email;
      }
    }
  }

  /** No contact other than the one with id `except` has this email. */
  lemma NotTaken(db: Db, email: string, except: Option<Id>)
    requires WellFormed(db)
    requires !EmailTaken(db.contacts, email, except)
    ensures forall o :: o in db.contacts && Some(o) != except ==> db.contacts[o].email != email
  {
    forall o | o in db.contacts && Some(o) != except
      ensures db.contacts[o].email != email
    {
      assert db.contacts[o] in db.contacts.Values;
    }
  }

  /** A contact created with an email no stored contact has keeps emails unique. */
  lemma CreateKeepsEmailsUnique(db: Db, k: Id, c: Contact)
    ensures WellFormed(db) && EmailsUnique(db) && !EmailTaken(db.contacts, c.email, None) ==>
      EmailsUnique(db.(contacts := db.contacts[k := c]))
  {
    if WellFormed(db) && EmailsUnique(db) && !EmailTaken(db.contacts, c.email, None) {
      NotTaken(db, c.email, None);
      WriteKeepsEmailsUnique(db, k, c);
    }
  }

  /** POST: validate, refuse an email any contact already has, then create with defaults. */
  method PostContact(db: Db, data: Payload, newId: Id) returns (res: Response<Contact>, db': Db)
    requires newId !in db.contacts
    ensures res.Err? ==> db' == db
    ensures ValidateContactData(data, false).Fail? ==> res == Err(400, ValidateContactData(data, false).error)
    ensures ValidateContactData(data, false).Pass? ==>
      (EmailTaken(db.contacts, TextOf(Get(data, "email")), None) <==> res == Err(400, "A contact with this email already exists"))
    ensures res.Ok? <==> ValidateContactData(data, false).Pass? && !EmailTaken(db.contacts, TextOf(Get(data, "email")), None)
    ensures res.Ok? ==> db' == db.(contacts := db.contacts[newId := res.value])
    ensures res.Ok? ==> var c := res.value;
      && c.id == newId
      && Get(data, "name") == Some(Str(c.name)) && Get(data, "email") == Some(Str(c.email)) && c.email != ""
      && (c.phone.None? <==> !Truthy(Get(data, "phone")))
      && (c.phone.Some? ==> Get(data, "phone") == Some(Str(c.phone.value)))
      && (c.company.None? <==> !Truthy(Get(data, "company")))
      && (c.company.Some? ==> Get(data, "company") == Some(Str(c.company.value)))
      && (c.position.None? <==> !Truthy(Get(data, "position")))
      && (c.position.Some? ==> Get(data, "position") == Some(Str(c.position.value)))
      && (Truthy(Get(data, "status")) ==> Get(data, "status") == Some(Str(c.status)))
      && (!Truthy(Get(data, "status")) ==> c.status == "active")
      && c.status in ContactStatuses
    ensures WellFormed(db) ==> WellFormed(db')
    ensures WellFormed(db) && EmailsUnique(db) ==> EmailsUnique(db')
  {
    var validation := ValidateContactData(data, false);
    if validation.Fail? {
      return Err(400, validation.error), db;
    }
    var email := TextOf(Get(data, "email"));
    if EmailTaken(db.contacts, email, None) {
      return Err(400, "A contact with this email already exists"), db;
    }
    var contact := Contact(
      newId,
      TextOf(Get(data, "name")),
      email,
      OrNull(Get(data, "phone")),
      OrNull(Get(data, "company")),
      OrNull(Get(data, "position")),
      OrElse(Get(data, "status"), "active"));
    CreateKeepsEmailsUnique(db, newId, contact);
    return Ok(contact), db.(contacts := db.contacts[newId := contact]);
  }

  /** The columns `data: updateData` can write: the database client refuses a falsy non-string value. */
  ghost predicate Storable(data: Payload) {
    && AbsentOrStr(Get(data, "name"))
    && AbsentOrStr(Get(data, "email"))
    && AbsentNullOrStr(Get(data, "phone"))
    && AbsentNullOrStr(Get(data, "company"))
    && AbsentNullOrStr(Get(data, "position"))
    && AbsentOrStr(Get(data, "status"))
  }

  /** What PATCH writes: each column the body names takes the body's value, the others keep theirs. */
  ghost predicate PatchedFrom(before: Contact, after: Contact, data: Payload) {
    && after.id == before.id
    && (if "name" in data then data["name"] == Str(after.name) else after.name == before.name)
    && (if "email" in data then data["email"] == Str(after.email) else after.email == before.email)
    && (if "phone" in data then data["phone"] == AsValue(after.phone) else after.phone == before.phone)
    && (if "company" in data then data["company"] == AsValue(after.company) else after.company == before.company)
    && (if "position" in data then data["position"] == AsValue(after.position)
        else after.position == before.position)
    && (if "status" in data then data["status"] == Str(after.status) else after.status == before.status)
  }

  /** `prisma.contact.update({ data: updateData })` on the stored contact. */
  method ApplyContactUpdate(contact: Contact, data: Payload) returns (updated: Contact)
    requires Storable(data)
    ensures PatchedFrom(contact, updated, data)
  {
    updated := contact;
    if "name" in data {
      updated := updated.(name := TextOf(Get(data, "name")));
    }
    if "email" in data {
      updated := updated.(email := TextOf(Get(data, "email")));
    }
    if "phone" in data {
      updated := updated.(phone := NullableText(Get(data, "phone")));
    }
    if "company" in data {
      updated := updated.(company := NullableText(Get(data, "company")));
    }
    if "position" in data {
      updated := updated.(position := NullableText(Get(data, "position")));
    }
    if "status" in data {
      updated := updated.(status := TextOf(Get(data, "status")));
    }
  }

  /** The PATCH email rule fires: a truthy new email that a contact other than `id` has. */
  predicate EmailClash(db: Db, id: Id, data: Payload)
    requires UpdateRules(data)
  {
    var email := Get(data, "email");
    Truthy(email) && EmailTaken(db.contacts, TextOf(email), Some(id))
  }

  /**
   * What PATCH does once the id is a string and the body passed validation:
   * the email rule, then the database client's type check, then the update
   * of an existing contact.
   */
  ghost predicate UpdatedById(db: Db, id: Id, data: Payload, res: Response<Contact>, db': Db)
    requires UpdateRules(data)
  {
    && (res.Err? ==> db' == db)
    && (EmailClash(db, id, data) ==> res == Err(400, "A contact with this email already exists"))
    && (!EmailClash(db, id, data) && !Storable(data) ==> res == Err(500, "Failed to update contact"))
    && (!EmailClash(db, id, data) && Storable(data) && id !in db.contacts ==> res == Err(404, "Contact not found"))
    && (res.Ok? <==> !EmailClash(db, id, data) && Storable(data) && id in db.contacts)
    && (res.Ok? ==> db' == db.(contacts := db.contacts[id := res.value]) && PatchedFrom(db.contacts[id], res.value, data))
  }

  /** A PATCH the email rule lets through keeps emails unique: a new email is no one else's, an unchanged one was unique already. */
  lemma PatchKeepsEmailsUnique(db: Db, id: Id, data: Payload, contact: Contact)
    requires UpdateRules(data) && !EmailClash(db, id, data)
    requires id in db.contacts && PatchedFrom(db.contacts[id], contact, data)
    ensures WellFormed(db) && EmailsUnique(db) ==> EmailsUnique(db.(contacts := db.contacts[id := contact]))
  {
    if !(WellFormed(db) && EmailsUnique(db)) {
      return;
    }
    if Truthy(Get(data, "email")) {
      NotTaken(db, TextOf(Get(data, "email")), Some(id));
    }
    WriteKeepsEmailsUnique(db, id, contact);
  }

  /** The part of PATCH after validation: the email rule, then `prisma.contact.update`. */
  method UpdateContactById(db: Db, id: Id, data: Payload) returns (res: Response<Contact>, db': Db)
    requires UpdateRules(data)
    ensures UpdatedById(db, id, data, res, db')
    ensures WellFormed(db) ==> WellFormed(db')
    ensures WellFormed(db) && EmailsUnique(db) ==> EmailsUnique(db')
  {
    var email := Get(data, "email");
    if Truthy(email) && EmailTaken(db.contacts, TextOf(email), Some(id)) {
      return Err(400, "A contact with this email already exists"), db;
    }
    if !(AbsentNullOrStr(Get(data, "phone")) && AbsentNullOrStr(Get(data, "company"))
         && AbsentNullOrStr(Get(data, "position")) && AbsentOrStr(Get(data, "status"))) {
      return Err(500, "Failed to update contact"), db;
    }
    if id !in db.contacts {
      return Err(404, "Contact not found"), db;
    }
    var contact := ApplyContactUpdate(db.contacts[id], data);
    PatchKeepsEmailsUnique(db, id, data, contact);
    return Ok(contact), db.(contacts := db.contacts[id := contact]);
  }

  /** PATCH: id, then the update-mode rules (only when the body has more than the id), then the update. */
  method PatchContact(db: Db, body: Payload) returns (res: Response<Contact>, db': Db)
    ensures res.Err? ==> db' == db
    ensures IdOf(Get(body, "id")).NoId? ==> res == Err(400, "Contact ID is required")
    ensures !IdOf(Get(body, "id")).NoId? && ValidateContactData(Fields(body), true).Fail? ==>
      res == Err(400, ValidateContactData(Fields(body), true).error)
    ensures IdOf(Get(body, "id")).NotAnId? && ValidateContactData(Fields(body), true).Pass? ==>
      res == Err(500, "Failed to update contact")
    ensures IdOf(Get(body, "id")).Id? && ValidateContactData(Fields(body), true).Pass? ==>
      UpdatedById(db, IdOf(Get(body, "id")).id, Fields(body), res, db')
    ensures WellFormed(db) ==> WellFormed(db')
    ensures WellFormed(db) && EmailsUnique(db) ==> EmailsUnique(db')
  {
    var id := IdOf(Get(body, "id"));
    if id.NoId? {
      return Err(400, "Contact ID is required"), db;
    }
    var data := Fields(body);
    if |data| > 0 {
      var validation := ValidateContactData(data, true);
      if validation.Fail? {
        return Err(400, validation.error), db;
      }
    } else {
      ValidatingNothingPasses(data);
    }
    if id.NotAnId? {
      return Err(500, "Failed to update contact"), db;
    }
    res, db' := UpdateContactById(db, id.id, data);
  }

  /** The `Object.keys(updateData).length > 0` guard changes nothing: a body with only an id passes validation anyway. */
  lemma ValidatingNothingPasses(data: Payload)
    requires |data| == 0
    ensures ValidateContactData(data, true) == Pass
  {
    assert data == map[];
  }

  /** DELETE `?id=`: a missing or empty id is refused, an unknown id is reported as not found. */
  method DeleteContact(db: Db, id: Option<string>) returns (res: Response<Deleted>, db': Db)
    ensures id.None? || id.value == "" ==> res == Err(400, "Contact ID is required")
    ensures id.Some? && id.value != "" && id.value !in db.contacts ==> res == Err(404, "Contact not found")
    ensures res.Ok? <==> id.Some? && id.value in db.contacts && id.value != ""
    ensures res.Err? ==> db' == db
    ensures res.Ok? ==> db' == db.(contacts := db.contacts - {id.value})
    ensures WellFormed(db) ==> WellFormed(db')
    ensures EmailsUnique(db) ==> EmailsUnique(db')
    ensures TasksLinked(db) && (res.Ok? ==> ContactUnreferenced(db, id.value)) ==> TasksLinked(db')
    ensures DealsLinked(db) && (res.Ok? ==> ContactUnreferenced(db, id.value)) ==> DealsLinked(db')
    ensures ActivitiesLinked(db) && (res.Ok? ==> ContactUnreferenced(db, id.value)) ==> ActivitiesLinked(db')
  {
    if id.None? || id.value == "" {
      return Err(400, "Contact ID is required"), db;
    }
    if id.value !in db.contacts {
      return Err(404, "Contact not found"), db;
    }
    return Ok(Deleted), db.(contacts := db.contacts - {id.value});
  }
}
