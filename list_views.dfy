/**
 * What the tasks and activities pages share: the filter chosen above a
 * list, and the lookups that show a contact's name and a deal's title
 * beside a record. Both pages define these lookups with the same code.
 */
module ListViews {
  import opened Wrappers
  import opened Domain
  import opened Seqs
  import opened Store

  /** The page's filter: every record, or those whose status or type is `value`. */
  datatype ListFilter = All | Only(value: string)

  /** The test the filter applies to one record, whose status or type `field` reads. */
  function Selects<T>(filter: ListFilter, field: T -> string): T -> bool {
    (x: T) => filter.All? || field(x) == filter.value
  }

  /** `list.filter(x => filter === 'all' ? true : x.field === filter)`. */
  function Shown<T(!new)>(s: seq<T>, filter: ListFilter, field: T -> string): (r: seq<T>)
    ensures forall x :: x in r <==> x in s && (filter.Only? ==> field(x) == filter.value)
    ensures filter.All? ==> r == s
    ensures filter.Only? && (forall x :: x in s ==> field(x) != filter.value) ==> r == []
  {
    var r := Filter(s, Selects(filter, field));
    if filter.All? then FilterAll(s, Selects(filter, field)); r
    else assert r != [] ==> r[0] in r; r
  }

  /** The shown part of a longer list is the shown part of each piece, in the same order. */
  lemma ShownAppend<T(!new)>(a: seq<T>, b: seq<T>, filter: ListFilter, field: T -> string)
    ensures Shown(a + b, filter, field) == Shown(a, filter, field) + Shown(b, filter, field)
  {
    FilterAppend(a, b, Selects(filter, field));
  }

  /** A single record is shown alone exactly when the filter selects it. */
  lemma ShownOne<T(!new)>(x: T, filter: ListFilter, field: T -> string)
    ensures Shown([x], filter, field) == if filter.All? || field(x) == filter.value then [x] else []
  {
    assert [x][1..] == [];
  }

  /**
   * When every record's field is one of three distinct values, the three
   * filters on those values split the list: their sizes add up to its size.
   */
  lemma {:induction false} ThreeFiltersCover<T(!new)>(s: seq<T>, field: T -> string, a: string, b: string, c: string)
    requires a != b && b != c && a != c
    requires forall x :: x in s ==> field(x) == a || field(x) == b || field(x) == c
    ensures |Shown(s, Only(a), field)| + |Shown(s, Only(b), field)| + |Shown(s, Only(c), field)| == |s|
  {
    if s != [] {
      assert s == [s[0]] + s[1..];
      assert s[0] in s;
      ThreeFiltersCover(s[1..], field, a, b, c);
      ShownAppend([s[0]], s[1..], Only(a), field);
      ShownAppend([s[0]], s[1..], Only(b), field);
      ShownAppend([s[0]], s[1..], Only(c), field);
      ShownOne(s[0], Only(a), field);
      ShownOne(s[0], Only(b), field);
      ShownOne(s[0], Only(c), field);
    }
  }

  /** `i` is the first index of `s` whose key is `id`. */
  ghost predicate FirstWithId<T>(s: seq<T>, key: T -> string, id: string, i: int) {
    0 <= i < |s| && key(s[i]) == id && forall j :: 0 <= j < i ==> key(s[j]) != id
  }

  /** `getContactName`: "" for no id and for an unknown id, otherwise the name of the first contact with that id. */
  function ContactName(contacts: seq<Contact>, contactId: Option<Id>): (name: string)
    ensures contactId.None? || contactId.value == "" ==> name == ""
    ensures contactId.Some? && (forall c :: c in contacts ==> c.id != contactId.value) ==> name == ""
    ensures contactId.Some? && contactId.value != "" ==>
      forall i :: FirstWithId(contacts, ContactKey, contactId.value, i) ==> name == contacts[i].name
  {
    if contactId.None? || contactId.value == "" then ""
    else
      var found := Find(contacts, KeyIs(ContactKey, contactId.value));
      assert forall i :: FirstWithId(contacts, ContactKey, contactId.value, i) ==> found == Some(contacts[i]) by {
        forall i | FirstWithId(contacts, ContactKey, contactId.value, i) ensures found == Some(contacts[i]) {
          FindIsFirst(contacts, KeyIs(ContactKey, contactId.value), i);
        }
      }
      if found.Some? then found.value.name else ""
  }

  /** `getDealTitle`: "" for no id and for an unknown id, otherwise the title of the first deal with that id. */
  function DealTitle(deals: seq<Deal>, dealId: Option<Id>): (title: string)
    ensures dealId.None? || dealId.value == "" ==> title == ""
    ensures dealId.Some? && (forall d :: d in deals ==> d.id != dealId.value) ==> title == ""
    ensures dealId.Some? && dealId.value != "" ==>
      forall i :: FirstWithId(deals, DealKey, dealId.value, i) ==> title == deals[i].title
  {
    if dealId.None? || dealId.value == "" then ""
    else
      var found := Find(deals, KeyIs(DealKey, dealId.value));
      assert forall i :: FirstWithId(deals, DealKey, dealId.value, i) ==> found == Some(deals[i]) by {
        forall i | FirstWithId(deals, DealKey, dealId.value, i) ensures found == Some(deals[i]) {
          FindIsFirst(deals, KeyIs(DealKey, dealId.value), i);
        }
      }
      if found.Some? then found.value.title else ""
  }
}
