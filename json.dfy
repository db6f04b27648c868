/** Optional values, used for JavaScript's `undefined`/`null` and for lookups. */
module Wrappers {
  datatype Option<+T> = None | Some(value: T)
}

/**
 * A parsed JSON request body, as far as the route handlers look at it.
 * `typeof` distinguishes exactly these shapes, and JavaScript truthiness
 * depends only on them: objects and arrays are `Other` (always truthy).
 * Numbers are modelled as integers.
 */
module Json {
  import opened Wrappers

  datatype Value = Str(s: string) | Num(n: int) | Bool(b: bool) | Null | Other

  /** A JSON object; a key that is absent reads as `undefined`. */
  type Payload = map<string, Value>

  /** `data.key`: `None` stands for `undefined`. */
  function Get(data: Payload, key: string): (v: Option<Value>)
    ensures v.Some? <==> key in data
    ensures v.Some? ==> v.value == data[key]
  {
    if key in data then Some(data[key]) else None
  }

  /** JavaScript truthiness: `undefined`, `null`, `""`, `0` and `false` are falsy. */
  predicate Truthy(v: Option<Value>) {
    match v
    case None => false
    case Some(Str(s)) => s != ""
    case Some(Num(n)) => n != 0
    case Some(Bool(b)) => b
    case Some(Null) => false
    case Some(Other) => true
  }

  /** `typeof v === 'string'`. */
  predicate IsStr(v: Option<Value>) {
    v.Some? && v.value.Str?
  }

  /** `v === null`. */
  predicate IsNull(v: Option<Value>) {
    v == Some(Null)
  }

  /** The text of a string value. */
  function TextOf(v: Option<Value>): string
    requires IsStr(v)
  {
    v.value.s
  }

  /** `allowed.includes(v)`: strict equality, so only a string can be a member. */
  predicate StrIn(v: Option<Value>, allowed: set<string>) {
    IsStr(v) && TextOf(v) in allowed
  }

  /** `v || null` for a value that is a string whenever it is truthy. */
  function OrNull(v: Option<Value>): (r: Option<string>)
    requires Truthy(v) ==> IsStr(v)
    ensures r.None? <==> !Truthy(v)
    ensures r.Some? ==> r.value != "" && Some(Str(r.value)) == v
  {
    if Truthy(v) then Some(TextOf(v)) else None
  }

  /** `v || fallback` for a value that is a string whenever it is truthy. */
  function OrElse(v: Option<Value>, fallback: string): (r: string)
    requires Truthy(v) ==> IsStr(v)
    ensures Truthy(v) ==> Some(Str(r)) == v
    ensures !Truthy(v) ==> r == fallback
  {
    if Truthy(v) then TextOf(v) else fallback
  }

  /** What `prisma.x.findUnique({ where: { id } })` makes of an id taken from a body. */
  datatype IdArg = NoId | Id(id: string) | NotAnId

  /** `!id` gives `NoId`; a truthy non-string id is refused by the database client. */
  function IdOf(v: Option<Value>): (r: IdArg)
    ensures r.NoId? <==> !Truthy(v)
    ensures r.Id? <==> Truthy(v) && IsStr(v)
    ensures r.Id? ==> r.id != "" && v == Some(Str(r.id))
  {
    if !Truthy(v) then NoId else if IsStr(v) then Id(TextOf(v)) else NotAnId
  }

  /** `data` in `const { id, ...data } = body`: every field but the id. */
  function Fields(body: Payload): (data: Payload)
    ensures "id" !in data
    ensures forall k :: k != "id" ==> Get(data, k) == Get(body, k)
  {
    body - {"id"}
  }

  /** `v === null ? null : v` for a value that is null or a string. */
  function NullableText(v: Option<Value>): (r: Option<string>)
    requires IsNull(v) || IsStr(v)
    ensures r.None? <==> IsNull(v)
    ensures r.Some? ==> v == Some(Str(r.value))
  {
    if IsNull(v) then None else Some(TextOf(v))
  }

  /** A nullable string column's value as JSON. */
  function AsValue(o: Option<string>): (v: Value)
    ensures v.Null? <==> o.None?
  {
    if o.None? then Null else Str(o.value)
  }

  /** `v || null` names an id outside `known`. */
  predicate NamesUnknown(v: Option<Value>, known: set<string>) {
    Truthy(v) && IsStr(v) && TextOf(v) !in known
  }

  // The rules the validators state, written as the property a field must have.

  /** A non-empty string. */
  predicate NonEmptyStr(v: Option<Value>) {
    IsStr(v) && TextOf(v) != ""
  }

  /** Absent, or a string. */
  predicate AbsentOrStr(v: Option<Value>) {
    v.None? || IsStr(v)
  }

  /** Absent, or a string from `allowed`. */
  predicate AbsentOrIn(v: Option<Value>, allowed: set<string>) {
    v.None? || StrIn(v, allowed)
  }

  /** Absent, null, or a string. */
  predicate AbsentNullOrStr(v: Option<Value>) {
    v.None? || IsNull(v) || IsStr(v)
  }

  /** Falsy, or a string. */
  predicate FalsyOrStr(v: Option<Value>) {
    !Truthy(v) || IsStr(v)
  }

  /** Falsy, or a string from `allowed`. */
  predicate FalsyOrIn(v: Option<Value>, allowed: set<string>) {
    !Truthy(v) || StrIn(v, allowed)
  }
}
