/** The JSON body of an HTTP response, as the services see it, and the two rules they use to
    pick the payload out of it: the first array among a named property, `data` and the body
    itself; or the first truthy value among a named property, `data` and the body itself. */
module Wire {
  import opened Wrappers
  import opened Domain

  datatype Json =
    | Undefined
    | Null
    | Bool(b: bool)
    | Num(n: real)
    | Str(s: string)
    | Arr(items: seq<Json>)
    | Obj(fields: map<string, Json>)

  /** JavaScript truthiness (a NaN number is not modelled). */
  predicate Truthy(j: Json)
  {
    match j
    case Undefined => false
    case Null => false
    case Bool(b) => b
    case Num(n) => n != 0.0
    case Str(s) => s != ""
    case Arr(_) => true
    case Obj(_) => true
  }

  /** `value.key` for a truthy value: an object's own field, otherwise undefined (strings,
      numbers and arrays have no property named like a payload key). */
  function Prop(j: Json, key: string): (r: Json)
    ensures j.Obj? && key in j.fields ==> r == j.fields[key]
    ensures !(j.Obj? && key in j.fields) ==> r == Undefined
  {
    if j.Obj? && key in j.fields then j.fields[key] else Undefined
  }

  /** The list rule of `getReports` / `getTasks`: `data[key]` if it is an array, else
      `data.data` if it is an array, else `data` if it is an array, else the empty array. */
  function UnwrapList(data: Json, key: string): (r: seq<Json>)
    ensures Truthy(data) && Prop(data, key).Arr? ==> r == Prop(data, key).items
    ensures !Prop(data, key).Arr? && Prop(data, "data").Arr? ==> r == Prop(data, "data").items
    ensures !Prop(data, key).Arr? && !Prop(data, "data").Arr? && data.Arr? ==> r == data.items
    ensures !Prop(data, key).Arr? && !Prop(data, "data").Arr? && !data.Arr? ==> r == []
  {
    if Truthy(data) && Prop(data, key).Arr? then Prop(data, key).items
    else if Truthy(data) && Prop(data, "data").Arr? then Prop(data, "data").items
    else if Truthy(data) && data.Arr? then data.items
    else []
  }

  /** A bare array comes back as it is. */
  lemma BareListPassesThrough(items: seq<Json>, key: string)
    ensures UnwrapList(Arr(items), key) == items
  {
  }

  /** A list wrapped under the payload key, or under `data`, comes back unwrapped. */
  lemma WrappedListUnwraps(items: seq<Json>, key: string)
    ensures UnwrapList(Obj(map[key := Arr(items)]), key) == items
    ensures UnwrapList(Obj(map["data" := Arr(items)]), key) == items
  {
  }

  /** A body with no array where the rule looks gives the empty list. */
  lemma NoListGivesEmpty(data: Json, key: string)
    requires !data.Arr? && !Prop(data, key).Arr? && !Prop(data, "data").Arr?
    ensures UnwrapList(data, key) == []
  {
  }

  /** The item rule of `createReport` / `updateReport` / `createTask` / `updateTask`:
      `data[key]` if truthy, else `data.data` if truthy, else `data` itself. The payload is
      truthy exactly when the body is. */
  function UnwrapItem(data: Json, key: string): (r: Json)
    ensures Truthy(r) <==> Truthy(data)
    ensures Truthy(data) && Truthy(Prop(data, key)) ==> r == Prop(data, key)
    ensures !Truthy(Prop(data, key)) && Truthy(Prop(data, "data")) ==> r == Prop(data, "data")
    ensures !Truthy(Prop(data, key)) && !Truthy(Prop(data, "data")) ==> r == data
  {
    if Truthy(data) && Truthy(Prop(data, key)) then Prop(data, key)
    else if Truthy(data) && Truthy(Prop(data, "data")) then Prop(data, "data")
    else data
  }

  /** A truthy item wrapped under the payload key, or under `data`, comes back unwrapped. */
  lemma WrappedItemUnwraps(item: Json, key: string)
    requires Truthy(item)
    ensures UnwrapItem(Obj(map[key := item]), key) == item
    ensures UnwrapItem(Obj(map["data" := item]), key) == item
  {
  }

  /** A bare record (an object with neither wrapper field) comes back as it is. */
  lemma BareItemPassesThrough(fields: map<string, Json>, key: string)
    requires key !in fields && "data" !in fields
    ensures UnwrapItem(Obj(fields), key) == Obj(fields)
  {
  }

  datatype Verb = Get | Post | Put | Delete

  /** An HTTP request as the services issue it: verb, path relative to the API base, body. */
  datatype Request = Request(verb: Verb, path: string, body: Option<Json>)

  /** Paths built by appending an id to a fixed prefix name one resource per id. */
  lemma {:induction false} PrefixedPathsInjective(prefix: string, a: string, b: string)
    ensures prefix + a == prefix + b ==> a == b
  {
    if prefix + a == prefix + b {
      assert a == (prefix + a)[|prefix|..];
      assert b == (prefix + b)[|prefix|..];
    }
  }
}
