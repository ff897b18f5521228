/**
 JSON documents as the client sends and receives them.

 Objects are maps from key to value: a document with a repeated key is not
 representable, and key order carries no meaning. Numbers are integers only;
 no field the client reads or writes is numeric, so numbers are only ever
 carried inside opaque payloads.
 */
module Json {

  datatype Json =
    | Null
    | Bool(b: bool)
    | Num(n: int)
    | Str(s: string)
    | Arr(items: seq<Json>)
    | Obj(fields: map<string, Json>)

  /** The value under `key` when `j` is an object holding that key. */
  function Field(j: Json, key: string): (r: Option<Json>)
    ensures r.Some? <==> j.Obj? && key in j.fields
    ensures r.Some? ==> r.value == j.fields[key]
  {
    if j.Obj? && key in j.fields then Some(j.fields[key]) else None
  }

  /** The string under `key`, when `j` is an object whose `key` holds a JSON string. */
  function StrField(j: Json, key: string): (r: Option<string>)
    ensures r.Some? <==> j.Obj? && key in j.fields && j.fields[key].Str?
    ensures r.Some? ==> j.fields[key] == Str(r.value)
  {
    match Field(j, key)
    case Some(Str(s)) => Some(s)
    case _ => None
  }

  datatype Option<+T> = None | Some(value: T)
}
