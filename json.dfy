/** JSON values as the frontend receives them from the backend. */
module Json {
  import opened Wrappers

  /** A JSON value; numbers are integers, which is all the error shapes carry. */
  datatype Json =
    | JNull
    | JBool(b: bool)
    | JNum(n: int)
    | JStr(s: string)
    | JArr(items: seq<Json>)
    | JObj(fields: seq<(string, Json)>)

  /**
   * `obj.key` on a parsed value: the member's value when `obj` is an object
   * with that key (the last one wins, as `JSON.parse` keeps), else `undefined`.
   */
  function Get(j: Json, key: string): (r: Option<Json>)
    ensures r.Some? ==> j.JObj?
  {
    if j.JObj? then LastValue(j.fields, key) else None
  }

  function LastValue(fields: seq<(string, Json)>, key: string): (r: Option<Json>)
    ensures r.Some? <==> exists i :: 0 <= i < |fields| && fields[i].0 == key
    ensures r.Some? ==> exists i :: 0 <= i < |fields| && fields[i] == (key, r.value)
  {
    if fields == [] then None
    else if fields[|fields| - 1].0 == key then Some(fields[|fields| - 1].1)
    else LastValue(fields[..|fields| - 1], key)
  }
}
