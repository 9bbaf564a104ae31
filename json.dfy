/** JSON values as request bodies and response bodies carry them. Numbers are
    exact reals; objects keep their fields in order. */
module Json {
  import opened Wrappers

  datatype Json =
    | JNull
    | JBool(b: bool)
    | JNum(n: real)
    | JStr(s: string)
    | JArr(items: seq<Json>)
    | JObj(fields: seq<(string, Json)>)

  /** The value of the field named `key`. When a key is repeated the last
      occurrence wins, as in `JSON.parse`. */
  function Field(fields: seq<(string, Json)>, key: string): (r: Option<Json>)
    ensures r.Some? ==> exists i :: 0 <= i < |fields| && fields[i] == (key, r.value) &&
                                    forall j :: i < j < |fields| ==> fields[j].0 != key
    ensures r.None? ==> forall i :: 0 <= i < |fields| ==> fields[i].0 != key
    decreases |fields|
  {
    if |fields| == 0 then None
    else if fields[|fields| - 1].0 == key then Some(fields[|fields| - 1].1)
    else
      var init := fields[..|fields| - 1];
      assert forall i :: 0 <= i < |init| ==> init[i] == fields[i];
      Field(init, key)
  }

  /** A response as the service sends it: a status and a JSON body. */
  datatype Response = Response(status: int, body: Json)

  /** The failure body every middleware sends: `{ ok: false, error: { message } }`. */
  function ErrorBody(message: string): (r: Json)
    ensures r.JObj? && Field(r.fields, "ok") == Some(JBool(false))
  {
    JObj([("ok", JBool(false)), ("error", JObj([("message", JStr(message))]))])
  }

  /** JavaScript truthiness of a field value, `undefined` when absent: false,
      null, zero and the empty string are falsy, every other value is truthy. */
  predicate Truthy(v: Option<Json>) {
    match v
    case None => false
    case Some(JNull) => false
    case Some(JBool(b)) => b
    case Some(JNum(n)) => n != 0.0
    case Some(JStr(s)) => s != ""
    case Some(_) => true
  }
}
