/** Vocabulary shared by the repositories and the handlers: optional values,
    store errors, the loosely typed JSON objects the identity provider
    returns, and the first-match search that MongoDB's FindOne, UpdateOne and
    DeleteOne perform over a collection. */
module Common {

  datatype Option<+T> = None | Some(value: T)

  /** What a store call can report instead of success. */
  datatype StoreError =
    | Unavailable   // the driver returned an error (timeout, network, server)
    | NotFound      // FindOne decoded no document (mongo.ErrNoDocuments)
    | NoMatch       // "no matching summary found"

  datatype Result<+T> = Ok(value: T) | Err(error: StoreError)

  /** A JSON value as decoded into Go's interface{}. Only strings are ever
      inspected by the handlers; numbers, booleans, arrays and objects are
      kept opaque. */
  datatype JValue = JString(s: string) | JNull | JOther

  /** A decoded JSON object, Go's map[string]interface{}. */
  type Payload = map<string, JValue>

  /** Go's `p[key]`: a missing key reads as nil. */
  function Field(p: Payload, key: string): JValue
  {
    if key in p then p[key] else JNull
  }

  /** The checked type assertion `p[key].(string)` followed by the test
      against "": the string when the key holds a non-empty string. */
  function RequiredString(p: Payload, key: string): (r: Option<string>)
    ensures r.Some? <==> key in p && p[key].JString? && p[key].s != ""
    ensures r.Some? ==> p[key] == JString(r.value) && r.value != ""
  {
    match Field(p, key)
    case JString(s) => if s == "" then None else Some(s)
    case _ => None
  }

  /** The index of the first element satisfying `p`: the document a
      single-document MongoDB operation picks, in collection order. */
  function FirstIndex<T>(s: seq<T>, p: T -> bool): (r: Option<nat>)
    ensures r.None? <==> forall k :: 0 <= k < |s| ==> !p(s[k])
    ensures r.Some? ==> r.value < |s| && p(s[r.value])
    ensures r.Some? ==> forall k :: 0 <= k < r.value ==> !p(s[k])
  {
    if s == [] then None
    else if p(s[0]) then Some(0)
    else
      match FirstIndex(s[1..], p)
      case None => None
      case Some(i) => Some(i + 1)
  }
}
