/**
 * Shared value types of the coaching backend: the optional and error
 * wrappers the handlers use in place of `None` and `HTTPException`, the
 * session status enumeration, JSON documents and the arguments handed to
 * the database driver alongside a parameterised query.
 */
module Models {

  datatype Option<+T> = None | Some(value: T)

  datatype Result<+R, +E> = Success(value: R) | Failure(error: E)

  /**
   * The error raised inside a handler's body: 400 for a request it refuses
   * itself, 500 for an exception Python raises while it runs.
   */
  datatype ApiError = BadRequest(detail: string) | ServerError(detail: string)

  /** The `SessionStatus` string enumeration of the session records. */
  datatype SessionStatus = Scheduled | Completed | Cancelled | NoShow

  /** The string each status is stored as. */
  function StatusText(s: SessionStatus): string
  {
    match s
    case Scheduled => "scheduled"
    case Completed => "completed"
    case Cancelled => "cancelled"
    case NoShow => "no_show"
  }

  /** Reading a stored string back as a status, as the enumeration's lookup by value does. */
  function ParseStatus(text: string): (r: Option<SessionStatus>)
    ensures r.Some? ==> StatusText(r.value) == text
  {
    if text == "scheduled" then Some(Scheduled)
    else if text == "completed" then Some(Completed)
    else if text == "cancelled" then Some(Cancelled)
    else if text == "no_show" then Some(NoShow)
    else None
  }

  /** Every status survives being stored as text and read back. */
  lemma StatusRoundTrip(s: SessionStatus)
    ensures ParseStatus(StatusText(s)) == Some(s)
  {
  }

  /** A JSON document, as `json.dumps` writes and `json.loads` reads it. */
  datatype Json =
    | JNull
    | JBool(b: bool)
    | JInt(i: int)
    | JStr(s: string)
    | JList(items: seq<Json>)
    | JObject(fields: map<string, Json>)

  /** A positional argument of a parameterised query (`$1`, `$2`, ...). */
  datatype SqlArg = Text(s: string) | Integer(i: int) | JsonText(doc: Json)

  /** Python truthiness of an optional string: `None` and `""` are false. */
  predicate IsSetText(o: Option<string>)
  {
    o.Some? && o.value != ""
  }

  /** Python truthiness of an optional integer: `None` and `0` are false. */
  predicate IsSetInt(o: Option<int>)
  {
    o.Some? && o.value != 0
  }

  /** Python truthiness of an optional list: `None` and `[]` are false. */
  predicate IsSetList<T>(o: Option<seq<T>>)
  {
    o.Some? && o.value != []
  }

  /** A list of strings as the JSON array `json.dumps` writes for it. */
  function StringsJson(xs: seq<string>): Json
  {
    JList(seq(|xs|, i requires 0 <= i < |xs| => JStr(xs[i])))
  }
}
