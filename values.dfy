/**
 * Request values and responses.
 *
 * A request value is what PHP puts in `$_GET` / `$_POST`: a string, or an array of
 * values (`a[]=x&a[]=y`).  A response is the terminal value of a request: the status
 * set with `http_response_code`, the headers sent with `header`, and the body that was
 * echoed.  `send_error` and `send_response` (inc/class-endpoints.php) both end the
 * request with `exit`; here they return the `Response` that ends it.
 */
module Values {

  import opened Wrappers

  datatype Value = Str(s: string) | List(items: seq<Value>)

  /** PHP `empty()` of an array entry that may be missing: unset, "", "0" or an empty array. */
  predicate Empty(v: Option<Value>) {
    match v
    case None => true
    case Some(Str(s)) => s == "" || s == "0"
    case Some(List(items)) => items == []
  }

  /** PHP `empty()` of a string that may be unset (a `$_SERVER` entry). */
  predicate EmptyString(s: Option<string>) {
    s.None? || s.value == "" || s.value == "0"
  }

  /** PHP string conversion of a value, as done by the `.` operator. */
  function AsString(v: Value): string {
    match v
    case Str(s) => s
    case List(_) => "Array"
  }

  /** The values `json_encode` is given in this system. */
  datatype Json = JNull | JInt(i: int) | JString(s: string) | JObject(members: seq<(string, Json)>)

  datatype Body = Text(text: string) | JsonBody(json: Json)

  datatype Response = Response(status: int, headers: seq<string>, body: Body)

  const JsonContentType: string := "Content-type: application/json"

  /** `Endpoints::send_error`: sets the status (400 unless given), echoes the raw message, exits. */
  function SendError(message: string, status: int := 400): (r: Response)
    ensures r.status == status && r.body == Text(message) && r.headers == []
  {
    Response(status, [], Text(message))
  }

  /** `Endpoints::send_response`: JSON content type, the status (200 unless given), the encoded body, exits. */
  function SendResponse(body: Json, status: int := 200): (r: Response)
    ensures r.status == status && r.body == JsonBody(body) && r.headers == [JsonContentType]
  {
    Response(status, [JsonContentType], JsonBody(body))
  }
}
