/** Option and Result, the usual failure-carrying wrappers. */
module Wrappers {
  datatype Option<+T> = None | Some(value: T)

  datatype Result<+R, +E> = Success(value: R) | Failure(error: E)
}

/**
 * The values that flow through one registration and one request of
 * TypedMounter: keyword options, JSON documents, request records, the
 * arguments handed to the type-checked handler, and the replies.
 */
module Values {
  import opened Wrappers

  /** A value given as a keyword option to attach_endpoint. */
  datatype OptValue =
    | PyNone
    | Bool(b: bool)
    | Int(i: int)
    | Str(s: string)
    | StrList(items: seq<string>)

  /** The `**options` dictionary of attach_endpoint. */
  type Options = map<string, OptValue>

  /** A parsed JSON document (numbers restricted to integers). */
  datatype JsonValue =
    | JNull
    | JBool(b: bool)
    | JNumber(n: int)
    | JString(s: string)
    | JArray(items: seq<JsonValue>)
    | JObject(fields: map<string, JsonValue>)

  /** What request.get_json() yields: nothing, a document, or a parse failure. */
  datatype JsonBody = NoJson | Parsed(doc: JsonValue) | Unparseable

  /** A temporary directory handed out by mkdtemp, identified by a number. */
  type Dir = nat

  /** A file inside a temporary directory: `dir / name`. */
  datatype Path = Path(dir: Dir, name: string)

  /** One entry of request.files.items(): the form field and the client's file name. */
  datatype Upload = Upload(field: string, filename: string)

  /**
   * One incoming request: its JSON body, request.values (first value per
   * key), request.files.items() in iteration order, and its mimetype.
   */
  datatype Request = Request(json: JsonBody, values: map<string, string>, files: seq<Upload>, mimetype: string)

  /** A keyword argument passed to the type-checked handler. */
  datatype Arg = Text(s: string) | Json(j: JsonValue) | File(path: Path)

  /** One issue of a DetailedTypeError. `found` is None for Python's None. */
  datatype Issue = Issue(name: string, expected: string, found: Option<Arg>, missing: bool, message: string)

  /**
   * A Python exception raised inside the service: the ones the code itself
   * can raise, and whatever the handler raises (its class and message).
   */
  datatype Fault =
    | IndexOutOfRange
    | NotIterable
    | NotAMapping
    | BadJson
    | NotSerializable
    | Raised(className: string, message: string)

  /** A value returned by the handler: its json.dumps encoding, if any, and its str(). */
  datatype PyValue = PyValue(json: Option<JsonValue>, text: string)

  /** What calling check_args(fun) with keyword arguments does. */
  datatype Call =
    | TypeMismatch(issues: seq<Issue>)
    | Returned(value: PyValue)
    | Threw(fault: Fault)

  /** The decorated function: its __name__ and the behaviour of check_args(fun). */
  datatype Handler = Handler(name: string, call: map<string, Arg> -> Call)

  /** The body of a Response: plain text, or the text json.dumps makes of a JSON value. */
  datatype Body = PlainText(text: string) | JsonText(value: JsonValue)

  /** What the view function produces: a Response, or an exception that escapes it. */
  datatype Reply =
    | Response(status: int, body: Body, mimetype: string)
    | Uncaught(fault: Fault)

  /** Flask's Response mimetype when none is given. */
  const DefaultMimetype: string := "text/html"

  /** The text f'{exc[0]}: {exc[1]}' shows for a fault. */
  function FaultText(f: Fault): string
  {
    match f
    case IndexOutOfRange => "<class 'IndexError'>: list index out of range"
    case NotIterable => "<class 'TypeError'>: object is not iterable"
    case NotAMapping => "<class 'TypeError'>: argument after ** must be a mapping"
    case BadJson => "<class 'werkzeug.exceptions.BadRequest'>: 400 Bad Request"
    case NotSerializable => "<class 'TypeError'>: object is not JSON serializable"
    case Raised(c, m) => "<class '" + c + "'>: " + m
  }
}
