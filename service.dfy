/**
 * The view function TypedMounter registers under `api_<rule>`: it picks
 * the JSON mode, the form/file mode or neither, calls the type-checked
 * handler, and turns every outcome into a reply.
 */
module Service {
  import opened Wrappers
  import opened Values
  import opened Binding

  /** json.dumps of an issue's `found` value: None, strings and JSON values encode, a Path does not. */
  function FoundJson(found: Option<Arg>): Result<JsonValue, Fault>
  {
    match found
    case None => Success(JNull)
    case Some(Text(s)) => Success(JString(s))
    case Some(Json(j)) => Success(j)
    case Some(File(_)) => Failure(NotSerializable)
  }

  /** The entry of "details" describing one issue, once its `found` value is encoded. */
  function IssueJson(issue: Issue, found: JsonValue): JsonValue
  {
    JObject(map["parameter" := JString(issue.name),
                "expected" := JString(issue.expected),
                "found" := found,
                "missing" := JBool(issue.missing),
                "message" := JString(issue.message)])
  }

  /** The "details" list, one entry per issue in order; encoding fails on the first Path. */
  function Details(issues: seq<Issue>): Result<seq<JsonValue>, Fault>
  {
    if issues == [] then Success([])
    else match FoundJson(issues[0].found)
      case Failure(f) => Failure(f)
      case Success(found) =>
        match Details(issues[1..])
        case Failure(f) => Failure(f)
        case Success(rest) => Success([IssueJson(issues[0], found)] + rest)
  }

  /** Encoding the details fails, with a TypeError, exactly on a Path; otherwise one entry per issue. */
  lemma DetailsFailOnPaths(issues: seq<Issue>)
    ensures Details(issues).Failure? <==>
              exists i :: 0 <= i < |issues| && issues[i].found.Some? && issues[i].found.value.File?
    ensures Details(issues).Failure? ==> Details(issues).error == NotSerializable
    ensures Details(issues).Success? ==> |Details(issues).value| == |issues|
  {
    DetailsDescribeIssues(issues);
  }

  /**
   * make_typeerror_response: a 400 JSON reply listing the issues. It runs
   * inside the except clause, so an encoding failure escapes the view.
   */
  function MakeTypeErrorResponse(issues: seq<Issue>): (r: Reply)
    ensures r.Uncaught? <==>
              exists i :: 0 <= i < |issues| && issues[i].found.Some? && issues[i].found.value.File?
    ensures r.Uncaught? ==> r.fault == NotSerializable
    ensures r.Response? ==>
              && r.status == 400 && r.mimetype == "application/json"
              && r.body.JsonText? && r.body.value.JObject?
              && r.body.value.fields.Keys == {"error", "details"}
              && r.body.value.fields["error"] == JString("invalid types")
              && r.body.value.fields["details"].JArray?
              && |r.body.value.fields["details"].items| == |issues|
    ensures r.Response? ==> Details(issues).Success? && r.body.value.fields["details"] == JArray(Details(issues).value)
  {
    DetailsFailOnPaths(issues);
    match Details(issues)
    case Failure(f) => Uncaught(f)
    case Success(details) =>
      Response(400, JsonText(JObject(map["error" := JString("invalid types"), "details" := JArray(details)])),
               "application/json")
  }

  /** The reply of the bare except clause for a fault raised while serving. */
  function ErrorReply(fun: Handler, f: Fault): (r: Reply)
    ensures r.Response? && r.status == 400 && r.mimetype == DefaultMimetype && r.body.PlainText?
    ensures var prefix := "Error in function " + fun.name;
            |prefix| <= |r.body.text| && r.body.text[..|prefix|] == prefix
  {
    Response(400, PlainText("Error in function " + fun.name + "\n " + FaultText(f)), DefaultMimetype)
  }

  /**
   * The catch-all reply names the exception: two faults whose class and
   * message read differently give different replies.
   */
  lemma ErrorReplyShowsFault(fun: Handler, f: Fault, g: Fault)
    ensures ErrorReply(fun, f) == ErrorReply(fun, g) ==> FaultText(f) == FaultText(g)
  {
    var prefix := "Error in function " + fun.name + "\n ";
    if ErrorReply(fun, f) == ErrorReply(fun, g) {
      assert ErrorReply(fun, f).body.text[|prefix|..] == FaultText(f);
      assert ErrorReply(fun, g).body.text[|prefix|..] == FaultText(g);
    }
  }

  /** The reply when the request carries neither JSON nor form data. */
  function UnknownReply(mimetype: string): Reply
  {
    Response(400, PlainText("Unknown request type. Mimetype was " + mimetype), DefaultMimetype)
  }

  /** `**document`: only a JSON object can be spread into keyword arguments. */
  function JsonArgs(doc: JsonValue): Result<map<string, Arg>, Fault>
  {
    match doc
    case JObject(fields) => Success(map k | k in fields :: Json(fields[k]))
    case _ => Failure(NotAMapping)
  }

  /** The reply of the JSON mode once the handler has been called. */
  function JsonReply(fun: Handler, call: Call): Reply
  {
    match call
    case TypeMismatch(issues) => MakeTypeErrorResponse(issues)
    case Threw(f) => ErrorReply(fun, f)
    case Returned(v) =>
      match v.json
      case None => ErrorReply(fun, NotSerializable)
      case Some(j) => Response(200, JsonText(j), "application/json")
  }

  /** The reply of the form mode once the handler has been called: its str() as plain text. */
  function FormReply(fun: Handler, call: Call): Reply
  {
    match call
    case TypeMismatch(issues) => MakeTypeErrorResponse(issues)
    case Threw(f) => ErrorReply(fun, f)
    case Returned(v) => Response(200, PlainText(v.text), "text/plain")
  }

  /** request.get_json() is not None. */
  predicate HasJson(req: Request)
  {
    req.json.Unparseable? || (req.json.Parsed? && req.json.doc != JNull)
  }

  /** request.values or request.files. */
  predicate HasForm(req: Request)
  {
    req.values != map[] || req.files != []
  }

  /**
   * One request served: the reply, the temporary directory the form mode
   * made (with the names saved in it), and whether it was removed again.
   */
  datatype Outcome = Outcome(reply: Reply, tempDir: Option<Dir>, saved: set<string>, removed: bool)

  /**
   * What serving `req` does, given the sanitiser `secure` and the name `d`
   * the next mkdtemp hands out.
   */
  function Serve(options: Options, fun: Handler, req: Request, secure: string -> string, d: Dir): (r: Outcome)
    ensures r.tempDir.Some? ==> r.tempDir == Some(d) && r.saved != {}
    ensures r.tempDir.None? ==> r.saved == {} && !r.removed
    ensures r.reply.Response? ==> r.reply.status == 200 || r.reply.status == 400
  {
    if req.json.Unparseable? then Outcome(ErrorReply(fun, BadJson), None, {}, false)
    else if HasJson(req) then
      match JsonArgs(req.json.doc)
      case Failure(f) => Outcome(ErrorReply(fun, f), None, {}, false)
      case Success(args) => Outcome(JsonReply(fun, fun.call(args)), None, {}, false)
    else if HasForm(req) then
      var b := BindForm(options, req, secure, d);
      match b.fault
      case Some(f) => Outcome(ErrorReply(fun, f), b.dir, b.saved, false)
      case None =>
        var call := fun.call(b.args);
        Outcome(FormReply(fun, call), b.dir, b.saved, call.Returned? && b.dir.Some?)
    else Outcome(UnknownReply(req.mimetype), None, {}, false)
  }

  /**
   * service(): serves one request against the temporary-file area `fs`.
   * The directory made for the uploads is removed only when the handler
   * returned; on every error path it stays behind with its files.
   */
  method ServeRequest(options: Options, fun: Handler, req: Request, secure: string -> string, fs: TempFs)
    returns (reply: Reply)
    requires fs.Valid()
    modifies fs
    ensures fs.Valid()
    ensures var o := Serve(options, fun, req, secure, old(fs.next));
            && reply == o.reply
            && fs.dirs == (if o.tempDir.Some? && !o.removed then old(fs.dirs)[o.tempDir.value := o.saved]
                           else old(fs.dirs))
            && fs.next == old(fs.next) + (if o.tempDir.Some? then 1 else 0)
    ensures reply.Response? && reply.status == 200 ==> fs.dirs == old(fs.dirs)
  {
    if req.json.Unparseable? {
      return ErrorReply(fun, BadJson);
    }
    if HasJson(req) {
      var args := JsonArgs(req.json.doc);
      if args.Failure? {
        return ErrorReply(fun, args.error);
      }
      return JsonReply(fun, fun.call(args.value));
    }
    if HasForm(req) {
      var params, dir, fault := BuildFormParams(options, req, secure, fs);
      if fault.Some? {
        return ErrorReply(fun, fault.value);
      }
      var call := fun.call(params);
      reply := FormReply(fun, call);
      if call.Returned? && dir.Some? {
        ghost var before := fs.dirs;
        fs.RmTree(dir.value);
        assert fs.dirs == old(fs.dirs) by {
          assert dir.value !in old(fs.dirs);
          assert before == old(fs.dirs)[dir.value := before[dir.value]];
        }
      }
      return;
    }
    reply := UnknownReply(req.mimetype);
  }

  /**
   * The details list has one entry per issue, in order, each naming the
   * parameter, its expected type, the value found, whether it was missing
   * and the message; encoding fails exactly when some found value is a Path.
   */
  lemma {:induction false} DetailsDescribeIssues(issues: seq<Issue>)
    ensures Details(issues).Failure? <==> exists i :: 0 <= i < |issues| && FoundJson(issues[i].found).Failure?
    ensures Details(issues).Failure? ==> Details(issues).error == NotSerializable
    ensures Details(issues).Success? ==>
              var details := Details(issues).value;
              && |details| == |issues|
              && forall i :: 0 <= i < |issues| ==>
                   && details[i].JObject?
                   && details[i].fields.Keys == {"parameter", "expected", "found", "missing", "message"}
                   && details[i].fields["parameter"] == JString(issues[i].name)
                   && details[i].fields["expected"] == JString(issues[i].expected)
                   && FoundJson(issues[i].found) == Success(details[i].fields["found"])
                   && details[i].fields["missing"] == JBool(issues[i].missing)
                   && details[i].fields["message"] == JString(issues[i].message)
  {
    if issues != [] {
      DetailsDescribeIssues(issues[1..]);
      if FoundJson(issues[0].found).Success? && Details(issues[1..]).Failure? {
        var i :| 0 <= i < |issues[1..]| && FoundJson(issues[1..][i].found).Failure?;
        assert FoundJson(issues[i + 1].found).Failure?;
      }
      if Details(issues).Success? {
        forall i | 0 <= i < |issues| ensures FoundJson(issues[i].found).Success? {
          if i > 0 {
            assert issues[1..][i - 1] == issues[i];
          }
        }
      }
    }
  }

  /**
   * check_args reports, as the value found for a parameter, either None
   * or one of the arguments it was called with.
   */
  ghost predicate ReportsOwnArguments(fun: Handler)
  {
    forall args: map<string, Arg>, i ::
      fun.call(args).TypeMismatch? && 0 <= i < |fun.call(args).issues| && fun.call(args).issues[i].found.Some? ==>
        fun.call(args).issues[i].found.value in args.Values
  }

  /**
   * A request with a JSON body is served from the JSON alone: its form
   * values, its files and the file options change nothing, and no
   * directory is made.
   */
  lemma JsonModeIgnoresForm(options: Options, options': Options, fun: Handler, req: Request,
                            values: map<string, string>, files: seq<Upload>,
                            secure: string -> string, secure': string -> string, d: Dir, d': Dir)
    requires HasJson(req)
    ensures Serve(options, fun, req, secure, d) == Serve(options', fun, req.(values := values, files := files), secure', d')
    ensures Serve(options, fun, req, secure, d).tempDir == None
  {
  }

  /** The fault reply names the handler; it never reads as the unknown-request reply. */
  lemma ErrorReplyIsNotUnknown(fun: Handler, f: Fault, mimetype: string)
    ensures ErrorReply(fun, f) != UnknownReply(mimetype)
  {
    assert ErrorReply(fun, f).body.text[0] == 'E';
    assert UnknownReply(mimetype).body.text[0] == 'U';
  }

  /** No outcome of calling the handler reads as the unknown-request reply. */
  lemma CallReplyIsNotUnknown(fun: Handler, call: Call, mimetype: string)
    ensures JsonReply(fun, call) != UnknownReply(mimetype)
    ensures FormReply(fun, call) != UnknownReply(mimetype)
  {
    match call
    case TypeMismatch(_) =>
    case Threw(f) => ErrorReplyIsNotUnknown(fun, f, mimetype);
    case Returned(v) => ErrorReplyIsNotUnknown(fun, NotSerializable, mimetype);
  }

  /**
   * "Unknown request type" is the reply exactly when the request has no
   * JSON body, no form values and no files.
   */
  lemma UnknownExactlyWithoutInput(options: Options, fun: Handler, req: Request, secure: string -> string, d: Dir)
    ensures Serve(options, fun, req, secure, d).reply == UnknownReply(req.mimetype) <==> !HasJson(req) && !HasForm(req)
  {
    var m := req.mimetype;
    if req.json.Unparseable? {
      ErrorReplyIsNotUnknown(fun, BadJson, m);
    } else if HasJson(req) {
      match JsonArgs(req.json.doc)
      case Failure(f) => ErrorReplyIsNotUnknown(fun, f, m);
      case Success(args) => CallReplyIsNotUnknown(fun, fun.call(args), m);
    } else if HasForm(req) {
      var b := BindForm(options, req, secure, d);
      match b.fault
      case Some(f) => ErrorReplyIsNotUnknown(fun, f, m);
      case None => CallReplyIsNotUnknown(fun, fun.call(b.args), m);
    }
  }

  /**
   * The temporary directory is removed only after the handler returned, so
   * only with a 200 plain-text reply; when serving fails after it was made
   * it stays behind with every file saved in it.
   */
  lemma CleanupOnlyOnSuccess(options: Options, fun: Handler, req: Request, secure: string -> string, d: Dir)
    ensures var o := Serve(options, fun, req, secure, d);
            o.removed ==> o.tempDir.Some? && o.reply.Response? && o.reply.status == 200 && o.reply.mimetype == "text/plain"
    ensures var o := Serve(options, fun, req, secure, d);
            o.tempDir.Some? && !(o.reply.Response? && o.reply.status == 200) ==> !o.removed && o.saved != {}
    ensures var o := Serve(options, fun, req, secure, d);
            o.tempDir.Some? ==> !HasJson(req) && HasForm(req) && o.tempDir == Some(d)
    ensures var o := Serve(options, fun, req, secure, d);
            o.tempDir.Some? && o.reply.Response? && o.reply.status == 200 ==> o.removed
  {
    if !HasJson(req) && HasForm(req) {
      DirectoryOnlyForAcceptedUploads(options, req, secure, d);
    }
  }

  /**
   * Every response is a 200 or a 400, and the only exception that escapes
   * the view is the failure to encode a Path in the type-error payload of
   * the form mode.
   */
  lemma RepliesAreResponsesOrEncodingFailures(options: Options, fun: Handler, req: Request,
                                              secure: string -> string, d: Dir)
    requires ReportsOwnArguments(fun)
    ensures var r := Serve(options, fun, req, secure, d).reply;
            r.Response? ==> r.status == 200 || r.status == 400
    ensures var r := Serve(options, fun, req, secure, d).reply;
            r.Uncaught? ==> && r.fault == NotSerializable
                            && !HasJson(req) && HasForm(req)
                            && var b := BindForm(options, req, secure, d);
                               && b.fault.None?
                               && fun.call(b.args).TypeMismatch?
                               && exists i :: 0 <= i < |fun.call(b.args).issues| &&
                                    fun.call(b.args).issues[i].found.Some? &&
                                    fun.call(b.args).issues[i].found.value.File?
  {
    if HasJson(req) && !req.json.Unparseable? && JsonArgs(req.json.doc).Success? {
      var args := JsonArgs(req.json.doc).value;
      if fun.call(args).TypeMismatch? {
        var issues := fun.call(args).issues;
        DetailsDescribeIssues(issues);
        forall i | 0 <= i < |issues| ensures FoundJson(issues[i].found).Success? {
          if issues[i].found.Some? {
            assert issues[i].found.value in args.Values;
          }
        }
      }
    } else if !HasJson(req) && HasForm(req) {
      var b := BindForm(options, req, secure, d);
      if b.fault.None? && fun.call(b.args).TypeMismatch? {
        var issues := fun.call(b.args).issues;
        DetailsDescribeIssues(issues);
        if Details(issues).Failure? {
          var i :| 0 <= i < |issues| && FoundJson(issues[i].found).Failure?;
          assert issues[i].found.Some? && issues[i].found.value.File?;
        }
      }
    }
  }

  /**
   * Each outcome of the handler call gets its own reply: in the JSON mode
   * a return is encoded as a 200 JSON reply (or fails to encode), in the
   * form mode it is a 200 plain-text reply of its str(); a type check
   * failure gets the make_typeerror_response payload and any other
   * exception the catch-all reply. A body that does not parse, a JSON
   * document that is not an object and a fault while binding the form get
   * the catch-all reply too.
   */
  lemma ReplyFollowsCall(options: Options, fun: Handler, req: Request, secure: string -> string, d: Dir)
    ensures req.json.Unparseable? ==> Serve(options, fun, req, secure, d).reply == ErrorReply(fun, BadJson)
    ensures HasJson(req) && !req.json.Unparseable? && !req.json.doc.JObject? ==>
              Serve(options, fun, req, secure, d).reply == ErrorReply(fun, NotAMapping)
    ensures HasJson(req) && !req.json.Unparseable? && req.json.doc.JObject? ==>
              var fields := req.json.doc.fields;
              var call := fun.call(map k | k in fields :: Json(fields[k]));
              var r := Serve(options, fun, req, secure, d).reply;
              && (call.Returned? && call.value.json.Some? ==>
                    r == Response(200, JsonText(call.value.json.value), "application/json"))
              && (call.Returned? && call.value.json.None? ==> r == ErrorReply(fun, NotSerializable))
              && (call.TypeMismatch? ==> r == MakeTypeErrorResponse(call.issues))
              && (call.Threw? ==> r == ErrorReply(fun, call.fault))
    ensures !HasJson(req) && HasForm(req) ==>
              var b := BindForm(options, req, secure, d);
              var r := Serve(options, fun, req, secure, d).reply;
              && (b.fault.Some? ==> r == ErrorReply(fun, b.fault.value))
              && (b.fault.None? ==>
                    var call := fun.call(b.args);
                    && (call.Returned? ==> r == Response(200, PlainText(call.value.text), "text/plain"))
                    && (call.TypeMismatch? ==> r == MakeTypeErrorResponse(call.issues))
                    && (call.Threw? ==> r == ErrorReply(fun, call.fault)))
  {
  }
}
