# flask-typed-mounter in Dafny

This project models `TypedMounter`, the class at the centre of flask-typed-mounter. It exposes a type-annotated Python function as a Flask POST endpoint and can add a GET documentation page beside it. The model covers two things:

- **Registration** (`attach_endpoint`). It checks that an application is bound and that the method list is exactly `['POST']`. It then builds the route options with `extract_document_options` and `pop_own_keys` and registers the `doc_<rule>` and `api_<rule>` routes.
- **Serving** (`service`). It picks the JSON mode, the form/file mode or "Unknown request type". In form mode it builds the flat argument map from the form values and the uploads that pass `not_an_allowed_extension`. Accepted uploads are saved into a temporary directory that is created on first use. It calls the type-checked handler and turns each outcome into a reply:
  - a 200 response;
  - the `make_typeerror_response` payload;
  - the catch-all `Error in function …` 400;
  - an exception that escapes the view.

Modules, in dependency order:

| module | file | what it holds |
|---|---|---|
| `Wrappers`, `Values` | values.dfy | Option/Result, option values, JSON values, requests, handler arguments, faults, replies |
| `Text` | text.dfy | `str.lower()` (ASCII letters) and the split at the last `'.'` done by `rsplit('.', 1)[1]` |
| `Keywords` | keywords.dfy | `OWN_KEYS`, truthiness, `pop_own_keys`, `extract_document_options`, the API options, endpoint names |
| `Extensions` | extensions.dfy | the lowered `allowed_extensions` list and `not_an_allowed_extension` |
| `Binding` | binding.dfy | the temporary-file area (class `TempFs`), the walk over `request.files`, the form argument map |
| `Service` | service.dfy | `service()` dispatch, `make_typeerror_response`, the error replies |
| `Mounter` | mounter.dfy | classes `App` and `TypedMounter`, `attach_endpoint` |

Points the model follows the code on:

- **Cleanup.** The temporary upload directory is removed only when the handler returns normally (flask_typed_mounter/typed_mounter.py:145-149). A type error, an exception in the handler, or a file name the extension filter raises on leaves the directory and its files in place. `Service.CleanupOnlyOnSuccess` states this.
- **File names without a dot.** When `allowed_extensions` is non-empty, a file name with no `'.'` makes `rsplit('.', 1)[1]` raise `IndexError`. The bare `except` turns that into a 400 `Error in function …` reply instead of skipping the file. `Extensions.FilterMatchesIgnoringCase` states this.
- **A plain string as `allowed_extensions`.** A string value is iterated character by character, so `'pdf'` allows the one-letter extensions `p`, `d` and `f`. A value that cannot be iterated at all, such as a boolean, a number or `None`, raises `TypeError`. This happens only when a form-mode request is served with `accept_files` truthy.
- **Guard order.** `attach_endpoint` checks for the application first. A mounter built without an application therefore raises "App not initiated." whatever methods are given. This includes the `['POST', 'PUT']` case in tests/test_raises.py:16-20.
- **Literal `null`.** A JSON body of `null` makes `get_json()` return `None`, so the JSON branch is skipped and the request reaches the form test (flask_typed_mounter/typed_mounter.py:127). `request.values` holds the query-string arguments as well as the form fields. With no query-string argument and no file the request is then answered "Unknown request type" (`Service.UnknownExactlyWithoutInput`); a query-string argument sends it to the form mode.

Supplied as parameters:

- **`check_args(fun)`** is the arrow `Handler.call` from the argument map to a `Call`: a `DetailedTypeError` with its issues, a returned value, or a raised exception. `Service.ReportsOwnArguments` is the one property assumed of it: every value it reports as `found` is one of the arguments it was given.
- **`secure_filename`** is a function parameter `secure`.
- **`tempfile.mkdtemp`** hands out the directory named by `TempFs.next`.

## Model

| member | source | states |
|---|---|---|
| Text.LowerAt | flask_typed_mounter/typed_mounter.py:191 | lowering a name changes each character in place to its lower-case form and keeps the length |
| Text.LowerAllAt | flask_typed_mounter/typed_mounter.py:134 | the lowered extension list has the configured entries, each lowered, in the same order |
| Text.LastIndexOfIsLast | flask_typed_mounter/typed_mounter.py:191 | the split point of `rsplit('.', 1)` is the last `'.'` of the name, and there is none exactly when the name has no `'.'` |
| Text.ExtensionOfIsAfterLastDot | flask_typed_mounter/typed_mounter.py:191 | `rsplit('.', 1)[1]` is the suffix after the last `'.'` and holds no `'.'`; it is missing (the indexing raises) exactly when the name has no `'.'` |
| Text.LastIndexOfLower | flask_typed_mounter/typed_mounter.py:191 | lower-casing a name does not move its last `'.'` |
| Text.ExtensionOfLower | flask_typed_mounter/typed_mounter.py:191 | the extension of the lowered name is the lowered extension |
| Keywords.PopOwnKeys | flask_typed_mounter/typed_mounter.py:172-176 | the copy holds exactly the keys of the input that are not in `OWN_KEYS`, with their values unchanged |
| Keywords.ExtractDocumentOptions | flask_typed_mounter/typed_mounter.py:166-170 | the documentation options are the input with methods set to `['GET']` and the own keys removed |
| Keywords.DocumentOptions | flask_typed_mounter/typed_mounter.py:166-170 | the documentation options have methods `['GET']` and exactly the keys of the input, plus `methods`, minus the own keys |
| Keywords.ApiOptions | flask_typed_mounter/typed_mounter.py:108-110 | the API options have methods `['POST']` and exactly the keys of the input, plus `methods`, minus the own keys |
| Keywords.RouteOptions | flask_typed_mounter/typed_mounter.py:108-110 | the API options force `['POST']` and the documentation options force `['GET']`; neither carries an own key; every other option passes through unchanged; both have the same keys |
| Keywords.EndpointsDistinct | flask_typed_mounter/typed_mounter.py:94-113 | a `doc_` endpoint is never an `api_` endpoint, and each kind of endpoint is distinct for distinct rules |
| Extensions.AllowedExtensions | flask_typed_mounter/typed_mounter.py:134 | the list fails, with `TypeError`, exactly when the option is neither a list nor a string; otherwise entry i is item i lowered (for a list) or character i lowered (for a string), so every entry is already lower-case |
| Extensions.NotAnAllowedExtension | flask_typed_mounter/typed_mounter.py:189-191 | an empty list lets every name through; the check raises `IndexError` exactly when the list is non-empty and the name has no `'.'` |
| Extensions.UnrestrictedAllowsAll | flask_typed_mounter/typed_mounter.py:134-137 | the list is empty exactly when the option is missing, `[]` or `''`, and then every file name passes, including one without `'.'` |
| Extensions.FilterMatchesIgnoringCase | flask_typed_mounter/typed_mounter.py:189-191 | with a non-empty list the filter raises on a name without `'.'`, and otherwise rejects exactly the names whose extension equals no configured entry, ignoring case on both sides |
| Extensions.FilterIgnoresNameCase | flask_typed_mounter/typed_mounter.py:189-191 | two file names that differ only in letter case are filtered alike |
| Binding.TempFs.MkdTemp | flask_typed_mounter/typed_mounter.py:140 | `mkdtemp` makes a new, empty directory that did not exist before |
| Binding.TempFs.Save | flask_typed_mounter/typed_mounter.py:142 | `file.save` adds the file to its directory and changes no other directory |
| Binding.TempFs.RmTree | flask_typed_mounter/typed_mounter.py:149 | `rmtree` removes the directory with its files and nothing else |
| Binding.ScanUploads | flask_typed_mounter/typed_mounter.py:136-138 | the walk keeps at most as many uploads as there are, and can raise only when the extension list is non-empty |
| Binding.BindForm | flask_typed_mounter/typed_mounter.py:128-143 | the directory, when made, is the one `mkdtemp` hands out and holds something exactly when it exists; the only faults are the `TypeError` of the list and the `IndexError` of the filter; every form key is an argument |
| Binding.ScanStopsAtFault | flask_typed_mounter/typed_mounter.py:136-138 | once the filter has raised on an upload, the uploads after it change nothing |
| Binding.ScanSoundAndComplete | flask_typed_mounter/typed_mounter.py:136-138 | every kept upload is from the request and passes the filter; if the walk does not raise, every passing upload is kept; it raises only on an upload the filter raises on |
| Binding.ScanUnrestricted | flask_typed_mounter/typed_mounter.py:134-138 | with an empty list every upload is kept, in order, and the walk never raises |
| Binding.AddFilesKeepsOtherKeys | flask_typed_mounter/typed_mounter.py:128-143 | a form key that no kept upload uses keeps its string value |
| Binding.AddFilesLastUploadWins | flask_typed_mounter/typed_mounter.py:141-143 | the field of a kept upload maps to that upload's saved path in the temporary directory, unless a later kept upload uses the same field; uploads override form values |
| Binding.AddFilesKeys | flask_typed_mounter/typed_mounter.py:128-143 | the argument keys are exactly the form keys plus the fields of the kept uploads |
| Binding.FilesIgnoredUnlessAccepted | flask_typed_mounter/typed_mounter.py:128-133 | unless `accept_files` is truthy, the arguments are exactly the form values as strings and no directory is made |
| Binding.DirectoryOnlyForAcceptedUploads | flask_typed_mounter/typed_mounter.py:131-140 | a temporary directory is made exactly when `accept_files` is truthy, the extension list is iterable and some upload is kept; it exists exactly when something was saved in it |
| Binding.KeepUpload | flask_typed_mounter/typed_mounter.py:139-143 | one accepted upload: makes the directory on first use, saves the file under its sanitised name and points its field at the path |
| Binding.SaveAcceptedUploads | flask_typed_mounter/typed_mounter.py:136-143 | the loop leaves the arguments, the directory, the fault and the directory's contents as the walk over the uploads describes them |
| Binding.BuildFormParams | flask_typed_mounter/typed_mounter.py:128-143 | builds `form_params` and saves the accepted files as the form binding describes; only the new directory changes in the file area |
| Service.MakeTypeErrorResponse | flask_typed_mounter/typed_mounter.py:193-204 | the reply escapes as a `TypeError` exactly when some issue's found value is a path; otherwise it is a 400 JSON reply whose object holds `"error": "invalid types"` and a details list that is exactly the per-issue payload `Details` builds |
| Service.ErrorReply | flask_typed_mounter/typed_mounter.py:158-161 | the catch-all reply is a 400 plain-text response, in the default mimetype, whose text starts with `Error in function ` and the handler's name |
| Service.ErrorReplyShowsFault | flask_typed_mounter/typed_mounter.py:158-161 | the catch-all reply carries the exception: two faults whose class and message read differently give different replies |
| Service.Serve | flask_typed_mounter/typed_mounter.py:114-161 | a directory is made only as the one `mkdtemp` hands out and always holds a saved file; nothing is removed without one; every response is a 200 or a 400 |
| Service.DetailsDescribeIssues | flask_typed_mounter/typed_mounter.py:193-204 | the payload has one entry per issue, in order, with its parameter, expected type, found value, missing flag and message; encoding fails, with a `TypeError`, exactly when some found value is a path |
| Service.ServeRequest | flask_typed_mounter/typed_mounter.py:114-161 | the reply is the one the dispatch describes; the file area afterwards holds the request's directory only when one was made and not removed; `mkdtemp`'s counter advances exactly when a directory was made; after a 200 reply the file area is as before |
| Service.JsonModeIgnoresForm | flask_typed_mounter/typed_mounter.py:119-127 | a request whose JSON body is not `None` is served from the JSON alone, whatever its form, files and file options, and no directory is made |
| Service.UnknownExactlyWithoutInput | flask_typed_mounter/typed_mounter.py:119-153 | "Unknown request type" is the reply exactly when there is no JSON body, no form value and no file |
| Service.CleanupOnlyOnSuccess | flask_typed_mounter/typed_mounter.py:145-161 | a directory that was made is removed exactly when the reply is a 200, which is then plain text; whenever serving fails after it was made, it stays with its files; only the form mode makes one |
| Service.ReplyFollowsCall | flask_typed_mounter/typed_mounter.py:117-161 | a body that does not parse, a JSON document that is not an object and a fault while binding the form get the catch-all 400 reply; otherwise a returned value is a 200 JSON reply (or the catch-all reply when it does not encode) in the JSON mode and a 200 plain-text reply of its `str()` in the form mode, a type check failure gets the `make_typeerror_response` payload and any other exception the catch-all reply |
| Service.RepliesAreResponsesOrEncodingFailures | flask_typed_mounter/typed_mounter.py:117-161 | every response is a 200 or a 400; the only exception that escapes is the failure to encode a path in a form-mode type-error payload |
| Mounter.App.AddRoute | flask_typed_mounter/typed_mounter.py:94 | a route decorator appends one route to the application |
| Mounter.TypedMounter.constructor | flask_typed_mounter/typed_mounter.py:76-78 | the mounter starts with the given application, possibly none |
| Mounter.TypedMounter.InitApp | flask_typed_mounter/typed_mounter.py:80-81 | `init_app` binds the application, or unbinds it when given none |
| Mounter.TypedMounter.AttachEndpoint | flask_typed_mounter/typed_mounter.py:83-113 | raises or appends to the application's routes as attach describes; the bound application does not change |
| Mounter.Attach | flask_typed_mounter/typed_mounter.py:83-113 | an attach that raises registers nothing; a successful one needs an application and registers one or two routes for the rule, the `api_` route with the handler and full options last |
| Mounter.AttachGuards | flask_typed_mounter/typed_mounter.py:83-88 | "App not initiated" exactly without an application; the POST-only error exactly when a method list other than `['POST']` is given to a bound mounter; an attach that raises registers nothing; it succeeds exactly when both guards pass and no `endpoint` option is given |
| Mounter.AttachRegistersRoutes | flask_typed_mounter/typed_mounter.py:90-113 | a successful attach ends with the `api_` POST route, with no own key and its view keeping the full options; a `doc_` GET route comes first exactly when `auto_document` is truthy; the two endpoints differ |

## Left out

- The documentation page (flask_typed_mounter/typed_mounter.py:95-101 and `get_parameters_description`, :178-187) is left out. It is rendering with docutils and Jinja, which the model cannot see. The documentation route records only its handler.
- `DEFAULT_DOC_HTML` and the `doc_html_template` constructor argument are left out because they only feed that page.
- Flask's routing and the `request`/`Response` objects are reduced to the fields the code reads. Flask's own checks in `app.route`, such as an endpoint that is already mapped, are not modelled. The routes are kept as a list.
- `get_json()` is taken as Flask did when this code was written: `None` for a body that is not JSON, `BadRequest` for a JSON body that does not parse. In newer Werkzeug versions `get_json()` raises `UnsupportedMediaType` for a body that is not JSON; the bare `except` at flask_typed_mounter/typed_mounter.py:158 catches it, so such a request gets the 400 "Error in function …" reply and never reaches the form mode. That behaviour is not modelled.
- `request.values` and `request.files` are taken as their first value per key and their `items()` sequence. Multi-valued fields are not modelled.
- `Text.Lower`: only ASCII letters are lowered. Python's full Unicode `str.lower()` is not modelled.
- `allowed_extensions` is either a list of strings (`StrList`, which stands for any iterable of strings) or a string. Tuples, sets and dicts are not represented; they iterate like a list. A list holding a non-string, whose `.lower()` raises `AttributeError`, is not represented either.
- JSON numbers are integers, and the key order of JSON objects is not modelled. The text `json.dumps` produces is represented by the JSON value.
- `str()` of the handler's result and its JSON encodability are given with the returned value (`PyValue`), not computed.
- Exception messages are fixed texts per exception kind. Their exact Python wording is not modelled.
- `traceback.print_exc` (logging to stdout) is not modelled, because it has no effect on the reply.
- `secure_filename` is a parameter. Its sanitising rules, including the empty name it can return, are not modelled.
- `file.save`, `tempfile.mkdtemp` and `shutil.rmtree` are assumed to succeed. A failing write, a directory that cannot be made, or a failing removal is not modelled; a failing `rmtree` at flask_typed_mounter/typed_mounter.py:149 would turn the 200 reply into the catch-all 400 reply.
- The decorator's two stages are one call: `attach_endpoint(rule, **options)(fun)` is `AttachEndpoint(rule, options, fun)`. An `init_app` between the two stages is not modelled.
- A `rule` keyword inside `options` is not modelled, since Python refuses such a call before the body runs.
- checker/ and example.py are sample applications. setup.py is packaging. None of them is part of this model.
