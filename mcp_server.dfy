/** The request dispatcher: the Model Context Protocol `tools/list` / `tools/call`
    exchange over JSON-RPC 2.0, on one HTTP endpoint. The body arrives as an already
    parsed JSON value; the response is an HTTP status and an optional envelope. */
module McpServer {
  import opened Wrappers
  import opened TodoTypes
  import opened GoStrings
  import opened Database
  import opened TodosTool

  /** A JSON value as Go's `encoding/json` decodes it into `interface{}`. */
  datatype Json =
    | JNull
    | JBool(b: bool)
    | JNum(n: real)
    | JStr(s: string)
    | JArr(items: seq<Json>)
    | JObj(fields: map<string, Json>)

  /** The request body: text that is not one JSON value (a syntax error, an empty body),
      or the first JSON value in it. */
  datatype Body = Malformed | Decoded(value: Json)

  /** The JSON-RPC request envelope the body is decoded into. */
  datatype McpRequest = McpRequest(jsonrpc: string, id: Json, methodName: string, params: Json)

  /** JSON-RPC 2.0 error codes (section 5.1 of the JSON-RPC 2.0 specification). */
  const ParseError: int := -32700
  const MethodNotFound: int := -32601
  const InvalidParams: int := -32602
  const InternalError: int := -32603

  const StatusOK: int := 200
  const StatusBadRequest: int := 400
  const StatusMethodNotAllowed: int := 405

  /** The value under `key`, or null when there is none: Go's map index into `interface{}`. */
  function Lookup(fields: map<string, Json>, key: string): Json {
    if key in fields then fields[key] else JNull
  }

  /** Decoding one string field of the envelope: a string sets it, null or absence
      leaves it empty, any other value is a type error (None). */
  function StringField(fields: map<string, Json>, key: string): Option<string> {
    match Lookup(fields, key)
    case JStr(s) => Some(s)
    case JNull => Some("")
    case _ => None
  }

  /** Whether a JSON value fits a Go `string` field: a string, or null (which leaves the
      field as it was). */
  predicate StringOrNull(j: Json) {
    j.JStr? || j.JNull?
  }

  /** The envelope Go's decoder fills in, and whether it reported no type error. */
  datatype Decoding = Decoding(req: McpRequest, ok: bool)

  /** `json.NewDecoder(r.Body).Decode(&req)` on a parsed value. A null body leaves the
      envelope at its zero value without error; a body that is not an object is a type
      error; a wrongly typed `jsonrpc` or `method` is a type error, yet the decoder
      still fills in the other fields, the id among them. */
  function DecodeRequest(v: Json): (d: Decoding)
    ensures !v.JObj? ==> d.req == McpRequest("", JNull, "", JNull) && (d.ok <==> v.JNull?)
    ensures v.JObj? ==> d.req.id == Lookup(v.fields, "id") && d.req.params == Lookup(v.fields, "params")
    ensures v.JObj? && d.ok ==> Lookup(v.fields, "method") == JStr(d.req.methodName) || (d.req.methodName == "" && Lookup(v.fields, "method") == JNull)
    ensures v.JObj? ==> (d.ok <==> StringOrNull(Lookup(v.fields, "jsonrpc")) && StringOrNull(Lookup(v.fields, "method")))
  {
    match v
    case JNull => Decoding(McpRequest("", JNull, "", JNull), true)
    case JObj(fields) =>
      var jsonrpc := StringField(fields, "jsonrpc");
      var methodName := StringField(fields, "method");
      Decoding(McpRequest(jsonrpc.GetOr(""), Lookup(fields, "id"), methodName.GetOr(""), Lookup(fields, "params")),
               jsonrpc.Some? && methodName.Some?)
    case _ => Decoding(McpRequest("", JNull, "", JNull), false)
  }

  /** The human-readable texts of the catalog, named by what they describe; `DocText`
      holds the wording sent for each. */
  datatype Doc =
    | CreateTodoDoc | CreateDescriptionDoc | CreateDateDoc
    | ReadTodosDoc | ReadIdDoc
    | UpdateTodoDoc | UpdateIdDoc | UpdateDescriptionDoc | UpdateDateDoc
    | DeleteTodoDoc | DeleteIdDoc

  function DocText(doc: Doc): string {
    match doc
    case CreateTodoDoc => "Creates a new todo with a description and creation date."
    case CreateDescriptionDoc => "Description of the todo"
    case CreateDateDoc => "Creation date of the todo"
    case ReadTodosDoc => "Reads all todos, or a single todo if an id is provided."
    case ReadIdDoc => "Id of the todo to read (optional)"
    case UpdateTodoDoc => "Updates the specified todo fields by id."
    case UpdateIdDoc => "Id of the todo to update"
    case UpdateDescriptionDoc => "New description (optional)"
    case UpdateDateDoc => "New creation date (optional)"
    case DeleteTodoDoc => "Deletes a todo by id."
    case DeleteIdDoc => "Id of the todo to delete"
  }

  /** One entry of an input schema's `properties`. */
  datatype PropertySchema = PropertySchema(typ: string, format: Option<string>, description: Doc)

  /** A catalog entry: name, description and an input schema of type "object" with its
      properties and required fields. */
  datatype ToolSpec = ToolSpec(name: string, description: Doc,
                               properties: map<string, PropertySchema>, required: seq<string>)

  /** What a successful response carries: the tool catalog, one text content item, or
      one text content item holding the JSON encoding of a todo list. */
  datatype Payload = ToolList(tools: seq<ToolSpec>) | TextContent(text: string) | TodosContent(todos: seq<Todo>)

  /** The JSON-RPC response envelope (its `jsonrpc` member is always "2.0"). */
  datatype Envelope = Result(id: Json, result: Payload) | Error(id: Json, code: int, message: string)

  datatype HttpResponse = HttpResponse(status: int, body: Option<Envelope>)

  /** `sendResult`: the status stays 200. */
  function SendResult(id: Json, result: Payload): HttpResponse {
    HttpResponse(StatusOK, Some(Result(id, result)))
  }

  /** `sendError`: every error goes out with status 400. */
  function SendError(id: Json, code: int, message: string): HttpResponse {
    HttpResponse(StatusBadRequest, Some(Error(id, code, message)))
  }

  /** Whether a response is an error envelope echoing `id` with `code`. */
  predicate IsError(resp: HttpResponse, id: Json, code: int) {
    resp.status == StatusBadRequest && resp.body.Some? && resp.body.value.Error?
    && resp.body.value.id == id && resp.body.value.code == code
  }

  /** The names of the four tools, in catalog order. */
  function ToolNames(): seq<string> {
    ["create_todo", "read_todos", "update_todo", "delete_todo"]
  }

  /** The arguments a tool cannot do without. */
  function RequiredFields(name: string): seq<string> {
    if name == "create_todo" then ["description", "createdDate"]
    else if name == "update_todo" || name == "delete_todo" then ["id"]
    else []
  }

  /** The catalog `tools/list` returns: the four tools in order, each advertising as
      required exactly the arguments its handler insists on, and describing each of
      them among its properties. */
  function Catalog(): (tools: seq<ToolSpec>)
    ensures |tools| == |ToolNames()|
    ensures forall i :: 0 <= i < |tools| ==> Describes(tools[i], ToolNames()[i])
  {
    var tools := [CreateTodoSpec(), ReadTodosSpec(), UpdateTodoSpec(), DeleteTodoSpec()];
    var names := ToolNames();
    assert Describes(tools[0], names[0]) && Describes(tools[1], names[1]);
    assert Describes(tools[2], names[2]) && Describes(tools[3], names[3]);
    tools
  }

  /** Whether a catalog entry describes the tool `name` and advertises its required
      arguments among its properties. */
  predicate Describes(t: ToolSpec, name: string) {
    t.name == name && t.required == RequiredFields(name)
    && forall k :: 0 <= k < |t.required| ==> t.required[k] in t.properties
  }

  function CreateTodoSpec(): (t: ToolSpec)
    ensures Describes(t, "create_todo")
  {
    ToolSpec("create_todo", CreateTodoDoc,
             map["description" := PropertySchema("string", None, CreateDescriptionDoc),
                 "createdDate" := PropertySchema("string", Some("date-time"), CreateDateDoc)],
             ["description", "createdDate"])
  }

  function ReadTodosSpec(): (t: ToolSpec)
    ensures Describes(t, "read_todos")
  {
    ToolSpec("read_todos", ReadTodosDoc, map["id" := PropertySchema("string", None, ReadIdDoc)], [])
  }

  function UpdateTodoSpec(): (t: ToolSpec)
    ensures Describes(t, "update_todo")
  {
    ToolSpec("update_todo", UpdateTodoDoc,
             map["id" := PropertySchema("string", None, UpdateIdDoc),
                 "description" := PropertySchema("string", None, UpdateDescriptionDoc),
                 "createdDate" := PropertySchema("string", Some("date-time"), UpdateDateDoc)],
             ["id"])
  }

  function DeleteTodoSpec(): (t: ToolSpec)
    ensures Describes(t, "delete_todo")
  {
    ToolSpec("delete_todo", DeleteTodoDoc, map["id" := PropertySchema("string", None, DeleteIdDoc)], ["id"])
  }

  /** A validated tool invocation, ready for the tool layer. */
  datatype ToolCall =
    | CreateTodo(text: string, date: Time)
    | ReadTodos(readId: Option<string>)
    | UpdateTodo(todoId: string, newText: Option<string>, newDate: Option<Time>)
    | DeleteTodo(todoId: string)

  /** What the pure part of the handler decides: answer at once, or run a tool call and
      answer for request `id`. */
  datatype Dispatch = Reply(response: HttpResponse) | Invoke(id: Json, call: ToolCall)

  /** An optional string argument: present only when it is a string. */
  function OptionalString(args: map<string, Json>, key: string): Option<string> {
    if Lookup(args, key).JStr? then Some(Lookup(args, key).s) else None
  }

  /** `handleCreateTodo`: both fields must be strings and the date must parse. */
  function CreateCall(id: Json, args: map<string, Json>, parseDate: string -> Option<Time>): (d: Dispatch)
    ensures d.Reply? ==> IsError(d.response, id, InvalidParams)
    ensures d.Invoke? <==> Lookup(args, "description").JStr? && Lookup(args, "createdDate").JStr?
                           && parseDate(Lookup(args, "createdDate").s).Some?
    ensures d.Invoke? ==>
      d == Invoke(id, CreateTodo(Lookup(args, "description").s, parseDate(Lookup(args, "createdDate").s).value))
  {
    if !Lookup(args, "description").JStr? then Reply(SendError(id, InvalidParams, "Missing or invalid description"))
    else if !Lookup(args, "createdDate").JStr? then Reply(SendError(id, InvalidParams, "Missing or invalid createdDate"))
    else match parseDate(Lookup(args, "createdDate").s)
      case None => Reply(SendError(id, InvalidParams, "Invalid date format"))
      case Some(date) => Invoke(id, CreateTodo(Lookup(args, "description").s, date))
  }

  /** `handleReadTodos`: an id that is not a string is ignored. */
  function ReadCall(id: Json, args: map<string, Json>): (d: Dispatch)
    ensures d.Invoke? && d.id == id && d.call.ReadTodos?
    ensures d.call.readId.Some? <==> Lookup(args, "id").JStr?
    ensures Lookup(args, "id").JStr? ==> d.call.readId.value == Lookup(args, "id").s
  {
    Invoke(id, ReadTodos(OptionalString(args, "id")))
  }

  /** `handleUpdateTodo`: only the id is required; a description that is not a string
      and a date that is not a string or does not parse are dropped. */
  function UpdateCall(id: Json, args: map<string, Json>, parseDate: string -> Option<Time>): (d: Dispatch)
    ensures d.Reply? <==> !Lookup(args, "id").JStr?
    ensures d.Reply? ==> IsError(d.response, id, InvalidParams)
    ensures d.Invoke? ==> d.id == id && d.call.UpdateTodo? && d.call.todoId == Lookup(args, "id").s
    ensures d.Invoke? && Lookup(args, "description").JStr? ==> d.call.newText == Some(Lookup(args, "description").s)
    ensures d.Invoke? && Lookup(args, "createdDate").JStr? ==> d.call.newDate == parseDate(Lookup(args, "createdDate").s)
  {
    if !Lookup(args, "id").JStr? then Reply(SendError(id, InvalidParams, "Missing or invalid id"))
    else
      var date := if Lookup(args, "createdDate").JStr? then parseDate(Lookup(args, "createdDate").s) else None;
      Invoke(id, UpdateTodo(Lookup(args, "id").s, OptionalString(args, "description"), date))
  }

  /** `handleDeleteTodo`: the id must be a string. */
  function DeleteCall(id: Json, args: map<string, Json>): (d: Dispatch)
    ensures d.Reply? <==> !Lookup(args, "id").JStr?
    ensures d.Reply? ==> IsError(d.response, id, InvalidParams)
    ensures d.Invoke? ==> d == Invoke(id, DeleteTodo(Lookup(args, "id").s))
  {
    if !Lookup(args, "id").JStr? then Reply(SendError(id, InvalidParams, "Missing or invalid id"))
    else Invoke(id, DeleteTodo(Lookup(args, "id").s))
  }

  /** The switch on the tool name in `handleToolsCall`. */
  function CallTool(id: Json, name: string, args: map<string, Json>, parseDate: string -> Option<Time>): (d: Dispatch)
    ensures d.Invoke? ==> d.id == id
    ensures d.Reply? ==> IsError(d.response, id, InvalidParams) || IsError(d.response, id, MethodNotFound)
    ensures name in ToolNames() && d.Reply? ==> IsError(d.response, id, InvalidParams)
    ensures name == "create_todo" ==> d == CreateCall(id, args, parseDate)
    ensures name == "read_todos" ==> d == ReadCall(id, args)
    ensures name == "update_todo" ==> d == UpdateCall(id, args, parseDate)
    ensures name == "delete_todo" ==> d == DeleteCall(id, args)
    ensures name !in ToolNames() ==> d == Reply(SendError(id, MethodNotFound, "Unknown tool"))
  {
    if name == "create_todo" then CreateCall(id, args, parseDate)
    else if name == "read_todos" then ReadCall(id, args)
    else if name == "update_todo" then UpdateCall(id, args, parseDate)
    else if name == "delete_todo" then DeleteCall(id, args)
    else Reply(SendError(id, MethodNotFound, "Unknown tool"))
  }

  /** The `arguments` of a call: an object, or no arguments at all when it is missing or
      is not an object. */
  function Arguments(params: map<string, Json>): map<string, Json> {
    if Lookup(params, "arguments").JObj? then Lookup(params, "arguments").fields else map[]
  }

  /** `handleToolsCall`: `params` must be an object whose `name` is a string. */
  function ToolsCall(req: McpRequest, parseDate: string -> Option<Time>): (d: Dispatch)
    ensures d.Invoke? ==> d.id == req.id
    ensures d.Reply? ==> IsError(d.response, req.id, InvalidParams) || IsError(d.response, req.id, MethodNotFound)
    ensures !req.params.JObj? || !Lookup(req.params.fields, "name").JStr? ==>
      d == Reply(SendError(req.id, InvalidParams, if !req.params.JObj? then "Invalid params" else "Missing tool name"))
    ensures req.params.JObj? && Lookup(req.params.fields, "name").JStr? ==>
      d == CallTool(req.id, Lookup(req.params.fields, "name").s, Arguments(req.params.fields), parseDate)
  {
    if !req.params.JObj? then Reply(SendError(req.id, InvalidParams, "Invalid params"))
    else if !Lookup(req.params.fields, "name").JStr? then Reply(SendError(req.id, InvalidParams, "Missing tool name"))
    else CallTool(req.id, Lookup(req.params.fields, "name").s, Arguments(req.params.fields), parseDate)
  }

  /** Routing a decoded, well-typed request by its method: `tools/list` answers with
      the catalog, `tools/call` goes on to the tool, anything else is -32601. The id
      is echoed whatever happens. */
  function Route(req: McpRequest, parseDate: string -> Option<Time>): (d: Dispatch)
    ensures req.methodName == "tools/list" ==> d == Reply(SendResult(req.id, ToolList(Catalog())))
    ensures req.methodName != "tools/list" && req.methodName != "tools/call" ==>
      d == Reply(SendError(req.id, MethodNotFound, "Method not found"))
    ensures req.methodName == "tools/call" ==> d == ToolsCall(req, parseDate)
    ensures d.Invoke? ==> d.id == req.id && req.methodName == "tools/call"
    ensures d.Reply? ==> d.response.body.Some? && d.response.body.value.id == req.id
    ensures d.Reply? && d.response.body.value.Error? ==>
      d.response.status == StatusBadRequest && d.response.body.value.code in {MethodNotFound, InvalidParams}
    ensures d.Reply? && d.response.body.value.Result? ==>
      d.response.status == StatusOK && d.response.body.value.result == ToolList(Catalog())
  {
    if req.methodName == "tools/list" then Reply(SendResult(req.id, ToolList(Catalog())))
    else if req.methodName == "tools/call" then ToolsCall(req, parseDate)
    else Reply(SendError(req.id, MethodNotFound, "Method not found"))
  }

  /** The pure part of `HandleMCP`: the verb is looked at before the body, the body is
      decoded, and the method is routed. Every error it produces echoes the request id
      and has status 400; none of them is an internal error, which only a tool call can
      cause. */
  function HandleRequest(verb: string, body: Body, parseDate: string -> Option<Time>): (d: Dispatch)
    ensures verb == "OPTIONS" ==> d == Reply(HttpResponse(StatusOK, None))
    ensures verb != "OPTIONS" && verb != "POST" ==> d == Reply(HttpResponse(StatusMethodNotAllowed, None))
    ensures verb == "POST" && body.Malformed? ==> d == Reply(SendError(JNull, ParseError, "Parse error"))
    ensures verb == "POST" && body.Decoded? ==>
      var id := DecodeRequest(body.value).req.id;
      && (d.Invoke? ==> d.id == id)
      && (d.Reply? ==> d.response.body.Some? && d.response.body.value.id == id)
    ensures d.Reply? && d.response.body.Some? && d.response.body.value.Error? ==>
      d.response.status == StatusBadRequest && d.response.body.value.code in {ParseError, MethodNotFound, InvalidParams}
    ensures d.Reply? && d.response.body.Some? && d.response.body.value.Result? ==>
      d.response.status == StatusOK && d.response.body.value.result == ToolList(Catalog())
    ensures d.Invoke? ==> verb == "POST" && body.Decoded? && DecodeRequest(body.value).req.methodName == "tools/call"
    ensures verb == "POST" && body.Decoded? && DecodeRequest(body.value).ok &&
            DecodeRequest(body.value).req.methodName == "tools/list" ==>
      d == Reply(SendResult(DecodeRequest(body.value).req.id, ToolList(Catalog())))
    ensures verb == "POST" && body.Decoded? && !DecodeRequest(body.value).ok ==>
      d == Reply(SendError(DecodeRequest(body.value).req.id, ParseError, "Parse error"))
    ensures verb == "POST" && body.Decoded? && DecodeRequest(body.value).ok ==>
      d == Route(DecodeRequest(body.value).req, parseDate)
  {
    if verb == "OPTIONS" then Reply(HttpResponse(StatusOK, None))
    else if verb != "POST" then Reply(HttpResponse(StatusMethodNotAllowed, None))
    else if body.Malformed? then Reply(SendError(JNull, ParseError, "Parse error"))
    else
      var decoded := DecodeRequest(body.value);
      if !decoded.ok then Reply(SendError(decoded.req.id, ParseError, "Parse error"))
      else Route(decoded.req, parseDate)
  }

  /** Validation enforces the required fields: leaving out any required field of a
      tool, or giving it as anything but a string, is an invalid-params error for that
      request, without a store call. */
  lemma RequiredFieldsEnforced(id: Json, args: map<string, Json>, parseDate: string -> Option<Time>,
                               name: string, field: string)
    requires field in RequiredFields(name) && !Lookup(args, field).JStr?
    ensures var d := CallTool(id, name, args, parseDate);
      d.Reply? && IsError(d.response, id, InvalidParams)
  {
    if name == "create_todo" {
      assert field == "description" || field == "createdDate";
    } else {
      assert field == "id";
    }
  }

  /** ... and conversely, giving every required field of a catalog tool as a string
      (with a date that parses) always reaches the tool, whatever else the arguments
      hold. */
  lemma RequiredFieldsSuffice(id: Json, args: map<string, Json>, parseDate: string -> Option<Time>, name: string)
    requires name in ToolNames()
    requires forall field :: field in RequiredFields(name) ==> field in args && args[field].JStr?
    requires "createdDate" in RequiredFields(name) ==> parseDate(args["createdDate"].s).Some?
    ensures CallTool(id, name, args, parseDate).Invoke?
    ensures name == "create_todo" ==>
      CallTool(id, name, args, parseDate) ==
      Invoke(id, CreateTodo(args["description"].s, parseDate(args["createdDate"].s).value))
    ensures name == "read_todos" ==>
      CallTool(id, name, args, parseDate) == Invoke(id, ReadTodos(OptionalString(args, "id")))
    ensures name == "update_todo" ==>
      var date := if Lookup(args, "createdDate").JStr? then parseDate(Lookup(args, "createdDate").s) else None;
      CallTool(id, name, args, parseDate) ==
      Invoke(id, UpdateTodo(args["id"].s, OptionalString(args, "description"), date))
    ensures name == "delete_todo" ==> CallTool(id, name, args, parseDate) == Invoke(id, DeleteTodo(args["id"].s))
  {
    var required := RequiredFields(name);
    if name == "create_todo" {
      assert required[0] == "description" && required[1] == "createdDate";
    } else if name != "read_todos" {
      assert required[0] == "id";
    }
  }

  /** Only the catalog names reach a tool; any other name is "Unknown tool". */
  lemma UnknownToolRejected(id: Json, name: string, args: map<string, Json>, parseDate: string -> Option<Time>)
    requires name !in ToolNames()
    ensures CallTool(id, name, args, parseDate) == Reply(SendError(id, MethodNotFound, "Unknown tool"))
  {
    var names := ToolNames();
    assert name != names[0] && name != names[1] && name != names[2] && name != names[3];
  }

  /** Missing `arguments`, or `arguments` that are not an object, behave like an empty
      argument object. */
  lemma MissingArgumentsAreEmpty(req: McpRequest, parseDate: string -> Option<Time>)
    requires req.params.JObj? && !Lookup(req.params.fields, "arguments").JObj?
    ensures ToolsCall(req, parseDate) ==
      ToolsCall(req.(params := JObj(req.params.fields["arguments" := JObj(map[])])), parseDate)
  {
    var fields := req.params.fields;
    var fields' := fields["arguments" := JObj(map[])];
    assert Lookup(fields', "name") == Lookup(fields, "name");
  }

  /** `update_todo` is lenient: with a string id it always reaches the tool, a description
      that is not a string is treated as absent, and a date that is not a string or does
      not parse is dropped rather than rejected. */
  lemma UpdateIsLenient(id: Json, args: map<string, Json>, parseDate: string -> Option<Time>)
    requires Lookup(args, "id").JStr?
    ensures var d := UpdateCall(id, args, parseDate);
      && d.Invoke? && d.call.todoId == Lookup(args, "id").s
      && (!Lookup(args, "description").JStr? ==> d.call.newText.None?)
      && (Lookup(args, "createdDate").JStr? && parseDate(Lookup(args, "createdDate").s).None? ==> d.call.newDate.None?)
      && (!Lookup(args, "createdDate").JStr? ==> d.call.newDate.None?)
  {
  }

  /** `read_todos` with an id that is not a string reads every todo. */
  lemma ReadIgnoresNonStringId(id: Json, args: map<string, Json>)
    requires !Lookup(args, "id").JStr?
    ensures ReadCall(id, args) == Invoke(id, ReadTodos(None))
  {
  }

  /** `create_todo` with an unparseable date is an invalid-params error; nothing is stored. */
  lemma CreateRejectsBadDate(id: Json, args: map<string, Json>, parseDate: string -> Option<Time>)
    requires Lookup(args, "description").JStr? && Lookup(args, "createdDate").JStr?
    requires parseDate(Lookup(args, "createdDate").s).None?
    ensures CreateCall(id, args, parseDate) == Reply(SendError(id, InvalidParams, "Invalid date format"))
  {
  }

  /** A well-typed envelope whose method is neither `tools/list` nor `tools/call` is
      answered with -32601 for its id. */
  lemma UnknownMethodNotFound(fields: map<string, Json>, name: string, parseDate: string -> Option<Time>)
    requires Lookup(fields, "method") == JStr(name) && name != "tools/list" && name != "tools/call"
    requires StringOrNull(Lookup(fields, "jsonrpc"))
    ensures HandleRequest("POST", Decoded(JObj(fields)), parseDate)
         == Reply(SendError(Lookup(fields, "id"), MethodNotFound, "Method not found"))
  {
  }

  /** A well-typed `tools/list` request is answered with status 200 and the catalog,
      for its id. */
  lemma ToolsListAnswered(fields: map<string, Json>, parseDate: string -> Option<Time>)
    requires Lookup(fields, "method") == JStr("tools/list") && StringOrNull(Lookup(fields, "jsonrpc"))
    ensures HandleRequest("POST", Decoded(JObj(fields)), parseDate)
         == Reply(HttpResponse(StatusOK, Some(Result(Lookup(fields, "id"), ToolList(Catalog())))))
  {
  }

  /** A `method` that is a number is a decoding error, yet the id beside it is echoed. */
  lemma ParseErrorKeepsDecodedId(parseDate: string -> Option<Time>)
    ensures HandleRequest("POST", Decoded(JObj(map["id" := JNum(7.0), "method" := JNum(1.0)])), parseDate)
         == Reply(SendError(JNum(7.0), ParseError, "Parse error"))
  {
    var fields := map["id" := JNum(7.0), "method" := JNum(1.0)];
    assert Lookup(fields, "method") == JNum(1.0);
  }

  /** A body that is JSON `null` decodes without error to an empty method name, which
      is not found. */
  lemma NullBodyIsMethodNotFound(parseDate: string -> Option<Time>)
    ensures HandleRequest("POST", Decoded(JNull), parseDate) == Reply(SendError(JNull, MethodNotFound, "Method not found"))
  {
  }

  /** `tools/call` naming a tool that is not in the catalog, such as `"bogus_tool"`, is
      answered with -32601 for the request's id. */
  lemma UnknownToolNotFound(fields: map<string, Json>, params: map<string, Json>, name: string,
                            parseDate: string -> Option<Time>)
    requires StringOrNull(Lookup(fields, "jsonrpc")) && Lookup(fields, "method") == JStr("tools/call")
    requires Lookup(fields, "params") == JObj(params) && Lookup(params, "name") == JStr(name)
    requires name !in ToolNames()
    ensures HandleRequest("POST", Decoded(JObj(fields)), parseDate)
         == Reply(SendError(Lookup(fields, "id"), MethodNotFound, "Unknown tool"))
  {
    UnknownToolRejected(Lookup(fields, "id"), name, Arguments(params), parseDate);
  }

  /** A well-typed `tools/call` whose `params` is an object with a string `name` is
      handed to that tool with the request's id and arguments; together with
      `RequiredFieldsSuffice`, complete arguments reach the named tool's call. */
  lemma ToolCallReachesTool(fields: map<string, Json>, params: map<string, Json>, name: string,
                            parseDate: string -> Option<Time>)
    requires StringOrNull(Lookup(fields, "jsonrpc")) && Lookup(fields, "method") == JStr("tools/call")
    requires Lookup(fields, "params") == JObj(params) && Lookup(params, "name") == JStr(name)
    ensures HandleRequest("POST", Decoded(JObj(fields)), parseDate)
         == CallTool(Lookup(fields, "id"), name, Arguments(params), parseDate)
  {
  }

  /** The payload a tool call answers with when the store does not fail. */
  function CallPayload(call: ToolCall, rows: map<int, Todo>, nextId: int): Payload {
    match call
    case CreateTodo(description, _) => TextContent(CreatedMessage(description, nextId))
    case ReadTodos(id) => TodosContent(ReadReply(id, rows, nextId))
    case UpdateTodo(id, _, _) => TextContent(UpdateReply(id, rows))
    case DeleteTodo(id) => TextContent(DeleteReply(id, rows))
  }

  /** The table a tool call leaves when the store does not fail. */
  function CallRows(call: ToolCall, rows: map<int, Todo>, nextId: int): map<int, Todo> {
    match call
    case CreateTodo(description, date) => rows[nextId := Todo(nextId, Some(description), date)]
    case ReadTodos(_) => rows
    case UpdateTodo(id, description, date) => UpdateEffect(id, description, date, rows)
    case DeleteTodo(id) => DeleteEffect(id, rows)
  }

  /** The AUTOINCREMENT counter after a tool call that did not fail. */
  function CallNextId(call: ToolCall, nextId: int): int {
    if call.CreateTodo? then nextId + 1 else nextId
  }

  /** Whether a tool call asks the store anything: read with an id whose trimmed text
      is not an integer, and update or delete with an id `Atoi` refuses, are answered
      by the tool layer alone. */
  predicate ReachesStore(call: ToolCall) {
    match call
    case CreateTodo(_, _) => true
    case ReadTodos(id) => id.None? || IsBlank(id.value) || Atoi(TrimSpace(id.value)).Some?
    case UpdateTodo(id, _, _) => Atoi(id).Some?
    case DeleteTodo(id) => Atoi(id).Some?
  }

  class MCPServer {
    /** The tool layer, over the shared store. */
    const todosTool: TodosMcpTool

    constructor (db: DatabaseContext)
      ensures todosTool.db == db
    {
      todosTool := new TodosMcpTool(db);
    }

    /** `HandleMCP`: answers one request. A routed tool call either succeeds, with the
        tool's text wrapped as one text content item, or meets a store failure, which
        is answered with -32603 "Internal error" and no detail, the table untouched. */
    method HandleMCP(verb: string, body: Body, parseDate: string -> Option<Time>) returns (resp: HttpResponse)
      requires todosTool.db.Valid()
      modifies todosTool.db
      ensures todosTool.db.Valid()
      ensures
        var d := HandleRequest(verb, body, parseDate);
        var db := todosTool.db;
        if d.Reply? then
          resp == d.response && db.rows == old(db.rows) && db.nextId == old(db.nextId)
        else
          || (&& resp == SendResult(d.id, CallPayload(d.call, old(db.rows), old(db.nextId)))
              && db.rows == CallRows(d.call, old(db.rows), old(db.nextId))
              && db.nextId == CallNextId(d.call, old(db.nextId)))
          || (&& resp == SendError(d.id, InternalError, "Internal error")
              && db.rows == old(db.rows) && db.nextId == old(db.nextId))
      ensures
        var d := HandleRequest(verb, body, parseDate);
        d.Invoke? && !ReachesStore(d.call) ==>
          resp == SendResult(d.id, CallPayload(d.call, old(todosTool.db.rows), old(todosTool.db.nextId)))
          && todosTool.db.rows == old(todosTool.db.rows)
    {
      var d := HandleRequest(verb, body, parseDate);
      if d.Reply? {
        return d.response;
      }
      resp := RunTool(d.id, d.call);
    }

    /** The tail of each `handle...` function: run the validated call on the tool layer
        and wrap its text, or answer a store failure with -32603. */
    method RunTool(id: Json, call: ToolCall) returns (resp: HttpResponse)
      requires todosTool.db.Valid()
      modifies todosTool.db
      ensures todosTool.db.Valid()
      ensures
        var db := todosTool.db;
        || (&& resp == SendResult(id, CallPayload(call, old(db.rows), old(db.nextId)))
            && db.rows == CallRows(call, old(db.rows), old(db.nextId))
            && db.nextId == CallNextId(call, old(db.nextId)))
        || (&& resp == SendError(id, InternalError, "Internal error")
            && db.rows == old(db.rows) && db.nextId == old(db.nextId))
      ensures !ReachesStore(call) ==>
        resp == SendResult(id, CallPayload(call, old(todosTool.db.rows), old(todosTool.db.nextId)))
        && todosTool.db.rows == old(todosTool.db.rows)
    {
      match call
      case CreateTodo(description, date) =>
        var result := todosTool.CreateTodo(description, date);
        resp := if result.Ok? then SendResult(id, TextContent(result.value))
                else SendError(id, InternalError, "Internal error");
      case ReadTodos(readId) =>
        var todos := todosTool.ReadTodos(readId);
        resp := if todos.Ok? then SendResult(id, TodosContent(todos.value))
                else SendError(id, InternalError, "Internal error");
      case UpdateTodo(todoId, description, date) =>
        var result := todosTool.UpdateTodo(todoId, description, date);
        resp := if result.Ok? then SendResult(id, TextContent(result.value))
                else SendError(id, InternalError, "Internal error");
      case DeleteTodo(todoId) =>
        var result := todosTool.DeleteTodo(todoId);
        resp := if result.Ok? then SendResult(id, TextContent(result.value))
                else SendError(id, InternalError, "Internal error");
    }
  }
}
