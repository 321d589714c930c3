# Todo MCP server: a Dafny model

This project models the Go implementation of a small todo-list server. The server
speaks the Model Context Protocol over JSON-RPC 2.0 on a single HTTP endpoint. It has
three layers, and the model keeps each in its own module:

- **The store** (`Database`, over `go/internal/data/database.go` and
  `go/internal/data/todo.go`). It is one SQLite table `todos(id INTEGER PRIMARY KEY
  AUTOINCREMENT, description TEXT, created_date DATETIME NOT NULL)`.
  - The class `DatabaseContext` holds the table as a `map<int, Todo>` plus the
    AUTOINCREMENT counter `nextId`. A ghost set `issued` records every id handed out.
  - `Valid()` is the class invariant: ids are positive and below the counter, ids are
    never reused, and every row sits under its own id.
  - Create inserts a row with the counter's id and returns the stored row. Read changes
    nothing and returns a list of rows. Update and delete first check that the row
    exists, then change it, and return `Ok(bool)`. Each of the four can also meet a
    store failure.
  - `ReadTodos` is the source's scan loop. It is proved against the specification
    function `Scan`, and the lemmas give `Scan` the meaning of `ORDER BY id`.
  - The partial update is proved against `ApplyUpdate`. It goes through the same
    `SET`-clause construction the source performs.
- **The tool layer** (`TodosTool`, over `go/internal/tools/todos_mcp_tool.go`). The class
  `TodosMcpTool` turns string ids into integers with `strconv.Atoi`, drops blank
  descriptions and answers in fixed English messages.
  - The functions `ReadReply`, `UpdateReply`, `UpdateEffect`, `DeleteReply` and
    `DeleteEffect` state what each tool answers and what table it leaves behind.
  - Go's `strings.TrimSpace` (with the full `unicode.IsSpace` set), `strconv.Atoi` and
    the `%d` verb are modelled in `GoStrings`.
- **The dispatcher** (`McpServer`, over `go/internal/server/mcp_server.go`).
  - `HandleRequest` is the pure case analysis of `HandleMCP`. It takes the HTTP verb,
    the already-parsed JSON body and the date parser, and returns either a finished
    response or a validated tool call.
  - The class `MCPServer` runs that call on the tool layer. Its `HandleMCP` states the
    response and the new table for every request.
  - Errors use the codes of section 5.1 of the JSON-RPC 2.0 specification: -32700,
    -32601, -32602 and -32603. Every error has HTTP status 400.

Store failures, which come from the SQLite driver, are a nondeterministic outcome. A
failed operation leaves the table and the counter unchanged, and the dispatcher turns
the failure into -32603 "Internal error". Date parsing (`time.Parse(time.RFC3339, …)`)
is the parameter `parseDate`.

Go's decoder reports a wrongly typed `method` or `jsonrpc` as an error (-32700), but it
still fills in the other fields of the envelope. So that -32700 reply echoes the id the
body carried. The id is null when the body is not JSON, is JSON but not an object, or
carries no id (`DecodeRequest`, `HandleRequest`, `ParseErrorKeepsDecodedId`).

## Model

| member | source | states |
|---|---|---|
| GoStrings.TrimSpace | go/internal/tools/todos_mcp_tool.go:37-38 | the result is an infix of the input with only white space before and after it, and neither of its ends is white space |
| GoStrings.TrimSpaceDropsLeading | go/internal/tools/todos_mcp_tool.go:38 | a leading white-space character does not change the trimmed text |
| GoStrings.BlankIffAllSpace | go/internal/tools/todos_mcp_tool.go:37 | `TrimSpace(s) == ""` holds exactly when every character of `s` is white space (both directions) |
| GoStrings.TrimSpaceIdempotent | go/internal/tools/todos_mcp_tool.go:37-38 | trimming twice gives the same text as trimming once |
| GoStrings.TrimSpaceKeeps | go/internal/tools/todos_mcp_tool.go:37-38 | a non-empty string whose first and last characters are not white space is left as it is by trimming |
| GoStrings.Atoi | go/internal/tools/todos_mcp_tool.go:51-54 | a parsed value fits a 64-bit int, and the text it came from is an optional `+` or `-` followed by one or more digits, so a lone sign is refused (with `AtoiAccepts`, this holds in both directions) |
| GoStrings.AtoiAccepts | go/internal/tools/todos_mcp_tool.go:51-54 | every optional `+` or `-` followed by one or more digits, leading zeros allowed, parses to the signed value of the digits exactly when that value fits a 64-bit int |
| GoStrings.IsSpace | go/internal/tools/todos_mcp_tool.go:37-38 | no contract of its own: the white-space set of `unicode.IsSpace` that `TrimSpace`, `BlankIffAllSpace` and `AtoiRefusesSpace` are stated over |
| GoStrings.Itoa | go/internal/tools/todos_mcp_tool.go:70-73 | no contract of its own: the `%d` verb, pinned by `AtoiItoa`, `ItoaInjective`, `ItoaShape` and `DecimalDigits` |
| GoStrings.AtoiRefusesSpace | go/internal/tools/todos_mcp_tool.go:51-54 | an id with white space anywhere, including around the number, is refused |
| GoStrings.DecimalDigits | go/internal/tools/todos_mcp_tool.go:70 | the digits `%d` prints denote the number and have no leading zero: zero is the single digit `0`, and a longer spelling never starts with `0` |
| GoStrings.AtoiItoa | go/internal/tools/todos_mcp_tool.go:70-73 | `Atoi` reads back every 64-bit number that `%d` prints (round trip) |
| GoStrings.ItoaInjective | go/internal/tools/todos_mcp_tool.go:70-73 | two 64-bit ids never print the same |
| GoStrings.ItoaShape | go/internal/tools/todos_mcp_tool.go:73 | a printed id is non-empty and starts with a digit or a minus sign |
| GoStrings.ItoaChars | go/internal/tools/todos_mcp_tool.go:70-73 | `%d` output holds nothing but decimal digits and a minus sign, so it never holds white space |
| Database.ScanMembers | go/internal/data/database.go:84-87 | a scan of an id range holds exactly the stored rows whose ids lie in that range (both directions) |
| Database.ScanAscending | go/internal/data/database.go:84-87 | a scan lists its rows strictly ascending by id (`ORDER BY id`) |
| Database.ScanSize | go/internal/data/database.go:96-104 | a scan lists each stored id of its range exactly once |
| Database.QueryById | go/internal/data/database.go:83-85 | reading a positive id yields that id's row alone, or the empty sequence when it is absent |
| Database.QueryAll | go/internal/data/database.go:86-88 | reading everything yields every row once, strictly ascending by id; an empty table yields the empty sequence |
| Database.QueryNonPositive | go/internal/data/database.go:83 | an id that is zero or negative reads like no id at all |
| Database.ApplyUpdate | go/internal/data/database.go:128-136 | the id is kept; a present, non-blank description is written, and any other keeps the stored one; the date is replaced exactly when one is given; a present description stays present |
| Database.UpdateWithoutFields | go/internal/data/database.go:138-141 | an update with no applicable field leaves the row unchanged |
| Database.BlankDescriptionIgnored | go/internal/data/database.go:128 | a blank description acts like an absent one and keeps the stored description, while a given date still applies |
| Database.UpdateKeepsRowsValid | go/internal/data/database.go:143-146 | rewriting one row keeps the set of ids, keeps every row under its own id, and keeps every description present |
| Database.SetClauseApplies | go/internal/data/database.go:125-143 | running the `SET` clause built from the present fields gives `ApplyUpdate`'s row, and the clause is empty exactly when the update has nothing to apply |
| Database.BuildSetClause | go/internal/data/database.go:125-136 | the appended `column = ?` items are exactly `SetClause(input)` |
| Database.DatabaseContext.constructor | go/internal/data/database.go:49-55 | a freshly created table is empty, its counter is 1, and it is valid |
| Database.DatabaseContext.TodoExists | go/internal/data/database.go:175-186 | when the store does not fail, the answer is true exactly when a row has that id |
| Database.DatabaseContext.CreateTodo | go/internal/data/database.go:62-76 | the new row gets the counter's id, which is positive and greater than every id ever issued (deleted ones included); it carries exactly the given description and date; the table gains just that row; on failure, or once the counter is past the largest rowid, nothing changes |
| Database.DatabaseContext.ReadTodos | go/internal/data/database.go:79-111 | the scan loop returns `Query(rows, nextId, id)`: one row or none for a positive id, and every row ascending otherwise |
| Database.DatabaseContext.UpdateTodo | go/internal/data/database.go:114-152 | true exactly when the id was present; on true, only that row changes, to `ApplyUpdate` of it; on false or on a store failure, the table is unchanged; the counter never moves |
| Database.DatabaseContext.DeleteTodo | go/internal/data/database.go:155-172 | true exactly when the id was present; on true, exactly that row is removed; otherwise the table is unchanged; ids are not reissued |
| Database.CreateThenRead | go/internal/data/database.go:62-88 | reading back the id a create returned yields exactly the created row, with the given description |
| Database.DeleteTwice | go/internal/data/database.go:155-172 | after one successful delete, a second delete of the same id returns false |
| TodosTool.InvalidIdLeavesTable | go/internal/tools/todos_mcp_tool.go:51-81 | update and delete of an id `Atoi` refuses answer "Invalid todo id." in the success channel and leave the table as it was |
| TodosTool.SpacedIdReads | go/internal/tools/todos_mcp_tool.go:37-43 | read trims its id: a printed id with a space in front reads that id's rows |
| TodosTool.SpacedIdTrims | go/internal/tools/todos_mcp_tool.go:37-38 | trimming a printed id with a space in front gives back the printed id, which is not blank and parses to the number |
| TodosTool.SpacedIdRefused | go/internal/tools/todos_mcp_tool.go:51-80 | update and delete do not trim: the same spaced id is an invalid id for them |
| TodosTool.NotFoundNamesParsedId | go/internal/tools/todos_mcp_tool.go:69-71 | the not-found message names the parsed integer (`"+007"` gives "Todo with Id 7 not found."), not the text it came from |
| TodosTool.ItoaReadsBack | go/internal/tools/todos_mcp_tool.go:37-38 | a printed id survives trimming, is not blank, and parses back to its number |
| TodosTool.DeletedStaysGone | go/internal/tools/todos_mcp_tool.go:83-92 | a successful delete answers "Todo N deleted.", and reading N afterwards yields the empty list |
| TodosTool.RepliesDistinct | go/internal/tools/todos_mcp_tool.go:53-92 | confirmation, not-found and invalid-id messages never coincide, and each updated, deleted or not-found message determines its id |
| TodosTool.CreatedMessage | go/internal/tools/todos_mcp_tool.go:32 | no contract of its own: the create confirmation, stated by `TodosMcpTool.CreateTodo` and `BuyMilkSession` |
| TodosTool.NotFoundMessage | go/internal/tools/todos_mcp_tool.go:70 | no contract of its own: the not-found reply, pinned by `RepliesDistinct` and `NotFoundNamesParsedId` |
| TodosTool.UpdatedMessage | go/internal/tools/todos_mcp_tool.go:73 | no contract of its own: the update confirmation, pinned by `RepliesDistinct` and `BlankUpdateOfRowOne` |
| TodosTool.DeletedMessage | go/internal/tools/todos_mcp_tool.go:92 | no contract of its own: the delete confirmation, pinned by `RepliesDistinct` and `DeletedStaysGone` |
| TodosTool.TodosMcpTool.constructor | go/internal/tools/todos_mcp_tool.go:18-20 | the tool works on the store it is given |
| TodosTool.TodosMcpTool.CreateTodo | go/internal/tools/todos_mcp_tool.go:23-33 | answers "Todo created: <description> (Id: <id>)" with the assigned id, after adding exactly that row; on failure the table is unchanged |
| TodosTool.TodosMcpTool.ReadTodos | go/internal/tools/todos_mcp_tool.go:36-47 | returns `ReadReply`: every todo for an absent or blank id, the store's answer for the trimmed integer, and the empty list (without asking the store) for an id that does not parse |
| TodosTool.TodosMcpTool.UpdateTodo | go/internal/tools/todos_mcp_tool.go:50-74 | answers `UpdateReply` and leaves `UpdateEffect`: invalid id, not found with the parsed id, or updated; a blank description is dropped and a given date applied; a store failure is possible only for a parsed id and changes nothing |
| TodosTool.TodosMcpTool.DeleteTodo | go/internal/tools/todos_mcp_tool.go:77-93 | answers `DeleteReply` and leaves `DeleteEffect`: invalid id, not found, or deleted with exactly that row removed; a store failure changes nothing |
| TodosTool.SessionNumbers | go/internal/tools/todos_mcp_tool.go:51-73 | ids 1 and 999 print as "1" and "999" and parse back to themselves |
| TodosTool.LettersRefused | go/internal/tools/todos_mcp_tool_test.go:284-298 | deleting id "abc" answers "Invalid todo id." on any table |
| TodosTool.AbsentIdNotFound | go/internal/tools/todos_mcp_tool_test.go:241-256 | updating id "999" on an empty table answers "Todo with Id 999 not found." |
| TodosTool.SingleRowListing | go/internal/data/database.go:86-88 | a table holding only row 1 lists exactly that row |
| TodosTool.BlankUpdateOfRowOne | go/internal/tools/todos_mcp_tool_test.go:190-222 | a blank-description update of row 1 answers "Todo 1 updated." and leaves the row unchanged |
| TodosTool.FreshStoreMisses | go/internal/tools/todos_mcp_tool.go:50-93 | on a fresh store, deleting "abc" answers "Invalid todo id." and updating "999" answers "Todo with Id 999 not found." |
| TodosTool.BuyMilkSession | go/internal/tools/todos_mcp_tool.go:23-74 | create, list, blank update and list again on a fresh store: the row gets id 1, both listings show it unchanged, and the update is confirmed |
| McpServer.DecodeRequest | go/internal/server/mcp_server.go:71-75 | a null body decodes to the zero envelope without error; any other non-object is an error and leaves the zero envelope; an object decodes without error exactly when its `jsonrpc` and `method` are each a string or null, and its id and params are taken as given either way |
| McpServer.Catalog | go/internal/server/mcp_server.go:88-164 | exactly four tools, in the order create_todo, read_todos, update_todo, delete_todo; each lists as required exactly the fields its handler insists on, and each required field is among its properties |
| McpServer.CreateTodoSpec | go/internal/server/mcp_server.go:90-108 | create_todo requires description and createdDate and describes both |
| McpServer.ReadTodosSpec | go/internal/server/mcp_server.go:109-121 | read_todos requires nothing |
| McpServer.UpdateTodoSpec | go/internal/server/mcp_server.go:122-144 | update_todo requires only id and describes it |
| McpServer.DeleteTodoSpec | go/internal/server/mcp_server.go:145-158 | delete_todo requires only id and describes it |
| McpServer.CallTool | go/internal/server/mcp_server.go:182-193 | a tool call is run for the request's id, or refused with -32602 or -32601 for that id; each catalog name is handled by its own handler (`create_todo` by `CreateCall`, so a bad date is -32602 "Invalid date format"; `read_todos` by `ReadCall`; `update_todo` by `UpdateCall`; `delete_todo` by `DeleteCall`) and is never refused with -32601; any other name is -32601 "Unknown tool" |
| McpServer.ToolsCall | go/internal/server/mcp_server.go:167-194 | `params` that are not an object get -32602 "Invalid params", and a `name` that is not a string gets -32602 "Missing tool name"; otherwise the call goes to the named tool with the `arguments` object (or none), for the request's id |
| McpServer.Route | go/internal/server/mcp_server.go:77-84 | `tools/list` is answered with 200 and the catalog; `tools/call` is handed to `ToolsCall`; any other method gets -32601 "Method not found"; only `tools/call` reaches a tool; the id is always echoed |
| McpServer.HandleRequest | go/internal/server/mcp_server.go:55-85 | OPTIONS gives 200 with no body, and any other verb but POST gives 405, both before the body is read; an unparseable body gives -32700 with a null id; a body that parses but has a mistyped `jsonrpc` or `method` gives -32700 with the id it decoded; every well-typed request is routed by `Route`; otherwise the decoded id is echoed; a well-typed `tools/list` gets 200 with the catalog; replies are built as `sendResult` (status 200) and `sendError` (status 400) build them; errors have status 400 and are never -32603; only a POSTed `tools/call` runs a tool |
| McpServer.RequiredFieldsEnforced | go/internal/server/mcp_server.go:197-305 | leaving out any required argument of a tool, or giving it as anything but a string, is answered -32602 for the request's id, and no tool runs |
| McpServer.RequiredFieldsSuffice | go/internal/server/mcp_server.go:197-305 | giving every required argument of a catalog tool as a string, with a date that parses, reaches that tool with the call its handler builds: create with the description and the parsed date, read with the string id if any, update with the id, the string description if any and the date if it is a string that parses, delete with the id |
| McpServer.CreateCall | go/internal/server/mcp_server.go:197-216 | create_todo reaches the tool exactly when description and createdDate are strings and the date parses, with that description and date; otherwise -32602 for the request's id |
| McpServer.ReadCall | go/internal/server/mcp_server.go:234-242 | read_todos always reaches the tool for the request's id, with the id argument exactly when it is a string |
| McpServer.UpdateCall | go/internal/server/mcp_server.go:260-283 | update_todo is refused with -32602 exactly when the id is not a string; otherwise it reaches the tool with that id, a string description, and a string date as parsed |
| McpServer.DeleteCall | go/internal/server/mcp_server.go:301-308 | delete_todo is refused with -32602 exactly when the id is not a string; otherwise it reaches the tool with that id |
| McpServer.UnknownToolRejected | go/internal/server/mcp_server.go:182-193 | a name outside the catalog is answered -32601 "Unknown tool" |
| McpServer.MissingArgumentsAreEmpty | go/internal/server/mcp_server.go:180 | missing `arguments`, or `arguments` that are not an object, behave like an empty argument object |
| McpServer.UpdateIsLenient | go/internal/server/mcp_server.go:260-283 | with a string id, update_todo always reaches the tool; a non-string description is treated as absent; a non-string or unparseable date is dropped, not rejected |
| McpServer.ReadIgnoresNonStringId | go/internal/server/mcp_server.go:234-242 | read_todos with an id that is not a string reads every todo |
| McpServer.CreateRejectsBadDate | go/internal/server/mcp_server.go:210-214 | create_todo with a date that does not parse is answered -32602 "Invalid date format", and no tool runs |
| McpServer.ToolsListAnswered | go/internal/server/mcp_server.go:77-79 | a POSTed `tools/list` request whose `jsonrpc` is a string, null or absent is answered with status 200 and the catalog for its id |
| McpServer.UnknownMethodNotFound | go/internal/server/mcp_server.go:77-84 | a request whose method is a string other than `tools/list` and `tools/call`, and whose `jsonrpc` is a string, null or absent, is answered -32601 for its id |
| McpServer.ToolCallReachesTool | go/internal/server/mcp_server.go:77-190 | a POSTed `tools/call` whose `params` is an object with a string `name` is handed to that tool with the request's id and its `arguments` |
| McpServer.ParseErrorKeepsDecodedId | go/internal/server/mcp_server.go:71-75 | a numeric `method` is a decoding error, and the error still echoes the id beside it |
| McpServer.NullBodyIsMethodNotFound | go/internal/server/mcp_server.go:71-84 | a JSON `null` body decodes without error to an empty method, which is answered -32601 |
| McpServer.UnknownToolNotFound | go/internal/server/mcp_server.go:167-193 | a POSTed `tools/call` (with a `jsonrpc` that is a string, null or absent) naming a tool outside the catalog is answered -32601 "Unknown tool" for the request's id |
| McpServer.MCPServer.constructor | go/internal/server/mcp_server.go:19-23 | the server's tool layer works on the given store |
| McpServer.MCPServer.HandleMCP | go/internal/server/mcp_server.go:55-85 | a request that is answered at once leaves the table alone; a routed tool call either answers 200 with the tool's payload and leaves `CallRows` with the counter from `CallNextId`, or answers -32603 "Internal error" with the table unchanged, in the status-400 response `sendError` builds; a call that never reaches the store (read with an id that does not parse, update or delete with an id `Atoi` refuses) is always answered with 200 and leaves the table unchanged |
| McpServer.MCPServer.RunTool | go/internal/server/mcp_server.go:216-357 | a validated tool call wraps the tool's text, or the todo list, as the result for the request's id, in the response `sendResult` builds; a store failure becomes -32603 "Internal error" with no detail, in the status-400 response `sendError` builds, and leaves the table unchanged; a call that does not reach the store is always answered with 200 |

## Left out

- HTTP headers (`Content-Type` and the CORS headers) and the bytes written to the response. Only the status and the envelope are modelled, and the envelope's constant `"jsonrpc": "2.0"` member is implied.
- JSON text and its parsing. The body arrives as a parsed value, or as `Malformed` when it is not one JSON value. The decoder's case-insensitive field matching and duplicate keys are not modelled, and JSON numbers are Dafny `real`s rather than float64.
- `formatTodosAsJSON`: the text of a read reply is not built. The reply carries the todo list itself (`TodosContent`). Go's difference between a nil slice (empty store) and an empty slice (unparseable id) is invisible there.
- The catalog's description texts are named by the `Doc` datatype, and `DocText` gives their wording. No property is proved about the wording.
- The internals of `time.Parse` with RFC 3339 are the parameter `parseDate`. `Time` is reduced to an instant and a UTC offset. The model also takes the date SQLite hands back on a read to be the one stored.
- Opening, pinging, closing and creating the schema of the SQLite database, and every driver error, are out. A driver error is a nondeterministic failure that changes nothing.
- Rows with a NULL description can only be written by another program. The invariant `Valid` assumes no such rows, since no operation modelled here writes one.
- Concurrency is out, including the race between the existence check and the change in update and delete. Requests are handled one at a time.
- `log.Printf` calls and the wrapped error texts (`"error creating todo: …"`) are out. The server discards both.
- Database.DatabaseContext.ReadTodos: the loop walks every id below the counter rather than only the stored rows. The result is the same; the cost is not modelled.
- The clients (React, ExtJS), the validation script, and the TypeScript and .NET ports are not part of this model.
