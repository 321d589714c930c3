/** The tool layer: turns the string arguments of the four todo tools into store calls,
    and store results into fixed English messages. */
module TodosTool {
  import opened Wrappers
  import opened TodoTypes
  import opened GoStrings
  import opened Database

  const InvalidIdMessage: string := "Invalid todo id."

  function CreatedMessage(description: string, id: int): string {
    "Todo created: " + description + " (Id: " + Itoa(id) + ")"
  }

  function NotFoundMessage(id: int): string {
    "Todo with Id " + Itoa(id) + " not found."
  }

  function UpdatedMessage(id: int): string {
    "Todo " + Itoa(id) + " updated."
  }

  function DeletedMessage(id: int): string {
    "Todo " + Itoa(id) + " deleted."
  }

  /** The todos `read_todos` yields on a table: every row for an absent or blank id,
      nothing (and no store access) for an id whose trimmed text is not an integer, and
      the store's answer for the parsed integer otherwise. */
  function ReadReply(id: Option<string>, rows: map<int, Todo>, nextId: int): seq<Todo> {
    if id.None? || IsBlank(id.value) then Query(rows, nextId, None)
    else match Atoi(TrimSpace(id.value))
      case None => []
      case Some(n) => Query(rows, nextId, Some(n))
  }

  /** The message `update_todo` answers with; the id is parsed without trimming. */
  function UpdateReply(id: string, rows: map<int, Todo>): string {
    match Atoi(id)
    case None => InvalidIdMessage
    case Some(n) => if n in rows then UpdatedMessage(n) else NotFoundMessage(n)
  }

  /** The table `update_todo` leaves behind. */
  function UpdateEffect(id: string, description: Option<string>, createdDate: Option<Time>,
                        rows: map<int, Todo>): map<int, Todo>
  {
    match Atoi(id)
    case None => rows
    case Some(n) =>
      if n in rows then rows[n := ApplyUpdate(rows[n], UpdateTodoInput(description, createdDate))] else rows
  }

  /** The message `delete_todo` answers with; the id is parsed without trimming. */
  function DeleteReply(id: string, rows: map<int, Todo>): string {
    match Atoi(id)
    case None => InvalidIdMessage
    case Some(n) => if n in rows then DeletedMessage(n) else NotFoundMessage(n)
  }

  /** The table `delete_todo` leaves behind. */
  function DeleteEffect(id: string, rows: map<int, Todo>): map<int, Todo> {
    match Atoi(id)
    case None => rows
    case Some(n) => rows - {n}
  }

  /** A malformed id is answered in the success channel and leaves the table alone. */
  lemma InvalidIdLeavesTable(id: string, description: Option<string>, createdDate: Option<Time>,
                             rows: map<int, Todo>)
    requires Atoi(id).None?
    ensures UpdateReply(id, rows) == InvalidIdMessage && UpdateEffect(id, description, createdDate, rows) == rows
    ensures DeleteReply(id, rows) == InvalidIdMessage && DeleteEffect(id, rows) == rows
  {
  }

  /** Read trims the id but update and delete do not: a printed id with a space in
      front, such as `" 1"`, reads that id's row ... */
  lemma SpacedIdReads(n: int, rows: map<int, Todo>, nextId: int)
    requires InInt64(n)
    ensures ReadReply(Some(" " + Itoa(n)), rows, nextId) == Query(rows, nextId, Some(n))
  {
    SpacedIdTrims(n);
  }

  /** Trimming a printed id with a space in front gives back the printed id. */
  lemma SpacedIdTrims(n: int)
    requires InInt64(n)
    ensures TrimSpace(" " + Itoa(n)) == Itoa(n) && !IsBlank(" " + Itoa(n))
    ensures Atoi(TrimSpace(" " + Itoa(n))) == Some(n)
  {
    TrimSpaceDropsLeading(' ', Itoa(n));
    assert [' '] + Itoa(n) == " " + Itoa(n);
    ItoaReadsBack(n);
  }

  /** ... yet is an invalid id for update and delete. */
  lemma SpacedIdRefused(n: int, rows: map<int, Todo>)
    requires InInt64(n)
    ensures UpdateReply(" " + Itoa(n), rows) == InvalidIdMessage
    ensures DeleteReply(" " + Itoa(n), rows) == InvalidIdMessage
  {
    AtoiRefusesSpace(" " + Itoa(n), 0);
  }

  /** The not-found message names the parsed integer, not the text it came from. */
  lemma NotFoundNamesParsedId(rows: map<int, Todo>)
    requires 7 !in rows
    ensures UpdateReply("+007", rows) == NotFoundMessage(7) == "Todo with Id 7 not found."
    ensures DeleteReply("+007", rows) == NotFoundMessage(7)
  {
    assert DigitsValue("007") == 7 by {
      assert "007"[..2] == "00" && "00"[..1] == "0" && "0"[..0] == "";
    }
    assert "+007"[1..] == "007";
  }

  /** Text printed with `%d` survives trimming and parses back to its number. */
  lemma ItoaReadsBack(n: int)
    requires InInt64(n)
    ensures TrimSpace(Itoa(n)) == Itoa(n) && !IsBlank(Itoa(n))
    ensures Atoi(TrimSpace(Itoa(n))) == Some(n)
  {
    var s := Itoa(n);
    AtoiItoa(n);
    ItoaChars(n);
    assert !IsSpace(s[0]) && !IsSpace(s[|s| - 1]);
    TrimSpaceKeeps(s);
  }

  /** After `delete_todo` removes a row, reading its id by the number the message
      printed finds nothing. (Ids are positive; a non-positive one would read all.) */
  lemma DeletedStaysGone(id: string, rows: map<int, Todo>, nextId: int)
    requires IdsBelow(rows, nextId)
    requires Atoi(id).Some? && Atoi(id).value in rows
    ensures var n := Atoi(id).value;
      && DeleteReply(id, rows) == DeletedMessage(n)
      && ReadReply(Some(Itoa(n)), DeleteEffect(id, rows), nextId) == []
  {
    var n := Atoi(id).value;
    var s := Itoa(n);
    ItoaReadsBack(n);
    calc {
      ReadReply(Some(s), DeleteEffect(id, rows), nextId);
      Query(rows - {n}, nextId, Some(n));
      { QueryById(rows - {n}, nextId, n); }
      [];
    }
  }

  /** The four replies can be told apart: a confirmation is never a not-found message
      nor the invalid-id message, and each names the id it is about. */
  lemma RepliesDistinct(m: int, n: int)
    requires InInt64(m) && InInt64(n)
    ensures UpdatedMessage(m) != NotFoundMessage(n) && DeletedMessage(m) != NotFoundMessage(n)
    ensures UpdatedMessage(m) != InvalidIdMessage && DeletedMessage(m) != InvalidIdMessage
    ensures NotFoundMessage(m) != InvalidIdMessage
    ensures UpdatedMessage(m) == UpdatedMessage(n) ==> m == n
    ensures DeletedMessage(m) == DeletedMessage(n) ==> m == n
    ensures NotFoundMessage(m) == NotFoundMessage(n) ==> m == n
  {
    ItoaShape(m);
    ItoaShape(n);
    assert UpdatedMessage(m)[5] == Itoa(m)[0];
    assert DeletedMessage(m)[5] == Itoa(m)[0];
    assert NotFoundMessage(n)[5] == 'w';
    assert InvalidIdMessage[5] == 'i';
    assert NotFoundMessage(m)[5] == 'w';
    assert "Todo with Id "[5] == 'w';
    if UpdatedMessage(m) == UpdatedMessage(n) {
      SuffixCancel("Todo ", Itoa(m), Itoa(n), " updated.");
      ItoaInjective(m, n);
    }
    if DeletedMessage(m) == DeletedMessage(n) {
      SuffixCancel("Todo ", Itoa(m), Itoa(n), " deleted.");
      ItoaInjective(m, n);
    }
    if NotFoundMessage(m) == NotFoundMessage(n) {
      SuffixCancel("Todo with Id ", Itoa(m), Itoa(n), " not found.");
      ItoaInjective(m, n);
    }
  }

  /** Equal strings with the same prefix and suffix have the same middle. */
  lemma SuffixCancel(prefix: string, a: string, b: string, suffix: string)
    requires prefix + a + suffix == prefix + b + suffix
    ensures a == b
  {
    var s := prefix + a + suffix;
    assert |a| == |b|;
    assert a == s[|prefix|..|prefix| + |a|];
    assert b == s[|prefix|..|prefix| + |b|];
  }

  class TodosMcpTool {
    /** The store every tool works on. */
    const db: DatabaseContext

    constructor (db: DatabaseContext)
      ensures this.db == db
    {
      this.db := db;
    }

    /** `CreateTodoAsync`: stores a new row and confirms it with its description and id. */
    method CreateTodo(description: string, createdDate: Time) returns (r: IoResult<string>)
      requires db.Valid()
      modifies db
      ensures db.Valid()
      ensures r.Ok? ==>
        && r.value == CreatedMessage(description, old(db.nextId))
        && db.rows == old(db.rows)[old(db.nextId) := Todo(old(db.nextId), Some(description), createdDate)]
        && db.nextId == old(db.nextId) + 1
      ensures r.IoError? ==> db.rows == old(db.rows) && db.nextId == old(db.nextId)
    {
      var todo := db.CreateTodo(CreateTodoInput(description, createdDate));
      if todo.IoError? {
        return IoError;
      }
      r := Ok(CreatedMessage(todo.value.description.value, todo.value.id));
    }

    /** `ReadTodosAsync`: reads every todo, or the one an id names. */
    method ReadTodos(id: Option<string>) returns (r: IoResult<seq<Todo>>)
      requires db.Valid()
      ensures r.Ok? ==> r.value == ReadReply(id, db.rows, db.nextId)
      ensures id.Some? && !IsBlank(id.value) && Atoi(TrimSpace(id.value)).None? ==> r == Ok([])
    {
      if id.Some? && !IsBlank(id.value) {
        var todoId := Atoi(TrimSpace(id.value));
        if todoId.None? {
          // An unparseable id reads as an empty list, without asking the store.
          return Ok([]);
        }
        r := db.ReadTodos(Some(todoId.value));
        return;
      }
      r := db.ReadTodos(None);
    }

    /** `UpdateTodoAsync`: parses the id, drops a blank description, and applies the rest. */
    method UpdateTodo(id: string, description: Option<string>, createdDate: Option<Time>)
      returns (r: IoResult<string>)
      requires db.Valid()
      modifies db
      ensures db.Valid() && db.nextId == old(db.nextId)
      ensures r.Ok? ==>
        r.value == UpdateReply(id, old(db.rows)) && db.rows == UpdateEffect(id, description, createdDate, old(db.rows))
      ensures r.IoError? ==> Atoi(id).Some? && db.rows == old(db.rows)
    {
      var todoId := Atoi(id);
      if todoId.None? {
        return Ok(InvalidIdMessage);
      }
      var updateInput := UpdateTodoInput(None, None);
      if description.Some? && !IsBlank(description.value) {
        updateInput := updateInput.(description := description);
      }
      if createdDate.Some? {
        updateInput := updateInput.(createdDate := createdDate);
      }
      var updated := db.UpdateTodo(todoId.value, updateInput);
      if updated.IoError? {
        return IoError;
      }
      if todoId.value in old(db.rows) {
        var t := old(db.rows)[todoId.value];
        if description.Some? && IsBlank(description.value) {
          BlankDescriptionIgnored(t, description.value, createdDate);
        }
        assert ApplyUpdate(t, updateInput) == ApplyUpdate(t, UpdateTodoInput(description, createdDate));
      }
      if !updated.value {
        return Ok(NotFoundMessage(todoId.value));
      }
      r := Ok(UpdatedMessage(todoId.value));
    }

    /** `DeleteTodoAsync`: parses the id and removes that row. */
    method DeleteTodo(id: string) returns (r: IoResult<string>)
      requires db.Valid()
      modifies db
      ensures db.Valid() && db.nextId == old(db.nextId)
      ensures r.Ok? ==> r.value == DeleteReply(id, old(db.rows)) && db.rows == DeleteEffect(id, old(db.rows))
      ensures r.IoError? ==> Atoi(id).Some? && db.rows == old(db.rows)
    {
      var todoId := Atoi(id);
      if todoId.None? {
        return Ok(InvalidIdMessage);
      }
      var deleted := db.DeleteTodo(todoId.value);
      if deleted.IoError? {
        return IoError;
      }
      if !deleted.value {
        return Ok(NotFoundMessage(todoId.value));
      }
      r := Ok(DeletedMessage(todoId.value));
    }
  }

  /** The ids the sessions below print and parse. */
  lemma SessionNumbers()
    ensures Itoa(1) == "1" && Atoi("1") == Some(1)
    ensures Itoa(999) == "999" && Atoi("999") == Some(999)
  {
    assert DigitsValue("1") == 1 by {
      assert "1"[..0] == "";
    }
    assert DigitsValue("999") == 999 by {
      assert "999"[..2] == "99" && "99"[..1] == "9" && "9"[..0] == "";
    }
    assert !("999"[0] == '+' || "999"[0] == '-');
  }

  /** `"abc"` is not an integer, so it is refused on any table. */
  lemma LettersRefused(rows: map<int, Todo>)
    ensures DeleteReply("abc", rows) == "Invalid todo id."
  {
    assert !IsDigit("abc"[0]);
    assert Atoi("abc") == None;
  }

  /** On an empty table, a well-formed id is not found. */
  lemma AbsentIdNotFound()
    ensures UpdateReply("999", map[]) == "Todo with Id 999 not found."
  {
    SessionNumbers();
  }

  /** The first row of a fresh table is confirmed with id 1. */
  lemma FirstRowConfirmed(description: string)
    ensures CreatedMessage(description, 1) == "Todo created: " + description + " (Id: 1)"
  {
    SessionNumbers();
  }

  /** A table holding only row 1 lists just that row. */
  lemma SingleRowListing(t: Todo)
    requires t.id == 1
    ensures Query(map[1 := t], 2, None) == [t]
  {
    assert Scan(map[1 := t], 1, 1) == [];
  }

  /** On a table holding only row 1, a blank-description update of id 1 is confirmed
      and leaves the row as it was. */
  lemma BlankUpdateOfRowOne(t: Todo)
    requires t.id == 1
    ensures UpdateReply("1", map[1 := t]) == "Todo 1 updated."
    ensures UpdateEffect("1", Some(""), None, map[1 := t]) == map[1 := t]
  {
    SessionNumbers();
    assert IsBlank("");
    BlankDescriptionIgnored(t, "", None);
    UpdateWithoutFields(t, UpdateTodoInput(None, None));
  }

  /** On a fresh store, a delete with a malformed id and an update of an absent id are
      both answered in the success channel. */
  method FreshStoreMisses() returns (malformed: IoResult<string>, missing: IoResult<string>)
    ensures malformed == Ok("Invalid todo id.")
    ensures missing.Ok? ==> missing.value == "Todo with Id 999 not found."
  {
    LettersRefused(map[]);
    AbsentIdNotFound();
    var db := new DatabaseContext();
    var tool := new TodosMcpTool(db);
    malformed := tool.DeleteTodo("abc");
    missing := tool.UpdateTodo("999", Some("x"), None);
  }

  /** A session on a fresh store: create "Buy milk", list everything, update it with a
      blank description and list again. The session stops if the store fails to create
      the row. */
  method BuyMilkSession(date: Time)
    returns (created: IoResult<string>, listed: IoResult<seq<Todo>>, blanked: IoResult<string>,
             relisted: IoResult<seq<Todo>>)
    ensures created.Ok? ==> created.value == "Todo created: Buy milk (Id: 1)"
    ensures listed.Ok? ==> created.Ok? && listed.value == [Todo(1, Some("Buy milk"), date)]
    ensures blanked.Ok? ==> created.Ok? && blanked.value == "Todo 1 updated."
    ensures relisted.Ok? ==> created.Ok? && relisted.value == [Todo(1, Some("Buy milk"), date)]
  {
    var todo := Todo(1, Some("Buy milk"), date);
    FirstRowConfirmed("Buy milk");
    SingleRowListing(todo);
    BlankUpdateOfRowOne(todo);
    var db := new DatabaseContext();
    var tool := new TodosMcpTool(db);
    created := tool.CreateTodo("Buy milk", date);
    if created.IoError? {
      return created, IoError, IoError, IoError;
    }
    assert db.rows == map[1 := todo] && db.nextId == 2;
    listed := tool.ReadTodos(None);
    blanked := tool.UpdateTodo("1", Some(""), None);
    relisted := tool.ReadTodos(None);
  }
}
