/** The todo store: one SQLite table `todos(id INTEGER PRIMARY KEY AUTOINCREMENT,
    description TEXT, created_date DATETIME NOT NULL)`, held as a map from id to row
    plus the AUTOINCREMENT counter. */
module Database {
  import opened Wrappers
  import opened TodoTypes
  import opened GoStrings

  /** The largest rowid SQLite hands out; past it an AUTOINCREMENT insert fails. */
  const MaxRowId: int := MaxInt64

  /** Every row is stored under its own id. */
  predicate WellKeyed(rows: map<int, Todo>) {
    forall id :: id in rows ==> rows[id].id == id
  }

  /** The rows whose ids lie in [lo, hi), ascending by id: the result of a
      `SELECT ... ORDER BY id` restricted to that range. */
  function Scan(rows: map<int, Todo>, lo: int, hi: int): seq<Todo>
    decreases hi - lo
  {
    if hi <= lo then [] else Scan(rows, lo, hi - 1) + (if hi - 1 in rows then [rows[hi - 1]] else [])
  }

  /** A scan returns exactly the stored rows of its range. */
  lemma {:induction false} ScanMembers(rows: map<int, Todo>, lo: int, hi: int)
    requires WellKeyed(rows)
    ensures forall t :: t in Scan(rows, lo, hi) <==> lo <= t.id < hi && t.id in rows && rows[t.id] == t
    decreases hi - lo
  {
    if lo < hi {
      ScanMembers(rows, lo, hi - 1);
    }
  }

  /** A scan lists its rows strictly ascending by id. */
  lemma {:induction false} ScanAscending(rows: map<int, Todo>, lo: int, hi: int)
    requires WellKeyed(rows)
    ensures forall i, j :: 0 <= i < j < |Scan(rows, lo, hi)| ==> Scan(rows, lo, hi)[i].id < Scan(rows, lo, hi)[j].id
    decreases hi - lo
  {
    if lo < hi {
      var prefix := Scan(rows, lo, hi - 1);
      ScanAscending(rows, lo, hi - 1);
      ScanMembers(rows, lo, hi - 1);
      assert forall i :: 0 <= i < |prefix| ==> prefix[i] in prefix;
    }
  }

  /** A scan lists each stored id of its range once. */
  lemma {:induction false} ScanSize(rows: map<int, Todo>, lo: int, hi: int)
    ensures |Scan(rows, lo, hi)| == |set id | id in rows && lo <= id < hi|
    decreases hi - lo
  {
    if lo < hi {
      ScanSize(rows, lo, hi - 1);
      var below := set id | id in rows && lo <= id < hi - 1;
      var upto := set id | id in rows && lo <= id < hi;
      if hi - 1 in rows {
        assert upto == below + {hi - 1};
      } else {
        assert upto == below;
      }
    } else {
      assert (set id | id in rows && lo <= id < hi) == {};
    }
  }

  /** What `ReadTodosAsync(id...)` returns on a table whose ids lie below `nextId`:
      with a positive id, the row under that id if any; with no id or one that is not
      positive, every row. */
  function Query(rows: map<int, Todo>, nextId: int, id: Option<int>): seq<Todo> {
    if id.Some? && id.value > 0 then Scan(rows, id.value, id.value + 1) else Scan(rows, 1, nextId)
  }

  /** The ids of a table are positive and below its counter. */
  predicate IdsBelow(rows: map<int, Todo>, nextId: int) {
    forall id :: id in rows ==> 1 <= id < nextId
  }

  /** Reading one id yields at most one row: that id's row, or nothing. */
  lemma QueryById(rows: map<int, Todo>, nextId: int, id: int)
    requires id > 0
    ensures Query(rows, nextId, Some(id)) == if id in rows then [rows[id]] else []
  {
    assert Scan(rows, id, id) == [];
  }

  /** Reading everything yields every row once, strictly ascending by id; an empty
      table yields the empty sequence. */
  lemma QueryAll(rows: map<int, Todo>, nextId: int)
    requires WellKeyed(rows) && IdsBelow(rows, nextId)
    ensures var all := Query(rows, nextId, None);
      && |all| == |rows|
      && (forall t :: t in all <==> t.id in rows && rows[t.id] == t)
      && (forall i, j :: 0 <= i < j < |all| ==> all[i].id < all[j].id)
  {
    ScanMembers(rows, 1, nextId);
    ScanAscending(rows, 1, nextId);
    ScanSize(rows, 1, nextId);
    assert (set id | id in rows && 1 <= id < nextId) == rows.Keys;
  }

  /** An id that is not positive reads like no id at all. */
  lemma QueryNonPositive(rows: map<int, Todo>, nextId: int, id: int)
    requires id <= 0
    ensures Query(rows, nextId, Some(id)) == Query(rows, nextId, None)
  {
  }

  /** The description column is written only with a present text that is not blank. */
  predicate AppliesDescription(input: UpdateTodoInput) {
    input.description.Some? && !IsBlank(input.description.value)
  }

  /** The row a partial update leaves: the description replaced only by a present,
      non-blank text, the date replaced whenever one is given, the id kept. */
  function ApplyUpdate(t: Todo, input: UpdateTodoInput): (r: Todo)
    ensures r.id == t.id
    ensures AppliesDescription(input) ==> r.description == input.description
    ensures !AppliesDescription(input) ==> r.description == t.description
    ensures input.createdDate.Some? ==> r.createdDate == input.createdDate.value
    ensures input.createdDate.None? ==> r.createdDate == t.createdDate
    ensures t.description.Some? ==> r.description.Some?
  {
    Todo(t.id,
         if AppliesDescription(input) then input.description else t.description,
         if input.createdDate.Some? then input.createdDate.value else t.createdDate)
  }

  /** An update with no applicable field changes nothing. */
  lemma UpdateWithoutFields(t: Todo, input: UpdateTodoInput)
    requires !AppliesDescription(input) && input.createdDate.None?
    ensures ApplyUpdate(t, input) == t
  {
  }

  /** A blank description never overwrites the stored one, while a given date still
      applies. */
  lemma BlankDescriptionIgnored(t: Todo, text: string, date: Option<Time>)
    requires IsBlank(text)
    ensures ApplyUpdate(t, UpdateTodoInput(Some(text), date)) == ApplyUpdate(t, UpdateTodoInput(None, date))
    ensures ApplyUpdate(t, UpdateTodoInput(Some(text), date)).description == t.description
  {
  }

  /** Rewriting one row with `ApplyUpdate` keeps every row under its own id and keeps
      every description present. */
  lemma UpdateKeepsRowsValid(rows: map<int, Todo>, id: int, input: UpdateTodoInput)
    requires WellKeyed(rows) && id in rows
    requires forall k :: k in rows ==> rows[k].description.Some?
    ensures var rows' := rows[id := ApplyUpdate(rows[id], input)];
      rows'.Keys == rows.Keys && WellKeyed(rows')
      && forall k :: k in rows' ==> rows'[k].description.Some?
  {
  }

  /** One `column = ?` item of an `UPDATE todos SET ...` statement. */
  datatype Assignment = SetDescription(text: string) | SetCreatedDate(date: Time)

  /** The row after running `SET` with the given assignments, left to right. */
  function Assign(t: Todo, assignments: seq<Assignment>): Todo
    decreases |assignments|
  {
    if assignments == [] then t
    else
      var t' := match assignments[0]
        case SetDescription(text) => t.(description := Some(text))
        case SetCreatedDate(date) => t.(createdDate := date);
      Assign(t', assignments[1..])
  }

  /** The `SET` items an update input calls for, in the order the statement lists them. */
  function SetClause(input: UpdateTodoInput): seq<Assignment> {
    (if AppliesDescription(input) then [SetDescription(input.description.value)] else [])
    + (if input.createdDate.Some? then [SetCreatedDate(input.createdDate.value)] else [])
  }

  /** Running the `SET` clause built from the present fields gives the updated row, and
      the clause is empty exactly when the update has nothing to apply. */
  lemma SetClauseApplies(t: Todo, input: UpdateTodoInput)
    ensures Assign(t, SetClause(input)) == ApplyUpdate(t, input)
    ensures SetClause(input) == [] <==> !AppliesDescription(input) && input.createdDate.None?
  {
    var clause := SetClause(input);
    if AppliesDescription(input) {
      var t' := t.(description := input.description);
      assert Assign(t, clause) == Assign(t', clause[1..]);
      if input.createdDate.Some? {
        assert clause[1..] == [SetCreatedDate(input.createdDate.value)];
        assert Assign(t', clause[1..]) == Assign(t'.(createdDate := input.createdDate.value), []);
      } else {
        assert clause[1..] == [];
      }
    } else if input.createdDate.Some? {
      assert clause == [SetCreatedDate(input.createdDate.value)];
      assert Assign(t, clause) == Assign(t.(createdDate := input.createdDate.value), []);
    }
  }

  /** Collects the `column = ?` items of `UpdateTodoAsync` one field at a time. */
  method BuildSetClause(input: UpdateTodoInput) returns (setParts: seq<Assignment>)
    ensures setParts == SetClause(input)
  {
    setParts := [];
    if input.description.Some? && !IsBlank(input.description.value) {
      setParts := setParts + [SetDescription(input.description.value)];
    }
    if input.createdDate.Some? {
      setParts := setParts + [SetCreatedDate(input.createdDate.value)];
    }
  }

  class DatabaseContext {
    /** The todos table, keyed by id. */
    var rows: map<int, Todo>
    /** The AUTOINCREMENT counter: the id the next insert receives. */
    var nextId: int
    /** Every id ever handed out, including those of deleted rows. */
    ghost var issued: set<int>

    /** Ids are positive, below the counter and never handed out twice; every row sits
        under its id; no operation ever writes a null description. */
    ghost predicate Valid()
      reads this
    {
      && 1 <= nextId
      && rows.Keys <= issued
      && (forall id :: id in issued ==> 1 <= id < nextId)
      && WellKeyed(rows)
      && (forall id :: id in rows ==> rows[id].description.Some?)
    }

    /** A freshly opened, empty database. */
    constructor ()
      ensures Valid()
      ensures rows == map[] && nextId == 1 && issued == {}
    {
      rows := map[];
      nextId := 1;
      issued := {};
    }

    /** `todoExists`: whether a row has the given id. */
    method TodoExists(id: int) returns (r: IoResult<bool>)
      ensures r.Ok? ==> (r.value <==> id in rows)
    {
      var ioFailed: bool := *;
      if ioFailed {
        return IoError;
      }
      r := Ok(id in rows);
    }

    /** `CreateTodoAsync`: inserts a row with the next id and returns it as stored. */
    method CreateTodo(input: CreateTodoInput) returns (r: IoResult<Todo>)
      requires Valid()
      modifies this
      ensures Valid()
      ensures r.Ok? ==>
        && r.value == Todo(old(nextId), Some(input.description), input.createdDate)
        && r.value.id > 0
        && r.value.id !in old(issued)
        && (forall id :: id in old(issued) ==> id < r.value.id)
        && rows == old(rows)[r.value.id := r.value]
        && nextId == old(nextId) + 1
        && issued == old(issued) + {r.value.id}
      ensures r.IoError? ==> rows == old(rows) && nextId == old(nextId) && issued == old(issued)
      ensures old(nextId) > MaxRowId ==> r.IoError?
    {
      var ioFailed: bool := *;
      if ioFailed || nextId > MaxRowId {
        return IoError;
      }
      var todo := Todo(nextId, Some(input.description), input.createdDate);
      rows := rows[nextId := todo];
      issued := issued + {nextId};
      nextId := nextId + 1;
      r := Ok(todo);
    }

    /** `ReadTodosAsync`: walks the table in id order and collects the rows the query
        selects. */
    method ReadTodos(id: Option<int>) returns (r: IoResult<seq<Todo>>)
      requires Valid()
      ensures r.Ok? ==> r.value == Query(rows, nextId, id)
    {
      var ioFailed: bool := *;
      if ioFailed {
        return IoError;
      }
      var lo, hi := 1, nextId;
      if id.Some? && id.value > 0 {
        lo, hi := id.value, id.value + 1;
      }
      var todos: seq<Todo> := [];
      var cursor := lo;
      while cursor < hi
        invariant lo <= cursor <= hi
        invariant todos == Scan(rows, lo, cursor)
      {
        if cursor in rows {
          todos := todos + [rows[cursor]];
        }
        cursor := cursor + 1;
      }
      r := Ok(todos);
    }

    /** `UpdateTodoAsync`: checks that the row exists, then builds a `SET` clause from
        the applicable fields only and runs it. */
    method UpdateTodo(id: int, input: UpdateTodoInput) returns (r: IoResult<bool>)
      requires Valid()
      modifies this
      ensures Valid()
      ensures nextId == old(nextId) && issued == old(issued)
      ensures r.Ok? ==> (r.value <==> id in old(rows))
      ensures r == Ok(true) ==> rows == old(rows)[id := ApplyUpdate(old(rows)[id], input)]
      ensures r != Ok(true) ==> rows == old(rows)
    {
      var found := TodoExists(id);
      if found.IoError? {
        return IoError;
      }
      if !found.value {
        return Ok(false);
      }
      var setParts := BuildSetClause(input);
      ghost var after := ApplyUpdate(rows[id], input);
      SetClauseApplies(rows[id], input);
      if setParts == [] {
        // Nothing to write, but the row exists.
        assert after == rows[id] by { UpdateWithoutFields(rows[id], input); }
        assert rows == rows[id := after];
        return Ok(true);
      }
      var ioFailed: bool := *;
      if ioFailed {
        return IoError;
      }
      var updated := Assign(rows[id], setParts);
      assert updated == after;
      UpdateKeepsRowsValid(rows, id, input);
      rows := rows[id := updated];
      r := Ok(true);
    }

    /** `DeleteTodoAsync`: checks that the row exists, then removes it. */
    method DeleteTodo(id: int) returns (r: IoResult<bool>)
      requires Valid()
      modifies this
      ensures Valid()
      ensures nextId == old(nextId) && issued == old(issued)
      ensures r.Ok? ==> (r.value <==> id in old(rows))
      ensures r == Ok(true) ==> rows == old(rows) - {id}
      ensures r != Ok(true) ==> rows == old(rows)
    {
      var found := TodoExists(id);
      if found.IoError? {
        return IoError;
      }
      if !found.value {
        return Ok(false);
      }
      var ioFailed: bool := *;
      if ioFailed {
        return IoError;
      }
      rows := rows - {id};
      r := Ok(true);
    }
  }

  /** Creating a row and reading its id back yields exactly that row. */
  method CreateThenRead(db: DatabaseContext, input: CreateTodoInput)
    returns (created: IoResult<Todo>, read: IoResult<seq<Todo>>)
    requires db.Valid()
    modifies db
    ensures created.Ok? && read.Ok? ==>
      read.value == [created.value] && created.value.description == Some(input.description)
  {
    created := db.CreateTodo(input);
    if created.IoError? {
      return created, IoError;
    }
    read := db.ReadTodos(Some(created.value.id));
    QueryById(db.rows, db.nextId, created.value.id);
  }

  /** Deleting an id twice: the second delete finds nothing. */
  method DeleteTwice(db: DatabaseContext, id: int) returns (first: IoResult<bool>, second: IoResult<bool>)
    requires db.Valid()
    modifies db
    ensures first == Ok(true) && second.Ok? ==> second.value == false
    ensures second == Ok(true) ==> first.Ok? ==> first.value == false
  {
    first := db.DeleteTodo(id);
    second := db.DeleteTodo(id);
  }
}
