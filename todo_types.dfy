/** The record types of the todo store: a stored row and the two inputs that change rows. */
module TodoTypes {
  import opened Wrappers

  /** Go's `time.Time`, reduced to what the store keeps: an instant (nanoseconds since the
      Unix epoch) and the UTC offset it was written with. */
  datatype Time = Time(unixNanos: int, offsetSeconds: int)

  /** A stored row. The id and the date are always there; the description column is
      nullable, so it is optional. */
  datatype Todo = Todo(id: int, description: Option<string>, createdDate: Time)

  /** What a caller gives to create a row: no id (the store assigns it), and a
      description and a date that are both present. */
  datatype CreateTodoInput = CreateTodoInput(description: string, createdDate: Time)

  /** A partial update: each field is independently optional, and an absent field
      leaves its column as it is. */
  datatype UpdateTodoInput = UpdateTodoInput(description: Option<string>, createdDate: Option<Time>)
}
