/** Shared option and reply types. */
module Options {

  datatype Option<+T> = None | Some(value: T)

  /** What an internal HTTP route answers: a body, 404, 409, 422, or 500 when the database refuses the statement. */
  datatype Reply<+T> = Answer(value: T) | NotFound | Conflict | Invalid | Fault
}
