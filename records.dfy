/** Values shared by the Node backend model: ids, callers, schemaless documents and the reply envelope. */
module Records {

  /** A document id (an ObjectId in the store). */
  type Id = nat

  datatype Option<T> = None | Some(value: T) {
    function GetOr(default: T): T {
      match this
      case Some(v) => v
      case None => default
    }
  }

  /** The authenticated user that the `protect` middleware attaches to a request (`req.user`). */
  datatype Caller = Caller(id: Id, role: string)

  /** A stored JSON document whose schema is not part of this model: field name to value. */
  type Document = map<string, string>

  /** The `data: {}` payload of a successful delete. */
  datatype Empty = Empty

  /**
   * The uniform response envelope: `Ok` is `success: true` with `data` (status 200, or 201 on
   * create), `NotFound` is 404, `Unauthorized` is 401 and `BadRequest` is 400, each with `error`.
   */
  datatype Reply<T> =
    | Ok(data: T)
    | NotFound(error: string)
    | Unauthorized(error: string)
    | BadRequest(error: string)

  /** The ownership rule of the course controller: the caller is the recorded instructor or an admin. */
  predicate MayModify(caller: Caller, instructor: Id) {
    instructor == caller.id || caller.role == "admin"
  }
}
