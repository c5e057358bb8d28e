/**
 Values shared by the game model and the membership hooks: the dynamic
 document values that Go keeps in `map[string]interface{}`, the keys that a
 not-found error names, the errors themselves, and the result wrappers that
 stand for Go's `(value, error)` returns.
 */
module Values {

  /** A dynamically typed value, as held by `map[string]interface{}`. */
  datatype Json =
    | JNull
    | JBool(b: bool)
    | JNumber(n: int)
    | JString(s: string)
    | JArray(items: seq<Json>)
    | JObject(fields: map<string, Json>)

  /** The key a lookup was made with: an internal id or a public id. */
  datatype Key = IntKey(id: int) | StringKey(publicId: string)

  datatype Error =
    /** ModelNotFoundError{entity, key}: a lookup found no row. */
    | NotFound(entity: string, key: Key)
    /** The runtime panic of reading `sortedLevels[0]` when the ladder is empty. */
    | EmptyLadder
    /** The unique index on games.public_id refused a plain insert. */
    | DuplicatePublicId(publicId: string)
    /** Any other error a collaborator (the data store) reports. */
    | StoreError(reason: string)

  datatype Result<+T> = Ok(value: T) | Err(error: Error)

  /** A Go function that returns only an `error`. */
  datatype Outcome = Pass | Fail(error: Error)
}
