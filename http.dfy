/** What the serverless handlers share: the request method and the shape of
    a JSON reply (a status code with either a payload or an error message). */
module Http {

  datatype Option<T> = None | Some(value: T)

  datatype Method = Get | Post | Put | Delete | Options | OtherMethod(name: string)

  /** `res.status(status).json(...)`: a payload, or `{ error: message }`. */
  datatype Reply<T> = Success(status: int, value: T) | Failure(status: int, error: string)

  /** JavaScript truthiness of an optional number from a JSON body: an absent
      field, `0` and `null` are falsy. */
  predicate TruthyInt(x: Option<int>) { x.Some? && x.value != 0 }

  /** JavaScript truthiness of an optional string: absent or "" is falsy. */
  predicate TruthyString(x: Option<string>) { x.Some? && x.value != "" }

  const ServerError := "Lỗi server"
  const MethodNotAllowed := "Method not allowed"
  const UnauthorizedMessage := "Unauthorized"
}
