/** What a handler sends back: a status code and a JSON body. */
module Http {
  import opened Schema
  import opened CostSchema
  import opened UserSchema

  /** The `error` text of a failure body: either a message the handler
      writes itself, or Mongoose's validation error for a model
      ("<Model> validation failed: ..."), kept as its list of path errors. */
  datatype Message =
    | Text(text: string)
    | ValidationFailed(model: string, errors: seq<FieldError>)

  datatype Body =
    | Failure(error: Message)
    | UserDetails(firstName: string, lastName: string, id: int, total: int)
    | CreatedUser(user: User)
    | SavedCost(cost: Cost)

  datatype Response = Response(status: int, body: Body)

  /** What a write handler answers, together with the collection it leaves behind. */
  datatype Step<T> = Step(response: Response, records: seq<T>)
}
