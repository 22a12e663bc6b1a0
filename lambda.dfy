// What a handler receives and what it produces: the parts of the API Gateway event the handlers
// read, the `{ statusCode, body }` response, and the error a handler throws when it does not
// catch one.

module Lambda {
  import opened Js

  /** `event.pathParameters?.id` (`None` when either is missing) and `event.body`
      (`None` for null or undefined). */
  datatype Event = Event(pathId: Option<string>, body: Option<string>)

  /** One element of the listing: the attribute read through `.S` or `.N`; `None` is the
      `undefined` such a read gives when the attribute has the other type. */
  datatype PublicExpense = PublicExpense(
    id: Option<string>,
    amount: Option<string>,
    category: Option<string>,
    date: Option<string>)

  /** What a response body serialises: `{ message }` or `{ message, error }` objects, or, for
      `Expenses`, the bare JSON array of listed expenses the list handler returns. */
  datatype ResponseBody =
    | Message(message: string)
    | MessageWithError(message: string, error: string)
    | Expenses(expenses: seq<PublicExpense>)

  /** Why a handler threw: `JSON.parse` failed, a property of `null`/`undefined` was read,
      or a store call failed outside any `try`. */
  datatype Thrown = SyntaxError | TypeError | StoreError(message: string)

  datatype Outcome =
    | Respond(statusCode: int, body: ResponseBody)
    | Throw(error: Thrown)

  /** `!id` for a path parameter: missing or the empty string. */
  predicate MissingId(pathId: Option<string>) {
    pathId.None? || pathId.value == ""
  }

  const InvalidPayload: Outcome := Respond(400, Message("Invalid expense payload"))
  const MissingIdParameter: Outcome := Respond(400, Message("Missing id parameter"))
}
