/** Values shared by every handler: optional inputs, the outcome of an
    abstracted database call, and the JSON replies the handlers send. */
module Common {

  datatype Option<+T> = None | Some(value: T)

  /** A request field that is either absent or a string.  JavaScript treats
      `undefined` and the empty string as falsy. */
  predicate Truthy(v: Option<string>)
  {
    v.Some? && v.value != ""
  }

  /** What an awaited database call gave back: its rows, or the error it
      carried (whose `message` the handlers forward). */
  datatype DbResult<+T> = Data(rows: T) | DbError(message: string)

  /** The body of a JSON reply: a payload, or `{ error: message }`. */
  datatype Body<+T> = Json(value: T) | Error(message: string)

  /** `ticket.downtime_minutes || 0`: a missing downtime counts as 0. */
  function MinutesOrZero(m: Option<int>): int
  {
    if m.Some? then m.value else 0
  }

  datatype Reply<+T> = Reply(status: int, body: Body<T>)
}
