/** assign.js: assigning a ticket through the shared guard chain. */
module AssignTicket {
  import opened Common
  import opened TicketUpdate

  /** The fields read from `req.body`. */
  datatype AssignBody = AssignBody(assignedTo: JsValue, status: JsValue, assignedAt: JsValue)

  /** PUT .../assign (assign.js:9-47): the update is issued exactly when the
      header carries a Bearer token whose role is allowed and the ticket id,
      assignee, status and assignment time are all present; its parameters
      are those three values and then the ticket id. */
  function Assign<R>(ticketId: string, body: AssignBody, header: Option<string>,
                     verify: string -> Verified, update: seq<JsValue> -> Updated<R>): (o: Outcome<R>)
    ensures var fields := [Str(ticketId), body.assignedTo, body.status, body.assignedAt];
      && ((Update([body.assignedTo, body.status, body.assignedAt, Str(ticketId)]) in o.calls)
            <==> Passes(header, verify, fields))
      && (o.reply.status == 400 <==>
            HeaderOk(header) && Checked(header, verify).Decoded? &&
            RoleAllowed(Checked(header, verify).role) &&
            (ticketId == "" || !IsTruthy(body.assignedTo) || !IsTruthy(body.status) ||
             !IsTruthy(body.assignedAt)))
  {
    var fields := [Str(ticketId), body.assignedTo, body.status, body.assignedAt];
    var params := [body.assignedTo, body.status, body.assignedAt, Str(ticketId)];
    var o := Handle(header, verify, fields, params, update);
    assert AllTruthy(fields) <==> IsTruthy(fields[0]) && IsTruthy(fields[1]) && IsTruthy(fields[2]) && IsTruthy(fields[3]);
    o
  }
}
