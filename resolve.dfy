/** resolve.js: resolving a ticket through the shared guard chain. */
module ResolveTicket {
  import opened Common
  import opened TicketUpdate

  /** The fields read from `req.body`. */
  datatype ResolveBody = ResolveBody(issue: JsValue, fix: JsValue, status: JsValue,
                                     resolvedBy: JsValue, resolvedAt: JsValue)

  /** PUT .../resolve (resolve.js:9-47): the update is issued exactly when
      the header carries a Bearer token whose role is allowed and the ticket
      id, issue, fix, status, resolver and resolution time are all present;
      its parameters are those five values and then the ticket id. */
  function Resolve<R>(ticketId: string, body: ResolveBody, header: Option<string>,
                      verify: string -> Verified, update: seq<JsValue> -> Updated<R>): (o: Outcome<R>)
    ensures var fields := [Str(ticketId), body.issue, body.fix, body.status, body.resolvedBy, body.resolvedAt];
      && ((Update([body.issue, body.fix, body.status, body.resolvedBy, body.resolvedAt, Str(ticketId)]) in o.calls)
            <==> Passes(header, verify, fields))
      && (o.reply.status == 400 <==>
            HeaderOk(header) && Checked(header, verify).Decoded? &&
            RoleAllowed(Checked(header, verify).role) &&
            (ticketId == "" || !IsTruthy(body.issue) || !IsTruthy(body.fix) ||
             !IsTruthy(body.status) || !IsTruthy(body.resolvedBy) || !IsTruthy(body.resolvedAt)))
  {
    var fields := [Str(ticketId), body.issue, body.fix, body.status, body.resolvedBy, body.resolvedAt];
    var params := [body.issue, body.fix, body.status, body.resolvedBy, body.resolvedAt, Str(ticketId)];
    var o := Handle(header, verify, fields, params, update);
    assert AllTruthy(fields) <==> IsTruthy(fields[0]) && IsTruthy(fields[1]) && IsTruthy(fields[2]) && IsTruthy(fields[3]) && IsTruthy(fields[4]) && IsTruthy(fields[5]);
    o
  }
}
