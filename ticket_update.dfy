/** The guard chain assign.js and resolve.js share: a Bearer header, a
    verified token whose role is allowed, every required field present,
    then one UPDATE whose first returned row is sent back.  Errors thrown
    by the token check or the update end in the same catch block. */
module TicketUpdate {
  import opened Common
  import opened Text

  /** A value of the request body, as far as the handlers look at it. */
  datatype JsValue = Undefined | Null | Bool(b: bool) | Num(n: int) | Str(s: string)

  /** JavaScript truthiness: `undefined`, `null`, `false`, `0` and `""` are
      falsy, everything else truthy. */
  predicate IsTruthy(v: JsValue)
  {
    match v
    case Undefined => false
    case Null => false
    case Bool(b) => b
    case Num(n) => n != 0
    case Str(s) => s != ""
  }

  predicate AllTruthy(fields: seq<JsValue>)
  {
    forall i :: 0 <= i < |fields| ==> IsTruthy(fields[i])
  }

  const BearerPrefix: string := "Bearer "

  /** `authHeader && authHeader.startsWith('Bearer ')`. */
  predicate HeaderOk(header: Option<string>)
  {
    header.Some? && |header.value| >= |BearerPrefix| && header.value[..|BearerPrefix|] == BearerPrefix
  }

  /** `authHeader.split(' ')[1]`: after the prefix, everything up to the
      next space. */
  function Token(header: string): (token: string)
    requires HeaderOk(Some(header))
    ensures ' ' !in token
    ensures token <= header[|BearerPrefix|..]
    ensures token == Split(header[|BearerPrefix|..], ' ')[0]
  {
    var rest := header[|BearerPrefix|..];
    assert header == "Bearer" + (" " + rest);
    SplitFreePrefix("Bearer", " " + rest, ' ');
    assert (" " + rest)[1..] == rest;
    var parts := Split(header, ' ');
    assert parts[1] == Split(rest, ' ')[0];
    JoinSplit(rest, ' ');
    var pieces := Split(rest, ' ');
    assert |pieces| > 1 ==> Join(pieces, ' ') == pieces[0] + ([' '] + Join(pieces[1..], ' '));
    parts[1]
  }

  /** A header made of the prefix and a space-free token gives that token
      back. */
  lemma TokenOfBearer(t: string)
    requires ' ' !in t
    ensures HeaderOk(Some(BearerPrefix + t)) && Token(BearerPrefix + t) == t
  {
    var header := BearerPrefix + t;
    assert header[|BearerPrefix|..] == t;
    SplitFreePrefix(t, "", ' ');
    assert t + "" == t;
  }

  const AllowedRoles: seq<string> := ["Manager", "Maintenance Technician", "Test Technician"]

  /** `allowedRoles.includes(decoded.role)`: a role that is absent or not a
      string is never included. */
  predicate RoleAllowed(role: Option<string>)
  {
    role.Some? && role.value in AllowedRoles
  }

  /** What `jwt.verify` did with the token: the decoded payload's `role`, or
      the `name` of the error it threw. */
  datatype Verified = Decoded(role: Option<string>) | VerifyThrew(name: string)

  /** What the UPDATE ... RETURNING query gave: the returned rows, or the
      `name` of the error it threw. */
  datatype Updated<+R> = Returned(rows: seq<R>) | UpdateThrew(name: string)

  /** The external calls of one request, in order. */
  datatype Call = Verify(token: string) | Update(params: seq<JsValue>)

  datatype Outcome<+R> = Outcome(reply: Reply<R>, calls: seq<Call>)

  const NoToken: string := "Unauthorized: No token provided"
  const Forbidden: string := "Forbidden: Insufficient role permissions"
  const MissingFields: string := "Missing required fields"
  const NotFound: string := "Ticket not found"
  const InvalidToken: string := "Unauthorized: Invalid token"
  const ServerError: string := "Server error"

  const JsonWebTokenError: string := "JsonWebTokenError"

  /** The catch block: only an error named exactly `JsonWebTokenError` is
      an invalid token; any other thrown error is a server error. */
  function Caught<R>(name: string): (r: Reply<R>)
    ensures r.status == 401 <==> name == JsonWebTokenError
    ensures r.status == 401 ==> r.body == Error(InvalidToken)
    ensures r.status != 401 ==> r == Reply(500, Error(ServerError))
  {
    if name == JsonWebTokenError then Reply(401, Error(InvalidToken))
    else Reply(500, Error(ServerError))
  }

  /** The outcome the token check reached, for a request with a valid header. */
  function Checked(header: Option<string>, verify: string -> Verified): Verified
    requires HeaderOk(header)
  {
    verify(Token(header.value))
  }

  /** The chain passes every guard and issues the update. */
  predicate Passes(header: Option<string>, verify: string -> Verified, fields: seq<JsValue>)
  {
    && HeaderOk(header)
    && Checked(header, verify).Decoded?
    && RoleAllowed(Checked(header, verify).role)
    && AllTruthy(fields)
  }

  /** One request through the chain (assign.js:9-47, resolve.js:9-47), with
      the token check and the update given as functions of their inputs:
      `fields` are the values that must all be truthy, `params` the update's
      parameters. */
  function Handle<R>(header: Option<string>, verify: string -> Verified,
                     fields: seq<JsValue>, params: seq<JsValue>,
                     update: seq<JsValue> -> Updated<R>): (o: Outcome<R>)
    ensures !HeaderOk(header) ==> o.reply == Reply(401, Error(NoToken)) && o.calls == []
    ensures HeaderOk(header) ==> |o.calls| >= 1 && o.calls[0] == Verify(Token(header.value))
    ensures HeaderOk(header) && Checked(header, verify).VerifyThrew? ==>
              o.reply == Caught(Checked(header, verify).name) && |o.calls| == 1
    ensures o.reply.status == 403 <==>
              HeaderOk(header) && Checked(header, verify).Decoded? &&
              !RoleAllowed(Checked(header, verify).role)
    ensures o.reply.status == 403 ==> o.reply.body == Error(Forbidden)
    ensures o.reply.status == 400 <==>
              HeaderOk(header) && Checked(header, verify).Decoded? &&
              RoleAllowed(Checked(header, verify).role) && !AllTruthy(fields)
    ensures o.reply.status == 400 ==> o.reply.body == Error(MissingFields)
    ensures |o.calls| == 2 <==> Passes(header, verify, fields)
    ensures |o.calls| <= 2
    ensures Passes(header, verify, fields) ==> o.calls[1] == Update(params)
    ensures Passes(header, verify, fields) && update(params).UpdateThrew? ==>
              o.reply == Caught(update(params).name)
    ensures o.reply.status == 404 <==>
              Passes(header, verify, fields) && update(params) == Returned([])
    ensures o.reply.status == 404 ==> o.reply.body == Error(NotFound)
    ensures o.reply.status == 200 <==>
              Passes(header, verify, fields) && update(params).Returned? && update(params).rows != []
    ensures o.reply.status == 200 ==> o.reply.body == Json(update(params).rows[0])
  {
    if !HeaderOk(header) then Outcome(Reply(401, Error(NoToken)), [])
    else
      var token := Token(header.value);
      match verify(token)
      case VerifyThrew(name) => Outcome(Caught(name), [Verify(token)])
      case Decoded(role) =>
        if !RoleAllowed(role) then Outcome(Reply(403, Error(Forbidden)), [Verify(token)])
        else if !AllTruthy(fields) then Outcome(Reply(400, Error(MissingFields)), [Verify(token)])
        else
          var calls := [Verify(token), Update(params)];
          match update(params)
          case UpdateThrew(name) => Outcome(Caught(name), calls)
          case Returned(rows) =>
            if |rows| == 0 then Outcome(Reply(404, Error(NotFound)), calls)
            else Outcome(Reply(200, Json(rows[0])), calls)
  }

  /** A token that jwt rejects as expired (its error is named
      `TokenExpiredError`, not `JsonWebTokenError`) is answered as a server
      error, not as an invalid token. */
  lemma ExpiredTokenIsServerError<R>(t: string, fields: seq<JsValue>, params: seq<JsValue>,
                                     update: seq<JsValue> -> Updated<R>)
    requires ' ' !in t
    ensures Handle(Some(BearerPrefix + t), _ => VerifyThrew("TokenExpiredError"), fields, params, update).reply
              == Reply(500, Error(ServerError))
  {
    TokenOfBearer(t);
  }
}
