/** The monitoring routes: the session guard, the admin-only login, the
    status probe, the guarded metrics read and reset, and the unguarded
    webhook through which change events reach the aggregator and the
    dashboard. */
module Routes {
  import opened JsValues
  import opened Metrics
  import opened Broadcast

  /** A reply: the HTTP status and the JSON body. */
  datatype Reply = Reply(status: int, body: JsValue)

  function ErrorReply(status: int, message: string): Reply
  {
    Reply(status, JObject(map["error" := JStr(message)]))
  }

  /** The fields of `req.session` the routes read and write. */
  class Session {
    var monitoringAuth: JsValue
    var userId: JsValue
    var username: JsValue

    /** A fresh session carries none of the fields. */
    constructor ()
      ensures monitoringAuth == JUndefined && userId == JUndefined && username == JUndefined
    {
      monitoringAuth, userId, username := JUndefined, JUndefined, JUndefined;
    }
  }

  /** `req.session && req.session.monitoringAuth`. */
  predicate Authorised(session: Session?)
    reads session
  {
    session != null && Truthy(session.monitoringAuth)
  }

  /** The outcome of `requireMonitoringAuth`: the handler runs, or the
      request is answered here. */
  datatype Gate = Next | Deny(reply: Reply)

  /** `requireMonitoringAuth(req, res, next)`. */
  function RequireMonitoringAuth(session: Session?): (g: Gate)
    reads session
    ensures g.Next? <==> Authorised(session)
    ensures g.Deny? ==> g.reply.status == 401
  {
    if Authorised(session) then Next
    else Deny(ErrorReply(401, "Authentication required"))
  }

  /** `GET /status`. */
  function Status(session: Session?): (r: Reply)
    reads session
    ensures r.status == 200
    ensures Get(r.body, "authenticated") == JBool(Authorised(session))
    ensures Authorised(session) ==> Get(r.body, "username") == session.username
    ensures !Authorised(session) ==> r.body == JObject(map["authenticated" := JBool(false)])
  {
    if Authorised(session) then
      Reply(200, JObject(map["authenticated" := JBool(true), "username" := session.username]))
    else
      Reply(200, JObject(map["authenticated" := JBool(false)]))
  }

  // ---------------------------------------------------------------------
  // Login

  /** A row of the `users` table. */
  datatype User = User(id: JsValue, username: JsValue, email: JsValue, passwordHash: JsValue)

  /** What the awaited `query` gives: the rows, or a rejection. */
  datatype Lookup = LookupFailed | Rows(users: seq<User>)

  /** What the awaited `bcrypt.compare` gives: whether the password matches
      the hash, or a rejection. */
  datatype Comparison = CompareFailed | Compared(matches: bool)

  /** How a login ends: the reply, and the user that was let in if any. */
  datatype LoginOutcome = LoginOutcome(reply: Reply, admitted: Option<User>)

  /** The login ladder. `body` is `req.body`; `lookup` is the result of
      fetching the users named by `body.username`; `compare` maps each
      stored hash to the result of comparing `body.password` with it. A
      body that cannot be destructured (`null`, `undefined`) and a rejected
      query or comparison end in 500. */
  function LoginDecision(body: JsValue, lookup: Lookup, compare: JsValue -> Comparison): (o: LoginOutcome)
    ensures o.admitted.Some? <==> o.reply.status == 200
    ensures o.reply.status in {200, 400, 401, 403, 500}
    ensures o.admitted.Some? ==>
      && lookup.Rows? && lookup.users != [] && o.admitted.value == lookup.users[0]
      && compare(lookup.users[0].passwordHash) == Compared(true)
      && lookup.users[0].username == JStr("admin")
  {
    if body == JUndefined || body == JNull then
      LoginOutcome(ErrorReply(500, "Login failed"), None)
    else if !Truthy(Get(body, "username")) || !Truthy(Get(body, "password")) then
      LoginOutcome(ErrorReply(400, "Username and password required"), None)
    else
      match lookup
      case LookupFailed => LoginOutcome(ErrorReply(500, "Login failed"), None)
      case Rows(users) =>
        if users == [] then
          LoginOutcome(ErrorReply(401, "Invalid credentials"), None)
        else
          var user := users[0];
          match compare(user.passwordHash)
          case CompareFailed => LoginOutcome(ErrorReply(500, "Login failed"), None)
          case Compared(ok) =>
            if !ok then
              LoginOutcome(ErrorReply(401, "Invalid credentials"), None)
            else if user.username != JStr("admin") then
              LoginOutcome(ErrorReply(403, "Access denied. Admin only."), None)
            else
              LoginOutcome(Reply(200, JObject(map["message" := JStr("Login successful"),
                                                   "user" := JObject(map["id" := user.id, "username" := user.username,
                                                                          "email" := user.email])])),
                           Some(user))
  }

  /** Missing credentials are rejected with 400 before the database or the
      hash is consulted. */
  lemma MissingCredentialsFirst(body: JsValue, lookup: Lookup, compare: JsValue -> Comparison)
    requires body != JUndefined && body != JNull
    requires !Truthy(Get(body, "username")) || !Truthy(Get(body, "password"))
    ensures LoginDecision(body, lookup, compare).reply.status == 400
  {
  }

  /** An unknown user and a wrong password get the same 401, so the reply
      does not tell which of the two it was. */
  lemma UnknownUserLikeWrongPassword(body: JsValue, user: User, compare: JsValue -> Comparison)
    requires body != JUndefined && body != JNull
    requires Truthy(Get(body, "username")) && Truthy(Get(body, "password"))
    requires compare(user.passwordHash) == Compared(false)
    ensures LoginDecision(body, Rows([]), compare).reply == LoginDecision(body, Rows([user]), compare).reply
    ensures LoginDecision(body, Rows([]), compare).reply.status == 401
  {
  }

  /** The admin check comes after the password check: a user other than
      `admin` with the right password gets 403, with the wrong one 401. */
  lemma NonAdminForbiddenOnlyWithPassword(body: JsValue, users: seq<User>, compare: JsValue -> Comparison)
    requires body != JUndefined && body != JNull
    requires Truthy(Get(body, "username")) && Truthy(Get(body, "password"))
    requires users != [] && users[0].username != JStr("admin")
    requires compare(users[0].passwordHash).Compared?
    ensures LoginDecision(body, Rows(users), compare).reply.status
         == if compare(users[0].passwordHash).matches then 403 else 401
  {
  }

  /** With the admin's name and password the login succeeds: together with
      the contract of `LoginDecision`, the login succeeds exactly then. */
  lemma AdminWithPasswordAdmitted(body: JsValue, users: seq<User>, compare: JsValue -> Comparison)
    requires body != JUndefined && body != JNull
    requires Truthy(Get(body, "username")) && Truthy(Get(body, "password"))
    requires users != [] && users[0].username == JStr("admin")
    requires compare(users[0].passwordHash) == Compared(true)
    ensures LoginDecision(body, Rows(users), compare).reply.status == 200
    ensures LoginDecision(body, Rows(users), compare).admitted == Some(users[0])
  {
  }

  /** `POST /login`: decide, and only on success record the admin in the
      session. */
  method Login(session: Session, body: JsValue, lookup: Lookup, compare: JsValue -> Comparison) returns (reply: Reply)
    modifies session
    ensures reply == LoginDecision(body, lookup, compare).reply
    ensures reply.status == 200 ==>
      var user := LoginDecision(body, lookup, compare).admitted.value;
      session.monitoringAuth == JBool(true) && session.userId == user.id && session.username == user.username
    ensures reply.status == 200 ==> Authorised(session)
    ensures reply.status != 200 ==> unchanged(session)
  {
    var outcome := LoginDecision(body, lookup, compare);
    reply := outcome.reply;
    if outcome.admitted.Some? {
      var user := outcome.admitted.value;
      session.monitoringAuth := JBool(true);
      session.userId := user.id;
      session.username := user.username;
    }
  }

  // ---------------------------------------------------------------------
  // Guarded metrics routes

  /** What `GET /metrics` answers: the snapshot, or the guard's reply. */
  datatype MetricsReply = Served(snapshot: Snapshot) | Refused(reply: Reply)

  /** `GET /metrics`, behind the guard. */
  function MetricsRoute(session: Session?, metrics: Aggregator): (r: MetricsReply)
    reads session, metrics
    requires metrics.Valid()
    ensures r.Served? <==> Authorised(session)
    ensures r.Served? ==> r.snapshot == metrics.GetMetrics()
    ensures r.Refused? ==> r.reply.status == 401
  {
    match RequireMonitoringAuth(session)
    case Next => Served(metrics.GetMetrics())
    case Deny(reply) => Refused(reply)
  }

  /** `POST /metrics/reset`, behind the guard: an unauthorised caller gets
      401 and the aggregator is left as it is. */
  method ResetRoute(session: Session?, metrics: Aggregator) returns (reply: Reply)
    requires metrics.Valid()
    modifies metrics
    ensures metrics.Valid()
    ensures reply.status == 200 <==> Authorised(session)
    ensures Authorised(session) ==> metrics.total == 0 && metrics.log == [] && metrics.cdcLog == []
    ensures Authorised(session) ==> metrics.byEndpoint == map[] && metrics.byStatus == map[]
    ensures Authorised(session) ==> metrics.responseTimes == [] && metrics.cdcEvents == []
    ensures !Authorised(session) ==> reply.status == 401 && unchanged(metrics)
  {
    match RequireMonitoringAuth(session)
    case Next =>
      metrics.ResetMetrics();
      reply := Reply(200, JObject(map["message" := JStr("Metrics reset successfully")]));
    case Deny(r) =>
      reply := r;
  }

  // ---------------------------------------------------------------------
  // The change-event webhook

  /** The webhook's acceptance test on `req.body`. */
  predicate AcceptableCdcEvent(event: JsValue)
  {
    && Truthy(event) && Truthy(Get(event, "database"))
    && Truthy(Get(event, "table")) && Truthy(Get(event, "operation"))
  }

  /** Only an object can pass the test, and it passes exactly when it has
      the three fields, each truthy. */
  lemma AcceptableIsObject(event: JsValue)
    ensures AcceptableCdcEvent(event) ==> event.JObject?
    ensures event.JObject? ==>
      (AcceptableCdcEvent(event) <==>
         forall k :: k in ["database", "table", "operation"] ==> k in event.fields && Truthy(event.fields[k]))
  {
    if event.JObject? && AcceptableCdcEvent(event) {
      var keys := ["database", "table", "operation"];
      assert forall k :: k in keys ==> k == "database" || k == "table" || k == "operation";
    }
  }

  /** `POST /cdc-event`. The route is not behind the guard. An acceptable
      event is stored (stamped with `isoNow`) and then broadcast
      (`frameTs`, `open` and `throwing` describe the broadcast as in
      `Hub.Broadcast`), and the reply is a success; anything else gets 400
      and changes nothing. */
  method CdcEventRoute(metrics: Aggregator, hub: Hub, event: JsValue, isoNow: string, frameTs: string,
                       open: set<ClientId>, throwing: set<ClientId>)
    returns (reply: Reply, sent: nat, failed: nat)
    requires metrics.Valid()
    modifies metrics, hub`clients, hub`inbox
    ensures metrics.Valid()
    ensures reply.status == 200 <==> AcceptableCdcEvent(event)
    ensures AcceptableCdcEvent(event) ==>
      && metrics.cdcLog == [Stamped(event.fields, isoNow)] + old(metrics.cdcLog)
      && metrics.log == old(metrics.log)
      && metrics.cdcEvents == KeepFirst([Stamped(event.fields, isoNow)] + old(metrics.cdcEvents), MAX_CDC_EVENTS)
      && hub.Broadcasted(CdcEventFrame(event, frameTs), open, throwing, sent, failed)
    ensures !AcceptableCdcEvent(event) ==>
      && reply.status == 400 && unchanged(metrics)
      && hub.clients == old(hub.clients) && hub.inbox == old(hub.inbox) && sent == 0 && failed == 0
  {
    sent, failed := 0, 0;
    if AcceptableCdcEvent(event) {
      AcceptableIsObject(event);
      metrics.TrackCDCEvent(event.fields, isoNow);
      sent, failed := hub.BroadcastCdcEvent(event, frameTs, open, throwing);
      reply := Reply(200, JObject(map["success" := JBool(true)]));
    } else {
      reply := ErrorReply(400, "Invalid CDC event format");
    }
  }
}
