/**
 * The JSON-RPC protocol of the Odoo client as pure functions.
 *
 * The remote server is an oracle: a script of replies, one per HTTP request,
 * consumed in order. `RequestSpec` and `AuthSpec` give, for a request, the
 * client configuration, the script and the current session, everything that
 * happens: the outcome, the requests sent, the replies left and the session
 * afterwards. The methods of `JsonRpcClient.OdooClient` are proved to follow
 * these functions; the lemmas here state what the client promises.
 */
module Protocol {
  import opened Json

  /** The exceptions the client raises, one constructor per kind of raise site. */
  datatype Failure =
    | ConnectionError          // URLError: the server could not be reached
    | HttpError(status: int)   // HTTPError: a non-success HTTP status
    | RemoteError              // a JSON-RPC error that is not a session expiry
    | RemoteErrorAfterReauth   // a JSON-RPC error on the resend after re-authentication
    | ReauthFailed             // "Failed to re-authenticate"; unreachable, see ReauthFailureUnreachable
    | AuthenticationFailed     // the authenticate reply carried no uid
    | NotAuthenticated         // call_kw without a uid
    | MissingFields            // an empty field whitelist
    | RecordNotFound           // read_record got no record back
    | TypeMismatch             // TypeError, KeyError or AttributeError on an unexpected reply shape

  datatype Result<T> = Ok(value: T) | Err(error: Failure)

  const AuthEndpoint: string := "/web/session/authenticate"
  const CallKwEndpoint: string := "/web/dataset/call_kw"
  const SessionExpired: string := "Session expired"

  /** The `error` member of a reply: its optional `message` and `data`. */
  datatype RpcError = RpcError(message: Option<Json>, data: Option<Json>)

  /** What one HTTP request gets back from the server. */
  datatype Reply =
    | NoConnection                                         // URLError
    | HttpStatus(code: int)                                // HTTPError
    | RpcReply(error: Option<RpcError>, result: Option<Json>)  // a decoded JSON-RPC response

  /** An HTTP POST: the full URL and the JSON body. */
  datatype Request = Request(url: string, body: Json)

  datatype Config = Config(url: string, db: string, login: string, password: string)

  /** The client's session fields; JNull stands for Python's None. */
  datatype Session = Session(uid: Json, sessionId: Json)

  /** Everything one client operation does against the scripted server. */
  datatype Trace<T> = Trace(outcome: Result<T>, sent: seq<Request>, rest: seq<Reply>, session: Session)

  /** One call_kw invocation as the scripts see it: its arguments and outcome. */
  datatype Call = Call(model: string, methodName: string, args: Json, kwargs: Json, outcome: Result<Json>)

  /** `url.rstrip('/')`. */
  function StripTrailingSlashes(url: string): (r: string)
    ensures r <= url
    ensures r == [] || r[|r| - 1] != '/'
    ensures forall i :: |r| <= i < |url| ==> url[i] == '/'
    decreases |url|
  {
    if url != [] && url[|url| - 1] == '/' then StripTrailingSlashes(url[..|url| - 1]) else url
  }

  /** The JSON-RPC 2.0 envelope around the parameters. */
  function Wrap(params: Json): Json {
    JObject(map["jsonrpc" := JStr("2.0"), "method" := JStr("call"), "params" := params, "id" := JInt(1)])
  }

  function RequestTo(cfg: Config, endpoint: string, params: Json): Request {
    Request(cfg.url + endpoint, Wrap(params))
  }

  function AuthParams(cfg: Config): Json {
    JObject(map["db" := JStr(cfg.db), "login" := JStr(cfg.login), "password" := JStr(cfg.password)])
  }

  function AuthRequest(cfg: Config): Request {
    RequestTo(cfg, AuthEndpoint, AuthParams(cfg))
  }

  const EmptyObject: Json := JObject(map[])

  function CallParams(model: string, methodName: string, args: Json, kwargs: Json): Json {
    JObject(map["model" := JStr(model), "method" := JStr(methodName), "args" := args,
                "kwargs" := kwargs, "context" := EmptyObject])
  }

  function CallRequest(cfg: Config, model: string, methodName: string, args: Json, kwargs: Json): Request {
    RequestTo(cfg, CallKwEndpoint, CallParams(model, methodName, args, kwargs))
  }

  /** `result.get('result', {})`. */
  function ResultOrEmpty(result: Option<Json>): Json {
    if result.Some? then result.value else EmptyObject
  }

  /**
   * `'Session expired' in error_msg or 'Session expired' in str(error_debug)`,
   * with the defaults "Unknown error" and {}; None when the first test raises
   * TypeError (a message that is neither a string, a list nor a dict).
   */
  function ExpiryMentioned(e: RpcError): Option<bool> {
    var msg := if e.message.Some? then e.message.value else JStr("Unknown error");
    var data := if e.data.Some? then e.data.value else EmptyObject;
    match PyIn(SessionExpired, msg)
    case None => None
    case Some(true) => Some(true)
    case Some(false) => Some(Mentions(data, SessionExpired))
  }

  /** The reply to the next request: the head of the script, or no connection once it is used up. */
  function NextReply(replies: seq<Reply>): Reply {
    if replies == [] then NoConnection else replies[0]
  }

  /** The script after the next request. */
  function Remaining(replies: seq<Reply>): seq<Reply> {
    if replies == [] then [] else replies[1..]
  }

  /** A decoded response with an `error` member. */
  predicate IsErrorReply(reply: Reply) {
    reply.RpcReply? && reply.error.Some?
  }

  /**
   * The outcome of a reply without a JSON-RPC error: the `except` clauses
   * for an unreachable server and an HTTP error status, or
   * `result.get('result', {})`.
   */
  function DirectOutcome(reply: Reply): Result<Json>
    requires !IsErrorReply(reply)
  {
    match reply
    case NoConnection => Err(ConnectionError)
    case HttpStatus(code) => Err(HttpError(code))
    case RpcReply(_, result) => Ok(ResultOrEmpty(result))
  }

  /**
   * `_make_request`: send once; on a session-expiry error re-authenticate and
   * resend the same request once; any other error raises at once.
   */
  function RequestSpec(cfg: Config, req: Request, replies: seq<Reply>, s: Session): Trace<Json>
    decreases |replies|, 0
  {
    var reply := NextReply(replies);
    if IsErrorReply(reply) then ErrorReplySpec(cfg, req, reply.error.value, replies[1..], s)
    else Trace(DirectOutcome(reply), [req], Remaining(replies), s)
  }

  /** `_make_request` once the first reply was the JSON-RPC error `e`. */
  function ErrorReplySpec(cfg: Config, req: Request, e: RpcError, rest: seq<Reply>, s: Session): Trace<Json>
    decreases |rest|, 2
  {
    match ExpiryMentioned(e)
    case None => Trace(Err(TypeMismatch), [req], rest, s)
    case Some(false) => Trace(Err(RemoteError), [req], rest, s)
    case Some(true) => AfterReauthSpec(req, AuthSpec(cfg, rest, s))
  }

  /**
   * `_make_request` after the expiry reply to `req` and the
   * re-authentication `a`: a failed authentication propagates; a falsy
   * result (which authenticate never returns) raises "Failed to
   * re-authenticate"; otherwise the request is resent once.
   */
  function AfterReauthSpec(req: Request, a: Trace<bool>): Trace<Json> {
    if a.outcome.Err? then Trace(Err(a.outcome.error), [req] + a.sent, a.rest, a.session)
    else if !a.outcome.value then Trace(Err(ReauthFailed), [req] + a.sent, a.rest, a.session)
    else
      var b := ResendSpec(req, a.rest, a.session);
      Trace(b.outcome, [req] + a.sent + b.sent, b.rest, b.session)
  }

  /** The single resend after re-authentication: any error now raises. */
  function ResendSpec(req: Request, replies: seq<Reply>, s: Session): Trace<Json> {
    var reply := NextReply(replies);
    var outcome := if IsErrorReply(reply) then Err(RemoteErrorAfterReauth) else DirectOutcome(reply);
    Trace(outcome, [req], Remaining(replies), s)
  }

  /**
   * The session `authenticate` extracts from the auth endpoint's result:
   * `if result and 'uid' in result`, then `result['uid']` and
   * `result.get('session_id')`.
   */
  function SessionFrom(result: Json): Result<Session> {
    match result
    case JObject(m) =>
      if "uid" in m then Ok(Session(m["uid"], if "session_id" in m then m["session_id"] else JNull))
      else Err(AuthenticationFailed)
    case _ =>
      if !Truthy(result) then Err(AuthenticationFailed)
      else match PyIn("uid", result)
        case None => Err(TypeMismatch)         // `'uid' in 5`
        case Some(false) => Err(AuthenticationFailed)
        case Some(true) => Err(TypeMismatch)   // `result['uid']` on a str or a list
  }

  /** `authenticate`: returns true and sets the session, or raises. */
  function AuthSpec(cfg: Config, replies: seq<Reply>, s: Session): (t: Trace<bool>)
    ensures t.outcome.Ok? ==> t.outcome.value
    decreases |replies|, 1
  {
    var r := RequestSpec(cfg, AuthRequest(cfg), replies, s);
    if r.outcome.Err? then Trace(Err(r.outcome.error), r.sent, r.rest, r.session)
    else match SessionFrom(r.outcome.value)
      case Ok(session) => Trace(Ok(true), r.sent, r.rest, session)
      case Err(f) => Trace(Err(f), r.sent, r.rest, r.session)
  }

  /** `call_kw`: refuses without a uid, otherwise one request to the call_kw endpoint. */
  function CallKwSpec(cfg: Config, replies: seq<Reply>, s: Session,
                      model: string, methodName: string, args: Json, kwargs: Json): Trace<Json>
  {
    if !Truthy(s.uid) then Trace(Err(NotAuthenticated), [], replies, s)
    else RequestSpec(cfg, CallRequest(cfg, model, methodName, args, kwargs), replies, s)
  }

  // ---- argument shapes and result shaping of the typed wrappers ----

  /** `{"fields": fields}`. */
  function FieldsKwargs(fields: seq<string>): Json {
    JObject(map["fields" := JStrings(fields)])
  }

  /** `[[record_id]]`. */
  function ReadArgs(recordId: int): Json {
    JList([JList([JInt(recordId)])])
  }

  /** `[domain]`. */
  function SearchArgs(domain: Json): Json {
    JList([domain])
  }

  /** `[ids, values]`. */
  function WriteArgs(ids: seq<Json>, values: map<string, Json>): Json {
    JList([JList(ids), JObject(values)])
  }

  /**
   * `read_record` after the call: `if result and len(result) > 0: return
   * result[0]`, otherwise not found. Errors of the call propagate.
   */
  function FirstRecord(raw: Result<Json>): (r: Result<Json>)
    ensures raw.Err? ==> r == raw
    ensures raw.Ok? && raw.value.JList? ==>
              r == if raw.value.items == [] then Err(RecordNotFound) else Ok(raw.value.items[0])
    ensures raw.Ok? && !Truthy(raw.value) ==> r == Err(RecordNotFound)
  {
    if raw.Err? then raw
    else match raw.value
      case JList(xs) => if xs == [] then Err(RecordNotFound) else Ok(xs[0])
      case JStr(s) => if s == [] then Err(RecordNotFound) else Ok(JStr([s[0]]))
      case JObject(m) => if m == map[] then Err(RecordNotFound) else Err(TypeMismatch)  // result[0]: KeyError
      case _ => if Truthy(raw.value) then Err(TypeMismatch) else Err(RecordNotFound)   // len() of a number
  }

  /** `result if result else []`. */
  function OrEmptyList(raw: Result<Json>): (r: Result<Json>)
    ensures raw.Err? ==> r == raw
    ensures raw.Ok? ==> r.Ok? && Truthy(r.value) == Truthy(raw.value)
    ensures raw.Ok? && !Truthy(raw.value) ==> r == Ok(JList([]))
    ensures raw.Ok? && Truthy(raw.value) ==> r == raw
  {
    if raw.Err? then raw
    else if Truthy(raw.value) then raw
    else Ok(JList([]))
  }

  /** `result is True`: only the JSON value `true` counts as a successful write. */
  predicate WriteAccepted(result: Json) {
    result == JBool(true)
  }

  /** `write_record` after the call. */
  function WriteOutcome(raw: Result<Json>): (r: Result<bool>)
    ensures r.Err? <==> raw.Err?
    ensures r.Ok? ==> (r.value <==> raw.value == JBool(true))
  {
    if raw.Err? then Err(raw.error) else Ok(WriteAccepted(raw.value))
  }

  // ---- properties of the protocol ----

  /** A success reply yields its `result`, or {} when absent, after one request. */
  lemma SuccessReplyYieldsResult(cfg: Config, req: Request, replies: seq<Reply>, s: Session, result: Option<Json>)
    requires replies != [] && replies[0] == RpcReply(None, result)
    ensures RequestSpec(cfg, req, replies, s) == Trace(Ok(ResultOrEmpty(result)), [req], replies[1..], s)
    ensures result.None? ==> RequestSpec(cfg, req, replies, s).outcome == Ok(EmptyObject)
  {
  }

  /** An error that does not mention session expiry raises at once: no re-authentication, no resend. */
  lemma OtherErrorRaisesImmediately(cfg: Config, req: Request, replies: seq<Reply>, s: Session, e: RpcError)
    requires replies != [] && replies[0].RpcReply? && replies[0].error == Some(e)
    requires ExpiryMentioned(e) == Some(false)
    ensures RequestSpec(cfg, req, replies, s) == Trace(Err(RemoteError), [req], replies[1..], s)
  {
  }

  /** An error reply carrying the words "Session expired" in its message or data. */
  predicate IsExpiryReply(r: Reply) {
    r.RpcReply? && r.error.Some? && ExpiryMentioned(r.error.value) == Some(true)
  }

  /** One unfolding of `authenticate` on a reply without error. */
  lemma AuthStep(cfg: Config, replies: seq<Reply>, s: Session, result: Option<Json>)
    requires replies != [] && replies[0] == RpcReply(None, result)
    ensures var found := SessionFrom(ResultOrEmpty(result));
      AuthSpec(cfg, replies, s) ==
        if found.Ok? then Trace(Ok(true), [AuthRequest(cfg)], replies[1..], found.value)
        else Trace(Err(found.error), [AuthRequest(cfg)], replies[1..], s)
  {
    assert RequestSpec(cfg, AuthRequest(cfg), replies, s) == Trace(Ok(ResultOrEmpty(result)), [AuthRequest(cfg)], replies[1..], s);
  }

  /** One unfolding of `_make_request` on an expiry reply. */
  lemma ExpiryStep(cfg: Config, req: Request, replies: seq<Reply>, s: Session)
    requires replies != [] && IsExpiryReply(replies[0])
    ensures RequestSpec(cfg, req, replies, s) == AfterReauthSpec(req, AuthSpec(cfg, replies[1..], s))
  {
  }

  /**
   * The resend after re-authentication takes one reply and keeps the
   * session; a success yields its result and any JSON-RPC error now raises,
   * whatever it says.
   */
  lemma ResendTakesOneReply(req: Request, replies: seq<Reply>, s: Session)
    requires replies != []
    ensures var b := ResendSpec(req, replies, s);
      && b.sent == [req] && b.rest == replies[1..] && b.session == s
      && (replies[0].RpcReply? && replies[0].error.None? ==> b.outcome == Ok(ResultOrEmpty(replies[0].result)))
      && (replies[0].RpcReply? && replies[0].error.Some? ==> b.outcome == Err(RemoteErrorAfterReauth))
  {
  }

  /** `_make_request` after a successful re-authentication `a`. */
  lemma AfterLoginResends(req: Request, a: Trace<bool>)
    requires a.outcome == Ok(true)
    ensures var b := ResendSpec(req, a.rest, a.session);
      AfterReauthSpec(req, a) == Trace(b.outcome, [req] + a.sent + b.sent, b.rest, b.session)
  {
  }

  /** A successful login on `replies` followed by the resend of `req`. */
  lemma LoginThenResend(cfg: Config, req: Request, replies: seq<Reply>, s: Session, login: map<string, Json>)
    requires |replies| >= 2
    requires replies[0] == RpcReply(None, Some(JObject(login))) && "uid" in login
    ensures var session := Session(login["uid"], if "session_id" in login then login["session_id"] else JNull);
      var b := ResendSpec(req, replies[1..], session);
      AfterReauthSpec(req, AuthSpec(cfg, replies, s))
        == Trace(b.outcome, [req, AuthRequest(cfg), req], replies[2..], session)
  {
    var session := Session(login["uid"], if "session_id" in login then login["session_id"] else JNull);
    AuthStep(cfg, replies, s, Some(JObject(login)));
    var a := AuthSpec(cfg, replies, s);
    assert a == Trace(Ok(true), [AuthRequest(cfg)], replies[1..], session);
    AfterLoginResends(req, a);
    ResendTakesOneReply(req, replies[1..], session);
    assert replies[1..][1..] == replies[2..];
  }

  /**
   * Session expiry with a login that succeeds: exactly one authentication
   * request, then exactly one resend of the same request; the new session
   * is the one the login returned, and the resend's reply decides the
   * outcome with no further retry.
   */
  lemma ExpiryReauthenticatesOnce(cfg: Config, req: Request, replies: seq<Reply>, s: Session,
                                  login: map<string, Json>)
    requires |replies| >= 3 && IsExpiryReply(replies[0])
    requires replies[1] == RpcReply(None, Some(JObject(login))) && "uid" in login
    ensures var t := RequestSpec(cfg, req, replies, s);
      && t.sent == [req, AuthRequest(cfg), req]
      && t.rest == replies[3..]
      && t.session == Session(login["uid"], if "session_id" in login then login["session_id"] else JNull)
      && t.outcome == ResendSpec(req, replies[2..], t.session).outcome
      && (replies[2].RpcReply? && replies[2].error.None? ==> t.outcome == Ok(ResultOrEmpty(replies[2].result)))
      && (replies[2].RpcReply? && replies[2].error.Some? ==> t.outcome == Err(RemoteErrorAfterReauth))
  {
    var session := Session(login["uid"], if "session_id" in login then login["session_id"] else JNull);
    ExpiryStep(cfg, req, replies, s);
    LoginThenResend(cfg, req, replies[1..], s, login);
    assert replies[1..][1..] == replies[2..];
    assert replies[1..][2..] == replies[3..];
    ResendTakesOneReply(req, replies[2..], session);
  }

  /**
   * Session expiry with a login the server rejects (no uid, no error): the
   * authentication failure is what the caller sees, the request is not
   * resent and the session is untouched.
   */
  lemma ExpiryWithRejectedLogin(cfg: Config, req: Request, replies: seq<Reply>, s: Session, result: Json)
    requires |replies| >= 2 && IsExpiryReply(replies[0])
    requires replies[1] == RpcReply(None, Some(result)) && SessionFrom(result).Err?
    ensures var t := RequestSpec(cfg, req, replies, s);
      && t.sent == [req, AuthRequest(cfg)]
      && t.rest == replies[2..]
      && t.session == s
      && t.outcome == Err(SessionFrom(result).error)
  {
    ExpiryStep(cfg, req, replies, s);
    AuthStep(cfg, replies[1..], s, Some(result));
    assert replies[1..][1..] == replies[2..];
  }

  /**
   * `authenticate` against an auth endpoint that answers without an error:
   * it succeeds exactly when the result is a dict holding `uid`, and then
   * sets uid and session_id from it; otherwise it raises and leaves the
   * session fields as they were.
   */
  lemma AuthenticateSetsSessionOnlyOnUid(cfg: Config, replies: seq<Reply>, s: Session, result: Option<Json>)
    requires replies != [] && replies[0] == RpcReply(None, result)
    ensures var t := AuthSpec(cfg, replies, s);
      && t.sent == [AuthRequest(cfg)]
      && (t.outcome == Ok(true) <==> ResultOrEmpty(result).JObject? && "uid" in ResultOrEmpty(result).fields)
      && (t.outcome.Ok? ==> t.session.uid == ResultOrEmpty(result).fields["uid"])
      && (t.outcome.Ok? ==>
            t.session.sessionId == (if "session_id" in ResultOrEmpty(result).fields
                                    then ResultOrEmpty(result).fields["session_id"] else JNull))
      && (t.outcome.Err? ==> t.session == s)
  {
    AuthStep(cfg, replies, s, result);
  }

  /**
   * The "Failed to re-authenticate" branch is dead: authenticate returns
   * true or raises, so a failed re-authentication surfaces as the
   * authentication's own failure.
   */
  lemma {:induction false} ReauthFailureUnreachable(cfg: Config, req: Request, replies: seq<Reply>, s: Session)
    ensures RequestSpec(cfg, req, replies, s).outcome != Err(ReauthFailed)
    decreases |replies|, 0
  {
    if replies == [] {
    } else if !IsExpiryReply(replies[0]) {
      PlainReplyStep(cfg, req, replies, s);
    } else {
      ExpiryStep(cfg, req, replies, s);
      AuthNeverReauthFailed(cfg, replies[1..], s);
    }
  }

  /** authenticate never raises "Failed to re-authenticate" itself. */
  lemma {:induction false} AuthNeverReauthFailed(cfg: Config, replies: seq<Reply>, s: Session)
    ensures AuthSpec(cfg, replies, s).outcome != Err(ReauthFailed)
    decreases |replies|, 1
  {
    ReauthFailureUnreachable(cfg, AuthRequest(cfg), replies, s);
  }

  /** One unfolding of `_make_request` on a reply that is not an expiry error. */
  lemma PlainReplyStep(cfg: Config, req: Request, replies: seq<Reply>, s: Session)
    requires replies != [] && !IsExpiryReply(replies[0])
    ensures var t := RequestSpec(cfg, req, replies, s);
      && t.sent == [req] && t.rest == replies[1..] && t.session == s
      && t.outcome != Err(ReauthFailed)
  {
    if replies[0].RpcReply? && replies[0].error.Some? {
      var e := replies[0].error.value;
      assert RequestSpec(cfg, req, replies, s) == ErrorReplySpec(cfg, req, e, replies[1..], s);
      assert ExpiryMentioned(e) != Some(true);
    }
  }

  /**
   * `t` answers `req` from `replies`: the replies left are a suffix of the
   * script, the first request sent is `req`, and one reply was consumed per
   * request sent, except a last request sent after the script ran out,
   * which failed as a connection error.
   */
  ghost predicate Answered<T>(req: Request, replies: seq<Reply>, t: Trace<T>) {
    && |t.rest| <= |replies| && t.rest == replies[|replies| - |t.rest|..]
    && t.sent != [] && t.sent[0] == req
    && (|t.sent| == |replies| - |t.rest|
        || (t.rest == [] && t.outcome == Err(ConnectionError) && |t.sent| == |replies| + 1))
  }

  /** The expiry reply, the re-authentication `a` and the resend together answer `req`. */
  lemma AfterReauthAnswered(req: Request, login: Request, replies: seq<Reply>, a: Trace<bool>)
    requires replies != [] && Answered(login, replies[1..], a)
    ensures Answered(req, replies, AfterReauthSpec(req, a))
  {
    assert a.rest == replies[|replies| - |a.rest|..];
    if a.outcome.Ok? && a.outcome.value && a.rest != [] {
      assert a.rest[1..] == replies[|replies| - |a.rest| + 1..];
    }
  }

  /**
   * Every request is answered by the next reply of the script: an operation
   * consumes exactly one reply per request it sends, except a last request
   * sent after the script ran out, which fails as a connection error. The
   * replies left are a suffix of the script and the first request sent is
   * the operation's own.
   */
  lemma {:induction false} RequestsMatchReplies(cfg: Config, req: Request, replies: seq<Reply>, s: Session)
    ensures Answered(req, replies, RequestSpec(cfg, req, replies, s))
    decreases |replies|, 0
  {
    if replies == [] {
    } else if !IsExpiryReply(replies[0]) {
      PlainReplyStep(cfg, req, replies, s);
    } else {
      ExpiryStep(cfg, req, replies, s);
      AuthMatchesReplies(cfg, replies[1..], s);
      AfterReauthAnswered(req, AuthRequest(cfg), replies, AuthSpec(cfg, replies[1..], s));
    }
  }

  /** authenticate consumes the script the way its one request does. */
  lemma {:induction false} AuthMatchesReplies(cfg: Config, replies: seq<Reply>, s: Session)
    ensures Answered(AuthRequest(cfg), replies, AuthSpec(cfg, replies, s))
    decreases |replies|, 1
  {
    RequestsMatchReplies(cfg, AuthRequest(cfg), replies, s);
  }

  /**
   * The unbounded re-entry: while the auth endpoint itself keeps reporting
   * session expiry, authenticate re-enters authenticate, one more login
   * request per expiry reply, until the server stops answering.
   */
  lemma {:induction false} ExpiringAuthEndpointReentersAuthenticate(cfg: Config, replies: seq<Reply>, s: Session)
    requires forall i :: 0 <= i < |replies| ==> IsExpiryReply(replies[i])
    ensures var t := AuthSpec(cfg, replies, s);
      && t.outcome == Err(ConnectionError)
      && t.sent == seq(|replies| + 1, _ => AuthRequest(cfg))
      && t.session == s
    decreases |replies|
  {
    var req := AuthRequest(cfg);
    if replies == [] {
      assert RequestSpec(cfg, req, [], s).sent == [req];
    } else {
      var rest := replies[1..];
      ExpiringAuthEndpointReentersAuthenticate(cfg, rest, s);
      ExpiryStep(cfg, req, replies, s);
      var a := AuthSpec(cfg, rest, s);
      assert a.outcome == Err(ConnectionError) && a.session == s;
      var r := RequestSpec(cfg, req, replies, s);
      assert r == Trace(Err(ConnectionError), [req] + a.sent, a.rest, s);
      assert [req] + seq(|rest| + 1, _ => req) == seq(|replies| + 1, _ => req);
    }
  }

  /** Without a uid, call_kw raises and sends nothing. */
  lemma CallKwNeedsSession(cfg: Config, replies: seq<Reply>, s: Session,
                           model: string, methodName: string, args: Json, kwargs: Json)
    requires !Truthy(s.uid)
    ensures CallKwSpec(cfg, replies, s, model, methodName, args, kwargs) == Trace(Err(NotAuthenticated), [], replies, s)
  {
  }

  /**
   * With a uid, the first request call_kw sends goes to the call_kw endpoint
   * and carries model, method, args, kwargs and an empty context in a
   * JSON-RPC 2.0 "call" envelope with id 1.
   */
  lemma CallKwSendsEnvelope(cfg: Config, replies: seq<Reply>, s: Session,
                            model: string, methodName: string, args: Json, kwargs: Json)
    requires Truthy(s.uid)
    ensures var t := CallKwSpec(cfg, replies, s, model, methodName, args, kwargs);
      && t.sent != []
      && t.sent[0].url == cfg.url + "/web/dataset/call_kw"
      && t.sent[0].body == JObject(map["jsonrpc" := JStr("2.0"), "method" := JStr("call"), "id" := JInt(1),
           "params" := JObject(map["model" := JStr(model), "method" := JStr(methodName), "args" := args,
                                   "kwargs" := kwargs, "context" := JObject(map[])])])
  {
    RequestsMatchReplies(cfg, CallRequest(cfg, model, methodName, args, kwargs), replies, s);
  }

  /** `v[key]` of a JSON object, None when absent. */
  function Member(v: Json, key: string): Option<Json> {
    if v.JObject? && key in v.fields then Some(v.fields[key]) else None
  }

  /** The field names a request asks for: `params.kwargs.fields` of its body. */
  function RequestedFields(req: Request): Option<seq<string>> {
    var params := Member(req.body, "params");
    var kwargs := if params.Some? then Member(params.value, "kwargs") else None;
    var fields := if kwargs.Some? then Member(kwargs.value, "fields") else None;
    if fields.Some? then AsStrings(fields.value) else None
  }

  /**
   * The whitelist is what is requested: the `fields` of the kwargs in the
   * request sent decode to exactly the caller's list, in order.
   */
  lemma WhitelistRequested(cfg: Config, replies: seq<Reply>, s: Session,
                           model: string, methodName: string, args: Json, fields: seq<string>)
    requires Truthy(s.uid)
    ensures var t := CallKwSpec(cfg, replies, s, model, methodName, args, FieldsKwargs(fields));
      && t.sent != []
      && RequestedFields(t.sent[0]) == Some(fields)
  {
    CallKwSendsEnvelope(cfg, replies, s, model, methodName, args, FieldsKwargs(fields));
    StringsRoundTrip(fields);
  }

  /** Truthy is not enough: 1 and "true" are failed writes. */
  lemma OnlyExactTrueIsAccepted()
    ensures WriteAccepted(JBool(true))
    ensures Truthy(JInt(1)) && !WriteAccepted(JInt(1))
    ensures Truthy(JStr("true")) && !WriteAccepted(JStr("true"))
  {
  }
}
