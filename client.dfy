/**
 * The Odoo JSON-RPC client as a class with mutable session state.
 *
 * `Server` stands for the remote Odoo instance behind the HTTP opener: it
 * answers each request with the next reply of its script and logs what it
 * was sent. `OdooClient` keeps the connection settings and the session
 * fields `uid` and `session_id`; each of its methods is proved to follow the
 * matching function of module Protocol, and each `call_kw` is appended to
 * the ghost log `calls`, against which the update scripts are specified.
 */
module JsonRpcClient {
  import opened Json
  import opened Protocol

  /** The remote server: a script of replies, one per request, and the requests received. */
  class Server {
    var replies: seq<Reply>
    var sent: seq<Request>

    constructor (script: seq<Reply>)
      ensures replies == script && sent == []
    {
      replies := script;
      sent := [];
    }

    /** One HTTP round trip; a server with nothing left to say cannot be reached. */
    method Send(req: Request) returns (reply: Reply)
      modifies this
      ensures sent == old(sent) + [req]
      ensures reply == NextReply(old(replies)) && replies == Remaining(old(replies))
    {
      sent := sent + [req];
      if replies == [] {
        reply := NoConnection;
      } else {
        reply := replies[0];
        replies := replies[1..];
      }
    }
  }

  class OdooClient {
    const url: string
    const db: string
    const username: string
    const password: string
    const server: Server
    var uid: Json
    var sessionId: Json
    /** Every call_kw so far, with its outcome. */
    ghost var calls: seq<Call>

    /** `__init__`: trailing slashes are stripped and no session is held yet. */
    constructor (url: string, db: string, username: string, password: string, server: Server)
      ensures this.url == StripTrailingSlashes(url)
      ensures this.db == db && this.username == username && this.password == password
      ensures this.server == server
      ensures uid == JNull && sessionId == JNull
      ensures calls == []
    {
      this.url := StripTrailingSlashes(url);
      this.db := db;
      this.username := username;
      this.password := password;
      this.server := server;
      uid := JNull;
      sessionId := JNull;
      calls := [];
    }

    function Cfg(): Config {
      Config(url, db, username, password)
    }

    function CurrentSession(): Session
      reads this
    {
      Session(uid, sessionId)
    }

    /**
     * The server and the session are where the trace `t` leaves them, the
     * requests of `t` appended to those sent before (`sent0`).
     */
    ghost predicate Follows<T>(t: Trace<T>, sent0: seq<Request>)
      reads this, server
    {
      server.sent == sent0 + t.sent && server.replies == t.rest && CurrentSession() == t.session
    }

    /** `_make_request`: one request, and the error handling of its reply. */
    method MakeRequest(endpoint: string, params: Json) returns (r: Result<Json>)
      modifies this, server
      decreases |server.replies|, 0
      ensures var t := RequestSpec(Cfg(), RequestTo(Cfg(), endpoint, params), old(server.replies), old(CurrentSession()));
        r == t.outcome && Follows(t, old(server.sent))
      ensures calls == old(calls)
    {
      var req := RequestTo(Cfg(), endpoint, params);
      var reply := server.Send(req);
      if IsErrorReply(reply) {
        r := OnErrorReply(req, reply.error.value, old(server.sent));
      } else {
        r := DirectOutcome(reply);
      }
    }

    /**
     * `_make_request` once the reply to `req`, sent after the requests
     * `before`, carried the JSON-RPC error `e`: a session expiry
     * re-authenticates and resends, anything else raises.
     */
    method OnErrorReply(req: Request, e: RpcError, ghost before: seq<Request>) returns (r: Result<Json>)
      requires server.sent == before + [req]
      modifies this, server
      decreases |server.replies|, 3
      ensures var t := ErrorReplySpec(Cfg(), req, e, old(server.replies), old(CurrentSession()));
        r == t.outcome && Follows(t, before)
      ensures calls == old(calls)
    {
      var expired := ExpiryMentioned(e);
      if expired.None? {
        r := Err(TypeMismatch);
      } else if !expired.value {
        r := Err(RemoteError);
      } else {
        r := Reauthenticate(req, before);
      }
    }

    /**
     * After a session-expiry reply to `req`, sent after the requests
     * `before`: authenticate, and resend `req` once when that succeeds.
     */
    method Reauthenticate(req: Request, ghost before: seq<Request>) returns (r: Result<Json>)
      requires server.sent == before + [req]
      modifies this, server
      decreases |server.replies|, 2
      ensures var t := AfterReauthSpec(req, AuthSpec(Cfg(), old(server.replies), old(CurrentSession())));
        r == t.outcome && Follows(t, before)
      ensures calls == old(calls)
    {
      ghost var a := AuthSpec(Cfg(), server.replies, CurrentSession());
      var auth := Authenticate();
      if auth.Err? {
        r := Err(auth.error);
        assert before + [req] + a.sent == before + ([req] + a.sent);
      } else {
        // authenticate returns true or raises, so the request is resent
        assert auth.value;
        AfterLoginResends(req, a);
        ghost var b := ResendSpec(req, a.rest, a.session);
        r := Resend(req);
        assert before + [req] + a.sent + b.sent == before + ([req] + a.sent + b.sent);
      }
    }

    /** The single resend after re-authentication: any error reply now raises. */
    method Resend(req: Request) returns (r: Result<Json>)
      modifies server
      ensures var b := ResendSpec(req, old(server.replies), CurrentSession());
        r == b.outcome && server.sent == old(server.sent) + b.sent && server.replies == b.rest
    {
      var reply := server.Send(req);
      if IsErrorReply(reply) {
        r := Err(RemoteErrorAfterReauth);
      } else {
        r := DirectOutcome(reply);
      }
    }

    /** `authenticate`: true with the session set from the reply, or an error. */
    method Authenticate() returns (r: Result<bool>)
      modifies this, server
      decreases |server.replies|, 1
      ensures var t := AuthSpec(Cfg(), old(server.replies), old(CurrentSession()));
        r == t.outcome && Follows(t, old(server.sent))
      ensures calls == old(calls)
    {
      var result := MakeRequest(AuthEndpoint, AuthParams(Cfg()));
      if result.Err? {
        r := Err(result.error);
        return;
      }
      var v := result.value;
      var hasUid := if Truthy(v) then PyIn("uid", v) else Some(false);
      if hasUid.None? {
        r := Err(TypeMismatch);
      } else if !hasUid.value {
        r := Err(AuthenticationFailed);
      } else if !v.JObject? {
        r := Err(TypeMismatch);
      } else {
        uid := v.fields["uid"];
        sessionId := if "session_id" in v.fields then v.fields["session_id"] else JNull;
        r := Ok(true);
      }
    }

    /** `call_kw`: guarded by the uid, logged in `calls`. */
    method CallKw(model: string, methodName: string, args: Json, kwargs: Json) returns (r: Result<Json>)
      modifies this, server
      ensures var t := CallKwSpec(Cfg(), old(server.replies), old(CurrentSession()), model, methodName, args, kwargs);
        r == t.outcome && Follows(t, old(server.sent))
      ensures calls == old(calls) + [Call(model, methodName, args, kwargs, r)]
    {
      if !Truthy(uid) {
        r := Err(NotAuthenticated);
      } else {
        r := MakeRequest(CallKwEndpoint, CallParams(model, methodName, args, kwargs));
      }
      calls := calls + [Call(model, methodName, args, kwargs, r)];
    }

    /** `read_record`: refuses an empty whitelist before any call, then takes the first record. */
    method ReadRecord(model: string, recordId: int, fields: seq<string>) returns (r: Result<Json>)
      modifies this, server
      ensures fields == [] ==> r == Err(MissingFields) && unchanged(this, server)
      ensures fields != [] ==>
        var t := CallKwSpec(Cfg(), old(server.replies), old(CurrentSession()), model, "read", ReadArgs(recordId), FieldsKwargs(fields));
        && r == FirstRecord(t.outcome) && Follows(t, old(server.sent))
        && calls == old(calls) + [Call(model, "read", ReadArgs(recordId), FieldsKwargs(fields), t.outcome)]
    {
      if fields == [] {
        r := Err(MissingFields);
        return;
      }
      var raw := CallKw(model, "read", ReadArgs(recordId), FieldsKwargs(fields));
      r := FirstRecord(raw);
    }

    /** `search_read`: refuses an empty whitelist before any call; a falsy result becomes []. */
    method SearchRead(model: string, domain: Json, fields: seq<string>) returns (r: Result<Json>)
      modifies this, server
      ensures fields == [] ==> r == Err(MissingFields) && unchanged(this, server)
      ensures fields != [] ==>
        var t := CallKwSpec(Cfg(), old(server.replies), old(CurrentSession()), model, "search_read", SearchArgs(domain), FieldsKwargs(fields));
        && r == OrEmptyList(t.outcome) && Follows(t, old(server.sent))
        && calls == old(calls) + [Call(model, "search_read", SearchArgs(domain), FieldsKwargs(fields), t.outcome)]
    {
      if fields == [] {
        r := Err(MissingFields);
        return;
      }
      var raw := CallKw(model, "search_read", SearchArgs(domain), FieldsKwargs(fields));
      r := OrEmptyList(raw);
    }

    /** `read_all_records`: as search_read, with no domain meaning the empty domain. */
    method ReadAllRecords(model: string, fields: seq<string>, domain: Option<Json>) returns (r: Result<Json>)
      modifies this, server
      ensures fields == [] ==> r == Err(MissingFields) && unchanged(this, server)
      ensures fields != [] ==>
        var d := if domain.None? then JList([]) else domain.value;
        var t := CallKwSpec(Cfg(), old(server.replies), old(CurrentSession()), model, "search_read", SearchArgs(d), FieldsKwargs(fields));
        && r == OrEmptyList(t.outcome) && Follows(t, old(server.sent))
        && calls == old(calls) + [Call(model, "search_read", SearchArgs(d), FieldsKwargs(fields), t.outcome)]
    {
      if fields == [] {
        r := Err(MissingFields);
        return;
      }
      var d := if domain.None? then JList([]) else domain.value;
      var raw := CallKw(model, "search_read", SearchArgs(d), FieldsKwargs(fields));
      r := OrEmptyList(raw);
    }

    /** `get_fields`: the field definitions of a model. */
    method GetFields(model: string) returns (r: Result<Json>)
      modifies this, server
      ensures var t := CallKwSpec(Cfg(), old(server.replies), old(CurrentSession()), model, "fields_get", JList([]), EmptyObject);
        r == t.outcome && Follows(t, old(server.sent))
      ensures calls == old(calls) + [Call(model, "fields_get", JList([]), EmptyObject, r)]
    {
      r := CallKw(model, "fields_get", JList([]), EmptyObject);
    }

    /**
     * `list(fields_info.keys())` of a fields_get result: its field names, each
     * once, in some order (the order of the server's dict is not modelled).
     */
    static method FieldNames(info: Json) returns (r: Result<seq<string>>)
      ensures info.JObject? ==> r.Ok? && IsKeyList(r.value, info.fields)
      ensures !info.JObject? ==> r == Err(TypeMismatch)
    {
      if !info.JObject? {
        return Err(TypeMismatch);
      }
      var keys := KeysOf(info.fields);
      return Ok(keys);
    }

    /** `read_record_all_fields`: fields_get, then read_record with every field name. */
    method ReadRecordAllFields(model: string, recordId: int) returns (r: Result<Json>)
      modifies this, server
      ensures |calls| > |old(calls)| && calls[..|old(calls)|] == old(calls)
      ensures calls[|old(calls)|].model == model && calls[|old(calls)|].methodName == "fields_get"
      ensures var info := calls[|old(calls)|].outcome;
        && (info.Err? ==> r == info && |calls| == |old(calls)| + 1)
        && (info.Ok? && !info.value.JObject? ==> r == Err(TypeMismatch) && |calls| == |old(calls)| + 1)
        && (info.Ok? && info.value.JObject? && info.value.fields == map[] ==>
              r == Err(MissingFields) && |calls| == |old(calls)| + 1)
        && (info.Ok? && info.value.JObject? && info.value.fields != map[] ==>
              && |calls| == |old(calls)| + 2
              && var read := calls[|old(calls)| + 1];
              && read.model == model && read.methodName == "read" && read.args == ReadArgs(recordId)
              && (exists names :: IsKeyList(names, info.value.fields) && read.kwargs == FieldsKwargs(names))
              && r == FirstRecord(read.outcome))
    {
      var info := GetFields(model);
      if info.Err? {
        return info;
      }
      var names := FieldNames(info.value);
      if names.Err? {
        return Err(names.error);
      }
      assert IsKeyList(names.value, info.value.fields);
      r := ReadRecord(model, recordId, names.value);
    }

    /** `search_read_all_fields`: fields_get, then search_read with every field name. */
    method SearchReadAllFields(model: string, domain: Json) returns (r: Result<Json>)
      modifies this, server
      ensures |calls| > |old(calls)| && calls[..|old(calls)|] == old(calls)
      ensures calls[|old(calls)|].model == model && calls[|old(calls)|].methodName == "fields_get"
      ensures var info := calls[|old(calls)|].outcome;
        && (info.Err? ==> r == info && |calls| == |old(calls)| + 1)
        && (info.Ok? && !info.value.JObject? ==> r == Err(TypeMismatch) && |calls| == |old(calls)| + 1)
        && (info.Ok? && info.value.JObject? && info.value.fields == map[] ==>
              r == Err(MissingFields) && |calls| == |old(calls)| + 1)
        && (info.Ok? && info.value.JObject? && info.value.fields != map[] ==>
              && |calls| == |old(calls)| + 2
              && var search := calls[|old(calls)| + 1];
              && search.model == model && search.methodName == "search_read" && search.args == SearchArgs(domain)
              && (exists names :: IsKeyList(names, info.value.fields) && search.kwargs == FieldsKwargs(names))
              && r == OrEmptyList(search.outcome))
    {
      var info := GetFields(model);
      if info.Err? {
        return info;
      }
      var names := FieldNames(info.value);
      if names.Err? {
        return Err(names.error);
      }
      assert IsKeyList(names.value, info.value.fields);
      r := SearchRead(model, domain, names.value);
    }

    /** `write_record`: true only for the exact JSON `true`. */
    method WriteRecord(model: string, recordId: int, values: map<string, Json>) returns (r: Result<bool>)
      modifies this, server
      ensures var t := CallKwSpec(Cfg(), old(server.replies), old(CurrentSession()), model, "write",
                                  WriteArgs([JInt(recordId)], values), EmptyObject);
        && r == WriteOutcome(t.outcome) && Follows(t, old(server.sent))
        && calls == old(calls) + [Call(model, "write", WriteArgs([JInt(recordId)], values), EmptyObject, t.outcome)]
    {
      var raw := CallKw(model, "write", WriteArgs([JInt(recordId)], values), EmptyObject);
      r := WriteOutcome(raw);
    }
  }

  /** `names` lists every key of `m` exactly once. */
  predicate IsKeyList(names: seq<string>, m: map<string, Json>) {
    && |names| == |m|
    && (forall i, j :: 0 <= i < j < |names| ==> names[i] != names[j])
    && (forall k :: k in m ==> k in names)
    && (forall k :: k in names ==> k in m)
  }

  /** The keys of a map, taken one at a time in some order. */
  method KeysOf(m: map<string, Json>) returns (names: seq<string>)
    ensures IsKeyList(names, m)
  {
    names := [];
    var left := m.Keys;
    while left != {}
      invariant left <= m.Keys
      invariant forall k :: k in m <==> k in names || k in left
      invariant forall k :: k in names ==> k !in left
      invariant forall i, j :: 0 <= i < j < |names| ==> names[i] != names[j]
      invariant |names| + |left| == |m|
      decreases |left|
    {
      var k :| k in left;
      names := names + [k];
      left := left - {k};
    }
  }
}
