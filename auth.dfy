/** The authenticated request of the `Graph` class as a function of the
    client's state: lazy session and token acquisition, the merge of caller
    headers with the bearer header, and the single token refresh and resend
    after a 401. The class in the `GraphService` module performs these steps
    on its fields and is proved to agree with the functions here. */
module Auth {
  import opened Wrappers
  import opened Strings
  import opened JsonValues
  import opened Http

  /** The configuration the token request posts: the endpoint and the
      client-credentials form fields. */
  datatype Credentials = Credentials(
    tokenUrl: string,
    clientId: string,
    clientSecret: string,
    grantType: string,
    resource: string)

  /** The world the client talks to. The token endpoint answers its `n`-th
      request with `tokenService(credentials, n)`; the Graph endpoint answers
      every request with `upstream`. */
  datatype Env = Env(
    credentials: Credentials,
    tokenService: (Credentials, nat) -> TokenReply,
    upstream: HttpRequest -> HttpResponse)

  /** The client's fields `session` and `auth_header`, with the number of
      token requests made so far and the log of requests sent upstream. */
  datatype AuthState = AuthState(
    hasSession: bool,
    authHeader: Option<Headers>,
    tokenRequests: nat,
    sent: seq<HttpRequest>)

  /** The result of an operation together with the state it leaves. */
  datatype Effect<+T> = Effect(result: Result<T, Error>, after: AuthState)

  /** The access token carried by a token reply. A transport failure or a
      status that is not `ok` raises; so does a body that does not decode, is
      not an object, or lacks a string `access_token` (the source then adds
      `None` to a string). */
  function AccessToken(reply: TokenReply): (r: Result<string, Error>)
    ensures r.Success? <==>
      && reply.TokenResponse? && IsOk(reply.status) && reply.json.Some? && reply.json.value.JObj?
      && "access_token" in reply.json.value.fields && reply.json.value.fields["access_token"].JStr?
    ensures r.Success? ==> r.value == reply.json.value.fields["access_token"].s
  {
    match reply
    case TokenUnreachable(reason) => Failure(AuthError(reason))
    case TokenResponse(status, body) =>
      if !IsOk(status) then Failure(AuthError("access token request failed"))
      else if body.None? then Failure(JsonDecodeError)
      else if !body.value.JObj? then Failure(TypeError("token reply is not an object"))
      else
        var token := GetOr(body.value.fields, "access_token");
        if token.JStr? then Success(token.s)
        else Failure(TypeError("access token is not a string"))
  }

  /** `get_token`: one request to the token endpoint; on success the bearer
      header of the new token replaces `auth_header`, otherwise it is left as
      it was. */
  function GetToken(st: AuthState, env: Env): (x: Effect<()>)
    ensures x.after.tokenRequests == st.tokenRequests + 1
    ensures x.after.hasSession == st.hasSession && x.after.sent == st.sent
    ensures var token := AccessToken(env.tokenService(env.credentials, st.tokenRequests));
      && (x.result.Success? <==> token.Success?)
      && (token.Success? ==> x.after.authHeader == Some(BearerHeader(token.value)))
      && (token.Failure? ==> x.after.authHeader == st.authHeader && x.result == Failure(token.error))
  {
    var token := AccessToken(env.tokenService(env.credentials, st.tokenRequests));
    var st' := st.(tokenRequests := st.tokenRequests + 1);
    if token.Failure? then Effect(Failure(token.error), st')
    else Effect(Success(()), st'.(authHeader := Some(BearerHeader(token.value))))
  }

  /** The headers `request` sends: the caller's headers overridden by the
      auth header, plus `Content-Type: application/json` when the call has a
      JSON body. Spreading an absent auth header raises `TypeError`; without
      caller headers and JSON body an absent auth header means no headers. */
  function MergeHeaders(caller: Option<Headers>, auth: Option<Headers>, json: bool): (r: Result<Headers, Error>)
    ensures r.Success? <==> auth.Some? || (caller.None? && !json)
    ensures r.Success? ==> forall k ::
      k in r.value <==> (auth.Some? && k in auth.value) || (caller.Some? && k in caller.value) || (json && k == "Content-Type")
    ensures r.Success? && json ==> r.value["Content-Type"] == "application/json"
    ensures r.Success? && auth.Some? ==> forall k ::
      k in auth.value && !(json && k == "Content-Type") ==> r.value[k] == auth.value[k]
    ensures r.Success? && caller.Some? ==> forall k ::
      k in caller.value && !(auth.Some? && k in auth.value) && !(json && k == "Content-Type") ==>
        r.value[k] == caller.value[k]
  {
    var merged: Result<Option<Headers>, Error> :=
      if caller.None? then Success(auth)
      else if auth.None? then Failure(TypeError("'NoneType' object is not a mapping"))
      else Success(Some(caller.value + auth.value));
    var headers :- merged;
    if !json then Success(headers.GetOr(map[]))
    else if headers.None? then Failure(TypeError("'NoneType' object is not a mapping"))
    else Success(headers.value["Content-Type" := "application/json"])
  }

  /** A call of `request(method, url, **kwargs)`. */
  datatype Call = Call(verb: string, url: string, opts: Options)

  /** The request sent for a call with the given headers. */
  function Prepare(call: Call, headers: Headers): (req: HttpRequest)
    ensures Carries(req, call) && req.headers == headers
  {
    HttpRequest(call.verb, call.url, headers, call.opts.params, call.opts.json, call.opts.data)
  }

  /** A sent request carries the call's method, URL, query arguments and body. */
  predicate Carries(req: HttpRequest, call: Call)
  {
    && req.verb == call.verb && req.url == call.url && req.params == call.opts.params
    && req.json == call.opts.json && req.data == call.opts.data
  }

  /** How the request is resent after a 401: `Stale` sends the request
      prepared before the refresh again, so it still carries the old token;
      `Fresh` prepares it anew with the refreshed header. */
  datatype Resend = Stale | Fresh

  /** The first request of the exchange was answered with 401. */
  predicate Retried(st: AuthState, x: Effect<HttpResponse>, env: Env)
  {
    |x.after.sent| > |st.sent| && env.upstream(x.after.sent[|st.sent|]).status == 401
  }

  /** The first part of `request`: on first use the session is opened (the
      flag is set before the token request) and a token is fetched. */
  function Ready(st: AuthState, env: Env): (x: Effect<()>)
    ensures x.after.hasSession && x.after.sent == st.sent
    ensures x.after.tokenRequests == st.tokenRequests + (if st.hasSession then 0 else 1)
    ensures st.hasSession ==> x == Effect(Success(()), st)
  {
    if st.hasSession then Effect(Success(()), st) else GetToken(st.(hasSession := true), env)
  }

  /** `request(method, url, **kwargs)`: opens the session and fetches a token
      on first use, sends the call with the merged headers, and after a 401
      fetches one new token and sends once more, returning that answer
      whatever it is. Every request it sends carries the call, and an answer
      it returns is the upstream's answer to the last request it sent. */
  function Exchange(st: AuthState, env: Env, call: Call, resend: Resend): (x: Effect<HttpResponse>)
    ensures st.sent <= x.after.sent
    ensures forall i :: |st.sent| <= i < |x.after.sent| ==> Carries(x.after.sent[i], call)
    ensures x.result.Success? ==>
      |x.after.sent| > |st.sent| && x.result.value == env.upstream(Last(x.after.sent))
  {
    var ready := Ready(st, env);
    if ready.result.Failure? then Effect(Failure(ready.result.error), ready.after)
    else
      var s1 := ready.after;
      var json := call.opts.json.Some?;
      var headers := MergeHeaders(call.opts.headers, s1.authHeader, json);
      if headers.Failure? then Effect(Failure(headers.error), s1)
      else
        var req := Prepare(call, headers.value);
        var resp := env.upstream(req);
        var s2 := s1.(sent := s1.sent + [req]);
        if resp.status != 401 then Effect(Success(resp), s2)
        else
          var refreshed := GetToken(s2, env);
          var s3 := refreshed.after;
          if refreshed.result.Failure? then Effect(Failure(refreshed.result.error), s3)
          else
            var again := match resend
              case Stale => req
              case Fresh => Prepare(call, MergeHeaders(call.opts.headers, s3.authHeader, json).value);
            Effect(Success(env.upstream(again)), s3.(sent := s3.sent + [again]))
  }

  /** What `request` does to the session and the token: the session is open
      afterwards; a token is fetched on first use and once more after a 401;
      an open session keeps its header unless the call was answered with 401. */
  lemma ExchangeSession(st: AuthState, env: Env, call: Call, resend: Resend)
    ensures var x := Exchange(st, env, call, resend);
      && x.after.hasSession
      && x.after.tokenRequests ==
           st.tokenRequests + (if st.hasSession then 0 else 1) + (if Retried(st, x, env) then 1 else 0)
      && (st.hasSession && !Retried(st, x, env) ==> x.after.authHeader == st.authHeader)
  {
  }

  /** What `request` sends: at most two requests; one, whose answer is
      returned, unless it was answered with 401; a second only after a 401,
      and then the second answer is returned whatever it is. After a 401 the
      second request goes out exactly when the refresh succeeds, and a failed
      refresh raises the token endpoint's error. */
  lemma ExchangeSends(st: AuthState, env: Env, call: Call, resend: Resend)
    ensures var x := Exchange(st, env, call, resend);
      && |x.after.sent| <= |st.sent| + 2
      && (|x.after.sent| > |st.sent| && !Retried(st, x, env) ==>
            |x.after.sent| == |st.sent| + 1 && x.result == Success(env.upstream(x.after.sent[|st.sent|])))
      && (|x.after.sent| == |st.sent| + 2 ==>
            Retried(st, x, env) && x.result == Success(env.upstream(x.after.sent[|st.sent| + 1])))
      && (Retried(st, x, env) ==> (x.result.Success? <==> |x.after.sent| == |st.sent| + 2))
      && (Retried(st, x, env) && x.result.Failure? ==>
            && x.after.tokenRequests >= 1
            && AccessToken(env.tokenService(env.credentials, x.after.tokenRequests - 1)) == Failure(x.result.error))
  {
  }

  /** What `request` itself can raise: the errors of reading a token reply
      and the `TypeError` of merging headers; never a status error. */
  predicate RequestError(e: Error)
  {
    e.AuthError? || e.JsonDecodeError? || e.TypeError?
  }

  /** An exchange that raises raises a token or header error, after sending
      at most the first request, and a token error only when a token was
      fetched. */
  lemma ExchangeErrors(st: AuthState, env: Env, call: Call, resend: Resend)
    ensures var x := Exchange(st, env, call, resend);
      x.result.Failure? ==>
        && RequestError(x.result.error)
        && |x.after.sent| <= |st.sent| + 1
        && (x.result.error.AuthError? || x.result.error.JsonDecodeError? ==> x.after.tokenRequests > st.tokenRequests)
  {
  }

  /** The resend after a 401: `Stale` repeats the first request unchanged;
      `Fresh` carries every header of the refreshed auth header. */
  lemma ExchangeResend(st: AuthState, env: Env, call: Call, resend: Resend)
    ensures var x := Exchange(st, env, call, resend);
      && (resend == Stale && |x.after.sent| == |st.sent| + 2 ==>
            x.after.sent[|st.sent| + 1] == x.after.sent[|st.sent|])
      && (resend == Fresh && |x.after.sent| == |st.sent| + 2 ==>
            && x.after.authHeader.Some?
            && forall k :: k in x.after.authHeader.value ==>
                 k in Last(x.after.sent).headers && Last(x.after.sent).headers[k] == x.after.authHeader.value[k])
  {
  }

  /** The headers `request` sends: the first request carries the caller's
      headers merged with the auth header held once the session is ready; a
      stale resend repeats them, a fresh one merges the refreshed header. */
  lemma ExchangeHeaders(st: AuthState, env: Env, call: Call, resend: Resend)
    ensures var x := Exchange(st, env, call, resend);
      var json := call.opts.json.Some?;
      && (|x.after.sent| > |st.sent| ==>
            MergeHeaders(call.opts.headers, Ready(st, env).after.authHeader, json) == Success(x.after.sent[|st.sent|].headers))
      && (|x.after.sent| == |st.sent| + 2 && resend == Fresh ==>
            MergeHeaders(call.opts.headers, x.after.authHeader, json) == Success(Last(x.after.sent).headers))
  {
  }

  /** A call with a JSON body sends `Content-Type: application/json` with
      every request, the resend included. */
  lemma ExchangeJsonContentType(st: AuthState, env: Env, call: Call, resend: Resend)
    requires call.opts.json.Some?
    ensures var x := Exchange(st, env, call, resend);
      forall i :: |st.sent| <= i < |x.after.sent| ==>
        "Content-Type" in x.after.sent[i].headers && x.after.sent[i].headers["Content-Type"] == "application/json"
  {
    var x := Exchange(st, env, call, resend);
    ExchangeHeaders(st, env, call, resend);
    ExchangeSends(st, env, call, resend);
    ExchangeResend(st, env, call, resend);
  }

  /** As written, a 401 is never recovered from: the resend is the same
      request, so the upstream answers it with 401 again. */
  lemma StaleRetryRejected(st: AuthState, env: Env, call: Call)
    ensures var x := Exchange(st, env, call, Stale);
      Retried(st, x, env) && x.result.Success? ==> x.result.value.status == 401
  {
    var x := Exchange(st, env, call, Stale);
    ExchangeSends(st, env, call, Stale);
    ExchangeResend(st, env, call, Stale);
  }

  // ---------------------------------------------------------------------------
  // The stale resend, on concrete values

  /** A token endpoint that hands out "t1" first and "t2" afterwards. */
  function RotatingTokens(c: Credentials, n: nat): TokenReply
  {
    TokenResponse(200, Some(JObj(map["access_token" := JStr(if n == 0 then "t1" else "t2")])))
  }

  /** An upstream that accepts only the second token. */
  function AcceptsOnlyT2(r: HttpRequest): HttpResponse
  {
    if "Authorization" in r.headers && r.headers["Authorization"] == "Bearer t2"
    then HttpResponse(200, "", None, [])
    else HttpResponse(401, "", None, [])
  }

  const RotationEnv := Env(Credentials("", "", "", "", ""), RotatingTokens, AcceptsOnlyT2)

  const Fresh0 := AuthState(false, None, 0, [])

  const ListDrives := Call("GET", "https://graph.microsoft.com/v1.0/drives", NoOptions)

  /** The first token is already rejected. Resending the request prepared
      before the refresh still carries "Bearer t1" and is rejected again,
      although the client now holds "t2"; preparing it anew succeeds. */
  lemma StaleResendCounterexample()
    ensures Exchange(Fresh0, RotationEnv, ListDrives, Stale).result.value.status == 401
    ensures Exchange(Fresh0, RotationEnv, ListDrives, Stale).after.authHeader == Some(BearerHeader("t2"))
    ensures Exchange(Fresh0, RotationEnv, ListDrives, Fresh).result.value.status == 200
  {
    var s1 := GetToken(Fresh0.(hasSession := true), RotationEnv).after;
    assert s1.authHeader == Some(BearerHeader("t1"));
    var h := MergeHeaders(None, s1.authHeader, false);
    assert h == Success(BearerHeader("t1"));
    assert "Bearer t1"[8] != "Bearer t2"[8];
    assert AcceptsOnlyT2(Prepare(ListDrives, h.value)).status == 401;
  }
}
