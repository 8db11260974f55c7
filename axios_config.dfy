/**
  * The shared HTTP client: a module-level CSRF token cache, a request
  * interceptor that attaches the token to every request that is not a GET
  * and not aimed at the token endpoint, and a response interceptor that
  * refetches the token and resends a request once after a 403 (Forbidden,
  * section 15.5.4 of RFC 9110).
  *
  * The server is an oracle: the k-th call it receives is answered by a
  * function of k (and, for ordinary requests, of the request itself).
  */
module AxiosConfig {
  import opened Js

  const CsrfPath := "/csrf"
  const CsrfHeader := "x-csrf-token"

  /** A request config: `httpMethod` is its `method`, `retry` its `_retry` flag (unset meaning false). */
  datatype Request = Request(
    httpMethod: Option<string>,
    url: Option<string>,
    headers: map<string, string>,
    params: map<string, Value>,
    data: Value,
    retry: bool)

  datatype Response = Response(status: int, config: Request)

  /** A rejected request: the response status (None when no response came) and its config. */
  datatype AxiosError = AxiosError(status: Option<int>, config: Request)

  /** How the server answers `GET /csrf`: `{ token }`, or a failure. */
  datatype TokenReply = Issued(token: string) | TokenFailed(status: Option<int>)

  /** How the server answers any other request. */
  datatype Reply = Answered(status: int) | NoResponse

  datatype Server = Server(tokenReply: nat -> TokenReply, reply: (nat, Request) -> Reply)

  /** One call that reached the server. */
  datatype Call = FetchToken | Dispatch(request: Request)

  /** The token cache (`null` is None) and the calls made so far. */
  datatype ClientState = ClientState(csrfToken: Option<string>, calls: seq<Call>)

  /** The state after an operation and what the operation resolved or rejected with. */
  datatype Step<T> = Step(state: ClientState, result: Result<T, AxiosError>)

  /** The config of the `axiosInstance.get('/csrf')` call. */
  const CsrfRequest := Request(Some("get"), Some(CsrfPath), map[], map[], Undefined, false)

  /** `config.method?.toLowerCase() ?? ''` */
  function MethodName(req: Request): string {
    Lower(req.httpMethod.GetOr(""))
  }

  /** `config.url ?? ''` */
  function UrlOf(req: Request): string {
    req.url.GetOr("")
  }

  /** The request interceptor leaves these requests alone. */
  predicate IsExempt(req: Request) {
    MethodName(req) == "get" || EndsWith(UrlOf(req), CsrfPath)
  }

  /** `!!csrfToken` */
  predicate HasToken(token: Option<string>) {
    token.Some? && token.value != ""
  }

  function WithToken(req: Request, token: string): Request {
    req.(headers := req.headers[CsrfHeader := token])
  }

  /** The response interceptor's condition for a resend. */
  predicate ShouldRetry(err: AxiosError) {
    err.status == Some(403) && !err.config.retry && !EndsWith(UrlOf(err.config), CsrfPath)
  }

  /** Axios resolves 2xx statuses and rejects every other one. */
  predicate IsSuccess(status: int) {
    200 <= status < 300
  }

  function CountDispatches(calls: seq<Call>): nat {
    if calls == [] then 0
    else CountDispatches(calls[..|calls| - 1]) + (if calls[|calls| - 1].Dispatch? then 1 else 0)
  }

  function CountFetches(calls: seq<Call>): nat {
    if calls == [] then 0
    else CountFetches(calls[..|calls| - 1]) + (if calls[|calls| - 1].FetchToken? then 1 else 0)
  }

  // ---------------------------------------------------------------------
  // The interceptors as functions of the client state

  /** `fetchCsrfToken`: one `GET /csrf`; the cache is written only on success. */
  function FetchSpec(s: ClientState, server: Server): Step<string> {
    var calls := s.calls + [FetchToken];
    match server.tokenReply(|s.calls|)
    case Issued(token) => Step(ClientState(Some(token), calls), Ok(token))
    case TokenFailed(status) => Step(ClientState(s.csrfToken, calls), Err(AxiosError(status, CsrfRequest)))
  }

  /** The request interceptor. */
  function RequestSpec(s: ClientState, req: Request, server: Server): Step<Request> {
    if IsExempt(req) then Step(s, Ok(req))
    else if HasToken(s.csrfToken) then Step(s, Ok(WithToken(req, s.csrfToken.value)))
    else
      var fetched := FetchSpec(s, server);
      match fetched.result
      case Ok(token) => Step(fetched.state, Ok(WithToken(req, token)))
      case Err(e) => Step(fetched.state, Err(e))
  }

  /**
    * `axiosInstance(config)`: the request interceptor, then the call to the
    * server. A rejection of the request interceptor reaches the response
    * interceptor's error handler too.
    */
  function SendSpec(s: ClientState, req: Request, server: Server): Step<Response>
    decreases if req.retry then 0 else 1, 2
  {
    var intercepted := RequestSpec(s, req, server);
    match intercepted.result
    case Err(e) => OnErrorSpec(intercepted.state, e, server)
    case Ok(sent) => DispatchSpec(intercepted.state, sent, server)
  }

  /** The intercepted request reaches the server; a 2xx resolves, anything else goes to the error handler. */
  function DispatchSpec(s: ClientState, sent: Request, server: Server): Step<Response>
    decreases if sent.retry then 0 else 1, 1
  {
    var after := ClientState(s.csrfToken, s.calls + [Dispatch(sent)]);
    match server.reply(|s.calls|, sent)
    case Answered(status) =>
      if IsSuccess(status) then Step(after, Ok(Response(status, sent)))
      else OnErrorSpec(after, AxiosError(Some(status), sent), server)
    case NoResponse =>
      OnErrorSpec(after, AxiosError(None, sent), server)
  }

  /** The response interceptor's error handler. */
  function OnErrorSpec(s: ClientState, err: AxiosError, server: Server): Step<Response>
    decreases if ShouldRetry(err) then 1 else 0, 0
  {
    if ShouldRetry(err) then
      var original := err.config.(retry := true);
      var fetched := FetchSpec(s, server);
      match fetched.result
      case Ok(token) => SendSpec(fetched.state, WithToken(original, token), server)
      case Err(e) => Step(fetched.state, Err(e))
    else
      Step(s, Err(err))
  }

  // ---------------------------------------------------------------------
  // Properties of the interceptors

  /** GET requests, in any letter case, and calls to the token endpoint pass through untouched. */
  lemma ExemptPassesThrough(s: ClientState, req: Request, server: Server)
    requires MethodName(req) == "get" || EndsWith(UrlOf(req), CsrfPath)
    ensures IsExempt(req)
    ensures RequestSpec(s, req, server) == Step(s, Ok(req))
  {
  }

  /** HEAD, OPTIONS and a missing method are not exempt: only `get` is. */
  lemma SafeMethodsNeedToken(req: Request)
    requires req.httpMethod in {None, Some("HEAD"), Some("head"), Some("OPTIONS"), Some("options")}
    requires !EndsWith(UrlOf(req), CsrfPath)
    ensures !IsExempt(req)
  {
    var m := MethodName(req);
    assert m == "" || m[0] == 'h' || m[0] == 'o';
  }

  /**
    * Every other request leaves the interceptor carrying the cached token;
    * the token is fetched first exactly when the cache is falsy, and a
    * failed fetch rejects with the fetch's own error, cache unchanged.
    */
  lemma TokenAttached(s: ClientState, req: Request, server: Server)
    requires !IsExempt(req)
    ensures var r := RequestSpec(s, req, server);
      && r.state.calls == (if HasToken(s.csrfToken) then s.calls else s.calls + [FetchToken])
      && (HasToken(s.csrfToken) ==> r == Step(s, Ok(WithToken(req, s.csrfToken.value))))
      && (r.result.Ok? ==>
            r.state.csrfToken.Some? && r.result.value == WithToken(req, r.state.csrfToken.value)
            && CsrfHeader in r.result.value.headers
            && r.result.value.headers[CsrfHeader] == r.state.csrfToken.value)
      && (r.result.Err? ==> r.state.csrfToken == s.csrfToken && r.result.error.config == CsrfRequest)
  {
  }

  /**
    * For a URL built as a collection path ending in `/` followed by an id,
    * the `/csrf` suffix test holds exactly when the id is `csrf` or itself
    * ends in `/csrf`.
    */
  lemma ItemUrlEndsWithCsrf(prefix: string, id: string)
    requires |prefix| >= |CsrfPath| && prefix[|prefix| - 1] == '/'
    ensures EndsWith(prefix + id, CsrfPath) <==> id == "csrf" || EndsWith(id, CsrfPath)
  {
    var url := prefix + id;
    if |id| >= 5 {
      assert url[|url| - 5..] == id[|id| - 5..];
    } else if |id| == 4 {
      assert url[|url| - 5..] == ['/'] + id;
      assert (['/'] + id)[1..] == id;
    } else {
      assert url[|url| - 5..][4 - |id|] == '/';
      assert forall k :: 1 <= k < 5 ==> CsrfPath[k] != '/';
    }
  }

  /** A successful fetch stores the issued token; a failed one keeps the cache and rejects. */
  lemma FetchOutcome(s: ClientState, server: Server)
    ensures var f := FetchSpec(s, server);
      && f.state.calls == s.calls + [FetchToken]
      && (server.tokenReply(|s.calls|).Issued? ==>
            f.state.csrfToken == Some(server.tokenReply(|s.calls|).token)
            && f.result == Ok(server.tokenReply(|s.calls|).token))
      && (server.tokenReply(|s.calls|).TokenFailed? ==>
            f.state.csrfToken == s.csrfToken
            && f.result == Err(AxiosError(server.tokenReply(|s.calls|).status, CsrfRequest)))
  {
  }

  /** The token endpoint is never given a token and its failures are never retried. */
  lemma CsrfCallsNeverRetried(status: Option<int>)
    ensures IsExempt(CsrfRequest)
    ensures !ShouldRetry(AxiosError(status, CsrfRequest))
  {
    assert Lower("get") == "get";
  }

  /** Errors that do not qualify for a resend are rejected unchanged, with no call made. */
  lemma NonQualifyingRejected(s: ClientState, err: AxiosError, server: Server)
    requires !ShouldRetry(err)
    ensures OnErrorSpec(s, err, server) == Step(s, Err(err))
  {
  }

  /** When the request interceptor fails, the caller gets the fetch error and nothing is dispatched. */
  lemma RequestFailureSurfaces(s: ClientState, req: Request, server: Server)
    requires RequestSpec(s, req, server).result.Err?
    ensures SendSpec(s, req, server) == Step(RequestSpec(s, req, server).state, Err(RequestSpec(s, req, server).result.error))
    ensures CountDispatches(SendSpec(s, req, server).state.calls) == CountDispatches(s.calls)
  {
    var r := RequestSpec(s, req, server);
    CsrfCallsNeverRetried(r.result.error.status);
    if !IsExempt(req) {
      TokenAttached(s, req, server);
    }
    CountAppend(s.calls, FetchToken);
  }

  lemma CountAppend(calls: seq<Call>, c: Call)
    ensures CountDispatches(calls + [c]) == CountDispatches(calls) + (if c.Dispatch? then 1 else 0)
    ensures CountFetches(calls + [c]) == CountFetches(calls) + (if c.FetchToken? then 1 else 0)
  {
    assert (calls + [c])[..|calls|] == calls;
  }

  /**
    * The request interceptor makes at most one call (the token fetch), keeps
    * the `_retry` flag and URL of what it lets through, and its rejections
    * never qualify for a resend.
    */
  lemma RequestShape(s: ClientState, req: Request, server: Server)
    ensures var r := RequestSpec(s, req, server);
      && (r.state.calls == s.calls || r.state.calls == s.calls + [FetchToken])
      && CountDispatches(r.state.calls) == CountDispatches(s.calls)
      && (r.result.Ok? ==> r.result.value.retry == req.retry && UrlOf(r.result.value) == UrlOf(req))
      && (r.result.Err? ==> !ShouldRetry(r.result.error))
  {
    CountAppend(s.calls, FetchToken);
    var r := RequestSpec(s, req, server);
    if r.result.Err? {
      CsrfCallsNeverRetried(r.result.error.status);
      TokenAttached(s, req, server);
    }
  }

  /**
    * At most one resend per request: a request whose `_retry` flag is unset
    * reaches the server at most twice, one whose flag is set at most once;
    * calls are only ever appended.
    */
  lemma {:induction false} SendBound(s: ClientState, req: Request, server: Server)
    ensures var r := SendSpec(s, req, server);
      && |s.calls| <= |r.state.calls| && r.state.calls[..|s.calls|] == s.calls
      && CountDispatches(r.state.calls) <= CountDispatches(s.calls) + (if req.retry then 1 else 2)
    decreases if req.retry then 0 else 1, 2
  {
    var intercepted := RequestSpec(s, req, server);
    RequestShape(s, req, server);
    match intercepted.result
    case Err(e) =>
      NonQualifyingRejected(intercepted.state, e, server);
    case Ok(sent) =>
      DispatchBound(intercepted.state, sent, server);
  }

  lemma {:induction false} DispatchBound(s: ClientState, sent: Request, server: Server)
    ensures var r := DispatchSpec(s, sent, server);
      && |s.calls| <= |r.state.calls| && r.state.calls[..|s.calls|] == s.calls
      && CountDispatches(r.state.calls) <= CountDispatches(s.calls) + (if sent.retry then 1 else 2)
    decreases if sent.retry then 0 else 1, 1
  {
    var after := ClientState(s.csrfToken, s.calls + [Dispatch(sent)]);
    CountAppend(s.calls, Dispatch(sent));
    match server.reply(|s.calls|, sent)
    case Answered(status) =>
      if !IsSuccess(status) {
        ErrorBound(after, AxiosError(Some(status), sent), server);
      }
    case NoResponse =>
      ErrorBound(after, AxiosError(None, sent), server);
  }

  lemma {:induction false} ErrorBound(s: ClientState, err: AxiosError, server: Server)
    ensures var r := OnErrorSpec(s, err, server);
      && |s.calls| <= |r.state.calls| && r.state.calls[..|s.calls|] == s.calls
      && CountDispatches(r.state.calls) <= CountDispatches(s.calls) + (if ShouldRetry(err) then 1 else 0)
    decreases if ShouldRetry(err) then 1 else 0, 0
  {
    if ShouldRetry(err) {
      var fetched := FetchSpec(s, server);
      CountAppend(s.calls, FetchToken);
      if fetched.result.Ok? {
        var resent := WithToken(err.config.(retry := true), fetched.result.value);
        SendBound(fetched.state, resent, server);
      }
    }
  }

  /**
    * Against a server that accepts every request and issues tokens, a call
    * resolves with the response to the one request the interceptor sent.
    */
  lemma AcceptedPassesThrough(s: ClientState, req: Request, server: Server)
    requires forall i :: server.tokenReply(i).Issued?
    requires forall i, r :: server.reply(i, r).Answered? && IsSuccess(server.reply(i, r).status)
    ensures var r := SendSpec(s, req, server);
      && RequestSpec(s, req, server).result.Ok? && r.result.Ok?
      && r.result == Ok(Response(r.result.value.status, RequestSpec(s, req, server).result.value))
      && CountDispatches(r.state.calls) == CountDispatches(s.calls) + 1
  {
    var intercepted := RequestSpec(s, req, server);
    RequestShape(s, req, server);
    assert intercepted.result.Ok?;
    CountAppend(intercepted.state.calls, Dispatch(intercepted.result.value));
  }

  /**
    * A request refused with 403 twice surfaces the second refusal: the
    * request is sent twice, the resend is marked as retried and carries the
    * token fetched last.
    */
  lemma ForbiddenTwiceSurfaces(s: ClientState, req: Request, server: Server)
    requires forall i :: server.tokenReply(i).Issued?
    requires forall i, r :: server.reply(i, r) == Answered(403)
    requires !req.retry && !EndsWith(UrlOf(req), CsrfPath)
    ensures var r := SendSpec(s, req, server);
      && r.result.Err? && r.result.error.status == Some(403)
      && r.result.error.config.retry
      && r.state.csrfToken.Some?
      && CsrfHeader in r.result.error.config.headers
      && r.result.error.config.headers[CsrfHeader] == r.state.csrfToken.value
      && CountDispatches(r.state.calls) == CountDispatches(s.calls) + 2
  {
    var first := RequestSpec(s, req, server);
    RequestShape(s, req, server);
    assert first.result.Ok?;
    ForbiddenResent(first.state, first.result.value, server);
  }

  /**
    * A 403 to a request not yet retried: whatever the cache holds, a token
    * is fetched; once it is issued it is cached and the request is sent
    * again through the request interceptor, marked as retried and carrying
    * that token.
    */
  lemma ForbiddenRefetched(s: ClientState, sent: Request, server: Server)
    requires server.reply(|s.calls|, sent) == Answered(403)
    requires server.tokenReply(|s.calls| + 1).Issued?
    requires !sent.retry && !EndsWith(UrlOf(sent), CsrfPath)
    ensures var token := server.tokenReply(|s.calls| + 1).token;
      DispatchSpec(s, sent, server)
      == SendSpec(ClientState(Some(token), s.calls + [Dispatch(sent), FetchToken]),
                  WithToken(sent.(retry := true), token), server)
  {
    var after := ClientState(s.csrfToken, s.calls + [Dispatch(sent)]);
    var err := AxiosError(Some(403), sent);
    assert ShouldRetry(err);
    assert DispatchSpec(s, sent, server) == OnErrorSpec(after, err, server);
    assert after.calls + [FetchToken] == s.calls + [Dispatch(sent), FetchToken];
  }

  /**
    * A 403 to a request not yet retried, and the token fetch that follows
    * fails: the caller gets the fetch's error in place of the 403, the
    * request is not sent again and the cache keeps what it held.
    */
  lemma RefetchFailed(s: ClientState, sent: Request, server: Server)
    requires server.reply(|s.calls|, sent) == Answered(403)
    requires server.tokenReply(|s.calls| + 1).TokenFailed?
    requires !sent.retry && !EndsWith(UrlOf(sent), CsrfPath)
    ensures DispatchSpec(s, sent, server)
      == Step(ClientState(s.csrfToken, s.calls + [Dispatch(sent), FetchToken]),
              Err(AxiosError(server.tokenReply(|s.calls| + 1).status, CsrfRequest)))
  {
    var after := ClientState(s.csrfToken, s.calls + [Dispatch(sent)]);
    var err := AxiosError(Some(403), sent);
    assert ShouldRetry(err);
    assert DispatchSpec(s, sent, server) == OnErrorSpec(after, err, server);
    assert after.calls + [FetchToken] == s.calls + [Dispatch(sent), FetchToken];
  }

  /** The first refusal of a request not yet retried: a fresh token, then one resend, which is refused too. */
  lemma ForbiddenResent(s: ClientState, sent: Request, server: Server)
    requires forall i :: server.tokenReply(i).Issued?
    requires forall i, r :: server.reply(i, r) == Answered(403)
    requires !sent.retry && !EndsWith(UrlOf(sent), CsrfPath)
    ensures var r := DispatchSpec(s, sent, server);
      && r.result.Err? && r.result.error.status == Some(403)
      && r.result.error.config.retry
      && r.state.csrfToken.Some?
      && CsrfHeader in r.result.error.config.headers
      && r.result.error.config.headers[CsrfHeader] == r.state.csrfToken.value
      && CountDispatches(r.state.calls) == CountDispatches(s.calls) + 2
  {
    ForbiddenRefetched(s, sent, server);
    var token := server.tokenReply(|s.calls| + 1).token;
    var refetched := ClientState(Some(token), s.calls + [Dispatch(sent), FetchToken]);
    CountAppend(s.calls, Dispatch(sent));
    CountAppend(s.calls + [Dispatch(sent)], FetchToken);
    assert s.calls + [Dispatch(sent)] + [FetchToken] == refetched.calls;
    ResendForbidden(refetched, WithToken(sent.(retry := true), token), server);
  }

  /** The resend of a refused request is refused in turn and rejected as it stands. */
  lemma ResendForbidden(s: ClientState, req: Request, server: Server)
    requires forall i :: server.tokenReply(i).Issued?
    requires forall i, r :: server.reply(i, r) == Answered(403)
    requires req.retry && s.csrfToken.Some?
    requires CsrfHeader in req.headers && req.headers[CsrfHeader] == s.csrfToken.value
    ensures var r := SendSpec(s, req, server);
      && r.result.Err? && r.result.error.status == Some(403)
      && r.result.error.config.retry
      && r.state.csrfToken.Some?
      && CsrfHeader in r.result.error.config.headers
      && r.result.error.config.headers[CsrfHeader] == r.state.csrfToken.value
      && CountDispatches(r.state.calls) == CountDispatches(s.calls) + 1
  {
    var second := RequestSpec(s, req, server);
    CountAppend(s.calls, FetchToken);
    var sent := second.result.value;
    assert sent.retry;
    assert CsrfHeader in sent.headers && sent.headers[CsrfHeader] == second.state.csrfToken.value;
    assert SendSpec(s, req, server) == DispatchSpec(second.state, sent, server);
    var after := ClientState(second.state.csrfToken, second.state.calls + [Dispatch(sent)]);
    assert DispatchSpec(second.state, sent, server) == OnErrorSpec(after, AxiosError(Some(403), sent), server);
    CountAppend(second.state.calls, Dispatch(sent));
  }

  /**
    * When the token fetch after a 403 fails, the caller gets the fetch's
    * error instead of the 403, and the cached token is left as it was.
    */
  lemma RefetchFailureSurfaces(s: ClientState, req: Request, server: Server)
    requires HasToken(s.csrfToken)
    requires forall i :: server.tokenReply(i).TokenFailed?
    requires forall i, r :: server.reply(i, r) == Answered(403)
    requires !req.retry && !EndsWith(UrlOf(req), CsrfPath)
    ensures var r := SendSpec(s, req, server);
      && r.result.Err? && r.result.error.config == CsrfRequest
      && r.state.csrfToken == s.csrfToken
      && CountDispatches(r.state.calls) == CountDispatches(s.calls) + 1
      && CountFetches(r.state.calls) == CountFetches(s.calls) + 1
  {
    var first := RequestSpec(s, req, server);
    assert first.state == s;
    var sent := first.result.value;
    assert SendSpec(s, req, server) == DispatchSpec(s, sent, server);
    RefetchFailed(s, sent, server);
    CountAppend(s.calls, Dispatch(sent));
    CountAppend(s.calls + [Dispatch(sent)], FetchToken);
    assert s.calls + [Dispatch(sent)] + [FetchToken] == s.calls + [Dispatch(sent), FetchToken];
  }

  // ---------------------------------------------------------------------
  // The client, with the token cache as a field

  class ApiClient {
    var csrfToken: Option<string>
    var calls: seq<Call>
    const server: Server

    constructor (server: Server)
      ensures csrfToken == None && calls == [] && this.server == server
    {
      csrfToken := None;
      calls := [];
      this.server := server;
    }

    function State(): ClientState
      reads this
    {
      ClientState(csrfToken, calls)
    }

    method FetchCsrfToken() returns (r: Result<string, AxiosError>)
      modifies this
      ensures Step(State(), r) == FetchSpec(old(State()), server)
    {
      var reply := server.tokenReply(|calls|);
      calls := calls + [FetchToken];
      match reply {
        case Issued(token) =>
          csrfToken := Some(token);
          r := Ok(token);
        case TokenFailed(status) =>
          r := Err(AxiosError(status, CsrfRequest));
      }
    }

    method InterceptRequest(config: Request) returns (r: Result<Request, AxiosError>)
      modifies this
      ensures Step(State(), r) == RequestSpec(old(State()), config, server)
    {
      if IsExempt(config) {
        return Ok(config);
      }
      if !HasToken(csrfToken) {
        var fetched := FetchCsrfToken();
        if fetched.Err? {
          return Err(fetched.error);
        }
      }
      r := Ok(WithToken(config, csrfToken.value));
    }

    method Send(config: Request) returns (r: Result<Response, AxiosError>)
      modifies this
      ensures Step(State(), r) == SendSpec(old(State()), config, server)
      decreases if config.retry then 0 else 1, 1
    {
      var intercepted := InterceptRequest(config);
      if intercepted.Err? {
        r := OnResponseError(intercepted.error);
        return;
      }
      var sent := intercepted.value;
      var reply := server.reply(|calls|, sent);
      calls := calls + [Dispatch(sent)];
      match reply {
        case Answered(status) =>
          if IsSuccess(status) {
            r := Ok(Response(status, sent));
          } else {
            r := OnResponseError(AxiosError(Some(status), sent));
          }
        case NoResponse =>
          r := OnResponseError(AxiosError(None, sent));
      }
    }

    method OnResponseError(err: AxiosError) returns (r: Result<Response, AxiosError>)
      modifies this
      ensures Step(State(), r) == OnErrorSpec(old(State()), err, server)
      decreases if ShouldRetry(err) then 1 else 0, 0
    {
      if !ShouldRetry(err) {
        return Err(err);
      }
      var original := err.config.(retry := true);
      var fetched := FetchCsrfToken();
      if fetched.Err? {
        return Err(fetched.error);
      }
      r := Send(WithToken(original, fetched.value));
    }
  }
}
