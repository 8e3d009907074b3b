/** `HttpService`: the request pipeline of the shared axios instance.
    The network is the parameter `exchange`, from the outgoing request to the
    server's answer or the error axios rejects with. Request and response
    bodies are JSON text and are not interpreted. */
module HttpClient {
  import opened Wrappers
  import opened Browser
  import opened ErrorHandling
  import Authentication

  datatype Verb = Get | Post | Put | Delete

  /** The parts of an axios request config the core touches. */
  datatype RequestConfig = RequestConfig(verb: Verb, url: string, body: Option<string>, headers: map<string, string>)

  datatype AxiosResponse = AxiosResponse(data: string, status: int, statusText: string, headers: map<string, string>)

  /** `HttpResponse`: what the four verbs hand back on success. */
  datatype HttpResponse = HttpResponse(data: string, status: int, statusText: string)

  type Exchange = RequestConfig -> Result<AxiosResponse, ApiError>

  const AuthorizationHeader := "Authorization"

  /** The headers the instance is created with. */
  const DefaultHeaders: map<string, string> := map["Content-Type" := "application/json"]

  /** What reading `localStorage` without a window throws. */
  const NoStorageError := ApiError("localStorage is not defined", None)

  /** The request interceptor's header merge: with a non-empty token the
      headers gain `Authorization: Bearer <token>` and keep every other
      entry; with an empty token the config is returned as it came. Only the
      headers ever change. */
  function Authorize(config: RequestConfig, token: string): (r: RequestConfig)
    ensures r.(headers := config.headers) == config
    ensures token == "" ==> r == config
    ensures token != "" ==> AuthorizationHeader in r.headers && r.headers[AuthorizationHeader] == "Bearer " + token
    ensures token != "" ==> r.headers.Keys == config.headers.Keys + {AuthorizationHeader}
    ensures forall k :: k in config.headers && k != AuthorizationHeader ==> k in r.headers && r.headers[k] == config.headers[k]
  {
    if token != "" then
      config.(headers := config.headers + map[AuthorizationHeader := "Bearer " + token])
    else config
  }

  /** Interception is idempotent: a config already carrying the bearer
      header is not changed by a second pass. */
  lemma AuthorizeIdempotent(config: RequestConfig, token: string)
    ensures Authorize(Authorize(config, token), token) == Authorize(config, token)
  {
    var once := Authorize(config, token);
    if token != "" {
      assert once.headers + map[AuthorizationHeader := "Bearer " + token] == once.headers;
    }
  }

  /** axios merges the instance defaults under the call's own headers
      before the interceptors run. */
  function Prepared(verb: Verb, url: string, body: Option<string>, headers: map<string, string>): (c: RequestConfig) {
    RequestConfig(verb, url, body, DefaultHeaders + headers)
  }

  /** The request a call puts on the wire when the stored token is `token`:
      JSON content type unless the caller overrides it, the bearer header
      exactly when there is a token, and the caller's other headers. */
  lemma OutgoingHeaders(verb: Verb, url: string, body: Option<string>, headers: map<string, string>, token: string)
    ensures var out := Authorize(Prepared(verb, url, body, headers), token);
      && out.verb == verb && out.url == url && out.body == body
      && ("Content-Type" !in headers ==> out.headers["Content-Type"] == "application/json")
      && (token != "" ==> out.headers[AuthorizationHeader] == "Bearer " + token)
      && (token == "" ==> (AuthorizationHeader in out.headers <==> AuthorizationHeader in headers))
      && (forall k :: k in headers && k != AuthorizationHeader ==> out.headers[k] == headers[k])
  {
  }

  /** `{data, status, statusText}` copied from the axios response. */
  function Repackage(resp: AxiosResponse): (r: HttpResponse)
    ensures r.data == resp.data && r.status == resp.status && r.statusText == resp.statusText
  {
    HttpResponse(resp.data, resp.status, resp.statusText)
  }

  /** What a call returns: the repackaged response, or the very error the
      request failed with (no retry). A token read that throws fails the
      request with that error before anything is sent. */
  function CallResult(hasWindow: bool, items: map<string, string>, exchange: Exchange,
                      verb: Verb, url: string, body: Option<string>, headers: map<string, string>)
    : (r: Result<HttpResponse, ApiError>)
  {
    if !hasWindow then Err(NoStorageError)
    else
      match exchange(Authorize(Prepared(verb, url, body, headers), StoredToken(items)))
      case Ok(resp) => Ok(Repackage(resp))
      case Err(e) => Err(e)
  }

  class HttpService {
    const auth: Authentication.AuthService
    const errorService: ErrorService

    constructor (auth: Authentication.AuthService, errorService: ErrorService)
      ensures this.auth == auth && this.errorService == errorService
    {
      this.auth := auth;
      this.errorService := errorService;
    }

    /** The request interceptor: reads the token through `getToken` on
        every request and merges the bearer header. */
    method InterceptRequest(config: RequestConfig) returns (r: Result<RequestConfig, ApiError>)
      ensures auth.storage.hasWindow ==> r == Ok(Authorize(config, StoredToken(auth.storage.items)))
      ensures !auth.storage.hasWindow ==> r == Err(NoStorageError)
    {
      var token := auth.GetToken();
      if token.None? {
        return Err(NoStorageError);
      }
      r := Ok(Authorize(config, token.value));
    }

    /** The response-error interceptor: reports the error exactly once,
        then rejects with the very same error. */
    method InterceptResponseError(e: ApiError) returns (rejected: ApiError)
      modifies errorService, errorService.toast
      ensures rejected == e
      ensures HandledOnce(errorService, e)
    {
      errorService.ErrorHandler(e);
      rejected := e;
    }

    /** One call through the instance: defaults, request interceptor, the
        network, then the response interceptors. A failure is reported once
        and comes back unchanged; a success reports nothing. */
    method Send(verb: Verb, url: string, body: Option<string>, headers: map<string, string>, exchange: Exchange)
        returns (r: Result<HttpResponse, ApiError>)
      modifies errorService, errorService.toast
      ensures r == CallResult(auth.storage.hasWindow, auth.storage.items, exchange, verb, url, body, headers)
      ensures r.Ok? ==> Untouched(errorService)
      ensures r.Err? ==> HandledOnce(errorService, r.error)
    {
      var config := Prepared(verb, url, body, headers);
      var intercepted := InterceptRequest(config);
      var answer: Result<AxiosResponse, ApiError>;
      if intercepted.Err? {
        answer := Err(intercepted.error);
      } else {
        answer := exchange(intercepted.value);
      }
      match answer {
        case Ok(resp) =>
          r := Ok(Repackage(resp));
        case Err(e) =>
          var rejected := InterceptResponseError(e);
          r := Err(rejected);
      }
    }

    method Get(url: string, headers: map<string, string>, exchange: Exchange) returns (r: Result<HttpResponse, ApiError>)
      modifies errorService, errorService.toast
      ensures r == CallResult(auth.storage.hasWindow, auth.storage.items, exchange, Verb.Get, url, None, headers)
      ensures r.Ok? ==> Untouched(errorService)
      ensures r.Err? ==> HandledOnce(errorService, r.error)
    {
      r := Send(Verb.Get, url, None, headers, exchange);
    }

    method Post(url: string, body: Option<string>, headers: map<string, string>, exchange: Exchange) returns (r: Result<HttpResponse, ApiError>)
      modifies errorService, errorService.toast
      ensures r == CallResult(auth.storage.hasWindow, auth.storage.items, exchange, Verb.Post, url, body, headers)
      ensures r.Ok? ==> Untouched(errorService)
      ensures r.Err? ==> HandledOnce(errorService, r.error)
    {
      r := Send(Verb.Post, url, body, headers, exchange);
    }

    method Put(url: string, body: Option<string>, headers: map<string, string>, exchange: Exchange) returns (r: Result<HttpResponse, ApiError>)
      modifies errorService, errorService.toast
      ensures r == CallResult(auth.storage.hasWindow, auth.storage.items, exchange, Verb.Put, url, body, headers)
      ensures r.Ok? ==> Untouched(errorService)
      ensures r.Err? ==> HandledOnce(errorService, r.error)
    {
      r := Send(Verb.Put, url, body, headers, exchange);
    }

    method Delete(url: string, headers: map<string, string>, exchange: Exchange) returns (r: Result<HttpResponse, ApiError>)
      modifies errorService, errorService.toast
      ensures r == CallResult(auth.storage.hasWindow, auth.storage.items, exchange, Verb.Delete, url, None, headers)
      ensures r.Ok? ==> Untouched(errorService)
      ensures r.Err? ==> HandledOnce(errorService, r.error)
    {
      r := Send(Verb.Delete, url, None, headers, exchange);
    }
  }
}
