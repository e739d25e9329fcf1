/** The HTTP side of the app's dependency-injection module: which Retrofit
    clients install the bearer-token interceptor and which base URL each
    one talks to. The token is what the preference store holds when the
    request leaves (its blocking read is not modelled); logging never
    changes a request. */
module AppModule {
  import opened Results

  type Header = (string, string)

  /** An outgoing OkHttp request: its URL and its headers in order. */
  datatype Request = Request(url: string, headers: seq<Header>)

  const AUTHORIZATION: string := "Authorization"
  const BEARER_PREFIX: string := "Bearer "

  /** `authInterceptor`: a non-empty token is appended as an
      `Authorization: Bearer <token>` header; an empty token (logged out)
      forwards the request untouched. */
  function AuthInterceptor(original: Request, token: string): (r: Request)
    ensures r.url == original.url
    ensures original.headers <= r.headers
    ensures |r.headers| == |original.headers| + (if token == "" then 0 else 1)
    ensures token == "" ==> r == original
    ensures token != "" ==> r.headers[|original.headers|].0 == AUTHORIZATION
                            && BearerToken(r.headers[|original.headers|].1) == Some(token)
  {
    if token != "" then Request(original.url, original.headers + [(AUTHORIZATION, BEARER_PREFIX + token)])
    else original
  }

  /** Reading a bearer header back: the text after "Bearer ", if the value
      has that prefix and something after it. */
  function BearerToken(value: string): (t: Option<string>)
    ensures t.Some? ==> BEARER_PREFIX + t.value == value && t.value != ""
    ensures t.None? ==> !(BEARER_PREFIX <= value) || value == BEARER_PREFIX
  {
    if BEARER_PREFIX <= value && |value| > |BEARER_PREFIX| then Some(value[|BEARER_PREFIX|..]) else None
  }

  /** The header value the interceptor writes round-trips to the token. */
  lemma BearerRoundTrip(token: string)
    requires token != ""
    ensures BearerToken(BEARER_PREFIX + token) == Some(token)
  {
    assert (BEARER_PREFIX + token)[|BEARER_PREFIX|..] == token;
  }

  /** The interceptors an OkHttp client runs, in installation order. */
  datatype Interceptor = Logging | BearerAuth

  function Intercept(i: Interceptor, req: Request, token: string): (r: Request)
    ensures i.Logging? ==> r == req
  {
    match i
    case Logging => req
    case BearerAuth => AuthInterceptor(req, token)
  }

  /** The request that reaches the network after every interceptor of the
      chain has run. */
  function Forward(chain: seq<Interceptor>, req: Request, token: string): Request
    decreases |chain|
  {
    if chain == [] then req else Forward(chain[1..], Intercept(chain[0], req, token), token)
  }

  /** The seven API clients the module provides. */
  datatype ApiClient = NoteApi | UserApi | AnalysisApi | AuthApi | PsychologistApi | MidtransApi | GeminiApi

  /** The clients built with the token interceptor. */
  predicate SendsToken(c: ApiClient) {
    c.NoteApi? || c.UserApi? || c.AnalysisApi?
  }

  /** The OkHttp interceptor chain each provider installs: logging first,
      then the token interceptor for the note, user and analysis clients. */
  function Interceptors(c: ApiClient): (chain: seq<Interceptor>)
    ensures |chain| >= 1 && chain[0] == Logging
    ensures BearerAuth in chain <==> SendsToken(c)
  {
    if SendsToken(c) then [Logging, BearerAuth] else [Logging]
  }

  datatype BaseUrl = BASE_URL | GEMINI_BASE_URL

  /** The Retrofit base URL of each client. */
  function BaseUrlOf(c: ApiClient): (u: BaseUrl)
    ensures u == GEMINI_BASE_URL <==> c == GeminiApi
  {
    if c.GeminiApi? then GEMINI_BASE_URL else BASE_URL
  }

  /** A client's request as it leaves the device. */
  function Send(c: ApiClient, req: Request, token: string): Request {
    Forward(Interceptors(c), req, token)
  }

  /** How many Authorization headers a header list carries. */
  function AuthorizationCount(headers: seq<Header>): (n: nat)
    ensures n <= |headers|
  {
    if headers == [] then 0
    else AuthorizationCount(headers[..|headers| - 1]) + (if headers[|headers| - 1].0 == AUTHORIZATION then 1 else 0)
  }

  function TokenInterceptorCount(chain: seq<Interceptor>): nat {
    if chain == [] then 0 else (if chain[0].BearerAuth? then 1 else 0) + TokenInterceptorCount(chain[1..])
  }

  lemma AuthorizationCountAppend(headers: seq<Header>, h: Header)
    ensures AuthorizationCount(headers + [h]) == AuthorizationCount(headers) + (if h.0 == AUTHORIZATION then 1 else 0)
  {
    assert (headers + [h])[..|headers|] == headers;
  }

  /** Running a chain keeps the URL and the original headers, and adds one
      Authorization header per token interceptor when the token is
      non-empty, and none otherwise. */
  lemma {:induction false} ForwardAddsAuthorization(chain: seq<Interceptor>, req: Request, token: string)
    ensures Forward(chain, req, token).url == req.url
    ensures req.headers <= Forward(chain, req, token).headers
    ensures AuthorizationCount(Forward(chain, req, token).headers)
            == AuthorizationCount(req.headers) + (if token == "" then 0 else TokenInterceptorCount(chain))
    ensures token == "" ==> Forward(chain, req, token) == req
    decreases |chain|
  {
    if chain != [] {
      var next := Intercept(chain[0], req, token);
      if chain[0].BearerAuth? && token != "" {
        AuthorizationCountAppend(req.headers, (AUTHORIZATION, BEARER_PREFIX + token));
      }
      ForwardAddsAuthorization(chain[1..], next, token);
    }
  }

  /** A request sent by any client carries exactly one more Authorization
      header than it was built with when the client is the note, user or
      analysis client and a token is stored, and otherwise none; the URL
      and the caller's own headers always go out unchanged. */
  lemma SendAttachesTokenOnlyForAuthenticatedClients(c: ApiClient, req: Request, token: string)
    ensures Send(c, req, token).url == req.url
    ensures req.headers <= Send(c, req, token).headers
    ensures AuthorizationCount(Send(c, req, token).headers)
            == AuthorizationCount(req.headers) + (if SendsToken(c) && token != "" then 1 else 0)
    ensures !SendsToken(c) || token == "" ==> Send(c, req, token) == req
    ensures SendsToken(c) && token != ""
            ==> Send(c, req, token).headers == req.headers + [(AUTHORIZATION, BEARER_PREFIX + token)]
  {
    var chain := Interceptors(c);
    ForwardAddsAuthorization(chain, req, token);
    if SendsToken(c) {
      assert chain[1..] == [BearerAuth] && chain[1..][1..] == [];
      assert TokenInterceptorCount(chain[1..][1..]) == 0;
      assert TokenInterceptorCount(chain[1..]) == 1;
      assert TokenInterceptorCount(chain) == 1;
      assert Send(c, req, token) == Forward([BearerAuth], req, token);
      assert Send(c, req, token) == AuthInterceptor(req, token);
    } else {
      assert chain[1..] == [];
      assert TokenInterceptorCount(chain) == 0;
      assert Send(c, req, token) == req;
    }
  }
}
