/**
 * `fetchServer`, the server-side request helper: how it builds the request
 * (URL, headers, cache mode) from the environment, the `access_token`
 * cookie and the caller's options, and what it returns for a response.
 * The cookie store, the environment and `fetch` itself are parameters.
 */
module ApiServer {
  import opened Options
  import opened Text

  const DEFAULT_API_URL := "http://localhost:8000/api/v1"
  const API_SUFFIX := "/api/v1"
  const COOKIE_NAME := "access_token"
  const JSON_CONTENT_TYPE := "application/json"
  const NO_STORE := "no-store"

  /** The two environment variables; an unset variable is "" (both are falsy). */
  datatype Env = Env(backendUrl: string, apiUrl: string)

  /** The caller's `RequestInit`: its headers, its cache mode, and every other option, passed through untouched. */
  datatype RequestInit = RequestInit(headers: map<string, string>, cache: Option<string>, rest: map<string, string>)

  /** What is handed to `fetch`. */
  datatype Request = Request(url: string, headers: map<string, string>, cache: string, rest: map<string, string>)

  // ---------------------------------------------------------------------
  // The parts of the request
  // ---------------------------------------------------------------------

  /** The `Cookie` header: the token forwarded under its own name when the cookie exists, "" otherwise. */
  function CookieHeader(token: Option<string>): (header: string)
    ensures token.None? ==> header == ""
    ensures token.Some? ==> StartsWith(header, COOKIE_NAME + "=") && header[|COOKIE_NAME| + 1..] == token.value
  {
    if token.Some? then COOKIE_NAME + "=" + token.value else ""
  }

  /** The endpoint with a leading slash. */
  function CleanEndpoint(endpoint: string): (clean: string)
    ensures StartsWith(clean, "/")
    ensures StartsWith(endpoint, "/") ==> clean == endpoint
    ensures !StartsWith(endpoint, "/") ==> clean[1..] == endpoint
  {
    if StartsWith(endpoint, "/") then endpoint else "/" + endpoint
  }

  /** The base URL: the backend URL with "/api/v1" if set, else the API URL if set, else the local default. */
  function ApiBase(env: Env): (base: string)
    ensures base != ""
    ensures env.backendUrl != "" ==> base == env.backendUrl + API_SUFFIX
    ensures env.backendUrl == "" && env.apiUrl != "" ==> base == env.apiUrl
    ensures env.backendUrl == "" && env.apiUrl == "" ==> base == DEFAULT_API_URL
  {
    if env.backendUrl != "" then env.backendUrl + API_SUFFIX
    else if env.apiUrl != "" then env.apiUrl
    else DEFAULT_API_URL
  }

  /** The caller's headers with `Cookie` and `Content-Type` laid over them. */
  function MergeHeaders(caller: map<string, string>, cookie: string): (headers: map<string, string>)
    ensures headers.Keys == caller.Keys + {"Cookie", "Content-Type"}
    ensures headers["Cookie"] == cookie && headers["Content-Type"] == JSON_CONTENT_TYPE
    ensures forall k | k in caller && k != "Cookie" && k != "Content-Type" :: headers[k] == caller[k]
  {
    caller["Cookie" := cookie]["Content-Type" := JSON_CONTENT_TYPE]
  }

  /** `options.cache || 'no-store'`. */
  function CacheMode(cache: Option<string>): (mode: string)
    ensures mode != ""
    ensures cache.Some? && cache.value != "" ==> mode == cache.value
    ensures cache.None? || cache.value == "" ==> mode == NO_STORE
  {
    if cache.Some? && cache.value != "" then cache.value else NO_STORE
  }

  /** The request `fetchServer` sends. */
  function BuildRequest(env: Env, token: Option<string>, endpoint: string, options: RequestInit): (req: Request)
    ensures req.url == ApiBase(env) + CleanEndpoint(endpoint)
    ensures req.headers == MergeHeaders(options.headers, CookieHeader(token))
    ensures req.cache == CacheMode(options.cache)
    ensures req.rest == options.rest
  {
    Request(ApiBase(env) + CleanEndpoint(endpoint),
            MergeHeaders(options.headers, CookieHeader(token)),
            CacheMode(options.cache),
            options.rest)
  }

  /** `res.ok`: a status in 200–299. */
  predicate IsOk(status: int) {
    200 <= status <= 299
  }

  /** The result for a response with the given status whose body parses to `body`. */
  function HandleResponse<T>(status: int, body: T): (result: Option<T>)
    ensures result.Some? <==> IsOk(status)
    ensures result.Some? ==> result.value == body
  {
    if !IsOk(status) then
      // 401 and every other failure alike: null, nothing thrown
      None
    else Some(body)
  }

  // ---------------------------------------------------------------------
  // Properties
  // ---------------------------------------------------------------------

  /** Normalising twice is normalising once, and the two spellings of an endpoint reach the same URL. */
  lemma CleanEndpointIdempotent(endpoint: string)
    ensures CleanEndpoint(CleanEndpoint(endpoint)) == CleanEndpoint(endpoint)
    ensures !StartsWith(endpoint, "/") ==> CleanEndpoint("/" + endpoint) == CleanEndpoint(endpoint)
  {
    if !StartsWith(endpoint, "/") {
      assert StartsWith("/" + endpoint, "/");
    }
  }

  /** Normalisation never loses the endpoint: it is the clean form, or the clean form without its slash. */
  lemma CleanEndpointKeepsPath(endpoint: string)
    ensures CleanEndpoint(endpoint) == endpoint || CleanEndpoint(endpoint) == "/" + endpoint
  {
    var clean := CleanEndpoint(endpoint);
    if !StartsWith(endpoint, "/") {
      assert clean == [clean[0]] + clean[1..];
    }
  }

  /** The URL is the base followed by the endpoint, so two requests with the same base differ exactly when their clean endpoints do. */
  lemma RequestUrlIdentifiesEndpoint(env: Env, e1: string, e2: string, t1: Option<string>, t2: Option<string>, o1: RequestInit, o2: RequestInit)
    ensures BuildRequest(env, t1, e1, o1).url == BuildRequest(env, t2, e2, o2).url <==> CleanEndpoint(e1) == CleanEndpoint(e2)
  {
    var b := ApiBase(env);
    if b + CleanEndpoint(e1) == b + CleanEndpoint(e2) {
      AppendCancel(b, CleanEndpoint(e1), CleanEndpoint(e2));
    }
  }

  /** The caller cannot change `Cookie` or `Content-Type`: their own values for those two names are discarded. */
  lemma CallerCannotOverrideFixedHeaders(caller: map<string, string>, cookie: string)
    ensures MergeHeaders(caller, cookie) == MergeHeaders(caller - {"Cookie", "Content-Type"}, cookie)
  {
  }

  /** Whatever the caller passes, an absent cookie is forwarded as an empty `Cookie` header, never omitted. */
  lemma CookieHeaderAlwaysSent(token: Option<string>, options: RequestInit, env: Env, endpoint: string)
    ensures var req := BuildRequest(env, token, endpoint, options);
      "Cookie" in req.headers && (req.headers["Cookie"] == "" <==> token.None?)
  {
  }

  /** With neither variable set, "users/me" is fetched from the local default. */
  lemma DefaultUserRequest()
    ensures BuildRequest(Env("", ""), None, "users/me", RequestInit(map[], None, map[])).url
      == "http://localhost:8000/api/v1/users/me"
  {
    var e := "users/me";
    assert !StartsWith(e, "/") by {
      assert e[..1][0] == e[0] == 'u';
    }
    assert CleanEndpoint(e) == "/" + e;
  }

  /** An unauthorized reply and a server error both come back as null. */
  lemma FailuresAreNull<T>(body: T)
    ensures HandleResponse(401, body) == None && HandleResponse(500, body) == None
    ensures HandleResponse(200, body) == Some(body)
  {
  }
}
