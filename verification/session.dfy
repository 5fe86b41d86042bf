/** The shared HTTP client's two interceptors: the request interceptor that
    attaches the stored session token, and the response interceptor that
    ends an expired session on a 401. The browser's token store
    (`localStorage`) and location (`window.location`) are the two fields of
    class Browser. */
module Session {
  import opened Base

  const AuthorizationHeader := "Authorization"
  const LoginPath := "/login"

  /** The stored token is usable when it is present, non-empty and not one of
      the strings `"undefined"` / `"null"` that storing a missing value leaves
      behind. */
  predicate UsableToken(token: Option<string>): (b: bool)
    ensures b <==> token.Some? && token.value !in {"", "undefined", "null"}
  {
    Truthy(token) && token.value != "undefined" && token.value != "null"
  }

  /** The headers of an outgoing request once the request interceptor ran. */
  function WithAuthorization(headers: map<string, string>, token: Option<string>): (h: map<string, string>)
    ensures UsableToken(token) ==> AuthorizationHeader in h && h[AuthorizationHeader] == token.value
    ensures !UsableToken(token) ==> h == headers
    ensures forall k :: k != AuthorizationHeader ==> (k in h <==> k in headers)
    ensures forall k :: k != AuthorizationHeader && k in headers ==> h[k] == headers[k]
  {
    if UsableToken(token) then headers[AuthorizationHeader := token.value] else headers
  }

  /** The part of an axios request configuration the interceptor sees. */
  class RequestConfig {
    var url: string
    var headers: map<string, string>

    constructor (url: string, headers: map<string, string>)
      ensures this.url == url && this.headers == headers
    {
      this.url := url;
      this.headers := headers;
    }
  }

  datatype HttpResponse = HttpResponse(status: int)

  /** A rejected request: with the server's response, or without one when
      the request never got an answer. */
  datatype HttpError = HttpError(response: Option<HttpResponse>)

  /** What a request settles to before the response interceptor runs. */
  datatype HttpOutcome = Resolved(response: HttpResponse) | Rejected(error: HttpError)

  predicate IsUnauthorized(o: HttpOutcome)
  {
    o.Rejected? && o.error.response.Some? && o.error.response.value.status == 401
  }

  /** The views where a 401 does not end the session. */
  predicate ExemptPath(path: string)
  {
    StartsWith(path, "/login") || StartsWith(path, "/register") || path == "/"
  }

  /** The response interceptor's decision to clear the token and leave for
      the login page. */
  function ForcesLogout(o: HttpOutcome, path: string): (b: bool)
    ensures b <==> IsUnauthorized(o) && !ExemptPath(path)
  {
    match o
    case Resolved(_) => false
    case Rejected(e) =>
      e.response.Some? && e.response.value.status == 401 &&
      !StartsWith(path, "/login") && !StartsWith(path, "/register") && path != "/"
  }

  /** The token store and the location pathname. */
  datatype Store = Store(token: Option<string>, path: string)

  /** The store after the response interceptor handled one outcome. */
  function AfterResponse(s: Store, o: HttpOutcome): (t: Store)
    ensures ForcesLogout(o, s.path) ==> t == Store(None, LoginPath)
    ensures !ForcesLogout(o, s.path) ==> t == s
  {
    if ForcesLogout(o, s.path) then Store(None, LoginPath) else s
  }

  /** Leaving for the login page lands on a path where 401s are ignored. */
  lemma LoginPathIsExempt(o: HttpOutcome)
    ensures !ForcesLogout(o, LoginPath)
  {
    assert StartsWith(LoginPath, "/login");
  }

  /** A second 401 right after a forced logout changes nothing. */
  lemma SecondUnauthorizedIsInert(s: Store, o1: HttpOutcome, o2: HttpOutcome)
    requires ForcesLogout(o1, s.path)
    ensures AfterResponse(AfterResponse(s, o1), o2) == AfterResponse(s, o1)
  {
    LoginPathIsExempt(o2);
  }

  /** The store after a series of outcomes with no navigation in between. */
  function AfterResponses(s: Store, os: seq<HttpOutcome>): Store
    decreases |os|
  {
    if os == [] then s else AfterResponses(AfterResponse(s, os[0]), os[1..])
  }

  /** How many of those outcomes cleared the token and redirected. */
  function Logouts(s: Store, os: seq<HttpOutcome>): nat
    decreases |os|
  {
    if os == [] then 0
    else (if ForcesLogout(os[0], s.path) then 1 else 0) + Logouts(AfterResponse(s, os[0]), os[1..])
  }

  lemma {:induction false} NoLogoutFromLogin(token: Option<string>, os: seq<HttpOutcome>)
    ensures Logouts(Store(token, LoginPath), os) == 0
    ensures AfterResponses(Store(token, LoginPath), os) == Store(token, LoginPath)
    decreases |os|
  {
    if os != [] {
      LoginPathIsExempt(os[0]);
      NoLogoutFromLogin(token, os[1..]);
    }
  }

  /** However many responses fail with 401, the token is cleared and the
      page redirected at most once: no redirect loop. */
  lemma {:induction false} AtMostOneLogout(s: Store, os: seq<HttpOutcome>)
    ensures Logouts(s, os) <= 1
    ensures Logouts(s, os) == 1 ==> AfterResponses(s, os) == Store(None, LoginPath)
    ensures Logouts(s, os) == 0 ==> AfterResponses(s, os) == s
    decreases |os|
  {
    if os != [] {
      if ForcesLogout(os[0], s.path) {
        NoLogoutFromLogin(None, os[1..]);
      } else {
        AtMostOneLogout(s, os[1..]);
      }
    }
  }

  /** Outcomes other than a rejected 401 leave token and location alone. */
  lemma OnlyUnauthorizedEndsSession(s: Store, o: HttpOutcome)
    requires !IsUnauthorized(o)
    ensures AfterResponse(s, o) == s
  {
  }

  class Browser {
    var token: Option<string>
    var path: string

    constructor (token: Option<string>, path: string)
      ensures this.token == token && this.path == path
    {
      this.token := token;
      this.path := path;
    }

    function Current(): Store
      reads this
    {
      Store(token, path)
    }

    /** The request interceptor: sets the Authorization header on the config
        it is given, in place, and hands the same config on. */
    method InterceptRequest(config: RequestConfig) returns (out: RequestConfig)
      modifies config`headers
      ensures out == config
      ensures config.headers == WithAuthorization(old(config.headers), token)
    {
      if token.Some? && token.value != "" && token.value != "undefined" && token.value != "null" {
        config.headers := config.headers[AuthorizationHeader := token.value];
      }
      out := config;
    }

    /** The response interceptor: passes responses and errors on unchanged;
        on a 401 outside the exempt views it clears the token and moves to
        the login page. */
    method InterceptResponse(o: HttpOutcome) returns (r: HttpOutcome)
      modifies this
      ensures r == o
      ensures Current() == AfterResponse(old(Current()), o)
    {
      if o.Rejected? && o.error.response.Some? && o.error.response.value.status == 401 {
        var currentPath := path;
        if !StartsWith(currentPath, "/login") && !StartsWith(currentPath, "/register") && currentPath != "/" {
          token := None;
          path := LoginPath;
        }
      }
      r := o;
    }
  }
}
