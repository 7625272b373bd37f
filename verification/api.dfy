/**
 * The two interceptors of the shared axios instance: every request picks up
 * the stored token as a bearer header, every failed response is re-rejected,
 * and a 401 drops the stored token and sends the window to `/login`.
 * The endpoint table itself is a list of thin calls; each call's reply is
 * an oracle `Outcome`.
 */
module Api {
  import opened Base
  import opened Browser
  import opened Middleware

  type Headers = map<string, string>

  const AuthorizationHeader: string := "Authorization"
  const Unauthorized: int := 401

  /** `error.response?.status`: absent when the request never got a response. */
  datatype ApiError = ApiError(status: Option<int>)

  /** What a call's promise settles to. */
  datatype Outcome<T> = Resolved(value: T) | Rejected(error: ApiError)

  /** A call after the response interceptor ran: the browser state, a hard navigation, the promise. */
  datatype Call<T> = Call(client: Client, navigate: Option<string>, outcome: Outcome<T>)

  predicate IsUnauthorized<T>(reply: Outcome<T>) {
    reply.Rejected? && reply.error.status == Some(Unauthorized)
  }

  /** The request interceptor. */
  function AttachAuthorization(st: Storage, headers: Headers): (h: Headers)
    ensures Truthy(GetItem(st, JwtTokenKey)) ==>
              AuthorizationHeader in h && h[AuthorizationHeader] == BearerPrefix + st[JwtTokenKey]
    ensures forall k :: k in headers && k != AuthorizationHeader ==> k in h && h[k] == headers[k]
    ensures h.Keys <= headers.Keys + {AuthorizationHeader}
    ensures !Truthy(GetItem(st, JwtTokenKey)) ==> h == headers
  {
    var token := GetItem(st, JwtTokenKey);
    if Truthy(token) then headers[AuthorizationHeader := BearerPrefix + token.value] else headers
  }

  /**
   * The header this front-end builds, read back by the middleware's header
   * branch (no cookie set), is the stored token itself, and the middleware
   * lets the request through on any path.
   */
  lemma BearerRoundTrip(st: Storage, headers: Headers, path: string, cookie: Option<string>)
    requires Truthy(GetItem(st, JwtTokenKey))
    requires !Truthy(cookie)
    ensures var h := AttachAuthorization(st, headers);
            var req := Request(path, cookie, Some(h[AuthorizationHeader]));
            ExtractToken(req) == st[JwtTokenKey] && Middleware.Middleware(req) == Next
  {
    ExtractFromBearer(path, cookie, st[JwtTokenKey]);
  }

  /** The response interceptor applied to a call's reply. */
  function Intercept<T>(c: Client, reply: Outcome<T>): (r: Call<T>)
    ensures r.outcome == reply
    ensures r.client.cookie == c.cookie
    ensures IsUnauthorized(reply) ==>
              r.client.storage == c.storage - {JwtTokenKey} && r.navigate == Some(LoginPath)
    ensures !IsUnauthorized(reply) ==> r.client == c && r.navigate == None
  {
    if IsUnauthorized(reply) then
      Call(Client(c.storage - {JwtTokenKey}, c.cookie), Some(LoginPath), reply)
    else
      Call(c, None, reply)
  }

  /** A 401 removes the stored token and nothing else: the expiry, the demo role and the cookie stay. */
  lemma UnauthorizedKeepsTheRest<T>(c: Client, reply: Outcome<T>, key: string)
    requires IsUnauthorized(reply)
    requires key != JwtTokenKey
    ensures GetItem(Intercept(c, reply).client.storage, JwtTokenKey) == None
    ensures GetItem(Intercept(c, reply).client.storage, key) == GetItem(c.storage, key)
    ensures Intercept(c, reply).client.cookie == c.cookie
  {
  }
}
