/**
 * The browser state the session code reads and writes: the `localStorage`
 * key-value store and the `jwtToken` cookie.
 */
module Browser {
  import opened Base

  type Storage = map<string, string>

  const JwtTokenKey: string := "jwtToken"
  const JwtExpiresAtKey: string := "jwtExpiresAt"
  const DemoRoleKey: string := "demoRole"
  const TokenKey: string := "token"
  const UserRoleKey: string := "userRole"

  /** The three keys the auth context treats as the session. */
  const SessionKeys: set<string> := {JwtTokenKey, JwtExpiresAtKey, DemoRoleKey}

  /** `localStorage.getItem(key)`: `null` becomes `None`. */
  function GetItem(st: Storage, key: string): Option<string> {
    if key in st then Some(st[key]) else None
  }

  /** The `jwtToken` cookie: its value and its expiry instant in milliseconds. */
  datatype Cookie = Cookie(value: string, expires: nat)

  /** Everything the browser keeps between page loads for this front-end. */
  datatype Client = Client(storage: Storage, cookie: Option<Cookie>)

  /**
   * The cookie value a request carries at time `now`. A cookie is evicted
   * once its expiry time is in the past (section 5.3 of RFC 6265).
   */
  function CookieAt(jar: Option<Cookie>, now: nat): Option<string> {
    if jar.Some? && now <= jar.value.expires then Some(jar.value.value) else None
  }

  /** An `expires` attribute is an HTTP date, so it keeps whole seconds only. */
  function WholeSeconds(ms: nat): nat {
    ms - ms % 1000
  }
}
