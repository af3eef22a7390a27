/** Values shared by the backend routes and the mobile client. */
module Common {

  datatype Option<+T> = None | Some(value: T) {
    function GetOr(default: T): T {
      match this
      case Some(v) => v
      case None => default
    }
  }

  /** How the client sees one REST call: the request failed (transport error or a non-2xx
      status, which the HTTP client raises) or it succeeded with a decoded body. */
  datatype Reply<+T> = Failed | Succeeded(body: T)

  /** JavaScript truthiness of an optional string field: absent, null and "" are all falsy. */
  predicate Present(s: Option<string>) {
    s.Some? && s.value != ""
  }

  function Min(a: int, b: int): int {
    if a <= b then a else b
  }

  function Max(a: int, b: int): int {
    if a <= b then b else a
  }

  /** The decoded payload of a signed token: `{ userId, iat, exp }`; only the user id is used. */
  datatype Claims = Claims(userId: int)

  /** The foreign calls of the backend, passed in as oracles: bcrypt's hash and compare,
      and the JSON Web Token library's sign and verify (signature and expiry). `sign(userId, now)`
      stamps the token with the time it is issued (`iat`) and a 7-day expiry, so one user gets
      different tokens at different times. */
  datatype Crypto = Crypto(
    hash: string -> string,
    compare: (string, string) -> bool,
    sign: (int, int) -> string,
    verify: string -> Option<Claims>)
}
