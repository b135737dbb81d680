/** What the console reads from a JSON Web Token. Decoding itself (the
    `jwtDecode` library call) is a parameter: a function that yields the
    token's claims, or `None` where the library would throw. */
module Jwt {
  import opened Basics

  /** The claims the console looks at: `exp` (section 4.1.4 of RFC 7519,
      seconds since the epoch), the user `id` and the `tenant`. Each may be
      missing from a token that otherwise decodes. */
  datatype Claims = Claims(exp: Option<int>, id: Option<string>, tenant: Option<string>)

  /** `jwtDecode`: the claims of a decodable token, `None` otherwise. */
  type Decoder = string -> Option<Claims>

  /** `getUserIdFromToken()` as each page defines it: the `id` claim of the
      stored access token, or nothing when there is no token or it does not
      decode. */
  function UserIdFromToken(token: Option<string>, decode: Decoder): (r: Option<string>)
    ensures r.Some? ==> Present(token) && decode(token.value).Some? && decode(token.value).value.id == r
    ensures Present(token) && decode(token.value).Some? ==> r == decode(token.value).value.id
  {
    if !Present(token) then None
    else match decode(token.value)
      case None => None
      case Some(claims) => claims.id
  }
}
