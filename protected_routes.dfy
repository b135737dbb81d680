/** The route guard (`ProtectedRoute`): it renders its children only for a
    stored access token that decodes and has not expired; otherwise it removes
    the stored access token and redirects to the sign-in page. It performs no
    token renewal. */
module ProtectedRoutes {
  import opened Basics
  import opened Jwt
  import opened TokenStorage

  const LogInRoute := "/log-in"

  /** What the guard renders. */
  datatype GuardView = RenderChildren | RedirectTo(path: string)

  /** `isTokenExpired()`: a missing or empty token is expired, a token that
      does not decode is expired (the guard fails closed), and a decoded token
      is expired when its `exp` lies before the current time. `exp < Date.now()
      / 1000` is compared here as `exp * 1000 < nowMs` (see `SecondsVsMillis`);
      a token without an `exp` claim never expires, since `undefined < t` is
      false. */
  function IsTokenExpired(accessToken: Option<string>, decode: Decoder, nowMs: int): (expired: bool)
    ensures !expired ==> Present(accessToken) && decode(accessToken.value).Some?
    ensures !expired && decode(accessToken.value).value.exp.Some? ==>
      nowMs <= decode(accessToken.value).value.exp.value * 1000
  {
    if !Present(accessToken) then true
    else match decode(accessToken.value)
      case None => true
      case Some(claims) =>
        match claims.exp
        case Some(exp) => exp * 1000 < nowMs
        case None => false
  }

  /** Comparing seconds against `Date.now() / 1000` is comparing
      milliseconds against `Date.now()`. */
  lemma SecondsVsMillis(exp: int, nowMs: int)
    ensures (exp as real) < (nowMs as real) / 1000.0 <==> exp * 1000 < nowMs
  {
    assert (nowMs as real) / 1000.0 * 1000.0 == nowMs as real;
    assert (exp * 1000) as real == (exp as real) * 1000.0;
  }

  /** `if (!isAuthenticated || isTokenExpired()) redirect else render`. */
  function GuardDecision(accessToken: Option<string>, decode: Decoder, nowMs: int): (v: GuardView)
    ensures v == RenderChildren <==> accessToken.Some? && !IsTokenExpired(accessToken, decode, nowMs)
    ensures v != RenderChildren ==> v == RedirectTo(LogInRoute)
  {
    if accessToken.None? || IsTokenExpired(accessToken, decode, nowMs) then RedirectTo(LogInRoute)
    else RenderChildren
  }

  /** The guard component: read the token, decide, and on redirect remove the
      `accessToken` key (and only that key) before redirecting. */
  method ProtectedRoute(storage: Storage, decode: Decoder, nowMs: int) returns (view: GuardView)
    modifies storage
    ensures view == GuardDecision(old(storage.GetItem(AccessTokenKey)), decode, nowMs)
    ensures view.RedirectTo? ==> storage.items == old(storage.items) - {AccessTokenKey}
    ensures view == RenderChildren ==> storage.items == old(storage.items)
  {
    var accessToken := storage.GetItem(AccessTokenKey);
    var isAuthenticated := accessToken.Some?;
    if !isAuthenticated || IsTokenExpired(accessToken, decode, nowMs) {
      storage.RemoveItem(AccessTokenKey);
      return RedirectTo(LogInRoute);
    }
    return RenderChildren;
  }

  /** No stored token: redirect to the sign-in page. */
  lemma NoTokenRedirects(decode: Decoder, nowMs: int)
    ensures GuardDecision(None, decode, nowMs) == RedirectTo(LogInRoute)
  {
  }

  /** An empty token counts as stored but is treated as expired. */
  lemma EmptyTokenRedirects(decode: Decoder, nowMs: int)
    ensures GuardDecision(Some(""), decode, nowMs) == RedirectTo(LogInRoute)
  {
  }

  /** A token that does not decode is redirected, whatever the clock says. */
  lemma UndecodableTokenRedirects(token: string, decode: Decoder, nowMs: int)
    requires decode(token) == None
    ensures GuardDecision(Some(token), decode, nowMs) == RedirectTo(LogInRoute)
  {
  }

  /** A decodable token with an `exp` claim is let through exactly until the
      instant `exp`: at `nowMs == exp * 1000` it is still accepted, one
      millisecond later it is not. */
  lemma ExpiryBoundary(token: string, decode: Decoder, nowMs: int)
    requires token != "" && decode(token).Some? && decode(token).value.exp.Some?
    ensures GuardDecision(Some(token), decode, nowMs) == RenderChildren
            <==> nowMs <= decode(token).value.exp.value * 1000
  {
  }

  /** A decodable token without an `exp` claim is always accepted. */
  lemma NoExpClaimAccepted(token: string, decode: Decoder, nowMs: int)
    requires token != "" && decode(token).Some? && decode(token).value.exp.None?
    ensures GuardDecision(Some(token), decode, nowMs) == RenderChildren
  {
  }

  /** Once a token is rejected it stays rejected as the clock moves on. */
  lemma ExpiryIsMonotonic(token: Option<string>, decode: Decoder, nowMs: int, laterMs: int)
    requires nowMs <= laterMs
    requires GuardDecision(token, decode, nowMs) != RenderChildren
    ensures GuardDecision(token, decode, laterMs) != RenderChildren
  {
  }
}
