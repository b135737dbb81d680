/** `handleLogout` in the navigation bar: remove the two token keys, then go
    to the sign-in page. The `tenantId` key is left in place. */
module Navbar {
  import opened Basics
  import opened Jwt
  import opened TokenStorage
  import opened ProtectedRoutes
  import AuthService

  /** The storage after logout: both tokens gone, every other key as it was. */
  function LoggedOutItems(items: map<string, string>): (r: map<string, string>)
    ensures AccessTokenKey !in r && RefreshTokenKey !in r
    ensures forall k :: k != AccessTokenKey && k != RefreshTokenKey ==> (k in r <==> k in items)
    ensures forall k :: k in r ==> r[k] == items[k]
  {
    items - {AccessTokenKey} - {RefreshTokenKey}
  }

  /** `handleLogout()`; it returns the route it navigates to. */
  method HandleLogout(storage: Storage) returns (navigateTo: string)
    modifies storage
    ensures storage.items == LoggedOutItems(old(storage.items))
    ensures navigateTo == LogInRoute
  {
    storage.RemoveItem(AccessTokenKey);
    storage.RemoveItem(RefreshTokenKey);
    navigateTo := LogInRoute;
  }

  /** Logging out twice leaves the storage of logging out once. */
  lemma LogoutIdempotent(items: map<string, string>)
    ensures LoggedOutItems(LoggedOutItems(items)) == LoggedOutItems(items)
  {
  }

  /** After logout the route guard redirects, whatever token was stored. */
  lemma GuardRedirectsAfterLogout(items: map<string, string>, decode: Decoder, nowMs: int)
    ensures GuardDecision(Lookup(LoggedOutItems(items), AccessTokenKey), decode, nowMs) == RedirectTo(LogInRoute)
  {
  }

  /** A sign-in followed by a logout leaves the signed-in tenant stored. */
  lemma LogoutAfterSignInKeepsTenant(items: map<string, string>, response: AuthService.LoginResponse, claims: Claims)
    ensures Lookup(LoggedOutItems(AuthService.SignedInItems(items, response, claims)), TenantIdKey)
            == Some(AuthService.StoredText(claims.tenant))
    ensures Lookup(LoggedOutItems(AuthService.SignedInItems(items, response, claims)), AccessTokenKey) == None
  {
  }
}
