/** `loginService.signIn`: after the sign-in request succeeds and the access
    token decodes, the three session keys are written in order; a failure of
    either step writes nothing. `renewAccessToken` hands the server's answer
    back unchanged. The requests themselves are parameters. */
module AuthService {
  import opened Basics
  import opened Jwt
  import opened TokenStorage

  /** The token pair the sign-in endpoint answers with. */
  datatype LoginResponse = LoginResponse(accessToken: string, refreshToken: string)

  /** Why `signIn` throws: the request failed (its error is rethrown), or the
      returned access token did not decode. */
  datatype SignInError = RequestFailed(message: string) | InvalidToken

  /** The text `setItem` stores for a value: `String(undefined)` when the
      claim is missing. */
  function StoredText(v: Option<string>): (s: string)
    ensures v.Some? ==> s == v.value
    ensures v.None? ==> s == "undefined"
  {
    match v
    case Some(t) => t
    case None => "undefined"
  }

  /** The storage after the three writes of a successful sign-in. */
  function SignedInItems(items: map<string, string>, response: LoginResponse, claims: Claims): (r: map<string, string>)
    ensures r.Keys == items.Keys + {AccessTokenKey, RefreshTokenKey, TenantIdKey}
    ensures r[AccessTokenKey] == response.accessToken
    ensures r[RefreshTokenKey] == response.refreshToken
    ensures r[TenantIdKey] == StoredText(claims.tenant)
    ensures forall k :: k in items && k !in {AccessTokenKey, RefreshTokenKey, TenantIdKey} ==> r[k] == items[k]
  {
    items[AccessTokenKey := response.accessToken][RefreshTokenKey := response.refreshToken][TenantIdKey := StoredText(claims.tenant)]
  }

  /** `signIn(email, password, tenantName)`, given the outcome of its request. */
  method SignIn(storage: Storage, request: Result<LoginResponse, string>, decode: Decoder)
    returns (r: Result<LoginResponse, SignInError>)
    modifies storage
    ensures request.Failure? ==> r == Failure(RequestFailed(request.error)) && storage.items == old(storage.items)
    ensures request.Success? && decode(request.value.accessToken).None? ==>
      r == Failure(InvalidToken) && storage.items == old(storage.items)
    ensures request.Success? && decode(request.value.accessToken).Some? ==>
      r == Success(request.value) &&
      storage.items == SignedInItems(old(storage.items), request.value, decode(request.value.accessToken).value)
  {
    if request.Failure? {
      return Failure(RequestFailed(request.error));
    }
    var response := request.value;
    var decoded := decode(response.accessToken);
    if decoded.None? {
      return Failure(InvalidToken);
    }
    storage.SetItem(AccessTokenKey, response.accessToken);
    storage.SetItem(RefreshTokenKey, response.refreshToken);
    storage.SetItem(TenantIdKey, StoredText(decoded.value.tenant));
    return Success(response);
  }

  /** The pair written to storage is the pair returned, and the stored tenant
      is the token's `tenant` claim. */
  lemma SignedInAgreesWithResponse(items: map<string, string>, response: LoginResponse, claims: Claims)
    requires claims.tenant.Some?
    ensures Lookup(SignedInItems(items, response, claims), AccessTokenKey) == Some(response.accessToken)
    ensures Lookup(SignedInItems(items, response, claims), RefreshTokenKey) == Some(response.refreshToken)
    ensures Lookup(SignedInItems(items, response, claims), TenantIdKey) == claims.tenant
  {
  }

  /** The renewal endpoint's answer. */
  datatype RenewResponse = RenewResponse(accessToken: string)

  /** `renewAccessToken(refreshToken)`: the response (or the rethrown error)
      unchanged; it reads and writes no storage. */
  function RenewAccessToken(request: Result<RenewResponse, string>): (r: Result<RenewResponse, string>)
    ensures r == request
  {
    match request
    case Success(data) => Success(data)
    case Failure(e) => Failure(e)
  }
}
