/**
 * The auth gate: the specification of `Endpoint::authenticate` and `get_user_by_api_key`.
 *
 * WordPress counts a request as logged in when its login cookie has already set a current
 * user, so `is_user_logged_in()` is `current.Some?` and `current_user_can( cap )` asks
 * `site.userCan` about the current user.  The gate's result says whether the request was
 * marked as a cookie request, who the current user is afterwards, and, when the request is
 * refused, the terminal 401 response.
 */
module Auth {

  import opened Wrappers
  import opened Values
  import opened WordPress

  const NonceAction: string := "h-api"
  const NonceField: string := "_nonce"
  const ApiKeyPrefix: string := "api_key_"
  const DefaultRealm: string := "H-API"

  datatype AuthOutcome = AuthOutcome(cookieRequest: bool, currentUser: Option<int>, rejection: Option<Response>)

  /** PHP truthiness of a string: "" and "0" are false. */
  predicate Truthy(s: string) {
    s != "" && s != "0"
  }

  /** The header sent before a refusal that asks for credentials. */
  function ChallengeHeader(site: Site): string {
    "WWW-Authenticate: Basic realm=\"" + site.authRealm.GetOr(DefaultRealm) + "\""
  }

  function Unauthorized(): Response {
    SendError("", 401)
  }

  /** `header( WWW-Authenticate … )` followed by `send_error( '', 401 )`. */
  function Challenge(site: Site): (r: Response)
    ensures r.status == 401 && r.body == Text("") && r.headers == [ChallengeHeader(site)]
  {
    var e := SendError("", 401);
    e.(headers := [ChallengeHeader(site)] + e.headers)
  }

  /** `get_user_by_api_key`: the `ID` of the user stored under `'api_key_' . key`, or None when the lookup gives no id. */
  function UserByApiKey(site: Site, key: string): (r: Option<int>)
    ensures r.Some? <==> ApiKeyPrefix + key in site.userMeta && site.userMeta[ApiKeyPrefix + key] != 0
    ensures r.Some? ==> r.value == site.userById(site.userMeta[ApiKeyPrefix + key]).id
  {
    var metaKey := ApiKeyPrefix + key;
    if metaKey in site.userMeta && site.userMeta[metaKey] != 0 then Some(site.userById(site.userMeta[metaKey]).id)
    else None
  }

  /** The `_nonce` entry of `$_REQUEST`, if any. */
  function Nonce(req: Request): Option<Value> {
    if NonceField in req.request then Some(req.request[NonceField]) else None
  }

  /** The session path accepts: capability (when set) held, and a non-empty nonce that verifies. */
  predicate SessionAccepts(site: Site, req: Request, capability: string, user: int) {
    (!Truthy(capability) || site.userCan(user, capability)) &&
    !Empty(Nonce(req)) && site.verifyNonce(Nonce(req).value, NonceAction)
  }

  /** The user an HTTP Basic request resolves to: a login with a password, an API-key lookup without one. */
  function BasicUser(site: Site, req: Request): Option<int>
    requires !EmptyString(req.authUser)
  {
    if !EmptyString(req.authPw) then site.checkPassword(req.authUser.value, req.authPw.value)
    else UserByApiKey(site, AsString(site.sanitizeTextField(Str(req.authUser.value))))
  }

  /** `Endpoint::authenticate` with the endpoint's capability and the current user before the call. */
  function Authenticate(site: Site, req: Request, capability: string, current: Option<int>): (r: AuthOutcome)
    // session path: marks the cookie request, keeps the user, never looks at Basic credentials
    ensures current.Some? ==>
              r.cookieRequest && r.currentUser == current &&
              (r.rejection.None? <==> SessionAccepts(site, req, capability, current.value)) &&
              (r.rejection.Some? ==> r.rejection.value == Unauthorized())
    // Basic path: the resolved user becomes current and must hold the capability, which is checked even when empty
    ensures current.None? && !EmptyString(req.authUser) && BasicUser(site, req).Some? ==>
              !r.cookieRequest && r.currentUser == BasicUser(site, req) &&
              (r.rejection.None? <==> site.userCan(BasicUser(site, req).value, capability)) &&
              (r.rejection.Some? ==> r.rejection.value == Unauthorized())
    // otherwise: the challenge, nothing changed
    ensures current.None? && (EmptyString(req.authUser) || BasicUser(site, req).None?) ==>
              r == AuthOutcome(false, current, Some(Challenge(site)))
  {
    if current.Some? then
      var rejection :=
        if Truthy(capability) && !site.userCan(current.value, capability) then Some(Unauthorized())
        else if Empty(Nonce(req)) || !site.verifyNonce(Nonce(req).value, NonceAction) then Some(Unauthorized())
        else None;
      AuthOutcome(true, current, rejection)
    else if !EmptyString(req.authUser) then
      match BasicUser(site, req)
      case Some(id) => AuthOutcome(false, Some(id), if site.userCan(id, capability) then None else Some(Unauthorized()))
      case None => AuthOutcome(false, current, Some(Challenge(site)))
    else
      AuthOutcome(false, current, Some(Challenge(site)))
  }

  /** Every refusal is a 401 with an empty body; only the no-credentials refusal carries the challenge header. */
  lemma RejectionsAre401(site: Site, req: Request, capability: string, current: Option<int>)
    ensures var r := Authenticate(site, req, capability, current);
            r.rejection.Some? ==>
              r.rejection.value.status == 401 && r.rejection.value.body == Text("") &&
              (r.rejection.value.headers != [] <==>
                 current.None? && (EmptyString(req.authUser) || BasicUser(site, req).None?))
  {
  }

  /** An accepted request always has a current user: the session's, or the one Basic authentication set. */
  lemma AcceptedHasPrincipal(site: Site, req: Request, capability: string, current: Option<int>)
    ensures var r := Authenticate(site, req, capability, current);
            r.rejection.None? ==> r.currentUser.Some? && (r.cookieRequest <==> current.Some?)
  {
  }

  /** The session path is tried first and never falls through: Basic credentials cannot change its outcome. */
  lemma SessionIgnoresBasic(site: Site, req: Request, capability: string, current: Option<int>,
                            user: Option<string>, password: Option<string>)
    requires current.Some?
    ensures Authenticate(site, req, capability, current) ==
            Authenticate(site, req.(authUser := user, authPw := password), capability, current)
  {
  }

  /** A request with a password is a login only: the API-key table cannot change its outcome, so a wrong password is refused. */
  lemma PasswordNeverUsesApiKeys(site: Site, req: Request, capability: string, keys: map<string, int>)
    requires !EmptyString(req.authUser) && !EmptyString(req.authPw)
    ensures Authenticate(site, req, capability, None) ==
            Authenticate(site.(userMeta := keys), req, capability, None)
  {
  }

  /** A wrong password is refused with the challenge. */
  lemma WrongPasswordChallenged(site: Site, req: Request, capability: string)
    requires !EmptyString(req.authUser) && !EmptyString(req.authPw)
    requires site.checkPassword(req.authUser.value, req.authPw.value).None?
    ensures Authenticate(site, req, capability, None).rejection == Some(Challenge(site))
  {
  }

  /** An empty password makes the user name an API key: accepted exactly when the key is stored and its user holds the capability. */
  lemma ApiKeyPath(site: Site, req: Request, capability: string)
    requires !EmptyString(req.authUser) && EmptyString(req.authPw)
    ensures var key := AsString(site.sanitizeTextField(Str(req.authUser.value)));
            var r := Authenticate(site, req, capability, None);
            r.rejection.None? <==>
              UserByApiKey(site, key).Some? && site.userCan(UserByApiKey(site, key).value, capability)
  {
  }
}
