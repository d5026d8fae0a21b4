/**
 * Staff and superuser login: the guard chains in front of token issue. The staff lookup by
 * username and the token signer are not modelled; their answers are function parameters.
 */
module AuthService {
  import opened Wrappers
  import opened Model
  import opened Auth

  /** A signed token and its expiry, as the token manager returns them. */
  datatype TokenGrant = TokenGrant(token: string, expiresAt: Time)

  const ErrUsernameRequired: string := "username is required"
  const ErrPinRequired: string := "pin is required"
  const ErrPasswordRequired: string := "password is required"
  const ErrInvalidCredentials: string := "invalid credentials"
  const ErrInactive: string := "staff account is inactive"
  const ErrNotConfigured: string := "superuser login is not configured"

  function TokenError(msg: string): string {
    "failed to generate token: " + msg
  }

  /** The claims a staff token carries. */
  function StaffClaims(s: Staff): Claims {
    Claims(s.id, s.restaurantId, s.role, s.username)
  }

  /**
   * Login: empty username, then empty pin; an unknown user and a wrong pin are the same
   * "invalid credentials"; an inactive account is reported only once the pin matched.
   */
  function Login(req: LoginRequest, getByUsername: string -> Result<Staff>, generate: Claims -> Result<TokenGrant>)
    : (r: Result<LoginResponse>)
    ensures req.username == "" ==> r == Err(ErrUsernameRequired)
    ensures req.username != "" && req.pin == "" ==> r == Err(ErrPinRequired)
    ensures r == Err(ErrInactive) <==>
              req.username != "" && req.pin != "" && getByUsername(req.username).Ok?
              && getByUsername(req.username).value.pin == req.pin && !getByUsername(req.username).value.active
    ensures r.Ok? <==>
              req.username != "" && req.pin != "" && getByUsername(req.username).Ok?
              && getByUsername(req.username).value.pin == req.pin && getByUsername(req.username).value.active
              && generate(StaffClaims(getByUsername(req.username).value)).Ok?
    ensures r.Ok? ==>
              var staff := getByUsername(req.username).value;
              var grant := generate(StaffClaims(staff)).value;
              r.value == LoginResponse(grant.token, grant.expiresAt, staff)
  {
    if req.username == "" then Err(ErrUsernameRequired)
    else if req.pin == "" then Err(ErrPinRequired)
    else
      var found := getByUsername(req.username);
      if found.Err? then Err(ErrInvalidCredentials)
      else if found.value.pin != req.pin then Err(ErrInvalidCredentials)
      else if !found.value.active then Err(ErrInactive)
      else
        var grant := generate(StaffClaims(found.value));
        if grant.Err? then Err(TokenError(grant.msg))
        else Ok(LoginResponse(grant.value.token, grant.value.expiresAt, found.value))
  }

  /** A caller cannot tell an unknown username from a known one with a wrong pin. */
  lemma UnknownUserLooksLikeWrongPin(req: LoginRequest, unknown: string -> Result<Staff>, known: string -> Result<Staff>,
                                     generate: Claims -> Result<TokenGrant>)
    requires req.username != "" && req.pin != ""
    requires unknown(req.username).Err?
    requires known(req.username).Ok? && known(req.username).value.pin != req.pin
    ensures Login(req, unknown, generate) == Login(req, known, generate) == Err(ErrInvalidCredentials)
  {
  }

  /** An inactive account with the right pin is never let in, whatever the signer does. */
  lemma InactiveNeverLogsIn(req: LoginRequest, getByUsername: string -> Result<Staff>, generate: Claims -> Result<TokenGrant>)
    requires getByUsername(req.username).Ok? && !getByUsername(req.username).value.active
    ensures Login(req, getByUsername, generate).Err?
  {
  }

  /** The configured superuser credentials. */
  datatype SuperuserConfig = SuperuserConfig(username: string, password: string)

  /** The claims of a superuser token: no staff row and no restaurant. */
  function SuperuserClaims(username: string): Claims {
    Claims(0, 0, RoleSuperuser, username)
  }

  /**
   * SuperuserLogin: empty request fields first, then an unconfigured login, then an exact
   * match of both credentials.
   */
  function SuperuserLogin(req: SuperuserLoginRequest, config: SuperuserConfig, generate: Claims -> Result<TokenGrant>)
    : (r: Result<SuperuserLoginResponse>)
    ensures req.username == "" ==> r == Err(ErrUsernameRequired)
    ensures req.username != "" && req.password == "" ==> r == Err(ErrPasswordRequired)
    ensures req.username != "" && req.password != "" && (config.username == "" || config.password == "")
            ==> r == Err(ErrNotConfigured)
    ensures r.Ok? <==>
              req.username != "" && req.password != "" && config.username != "" && config.password != ""
              && req.username == config.username && req.password == config.password
              && generate(SuperuserClaims(req.username)).Ok?
    ensures r.Ok? ==>
              var grant := generate(SuperuserClaims(req.username)).value;
              r.value == SuperuserLoginResponse(grant.token, grant.expiresAt, RoleSuperuser, req.username)
  {
    if req.username == "" then Err(ErrUsernameRequired)
    else if req.password == "" then Err(ErrPasswordRequired)
    else if config.username == "" || config.password == "" then Err(ErrNotConfigured)
    else if req.username != config.username || req.password != config.password then Err(ErrInvalidCredentials)
    else
      var grant := generate(SuperuserClaims(req.username));
      if grant.Err? then Err(TokenError(grant.msg))
      else Ok(SuperuserLoginResponse(grant.value.token, grant.value.expiresAt, RoleSuperuser, req.username))
  }

  /** With no configured password even the empty-password request cannot get in. */
  lemma UnconfiguredSuperuserLocked(req: SuperuserLoginRequest, username: string, generate: Claims -> Result<TokenGrant>)
    ensures SuperuserLogin(req, SuperuserConfig(username, ""), generate).Err?
  {
  }

  /**
   * A superuser token is requested only for an exact match, and its claims are the ones the
   * authorization check treats as the superuser: every restaurant's scope is open to it.
   */
  lemma SuperuserClaimsBypassOwnership(req: SuperuserLoginRequest, config: SuperuserConfig,
                                       generate: Claims -> Result<TokenGrant>, info: ResourceInfo)
    requires SuperuserLogin(req, config, generate).Ok?
    ensures req == SuperuserLoginRequest(config.username, config.password)
    ensures OwnsScope(SuperuserClaims(req.username), info)
  {
  }
}
