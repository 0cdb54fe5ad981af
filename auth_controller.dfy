/** `AuthController`: password login against the master tenant-user table and access-token
    refresh, each a sequence of checks that ends in the first failing status. Token signing is
    not modelled; a successful reply names the user and tenant the tokens would be issued for. */
module Authentication {
  import opened Common
  import opened Exceptions
  import opened TenantUsers

  const TenantRequiredMessage := "Tenant ID is required"
  const InvalidCredentialsMessage := "Invalid credentials"
  const InactiveMessage := "Account is inactive"
  const UnexpectedMessage := "An unexpected error occurred"
  const RefreshRequiredMessage := "Refresh token is required"
  const InvalidRefreshMessage := "Invalid refresh token"

  datatype LoginRequest = LoginRequest(email: string, password: string, tenantId: Option<string>)

  /** A reply: 200 with the user and the tenant id the tokens carry, or a status with the body's
      `error` text. An exception without a message gives `None` here, where the controller's
      `Map.of` would itself throw; that answer is not modelled. */
  datatype Reply = Success(user: TenantUser, tenantId: string) | Failure(status: int, error: Option<string>)

  /** The user with that e-mail in that tenant; e-mails are unique per tenant. */
  function UserByEmail(users: map<string, TenantUser>, tenantId: string, email: string): (r: Option<TenantUser>)
    requires UniqueEmails(users)
    ensures r.Some? <==> EmailTaken(users, tenantId, email)
    ensures r.Some? ==> r.value.userId in users && users[r.value.userId] == r.value
                        && r.value.tenantId == tenantId && r.value.email == email
  {
    if EmailTaken(users, tenantId, email) then
      var id :| id in users && users[id].tenantId == tenantId && users[id].email == email;
      Some(users[id])
    else None
  }

  /** The tenant identifier of a login: the body's tenant id when present, else the header. */
  function LoginTenant(request: LoginRequest, header: Option<string>): Option<string> {
    if request.tenantId.Some? then request.tenantId else header
  }

  /** The reply of `login` for the current table; `resolve` is the tenant identifier resolver and
      `matches` the password encoder's check of a raw password against a hash. */
  function LoginReply(users: map<string, TenantUser>, request: LoginRequest, header: Option<string>,
                      resolve: string -> Result<string, ServiceException>, matches: (string, string) -> bool): (r: Reply)
    requires UniqueEmails(users)
    ensures r.Success? ==> r.user.userId in users && users[r.user.userId] == r.user && r.user.isActive
                           && r.user.email == request.email && r.user.tenantId == r.tenantId
                           && matches(request.password, r.user.passwordHash)
    ensures r.Failure? ==> r.status in {400, 401, 500}
  {
    var identifier := LoginTenant(request, header);
    if identifier.None? || IsBlank(identifier.value) then Failure(400, Some(TenantRequiredMessage))
    else
      var tenant := resolve(identifier.value);
      if tenant.Err? then
        if tenant.error.IllegalArgument? then Failure(400, tenant.error.message) else Failure(500, Some(UnexpectedMessage))
      else
        var user := UserByEmail(users, tenant.value, request.email);
        if user.None? then Failure(401, Some(InvalidCredentialsMessage))
        else if !user.value.isActive then Failure(401, Some(InactiveMessage))
        else if !matches(request.password, user.value.passwordHash) then Failure(401, Some(InvalidCredentialsMessage))
        else Success(user.value, tenant.value)
  }

  /** `login`: the checks of `LoginReply`; only a successful login records the time. */
  method Login(service: TenantUserService, request: LoginRequest, header: Option<string>,
               resolve: string -> Result<string, ServiceException>, matches: (string, string) -> bool, now: int)
    returns (r: Reply)
    requires UniqueEmails(service.users)
    modifies service
    ensures r == LoginReply(old(service.users), request, header, resolve, matches)
    ensures r.Failure? ==> service.users == old(service.users)
    ensures r.Success? ==> service.users == old(service.users)[r.user.userId := r.user.(lastLogin := Some(now))]
    ensures UniqueEmails(service.users)
  {
    r := LoginReply(service.users, request, header, resolve, matches);
    if r.Success? {
      service.users := service.users[r.user.userId := r.user.(lastLogin := Some(now))];
    }
  }

  /** `refreshToken`. `validate` is the refresh-token check giving the subject, `parseUuid`
      `UUID.fromString`; every failure after the presence check, thrown or not, answers 401. */
  function RefreshReply(users: map<string, TenantUser>, refreshToken: Option<string>, validate: string -> Option<string>,
                        parseUuid: string -> Option<string>): (r: Reply)
    requires KeyedById(users)
    ensures r.Success? ==> r.user.userId in users && users[r.user.userId] == r.user && r.user.isActive
                           && r.tenantId == r.user.tenantId
    ensures r.Failure? ==> r.status == 401 || (r.status == 400 && (refreshToken.None? || IsBlank(refreshToken.value)))
  {
    if refreshToken.None? || IsBlank(refreshToken.value) then Failure(400, Some(RefreshRequiredMessage))
    else
      var subject := validate(refreshToken.value);
      if subject.None? then Failure(401, Some(InvalidRefreshMessage))
      else
        var id := parseUuid(subject.value);
        if id.None? || id.value !in users then Failure(401, Some(InvalidRefreshMessage))
        else if !users[id.value].isActive then Failure(401, Some(InactiveMessage))
        else Success(users[id.value], users[id.value].tenantId)
  }

  // ----------------------------------------------------------------- lemmas

  /** An unknown e-mail and a wrong password get the same reply, so a login attempt does not
      disclose which e-mails exist. */
  lemma UnknownUserLooksLikeWrongPassword(users: map<string, TenantUser>, request: LoginRequest, header: Option<string>,
                                          resolve: string -> Result<string, ServiceException>, matches: (string, string) -> bool,
                                          tenantId: string)
    requires UniqueEmails(users)
    requires LoginTenant(request, header).Some? && !IsBlank(LoginTenant(request, header).value)
    requires resolve(LoginTenant(request, header).value) == Ok(tenantId)
    requires !EmailTaken(users, tenantId, request.email)
             || (UserByEmail(users, tenantId, request.email).value.isActive
                 && !matches(request.password, UserByEmail(users, tenantId, request.email).value.passwordHash))
    ensures LoginReply(users, request, header, resolve, matches) == Failure(401, Some(InvalidCredentialsMessage))
  {
  }

  /** The body's tenant wins over the header, even when it is blank: then the login is refused
      with 400 whatever the header says. */
  lemma BodyTenantWins(users: map<string, TenantUser>, request: LoginRequest, header: Option<string>,
                       resolve: string -> Result<string, ServiceException>, matches: (string, string) -> bool)
    requires UniqueEmails(users) && request.tenantId.Some?
    ensures LoginReply(users, request, header, resolve, matches) == LoginReply(users, request, None, resolve, matches)
    ensures IsBlank(request.tenantId.value) ==> LoginReply(users, request, header, resolve, matches) == Failure(400, Some(TenantRequiredMessage))
  {
  }

  /** A login of an active user with the right password succeeds, for that user and tenant. */
  lemma RightPasswordLogsIn(users: map<string, TenantUser>, request: LoginRequest, header: Option<string>,
                            resolve: string -> Result<string, ServiceException>, matches: (string, string) -> bool, id: string)
    requires UniqueEmails(users) && id in users
    requires LoginTenant(request, header).Some? && !IsBlank(LoginTenant(request, header).value)
    requires resolve(LoginTenant(request, header).value) == Ok(users[id].tenantId)
    requires users[id].email == request.email && users[id].isActive && matches(request.password, users[id].passwordHash)
    ensures LoginReply(users, request, header, resolve, matches) == Success(users[id], users[id].tenantId)
  {
    var found := UserByEmail(users, users[id].tenantId, request.email);
    assert found.Some? && found.value.userId == id;
  }

  /** An inactive account can neither log in nor refresh. */
  lemma InactiveUserIsLockedOut(users: map<string, TenantUser>, request: LoginRequest, header: Option<string>,
                                resolve: string -> Result<string, ServiceException>, matches: (string, string) -> bool,
                                refreshToken: Option<string>, validate: string -> Option<string>, parseUuid: string -> Option<string>)
    requires UniqueEmails(users) && forall id :: id in users ==> !users[id].isActive
    ensures LoginReply(users, request, header, resolve, matches).Failure?
    ensures RefreshReply(users, refreshToken, validate, parseUuid).Failure?
  {
  }
}
