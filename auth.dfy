/**
 * Authorisation decisions: token claims and their expiry, the current-user
 * dependency, basic-credential verification and the role checker. JWT
 * signing and decoding, bcrypt and the clock are inputs: a decoded token,
 * a password check and the current time in seconds.
 */
module Auth {
  import opened Wrappers
  import opened Json
  import opened Http
  import opened Users

  const ACCESS_TOKEN_EXPIRE_MINUTES := 30
  const REFRESH_TOKEN_EXPIRE_MINUTES := 60 * 24 * 7
  const SECONDS_PER_MINUTE := 60

  const CREDENTIALS_INVALID := "Could not validate credentials"
  const USER_NOT_FOUND := "Could not find user"
  const LOGIN_FAILED := "Incorrect email or password"
  const NOT_PERMITTED := "You don't have enough permissions"

  /** The claims handed to `jwt.encode` for an access token. */
  datatype AccessClaims = AccessClaims(exp: int, sub: Json, role: Json)

  /** The claims handed to `jwt.encode` for a refresh token. */
  datatype RefreshClaims = RefreshClaims(exp: int, sub: string)

  /**
   * Python's datetime range, as Unix seconds: 0001-01-01 00:00:00 to
   * 9999-12-31 23:59:59. A sum outside it raises OverflowError.
   */
  const DATETIME_MIN := -62135596800
  const DATETIME_MAX := 253402300799

  predicate InDatetimeRange(t: int) { DATETIME_MIN <= t <= DATETIME_MAX }

  /**
   * The expiry `now + delta`, or `now` plus the default when no delta is given;
   * None when the sum leaves the datetime range.
   */
  function Expiry(now: int, delta: Option<int>, defaultMinutes: nat): (r: Option<int>)
  {
    var t := match delta
      case Some(d) => now + d
      case None => now + defaultMinutes * SECONDS_PER_MINUTE;
    if InDatetimeRange(t) then Some(t) else None
  }

  /**
   * `create_access_token` up to signing: the expiry first, then `data["name"]`
   * and `data["role"]`.
   */
  function AccessTokenClaims(data: Json, delta: Option<int>, now: int): (r: Outcome<AccessClaims>)
  {
    match Expiry(now, delta, ACCESS_TOKEN_EXPIRE_MINUTES)
    case None => Crashed(OverflowFault)
    case Some(exp) =>
      match Subscript(data, "name")
      case Err(f) => Crashed(LookupFault(f))
      case Ok(name) =>
        match Subscript(data, "role")
        case Err(f) => Crashed(LookupFault(f))
        case Ok(role) => Returned(AccessClaims(exp, name, role))
  }

  /** `create_refresh_token` up to signing; `dataText` is Python's `str(data)`. */
  function RefreshTokenClaims(dataText: string, delta: Option<int>, now: int): (r: Outcome<RefreshClaims>)
  {
    match Expiry(now, delta, REFRESH_TOKEN_EXPIRE_MINUTES)
    case None => Crashed(OverflowFault)
    case Some(exp) => Returned(RefreshClaims(exp, dataText))
  }

  /**
   * The access token's claims: an expiry past year 9999 overflows; otherwise
   * `name` and `role` must both be keys of an object.
   */
  lemma AccessClaimsContent(data: Json, delta: Option<int>, now: int)
    ensures var t := if delta.Some? then now + delta.value else now + 30 * 60;
            && (!InDatetimeRange(t) <==> AccessTokenClaims(data, delta, now) == Crashed(OverflowFault))
            && (AccessTokenClaims(data, delta, now).Returned? <==>
                  InDatetimeRange(t) && data.JObj? && "name" in data.fields && "role" in data.fields)
            && (AccessTokenClaims(data, delta, now).Returned? ==>
                  && AccessTokenClaims(data, delta, now).value.sub == data.fields["name"]
                  && AccessTokenClaims(data, delta, now).value.role == data.fields["role"]
                  && AccessTokenClaims(data, delta, now).value.exp == t)
  {
  }

  /** The refresh token's claims: `sub` is `str(data)`, and an expiry past year 9999 overflows. */
  lemma RefreshClaimsContent(dataText: string, delta: Option<int>, now: int)
    ensures var t := if delta.Some? then now + delta.value else now + 7 * 24 * 60 * 60;
            && (RefreshTokenClaims(dataText, delta, now).Returned? <==> InDatetimeRange(t))
            && (RefreshTokenClaims(dataText, delta, now).Returned? ==>
                  RefreshTokenClaims(dataText, delta, now).value == RefreshClaims(t, dataText))
            && (!RefreshTokenClaims(dataText, delta, now).Returned? ==>
                  RefreshTokenClaims(dataText, delta, now) == Crashed(OverflowFault))
  {
  }

  /** With default lifetimes, a refresh token issued at the same time outlives the access token. */
  lemma RefreshOutlivesAccess(data: Json, dataText: string, now: int)
    requires AccessTokenClaims(data, None, now).Returned? && RefreshTokenClaims(dataText, None, now).Returned?
    ensures RefreshTokenClaims(dataText, None, now).value.exp > AccessTokenClaims(data, None, now).value.exp
  {
  }

  /** What `jwt.decode` followed by `TokenPayload(**payload)` yields: nothing usable, or the claims. */
  datatype DecodedToken = Rejected | Decoded(sub: string, exp: int)

  function Forbidden(): (e: HttpError) {
    HttpError(FORBIDDEN, Text(CREDENTIALS_INVALID), Some("Bearer"))
  }

  /**
   * `get_current_user`. The "Token expired" 401 is raised inside the `try`
   * whose bare `except` turns every exception into the 403, and so is the
   * error `datetime.fromtimestamp` raises for an `exp` outside the datetime range.
   */
  function GetCurrentUser(token: DecodedToken, now: int, db: UserDb): (r: Outcome<User>)
  {
    match token
    case Rejected => Raised(Forbidden())
    case Decoded(sub, exp) =>
      if !InDatetimeRange(exp) || exp < now then Raised(Forbidden())
      else match GetUser(db, sub)
        case Err(_) => Crashed(ValidationFault)
        case Ok(None) => Raised(Error(NOT_FOUND, USER_NOT_FOUND))
        case Ok(Some(user)) => Returned(user)
  }

  /**
   * A rejected token, one whose `exp` is no datetime and an expired one (exp
   * strictly before now) are all 403; the dependency never answers 401.
   */
  lemma CurrentUserForbidden(token: DecodedToken, now: int, db: UserDb)
    ensures (token.Rejected? || !InDatetimeRange(token.exp) || token.exp < now) <==>
              GetCurrentUser(token, now, db) == Raised(HttpError(403, Text("Could not validate credentials"), Some("Bearer")))
    ensures GetCurrentUser(token, now, db).Raised? ==> GetCurrentUser(token, now, db).error.status != 401
  {
  }

  /**
   * A live token (an `exp` in the datetime range, not before now): 404 when
   * `sub` is no key of the table, the user stored under `sub` when its entry
   * validates, and a crash when its role does not.
   */
  lemma CurrentUserLookup(sub: string, exp: int, now: int, db: UserDb)
    requires now <= exp && InDatetimeRange(exp)
    ensures sub !in db <==>
              GetCurrentUser(Decoded(sub, exp), now, db) == Raised(HttpError(404, Text("Could not find user"), None))
    ensures GetCurrentUser(Decoded(sub, exp), now, db).Returned? ==>
              sub in db && GetCurrentUser(Decoded(sub, exp), now, db).value.username == db[sub].username
    ensures sub in db && db[sub].role in {"admin", "manager", "user"} ==>
              GetCurrentUser(Decoded(sub, exp), now, db)
                == Returned(User(db[sub].username, db[sub].passwordHash, ParseRole(db[sub].role).value))
    ensures sub in db && db[sub].role !in {"admin", "manager", "user"} ==>
              GetCurrentUser(Decoded(sub, exp), now, db) == Crashed(ValidationFault)
  {
  }

  /** With the seeded table, the user a live token resolves to is named by the token's subject. */
  lemma SeededCurrentUserIsSubject(hash: string -> string, sub: string, exp: int, now: int)
    requires now <= exp && InDatetimeRange(exp) && sub in FakeUsersDb(hash)
    ensures GetCurrentUser(Decoded(sub, exp), now, FakeUsersDb(hash)).Returned?
    ensures GetCurrentUser(Decoded(sub, exp), now, FakeUsersDb(hash)).value.username == sub
  {
    SeededUsersResolve(hash, sub);
  }

  function LoginFailed(): (e: HttpError) {
    HttpError(UNAUTHORIZED, Text(LOGIN_FAILED), Some("Basic"))
  }

  /**
   * `verification` as written: it calls `User.verify_password`, which the User
   * model does not define, so an existing user raises AttributeError.
   */
  function VerificationAsWritten(db: UserDb, username: string, password: string): (r: Outcome<bool>)
  {
    match GetUser(db, username)
    case Err(_) => Crashed(ValidationFault)
    case Ok(None) => Raised(LoginFailed())
    case Ok(Some(_)) => Crashed(AttributeFault("verify_password"))
  }

  /** As written, no credentials are ever accepted, and a known user name crashes the request. */
  lemma VerificationNeverAccepts(hash: string -> string, username: string, password: string)
    ensures VerificationAsWritten(FakeUsersDb(hash), username, password) != Returned(true)
    ensures username in FakeUsersDb(hash) ==>
              VerificationAsWritten(FakeUsersDb(hash), username, password) == Crashed(AttributeFault("verify_password"))
  {
    if username in FakeUsersDb(hash) {
      SeededUsersResolve(hash, username);
    }
  }

  /** `verification` with the module's own `verify_password` (bcrypt, here `verify`). */
  function Verification(db: UserDb, username: string, password: string, verify: (string, string) -> bool): (r: Outcome<bool>)
  {
    match GetUser(db, username)
    case Err(_) => Crashed(ValidationFault)
    case Ok(None) => Raised(LoginFailed())
    case Ok(Some(user)) => if verify(password, user.passwordHash) then Returned(true) else Raised(LoginFailed())
  }

  /** True exactly when the user exists and the password verifies; otherwise 401 with a Basic challenge. */
  lemma VerificationAccepts(db: UserDb, username: string, password: string, verify: (string, string) -> bool)
    requires username in db ==> db[username].role in {"admin", "manager", "user"}
    ensures Verification(db, username, password, verify) == Returned(true) <==>
              username in db && verify(password, db[username].passwordHash)
    ensures Verification(db, username, password, verify) != Returned(true) ==>
              Verification(db, username, password, verify)
                == Raised(HttpError(401, Text("Incorrect email or password"), Some("Basic")))
  {
  }

  /** `RoleChecker(allowed_roles)`: the list is kept as given. */
  datatype RoleChecker = RoleChecker(allowedRoles: seq<string>) {
    /** `__call__`: True for a permitted role, else 401. */
    function Call(user: User): (r: Outcome<bool>)
    {
      if user.role.Value() in allowedRoles then Returned(true)
      else Raised(Error(UNAUTHORIZED, NOT_PERMITTED))
    }
  }

  /** The checker admits exactly the listed roles, answers True or 401, and never False. */
  lemma RoleCheck(allowed: seq<string>, user: User)
    ensures RoleChecker(allowed).Call(user) == Returned(true) <==> user.role.Value() in allowed
    ensures RoleChecker(allowed).Call(user) != Returned(true) ==>
              RoleChecker(allowed).Call(user) == Raised(HttpError(401, Text("You don't have enough permissions"), None))
    ensures RoleChecker(allowed).Call(user) != Returned(false)
  {
  }
}
