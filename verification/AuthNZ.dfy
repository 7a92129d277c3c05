/** Logging in, and judging one request, over an ideal signature. */
module AuthNZ {
  import opened Outcomes
  import opened Base64
  import opened Authorization
  import opened Authenticators

  /** A row of the users table; the level is stored under its name. */
  datatype Account = Account(password: Bytes, permission: Bytes)

  type Users = map<Bytes, Account>

  /** What a token says under its signature. */
  datatype Payload = Payload(subject: Bytes, permission: Option<Bytes>, expires: int)

  /** The tokens this authority signed; with an ideal signature no other text verifies. */
  type Tokens = map<Bytes, Payload>

  datatype Claims = Claims(user: Bytes, permissions: Permissions)

  datatype Outcome = Outcome(result: AuthResult, claims: Option<Claims>)

  datatype Requirement = Requirement(permissions: Permissions, requirePassword: bool)

  datatype Judgement = Allowed | NoCredential | MalformedCredential | RejectedCredential | Forbidden | BackendFailed

  datatype Verdict = Verdict(status: Judgement, requirement: Requirement, identity: Option<Claims>) {
    function StatusCode(): int {
      if status == Allowed then 200
      else if status == MalformedCredential then 400
      else if status == NoCredential || status == RejectedCredential then 401
      else if status == Forbidden then 403
      else 500
    }

    /** The scheme named in a WWW-Authenticate header. */
    function Challenge(): Option<Scheme> {
      if status != NoCredential && status != RejectedCredential then None
      else if requirement.requirePassword then Some(Basic)
      else Some(Bearer)
    }
  }

  /** Which of the two calls on the users table fail. */
  datatype Faults = Faults(check: bool, read: bool)

  // ---------- What each step computes ----------

  function CheckPassword(users: Users, user: Bytes, password: Bytes, fault: bool): AuthResult {
    if fault then ServerError
    else if user !in users || users[user].password != password then InvalidCredentials
    else Authenticated
  }

  function LevelOf(users: Users, user: Bytes): Permissions {
    if user in users then StringToPermissions(users[user].permission) else NoPermissions
  }

  function TokenFor(claims: Claims, expires: int): Payload {
    Payload(claims.user, Some(PermissionsToString(claims.permissions)), expires)
  }

  function ClaimsOf(payload: Payload): Claims {
    Claims(payload.subject,
           if payload.permission.Some? then StringToPermissions(payload.permission.value) else NoPermissions)
  }

  /** A token is good when this authority signed it, its time has not come, and it names somebody. */
  predicate IsGood(tokens: Tokens, now: int, token: Bytes) {
    token in tokens && now < tokens[token].expires && tokens[token].subject != []
  }

  function TokenOutcome(tokens: Tokens, now: int, token: Bytes): Outcome {
    if IsGood(tokens, now, token) then Outcome(Authenticated, Some(ClaimsOf(tokens[token])))
    else Outcome(InvalidCredentials, None)
  }

  predicate IsAuthorized(identity: Claims, permissions: Permissions) {
    identity.user != [] && Satisfies(identity.permissions, permissions)
  }

  /** The verdict on a header that never reaches an authenticator. */
  function Refusal(parsed: Parsed, requirement: Requirement): Option<Judgement> {
    if parsed.status != Valid || parsed.credential.None? then
      Some(if parsed.status == Malformed then MalformedCredential else NoCredential)
    else if requirement.requirePassword && parsed.credential.value.scheme != Basic then Some(NoCredential)
    else None
  }

  function Judged(requirement: Requirement, outcome: Outcome): Verdict {
    if outcome.result == ServerError then Verdict(BackendFailed, requirement, None)
    else if outcome.result != Authenticated || outcome.claims.None? then Verdict(RejectedCredential, requirement, None)
    else if !IsAuthorized(outcome.claims.value, requirement.permissions) then Verdict(Forbidden, requirement, None)
    else Verdict(Allowed, requirement, outcome.claims)
  }

  function PasswordOutcome(atCheck: Users, atRead: Users, user: Bytes, password: Bytes, faults: Faults): Outcome {
    var result := CheckPassword(atCheck, user, password, faults.check);
    if result != Authenticated then Outcome(result, None)
    else if faults.read then Outcome(ServerError, None)
    else Outcome(Authenticated, Some(Claims(user, LevelOf(atRead, user))))
  }

  /**
   The verdict on one request.  The users table is read twice, once for the password and once
   for the level, and may have changed in between.
   */
  function Authorized(atCheck: Users, atRead: Users, tokens: Tokens, now: int,
                      header: Bytes, requirement: Requirement, faults: Faults): Verdict
  {
    var parsed := Parse(header);
    var refusal := Refusal(parsed, requirement);
    if refusal.Some? then Verdict(refusal.value, requirement, None)
    else
      var credential := parsed.credential.value;
      Judged(requirement,
             if credential.scheme == Basic
             then PasswordOutcome(atCheck, atRead, credential.user, credential.password, faults)
             else TokenOutcome(tokens, now, credential.token))
  }

  // ---------- What a verdict means ----------

  /** The header carries this user's password, as the users table has it. */
  ghost predicate ShowsPassword(atCheck: Users, header: Bytes, user: Bytes) {
    && user != [] && ':' !in user && user in atCheck
    && Carries(header, BASIC, Encode(user + [':'] + atCheck[user].password))
  }

  /** The header carries this token, and the token is good. */
  ghost predicate ShowsToken(tokens: Tokens, now: int, header: Bytes, token: Bytes) {
    token != [] && IsTrimmed(token) && Carries(header, BEARER, token) && IsGood(tokens, now, token)
  }

  lemma PasswordIsShown(atCheck: Users, header: Bytes, user: Bytes)
    ensures ShowsPassword(atCheck, header, user)
            <==> user in atCheck
                 && Parse(header) == Parsed(Valid, Some(Credential(Basic, user, atCheck[user].password, [])))
  {
    hide Parse, Carries, Encode;
    if user in atCheck {
      BasicRoundTrip(header, user, atCheck[user].password);
    }
  }

  lemma TokenIsShown(tokens: Tokens, now: int, header: Bytes, token: Bytes)
    ensures ShowsToken(tokens, now, header, token)
            <==> Parse(header) == Parsed(Valid, Some(Credential(Bearer, [], [], token))) && IsGood(tokens, now, token)
  {
    hide Parse, Carries, IsGood, IsTrimmed;
    BearerRoundTrip(header, token);
  }

  /** A parsed credential has the fields of its scheme and leaves the others empty. */
  lemma CredentialShape(header: Bytes)
    requires Parse(header).status == Valid
    ensures var c := Parse(header).credential;
            && c.Some?
            && c.value == (if c.value.scheme == Basic then Credential(Basic, c.value.user, c.value.password, [])
                           else Credential(Bearer, [], [], c.value.token))
            && (c.value.scheme == Basic ==> c.value.user != [])
  {
    hide Parse, Carries;
    StatusTellsCredential(header);
    if Parse(header).credential.value.scheme == Basic {
      BasicWasCarried(header);
    } else {
      BearerWasCarried(header);
    }
  }

  /**
   The request genuinely comes from this user at this level: it shows their password and no
   backend fails, or, on a route that does not insist on the password, a good token of theirs.
   */
  ghost predicate Vouches(atCheck: Users, atRead: Users, tokens: Tokens, now: int,
                          header: Bytes, requirePassword: bool, faults: Faults, claims: Claims)
  {
    || (&& ShowsPassword(atCheck, header, claims.user) && faults == Faults(false, false)
        && claims.permissions == LevelOf(atRead, claims.user))
    || (&& !requirePassword
        && exists token ::
             ShowsToken(tokens, now, header, token) && token in tokens && ClaimsOf(tokens[token]) == claims)
  }

  /** A request that vouches for claims is judged by their level alone, whatever level is asked for. */
  lemma VouchedIsRanked(atCheck: Users, atRead: Users, tokens: Tokens, now: int,
                        header: Bytes, requirement: Requirement, faults: Faults, claims: Claims)
    requires Vouches(atCheck, atRead, tokens, now, header, requirement.requirePassword, faults, claims)
    ensures Authorized(atCheck, atRead, tokens, now, header, requirement, faults)
            == if Satisfies(claims.permissions, requirement.permissions)
               then Verdict(Allowed, requirement, Some(claims)) else Verdict(Forbidden, requirement, None)
  {
    hide Parse, ShowsToken, ShowsPassword, Satisfies, LevelOf;
    PasswordIsShown(atCheck, header, claims.user);
    if !ShowsPassword(atCheck, header, claims.user) || faults != Faults(false, false)
       || claims.permissions != LevelOf(atRead, claims.user) {
      var token :| ShowsToken(tokens, now, header, token) && token in tokens && ClaimsOf(tokens[token]) == claims;
      TokenIsShown(tokens, now, header, token);
    } else {
      CredentialShape(header);
    }
  }

  /** A verdict that reaches the ranking of levels is on a request that vouches for somebody. */
  lemma RankedWasVouched(atCheck: Users, atRead: Users, tokens: Tokens, now: int,
                         header: Bytes, requirement: Requirement, faults: Faults) returns (claims: Claims)
    requires Authorized(atCheck, atRead, tokens, now, header, requirement, faults).status in {Allowed, Forbidden}
    ensures Vouches(atCheck, atRead, tokens, now, header, requirement.requirePassword, faults, claims)
  {
    hide Parse, ShowsToken, ShowsPassword, Satisfies, LevelOf;
    CredentialShape(header);
    var c := Parse(header).credential.value;
    if c.scheme == Basic {
      PasswordIsShown(atCheck, header, c.user);
      claims := Claims(c.user, LevelOf(atRead, c.user));
    } else {
      TokenIsShown(tokens, now, header, c.token);
      claims := ClaimsOf(tokens[c.token]);
      assert ShowsToken(tokens, now, header, c.token);
    }
  }

  /** The account, as it is when its level is read, names this level in some casing. */
  predicate HasLevel(users: Users, user: Bytes, level: Permissions) {
    user in users && EqualsIgnoringCase(users[user].permission, PermissionsToString(level))
  }

  /**
   The level a password is good for is the one its account names when it is read: the request is
   allowed at that level where it is enough, and forbidden where it is not or the account is gone.
   */
  lemma PasswordHasItsLevel(atCheck: Users, atRead: Users, tokens: Tokens, now: int,
                            header: Bytes, requirement: Requirement, user: Bytes, level: Permissions)
    requires ShowsPassword(atCheck, header, user)
    ensures var v := Authorized(atCheck, atRead, tokens, now, header, requirement, Faults(false, false));
            && (HasLevel(atRead, user, level) ==>
                  v == if Satisfies(level, requirement.permissions)
                       then Verdict(Allowed, requirement, Some(Claims(user, level)))
                       else Verdict(Forbidden, requirement, None))
            && (user !in atRead ==> v == Verdict(Forbidden, requirement, None))
  {
    LevelIsNamed(atRead, user, level);
    hide ShowsPassword, ShowsToken, HasLevel, LevelOf, StringToPermissions, PermissionsToString;
    VouchedIsRanked(atCheck, atRead, tokens, now, header, requirement, Faults(false, false),
                    Claims(user, LevelOf(atRead, user)));
  }

  lemma LevelIsNamed(users: Users, user: Bytes, level: Permissions)
    ensures HasLevel(users, user, level) ==> LevelOf(users, user) == level
    ensures user !in users ==> LevelOf(users, user) == NoPermissions
  {
    if HasLevel(users, user, level) {
      NameRoundTrip(level, users[user].permission);
    }
  }

  /** And a token for the one signed into it, until it expires. */
  lemma TokenHasItsLevel(atCheck: Users, atRead: Users, tokens: Tokens, now: int, header: Bytes,
                         requirement: Requirement, faults: Faults, token: Bytes, claims: Claims, name: Bytes,
                         expires: int)
    requires ShowsToken(tokens, now, header, token) && !requirement.requirePassword
    requires token in tokens && tokens[token] == Payload(claims.user, Some(name), expires)
    requires EqualsIgnoringCase(name, PermissionsToString(claims.permissions))
    ensures Authorized(atCheck, atRead, tokens, now, header, requirement, faults)
            == if Satisfies(claims.permissions, requirement.permissions)
               then Verdict(Allowed, requirement, Some(claims)) else Verdict(Forbidden, requirement, None)
  {
    NameRoundTrip(claims.permissions, name);
    hide ShowsPassword, ShowsToken, LevelOf, StringToPermissions, PermissionsToString, EqualsIgnoringCase;
    assert ClaimsOf(tokens[token]) == claims;
    VouchedIsRanked(atCheck, atRead, tokens, now, header, requirement, faults, claims);
  }

  /**
   Who is let through, in terms of the bytes on the wire: a request is allowed as somebody
   exactly when it vouches for them at a level that is enough for the route.
   */
  lemma AllowedExactly(atCheck: Users, atRead: Users, tokens: Tokens, now: int,
                       header: Bytes, requirement: Requirement, faults: Faults, claims: Claims)
    ensures Authorized(atCheck, atRead, tokens, now, header, requirement, faults)
            == Verdict(Allowed, requirement, Some(claims))
            <==> && Vouches(atCheck, atRead, tokens, now, header, requirement.requirePassword, faults, claims)
                 && Satisfies(claims.permissions, requirement.permissions)
  {
    hide Authorized, Vouches, Satisfies;
    if Vouches(atCheck, atRead, tokens, now, header, requirement.requirePassword, faults, claims) {
      VouchedIsRanked(atCheck, atRead, tokens, now, header, requirement, faults, claims);
    }
    if Authorized(atCheck, atRead, tokens, now, header, requirement, faults).status == Allowed {
      var vouched := RankedWasVouched(atCheck, atRead, tokens, now, header, requirement, faults);
      VouchedIsRanked(atCheck, atRead, tokens, now, header, requirement, faults, vouched);
    }
  }

  /** An identity is there exactly when the verdict is Allowed, and the verdict keeps its requirement. */
  lemma IdentityMeansAllowed(atCheck: Users, atRead: Users, tokens: Tokens, now: int,
                             header: Bytes, requirement: Requirement, faults: Faults)
    ensures var v := Authorized(atCheck, atRead, tokens, now, header, requirement, faults);
            && v.requirement == requirement
            && (v.identity.Some? <==> v.status == Allowed)
            && (v.StatusCode() == 200 <==> v.status == Allowed)
            && (v.StatusCode() == 400 <==> v.status == MalformedCredential)
            && (v.StatusCode() == 401 <==> v.status in {NoCredential, RejectedCredential})
            && (v.StatusCode() == 403 <==> v.status == Forbidden)
            && (v.StatusCode() == 500 <==> v.status == BackendFailed)
            && (v.Challenge().Some? <==> v.StatusCode() == 401)
            && (v.Challenge() == Some(Basic) <==> v.StatusCode() == 401 && requirement.requirePassword)
  {
    hide Parse, Satisfies;
  }

  /**
   Forbidden is exactly a request that vouches for somebody at a level too low for the route,
   so whoever is forbidden is let through, as themselves, wherever their own level is asked for.
   */
  lemma ForbiddenExactly(atCheck: Users, atRead: Users, tokens: Tokens, now: int,
                         header: Bytes, requirement: Requirement, faults: Faults)
    ensures Authorized(atCheck, atRead, tokens, now, header, requirement, faults).status == Forbidden
            <==> exists claims ::
                   && Vouches(atCheck, atRead, tokens, now, header, requirement.requirePassword, faults, claims)
                   && !Satisfies(claims.permissions, requirement.permissions)
    ensures forall claims ::
              && Vouches(atCheck, atRead, tokens, now, header, requirement.requirePassword, faults, claims)
              && claims.permissions != NoPermissions ==>
                Authorized(atCheck, atRead, tokens, now, header,
                           requirement.(permissions := claims.permissions), faults)
                == Verdict(Allowed, requirement.(permissions := claims.permissions), Some(claims))
  {
    hide Authorized, Vouches;
    if Authorized(atCheck, atRead, tokens, now, header, requirement, faults).status == Forbidden {
      var claims := RankedWasVouched(atCheck, atRead, tokens, now, header, requirement, faults);
      VouchedIsRanked(atCheck, atRead, tokens, now, header, requirement, faults, claims);
    }
    forall claims | Vouches(atCheck, atRead, tokens, now, header, requirement.requirePassword, faults, claims)
      ensures Authorized(atCheck, atRead, tokens, now, header, requirement, faults).status == Forbidden
              <==> !Satisfies(claims.permissions, requirement.permissions)
      ensures claims.permissions != NoPermissions ==>
                Authorized(atCheck, atRead, tokens, now, header,
                           requirement.(permissions := claims.permissions), faults)
                == Verdict(Allowed, requirement.(permissions := claims.permissions), Some(claims))
    {
      var own := requirement.(permissions := claims.permissions);
      VouchedIsRanked(atCheck, atRead, tokens, now, header, requirement, faults, claims);
      VouchedIsRanked(atCheck, atRead, tokens, now, header, own, faults, claims);
    }
  }

  /**
   The other refusals, each by its cause: a backend failure is one of the two reads failing for a
   password, the second only once the password was right; a rejection is a wrong password or a
   token that is not good; a bad request is a header that cannot be read; and no credential is
   none that this route takes.
   */
  lemma RefusalsTellWhy(atCheck: Users, atRead: Users, tokens: Tokens, now: int,
                        header: Bytes, requirement: Requirement, faults: Faults)
    ensures var status := Authorized(atCheck, atRead, tokens, now, header, requirement, faults).status;
            var Parsed(parsed, credential) := Parse(header);
            && (status == BackendFailed <==>
                  && parsed == Valid && credential.value.scheme == Basic
                  && (faults.check || (faults.read && ShowsPassword(atCheck, header, credential.value.user))))
            && (status == RejectedCredential <==>
                  && parsed == Valid
                  && if credential.value.scheme == Basic
                     then !faults.check && !ShowsPassword(atCheck, header, credential.value.user)
                     else !requirement.requirePassword && !ShowsToken(tokens, now, header, credential.value.token))
            && (status == MalformedCredential <==> parsed == Malformed)
            && (status == NoCredential <==>
                  || parsed in {Absent, UnsupportedScheme}
                  || (parsed == Valid && credential.value.scheme == Bearer && requirement.requirePassword))
  {
    hide Parse, ShowsPassword, ShowsToken, LevelOf, Satisfies;
    StatusTellsCredential(header);
    if Parse(header).status == Valid {
      CredentialShape(header);
      var c := Parse(header).credential.value;
      PasswordIsShown(atCheck, header, c.user);
      TokenIsShown(tokens, now, header, c.token);
    }
  }

  /** Signing and reading back: a token minted for a user says that user and that level. */
  lemma TokenSaysItsClaims(claims: Claims, expires: int)
    ensures ClaimsOf(TokenFor(claims, expires)) == claims
    ensures TokenFor(claims, expires).subject == claims.user && TokenFor(claims, expires).expires == expires
  {
    NameRoundTrip(claims.permissions, PermissionsToString(claims.permissions));
  }

  // ---------- The object the routes consult ----------

  class Authority {
    var users: Users
    var clock: int
    var tokens: Tokens
    const timeToLive: int

    constructor (users: Users, clock: int, timeToLive: int)
      ensures this.users == users && this.clock == clock && this.timeToLive == timeToLive && tokens == map[]
    {
      this.users, this.clock, this.timeToLive, tokens := users, clock, timeToLive, map[];
    }

    method AuthenticateBasic(user: Bytes, password: Bytes, fault: bool) returns (result: Result<AuthResult>)
      ensures result == if user == [] then Throws(InvalidArgument)
                        else Ok(CheckPassword(users, user, password, fault))
    {
      if user == [] {
        return Throws(InvalidArgument);
      }
      if fault {
        return Ok(ServerError);
      }
      if user !in users {
        return Ok(InvalidCredentials);
      }
      if users[user].password != password {
        return Ok(InvalidCredentials);
      }
      return Ok(Authenticated);
    }

    method GetPermissions(user: Bytes, fault: bool) returns (result: Result<Permissions>)
      ensures result == if fault then Throws(RuntimeError) else Ok(LevelOf(users, user))
      ensures forall level :: !fault && HasLevel(users, user, level) ==> result == Ok(level)
      ensures !fault && user !in users ==> result == Ok(NoPermissions)
    {
      forall level
        ensures HasLevel(users, user, level) ==> LevelOf(users, user) == level
      {
        LevelIsNamed(users, user, level);
      }
      if fault {
        return Throws(RuntimeError);
      }
      if user !in users {
        return Ok(NoPermissions);
      }
      return Ok(StringToPermissions(users[user].permission));
    }

    /** Signs a token for claims, to expire a time-to-live from now; signature is the text that comes out. */
    method CreateToken(claims: Claims, signature: Bytes) returns (result: Result<Bytes>)
      modifies this`tokens
      ensures result == if claims.user == [] then Throws(InvalidArgument) else Ok(signature)
      ensures tokens == if claims.user == [] then old(tokens)
                        else old(tokens)[signature := TokenFor(claims, clock + timeToLive)]
    {
      if claims.user == [] {
        return Throws(InvalidArgument);
      }
      var expires := clock + timeToLive;
      tokens := tokens[signature := Payload(claims.user, Some(PermissionsToString(claims.permissions)), expires)];
      return Ok(signature);
    }

    method Verify(token: Bytes) returns (result: Result<Outcome>)
      ensures result == if token == [] then Throws(InvalidArgument) else Ok(TokenOutcome(tokens, clock, token))
    {
      if token == [] {
        return Throws(InvalidArgument);
      }
      if token !in tokens || tokens[token].expires <= clock {
        return Ok(Outcome(InvalidCredentials, None));
      }
      var user, permissions := tokens[token].subject, NoPermissions;
      if user == [] {
        return Ok(Outcome(InvalidCredentials, None));
      }
      if tokens[token].permission.Some? {
        permissions := StringToPermissions(tokens[token].permission.value);
      }
      return Ok(Outcome(Authenticated, Some(Claims(user, permissions))));
    }

    /** A token for a right password, and nothing signed otherwise. */
    method Login(user: Bytes, password: Bytes, faults: Faults, signature: Bytes)
      returns (result: Result<(AuthResult, Bytes)>)
      modifies this`tokens
      ensures user == [] ==> result == Throws(InvalidArgument) && tokens == old(tokens)
      ensures user != [] ==>
                var outcome := PasswordOutcome(users, users, user, password, faults);
                && result == Ok((outcome.result, if outcome.result == Authenticated then signature else []))
                && tokens == (if outcome.result == Authenticated
                              then old(tokens)[signature := TokenFor(outcome.claims.value, clock + timeToLive)]
                              else old(tokens))
    {
      if user == [] {
        return Throws(InvalidArgument);
      }
      var checked := AuthenticateBasic(user, password, faults.check);
      if checked.value != Authenticated {
        return Ok((checked.value, []));
      }
      var permissions := GetPermissions(user, faults.read);
      if permissions.Throws? {
        return Ok((ServerError, []));
      }
      var token := CreateToken(Claims(user, permissions.value), signature);
      return Ok((Authenticated, token.value));
    }

    method AuthenticatePassword(user: Bytes, password: Bytes, faults: Faults) returns (result: Result<Outcome>)
      ensures result == if user == [] then Throws(InvalidArgument)
                        else Ok(PasswordOutcome(users, users, user, password, faults))
    {
      if user == [] {
        return Throws(InvalidArgument);
      }
      var checked := AuthenticateBasic(user, password, faults.check);
      if checked.value != Authenticated {
        return Ok(Outcome(checked.value, None));
      }
      var permissions := GetPermissions(user, faults.read);
      if permissions.Throws? {
        return Ok(Outcome(ServerError, None));
      }
      return Ok(Outcome(Authenticated, Some(Claims(user, permissions.value))));
    }

    /** The one call a route makes; an exception on the way is a failure of the backend. */
    method Authorize(header: Bytes, requirement: Requirement, faults: Faults) returns (verdict: Verdict)
      ensures verdict == Authorized(users, users, tokens, clock, header, requirement, faults)
    {
      hide Parse, IsGood, LevelOf, CheckPassword, Satisfies;
      verdict := Verdict(NoCredential, requirement, None);
      var parsed := ParseAuthorizationHeader(header);
      if parsed.status != Valid {
        verdict := verdict.(status := if parsed.status == Malformed then MalformedCredential else NoCredential);
        return;
      }
      CredentialShape(header);
      var credential := parsed.credential.value;
      if requirement.requirePassword && credential.scheme != Basic {
        return;
      }
      var outcome;
      if credential.scheme == Basic {
        outcome := AuthenticatePassword(credential.user, credential.password, faults);
      } else {
        BearerWasCarried(header);
        outcome := Verify(credential.token);
      }
      if outcome.Throws? || outcome.value.result == ServerError {
        verdict := verdict.(status := BackendFailed);
        return;
      }
      var result, claims := outcome.value.result, outcome.value.claims;
      if result != Authenticated || claims.None? {
        verdict := verdict.(status := RejectedCredential);
        return;
      }
      if !IsAuthorized(claims.value, requirement.permissions) {
        verdict := verdict.(status := Forbidden);
        return;
      }
      verdict := verdict.(status := Allowed, identity := claims);
    }
  }
}
