/** Properties of the session lifecycle that span several source files: the
    token lifetime set by `generateAuthToken`, the retention of the revocation
    collection, and the gate in front of the profile route. */
module Session {
  import opened Common
  import opened Crypto
  import opened UsersModel
  import opened UserService
  import opened BlackListTokenModel
  import opened Http
  import opened AuthMiddleware
  import opened UserController
  import opened UserRoutes

  /** Retention outlasts the token: once the revocation record of a token is
      due for deletion, the token (issued no later than it was revoked) has
      already expired. */
  lemma {:induction false} EvictedTokenHasExpired(j: Jwt, secret: string, u: User, issuedAt: Time, createdAt: Time, now: Time)
    requires JwtComplete(j)
    requires issuedAt <= createdAt && Evictable(createdAt, now)
    ensures j.verify(GenerateAuthToken(j, secret, u, issuedAt), secret, now) == Rejected(TokenExpiredError)
  {
    IssuedTokenLifetime(j, secret, u, issuedAt, now);
  }

  /** A logged-out token is never accepted again: in any reachable state of the
      revocation collection, a request carrying a token that was revoked after
      it was issued halts with a 401, whether its record is still there or the
      TTL monitor has already removed it. */
  lemma {:induction false} RevokedTokenNeverAccepted(bl: BlackList, docs: seq<User>, j: Jwt, secret: string,
                                     u: User, issuedAt: Time, cookieToken: Option<string>, authorization: Option<string>)
    requires bl.Valid() && JwtComplete(j)
    requires ExtractToken(cookieToken, authorization) == Some(GenerateAuthToken(j, secret, u, issuedAt))
    requires GenerateAuthToken(j, secret, u, issuedAt) in bl.revokedAt
    requires issuedAt <= bl.revokedAt[GenerateAuthToken(j, secret, u, issuedAt)]
    ensures Authenticate(cookieToken, authorization, bl.records, docs, j, secret, bl.clock).Halt?
  {
    var t := GenerateAuthToken(j, secret, u, issuedAt);
    if t !in bl.records {
      EvictedTokenHasExpired(j, secret, u, issuedAt, bl.revokedAt[t], bl.clock);
    }
  }

  /** Under an unforgeable JWT library, a token that is accepted carries claims
      that are not yet expired, and the user put on the request, if any, is
      the token's subject. */
  lemma AcceptedTokenIsCurrent(cookieToken: Option<string>, authorization: Option<string>,
                               revoked: map<string, Time>, docs: seq<User>, j: Jwt, secret: string, now: Time)
    requires JwtSound(j)
    requires Authenticate(cookieToken, authorization, revoked, docs, j, secret, now).Next?
    ensures var t := ExtractToken(cookieToken, authorization).value;
      && t !in revoked
      && now < j.verify(t, secret, now).claims.exp
      && t == j.sign(j.verify(t, secret, now).claims, secret)
      && var user := Authenticate(cookieToken, authorization, revoked, docs, j, secret, now).user;
      && (user.Some? ==> user.value.id == j.verify(t, secret, now).claims.sub && user.value.password.None?)
  {
  }

  /** Bob's account, as the register route stores it. */
  function Bob(env: Env, salt: Salt): User
  {
    User(0, FullName("Bob", None), "bob@x.co", HashPassword(env.bcrypt, "secret1", salt), None)
  }

  /** Registration end to end: a well-formed body is stored with the password
      hashed and answered with the document and a token but no cookie; a
      malformed email is refused with 400 and nothing is stored. */
  method SignUp(env: Env, salt: Salt, start: Time) returns (registered: Reply, badEmail: Reply, store: UserStore)
    requires env.isEmail("bob@x.co") && !env.isEmail("bad")
    requires HashPassword(env.bcrypt, "secret1", salt) != ""  // a bcrypt digest is 60 characters
    ensures store.docs == [Bob(env, salt)]
    ensures registered == SessionReply(Bob(env, salt), GenerateAuthToken(env.jwt, env.secret, Bob(env, salt), start), KeepCookie)
    ensures badEmail == Sent(400, Errors([InvalidEmail]), KeepCookie)
  {
    store := new UserStore();
    var bl := new BlackList(start);
    var bob := Body(Some(FullNameInput(Some("Bob"), None)), Some("bob@x.co"), Some("secret1"));
    var r1 := new Request(None, None, bob);
    assert RegisterValidation(bob, env.isEmail) == [];
    assert SchemaValid(UserFields("Bob", None, "bob@x.co", HashPassword(env.bcrypt, "secret1", salt)));
    assert !EmailTaken([], "bob@x.co");
    registered := PostRegister(r1, store, bl, env, salt);
    assert store.docs == [Bob(env, salt)];
    var bad := bob.(email := Some("bad"));
    assert RegisterValidation(bad, env.isEmail) == [InvalidEmail];
    var r2 := new Request(None, None, bad);
    badEmail := PostRegister(r2, store, bl, env, salt);
  }

  /** Login end to end: the right password yields the token as cookie and in
      the body; a wrong one and an unknown email both yield the same 401. */
  method LogIn(env: Env, salt: Salt, store: UserStore, bl: BlackList)
      returns (loggedIn: Reply, wrongPassword: Reply, unknownEmail: Reply)
    requires store.docs == [Bob(env, salt)]
    requires BcryptCorrect(env.bcrypt)
    requires env.isEmail("bob@x.co") && env.isEmail("eve@x.co")
    requires !env.bcrypt.compare("wrong12", HashPassword(env.bcrypt, "secret1", salt))
    ensures var token := GenerateAuthToken(env.jwt, env.secret, Bob(env, salt), bl.clock);
      loggedIn == SessionReply(Bob(env, salt), token, SetToken(token))
    ensures wrongPassword == InvalidCredentials && unknownEmail == InvalidCredentials
  {
    var bob := Body(None, Some("bob@x.co"), Some("secret1"));
    var r1 := new Request(None, None, bob);
    loggedIn := PostLogin(r1, store, bl, env);
    var r2 := new Request(None, None, bob.(password := Some("wrong12")));
    wrongPassword := PostLogin(r2, store, bl, env);
    var r3 := new Request(None, None, bob.(email := Some("eve@x.co")));
    unknownEmail := PostLogin(r3, store, bl, env);
  }

  /** Logout end to end: with the session cookie the profile is served, the
      logout succeeds, and the same cookie is refused afterwards. */
  method LogOut(env: Env, salt: Salt, store: UserStore, bl: BlackList)
      returns (profile: Reply, loggedOut: Reply, profileAfter: Reply)
    requires bl.Valid() && bl.records == map[]
    requires store.docs == [Bob(env, salt)]
    requires JwtComplete(env.jwt)
    requires GenerateAuthToken(env.jwt, env.secret, Bob(env, salt), bl.clock) != ""  // a JWT has three non-empty parts
    modifies bl
    ensures profile == Sent(200, Profile(Some(View(Bob(env, salt), false))), KeepCookie)
    ensures loggedOut == LoggedOut
    ensures profileAfter == Unauthorized
  {
    var token := GenerateAuthToken(env.jwt, env.secret, Bob(env, salt), bl.clock);
    var body := Body(None, None, None);
    assert ExtractToken(Some(token), None) == Some(token);
    assert FindByIdDefault(store.docs, 0) == Some(View(Bob(env, salt), false));
    var r1 := new Request(Some(token), None, body);
    profile := GetProfile(r1, store, bl, env);
    var r2 := new Request(Some(token), None, body);
    loggedOut := PostLogout(r2, bl);
    assert token in bl.records;
    var r3 := new Request(Some(token), None, body);
    profileAfter := GetProfile(r3, store, bl, env);
  }

  /** A profile request whose header names a scheme but no token is refused
      before anything is looked up. */
  method NoToken(env: Env, store: UserStore, bl: BlackList) returns (anonymous: Reply)
    requires bl.Valid()
    ensures anonymous == Unauthorized
  {
    HeaderWithoutSpace(None, "Bearer");
    var r := new Request(None, Some("Bearer"), Body(None, None, None));
    anonymous := GetProfile(r, store, bl, env);
  }

  /** What may happen to the revocation collection between two requests. */
  datatype Step =
    | Wait(dt: nat)                    // time passes
    | Monitor(candidates: set<string>) // one pass of the TTL monitor
    | Revoke(token: Option<string>)    // another logout's `create`

  /** A logged-out token stays refused: log out through the route with a token
      issued no later than now and never revoked before, let any sequence of
      waits, TTL passes and other logouts happen, and the gate then refuses
      the same request. */
  method LoggedOutTokenStaysRefused(req: Request, bl: BlackList, docs: seq<User>, j: Jwt, secret: string,
                                    u: User, issuedAt: Time, steps: seq<Step>) returns (loggedOut: Reply)
    requires bl.Valid() && JwtComplete(j)
    requires ExtractToken(req.cookieToken, req.authorization) == Some(GenerateAuthToken(j, secret, u, issuedAt))
    requires issuedAt <= bl.clock
    requires GenerateAuthToken(j, secret, u, issuedAt) !in bl.revokedAt
    modifies bl
    ensures bl.Valid()
    ensures loggedOut == LoggedOut
    ensures Authenticate(req.cookieToken, req.authorization, bl.records, docs, j, secret, bl.clock).Halt?
  {
    var t := GenerateAuthToken(j, secret, u, issuedAt);
    assert t !in bl.records;
    loggedOut := PostLogout(req, bl);
    ghost var revoked := bl.revokedAt[t];
    assert issuedAt <= revoked;
    var k := 0;
    while k < |steps|
      invariant 0 <= k <= |steps|
      invariant bl.Valid()
      invariant t in bl.revokedAt && bl.revokedAt[t] == revoked
    {
      match steps[k] {
        case Wait(dt) => bl.Tick(dt);
        case Monitor(candidates) => bl.Sweep(candidates);
        case Revoke(token) => var _ := bl.Create(token);
      }
      k := k + 1;
    }
    RevokedTokenNeverAccepted(bl, docs, j, secret, u, issuedAt, req.cookieToken, req.authorization);
  }
}
