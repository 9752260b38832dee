/** The four route handlers: register, login, profile and logout. */
module UserController {
  import opened Common
  import opened Crypto
  import opened UsersModel
  import opened UserService
  import opened BlackListTokenModel
  import opened Http
  import opened AuthMiddleware

  /** The body `registerUser` and `loginUser` send on success. */
  function SessionReply(u: User, token: string, cookie: CookieOp): Reply
  {
    Sent(200, Session(View(u, true), token), cookie)
  }

  /** What `registerUser` hands to `createUser`: the body's names and email
      with the digest in place of the password. */
  function RegisterInput(body: Body, digest: string): (i: CreateUserInput)
    requires body.fullname.Some?
    ensures i.password == Some(digest) && i.email == body.email
    ensures i.firstname == body.fullname.value.firstname && i.lastname == body.fullname.value.lastname
  {
    CreateUserInput(body.fullname.value.firstname, body.fullname.value.lastname, body.email, Some(digest))
  }

  /** `registerUser`: 400 with the validation errors, or hash the password,
      create the user through the service, and send the created document with
      a fresh token. A rejection on the way (a missing field, a bcrypt argument
      error, a failed create) escapes the handler. No cookie is set. */
  method RegisterUser(req: Request, store: UserStore, b: Bcrypt, salt: Salt, j: Jwt, secret: string, now: Time)
    returns (reply: Reply)
    requires store.Valid()
    modifies store
    ensures store.Valid()
    ensures req.errors != [] ==> reply == Sent(400, Errors(req.errors), KeepCookie)
    ensures !(reply.Sent? && reply.status == 200) ==> store.docs == old(store.docs)
    ensures reply.Sent? ==> reply.cookie == KeepCookie
    ensures req.errors == [] && req.body.password.None? ==> reply == Unhandled(BcryptArguments)
    ensures req.errors == [] && req.body.password.Some? && req.body.fullname.None? ==> reply == Unhandled(TypeError)
    ensures reply.Sent? && reply.status == 200 ==>
      && req.errors == [] && req.body.fullname.Some? && req.body.password.Some?
      && req.body.fullname.value.firstname.Some? && req.body.email.Some?
      && |store.docs| == |old(store.docs)| + 1
      && var u := store.docs[|store.docs| - 1];
      && store.docs == old(store.docs) + [u]
      && u == User(old(store.nextId), FullName(req.body.fullname.value.firstname.value, req.body.fullname.value.lastname),
                   req.body.email.value, HashPassword(b, req.body.password.value, salt), None)
      && reply == SessionReply(u, GenerateAuthToken(j, secret, u, now), KeepCookie)
    ensures req.errors == [] && req.body.fullname.Some? && req.body.password.Some? ==>
      var i := RegisterInput(req.body, HashPassword(b, req.body.password.value, salt));
      && (reply.Sent? <==> HasRequiredFields(i) && SchemaValid(ToFields(i)) && !EmailTaken(old(store.docs), i.email.value))
      && (reply.Sent? ==> reply.status == 200)
  {
    var errors := req.errors;
    if errors != [] {
      return Sent(400, Errors(errors), KeepCookie);
    }
    if req.body.password.None? {
      return Unhandled(BcryptArguments);
    }
    var hashedPassword := HashPassword(b, req.body.password.value, salt);
    if req.body.fullname.None? {
      return Unhandled(TypeError);
    }
    var created := CreateUser(store, RegisterInput(req.body, hashedPassword));
    if created.Err? {
      return Unhandled(Service(created.error));
    }
    var user := created.value;
    var token := GenerateAuthToken(j, secret, user, now);
    reply := SessionReply(user, token, KeepCookie);
  }

  /** `loginUser`: 400 with the validation errors; the same 401 for an unknown
      email and for a wrong password; otherwise a token, sent both as the
      `token` cookie and in the body, with the user selected with its password. */
  method LoginUser(req: Request, store: UserStore, b: Bcrypt, j: Jwt, secret: string, now: Time)
    returns (reply: Reply)
    ensures req.errors != [] ==> reply == Sent(400, Errors(req.errors), KeepCookie)
    ensures req.errors == [] && (req.body.email.None? || FindByEmail(store.docs, req.body.email.value).None?) ==>
      reply == InvalidCredentials
    ensures req.errors == [] && req.body.email.Some? && FindByEmail(store.docs, req.body.email.value).Some? ==>
      var u := FindByEmail(store.docs, req.body.email.value).value;
      && (req.body.password.None? ==> reply == Unhandled(BcryptArguments))
      && (req.body.password.Some? && !ComparePassword(b, u, req.body.password.value) ==> reply == InvalidCredentials)
      && (req.body.password.Some? && ComparePassword(b, u, req.body.password.value) ==>
            reply == SessionReply(u, GenerateAuthToken(j, secret, u, now), SetToken(GenerateAuthToken(j, secret, u, now))))
    ensures reply.Sent? && reply.status == 200 ==> reply.body.Session? && reply.cookie == SetToken(reply.body.token)
    ensures reply.Sent? && reply.status == 401 ==> reply == InvalidCredentials
  {
    var errors := req.errors;
    if errors != [] {
      return Sent(400, Errors(errors), KeepCookie);
    }
    var user := if req.body.email.None? then None else FindByEmail(store.docs, req.body.email.value);
    if user.None? {
      return InvalidCredentials;
    }
    if req.body.password.None? {
      return Unhandled(BcryptArguments);
    }
    var isMatch := ComparePassword(b, user.value, req.body.password.value);
    if !isMatch {
      return InvalidCredentials;
    }
    var token := GenerateAuthToken(j, secret, user.value, now);
    reply := SessionReply(user.value, token, SetToken(token));
  }

  /** `getUserProfile`: 200 with `req.user`, which may be `null`. */
  method GetUserProfile(req: Request) returns (reply: Reply)
    ensures reply.Sent? && reply.status == 200 && reply.cookie == KeepCookie
    ensures reply.body == Profile(req.user)
  {
    reply := Sent(200, Profile(req.user), KeepCookie);
  }

  /** The response of a successful logout; it also clears the cookie. */
  const LoggedOut: Reply := Sent(200, Message("User Logged Out Succesfuly!"), ClearToken)

  /** `logoutUser`: takes the token exactly as `authUser` does, records it as
      revoked and clears the cookie. Nothing is verified first. A missing,
      empty or already revoked token makes `create` reject, which escapes. */
  method LogoutUser(req: Request, bl: BlackList) returns (reply: Reply)
    requires bl.Valid()
    modifies bl
    ensures bl.Valid() && bl.clock == old(bl.clock)
    ensures var t := ExtractToken(req.cookieToken, req.authorization);
      && (t.None? ==> reply == Unhandled(Db(ValidationError("token"))))
      && (t.Some? && t.value in old(bl.records) ==> reply == Unhandled(Db(DuplicateKey("token"))))
      && (reply.Unhandled? ==> bl.records == old(bl.records) && bl.revokedAt == old(bl.revokedAt))
      && (t.Some? && t.value !in old(bl.records) ==>
            && reply == LoggedOut
            && bl.records == old(bl.records)[t.value := bl.clock]
            && bl.revokedAt == if t.value in old(bl.revokedAt) then old(bl.revokedAt)
                               else old(bl.revokedAt)[t.value := bl.clock])
  {
    var token := ExtractToken(req.cookieToken, req.authorization);
    var created := bl.Create(token);
    if created.Err? {
      return Unhandled(Db(created.error));
    }
    reply := LoggedOut;
  }
}
