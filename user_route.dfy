/** The `/users` router: the express-validator chains in front of register and
    login, `authUser` in front of profile, and nothing in front of logout. */
module UserRoutes {
  import opened Common
  import opened Crypto
  import opened UsersModel
  import opened UserService
  import opened BlackListTokenModel
  import opened Http
  import opened AuthMiddleware
  import opened UserController

  /** The process-wide collaborators: bcrypt, jsonwebtoken, `process.env.SECRET`
      and the validator library's `isEmail`, whose grammar is not modelled. */
  datatype Env = Env(bcrypt: Bcrypt, jwt: Jwt, secret: string, isEmail: string -> bool)

  /** A validator sees a missing field as the empty string. */
  function Text(v: Option<string>): string
  {
    if v.Some? then v.value else ""
  }

  /** `fullname.firstname`, missing when `fullname` is. */
  function FirstnameOf(body: Body): Option<string>
  {
    if body.fullname.Some? then body.fullname.value.firstname else None
  }

  const InvalidEmail := FieldError("email", "Invalid Email")
  const ShortFirstname := FieldError("fullname.firstname", "First Name must be at least 3 characters long")
  const ShortRegisterPassword := FieldError("password", "Password must be at Least 6 characters long")
  const ShortLoginPassword := FieldError("password", "Password must be at least 6 characters long")

  /** The `/register` chain, in its order: email, first name, password. */
  function RegisterValidation(body: Body, isEmail: string -> bool): (errs: seq<FieldError>)
    ensures InvalidEmail in errs <==> !isEmail(Text(body.email))
    ensures ShortFirstname in errs <==> |Text(FirstnameOf(body))| < 3
    ensures ShortRegisterPassword in errs <==> |Text(body.password)| < 6
    ensures forall e :: e in errs ==> e == InvalidEmail || e == ShortFirstname || e == ShortRegisterPassword
    ensures errs == [] <==> isEmail(Text(body.email)) && |Text(FirstnameOf(body))| >= 3 && |Text(body.password)| >= 6
  {
    (if isEmail(Text(body.email)) then [] else [InvalidEmail])
    + (if |Text(FirstnameOf(body))| >= 3 then [] else [ShortFirstname])
    + (if |Text(body.password)| >= 6 then [] else [ShortRegisterPassword])
  }

  /** The `/login` chain: email, password; the first name is not looked at. */
  function LoginValidation(body: Body, isEmail: string -> bool): (errs: seq<FieldError>)
    ensures InvalidEmail in errs <==> !isEmail(Text(body.email))
    ensures ShortLoginPassword in errs <==> |Text(body.password)| < 6
    ensures forall e :: e in errs ==> e == InvalidEmail || e == ShortLoginPassword
    ensures errs == [] <==> isEmail(Text(body.email)) && |Text(body.password)| >= 6
  {
    (if isEmail(Text(body.email)) then [] else [InvalidEmail])
    + (if |Text(body.password)| >= 6 then [] else [ShortLoginPassword])
  }

  /** `POST /register`: the validators, then `registerUser`. */
  method PostRegister(req: Request, store: UserStore, bl: BlackList, env: Env, salt: Salt) returns (reply: Reply)
    requires store.Valid()
    modifies req`errors, store
    ensures store.Valid()
    ensures req.errors == RegisterValidation(req.body, env.isEmail)
    ensures req.errors != [] ==> reply == Sent(400, Errors(req.errors), KeepCookie)
    ensures !(reply.Sent? && reply.status == 200) ==> store.docs == old(store.docs)
    ensures reply.Sent? && reply.status == 200 ==>
      && env.isEmail(Text(req.body.email)) && |Text(FirstnameOf(req.body))| >= 3 && |Text(req.body.password)| >= 6
      && req.body.fullname.Some? && req.body.fullname.value.firstname.Some? && req.body.email.Some?
      && |store.docs| == |old(store.docs)| + 1
      && store.docs[|store.docs| - 1] == User(old(store.nextId),
           FullName(req.body.fullname.value.firstname.value, req.body.fullname.value.lastname),
           req.body.email.value, HashPassword(env.bcrypt, req.body.password.value, salt), None)
      && store.docs == old(store.docs) + [store.docs[|store.docs| - 1]]
      && reply == SessionReply(store.docs[|store.docs| - 1],
                   GenerateAuthToken(env.jwt, env.secret, store.docs[|store.docs| - 1], bl.clock), KeepCookie)
    ensures req.errors == [] && req.body.fullname.Some? && req.body.password.Some? ==>
      var i := RegisterInput(req.body, HashPassword(env.bcrypt, req.body.password.value, salt));
      (reply.Sent? && reply.status == 200 <==>
        HasRequiredFields(i) && SchemaValid(ToFields(i)) && !EmailTaken(old(store.docs), i.email.value))
  {
    req.errors := RegisterValidation(req.body, env.isEmail);
    reply := RegisterUser(req, store, env.bcrypt, salt, env.jwt, env.secret, bl.clock);
  }

  /** `POST /login`: the validators, then `loginUser`. */
  method PostLogin(req: Request, store: UserStore, bl: BlackList, env: Env) returns (reply: Reply)
    modifies req`errors
    ensures req.errors == LoginValidation(req.body, env.isEmail)
    ensures req.errors != [] ==> reply == Sent(400, Errors(req.errors), KeepCookie)
    ensures req.errors == [] && (req.body.email.None? || FindByEmail(store.docs, req.body.email.value).None?) ==>
      reply == InvalidCredentials
    ensures req.errors == [] && req.body.email.Some? && FindByEmail(store.docs, req.body.email.value).Some? &&
            req.body.password.Some? ==>
      var u := FindByEmail(store.docs, req.body.email.value).value;
      var token := GenerateAuthToken(env.jwt, env.secret, u, bl.clock);
      reply == if ComparePassword(env.bcrypt, u, req.body.password.value)
               then SessionReply(u, token, SetToken(token)) else InvalidCredentials
    ensures reply.Sent? && reply.status == 200 ==>
      && env.isEmail(Text(req.body.email)) && |Text(req.body.password)| >= 6
      && req.body.email.Some? && req.body.password.Some?
      && var u := FindByEmail(store.docs, req.body.email.value);
      && u.Some? && ComparePassword(env.bcrypt, u.value, req.body.password.value)
      && reply == SessionReply(u.value, GenerateAuthToken(env.jwt, env.secret, u.value, bl.clock),
                               SetToken(GenerateAuthToken(env.jwt, env.secret, u.value, bl.clock)))
  {
    req.errors := LoginValidation(req.body, env.isEmail);
    reply := LoginUser(req, store, env.bcrypt, env.jwt, env.secret, bl.clock);
  }

  /** `GET /profile`: `authUser`, and `getUserProfile` only when it calls `next()`. */
  method GetProfile(req: Request, store: UserStore, bl: BlackList, env: Env) returns (reply: Reply)
    requires bl.Valid()
    modifies req`user
    ensures var g := Authenticate(req.cookieToken, req.authorization, bl.records, store.docs, env.jwt, env.secret, bl.clock);
      && (g.Halt? ==> reply == g.reply && req.user == old(req.user))
      && (g.Next? ==> reply == Sent(200, Profile(g.user), KeepCookie) && req.user == g.user)
    ensures reply.Sent? && reply.status == 200 ==>
      Authenticate(req.cookieToken, req.authorization, bl.records, store.docs, env.jwt, env.secret, bl.clock).Next?
  {
    var g := AuthUser(req, bl, store, env.jwt, env.secret);
    if g.Halt? {
      return g.reply;
    }
    reply := GetUserProfile(req);
  }

  /** `POST /logout`: no gate, so any token the request carries is revoked,
      whether or not it verifies; the JWT library is not consulted at all. */
  method PostLogout(req: Request, bl: BlackList) returns (reply: Reply)
    requires bl.Valid()
    modifies bl
    ensures bl.Valid() && bl.clock == old(bl.clock)
    ensures var t := ExtractToken(req.cookieToken, req.authorization);
      && (reply.Sent? <==> t.Some? && t.value !in old(bl.records))
      && (reply.Sent? ==> reply == LoggedOut && bl.records == old(bl.records)[t.value := bl.clock])
      && (reply.Sent? ==> bl.revokedAt == if t.value in old(bl.revokedAt) then old(bl.revokedAt)
                                          else old(bl.revokedAt)[t.value := bl.clock])
      && (reply.Unhandled? ==> bl.records == old(bl.records) && bl.revokedAt == old(bl.revokedAt))
  {
    reply := LogoutUser(req, bl);
  }
}
