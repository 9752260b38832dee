/** What the handlers see of an Express request and what they send back. */
module Http {
  import opened Common
  import opened Crypto
  import opened UsersModel
  import opened UserService

  datatype FullNameInput = FullNameInput(firstname: Option<string>, lastname: Option<string>)

  /** The parsed JSON body; any field may be missing. */
  datatype Body = Body(fullname: Option<FullNameInput>, email: Option<string>, password: Option<string>)

  /** One entry of `validationResult(req).array()`. */
  datatype FieldError = FieldError(path: string, msg: string)

  /** The JSON bodies the handlers send. */
  datatype Json =
    | Message(text: string)                    // `{ message: "..." }`
    | Errors(list: seq<FieldError>)            // `{ errors: [...] }`
    | Session(user: UserView, token: string)   // `{ user, token }`
    | VerifyFailure(jwtError: JwtError)        // `{ message: err }` with the thrown error object
    | Profile(found: Option<UserView>)         // `req.user` itself, `null` when no user was found

  /** What a response does with the `token` cookie. */
  datatype CookieOp = KeepCookie | SetToken(token: string) | ClearToken

  /** Why a handler's promise rejects; nothing in the handlers catches these. */
  datatype Fault =
    | TypeError                  // reading a property of `undefined`
    | BcryptArguments            // bcrypt called without a string
    | Service(error: ServiceError)
    | Db(dbError: DbError)

  /** A sent response, or a rejection after which this code sends nothing. */
  datatype Reply = Sent(status: int, body: Json, cookie: CookieOp) | Unhandled(fault: Fault)

  /** The one 401 body the gate sends when no token is found or it is revoked. */
  const Unauthorized: Reply := Sent(401, Message("Unauthorized"), KeepCookie)

  /** The one 401 body login sends for an unknown email and for a wrong password. */
  const InvalidCredentials: Reply := Sent(401, Message("Invalid Email or Password"), KeepCookie)

  /** The request: cookie and header are read, the validation result and
      `req.user` are written by the validators and by the gate. */
  class Request {
    const cookieToken: Option<string>     // `req.cookies.token`
    const authorization: Option<string>   // `req.headers.authorization`
    const body: Body                      // `req.body`
    var errors: seq<FieldError>           // what `validationResult(req)` reads
    var user: Option<UserView>            // `req.user`

    constructor (cookieToken: Option<string>, authorization: Option<string>, body: Body)
      ensures this.cookieToken == cookieToken && this.authorization == authorization && this.body == body
      ensures errors == [] && user == None
    {
      this.cookieToken, this.authorization, this.body := cookieToken, authorization, body;
      errors, user := [], None;
    }
  }
}
