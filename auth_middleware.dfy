/** `authUser`: find the session token in the request, refuse it when it is
    missing or revoked or does not verify, and otherwise put the token's user
    on the request and hand over to the next handler. */
module AuthMiddleware {
  import opened Common
  import opened Crypto
  import opened UsersModel
  import opened BlackListTokenModel
  import opened Http

  /** `String.prototype.split(sep)` with a one-character separator: the
      pieces between consecutive separators, empty ones included. */
  function Split(s: string, sep: char): (parts: seq<string>)
    ensures |parts| >= 1
    ensures forall k :: 0 <= k < |parts| ==> sep !in parts[k]
  {
    if s == [] then [""]
    else
      var rest := Split(s[1..], sep);
      if s[0] == sep then [""] + rest
      else [[s[0]] + rest[0]] + rest[1..]
  }

  /** `Array.prototype.join(sep)`, the inverse of `Split`. */
  function Join(parts: seq<string>, sep: char): string
    requires |parts| >= 1
  {
    if |parts| == 1 then parts[0] else parts[0] + [sep] + Join(parts[1..], sep)
  }

  /** Splitting loses nothing: the pieces joined back give the header. */
  lemma {:induction false} JoinSplit(s: string, sep: char)
    ensures Join(Split(s, sep), sep) == s
  {
    if s != [] {
      JoinSplit(s[1..], sep);
      var rest := Split(s[1..], sep);
      if s[0] != sep && |rest| > 1 {
        assert Join(rest, sep) == rest[0] + [sep] + Join(rest[1..], sep);
        assert [s[0]] + s[1..] == s;
      }
    }
  }

  /** A string without the separator is a single piece. */
  lemma {:induction false} SplitPiece(p: string, sep: char)
    requires sep !in p
    ensures Split(p, sep) == [p]
  {
    if p != [] {
      SplitPiece(p[1..], sep);
      assert [p[0]] + p[1..] == p;
    }
  }

  /** A separator-free prefix followed by the separator is the first piece. */
  lemma {:induction false} SplitAfterPiece(p: string, sep: char, r: string)
    requires sep !in p
    ensures Split(p + [sep] + r, sep) == [p] + Split(r, sep)
  {
    if p != [] {
      assert (p + [sep] + r)[1..] == p[1..] + [sep] + r;
      SplitAfterPiece(p[1..], sep, r);
      assert [p[0]] + p[1..] == p;
    }
  }

  /** Joining separator-free pieces and splitting again gives the pieces back. */
  lemma {:induction false} SplitJoin(parts: seq<string>, sep: char)
    requires |parts| >= 1
    requires forall k :: 0 <= k < |parts| ==> sep !in parts[k]
    ensures Split(Join(parts, sep), sep) == parts
  {
    if |parts| == 1 {
      SplitPiece(parts[0], sep);
    } else {
      SplitJoin(parts[1..], sep);
      SplitAfterPiece(parts[0], sep, Join(parts[1..], sep));
      assert [parts[0]] + parts[1..] == parts;
    }
  }

  /** `req.headers.authorization?.split(' ')[1] || null`. */
  function HeaderToken(authorization: Option<string>): (t: Option<string>)
    ensures t.Some? ==> t.value != "" && ' ' !in t.value
  {
    if authorization.None? then None
    else
      var parts := Split(authorization.value, ' ');
      if |parts| > 1 && parts[1] != "" then Some(parts[1]) else None
  }

  /** `req.cookies.token || (req.headers.authorization?.split(' ')[1] || null)`:
      a truthy cookie wins whatever the header says; otherwise the second
      space-separated field of the header, unless it is missing or empty. */
  function ExtractToken(cookieToken: Option<string>, authorization: Option<string>): (t: Option<string>)
    ensures Truthy(cookieToken) ==> t == cookieToken
    ensures !Truthy(cookieToken) ==> t == HeaderToken(authorization)
    ensures t.Some? ==> Truthy(t)
  {
    if Truthy(cookieToken) then cookieToken else HeaderToken(authorization)
  }

  /** With no usable cookie, `Authorization: <scheme> <token>` yields the token,
      whatever the scheme word. */
  lemma BearerToken(cookieToken: Option<string>, scheme: string, token: string)
    requires !Truthy(cookieToken)
    requires ' ' !in scheme && ' ' !in token && token != ""
    ensures ExtractToken(cookieToken, Some(scheme + " " + token)) == Some(token)
  {
    SplitAfterPiece(scheme, ' ', token);
    SplitPiece(token, ' ');
  }

  /** With no usable cookie, a header without a space yields no token. */
  lemma HeaderWithoutSpace(cookieToken: Option<string>, h: string)
    requires !Truthy(cookieToken)
    requires ' ' !in h
    ensures ExtractToken(cookieToken, Some(h)) == None
  {
    SplitPiece(h, ' ');
  }

  /** With no usable cookie, a header `w + " " + r` whose second field is
      empty (`r` is empty or starts with another space) yields no token. */
  lemma EmptySecondField(cookieToken: Option<string>, w: string, r: string)
    requires !Truthy(cookieToken)
    requires ' ' !in w && (r == "" || r[0] == ' ')
    ensures ExtractToken(cookieToken, Some(w + " " + r)) == None
  {
    SplitAfterPiece(w, ' ', r);
  }

  /** The decision `authUser` takes: halt with a response, or call `next()`
      with the user `req.user` is set to. */
  datatype Gate = Next(user: Option<UserView>) | Halt(reply: Reply)

  /** `authUser` over the request's cookie and header, the revocation records,
      the user documents, the JWT library and the current time. */
  function Authenticate(cookieToken: Option<string>, authorization: Option<string>,
                        revoked: map<string, Time>, docs: seq<User>,
                        j: Jwt, secret: string, now: Time): (g: Gate)
    // no token: 401 Unauthorized
    ensures ExtractToken(cookieToken, authorization).None? ==> g == Halt(Unauthorized)
    // revoked: 401 Unauthorized, whatever verification would say
    ensures ExtractToken(cookieToken, authorization).Some? && ExtractToken(cookieToken, authorization).value in revoked ==>
      g == Halt(Unauthorized)
    // verification throws: 401 with the error as the message
    ensures var t := ExtractToken(cookieToken, authorization);
      t.Some? && t.value !in revoked && j.verify(t.value, secret, now).Rejected? ==>
      g == Halt(Sent(401, VerifyFailure(j.verify(t.value, secret, now).error), KeepCookie))
    // next() exactly when a present, unrevoked token verifies
    ensures var t := ExtractToken(cookieToken, authorization);
      g.Next? <==> t.Some? && t.value !in revoked && j.verify(t.value, secret, now).Decoded?
    // req.user is whatever findById finds for the subject, possibly nothing
    ensures g.Next? ==>
      g.user == FindByIdDefault(docs, j.verify(ExtractToken(cookieToken, authorization).value, secret, now).claims.sub)
    // every halt is a 401 that leaves the cookie alone
    ensures g.Halt? ==> g.reply.Sent? && g.reply.status == 401 && g.reply.cookie == KeepCookie
  {
    var token := ExtractToken(cookieToken, authorization);
    if token.None? then Halt(Unauthorized)
    else if token.value in revoked then Halt(Unauthorized)
    else match j.verify(token.value, secret, now)
      case Rejected(e) => Halt(Sent(401, VerifyFailure(e), KeepCookie))
      case Decoded(c) => Next(FindByIdDefault(docs, c.sub))
  }

  /** The middleware itself: sets `req.user` only on the way to `next()`. */
  method AuthUser(req: Request, bl: BlackList, store: UserStore, j: Jwt, secret: string) returns (g: Gate)
    requires bl.Valid()
    modifies req`user
    ensures g == Authenticate(req.cookieToken, req.authorization, bl.records, store.docs, j, secret, bl.clock)
    ensures g.Next? ==> req.user == g.user
    ensures g.Halt? ==> req.user == old(req.user)
  {
    var token := ExtractToken(req.cookieToken, req.authorization);
    if token.None? {
      return Halt(Unauthorized);
    }
    var isBlackListed := bl.FindOne(token.value);
    if isBlackListed {
      return Halt(Unauthorized);
    }
    var decoded := j.verify(token.value, secret, bl.clock);
    if decoded.Rejected? {
      return Halt(Sent(401, VerifyFailure(decoded.error), KeepCookie));
    }
    var user := FindByIdDefault(store.docs, decoded.claims.sub);
    req.user := user;
    g := Next(user);
  }
}
