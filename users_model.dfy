/** The user schema, its instance and static methods, and the `users`
    collection the schema is stored in. */
module UsersModel {
  import opened Common
  import opened Crypto

  /** The bcrypt work factor used by `hashPassword`. */
  const BcryptCost: nat := 10

  /** `expiresIn: '24h'`, in seconds. */
  const TokenLifetime: int := 24 * 60 * 60

  datatype FullName = FullName(firstname: string, lastname: Option<string>)

  /** A stored user document; `password` holds the bcrypt digest. */
  datatype User = User(id: UserId, fullname: FullName, email: string, password: string, socketId: Option<string>)

  /** The fields handed to `create`; `_id` is assigned by the store. */
  datatype UserFields = UserFields(firstname: string, lastname: Option<string>, email: string, password: string)

  /** A user document as a query returns it: `password` is present only when
      the query selected it explicitly. */
  datatype UserView = UserView(id: UserId, fullname: FullName, email: string, password: Option<string>, socketId: Option<string>)

  /** The schema's validators: firstname required with at least 3 characters,
      lastname optional but at least 3 characters when given, email required
      with at least 5 characters, password required (a required string may
      not be empty). Uniqueness of email is an index, checked by the store. */
  predicate SchemaValid(f: UserFields)
  {
    && |f.firstname| >= 3
    && (f.lastname.Some? ==> |f.lastname.value| >= 3)
    && |f.email| >= 5
    && f.password != ""
  }

  /** The document as a read returns it. `password` is declared `select: false`,
      so only a query with `select('+password')` (and the document `create`
      returns) carries it. */
  function View(u: User, withPassword: bool): (v: UserView)
    ensures v.id == u.id && v.fullname == u.fullname && v.email == u.email && v.socketId == u.socketId
    ensures v.password.Some? <==> withPassword
    ensures v.password.Some? ==> v.password.value == u.password
  {
    UserView(u.id, u.fullname, u.email, if withPassword then Some(u.password) else None, u.socketId)
  }

  /** `userSchema.statics.hashPassword`: bcrypt at cost 10; the salt is the
      library's random choice, so it is a parameter here. */
  function HashPassword(b: Bcrypt, password: string, salt: Salt): (digest: string)
    ensures BcryptCorrect(b) ==> b.compare(password, digest)
  {
    b.hash(password, BcryptCost, salt)
  }

  /** `userSchema.methods.comparePassword`: checks a plaintext against the
      stored digest of this user; the user is a value, so nothing changes. */
  function ComparePassword(b: Bcrypt, u: User, password: string): (isMatch: bool)
    ensures BcryptCorrect(b) && (exists salt :: u.password == HashPassword(b, password, salt)) ==> isMatch
  {
    b.compare(password, u.password)
  }

  /** `userSchema.methods.generateAuthToken`: a token for subject `this.id`
      issued at `now` that expires 24 hours later. */
  function GenerateAuthToken(j: Jwt, secret: string, u: User, now: Time): (token: string)
    ensures JwtComplete(j) ==> j.verify(token, secret, now) == Decoded(Claims(u.id, now, now + TokenLifetime))
  {
    j.sign(Claims(u.id, now, now + TokenLifetime), secret)
  }

  /** A token issued at `issuedAt` verifies, with subject `u.id`, at every
      instant before `issuedAt + 24h` and is rejected as expired from then on. */
  lemma IssuedTokenLifetime(j: Jwt, secret: string, u: User, issuedAt: Time, now: Time)
    requires JwtComplete(j)
    ensures var v := j.verify(GenerateAuthToken(j, secret, u, issuedAt), secret, now);
            if now < issuedAt + TokenLifetime
            then v.Decoded? && v.claims.sub == u.id && v.claims.exp == issuedAt + TokenLifetime
            else v == Rejected(TokenExpiredError)
  {
  }

  /** The first document (in insertion order) whose email is `email`. */
  function FindByEmail(docs: seq<User>, email: string): (r: Option<User>)
    ensures r.Some? ==> r.value in docs && r.value.email == email
    ensures r.None? <==> forall u :: u in docs ==> u.email != email
  {
    if docs == [] then None
    else if docs[0].email == email then Some(docs[0])
    else FindByEmail(docs[1..], email)
  }

  /** The document whose `_id` is `id`, if any. */
  function FindById(docs: seq<User>, id: UserId): (r: Option<User>)
    ensures r.Some? ==> r.value in docs && r.value.id == id
    ensures r.None? <==> forall u :: u in docs ==> u.id != id
  {
    if docs == [] then None
    else if docs[0].id == id then Some(docs[0])
    else FindById(docs[1..], id)
  }

  /** With emails unique, as the index keeps them, `findOne({ email })` finds
      exactly the document that has that email. */
  lemma {:induction false} FindByEmailUnique(docs: seq<User>, n: nat)
    requires n < |docs|
    requires forall i, k :: 0 <= i < k < |docs| ==> docs[i].email != docs[k].email
    ensures FindByEmail(docs, docs[n].email) == Some(docs[n])
  {
    if n > 0 {
      assert docs[0].email != docs[n].email;
      FindByEmailUnique(docs[1..], n - 1);
    }
  }

  /** `userModel.findById(id)` with the default projection: the password is
      never part of the result. */
  function FindByIdDefault(docs: seq<User>, id: UserId): (r: Option<UserView>)
    ensures r.None? <==> forall u :: u in docs ==> u.id != id
    ensures r.Some? ==> r.value.id == id && r.value.password.None?
    ensures r.Some? ==> exists u :: u in docs && r.value == View(u, false)
  {
    match FindById(docs, id)
    case None => None
    case Some(u) => Some(View(u, false))
  }

  /** Whether any document has this email (the unique index's lookup). */
  predicate EmailTaken(docs: seq<User>, email: string)
  {
    exists i :: 0 <= i < |docs| && docs[i].email == email
  }

  /** The `users` collection: documents in insertion order and the next `_id`. */
  class UserStore {
    var docs: seq<User>
    var nextId: UserId

    /** Every stored document passed the schema, `_id`s and emails are unique,
        and every `_id` is below the next one to be assigned. */
    ghost predicate Valid()
      reads this
    {
      && (forall i :: 0 <= i < |docs| ==> docs[i].id < nextId && SchemaValid(
            UserFields(docs[i].fullname.firstname, docs[i].fullname.lastname, docs[i].email, docs[i].password)))
      && (forall i, k :: 0 <= i < k < |docs| ==> docs[i].id != docs[k].id && docs[i].email != docs[k].email)
    }

    constructor ()
      ensures Valid() && docs == [] && nextId == 0
    {
      docs := [];
      nextId := 0;
    }

    /** `userModel.create(fields)`: schema validation first, then the unique
        email index; on success the new document is appended and returned. */
    method Create(f: UserFields) returns (r: Result<User, DbError>)
      requires Valid()
      modifies this
      ensures Valid()
      ensures !SchemaValid(f) ==> r == Err(ValidationError("user"))
      ensures SchemaValid(f) && EmailTaken(old(docs), f.email) ==> r == Err(DuplicateKey("email"))
      ensures r.Err? ==> docs == old(docs) && nextId == old(nextId)
      ensures SchemaValid(f) && !EmailTaken(old(docs), f.email) ==>
        && r == Ok(User(old(nextId), FullName(f.firstname, f.lastname), f.email, f.password, None))
        && docs == old(docs) + [r.value]
        && nextId == old(nextId) + 1
    {
      if !SchemaValid(f) {
        return Err(ValidationError("user"));
      }
      if EmailTaken(docs, f.email) {
        return Err(DuplicateKey("email"));
      }
      var u := User(nextId, FullName(f.firstname, f.lastname), f.email, f.password, None);
      docs := docs + [u];
      nextId := nextId + 1;
      r := Ok(u);
    }
  }
}
