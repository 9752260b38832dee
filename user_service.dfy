/** `createUser`: the required-field check and the mapping of the flat input
    onto a user document. */
module UserService {
  import opened Common
  import opened UsersModel

  /** The object `createUser` is called with; a field may be missing. */
  datatype CreateUserInput = CreateUserInput(
    firstname: Option<string>, lastname: Option<string>, email: Option<string>, password: Option<string>)

  datatype ServiceError =
    | AllFieldsRequired        // `new Error('All Fields are Required!')`
    | Store(error: DbError)    // the rejection of `userModel.create`

  /** `!firstname || !email || !password` is false; lastname is not required. */
  predicate HasRequiredFields(i: CreateUserInput)
  {
    Truthy(i.firstname) && Truthy(i.email) && Truthy(i.password)
  }

  /** What `create` receives: `{ fullname: { firstname, lastname }, email, password }`. */
  function ToFields(i: CreateUserInput): (f: UserFields)
    requires HasRequiredFields(i)
    ensures f.firstname == i.firstname.value && f.lastname == i.lastname
    ensures f.email == i.email.value && f.password == i.password.value
  {
    UserFields(i.firstname.value, i.lastname, i.email.value, i.password.value)
  }

  /** `createUser`: throws when a required field is falsy, leaving the store
      alone; otherwise creates the document with the fields copied unchanged
      (the password is stored as given, no hashing here) and returns it. */
  method CreateUser(store: UserStore, i: CreateUserInput) returns (r: Result<User, ServiceError>)
    requires store.Valid()
    modifies store
    ensures store.Valid()
    ensures !HasRequiredFields(i) ==> r == Err(AllFieldsRequired)
    ensures r.Err? ==> store.docs == old(store.docs) && store.nextId == old(store.nextId)
    ensures HasRequiredFields(i) && !SchemaValid(ToFields(i)) ==> r == Err(Store(ValidationError("user")))
    ensures HasRequiredFields(i) && SchemaValid(ToFields(i)) && EmailTaken(old(store.docs), i.email.value) ==>
      r == Err(Store(DuplicateKey("email")))
    ensures r.Ok? ==>
      && HasRequiredFields(i)
      && r.value == User(old(store.nextId), FullName(i.firstname.value, i.lastname), i.email.value, i.password.value, None)
      && store.docs == old(store.docs) + [r.value]
    ensures HasRequiredFields(i) && SchemaValid(ToFields(i)) && !EmailTaken(old(store.docs), i.email.value) ==> r.Ok?
  {
    if !HasRequiredFields(i) {
      return Err(AllFieldsRequired);
    }
    var created := store.Create(ToFields(i));
    match created
    case Ok(u) => r := Ok(u);
    case Err(e) => r := Err(Store(e));
  }
}
