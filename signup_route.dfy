/** `POST` of src/app/api/auth/signup/route.ts.  The store lookup, the
    hash and the user write are outcomes handed in as `Attempt`s: `Threw`
    is a rejected promise, which the handler's `catch` turns into 500. */
module SignupRoute {
  import opened Wrappers
  import opened JsStrings
  import opened Auth
  import opened Database

  const MinPasswordLength := 6

  /** `await db.getUserByEmail(email)` as written: `getUserByEmail` is a
      static member of `DatabaseService`, so it is `undefined` on the
      instance `new DatabaseService()` and calling it throws. */
  const InstanceLookup: Attempt<Option<Item>> := Threw("db.getUserByEmail is not a function")

  /** `await db.createUser(...)` as written: `createUser` is static too, so
      the write is never made. */
  const InstanceCreate: Attempt<Item> := Threw("db.createUser is not a function")

  /** The lookup with the static call `DatabaseService.getUserByEmail`. */
  function StaticLookup(users: seq<Item>, email: string): Attempt<Option<Item>> {
    Done(FirstUserByEmail(users, email))
  }

  /** The destructured JSON body; `Threw` when it is not JSON. */
  datatype SignupRequest = SignupRequest(name: Option<string>, email: Option<string>, password: Option<string>)

  datatype SignupReply =
    | MissingRequiredFields
    | PasswordTooShort
    | EmailTaken
    | UserCreated(user: Item)
    | InternalServerError(details: string)

  /** The response and the item built as the argument of `createUser`, if
      the handler got that far; whether it was written is the outcome of
      the call. */
  datatype SignupOutcome = SignupOutcome(status: nat, reply: SignupReply, createdItem: Option<Item>)

  /** The item `createUser` receives. */
  function NewUserItem(name: string, email: string, passwordHash: string): Item {
    map["name" := name, "email" := email, "passwordHash" := passwordHash]
  }

  predicate ValidSignup(r: SignupRequest) {
    Present(r.name) && Present(r.email) && Present(r.password) && |r.password.value| >= MinPasswordLength
  }

  /** The ladder: `existing` is the lookup of the body's email, `hashed`
      the hash of its password, `put` what `createUser` resolves to.  A
      400 comes before any call, a 409 before the write, and 500 exactly
      answers a thrown error. */
  function Signup(body: Attempt<SignupRequest>, existing: Attempt<Option<Item>>,
                  hashed: Attempt<string>, put: Attempt<Item>): (o: SignupOutcome)
    ensures o.status in {201, 400, 409, 500}
    ensures o.status == 400 <==> body.Done? && !ValidSignup(body.value)
    ensures o.status == 409 <==> body.Done? && ValidSignup(body.value) && existing.Done? && existing.value.Some?
    ensures o.status == 500 <==> o.reply.InternalServerError?
    ensures o.createdItem.Some? ==> o.status in {201, 500} && put.Done? == (o.status == 201)
  {
    match body
    case Threw(m) => SignupOutcome(500, InternalServerError(m), None)
    case Done(r) =>
      if !Present(r.name) || !Present(r.email) || !Present(r.password) then
        SignupOutcome(400, MissingRequiredFields, None)
      else if |r.password.value| < MinPasswordLength then
        SignupOutcome(400, PasswordTooShort, None)
      else match existing
        case Threw(m) => SignupOutcome(500, InternalServerError(m), None)
        case Done(Some(_)) => SignupOutcome(409, EmailTaken, None)
        case Done(None) =>
          match hashed
          case Threw(m) => SignupOutcome(500, InternalServerError(m), None)
          case Done(h) =>
            var item := NewUserItem(r.name.value, r.email.value, h);
            match put
            case Threw(m) => SignupOutcome(500, InternalServerError(m), Some(item))
            case Done(created) => SignupOutcome(201, UserCreated(created), Some(item))
  }

  /** A falsy name, email or password is answered 400 before the store or
      the hasher is consulted. */
  lemma MissingFieldsRejected(r: SignupRequest, e1: Attempt<Option<Item>>, e2: Attempt<Option<Item>>,
                              h1: Attempt<string>, h2: Attempt<string>, p1: Attempt<Item>, p2: Attempt<Item>)
    requires !Present(r.name) || !Present(r.email) || !Present(r.password)
    ensures Signup(Done(r), e1, h1, p1) == SignupOutcome(400, MissingRequiredFields, None)
    ensures Signup(Done(r), e1, h1, p1) == Signup(Done(r), e2, h2, p2)
  {
  }

  /** A present password shorter than six characters is answered 400,
      also before any lookup. */
  lemma ShortPasswordRejected(r: SignupRequest, e1: Attempt<Option<Item>>, e2: Attempt<Option<Item>>,
                              h1: Attempt<string>, h2: Attempt<string>, p1: Attempt<Item>, p2: Attempt<Item>)
    requires Present(r.name) && Present(r.email) && Present(r.password)
    requires |r.password.value| < MinPasswordLength
    ensures Signup(Done(r), e1, h1, p1) == SignupOutcome(400, PasswordTooShort, None)
    ensures Signup(Done(r), e1, h1, p1) == Signup(Done(r), e2, h2, p2)
  {
  }

  /** An existing user with the email is answered 409, `createUser` is not
      called, and neither the hash nor the write matters. */
  lemma ExistingEmailConflicts(r: SignupRequest, u: Item, h1: Attempt<string>, h2: Attempt<string>,
                               p1: Attempt<Item>, p2: Attempt<Item>)
    requires ValidSignup(r)
    ensures Signup(Done(r), Done(Some(u)), h1, p1) == SignupOutcome(409, EmailTaken, None)
    ensures Signup(Done(r), Done(Some(u)), h1, p1) == Signup(Done(r), Done(Some(u)), h2, p2)
  {
  }

  /** The `createUser` argument is built exactly for a valid body whose
      email is free once the hash succeeded, and it holds the name, the
      email and the hash, never the raw password. */
  lemma CreateUserGetsHashOnly(body: Attempt<SignupRequest>, existing: Attempt<Option<Item>>,
                               hashed: Attempt<string>, put: Attempt<Item>)
    ensures Signup(body, existing, hashed, put).createdItem.Some? <==>
              body.Done? && ValidSignup(body.value) && existing == Done(None) && hashed.Done?
    ensures var o := Signup(body, existing, hashed, put);
            o.createdItem.Some? ==>
              && o.createdItem.value.Keys == {"name", "email", "passwordHash"}
              && "password" !in o.createdItem.value
              && o.createdItem.value["passwordHash"] == hashed.value
              && o.createdItem.value["name"] == body.value.name.value
              && o.createdItem.value["email"] == body.value.email.value
  {
  }

  /** 201 exactly when every step succeeded, carrying what the write
      resolved to; every thrown error is answered 500 with its message. */
  lemma SignupStatuses(body: Attempt<SignupRequest>, existing: Attempt<Option<Item>>,
                       hashed: Attempt<string>, put: Attempt<Item>)
    ensures var o := Signup(body, existing, hashed, put);
            o.status == 201 <==>
              body.Done? && ValidSignup(body.value) && existing == Done(None) && hashed.Done? && put.Done?
    ensures var o := Signup(body, existing, hashed, put);
            o.status == 201 ==> o.reply == UserCreated(put.value)
    ensures var o := Signup(body, existing, hashed, put);
            o.status == 500 <==> o.reply.InternalServerError?
    ensures body.Threw? ==> Signup(body, existing, hashed, put) == SignupOutcome(500, InternalServerError(body.message), None)
    ensures var o := Signup(body, existing, hashed, put);
            o.status in {201, 400, 409, 500}
  {
  }

  /** As written, the lookup is made on the instance, so every body that
      passes validation is answered 500 and no user is ever created. */
  lemma InstanceLookupAlwaysFails(r: SignupRequest, hashed: Attempt<string>, put: Attempt<Item>)
    requires ValidSignup(r)
    ensures Signup(Done(r), InstanceLookup, hashed, put) ==
              SignupOutcome(500, InternalServerError("db.getUserByEmail is not a function"), None)
  {
  }

  /** Fixing the lookup alone is not enough: as written the write is an
      instance call too, so a valid signup with a free email is answered
      500 and no user is written. */
  lemma InstanceCreateFails(users: seq<Item>, r: SignupRequest, h: string)
    requires ValidSignup(r)
    requires forall i :: 0 <= i < |users| ==> !HasEmail(users[i], r.email.value)
    ensures Signup(Done(r), StaticLookup(users, r.email.value), Done(h), InstanceCreate) ==
              SignupOutcome(500, InternalServerError("db.createUser is not a function"),
                            Some(NewUserItem(r.name.value, r.email.value, h)))
  {
  }

  /** With the static lookup, a valid signup is refused 409 exactly when a
      stored user has the email, and otherwise reaches the write. */
  lemma StaticLookupDecidesConflict(users: seq<Item>, r: SignupRequest, h: string, put: Attempt<Item>)
    requires ValidSignup(r)
    ensures var o := Signup(Done(r), StaticLookup(users, r.email.value), Done(h), put);
            o.status == 409 <==> exists i :: 0 <= i < |users| && "email" in users[i] && users[i]["email"] == r.email.value
    ensures var o := Signup(Done(r), StaticLookup(users, r.email.value), Done(h), put);
            o.status != 409 ==> o.createdItem == Some(NewUserItem(r.name.value, r.email.value, h))
  {
    var found := FirstUserByEmail(users, r.email.value);
    if found.Some? {
      var i :| 0 <= i < |users| && users[i] == found.value;
    }
  }
}
