/** `POST` of src/app/api/auth/login/route.ts.  The lookup and the
    password check are outcomes handed in as `Attempt`s; `sign` is
    `jwt.sign` with the server's secret. */
module LoginRoute {
  import opened Wrappers
  import opened JsStrings
  import opened Database
  import opened Auth

  /** `await db.getUserByEmail(email)` as written, on the instance, where
      the static member is `undefined`. */
  const InstanceLookup: Attempt<Option<Item>> := Threw("db.getUserByEmail is not a function")

  datatype LoginRequest = LoginRequest(email: Option<string>, password: Option<string>)

  datatype LoginReply =
    | CredentialsRequired
    | InvalidCredentials
    | LoggedIn(user: Item, token: string)
    | InternalServerError

  /** The response and the claims handed to the signer, if a token was
      issued. */
  datatype LoginOutcome = LoginOutcome(status: nat, reply: LoginReply, signed: Option<Claims>)

  /** The ladder: `found` is the lookup of the body's email, `matches` the
      check of the password against the found user's `passwordHash`, and
      `issuedAt` the signing time in seconds.  A token is signed only for a
      found user whose password matched, and both failures look alike. */
  function Login(body: Attempt<LoginRequest>, found: Attempt<Option<Item>>, matches: Attempt<bool>,
                 sign: Claims -> string, issuedAt: nat): (o: LoginOutcome)
    ensures o.status in {200, 400, 401, 500}
    ensures o.status == 400 <==> body.Done? && !(Present(body.value.email) && Present(body.value.password))
    ensures o.status == 200 <==> o.signed.Some?
    ensures o.signed.Some? ==> found.Done? && found.value.Some? && matches == Done(true)
    ensures o.status == 401 ==> o.reply == InvalidCredentials
  {
    match body
    case Threw(_) => LoginOutcome(500, InternalServerError, None)
    case Done(r) =>
      if !Present(r.email) || !Present(r.password) then LoginOutcome(400, CredentialsRequired, None)
      else match found
        case Threw(_) => LoginOutcome(500, InternalServerError, None)
        case Done(None) => LoginOutcome(401, InvalidCredentials, None)
        case Done(Some(user)) =>
          match matches
          case Threw(_) => LoginOutcome(500, InternalServerError, None)
          case Done(false) => LoginOutcome(401, InvalidCredentials, None)
          case Done(true) =>
            var publicUser := WithoutPasswordHash(user);
            var claims := IssuedClaims(publicUser, issuedAt);
            LoginOutcome(200, LoggedIn(publicUser, sign(claims)), Some(claims))
  }

  /** A missing email or password is answered 400 before the lookup. */
  lemma MissingCredentialsRejected(r: LoginRequest, f1: Attempt<Option<Item>>, f2: Attempt<Option<Item>>,
                                   m1: Attempt<bool>, m2: Attempt<bool>, sign: Claims -> string, issuedAt: nat)
    requires !Present(r.email) || !Present(r.password)
    ensures Login(Done(r), f1, m1, sign, issuedAt) == LoginOutcome(400, CredentialsRequired, None)
    ensures Login(Done(r), f1, m1, sign, issuedAt) == Login(Done(r), f2, m2, sign, issuedAt)
  {
  }

  /** An unknown email and a wrong password get the same answer: 401
      "Invalid credentials", and no token. */
  lemma UnknownUserLooksLikeWrongPassword(r: LoginRequest, user: Item, m: Attempt<bool>,
                                          sign: Claims -> string, issuedAt: nat)
    requires Present(r.email) && Present(r.password)
    ensures Login(Done(r), Done(None), m, sign, issuedAt) == Login(Done(r), Done(Some(user)), Done(false), sign, issuedAt)
    ensures Login(Done(r), Done(None), m, sign, issuedAt) == LoginOutcome(401, InvalidCredentials, None)
  {
  }

  /** A token is issued exactly when the lookup found a user and the
      password matched; the returned user and the signed claims both lack
      `passwordHash`, and the token is the signature of those claims. */
  lemma TokenOnlyAfterVerification(body: Attempt<LoginRequest>, found: Attempt<Option<Item>>, matches: Attempt<bool>,
                                   sign: Claims -> string, issuedAt: nat)
    ensures var o := Login(body, found, matches, sign, issuedAt);
            o.signed.Some? <==>
              (body.Done? && Present(body.value.email) && Present(body.value.password)
               && found.Done? && found.value.Some? && matches == Done(true))
    ensures var o := Login(body, found, matches, sign, issuedAt);
            o.status == 200 <==> o.signed.Some?
    ensures var o := Login(body, found, matches, sign, issuedAt);
            o.signed.Some? ==>
              && o.reply.LoggedIn?
              && o.reply.user.Keys == found.value.value.Keys - {"passwordHash"}
              && (forall k :: k in o.reply.user ==> o.reply.user[k] == found.value.value[k])
              && "passwordHash" !in o.signed.value
              && o.signed.value == IssuedClaims(o.reply.user, issuedAt)
              && o.reply.token == sign(o.signed.value)
  {
  }

  /** Every thrown error is answered 500. */
  lemma ThrownErrorsAre500(body: Attempt<LoginRequest>, found: Attempt<Option<Item>>, matches: Attempt<bool>,
                           sign: Claims -> string, issuedAt: nat)
    ensures var o := Login(body, found, matches, sign, issuedAt);
            o.status == 500 <==>
              (body.Threw? || (Present(body.value.email) && Present(body.value.password)
                               && (found.Threw? || (found.value.Some? && matches.Threw?))))
    ensures var o := Login(body, found, matches, sign, issuedAt);
            o.status in {200, 400, 401, 500}
  {
  }

  /** As written, the lookup is made on the instance, so every login with
      both fields present is answered 500 and no token is ever issued. */
  lemma InstanceLookupAlwaysFails(r: LoginRequest, matches: Attempt<bool>, sign: Claims -> string, issuedAt: nat)
    requires Present(r.email) && Present(r.password)
    ensures Login(Done(r), InstanceLookup, matches, sign, issuedAt) == LoginOutcome(500, InternalServerError, None)
  {
  }

  /** With the static lookup, a token is issued exactly when a stored user
      has the email and the password matched. */
  lemma StaticLookupLogsIn(users: seq<Item>, r: LoginRequest, matches: Attempt<bool>,
                           sign: Claims -> string, issuedAt: nat)
    requires Present(r.email) && Present(r.password)
    ensures var o := Login(Done(r), Done(FirstUserByEmail(users, r.email.value)), matches, sign, issuedAt);
            o.status == 200 <==>
              (matches == Done(true)
               && exists i :: 0 <= i < |users| && "email" in users[i] && users[i]["email"] == r.email.value)
  {
    var found := FirstUserByEmail(users, r.email.value);
    if found.Some? {
      var i :| 0 <= i < |users| && users[i] == found.value;
    }
  }
}
