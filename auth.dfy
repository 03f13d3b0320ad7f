/** The token payload of src/lib/auth.ts.  Hashing, password checks and
    token signing and verification are foreign libraries; the routes take
    their outcomes as parameters.  Store items and token claims are
    attribute maps; the numeric claims `iat` and `exp` are carried as
    their decimal text. */
module Auth {
  import opened JsStrings
  import opened Database

  /** `expiresIn: '7d'`, in seconds. */
  const TokenLifetimeSeconds := 7 * 24 * 60 * 60

  /** The object `jwt.verify` decodes from a token. */
  type Claims = map<string, string>

  /** The user without `passwordHash`: `const { passwordHash, ...rest } = user`. */
  function WithoutPasswordHash(user: Item): (rest: Item)
    ensures "passwordHash" !in rest
    ensures rest.Keys == user.Keys - {"passwordHash"}
    ensures forall k :: k in rest ==> rest[k] == user[k]
  {
    map k | k in user && k != "passwordHash" :: user[k]
  }

  /** The payload `generateToken` signs at `issuedAt` seconds: `userId`,
      `email` and `name` taken from the user's `id`, `email` and `name`
      (an undefined one is dropped by the JSON encoding), plus the `iat`
      and `exp` claims the signer adds. */
  function IssuedClaims(user: Item, issuedAt: nat): (c: Claims)
    ensures c.Keys == {"iat", "exp"} + (if "id" in user then {"userId"} else {})
                      + (if "email" in user then {"email"} else {})
                      + (if "name" in user then {"name"} else {})
    ensures "id" !in c && "passwordHash" !in c
    ensures "userId" in c ==> c["userId"] == user["id"]
    ensures "email" in c ==> c["email"] == user["email"]
    ensures "name" in c ==> c["name"] == user["name"]
    ensures c["iat"] == Decimal(issuedAt)
    ensures c["exp"] == Decimal(issuedAt + TokenLifetimeSeconds)
  {
    var stamped := map["iat" := Decimal(issuedAt), "exp" := Decimal(issuedAt + TokenLifetimeSeconds)];
    var withId := if "id" in user then stamped["userId" := user["id"]] else stamped;
    var withEmail := if "email" in user then withId["email" := user["email"]] else withId;
    if "name" in user then withEmail["name" := user["name"]] else withEmail
  }
}
