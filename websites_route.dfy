/** `getUserIdFromRequest`, `GET` and `POST` of
    src/app/api/websites/route.ts.  `verify` is `verifyToken`: the claims
    of a token that verifies, `None` when it does not (the `null` of its
    own `catch`).  The handlers take the user ID the helper returned and
    the store calls' outcomes as parameters, so that both the code as
    written (the `id` claim, instance calls of static store methods) and
    the evident intent (the `userId` claim, static calls) can be stated. */
module WebsitesRoute {
  import opened Wrappers
  import opened JsStrings
  import opened Database
  import opened Auth

  const BearerPrefix := "Bearer "

  /** The first `c`-separated piece of `s` is a prefix of `s` without `c`,
      followed in `s` by `c` or by nothing. */
  lemma SplitOnHead(s: string, c: char)
    ensures var p := SplitOn(s, c)[0];
            StartsWith(s, p) && c !in p && (|p| < |s| ==> s[|p|] == c)
  {
    match IndexOf(s, c)
    case None =>
    case Some(i) =>
  }

  /** A header opening with "Bearer " splits into "Bearer" and the pieces
      of the rest. */
  lemma BearerSplit(h: string)
    requires StartsWith(h, BearerPrefix)
    ensures SplitOn(h, ' ') == ["Bearer"] + SplitOn(h[|BearerPrefix|..], ' ')
  {
    assert h[6] == ' ';
    assert h[..6] == "Bearer";
    assert ' ' !in h[..6];
    assert h[6] in h[..7];
    assert IndexOf(h, ' ') == Some(6);
  }

  /** `authHeader.split(' ')[1]` once the header is known to open with
      "Bearer ": the text after the prefix up to the next space, or all of
      it.  `None` for a missing or empty header or any other opening (the
      comparison is case-sensitive). */
  function BearerToken(header: Option<string>): (token: Option<string>)
    ensures token.Some? <==> Present(header) && StartsWith(header.value, BearerPrefix)
    ensures token.Some? ==>
              && StartsWith(header.value, BearerPrefix + token.value)
              && ' ' !in token.value
              && (|BearerPrefix + token.value| < |header.value| ==> header.value[|BearerPrefix + token.value|] == ' ')
  {
    if !Present(header) || !StartsWith(header.value, BearerPrefix) then None
    else
      var h := header.value;
      BearerSplit(h);
      SplitOnHead(h[|BearerPrefix|..], ' ');
      var t := SplitOn(h, ' ')[1];
      assert t == SplitOn(h[|BearerPrefix|..], ' ')[0];
      assert h == BearerPrefix + h[|BearerPrefix|..];
      assert (BearerPrefix + t) == h[..|BearerPrefix + t|];
      Some(t)
  }

  /** The header `"Bearer " + t` yields `t` back for any token without a
      space. */
  lemma BearerTokenRoundTrip(t: string)
    requires ' ' !in t
    ensures BearerToken(Some(BearerPrefix + t)) == Some(t)
  {
    var h := BearerPrefix + t;
    assert StartsWith(h, BearerPrefix);
    var r := BearerToken(Some(h)).value;
    assert h[..|BearerPrefix + r|] == BearerPrefix + r;
    assert r == t[..|r|] by {
      forall k | 0 <= k < |r| ensures r[k] == t[k] {
        assert (BearerPrefix + r)[|BearerPrefix| + k] == h[|BearerPrefix| + k];
      }
    }
    assert r == t;
  }

  /** `getUserIdFromRequest` as written: the `id` claim of a verified
      bearer token, and nothing otherwise. */
  function UserIdFromRequestAsWritten(header: Option<string>, verify: string -> Option<Claims>): (userId: Option<string>)
    ensures userId.Some? <==> BearerToken(header).Some? && verify(BearerToken(header).value).Some?
                              && "id" in verify(BearerToken(header).value).value
    ensures userId.Some? ==> userId.value == verify(BearerToken(header).value).value["id"]
  {
    match BearerToken(header)
    case None => None
    case Some(t) =>
      match verify(t)
      case None => None
      case Some(claims) => if "id" in claims then Some(claims["id"]) else None
  }

  /** `getUserIdFromRequest` reading the claim `generateToken` writes. */
  function UserIdFromRequest(header: Option<string>, verify: string -> Option<Claims>): (userId: Option<string>)
    ensures userId.Some? <==> BearerToken(header).Some? && verify(BearerToken(header).value).Some?
                              && "userId" in verify(BearerToken(header).value).value
    ensures userId.Some? ==> userId.value == verify(BearerToken(header).value).value["userId"]
  {
    match BearerToken(header)
    case None => None
    case Some(t) =>
      match verify(t)
      case None => None
      case Some(claims) => if "userId" in claims then Some(claims["userId"]) else None
  }

  /** `await db.getClientsByUserId(userId)` and `await db.createClient(...)`
      as written: both are static members of `DatabaseService`, so they
      are `undefined` on the instance `new DatabaseService()` and calling
      them throws. */
  const InstanceListing: Attempt<seq<Item>> := Threw("db.getClientsByUserId is not a function")
  const InstanceCreate: Attempt<Item> := Threw("db.createClient is not a function")

  datatype WebsiteRequest = WebsiteRequest(name: Option<string>, domain: Option<string>)

  datatype WebsitesReply =
    | Unauthorized
    | Websites(clients: seq<Item>)
    | NameAndDomainRequired
    | ClientCreated(client: Item)
    | InternalServerError(details: string)

  /** The response and the item built as the argument of `createClient`,
      if the handler got that far; whether it was written is the outcome
      of the call. */
  datatype WebsitesOutcome = WebsitesOutcome(status: nat, reply: WebsitesReply, createdItem: Option<Item>)

  /** `GET`: `userId` is what `getUserIdFromRequest` returned and `listed`
      what the listing call resolves to.  The clients come back with 200
      exactly for a truthy user ID and a listing that resolved; a falsy ID
      is 401 and a thrown listing 500 with its message. */
  function Get(userId: Option<string>, listed: Attempt<seq<Item>>): (o: WebsitesOutcome)
    ensures o.status == 401 <==> !Present(userId)
    ensures o.status == 200 <==> Present(userId) && listed.Done?
    ensures o.status == 200 ==> o.reply == Websites(listed.value)
    ensures o.status == 500 ==> o.reply == InternalServerError(listed.message)
    ensures o.status in {200, 401, 500} && o.createdItem.None?
  {
    if !Present(userId) then WebsitesOutcome(401, Unauthorized, None)
    else match listed
      case Threw(m) => WebsitesOutcome(500, InternalServerError(m), None)
      case Done(clients) => WebsitesOutcome(200, Websites(clients), None)
  }

  /** The item `createClient` receives. */
  function NewClientItem(userId: string, name: string, domain: string): Item {
    map["userId" := userId, "name" := name, "domain" := domain]
  }

  /** `POST`: `body` is the parsed JSON body and `put` what `createClient`
      resolves to.  201 is answered exactly when the user ID is truthy,
      the body names a website and the write resolved, carrying what the
      write resolved to; the item written is owned by the requesting
      user. */
  function Post(userId: Option<string>, body: Attempt<WebsiteRequest>, put: Attempt<Item>): (o: WebsitesOutcome)
    ensures o.status == 201 <==>
              Present(userId) && body.Done? && Present(body.value.name) && Present(body.value.domain) && put.Done?
    ensures o.status == 201 ==> o.reply == ClientCreated(put.value)
    ensures o.createdItem.Some? <==>
              Present(userId) && body.Done? && Present(body.value.name) && Present(body.value.domain)
    ensures o.createdItem.Some? ==>
              && o.createdItem.value.Keys == {"userId", "name", "domain"}
              && o.createdItem.value["userId"] == userId.value
              && o.createdItem.value["name"] == body.value.name.value
              && o.createdItem.value["domain"] == body.value.domain.value
    ensures o.status in {201, 400, 401, 500}
  {
    if !Present(userId) then WebsitesOutcome(401, Unauthorized, None)
    else match body
      case Threw(m) => WebsitesOutcome(500, InternalServerError(m), None)
      case Done(r) =>
        if !Present(r.name) || !Present(r.domain) then WebsitesOutcome(400, NameAndDomainRequired, None)
        else
          var item := NewClientItem(userId.value, r.name.value, r.domain.value);
          match put
          case Threw(m) => WebsitesOutcome(500, InternalServerError(m), Some(item))
          case Done(created) => WebsitesOutcome(201, ClientCreated(created), Some(item))
  }

  /** As written, no token `generateToken` issued ever identifies a user,
      because its claims carry `userId` and never `id`: both handlers
      answer it 401, whatever the store would do. */
  lemma IssuedTokensRejectedAsWritten(header: Option<string>, verify: string -> Option<Claims>, user: Item, issuedAt: nat,
                                      listed: Attempt<seq<Item>>, body: Attempt<WebsiteRequest>, put: Attempt<Item>)
    requires BearerToken(header).Some?
    requires verify(BearerToken(header).value) == Some(IssuedClaims(user, issuedAt))
    ensures UserIdFromRequestAsWritten(header, verify) == None
    ensures Get(UserIdFromRequestAsWritten(header, verify), listed) == WebsitesOutcome(401, Unauthorized, None)
    ensures Post(UserIdFromRequestAsWritten(header, verify), body, put) == WebsitesOutcome(401, Unauthorized, None)
  {
  }

  /** As written, a request that does get past the `id` check reaches an
      instance call of a static store method: `GET` is answered 500, and
      `POST` is answered 500 for every body that names a website.  Neither
      handler can succeed. */
  lemma InstanceStoreCallsFail(userId: Option<string>, body: Attempt<WebsiteRequest>)
    ensures Present(userId) ==>
              Get(userId, InstanceListing) ==
                WebsitesOutcome(500, InternalServerError("db.getClientsByUserId is not a function"), None)
    ensures Present(userId) && body.Done? && Present(body.value.name) && Present(body.value.domain) ==>
              Post(userId, body, InstanceCreate).status == 500
              && Post(userId, body, InstanceCreate).reply == InternalServerError("db.createClient is not a function")
    ensures Get(userId, InstanceListing).status in {401, 500}
    ensures Post(userId, body, InstanceCreate).status in {400, 401, 500}
  {
  }

  /** With the claim name corrected, a token issued for a user with an
      `id` identifies that user, and with a static listing call `GET`
      returns the listing. */
  lemma IssuedTokensIdentifyUser(t: string, verify: string -> Option<Claims>, user: Item, issuedAt: nat,
                                 clients: seq<Item>)
    requires ' ' !in t && "id" in user
    requires verify(t) == Some(IssuedClaims(user, issuedAt))
    ensures UserIdFromRequest(Some(BearerPrefix + t), verify) == Some(user["id"])
    ensures user["id"] != "" ==>
              Get(UserIdFromRequest(Some(BearerPrefix + t), verify), Done(clients)) ==
                WebsitesOutcome(200, Websites(clients), None)
  {
    BearerTokenRoundTrip(t);
  }

  /** A missing header, or one without the case-sensitive "Bearer "
      opening, gives no user ID under either claim name, whatever `verify`
      says, and `GET` answers 401. */
  lemma HeaderWithoutBearerUnauthorized(header: Option<string>, verify: string -> Option<Claims>, listed: Attempt<seq<Item>>)
    requires !Present(header) || !StartsWith(header.value, BearerPrefix)
    ensures UserIdFromRequest(header, verify) == None
    ensures UserIdFromRequestAsWritten(header, verify) == None
    ensures Get(UserIdFromRequest(header, verify), listed) == WebsitesOutcome(401, Unauthorized, None)
  {
  }

  /** Without a truthy user ID both handlers answer 401, before the body
      is read or the store is called. */
  lemma UnauthorizedFirst(userId: Option<string>, listed: Attempt<seq<Item>>,
                          body: Attempt<WebsiteRequest>, put: Attempt<Item>)
    requires !Present(userId)
    ensures Get(userId, listed) == WebsitesOutcome(401, Unauthorized, None)
    ensures Post(userId, body, put) == WebsitesOutcome(401, Unauthorized, None)
  {
  }

  /** An authorized `POST` with a falsy name or domain is answered 400 and
      no `createClient` argument is built, whatever the write would do. */
  lemma NameAndDomainRequiredBeforeWrite(userId: Option<string>, r: WebsiteRequest, p1: Attempt<Item>, p2: Attempt<Item>)
    requires Present(userId)
    requires !Present(r.name) || !Present(r.domain)
    ensures Post(userId, Done(r), p1) == WebsitesOutcome(400, NameAndDomainRequired, None)
    ensures Post(userId, Done(r), p1) == Post(userId, Done(r), p2)
  {
  }
}
