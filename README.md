# Booking recovery: a Dafny model

This project models the core of a booking-abandonment recovery service.

- **Tracking agent.** A script embedded in a client's website. It works out the site's tracking ID and watches booking forms. It captures the values of non-sensitive fields. When the visitor leaves a form idle, hides the page or unloads it, it posts an abandonment event. When the visitor submits, it posts a completion event.
- **Tracking endpoint.** Validates each event and resolves the client that owns the tracking ID. It writes a booking record and, for an abandonment that carries an email address, schedules a recovery email 15 minutes later.
- **Email helpers.** Render the recovery emails: the ordered appointment details, the greeting, the subject and the link. They choose between a custom and the default template and schedule the delayed send.
- **Booking store.** Kept as in-memory tables: the booking write, the status update, the client lookup, the newest-first booking query and the booking statistics.
- **Account and website endpoints.** The signup, login and website endpoints, as status-code ladders over the outcomes of the store, hashing and token calls.

Modules, one per source file:

| module | file | models |
|---|---|---|
| `Wrappers` | wrappers.dfy | `Option`, and `Attempt` (a value, or a thrown error with its message) |
| `JsStrings` | jsstrings.dfy | the JavaScript built-ins the core uses: truthiness, logical or on strings, ASCII `toLowerCase`, `includes`, `startsWith`, `split`/`join` on one character, decimal rendering, `URLSearchParams.get` |
| `Tracking` | tracking.dfy | public/tracking.js |
| `Email` | email.dfy | src/lib/email.ts |
| `Database` | database.dfy | src/lib/database.ts, and its near-verbatim copy src/app/lib/db.ts |
| `TrackRoute` | track_route.dfy | src/app/api/track/route.ts |
| `Auth` | auth.dfy | the token payload of src/lib/auth.ts |
| `SignupRoute`, `LoginRoute`, `WebsitesRoute` | signup_route.dfy, login_route.dfy, websites_route.dfy | the three account and website routes |

How the model is built:

- **The tracking agent** is a class `BookingRecovery`. Its fields are `formData`, `isTracking` and `abandonmentTimer`.
  - Pending `setTimeout` callbacks are a map from handle to a due time and a kind.
  - Every payload handed to `fetch` is appended to an `outbox` sequence.
  - Each DOM event is a method that takes a `Moment`: the clock, its ISO-8601 rendering, the page URL and `document.hidden`.
  - The class invariant says three things. Only the most recently armed inactivity timer is pending. Every posted payload is well formed. At most one abandonment has been posted since the latest focus, and none while tracking is on.
- **The tracking endpoint** is a pure decision, `TrackRoute.Ingest`, plus a method `TrackRoute.Post`. `Post` applies that decision to the booking table and to the campaign scheduler.
- **The account and website routes** are pure ladders. Every awaited call becomes an `Attempt` parameter; `Threw` is what the handler's `catch` turns into 500. Each ladder also returns the item it handed to `createUser` or `createClient`, so "not called" and "called with exactly this" can both be stated.
- **Inputs from the platform** are all parameters: clocks, random suffixes, the Resend transport, bcrypt, and `jwt.sign`/`jwt.verify`.

Behaviour of the code that is easy to misread, and that the model keeps:

- **Terminal events.** A focus event re-arms tracking, and `trackCompletion` is not guarded, so a second submit posts a second completion. The invariant the model proves is the one the code keeps: at most one abandonment between focus events.
- **Tracking on focus.** Tracking is switched on at every focus, not only the first, and the inactivity timer is re-armed there too.
- **Safe-field filter.** The id of a field is checked only when its name is empty (`NameShadowsId`, `IdCheckedWhenNameEmpty`).
- **Form classification.** A form is classified by its `innerHTML`, so tag and attribute names count as well as the visible text.
- **Recovery scheduling.** Recovery always uses a fixed 15-minute delay and the built-in template. No per-owner campaign configuration or on/off switch is read.
- **Partial writes.** A terminal event without `formData` is written first and then answered 500 (`WrittenBeforeMissingFormDataFails`).
- **Required fields.** Required fields are checked for truthiness, so an empty string counts as missing.
- **Undefined attributes.** The document client is built without `removeUndefinedValues`, so a booking item with an `undefined` `url` or `userAgent` is refused before it is written. `TrackRoute.Ingest` takes that option as a parameter (see "## Findings").

Source defects noted but not modelled:

- **Missing brace.** src/app/api/websites/route.ts:70 reads `} catch (error)` with no opening brace, so the file does not parse. The model reads the line as `} catch (error) {`.
- **Instance calls.** Every account and website route calls static store methods on an instance, which throws. The handlers take the call outcomes as parameters, so the code as written and the intended static calls are both stated (see "## Findings").
- **Keyless items.** `createUser` and `createClient` receive items without the table key `id`. The model records the item built as the call's argument. The outcome of the call is a parameter.
- **Put result.** The value the routes return as the "created" user or client is the result of the `PutCommand`, not the item written. The model passes that result through unchanged.

## Model

| member | source | states |
|---|---|---|
| `Tracking.ResolveTrackingId` | public/tracking.js:5-35 | The backwards scan with `break` returns the `id` parameter of the last script whose src mentions `tracking.js`, else the page's `tracking_id`, else `track_demo123`. The result is never empty, so the "no tracking ID" exit is unreachable. |
| `Tracking.ResolvedTrackingId` | public/tracking.js:19-35 | The three-step fallback always yields a non-empty ID. |
| `Tracking.LastTrackingScriptWins` | public/tracking.js:8-17 | A later tracking script with an `id` overrides every script before it. |
| `Tracking.NoTrackingScriptFallsBack` | public/tracking.js:19-30 | Without a tracking script, the ID is the page's `tracking_id` when that is truthy, and `track_demo123` otherwise. |
| `Tracking.IsBookingForm` | public/tracking.js:68-78 | A form is a booking form iff its lower-cased markup contains at least one of the seven keywords. |
| `Tracking.BookingFormStaysBooking` | public/tracking.js:68-78 | Adding markup before or after a booking form never makes it a non-booking form. |
| `Tracking.NewsletterFormIsClassifiedAsBooking` | public/tracking.js:68-78 | A known false positive: a form labelled "Get updates" is classified as booking, because "updates" contains "date". |
| `Tracking.IsSafeField` | public/tracking.js:114-126 | A field is safe iff its lower-cased type is neither `password` nor `hidden`, and its lower-cased name (the id when the name is empty) contains none of the seven unsafe words. |
| `Tracking.NameShadowsId` | public/tracking.js:116 | When the name is non-empty, changing the id never changes the verdict. |
| `Tracking.IdCheckedWhenNameEmpty` | public/tracking.js:116 | When the name is empty, the id is judged exactly as a name would be. |
| `Tracking.SafeFieldKeyIsClean` | public/tracking.js:104-126 | A captured field that has a name or id is stored under that key, and the key contains no unsafe word. |
| `Tracking.PasswordNamedTextFieldIsRefused` | public/tracking.js:104-126 | A text field named `password123` with id `pwd1` is refused. An email field is captured under the key `email`. |
| `Tracking.DetectForms` | public/tracking.js:53-66 | The tracked forms are exactly the indices of the forms classified as booking forms. |
| `Tracking.BookingRecovery.constructor` | public/tracking.js:39-51 | The session ID is `session_<load time>_<suffix>` and the endpoint is `<origin>/api/track`. Tracking starts off, with no data, no timer and nothing posted, and the booking forms are detected. |
| `Tracking.BookingRecovery.CaptureFormData` | public/tracking.js:104-112 | A safe field stores its value under its name, else its id, else its type, leaving every other key as it was. An unsafe field leaves `formData` unchanged. |
| `Tracking.BookingRecovery.ResetAbandonmentTimer` | public/tracking.js:128-140 | Cancels the pending inactivity timer and arms one new timer 30000 ms ahead. The invariant keeps at most one inactivity timer pending. |
| `Tracking.BookingRecovery.TrackAbandonment` | public/tracking.js:164-185 | Does nothing unless tracking. Otherwise it posts exactly one abandonment payload carrying the user agent and the current data, then stops tracking. |
| `Tracking.BookingRecovery.TrackCompletion` | public/tracking.js:187-202 | Not guarded: every call posts one completion payload without a user agent, then stops tracking. |
| `Tracking.BookingRecovery.Focus` | public/tracking.js:92-96 | Focusing a field of a tracked form turns tracking on and re-arms the inactivity timer. It also re-arms tracking after an earlier abandonment. |
| `Tracking.BookingRecovery.Input` | public/tracking.js:87-90 | Input captures the field and re-arms the timer, and never changes `isTracking`. |
| `Tracking.BookingRecovery.Submit` | public/tracking.js:99-101 | Submitting a tracked form posts a completion and stops tracking. |
| `Tracking.BookingRecovery.VisibilityChange` | public/tracking.js:145-154 | Hiding the page while tracking schedules a recheck 2000 ms ahead. In every other case nothing changes. |
| `Tracking.BookingRecovery.BeforeUnload` | public/tracking.js:156-161 | Unloading while tracking posts one abandonment at once. |
| `Tracking.BookingRecovery.FireTimer` | public/tracking.js:136-152 | A due callback is removed. It posts an abandonment only while tracking: always for the inactivity timer, and for the recheck only if the page is still hidden. A timer left pending after a completion fires as a no-op. |
| `Email.PresentDetails` | src/lib/email.ts:110-124 | The details are one entry per truthy field among date, time, service and phone, in that order, each carrying that field's value. |
| `Email.FormatAppointmentDetails` | src/lib/email.ts:110-127 | The HTML details string is empty iff none of the four fields is truthy. |
| `Email.TextDetailsNewlines` | src/lib/email.ts:130-139 | About `Email.FormatAppointmentDetailsText`: with k present fields whose values contain no newline, the text details contain exactly k-1 newlines. They are non-empty, and neither their first nor their last character is a newline. |
| `Email.CustomerName` | src/lib/email.ts:31 | The greeting name is `bookingData.name` when truthy, and `there` otherwise. |
| `Email.DefaultTemplate` | src/lib/email.ts:30-95 | The subject is `Complete Your <client> Booking`. The greeting names the customer and the link is `https://<domain>`. The details block appears iff some detail field is filled, and the HTML and text versions agree. The HTML block is `formatAppointmentDetails`; the text block is `Your Booking Details:`, a newline, `formatAppointmentDetailsText`, a newline. |
| `Email.SendAbandonmentEmail` | src/lib/email.ts:142-169 | Uses the custom template when given, else the default one. The sender is `FROM_EMAIL`, else `noreply@bookingrecovery.com`. A transport failure becomes `{success: false, error}` instead of propagating. |
| `Email.SendFollowUpEmail` | src/lib/email.ts:172-255 | Sends through `sendAbandonmentEmail` to the given address, from `FROM_EMAIL` or the default sender, with the custom template `Email.FollowUpTemplate`. Its subject is `Last Chance: Your <client> Appointment`, it greets the customer, links to the domain and has no details block. A transport failure is reported as a failure. |
| `Email.CampaignService.ScheduleRecoveryCampaign` | src/lib/email.ts:282-308 | Registers one callback and returns at once, having sent nothing. The callback is due after `delayMinutes*60*1000` ms as Node's `setTimeout` clamps it: a delay below 1 ms or above 2^31-1 ms becomes 1 ms. |
| `Email.DelayKeptIffInTimerRange` | src/lib/email.ts:297-306 | The requested delay is kept iff `delayMinutes` is between 1 and 35791. Any other whole number of minutes, including 0, negatives and 40000, fires after 1 ms. |
| `Email.CampaignService.Fire` | src/lib/email.ts:297-305 | A due callback sends the default recovery email to `bookingData.email` iff that is truthy, and is then gone. |
| `Database.FirstUserByEmail` | src/lib/database.ts:73-84 | Returns a stored user with that email such that no earlier user has it, or nothing when no user has it. |
| `Database.FirstClientByTrackingId` | src/lib/database.ts:108-119 | Returns the first client with the tracking ID (no earlier one matches), or nothing when none does. |
| `Database.DatabaseService.CreateBooking` | src/lib/database.ts:122-128 | The booking replaces the item with the same key or is added, and keys stay unique. |
| `Database.PutReadsBack` | src/lib/database.ts:122-128 | About `Database.Put`: after a put, the key reads back the new item, every other key reads what it read before, and keys stay unique. |
| `Database.BookingsByTrackingIdSpec` | src/lib/database.ts:130-143 | About `Database.BookingsByTrackingId`: returns as many bookings as the tracking ID has, up to `limit`, each of them a booking of that tracking ID and none more often than stored, newest first. No booking left out is newer than one returned. |
| `Database.SetStatusChangesOnlyStatus` | src/lib/database.ts:145-159 | About `Database.SetStatus`: the keyed item gets the new `status` and `updatedAt` and keeps its other attributes, and every other item is untouched. A missing key creates an item holding only those attributes. |
| `Database.Matching` | src/lib/database.ts:166-177 | The selected bookings are exactly those of the tracking ID created at or after the start date, each as often as the table holds it. |
| `Database.CountStatus` | src/lib/database.ts:187-189 | A status count is the number of selected records whose status is exactly that string. |
| `Database.DistinctCountsBounded` | src/lib/database.ts:187-189 | The counts of three distinct statuses add up to at most the number of records. |
| `Database.Stats` | src/lib/database.ts:179-195 | `total` is the number of records selected and the three counts are exact-match counts whose sum is at most `total`. The rate takes the literal `0.0` branch iff nothing was abandoned, and is otherwise the pair (recovered, abandoned). |
| `Database.DatabaseService.GetClientByTrackingId` | src/app/lib/db.ts:91-102 | The copy's lookup returns the first stored client with the tracking ID, as the database.ts lookup does, or nothing when none has it. |
| `Database.DatabaseService.GetBookingsByTrackingId` | src/app/lib/db.ts:113-126 | The copy's query returns as many bookings of the tracking ID as exist, up to `limit`, none more often than stored, newest first, with none left out newer than one returned. |
| `Database.DatabaseService.UpdateBookingStatus` | src/app/lib/db.ts:128-142 | The copy's update: only the keyed record's `status` and `updatedAt` change, and keys stay unique. |
| `Database.DatabaseService.GetBookingStats` | src/app/lib/db.ts:145-172 | The copy's stats count exactly the records of the tracking ID created within `days` days: `total` is their number, and each status count is `CountStatus` of the abandoned, completed or recovered status over them. The three counts sum to at most `total`, and the rate takes the literal `0.0` branch iff `abandoned` is 0. |
| `TrackRoute.Ingest` | src/app/api/track/route.ts:5-116 | The handler's decision: the only statuses are 200, 400 and 500. A 400 writes and schedules nothing, a recovery is scheduled only beside a write and a 200, and 200 is answered exactly with the "received" reply. |
| `TrackRoute.MissingFieldsRejectedFirst` | src/app/api/track/route.ts:19-25 | A falsy `trackingId`, `sessionId` or `event` is answered 400 before any lookup or write, whatever the tables hold. |
| `TrackRoute.UnknownTrackingIdRejected` | src/app/api/track/route.ts:35-43 | An unknown tracking ID is answered 400 "Invalid tracking ID", and no booking is written. |
| `TrackRoute.StatusFor` | src/app/api/track/route.ts:58 | The status is `completed` iff the event is exactly `completion`, and `abandoned` for every other event string. |
| `TrackRoute.StoredRecordFields` | src/app/api/track/route.ts:45-64 | A booking is written iff the request is valid, its client is known and the document client accepts the item. It carries the generated ID, the client's ID, the derived status, `formData` defaulting to `{}` and `timestamp` defaulting to now. |
| `TrackRoute.UndefinedAttributeRejected` | src/lib/database.ts:43 | With the document client built without options, a valid request of a known client that lacks `url` or `userAgent` is answered 500, and nothing is written or scheduled. |
| `TrackRoute.RecoveryIffAbandonmentWithEmail` | src/app/api/track/route.ts:67-90 | Recovery is scheduled iff a stored event is `abandonment` with a truthy `formData.email`. It uses the client's name and domain, with `businessType` defaulting to `business`. |
| `TrackRoute.WrittenBeforeMissingFormDataFails` | src/app/api/track/route.ts:63-115 | A terminal event without `formData` is still written, then answered 500, and nothing is scheduled. |
| `TrackRoute.SuccessEchoesStoredBooking` | src/app/api/track/route.ts:102-107 | A 200 answer echoes the stored booking's ID and the event. |
| `TrackRoute.TrackerCompletionRejectedAsWritten` | src/app/api/track/route.ts:57 | As written, every completion the agent posts for a registered tracking ID is answered 500 and never recorded, because its payload has no `userAgent`. |
| `TrackRoute.TrackerPayloadAccepted` | src/app/api/track/route.ts:19-100 | Every payload the tracking agent posts passes validation. An abandonment, or any payload once the store drops `undefined` attributes, never gets 500, and from a registered tracking ID it is answered 200. |
| `TrackRoute.Post` | src/app/api/track/route.ts:5-116 | The handler writes the booking and appends the pending send, due 900000 ms after now (15 minutes, inside `setTimeout`'s range), exactly as `Ingest` decides. Nothing else is dispatched. |
| `TrackRoute.Options` | src/app/api/track/route.ts:119-128 | The preflight is always 200 with origin `*`, methods `POST, OPTIONS` and header `Content-Type`. |
| `Auth.IssuedClaims` | src/lib/auth.ts:27-34 | The signed payload has `userId`, `email` and `name` from the user, plus `iat` and `exp` seven days later. It never has an `id` or a `passwordHash` claim. |
| `Auth.WithoutPasswordHash` | src/app/api/auth/login/route.ts:28 | The destructured user has every attribute except `passwordHash`, unchanged. |
| `SignupRoute.Signup` | src/app/api/auth/signup/route.ts:5-42 | The only statuses are 201, 400, 409 and 500. 400 answers exactly an invalid body and 409 exactly a found user. 500 is always the error reply. Once a `createUser` argument is built, the answer is 201 iff the write resolved, and 500 otherwise. |
| `SignupRoute.MissingFieldsRejected` | src/app/api/auth/signup/route.ts:9-11 | A falsy name, email or password is answered 400, independently of the store and the hasher. |
| `SignupRoute.ShortPasswordRejected` | src/app/api/auth/signup/route.ts:12-14 | A password shorter than 6 characters is answered 400 after the presence check and before any lookup. |
| `SignupRoute.ExistingEmailConflicts` | src/app/api/auth/signup/route.ts:18-21 | An existing user with the email is answered 409, and `createUser` is not called. |
| `SignupRoute.CreateUserGetsHashOnly` | src/app/api/auth/signup/route.ts:23-30 | The `createUser` argument is built iff the body is valid, the email is free and hashing succeeded. It holds exactly name, email and `passwordHash`, never the password. |
| `SignupRoute.SignupStatuses` | src/app/api/auth/signup/route.ts:32-41 | 201 is answered iff every step succeeded, carrying what the write returned. Every thrown error is answered 500 with its message. |
| `SignupRoute.InstanceLookupAlwaysFails` | src/app/api/auth/signup/route.ts:16-18 | As written, every valid signup is answered 500 and creates no user. |
| `SignupRoute.InstanceCreateFails` | src/app/api/auth/signup/route.ts:26-30 | Even with the static lookup, the instance call of `createUser` makes a valid signup with a free email answer 500, and no user is written. |
| `SignupRoute.StaticLookupDecidesConflict` | src/app/api/auth/signup/route.ts:18-30 | With the static lookup, a valid signup is answered 409 iff some stored user has the email. Otherwise `createUser` is handed exactly the new user item: name, email and hash. |
| `LoginRoute.Login` | src/app/api/auth/login/route.ts:5-44 | The only statuses are 200, 400, 401 and 500. 400 answers exactly a body missing the email or the password. 200 is exactly a signed token, and it needs a found user whose password matched. Every 401 is the same "invalid credentials" reply. |
| `LoginRoute.MissingCredentialsRejected` | src/app/api/auth/login/route.ts:10-15 | A missing email or password is answered 400 before any lookup. |
| `LoginRoute.UnknownUserLooksLikeWrongPassword` | src/app/api/auth/login/route.ts:17-25 | An unknown email and a wrong password get the identical 401 "Invalid credentials" answer. |
| `LoginRoute.TokenOnlyAfterVerification` | src/app/api/auth/login/route.ts:17-35 | A token is issued iff the lookup found the user and the password matched. The returned user and the signed claims both lack `passwordHash`. |
| `LoginRoute.ThrownErrorsAre500` | src/app/api/auth/login/route.ts:37-43 | Exactly the requests where a step threw are answered 500. |
| `LoginRoute.InstanceLookupAlwaysFails` | src/app/api/auth/login/route.ts:7-17 | As written, every login with both fields is answered 500 and never gets a token. |
| `LoginRoute.StaticLookupLogsIn` | src/app/api/auth/login/route.ts:17-35 | With the static lookup, a token is issued iff a stored user has the email and the password matched. |
| `WebsitesRoute.BearerToken` | src/app/api/websites/route.ts:7-11 | A token is read iff the header is present and starts with `Bearer ` (case-sensitive). It is the text after the prefix, up to the next space. |
| `WebsitesRoute.BearerTokenRoundTrip` | src/app/api/websites/route.ts:11 | The header `Bearer <t>` yields `t` back for any token without a space. |
| `WebsitesRoute.UserIdFromRequestAsWritten` | src/app/api/websites/route.ts:6-23 | As written: a user ID comes back iff the header holds a bearer token that verifies to claims with an `id` key, and it is that claim. |
| `WebsitesRoute.IssuedTokensRejectedAsWritten` | src/app/api/websites/route.ts:13-17 | As written, a token issued by `generateToken` never identifies a user, because it carries `userId`, not `id`. `GET` and `POST` both answer it 401. |
| `WebsitesRoute.UserIdFromRequest` | src/app/api/websites/route.ts:6-23 | Corrected helper: a user ID comes back iff the header holds a bearer token that verifies to claims with a `userId` key, and it is that claim. |
| `WebsitesRoute.IssuedTokensIdentifyUser` | src/app/api/websites/route.ts:13-37 | Corrected handler: with the claim name fixed, a token issued for a user identifies that user. With a static listing call, `GET` returns the listing with 200. |
| `WebsitesRoute.HeaderWithoutBearerUnauthorized` | src/app/api/websites/route.ts:7-10 | A missing header, or one without the `Bearer ` prefix, gives no user ID under either claim name, and `GET` answers 401. |
| `WebsitesRoute.UnauthorizedFirst` | src/app/api/websites/route.ts:28-53 | For the code as written and as corrected: without a truthy user ID, `GET` and `POST` answer 401 before the body is read or the store is called. |
| `WebsitesRoute.NameAndDomainRequiredBeforeWrite` | src/app/api/websites/route.ts:55-59 | For the code as written and as corrected: a falsy name or domain is answered 400, and no `createClient` argument is built. |
| `WebsitesRoute.Get` | src/app/api/websites/route.ts:26-44 | `GET` over the user ID the helper returned and the listing outcome: 401 iff the ID is falsy, and 200 with the listing iff the ID is truthy and the listing resolved. Otherwise 500 with the thrown message. |
| `WebsitesRoute.Post` | src/app/api/websites/route.ts:47-75 | `POST`: 201 iff the user ID is truthy, the body names a website and the write resolved, carrying what the write returned. The `createClient` argument holds exactly the requester's ID, the name and the domain. |
| `WebsitesRoute.InstanceStoreCallsFail` | src/app/api/websites/route.ts:34-35 | As written, a request that passes the user check reaches an instance call of a static store method. `GET` answers 500, and `POST` answers 500 for every body naming a website, so neither handler can succeed. |

## Left out

- Network I/O. The agent's `fetch` is the `outbox`. The Resend client is the `transport` parameter. `testEmailConfiguration` only talks to Resend and is not modelled.
- Platform inputs. Real timers, `Date.now`, `new Date().toISOString()` and the `Math.random` suffixes are parameters. Pending callbacks are explicit entries with due times, and the base-36 rendering of the suffixes is not modelled.
- The DynamoDB client and its failures. The in-memory tables never fail, apart from the marshalling refusal of `undefined` attributes that `TrackRoute.Ingest` models. The 500 answers for a transient store error in the tracking endpoint are not modelled.
- DynamoDB paging. A query reads one page of at most 1 MB, and the model reads all items.
- Database.BookingsByTrackingIdSpec: a `limit` of 0, which DynamoDB rejects with a validation error, returns no bookings here.
- Database.Stats: the recovery rate for a non-zero `abandoned` is `((recovered / abandoned) * 100).toFixed(1)`. The model keeps the pair `Percent(recovered, abandoned)`, because the rendering is floating-point formatting.
- Email.CampaignService.ScheduleRecoveryCampaign: `delayMinutes` is a whole number. A fractional `delayMinutes` is outside the model, and the clamp is modelled for whole minutes only.
- Database.GetBookingStats: the start date is `days` times 86400000 ms before now. `setDate(getDate() - days)` counts calendar days, which differ across daylight-saving changes.
- Timestamps. `createdAt` and `updatedAt` are integers in milliseconds. The store holds their ISO-8601 text, which sorts the same way. The client-sent `timestamp` stays a string.
- `getUserById` and `getClientsByUserId`. No modelled code path reaches a table behind them. The website `GET` takes the result of `getClientsByUserId` as a parameter.
- User and client writes. The users and clients tables are not state. Each route records the item it hands to `createUser` or `createClient`, and the outcome of the write is a parameter.
- Foreign libraries. `hashPassword`, `verifyPassword`, `jwt.sign` and `jwt.verify` are outcomes given as parameters, including token expiry. The numeric claims `iat` and `exp` are carried as their decimal text.
- JSON. Non-string JSON values in request bodies and in `formData`, and a `formData` that is not an object, are outside the model. A missing field and JSON `null` are both `None`. For the booking item's `url` and `userAgent`, whose marshalling differs between the two, `None` means the key is absent: a JSON `null` there is outside the model.
- Strings. `URLSearchParams` percent-decoding and non-ASCII case folding are not modelled. `password.length` counts characters, not UTF-16 code units.
- DOM specifics. `querySelectorAll`, listener registration and `innerHTML` extraction are left out. Forms are given as their markup, tracked forms as their indices, and fields as name, id, type and value.
- Email template text. Only the subject, greeting, conditional details block and link of each template are modelled, not the full HTML and text bodies.
- The remaining files: the UI pages and components, the campaigns route (entirely commented out), the type declarations and all `console` logging.

## Findings

| source | as written | input that shows it | evidently intended | confidence | as-written member | corrected member |
|---|---|---|---|---|---|---|
| src/app/api/websites/route.ts:15-16 | `getUserIdFromRequest` returns `decoded.id` only when the decoded token has an `id` key | any token from `generateToken` (src/lib/auth.ts:28-32): its claims are `userId`, `email`, `name`, `iat`, `exp`, so every `GET` and `POST` with it is answered 401 | read the `userId` claim | high, not executed | `WebsitesRoute.IssuedTokensRejectedAsWritten` | `WebsitesRoute.IssuedTokensIdentifyUser` |
| src/app/api/websites/route.ts:34-35 | `new DatabaseService()` then `db.getClientsByUserId(userId)` and, at lines 61-62, `db.createClient(...)`, both `static` (src/lib/database.ts:87, 95), so each call throws a `TypeError` | a `GET` with a verified token whose claims have a non-empty `id`: answered 500 | call `DatabaseService.getClientsByUserId` and `DatabaseService.createClient` | high, not executed | `WebsitesRoute.InstanceStoreCallsFail` | `WebsitesRoute.Post` |
| src/app/api/auth/signup/route.ts:16-30 | `new DatabaseService()` then `db.getUserByEmail(email)` and `db.createUser(...)`, both `static` (src/lib/database.ts:56, 73), so each is `undefined` on the instance and the first call throws a `TypeError` | `{"name":"A","email":"a@b.c","password":"secret"}`: answered 500, no user created | call `DatabaseService.getUserByEmail(email)` and `DatabaseService.createUser(...)` | high, not executed | `SignupRoute.InstanceLookupAlwaysFails` | `SignupRoute.StaticLookupDecidesConflict` |
| src/app/api/auth/login/route.ts:7-17 | the same instance call of the static `getUserByEmail` | `{"email":"a@b.c","password":"secret"}` for a registered user: answered 500, no token | call `DatabaseService.getUserByEmail(email)` | high, not executed | `LoginRoute.InstanceLookupAlwaysFails` | `LoginRoute.StaticLookupLogsIn` |
| src/lib/database.ts:43 | the document client is built without `removeUndefinedValues`, and src/app/api/track/route.ts:55-57 puts `url` and `userAgent` into the booking item even when the body lacks them | any completion the tracking agent posts (public/tracking.js:189-197 sends no `userAgent`) for a registered tracking ID: the put is refused, the answer is 500 and no completion is recorded | record the completion, dropping the undefined attribute | medium, not executed; rests on the document client's default marshalling of `undefined` | `TrackRoute.TrackerCompletionRejectedAsWritten` | `TrackRoute.TrackerPayloadAccepted` |
