/** The tracking endpoint of src/app/api/track/route.ts: the `POST`
    ladder that validates an event, resolves the client, writes the
    booking and schedules the recovery campaign, and the `OPTIONS`
    preflight answer. */
module TrackRoute {
  import opened Wrappers
  import opened JsStrings
  import opened Database
  import opened Email
  import Tracking

  const RecoveryDelayMinutes := 15
  const DefaultBusinessType := "business"

  /** The destructured JSON body; a field the body does not have is
      `None`.  `None` for `formData` also stands for JSON `null`. */
  datatype TrackBody = TrackBody(trackingId: Option<string>, sessionId: Option<string>,
                                 event: Option<string>, formData: Option<map<string, string>>,
                                 url: Option<string>, timestamp: Option<string>,
                                 userAgent: Option<string>)

  /** The JSON the handler answers with. */
  datatype TrackReply =
    | MissingRequiredFields
    | InvalidTrackingId
    | Received(bookingId: string, event: string)
    | InternalServerError

  /** What one request does: the booking written (if any), the recovery
      campaign scheduled (if any), and the response. */
  datatype Ingestion = Ingestion(stored: Option<Booking>, recovery: Option<(ClientInfo, BookingData)>,
                                 status: nat, reply: TrackReply)

  /** `status: event === 'completion' ? 'completed' : 'abandoned'`. */
  function StatusFor(event: string): (status: string)
    ensures status == "completed" <==> event == "completion"
    ensures status == "abandoned" <==> event != "completion"
  {
    if event == "completion" then "completed" else "abandoned"
  }

  /** `booking_<Date.now()>_<random suffix>`. */
  function BookingIdFor(now: nat, suffix: string): string {
    "booking_" + Decimal(now) + "_" + suffix
  }

  /** The record written for a validated request of a known client. */
  function BookingRecord(b: TrackBody, client: Client, bookingId: string, now: int, nowIso: string): Booking
    requires b.trackingId.Some? && b.sessionId.Some? && b.event.Some?
  {
    Booking(bookingId,
            Some(BookingDetails(b.trackingId.value, b.sessionId.value, client.id, b.event.value,
                                b.formData.GetOr(map[]), b.url,
                                if Present(b.timestamp) then b.timestamp.value else nowIso,
                                b.userAgent, now)),
            StatusFor(b.event.value), now)
  }

  /** `clientInfo` handed to the campaign: the business type falls back to
      `'business'`. */
  function RecoveryClientInfo(client: Client): ClientInfo {
    ClientInfo(client.name, client.domain,
               Some(if Present(client.businessType) then client.businessType.value else DefaultBusinessType))
  }

  /** Whether the document client accepts the record.  With its default
      options (no `removeUndefinedValues`) it refuses to marshal an
      attribute whose value is `undefined`, which `url` and `userAgent` are
      when the body lacks them; `dropsUndefined` is that option. */
  predicate Marshallable(b: TrackBody, dropsUndefined: bool) {
    dropsUndefined || (b.url.Some? && b.userAgent.Some?)
  }

  /** The `POST` ladder.  `body` is `None` when the request is not JSON;
      `clients` is the tracking-ID index of the clients table, and
      `dropsUndefined` the document client's marshalling option (`false`
      as src/lib/database.ts:43 builds it).  A 400 writes and schedules
      nothing, a recovery is only scheduled beside a write, and 200 is
      answered exactly with the `Received` reply. */
  function Ingest(body: Option<TrackBody>, clients: seq<Client>, bookingId: string, now: int, nowIso: string,
                  dropsUndefined: bool): (ing: Ingestion)
    ensures ing.status in {200, 400, 500}
    ensures ing.status == 400 ==> ing.stored.None? && ing.recovery.None?
    ensures ing.recovery.Some? ==> ing.stored.Some? && ing.status == 200
    ensures ing.status == 200 <==> ing.reply.Received?
  {
    if body.None? then Ingestion(None, None, 500, InternalServerError)
    else
      var b := body.value;
      if !Present(b.trackingId) || !Present(b.sessionId) || !Present(b.event) then
        Ingestion(None, None, 400, MissingRequiredFields)
      else match FirstClientByTrackingId(clients, b.trackingId.value)
        case None => Ingestion(None, None, 400, InvalidTrackingId)
        case Some(client) =>
          if !Marshallable(b, dropsUndefined) then
            // `createBooking` rejects the item before anything is written
            Ingestion(None, None, 500, InternalServerError)
          else
            var record := Some(BookingRecord(b, client, bookingId, now, nowIso));
            var event := b.event.value;
            if (event == "abandonment" || event == "completion") && b.formData.None? then
              // `formData.email` on undefined throws after the write
              Ingestion(record, None, 500, InternalServerError)
            else if event == "abandonment" && FieldOf(b.formData.value, "email") != "" then
              Ingestion(record, Some((RecoveryClientInfo(client), b.formData.value)), 200, Received(bookingId, event))
            else
              Ingestion(record, None, 200, Received(bookingId, event))
  }

  /** A request missing one of the three required fields is answered 400
      whatever the tables hold, and nothing is written or scheduled. */
  lemma MissingFieldsRejectedFirst(b: TrackBody, clients: seq<Client>, other: seq<Client>, bookingId: string,
                                   now: int, nowIso: string, dropsUndefined: bool)
    requires !Present(b.trackingId) || !Present(b.sessionId) || !Present(b.event)
    ensures Ingest(Some(b), clients, bookingId, now, nowIso, dropsUndefined) == Ingestion(None, None, 400, MissingRequiredFields)
    ensures Ingest(Some(b), clients, bookingId, now, nowIso, dropsUndefined) == Ingest(Some(b), other, bookingId, now, nowIso, dropsUndefined)
  {
  }

  /** An unknown tracking ID is answered 400 "Invalid tracking ID" and no
      booking is written. */
  lemma UnknownTrackingIdRejected(b: TrackBody, clients: seq<Client>, bookingId: string, now: int, nowIso: string,
                                  dropsUndefined: bool)
    requires Present(b.trackingId) && Present(b.sessionId) && Present(b.event)
    requires forall i :: 0 <= i < |clients| ==> clients[i].trackingId != b.trackingId.value
    ensures Ingest(Some(b), clients, bookingId, now, nowIso, dropsUndefined) == Ingestion(None, None, 400, InvalidTrackingId)
  {
  }

  /** A booking is written exactly for a valid request of a known client
      that the document client can marshal, and it holds the generated ID,
      the client's ID, the event's status, `formData` defaulting to `{}`
      and `timestamp` defaulting to now. */
  lemma StoredRecordFields(body: Option<TrackBody>, clients: seq<Client>, bookingId: string, now: int, nowIso: string,
                           dropsUndefined: bool)
    ensures var ing := Ingest(body, clients, bookingId, now, nowIso, dropsUndefined);
            ing.stored.Some? <==>
              (body.Some? && Present(body.value.trackingId) && Present(body.value.sessionId) && Present(body.value.event)
               && FirstClientByTrackingId(clients, body.value.trackingId.value).Some?
               && (dropsUndefined || (body.value.url.Some? && body.value.userAgent.Some?)))
    ensures var ing := Ingest(body, clients, bookingId, now, nowIso, dropsUndefined);
            ing.stored.Some? ==>
              var b := body.value;
              var client := FirstClientByTrackingId(clients, b.trackingId.value).value;
              var d := ing.stored.value.details.value;
              && ing.stored.value.id == bookingId
              && ing.stored.value.details.Some?
              && client.trackingId == b.trackingId.value
              && d.clientId == client.id
              && d.trackingId == b.trackingId.value && d.sessionId == b.sessionId.value && d.event == b.event.value
              && ing.stored.value.status == (if b.event.value == "completion" then "completed" else "abandoned")
              && d.formData == (if b.formData.Some? then b.formData.value else map[])
              && d.timestamp == (if Present(b.timestamp) then b.timestamp.value else nowIso)
              && d.url == b.url && d.userAgent == b.userAgent
              && d.createdAt == now && ing.stored.value.updatedAt == now
  {
  }

  /** With the default marshalling, a valid request of a known client that
      lacks `url` or `userAgent` is answered 500 and nothing is written or
      scheduled. */
  lemma UndefinedAttributeRejected(b: TrackBody, clients: seq<Client>, bookingId: string, now: int, nowIso: string)
    requires Present(b.trackingId) && Present(b.sessionId) && Present(b.event)
    requires FirstClientByTrackingId(clients, b.trackingId.value).Some?
    requires b.url.None? || b.userAgent.None?
    ensures Ingest(Some(b), clients, bookingId, now, nowIso, false) == Ingestion(None, None, 500, InternalServerError)
  {
  }

  /** A recovery campaign is scheduled exactly for a stored abandonment
      whose `formData.email` is truthy, with the client's name and domain
      and a business type defaulting to `'business'`. */
  lemma RecoveryIffAbandonmentWithEmail(body: Option<TrackBody>, clients: seq<Client>, bookingId: string, now: int, nowIso: string,
                                        dropsUndefined: bool)
    ensures var ing := Ingest(body, clients, bookingId, now, nowIso, dropsUndefined);
            ing.recovery.Some? <==>
              (ing.stored.Some? && body.value.event == Some("abandonment")
               && body.value.formData.Some? && Truthy(FieldOf(body.value.formData.value, "email")))
    ensures var ing := Ingest(body, clients, bookingId, now, nowIso, dropsUndefined);
            ing.recovery.Some? ==>
              var client := FirstClientByTrackingId(clients, body.value.trackingId.value).value;
              && ing.recovery.value.1 == body.value.formData.value
              && ing.recovery.value.0.name == client.name
              && ing.recovery.value.0.domain == client.domain
              && ing.recovery.value.0.businessType ==
                   Some(if Present(client.businessType) then client.businessType.value else "business")
              && ing.status == 200
  {
  }

  /** A terminal event without `formData` is still written, then answered
      500, and nothing is scheduled. */
  lemma WrittenBeforeMissingFormDataFails(b: TrackBody, clients: seq<Client>, bookingId: string, now: int, nowIso: string,
                                          dropsUndefined: bool)
    requires Present(b.trackingId) && Present(b.sessionId)
    requires b.event == Some("abandonment") || b.event == Some("completion")
    requires b.formData.None?
    requires FirstClientByTrackingId(clients, b.trackingId.value).Some?
    requires Marshallable(b, dropsUndefined)
    ensures var ing := Ingest(Some(b), clients, bookingId, now, nowIso, dropsUndefined);
            && ing.stored.Some? && ing.stored.value.details.value.formData == map[]
            && ing.recovery.None? && ing.status == 500 && ing.reply == InternalServerError
  {
  }

  /** Every 200 answer echoes the stored booking's ID and the event. */
  lemma SuccessEchoesStoredBooking(body: Option<TrackBody>, clients: seq<Client>, bookingId: string, now: int, nowIso: string,
                                   dropsUndefined: bool)
    ensures var ing := Ingest(body, clients, bookingId, now, nowIso, dropsUndefined);
            ing.status == 200 ==>
              && ing.stored.Some? && ing.stored.value.id == bookingId
              && ing.reply == Received(bookingId, body.value.event.value)
  {
  }

  /** The body `sendData` posts for a tracker payload. */
  function BodyOf(p: Tracking.Payload): TrackBody {
    TrackBody(Some(p.trackingId), Some(p.sessionId), Some(p.event), Some(p.formData),
              Some(p.url), Some(p.timestamp), p.userAgent)
  }

  /** As written, every completion the tracking agent posts for a
      registered tracking ID is answered 500 and never recorded: its
      payload has no `userAgent`, and the document client refuses the
      `undefined` attribute. */
  lemma TrackerCompletionRejectedAsWritten(p: Tracking.Payload, clients: seq<Client>, bookingId: string, now: int, nowIso: string)
    requires Tracking.WellFormedPayload(p) && p.event == "completion"
    requires exists i :: 0 <= i < |clients| && clients[i].trackingId == p.trackingId
    ensures Ingest(Some(BodyOf(p)), clients, bookingId, now, nowIso, false) == Ingestion(None, None, 500, InternalServerError)
  {
    assert FirstClientByTrackingId(clients, p.trackingId).Some?;
  }

  /** Every payload the tracker posts passes validation.  With a document
      client that drops `undefined` attributes, or for an abandonment,
      which carries a user agent, it never gets 500, and from a registered
      tracking ID it is stored and answered 200. */
  lemma TrackerPayloadAccepted(p: Tracking.Payload, clients: seq<Client>, bookingId: string, now: int, nowIso: string,
                               dropsUndefined: bool)
    requires Tracking.WellFormedPayload(p)
    requires dropsUndefined || p.event == "abandonment"
    ensures Ingest(Some(BodyOf(p)), clients, bookingId, now, nowIso, dropsUndefined).reply != MissingRequiredFields
    ensures Ingest(Some(BodyOf(p)), clients, bookingId, now, nowIso, dropsUndefined).status != 500
    ensures (exists i :: 0 <= i < |clients| && clients[i].trackingId == p.trackingId) ==>
              Ingest(Some(BodyOf(p)), clients, bookingId, now, nowIso, dropsUndefined).status == 200
  {
    if exists i :: 0 <= i < |clients| && clients[i].trackingId == p.trackingId {
      assert FirstClientByTrackingId(clients, p.trackingId).Some?;
    }
  }

  /** `POST` against the stores: the booking goes into the table and the
      campaign into the scheduler exactly as `Ingest` decides. */
  method Post(db: DatabaseService, campaigns: CampaignService, body: Option<TrackBody>,
              now: nat, nowIso: string, suffix: string, dropsUndefined: bool)
    returns (status: nat, reply: TrackReply)
    requires db.Valid() && campaigns.Valid()
    modifies db, campaigns
    ensures db.Valid() && campaigns.Valid()
    ensures var ing := Ingest(body, old(db.clients), BookingIdFor(now, suffix), now, nowIso, dropsUndefined);
            && status == ing.status && reply == ing.reply
            && db.clients == old(db.clients)
            && db.bookings == (if ing.stored.Some? then Put(old(db.bookings), ing.stored.value) else old(db.bookings))
            && campaigns.pending == old(campaigns.pending) +
                 (if ing.recovery.Some?
                  then [PendingSend(BookingIdFor(now, suffix), ing.recovery.value.0, ing.recovery.value.1,
                                    now + 900_000)]
                  else [])
            && campaigns.dispatched == old(campaigns.dispatched)
  {
    var bookingId := BookingIdFor(now, suffix);
    var ing := Ingest(body, db.clients, bookingId, now, nowIso, dropsUndefined);
    if ing.stored.Some? {
      db.CreateBooking(ing.stored.value);
    }
    if ing.recovery.Some? {
      campaigns.ScheduleRecoveryCampaign(bookingId, ing.recovery.value.0, ing.recovery.value.1,
                                         RecoveryDelayMinutes, now);
    }
    status, reply := ing.status, ing.reply;
  }

  /** The CORS preflight answer. */
  datatype Preflight = Preflight(status: nat, headers: map<string, string>)

  /** `OPTIONS`: 200 allowing any origin, `POST` and `OPTIONS`, and the
      `Content-Type` header, with no body. */
  function Options(): (r: Preflight)
    ensures r.status == 200
    ensures r.headers.Keys == {"Access-Control-Allow-Origin", "Access-Control-Allow-Methods", "Access-Control-Allow-Headers"}
    ensures r.headers["Access-Control-Allow-Origin"] == "*"
    ensures r.headers["Access-Control-Allow-Methods"] == "POST, OPTIONS"
    ensures r.headers["Access-Control-Allow-Headers"] == "Content-Type"
  {
    Preflight(200, map["Access-Control-Allow-Origin" := "*",
                       "Access-Control-Allow-Methods" := "POST, OPTIONS",
                       "Access-Control-Allow-Headers" := "Content-Type"])
  }
}
