/** The email helpers of src/lib/email.ts: appointment-detail formatting,
    the default and the follow-up template, the choice between a custom
    and the default template when sending, and the in-process delayed send
    of `CampaignService`.  The HTML and text of a template are kept as
    their varying parts (greeting name, business name, details block,
    link); the Resend transport is a function from the outgoing message to
    what the client library returned. */
module Email {
  import opened Wrappers
  import opened JsStrings

  const DefaultFromEmail := "noreply@bookingrecovery.com"
  const DefaultCustomerName := "there"

  /** The captured form data a recovery email is built from. */
  type BookingData = map<string, string>

  /** `bookingData[key]`, with a missing key read as the falsy "". */
  function FieldOf(bd: BookingData, key: string): string {
    if key in bd then bd[key] else ""
  }

  datatype ClientInfo = ClientInfo(name: string, domain: string, businessType: Option<string>)

  // ---------------------------------------------------------------------
  // Appointment details

  datatype DetailKind = DateDetail | TimeDetail | ServiceDetail | PhoneDetail

  /** The form field a detail line shows. */
  function KeyOf(k: DetailKind): string {
    match k
    case DateDetail => "date"
    case TimeDetail => "time"
    case ServiceDetail => "service"
    case PhoneDetail => "phone"
  }

  function LabelOf(k: DetailKind): string {
    match k
    case DateDetail => "Date"
    case TimeDetail => "Time"
    case ServiceDetail => "Service"
    case PhoneDetail => "Phone"
  }

  /** Position of a detail line in the fixed order date, time, service, phone. */
  function Rank(k: DetailKind): nat {
    match k
    case DateDetail => 0
    case TimeDetail => 1
    case ServiceDetail => 2
    case PhoneDetail => 3
  }

  datatype Detail = Detail(kind: DetailKind, value: string)

  /** The details whose field is truthy, taken in the order of `kinds`. */
  function Collect(bd: BookingData, kinds: seq<DetailKind>): (r: seq<Detail>)
    ensures |r| <= |kinds|
  {
    if kinds == [] then []
    else if FieldOf(bd, KeyOf(kinds[0])) != "" then [Detail(kinds[0], FieldOf(bd, KeyOf(kinds[0])))] + Collect(bd, kinds[1..])
    else Collect(bd, kinds[1..])
  }

  lemma {:induction false} CollectSound(bd: BookingData, kinds: seq<DetailKind>)
    ensures forall i :: 0 <= i < |Collect(bd, kinds)| ==>
              && Collect(bd, kinds)[i].kind in kinds
              && Collect(bd, kinds)[i].value == FieldOf(bd, KeyOf(Collect(bd, kinds)[i].kind))
              && Collect(bd, kinds)[i].value != ""
  {
    if kinds != [] {
      CollectSound(bd, kinds[1..]);
      var rest := Collect(bd, kinds[1..]);
      var r := Collect(bd, kinds);
      assert kinds == [kinds[0]] + kinds[1..];
      forall i | 0 <= i < |r|
        ensures r[i].kind in kinds && r[i].value == FieldOf(bd, KeyOf(r[i].kind)) && r[i].value != ""
      {
        if FieldOf(bd, KeyOf(kinds[0])) != "" {
          if i > 0 {
            assert r[i] == rest[i - 1];
          }
        } else {
          assert r[i] == rest[i];
        }
      }
    }
  }

  lemma {:induction false} CollectComplete(bd: BookingData, kinds: seq<DetailKind>, k: DetailKind)
    requires k in kinds && FieldOf(bd, KeyOf(k)) != ""
    ensures exists i :: 0 <= i < |Collect(bd, kinds)| && Collect(bd, kinds)[i].kind == k
  {
    var r := Collect(bd, kinds);
    if kinds[0] == k {
      assert r[0].kind == k;
    } else {
      CollectComplete(bd, kinds[1..], k);
      var rest := Collect(bd, kinds[1..]);
      var i :| 0 <= i < |rest| && rest[i].kind == k;
      if FieldOf(bd, KeyOf(kinds[0])) != "" {
        assert r[i + 1] == rest[i];
      }
    }
  }

  lemma {:induction false} CollectOrdered(bd: BookingData, kinds: seq<DetailKind>)
    requires forall i, j :: 0 <= i < j < |kinds| ==> Rank(kinds[i]) < Rank(kinds[j])
    ensures forall i, j :: 0 <= i < j < |Collect(bd, kinds)| ==>
              Rank(Collect(bd, kinds)[i].kind) < Rank(Collect(bd, kinds)[j].kind)
  {
    if kinds != [] {
      CollectOrdered(bd, kinds[1..]);
      CollectSound(bd, kinds[1..]);
      var rest := Collect(bd, kinds[1..]);
      forall i | 0 <= i < |rest| ensures Rank(kinds[0]) < Rank(rest[i].kind) {
        assert rest[i].kind in kinds[1..];
        var j :| 0 <= j < |kinds[1..]| && kinds[1..][j] == rest[i].kind;
        assert kinds[j + 1] == rest[i].kind;
      }
      var r := Collect(bd, kinds);
      if FieldOf(bd, KeyOf(kinds[0])) != "" {
        assert forall i :: 1 <= i < |r| ==> r[i] == rest[i - 1];
      }
    }
  }

  const DetailOrder: seq<DetailKind> := [DateDetail, TimeDetail, ServiceDetail, PhoneDetail]

  lemma CollectAllKinds(bd: BookingData)
    ensures forall k :: FieldOf(bd, KeyOf(k)) != "" ==>
              exists i :: 0 <= i < |Collect(bd, DetailOrder)| && Collect(bd, DetailOrder)[i].kind == k
  {
    forall k | FieldOf(bd, KeyOf(k)) != ""
      ensures exists i :: 0 <= i < |Collect(bd, DetailOrder)| && Collect(bd, DetailOrder)[i].kind == k
    {
      assert k in DetailOrder by {
        match k
        case DateDetail =>
        case TimeDetail =>
        case ServiceDetail =>
        case PhoneDetail =>
      }
      CollectComplete(bd, DetailOrder, k);
    }
  }

  /** The `details.push` calls: one detail per truthy field, in the order
      date, time, service, phone. */
  function PresentDetails(bd: BookingData): (r: seq<Detail>)
    ensures |r| <= 4
    ensures forall i :: 0 <= i < |r| ==> r[i].value == FieldOf(bd, KeyOf(r[i].kind)) && r[i].value != ""
    ensures forall i, j :: 0 <= i < j < |r| ==> Rank(r[i].kind) < Rank(r[j].kind)
    ensures forall k :: FieldOf(bd, KeyOf(k)) != "" <==> exists i :: 0 <= i < |r| && r[i].kind == k
  {
    CollectSound(bd, DetailOrder);
    CollectOrdered(bd, DetailOrder);
    CollectAllKinds(bd);
    Collect(bd, DetailOrder)
  }

  function HtmlLine(d: Detail): (line: string)
    ensures line != ""
  {
    "<p><strong>" + LabelOf(d.kind) + ":</strong> " + d.value + "</p>"
  }

  function TextLine(d: Detail): string {
    LabelOf(d.kind) + ": " + d.value
  }

  function HtmlLines(ds: seq<Detail>): (lines: seq<string>)
    ensures |lines| == |ds|
    ensures forall i :: 0 <= i < |ds| ==> lines[i] == HtmlLine(ds[i])
  {
    seq(|ds|, i requires 0 <= i < |ds| => HtmlLine(ds[i]))
  }

  function TextLines(ds: seq<Detail>): (lines: seq<string>)
    ensures |lines| == |ds|
    ensures forall i :: 0 <= i < |ds| ==> lines[i] == TextLine(ds[i])
  {
    seq(|ds|, i requires 0 <= i < |ds| => TextLine(ds[i]))
  }

  /** `formatAppointmentDetails`: the HTML lines joined with no separator.
      It is empty exactly when none of date, time, service and phone is
      filled in. */
  function FormatAppointmentDetails(bd: BookingData): (html: string)
    ensures html == "" <==> forall k: DetailKind :: FieldOf(bd, KeyOf(k)) == ""
  {
    var lines := HtmlLines(PresentDetails(bd));
    JoinEmptySeparator(lines);
    assert PresentDetails(bd) != [] ==> lines[0] != "";
    Join(lines, "")
  }

  /** `formatAppointmentDetailsText`: the text lines joined by newlines. */
  function FormatAppointmentDetailsText(bd: BookingData): string {
    Join(TextLines(PresentDetails(bd)), "\n")
  }

  /** With k detail lines whose values contain no newline, the text
      version holds exactly k - 1 newlines: none before the first line and
      none after the last. */
  lemma TextDetailsNewlines(bd: BookingData)
    requires forall k: DetailKind :: '\n' !in FieldOf(bd, KeyOf(k))
    requires PresentDetails(bd) != []
    ensures CountChar(FormatAppointmentDetailsText(bd), '\n') == |PresentDetails(bd)| - 1
    ensures var s := FormatAppointmentDetailsText(bd);
            s != "" && s[0] != '\n' && s[|s| - 1] != '\n'
  {
    var ds := PresentDetails(bd);
    var lines := TextLines(ds);
    forall i | 0 <= i < |lines| ensures '\n' !in lines[i] {
      TextLineHasNoNewline(ds[i]);
    }
    JoinSeparatorCount(lines, '\n');
    var s := Join(lines, "\n");
    var first, last := ds[0], ds[|ds| - 1];
    assert s[0] == TextLine(first)[0] == LabelOf(first.kind)[0] by {
      if |lines| > 1 {
        assert s == (lines[0] + "\n") + Join(lines[1..], "\n");
      }
    }
    JoinEndsWithLast(lines, "\n");
    var v := last.value;
    assert v != "" && v[|v| - 1] in v;
    assert TextLine(last)[|TextLine(last)| - 1] == v[|v| - 1];
    assert s[|s| - 1] == TextLine(last)[|TextLine(last)| - 1];
  }

  lemma TextLineHasNoNewline(d: Detail)
    requires '\n' !in d.value
    ensures '\n' !in TextLine(d)
  {
    assert '\n' !in LabelOf(d.kind);
  }

  // ---------------------------------------------------------------------
  // Templates

  datatype LetterKind = CompleteYourBooking | LastChance

  /** The varying parts of an HTML or text letter. */
  datatype Letter = Letter(kind: LetterKind, greeting: string, business: string,
                           details: Option<string>, link: string)

  datatype EmailTemplate = EmailTemplate(subject: string, html: Letter, text: Letter)

  /** `bookingData.name || 'there'`. */
  function CustomerName(bd: BookingData): (name: string)
    ensures FieldOf(bd, "name") != "" ==> name == bd["name"]
    ensures FieldOf(bd, "name") == "" ==> name == DefaultCustomerName
  {
    Or(FieldOf(bd, "name"), DefaultCustomerName)
  }

  function DomainLink(domain: string): string {
    "https://" + domain
  }

  /** `getDefaultTemplate`: it greets by name or "there", names the
      business in its subject, links to the business's domain, and shows a
      details block (in both versions) exactly when some appointment
      detail is filled in. */
  function DefaultTemplate(ci: ClientInfo, bd: BookingData): (t: EmailTemplate)
    ensures t.subject == "Complete Your " + ci.name + " Booking"
    ensures t.html.greeting == t.text.greeting == (if FieldOf(bd, "name") != "" then bd["name"] else DefaultCustomerName)
    ensures t.html.link == t.text.link == "https://" + ci.domain
    ensures t.html.details.Some? <==> exists k: DetailKind :: FieldOf(bd, KeyOf(k)) != ""
    ensures t.text.details.Some? <==> t.html.details.Some?
    ensures t.html.details.Some? ==> t.html.details.value == FormatAppointmentDetails(bd)
    ensures t.text.details.Some? ==>
              t.text.details.value == "Your Booking Details:\n" + FormatAppointmentDetailsText(bd) + "\n"
  {
    var details := FormatAppointmentDetails(bd);
    EmailTemplate(
      "Complete Your " + ci.name + " Booking",
      Letter(CompleteYourBooking, CustomerName(bd), ci.name,
             if details != "" then Some(details) else None, DomainLink(ci.domain)),
      Letter(CompleteYourBooking, CustomerName(bd), ci.name,
             if details != "" then Some("Your Booking Details:\n" + FormatAppointmentDetailsText(bd) + "\n") else None,
             DomainLink(ci.domain)))
  }

  /** The template `sendFollowUpEmail` builds. */
  function FollowUpTemplate(ci: ClientInfo, bd: BookingData): EmailTemplate {
    EmailTemplate(
      "Last Chance: Your " + ci.name + " Appointment",
      Letter(LastChance, CustomerName(bd), ci.name, None, DomainLink(ci.domain)),
      Letter(LastChance, CustomerName(bd), ci.name, None, DomainLink(ci.domain)))
  }

  // ---------------------------------------------------------------------
  // Sending

  datatype OutgoingEmail = OutgoingEmail(from: string, to: string, template: EmailTemplate)

  /** What `resend.emails.send` did: resolved with an optional message id
      (`result.data?.id`), or threw with a message. */
  datatype Delivery = Resolved(id: Option<string>) | Rejected(message: string)

  /** `{ success: true, messageId }` or `{ success: false, error }`. */
  datatype SendResult = Sent(messageId: Option<string>) | SendFailed(error: string)

  datatype SendAttempt = SendAttempt(message: OutgoingEmail, result: SendResult)

  /** `sendAbandonmentEmail`: the custom template when one is given, else
      the default template; the sender is `FROM_EMAIL` (empty when unset)
      or the default address; a throwing transport is reported as a
      failure instead of propagating. */
  function SendAbandonmentEmail(toEmail: string, ci: ClientInfo, bd: BookingData,
                                custom: Option<EmailTemplate>, fromEnv: string,
                                transport: OutgoingEmail -> Delivery): (r: SendAttempt)
    ensures r.message.to == toEmail
    ensures custom.Some? ==> r.message.template == custom.value
    ensures custom.None? ==> r.message.template == DefaultTemplate(ci, bd)
    ensures r.message.from == (if fromEnv != "" then fromEnv else DefaultFromEmail)
    ensures transport(r.message).Rejected? <==> r.result.SendFailed?
    ensures transport(r.message).Rejected? ==> r.result.error == transport(r.message).message
    ensures transport(r.message).Resolved? ==> r.result.messageId == transport(r.message).id
  {
    var template := if custom.Some? then custom.value else DefaultTemplate(ci, bd);
    var message := OutgoingEmail(Or(fromEnv, DefaultFromEmail), toEmail, template);
    match transport(message)
    case Resolved(id) => SendAttempt(message, Sent(id))
    case Rejected(msg) => SendAttempt(message, SendFailed(msg))
  }

  /** `sendFollowUpEmail`: build the "Last Chance" template and delegate to
      `sendAbandonmentEmail` with it; the attempt number is only logged. */
  function SendFollowUpEmail(toEmail: string, ci: ClientInfo, bd: BookingData, attemptNumber: int,
                             fromEnv: string, transport: OutgoingEmail -> Delivery): (r: SendAttempt)
    ensures r.message.to == toEmail
    ensures r.message.from == (if fromEnv != "" then fromEnv else DefaultFromEmail)
    ensures r.message.template.html.details.None? && r.message.template.text.details.None?
    ensures transport(r.message).Rejected? <==> r.result.SendFailed?
    ensures r.message.template.subject == "Last Chance: Your " + ci.name + " Appointment"
    ensures r.message.template.html.greeting == CustomerName(bd)
    ensures r.message.template.html.link == "https://" + ci.domain
  {
    SendAbandonmentEmail(toEmail, ci, bd, Some(FollowUpTemplate(ci, bd)), fromEnv, transport)
  }

  // ---------------------------------------------------------------------
  // CampaignService

  function MinutesToMs(minutes: int): int {
    minutes * 60 * 1000
  }

  /** The largest delay Node's `setTimeout` honours: 2^31 - 1 ms. */
  const TimeoutMax := 0x7FFF_FFFF

  /** The delay Node's `setTimeout` actually waits: a delay below 1 ms or
      above `TimeoutMax` is replaced by 1 ms. */
  function TimerDelay(ms: int): int {
    if 1 <= ms <= TimeoutMax then ms else 1
  }

  /** A delay of `delayMinutes` is kept exactly when it lies between 1 and
      35791 minutes (the last whole minute below 2^31 ms); any other delay,
      zero and negative ones included, fires after 1 ms. */
  lemma DelayKeptIffInTimerRange(delayMinutes: int)
    ensures 1 <= TimerDelay(MinutesToMs(delayMinutes)) <= TimeoutMax
    ensures TimerDelay(MinutesToMs(delayMinutes)) == MinutesToMs(delayMinutes) <==> 1 <= delayMinutes <= 35791
    ensures !(1 <= delayMinutes <= 35791) ==> TimerDelay(MinutesToMs(delayMinutes)) == 1
  {
    if delayMinutes > 35791 {
      assert MinutesToMs(delayMinutes) >= MinutesToMs(35792) > TimeoutMax;
    } else if delayMinutes < 1 {
      assert MinutesToMs(delayMinutes) <= 0;
    } else {
      assert MinutesToMs(delayMinutes) <= MinutesToMs(35791) <= TimeoutMax;
    }
  }

  /** A `setTimeout` callback registered by `scheduleRecoveryCampaign`. */
  datatype PendingSend = PendingSend(bookingId: string, clientInfo: ClientInfo, bookingData: BookingData, due: int)

  /** The process-local timers of `CampaignService` and the messages their
      callbacks handed to the transport. */
  class CampaignService {
    var pending: seq<PendingSend>
    var dispatched: seq<OutgoingEmail>

    /** Every dispatched message went to a non-empty address. */
    ghost predicate Valid()
      reads this
    {
      forall k :: 0 <= k < |dispatched| ==> dispatched[k].to != ""
    }

    constructor ()
      ensures Valid() && pending == [] && dispatched == []
    {
      pending := [];
      dispatched := [];
    }

    /** `scheduleRecoveryCampaign`: register one callback for
        `delayMinutes * 60 * 1000` ms, which `setTimeout` clamps to
        `TimerDelay` of it, and return at once; nothing is sent yet. */
    method ScheduleRecoveryCampaign(bookingId: string, ci: ClientInfo, bd: BookingData, delayMinutes: int, now: int)
      requires Valid()
      modifies this
      ensures Valid()
      ensures pending == old(pending) + [PendingSend(bookingId, ci, bd, now + TimerDelay(MinutesToMs(delayMinutes)))]
      ensures dispatched == old(dispatched)
    {
      pending := pending + [PendingSend(bookingId, ci, bd, now + TimerDelay(MinutesToMs(delayMinutes)))];
    }

    /** The event loop runs pending callback `i` once it is due: it sends
        the default recovery email to `bookingData.email` when that is
        truthy and does nothing else; the send result is discarded. */
    method Fire(i: nat, now: int, fromEnv: string, transport: OutgoingEmail -> Delivery)
      requires Valid()
      modifies this
      ensures Valid()
      ensures i < |old(pending)| && old(pending)[i].due <= now ==>
                var p := old(pending)[i];
                && pending == old(pending)[..i] + old(pending)[i + 1..]
                && dispatched == old(dispatched) +
                     (if FieldOf(p.bookingData, "email") != ""
                      then [SendAbandonmentEmail(p.bookingData["email"], p.clientInfo, p.bookingData, None, fromEnv, transport).message]
                      else [])
      ensures !(i < |old(pending)| && old(pending)[i].due <= now) ==>
                pending == old(pending) && dispatched == old(dispatched)
    {
      if i < |pending| && pending[i].due <= now {
        var p := pending[i];
        pending := pending[..i] + pending[i + 1..];
        if FieldOf(p.bookingData, "email") != "" {
          var attempt := SendAbandonmentEmail(p.bookingData["email"], p.clientInfo, p.bookingData, None, fromEnv, transport);
          dispatched := dispatched + [attempt.message];
        }
      }
    }
  }
}
