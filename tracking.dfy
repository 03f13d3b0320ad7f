/** The browser-side abandonment tracker (public/tracking.js): tracking-ID
    resolution at script load, the booking-form classifier, the safe-field
    filter, and the `BookingRecovery` object driven by focus, input,
    submit, visibility, unload and timer events.  `setTimeout` callbacks
    are pending entries with a due time, `fetch` is an append to an
    outbox, and the clock, `location.href`, `document.hidden` and the ISO
    time are read from the `Moment` each event carries. */
module Tracking {
  import opened Wrappers
  import opened JsStrings

  const DemoTrackingId := "track_demo123"
  const InactivityDelayMs := 30000
  const VisibilityGraceMs := 2000
  const BookingKeywords: seq<string> := ["book", "appointment", "schedule", "reserve", "date", "time", "calendar"]
  const UnsafeTypes: seq<string> := ["password", "hidden"]
  const UnsafeNames: seq<string> := ["password", "pass", "pwd", "credit", "card", "cvv", "ssn"]

  // ---------------------------------------------------------------------
  // Tracking-ID resolution

  /** A script element taking part in the backwards scan: its `src` is
      non-empty and mentions tracking.js. */
  predicate IsTrackingScript(src: string) {
    src != "" && Contains(src, "tracking.js")
  }

  /** `src.split('?')[1] || ''`: the text between the first and the
      second `?` of the script URL. */
  function ScriptQuery(src: string): string {
    var parts := SplitOn(src, '?');
    if |parts| > 1 then parts[1] else ""
  }

  /** The `id` parameter of the LAST tracking script element, or `null`
      when there is no such element or it carries no `id`. */
  function ScriptTrackingId(srcs: seq<string>): Option<string> {
    if srcs == [] then None
    else if IsTrackingScript(srcs[|srcs| - 1]) then UrlParam(ScriptQuery(srcs[|srcs| - 1]), "id")
    else ScriptTrackingId(srcs[..|srcs| - 1])
  }

  /** The identifier the agent runs with: the script's `id` parameter, else
      the page's `tracking_id` parameter, else the demo identifier. */
  function ResolvedTrackingId(srcs: seq<string>, pageSearch: string): (id: string)
    ensures id != ""
  {
    var fromScript := ScriptTrackingId(srcs);
    if Present(fromScript) then fromScript.value
    else
      var fromPage := UrlParam(pageSearch, "tracking_id");
      if Present(fromPage) then fromPage.value else DemoTrackingId
  }

  /** Lines 5-30: scan the script elements backwards, stop at the first
      that loads tracking.js, then fall back to the page URL and to the
      demo identifier.  Since the result is never empty, the early return
      for a missing identifier (lines 32-35) cannot happen. */
  method ResolveTrackingId(scriptSrcs: seq<string>, pageSearch: string) returns (trackingId: string)
    ensures trackingId == ResolvedTrackingId(scriptSrcs, pageSearch)
    ensures trackingId != ""
  {
    var found: Option<string> := None;
    var i := |scriptSrcs| - 1;
    assert scriptSrcs[..i + 1] == scriptSrcs;
    while i >= 0
      invariant -1 <= i < |scriptSrcs|
      invariant found == None
      invariant ScriptTrackingId(scriptSrcs) == ScriptTrackingId(scriptSrcs[..i + 1])
    {
      assert scriptSrcs[..i + 1][..i] == scriptSrcs[..i];
      if scriptSrcs[i] != "" && Contains(scriptSrcs[i], "tracking.js") {
        found := UrlParam(ScriptQuery(scriptSrcs[i]), "id");
        break;
      }
      i := i - 1;
    }
    if !Present(found) {
      found := UrlParam(pageSearch, "tracking_id");
    }
    if !Present(found) {
      found := Some(DemoTrackingId);
    }
    trackingId := found.value;
  }

  /** Among several tracking scripts the last one decides. */
  lemma LastTrackingScriptWins(srcs: seq<string>, src: string, pageSearch: string)
    requires IsTrackingScript(src) && Present(UrlParam(ScriptQuery(src), "id"))
    ensures ResolvedTrackingId(srcs + [src], pageSearch) == UrlParam(ScriptQuery(src), "id").value
  {
    assert (srcs + [src])[|srcs + [src]| - 1] == src;
  }

  /** Without a tracking script element the page's `tracking_id` is used,
      and without that the demo identifier. */
  lemma {:induction false} NoTrackingScriptFallsBack(srcs: seq<string>, pageSearch: string)
    requires forall k :: 0 <= k < |srcs| ==> !IsTrackingScript(srcs[k])
    ensures ScriptTrackingId(srcs) == None
    ensures var fromPage := UrlParam(pageSearch, "tracking_id");
            ResolvedTrackingId(srcs, pageSearch) == if Present(fromPage) then fromPage.value else DemoTrackingId
  {
    if srcs != [] {
      NoTrackingScriptFallsBack(srcs[..|srcs| - 1], pageSearch);
    }
  }

  // ---------------------------------------------------------------------
  // Form classification and the safe-field filter

  /** `isBookingForm`: the lower-cased markup of the form mentions one of
      the booking keywords. */
  function IsBookingForm(innerHtml: string): (r: bool)
    ensures r <==> exists k :: k in BookingKeywords && Contains(Lower(innerHtml), k)
  {
    ContainsSome(Lower(innerHtml), BookingKeywords)
  }

  /** The classifier has no negative evidence: adding markup before or
      after a booking form never makes it a non-booking form. */
  lemma BookingFormStaysBooking(innerHtml: string, before: string, after: string)
    requires IsBookingForm(innerHtml)
    ensures IsBookingForm(before + innerHtml + after)
  {
    var k :| k in BookingKeywords && Contains(Lower(innerHtml), k);
    LowerAppend(before, innerHtml);
    LowerAppend(before + innerHtml, after);
    ContainsAppendLeft(Lower(before), Lower(innerHtml), k);
    ContainsAppendRight(Lower(before) + Lower(innerHtml), Lower(after), k);
  }

  /** A known false positive: "updates" contains "date". */
  lemma NewsletterFormIsClassifiedAsBooking()
    ensures IsBookingForm("<label>Get updates</label>")
  {
    var s := Lower("<label>Get updates</label>");
    assert s[13..17] == "date";
    ContainsAt(s, 13, "date");
  }

  /** One input, select or textarea element: its `name`, `id`, `type` and
      current `value`. */
  datatype Field = Field(name: string, id: string, fieldType: string, value: string)

  /** `input.name || input.id || input.type`: the key a captured value is
      stored under. */
  function FieldKey(f: Field): string {
    Or(Or(f.name, f.id), f.fieldType)
  }

  /** `isSafeField`: a password or hidden input (by its lower-cased type) is
      never captured, nor is one whose lower-cased `name || id` contains an
      unsafe word. */
  function IsSafeField(f: Field): (r: bool)
    ensures r <==> && Lower(f.fieldType) != "password" && Lower(f.fieldType) != "hidden"
                   && forall w :: w in UnsafeNames ==> !Contains(Lower(Or(f.name, f.id)), w)
  {
    if Lower(f.fieldType) in UnsafeTypes then false
    else !ContainsSome(Lower(Or(f.name, f.id)), UnsafeNames)
  }

  /** When a name is present, the id plays no part in the decision. */
  lemma NameShadowsId(f: Field, otherId: string)
    requires f.name != ""
    ensures IsSafeField(f) == IsSafeField(f.(id := otherId))
  {
  }

  /** When the name is empty, the id is checked in its place. */
  lemma IdCheckedWhenNameEmpty(f: Field)
    requires f.name == ""
    ensures IsSafeField(f) == IsSafeField(f.(name := f.id, id := ""))
  {
  }

  /** A captured field that has a name or an id is stored under a key
      free of every unsafe word. */
  lemma SafeFieldKeyIsClean(f: Field)
    requires IsSafeField(f) && Or(f.name, f.id) != ""
    ensures FieldKey(f) == Or(f.name, f.id)
    ensures forall w :: w in UnsafeNames ==> !Contains(Lower(FieldKey(f)), w)
  {
  }

  /** A text input named password123 (id pwd1) is refused because its name
      contains "pass", while an email input is captured under "email". */
  lemma PasswordNamedTextFieldIsRefused()
    ensures !IsSafeField(Field("password123", "pwd1", "text", "hunter2"))
    ensures IsSafeField(Field("email", "", "email", "x@y.com"))
    ensures FieldKey(Field("email", "", "email", "x@y.com")) == "email"
  {
    var s := Lower("password123");
    assert s[..4] == "pass";
    assert Contains(s, "pass");
    var e := Lower("email");
    assert e == "email";
    var t := Lower("email");
    assert t != "password" && t != "hidden";
    forall w | w in UnsafeNames ensures !Contains(e, w) {
      NotContainedInEmail(w);
    }
  }

  lemma NotContainedInEmail(w: string)
    requires w in UnsafeNames
    ensures !Contains("email", w)
  {
    if Contains("email", w) {
      ContainsFirstChar("email", w);
    }
  }

  /** `forms.forEach(...)` in `detectForms`: the indices of the forms the
      classifier accepts; only their fields and submits get listeners. */
  method DetectForms(forms: seq<string>) returns (tracked: set<nat>)
    ensures forall i: nat :: i in tracked <==> i < |forms| && IsBookingForm(forms[i])
  {
    tracked := {};
    var i := 0;
    while i < |forms|
      invariant 0 <= i <= |forms|
      invariant forall j: nat :: j in tracked <==> j < i && IsBookingForm(forms[j])
    {
      if IsBookingForm(forms[i]) {
        tracked := tracked + {i};
      }
      i := i + 1;
    }
  }

  // ---------------------------------------------------------------------
  // The BookingRecovery object

  datatype TimerKind = InactivityTimeout | VisibilityRecheck

  /** A pending `setTimeout` callback. */
  datatype Timer = Timer(due: int, kind: TimerKind)

  /** What the browser reports at the moment an event is handled: the
      clock in milliseconds, the ISO-8601 rendering of it,
      `window.location.href` and `document.hidden`. */
  datatype Moment = Moment(clock: int, iso: string, href: string, hidden: bool)

  /** The JSON body `sendData` posts. */
  datatype Payload = Payload(trackingId: string, sessionId: string, event: string,
                             formData: map<string, string>, url: string, timestamp: string,
                             userAgent: Option<string>)

  /** Every payload the agent posts: non-empty identifiers, one of the two
      terminal events, and a user agent exactly on abandonments. */
  predicate WellFormedPayload(p: Payload) {
    && p.trackingId != "" && p.sessionId != ""
    && (p.event == "abandonment" || p.event == "completion")
    && (p.userAgent.Some? <==> p.event == "abandonment")
  }

  /** Number of abandonment payloads in `s`. */
  function Abandonments(s: seq<Payload>): nat {
    if s == [] then 0
    else Abandonments(s[..|s| - 1]) + (if s[|s| - 1].event == "abandonment" then 1 else 0)
  }

  lemma AbandonmentsSnoc(s: seq<Payload>, p: Payload)
    ensures Abandonments(s + [p]) == Abandonments(s) + (if p.event == "abandonment" then 1 else 0)
  {
    assert (s + [p])[..|s|] == s;
  }

  /** The pending timers after `resetAbandonmentTimer`: the current
      inactivity timer cleared and a new one due 30 s from now. */
  function Rearmed(timers: map<nat, Timer>, current: Option<nat>, handle: nat, now: int): map<nat, Timer> {
    (if current.Some? then timers - {current.value} else timers)[handle := Timer(now + InactivityDelayMs, InactivityTimeout)]
  }

  class BookingRecovery {
    const trackingId: string
    const sessionId: string
    const apiUrl: string
    const userAgent: string
    /** Indices of the forms `detectForms` attached listeners to. */
    const trackedForms: set<nat>
    var formData: map<string, string>
    var isTracking: bool
    /** The handle last returned by `setTimeout` for the inactivity timer;
        like the JavaScript field it is kept after the timer fired. */
    var abandonmentTimer: Option<nat>
    /** Pending `setTimeout` callbacks by handle. */
    var timers: map<nat, Timer>
    var nextHandle: nat
    /** Payloads handed to `fetch`, oldest first. */
    var outbox: seq<Payload>
    /** Length of the outbox at the latest focus event. */
    ghost var focusMark: nat

    ghost predicate Valid()
      reads this
    {
      && trackingId != "" && sessionId != ""
      && (forall h :: h in timers ==> h < nextHandle)
      // at most one inactivity timer is pending: the one last armed
      && (forall h :: h in timers && timers[h].kind == InactivityTimeout ==> abandonmentTimer == Some(h))
      && (forall k :: 0 <= k < |outbox| ==>
            WellFormedPayload(outbox[k]) && outbox[k].trackingId == trackingId && outbox[k].sessionId == sessionId)
      // at most one abandonment since the latest focus, none while tracking
      && focusMark <= |outbox|
      && Abandonments(outbox[focusMark..]) <= 1
      && (isTracking ==> Abandonments(outbox[focusMark..]) == 0)
    }

    /** What appending `p` to the outbox does to the outbox conjuncts of
        `Valid`. */
    lemma AppendPreservesOutbox(p: Payload)
      requires Valid()
      requires WellFormedPayload(p) && p.trackingId == trackingId && p.sessionId == sessionId
      ensures forall k :: 0 <= k < |outbox + [p]| ==>
                WellFormedPayload((outbox + [p])[k]) && (outbox + [p])[k].trackingId == trackingId
                && (outbox + [p])[k].sessionId == sessionId
      ensures Abandonments((outbox + [p])[focusMark..])
              == Abandonments(outbox[focusMark..]) + (if p.event == "abandonment" then 1 else 0)
    {
      AbandonmentsSnoc(outbox[focusMark..], p);
      assert (outbox + [p])[focusMark..] == outbox[focusMark..] + [p];
    }

    function AbandonmentPayload(data: map<string, string>, m: Moment): Payload {
      Payload(trackingId, sessionId, "abandonment", data, m.href, m.iso, Some(userAgent))
    }

    function CompletionPayload(data: map<string, string>, m: Moment): Payload {
      Payload(trackingId, sessionId, "completion", data, m.href, m.iso, None)
    }

    /** Lines 39-51: the object literal with `sessionId` built from the
        load time and a random suffix, followed by `init` (form detection;
        the visibility and unload listeners are the methods below). */
    constructor (trackingId: string, loadedAt: nat, randomSuffix: string, origin: string,
                 userAgent: string, forms: seq<string>)
      requires trackingId != ""
      ensures Valid()
      ensures this.trackingId == trackingId && this.userAgent == userAgent
      ensures sessionId == "session_" + Decimal(loadedAt) + "_" + randomSuffix
      ensures apiUrl == origin + "/api/track"
      ensures forall i: nat :: i in trackedForms <==> i < |forms| && IsBookingForm(forms[i])
      ensures formData == map[] && !isTracking && abandonmentTimer == None && timers == map[] && outbox == []
    {
      var tracked := DetectForms(forms);
      this.trackingId := trackingId;
      sessionId := "session_" + Decimal(loadedAt) + "_" + randomSuffix;
      apiUrl := origin + "/api/track";
      this.userAgent := userAgent;
      trackedForms := tracked;
      formData := map[];
      isTracking := false;
      abandonmentTimer := None;
      timers := map[];
      nextHandle := 1;
      outbox := [];
      focusMark := 0;
    }

    /** `captureFormData`: store the value under its key when the field is
        safe; an unsafe field leaves the captured data untouched. */
    method CaptureFormData(f: Field)
      requires Valid()
      modifies this
      ensures Valid()
      ensures formData == if IsSafeField(f) then old(formData)[FieldKey(f) := f.value] else old(formData)
      ensures isTracking == old(isTracking) && timers == old(timers) && abandonmentTimer == old(abandonmentTimer)
      ensures nextHandle == old(nextHandle) && outbox == old(outbox) && focusMark == old(focusMark)
    {
      var name := FieldKey(f);
      if IsSafeField(f) {
        formData := formData[name := f.value];
      }
    }

    /** `resetAbandonmentTimer`: clear the pending inactivity timer, if
        any, and arm a new single-shot one due 30 s from now. */
    method ResetAbandonmentTimer(now: int)
      requires Valid()
      modifies this
      ensures Valid()
      ensures timers == Rearmed(old(timers), old(abandonmentTimer), old(nextHandle), now)
      ensures abandonmentTimer == Some(old(nextHandle)) && nextHandle == old(nextHandle) + 1
      ensures formData == old(formData) && isTracking == old(isTracking)
      ensures outbox == old(outbox) && focusMark == old(focusMark)
    {
      if abandonmentTimer.Some? {
        timers := timers - {abandonmentTimer.value};
      }
      timers := timers[nextHandle := Timer(now + InactivityDelayMs, InactivityTimeout)];
      abandonmentTimer := Some(nextHandle);
      nextHandle := nextHandle + 1;
    }

    /** `trackAbandonment`: a no-op unless tracking; otherwise post one
        abandonment payload (with the user agent) and stop tracking. */
    method TrackAbandonment(m: Moment)
      requires Valid()
      modifies this
      ensures Valid()
      ensures outbox == if old(isTracking) then old(outbox) + [AbandonmentPayload(old(formData), m)] else old(outbox)
      ensures !isTracking
      ensures formData == old(formData) && timers == old(timers) && abandonmentTimer == old(abandonmentTimer)
      ensures nextHandle == old(nextHandle) && focusMark == old(focusMark)
    {
      if !isTracking {
        return;
      }
      var data := AbandonmentPayload(formData, m);
      AppendPreservesOutbox(data);
      outbox := outbox + [data];
      isTracking := false;
    }

    /** `trackCompletion`: NOT guarded by `isTracking`; every call posts a
        completion payload (without a user agent) and stops tracking. */
    method TrackCompletion(m: Moment)
      requires Valid()
      modifies this
      ensures Valid()
      ensures outbox == old(outbox) + [CompletionPayload(old(formData), m)]
      ensures !isTracking
      ensures formData == old(formData) && timers == old(timers) && abandonmentTimer == old(abandonmentTimer)
      ensures nextHandle == old(nextHandle) && focusMark == old(focusMark)
    {
      var data := CompletionPayload(formData, m);
      AppendPreservesOutbox(data);
      outbox := outbox + [data];
      isTracking := false;
    }

    /** The `focus` listener of a field of form `form`: start tracking and
        re-arm the inactivity timer.  This also re-arms tracking after an
        earlier abandonment or completion. */
    method Focus(form: nat, m: Moment)
      requires Valid()
      modifies this
      ensures Valid()
      ensures form in trackedForms ==>
                && isTracking && timers == Rearmed(old(timers), old(abandonmentTimer), old(nextHandle), m.clock)
                && abandonmentTimer == Some(old(nextHandle)) && nextHandle == old(nextHandle) + 1
                && focusMark == |outbox|
      ensures form !in trackedForms ==>
                isTracking == old(isTracking) && timers == old(timers) && abandonmentTimer == old(abandonmentTimer)
                && nextHandle == old(nextHandle)
      ensures formData == old(formData) && outbox == old(outbox)
    {
      if form !in trackedForms {
        return;
      }
      focusMark := |outbox|;
      isTracking := true;
      ResetAbandonmentTimer(m.clock);
    }

    /** The `input` listener of field `f` of form `form`: capture the value
        and re-arm the inactivity timer; tracking is NOT switched on. */
    method Input(form: nat, f: Field, m: Moment)
      requires Valid()
      modifies this
      ensures Valid()
      ensures form in trackedForms ==>
                && formData == (if IsSafeField(f) then old(formData)[FieldKey(f) := f.value] else old(formData))
                && timers == Rearmed(old(timers), old(abandonmentTimer), old(nextHandle), m.clock)
                && abandonmentTimer == Some(old(nextHandle)) && nextHandle == old(nextHandle) + 1
      ensures form !in trackedForms ==>
                formData == old(formData) && timers == old(timers) && abandonmentTimer == old(abandonmentTimer)
                && nextHandle == old(nextHandle)
      ensures isTracking == old(isTracking) && outbox == old(outbox)
    {
      if form !in trackedForms {
        return;
      }
      CaptureFormData(f);
      ResetAbandonmentTimer(m.clock);
    }

    /** The `submit` listener of form `form`. */
    method Submit(form: nat, m: Moment)
      requires Valid()
      modifies this
      ensures Valid()
      ensures form in trackedForms ==> outbox == old(outbox) + [CompletionPayload(old(formData), m)] && !isTracking
      ensures form !in trackedForms ==> outbox == old(outbox) && isTracking == old(isTracking)
      ensures formData == old(formData) && timers == old(timers) && abandonmentTimer == old(abandonmentTimer)
      ensures nextHandle == old(nextHandle)
    {
      if form in trackedForms {
        TrackCompletion(m);
      }
    }

    /** The `visibilitychange` listener: when the page is hidden while
        tracking, schedule a re-check 2 s later.  These callbacks are never
        cleared, so several may be pending. */
    method VisibilityChange(m: Moment)
      requires Valid()
      modifies this
      ensures Valid()
      ensures timers == if m.hidden && old(isTracking)
                        then old(timers)[old(nextHandle) := Timer(m.clock + VisibilityGraceMs, VisibilityRecheck)]
                        else old(timers)
      ensures nextHandle == if m.hidden && old(isTracking) then old(nextHandle) + 1 else old(nextHandle)
      ensures formData == old(formData) && isTracking == old(isTracking) && abandonmentTimer == old(abandonmentTimer)
      ensures outbox == old(outbox) && focusMark == old(focusMark)
    {
      if m.hidden && isTracking {
        timers := timers[nextHandle := Timer(m.clock + VisibilityGraceMs, VisibilityRecheck)];
        nextHandle := nextHandle + 1;
      }
    }

    /** The `beforeunload` listener: report an abandonment at once when
        tracking. */
    method BeforeUnload(m: Moment)
      requires Valid()
      modifies this
      ensures Valid()
      ensures outbox == if old(isTracking) then old(outbox) + [AbandonmentPayload(old(formData), m)] else old(outbox)
      ensures !isTracking
      ensures formData == old(formData) && timers == old(timers) && abandonmentTimer == old(abandonmentTimer)
      ensures nextHandle == old(nextHandle)
    {
      if isTracking {
        TrackAbandonment(m);
      }
    }

    /** The event loop runs the pending callback with handle `h` once it is
        due: the inactivity timer calls `trackAbandonment`, the visibility
        re-check calls it only if the page is still hidden.  A callback that
        is not pending or not yet due does nothing. */
    method FireTimer(h: nat, m: Moment)
      requires Valid()
      modifies this
      ensures Valid()
      ensures var fires := h in old(timers) && old(timers)[h].due <= m.clock;
              var emits := fires && old(isTracking) && (old(timers)[h].kind == InactivityTimeout || m.hidden);
              && timers == (if fires then old(timers) - {h} else old(timers))
              && outbox == (if emits then old(outbox) + [AbandonmentPayload(old(formData), m)] else old(outbox))
              && isTracking == (old(isTracking) && !emits)
      ensures formData == old(formData) && abandonmentTimer == old(abandonmentTimer) && nextHandle == old(nextHandle)
    {
      if h in timers && timers[h].due <= m.clock {
        var t := timers[h];
        timers := timers - {h};
        match t.kind
        case InactivityTimeout =>
          TrackAbandonment(m);
        case VisibilityRecheck =>
          if m.hidden {
            TrackAbandonment(m);
          }
      }
    }
  }
}
