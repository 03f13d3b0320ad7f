/** The DynamoDB operations of `DatabaseService` (src/lib/database.ts; the
    file src/app/lib/db.ts is a copy of it with looser types and the same
    behaviour) over in-memory tables.  A table is a sequence of items in
    the order the queried index returns them; items are keyed by `id`.
    Times are milliseconds since the epoch (the store holds their ISO-8601
    renderings, which compare in the same order). */
module Database {
  import opened Wrappers

  const DayMs := 86400000

  /** An item of the users table, or any item the document client returns,
      as its string attributes. */
  type Item = map<string, string>

  /** `getUserByEmail`: the first item the `EmailIndex` returns for the
      email (`Items?.[0]`), or nothing. */
  function FirstUserByEmail(users: seq<Item>, email: string): (r: Option<Item>)
    ensures r.Some? ==> exists i :: 0 <= i < |users| && users[i] == r.value
                                    && HasEmail(users[i], email)
                                    && forall j :: 0 <= j < i ==> !HasEmail(users[j], email)
    ensures r.None? ==> forall i :: 0 <= i < |users| ==> !HasEmail(users[i], email)
  {
    if users == [] then None
    else if HasEmail(users[0], email) then Some(users[0])
    else
      var r := FirstUserByEmail(users[1..], email);
      if r.Some? then
        var i :| 0 <= i < |users[1..]| && users[1..][i] == r.value && HasEmail(users[1..][i], email)
                 && forall j :: 0 <= j < i ==> !HasEmail(users[1..][j], email);
        assert users[i + 1] == r.value;
        assert forall j :: 1 <= j < i + 1 ==> users[j] == users[1..][j - 1];
        r
      else r
  }

  /** The item's `email` attribute is `email`. */
  predicate HasEmail(user: Item, email: string) {
    "email" in user && user["email"] == email
  }

  /** A registered website. */
  datatype Client = Client(id: string, userId: string, name: string, domain: string,
                           trackingId: string, businessType: Option<string>)

  /** The attributes the tracking endpoint writes besides the key, the
      status and `updatedAt`. */
  datatype BookingDetails = BookingDetails(trackingId: string, sessionId: string, clientId: string,
                                           event: string, formData: map<string, string>,
                                           url: Option<string>, timestamp: string,
                                           userAgent: Option<string>, createdAt: int)

  /** A booking item.  `details` is `None` for the item an update creates
      when no booking has the key: such an item holds only `id`, `status`
      and `updatedAt`, and no index query sees it. */
  datatype Booking = Booking(id: string, details: Option<BookingDetails>, status: string, updatedAt: int)

  /** No two items share a key. */
  ghost predicate UniqueIds(t: seq<Booking>) {
    forall i, j :: 0 <= i < |t| && 0 <= j < |t| && t[i].id == t[j].id ==> i == j
  }

  /** Position of the item with key `id`. */
  function IndexOfId(t: seq<Booking>, id: string): (r: Option<nat>)
    ensures r.Some? ==> r.value < |t| && t[r.value].id == id
    ensures r.None? ==> forall i :: 0 <= i < |t| ==> t[i].id != id
  {
    if t == [] then None
    else if t[0].id == id then Some(0)
    else match IndexOfId(t[1..], id)
      case None => None
      case Some(i) => Some(i + 1)
  }

  /** `GetCommand` on the bookings table by key. */
  function GetBooking(t: seq<Booking>, id: string): Option<Booking> {
    match IndexOfId(t, id)
    case None => None
    case Some(i) => Some(t[i])
  }

  /** `PutCommand`: the item replaces the one with the same key, or is
      added. */
  function Put(t: seq<Booking>, b: Booking): seq<Booking> {
    match IndexOfId(t, b.id)
    case Some(i) => t[i := b]
    case None => t + [b]
  }

  /** After a put the key reads back the new item, every other key reads
      what it read before, and keys stay unique. */
  lemma PutReadsBack(t: seq<Booking>, b: Booking, other: string)
    requires UniqueIds(t)
    ensures UniqueIds(Put(t, b))
    ensures GetBooking(Put(t, b), b.id) == Some(b)
    ensures other != b.id ==> GetBooking(Put(t, b), other) == GetBooking(t, other)
  {
    var r := Put(t, b);
    match IndexOfId(t, b.id)
    case Some(i) =>
      assert r[i] == b;
      KeyedAt(r, i);
      if GetBooking(t, other).Some? {
        var j := IndexOfId(t, other).value;
        KeyedAt(t, j);
        KeyedAt(r, j);
      } else if other != b.id {
        assert forall k :: 0 <= k < |r| ==> r[k].id != other;
      }
    case None =>
      assert r[|t|] == b;
      KeyedAt(r, |t|);
      if GetBooking(t, other).Some? {
        var j := IndexOfId(t, other).value;
        KeyedAt(t, j);
        KeyedAt(r, j);
      }
  }

  /** With unique keys, the item at position i is what its key reads. */
  lemma KeyedAt(t: seq<Booking>, i: nat)
    requires UniqueIds(t) && i < |t|
    ensures IndexOfId(t, t[i].id) == Some(i)
  {
  }

  /** `updateBookingStatus`: `SET status, updatedAt` on the item keyed
      `id`.  Like DynamoDB's update, it creates an item holding only those
      attributes when no item has the key. */
  function SetStatus(t: seq<Booking>, id: string, status: string, at: int): seq<Booking> {
    match IndexOfId(t, id)
    case Some(i) => t[i := t[i].(status := status, updatedAt := at)]
    case None => t + [Booking(id, None, status, at)]
  }

  /** A status update changes only `status` and `updatedAt` of the keyed
      item and nothing about any other item. */
  lemma SetStatusChangesOnlyStatus(t: seq<Booking>, id: string, status: string, at: int, other: string)
    requires UniqueIds(t)
    ensures UniqueIds(SetStatus(t, id, status, at))
    ensures var after := GetBooking(SetStatus(t, id, status, at), id);
            && after.Some? && after.value.status == status && after.value.updatedAt == at
            && (GetBooking(t, id).Some? ==> after.value.details == GetBooking(t, id).value.details)
            && (GetBooking(t, id).None? ==> after.value.details == None)
    ensures other != id ==> GetBooking(SetStatus(t, id, status, at), other) == GetBooking(t, other)
    ensures |SetStatus(t, id, status, at)| == |t| + (if GetBooking(t, id).Some? then 0 else 1)
  {
    var r := SetStatus(t, id, status, at);
    match IndexOfId(t, id)
    case Some(i) =>
      KeyedAt(r, i);
      if GetBooking(t, other).Some? {
        var j := IndexOfId(t, other).value;
        KeyedAt(t, j);
        KeyedAt(r, j);
      } else if other != id {
        assert forall k :: 0 <= k < |r| ==> r[k].id != other;
      }
    case None =>
      KeyedAt(r, |t|);
      if GetBooking(t, other).Some? {
        var j := IndexOfId(t, other).value;
        KeyedAt(t, j);
        KeyedAt(r, j);
      }
  }

  /** `getClientByTrackingId`: the first client the index returns for the
      tracking ID (`Items?.[0]`), or nothing. */
  function FirstClientByTrackingId(clients: seq<Client>, trackingId: string): (r: Option<Client>)
    ensures r.Some? ==> exists i :: 0 <= i < |clients| && clients[i] == r.value
                                    && r.value.trackingId == trackingId
                                    && forall j :: 0 <= j < i ==> clients[j].trackingId != trackingId
    ensures r.None? ==> forall i :: 0 <= i < |clients| ==> clients[i].trackingId != trackingId
  {
    if clients == [] then None
    else if clients[0].trackingId == trackingId then Some(clients[0])
    else
      var r := FirstClientByTrackingId(clients[1..], trackingId);
      if r.Some? then
        var i :| 0 <= i < |clients[1..]| && clients[1..][i] == r.value
                 && r.value.trackingId == trackingId
                 && forall j :: 0 <= j < i ==> clients[1..][j].trackingId != trackingId;
        assert clients[i + 1] == r.value;
        assert forall j :: 1 <= j < i + 1 ==> clients[j] == clients[1..][j - 1];
        r
      else r
  }

  function CreatedAt(b: Booking): int {
    if b.details.Some? then b.details.value.createdAt else 0
  }

  /** An item the `TrackingIdIndex` holds under `trackingId`, created at or
      after `since` when a lower bound is given. */
  predicate InIndex(b: Booking, trackingId: string, since: Option<int>) {
    b.details.Some? && b.details.value.trackingId == trackingId
    && (since.Some? ==> b.details.value.createdAt >= since.value)
  }

  /** The items a `QueryCommand` on `TrackingIdIndex` selects, in table
      order. */
  function Matching(t: seq<Booking>, trackingId: string, since: Option<int>): (r: seq<Booking>)
    ensures |r| <= |t|
    ensures forall b :: b in r <==> b in t && InIndex(b, trackingId, since)
    ensures forall b :: multiset(r)[b] == if InIndex(b, trackingId, since) then multiset(t)[b] else 0
  {
    if t == [] then []
    else
      var rest := Matching(t[1..], trackingId, since);
      assert t == [t[0]] + t[1..];
      assert forall b :: b in t <==> b == t[0] || b in t[1..];
      if InIndex(t[0], trackingId, since) then [t[0]] + rest else rest
  }

  ghost predicate NewestFirst(s: seq<Booking>) {
    forall i, j :: 0 <= i < j < |s| ==> CreatedAt(s[i]) >= CreatedAt(s[j])
  }

  function InsertNewestFirst(b: Booking, s: seq<Booking>): (r: seq<Booking>)
    requires NewestFirst(s)
    ensures NewestFirst(r)
    ensures multiset(r) == multiset(s) + multiset{b}
    ensures |r| == |s| + 1
  {
    if s == [] then [b]
    else if CreatedAt(b) >= CreatedAt(s[0]) then [b] + s
    else
      var rest := InsertNewestFirst(b, s[1..]);
      assert s == [s[0]] + s[1..];
      forall x | x in rest ensures CreatedAt(x) <= CreatedAt(s[0]) {
        assert x in multiset(rest);
        if x != b {
          assert x in s[1..];
        }
      }
      [s[0]] + rest
  }

  /** The index order of a descending query (`ScanIndexForward: false`):
      newest `createdAt` first. */
  function SortNewestFirst(s: seq<Booking>): (r: seq<Booking>)
    ensures NewestFirst(r)
    ensures multiset(r) == multiset(s)
    ensures |r| == |s|
  {
    if s == [] then []
    else
      assert s == [s[0]] + s[1..];
      InsertNewestFirst(s[0], SortNewestFirst(s[1..]))
  }

  /** `getBookingsByTrackingId`: the first `limit` bookings of the
      tracking ID, newest first. */
  function BookingsByTrackingId(t: seq<Booking>, trackingId: string, limit: nat): (r: seq<Booking>)
  {
    var sorted := SortNewestFirst(Matching(t, trackingId, None));
    if |sorted| <= limit then sorted else sorted[..limit]
  }

  /** A prefix of a newest-first sequence is newest first, and nothing
      cut off is newer than anything kept. */
  lemma PrefixNewestFirst(s: seq<Booking>, n: nat)
    requires NewestFirst(s) && n <= |s|
    ensures NewestFirst(s[..n])
    ensures forall b, x :: b in s && b !in s[..n] && x in s[..n] ==> CreatedAt(x) >= CreatedAt(b)
  {
    forall b, x | b in s && b !in s[..n] && x in s[..n] ensures CreatedAt(x) >= CreatedAt(b) {
      var j :| 0 <= j < |s| && s[j] == b;
      var i :| 0 <= i < n && s[..n][i] == x;
      assert j >= n;
    }
  }

  /** A prefix holds no item more often than the whole sequence. */
  lemma PrefixSubMultiset(s: seq<Booking>, n: nat)
    requires n <= |s|
    ensures multiset(s[..n]) <= multiset(s)
  {
    assert s == s[..n] + s[n..];
  }

  /** At most `limit` bookings come back, all of the tracking ID, newest
      first, as many as there are up to the limit, and none left out is
      newer than one returned. */
  lemma BookingsByTrackingIdSpec(t: seq<Booking>, trackingId: string, limit: nat)
    ensures var r := BookingsByTrackingId(t, trackingId, limit);
            && |r| <= limit
            && |r| == (if |Matching(t, trackingId, None)| <= limit then |Matching(t, trackingId, None)| else limit)
            && NewestFirst(r)
            && multiset(r) <= multiset(Matching(t, trackingId, None))
            && (forall b :: b in r ==> b in t && InIndex(b, trackingId, None))
            && (forall b, x :: b in t && InIndex(b, trackingId, None) && b !in r && x in r ==> CreatedAt(x) >= CreatedAt(b))
  {
    var m := Matching(t, trackingId, None);
    var sorted := SortNewestFirst(m);
    var n := if |sorted| <= limit then |sorted| else limit;
    assert sorted[..n] == BookingsByTrackingId(t, trackingId, limit);
    PrefixNewestFirst(sorted, n);
    PrefixSubMultiset(sorted, n);
    assert forall b :: b in sorted <==> b in m by {
      forall b ensures b in sorted <==> b in m {
        assert b in sorted <==> b in multiset(sorted);
        assert b in m <==> b in multiset(m);
      }
    }
  }

  /** `recoveryRate`: "0.0" when nothing was abandoned, otherwise the
      one-decimal rendering of recovered/abandoned as a percentage. */
  datatype RecoveryRate = ZeroRate | Percent(recovered: nat, abandoned: nat)

  datatype BookingStats = BookingStats(total: nat, abandoned: nat, completed: nat, recovered: nat,
                                       recoveryRate: RecoveryRate)

  function Statuses(s: seq<Booking>): (r: seq<string>)
    ensures |r| == |s|
    ensures forall i :: 0 <= i < |s| ==> r[i] == s[i].status
  {
    seq(|s|, i requires 0 <= i < |s| => s[i].status)
  }

  /** `bookings.filter(b => b.status === status).length`. */
  function CountStatus(s: seq<Booking>, status: string): (n: nat)
    ensures n == multiset(Statuses(s))[status]
  {
    if s == [] then 0
    else
      assert Statuses(s) == [s[0].status] + Statuses(s[1..]);
      (if s[0].status == status then 1 else 0) + CountStatus(s[1..], status)
  }

  /** Counts of three distinct statuses never exceed the number of
      bookings. */
  lemma {:induction false} DistinctCountsBounded(s: seq<Booking>, a: string, b: string, c: string)
    requires a != b && b != c && a != c
    ensures CountStatus(s, a) + CountStatus(s, b) + CountStatus(s, c) <= |s|
  {
    if s != [] {
      DistinctCountsBounded(s[1..], a, b, c);
    }
  }

  /** The counting part of `getBookingStats` over the selected bookings. */
  function Stats(selected: seq<Booking>): (r: BookingStats)
    ensures r.total == |selected|
    ensures r.abandoned == multiset(Statuses(selected))["abandoned"]
    ensures r.completed == multiset(Statuses(selected))["completed"]
    ensures r.recovered == multiset(Statuses(selected))["recovered"]
    ensures r.abandoned + r.completed + r.recovered <= r.total
    ensures r.abandoned == 0 <==> r.recoveryRate == ZeroRate
    ensures r.recoveryRate.Percent? ==> r.recoveryRate == Percent(r.recovered, r.abandoned)
  {
    var abandoned := CountStatus(selected, "abandoned");
    var completed := CountStatus(selected, "completed");
    var recovered := CountStatus(selected, "recovered");
    DistinctCountsBounded(selected, "abandoned", "completed", "recovered");
    BookingStats(|selected|, abandoned, completed, recovered,
                 if abandoned > 0 then Percent(recovered, abandoned) else ZeroRate)
  }

  /** The in-memory tables behind `DatabaseService`. */
  class DatabaseService {
    var clients: seq<Client>
    var bookings: seq<Booking>

    ghost predicate Valid()
      reads this
    {
      UniqueIds(bookings)
    }

    constructor (clients: seq<Client>)
      ensures Valid() && this.clients == clients && bookings == []
    {
      this.clients := clients;
      bookings := [];
    }

    /** `getClientByTrackingId`. */
    function GetClientByTrackingId(trackingId: string): (r: Option<Client>)
      reads this
      ensures r == FirstClientByTrackingId(clients, trackingId)
      ensures r.Some? ==> r.value in clients && r.value.trackingId == trackingId
      ensures r.None? ==> forall i :: 0 <= i < |clients| ==> clients[i].trackingId != trackingId
    {
      FirstClientByTrackingId(clients, trackingId)
    }

    /** `createBooking`. */
    method CreateBooking(b: Booking)
      requires Valid()
      modifies this
      ensures Valid()
      ensures bookings == Put(old(bookings), b) && clients == old(clients)
    {
      PutReadsBack(bookings, b, b.id);
      bookings := Put(bookings, b);
    }

    /** `updateBookingStatus` at time `now`. */
    method UpdateBookingStatus(bookingId: string, status: string, now: int)
      requires Valid()
      modifies this
      ensures Valid()
      ensures bookings == SetStatus(old(bookings), bookingId, status, now) && clients == old(clients)
    {
      SetStatusChangesOnlyStatus(bookings, bookingId, status, now, bookingId);
      bookings := SetStatus(bookings, bookingId, status, now);
    }

    /** `getBookingsByTrackingId(trackingId, limit = 50)`: the caller
        passes 50 when it gives no limit. */
    function GetBookingsByTrackingId(trackingId: string, limit: nat): (r: seq<Booking>)
      reads this
      ensures |r| <= limit && NewestFirst(r)
      ensures |r| == (if |Matching(bookings, trackingId, None)| <= limit then |Matching(bookings, trackingId, None)| else limit)
      ensures multiset(r) <= multiset(Matching(bookings, trackingId, None))
      ensures forall b :: b in r ==> b in bookings && InIndex(b, trackingId, None)
      ensures forall b, x :: b in bookings && InIndex(b, trackingId, None) && b !in r && x in r ==>
                CreatedAt(x) >= CreatedAt(b)
    {
      BookingsByTrackingIdSpec(bookings, trackingId, limit);
      BookingsByTrackingId(bookings, trackingId, limit)
    }

    /** `getBookingStats(trackingId, days = 30)` at time `now`: the bookings
        of the tracking ID created at or after `now - days` days (the
        caller passes 30 when it gives no window). */
    function GetBookingStats(trackingId: string, days: int, now: int): (r: BookingStats)
      reads this
      ensures r.total == |Matching(bookings, trackingId, Some(now - days * DayMs))|
      ensures forall b :: b in Matching(bookings, trackingId, Some(now - days * DayMs)) <==>
                b in bookings && b.details.Some? && b.details.value.trackingId == trackingId
                && b.details.value.createdAt >= now - days * DayMs
      ensures r.abandoned == CountStatus(Matching(bookings, trackingId, Some(now - days * DayMs)), "abandoned")
      ensures r.completed == CountStatus(Matching(bookings, trackingId, Some(now - days * DayMs)), "completed")
      ensures r.recovered == CountStatus(Matching(bookings, trackingId, Some(now - days * DayMs)), "recovered")
      ensures r.abandoned + r.completed + r.recovered <= r.total
      ensures r.abandoned == 0 <==> r.recoveryRate == ZeroRate
    {
      Stats(Matching(bookings, trackingId, Some(now - days * DayMs)))
    }
  }
}
