/** The booking controller: a booking's status by reference, the caller's update of
    their own booking, the caller's tee bookings in tee order, and the caller's
    upcoming activities (each booking's linked rows merged into one object, those
    without a start dropped, the rest sorted in place by start). */
module Bookings {
  import opened Common
  import opened Schema
  import opened Store

  // ---------------------------------------------------------------------------
  // getBooking

  /** `getBooking`: no guard; the path id goes through `Number` and keys the unique
      `bookingRef` column; only the status is sent back. A path that is not a number
      makes the query fail. */
  function GetBooking(db: Db, idParam: string): (r: Response<Status>)
    reads db`bookings
    ensures NumberValue(idParam).None? ==> r.Refused? && r.status == 500
    ensures r.Ok? <==> NumberValue(idParam).Some? && exists i :: 0 <= i < |db.bookings| && db.bookings[i].bookingRef == NumberValue(idParam).value
    ensures r.Ok? ==> r.status == 200 && exists i :: 0 <= i < |db.bookings| && db.bookings[i].bookingRef == NumberValue(idParam).value
                                                      && db.bookings[i].status == r.value
    ensures !r.Ok? && NumberValue(idParam).Some? ==> r == Refused(404, "Booking not found")
  {
    match NumberValue(idParam)
    case None => Refused(500, "Invalid value provided for bookingRef")
    case Some(ref) =>
      match IndexOfRef(db.bookings, ref)
      case None => Refused(404, "Booking not found")
      case Some(i) => Ok(200, db.bookings[i].status)
  }

  // ---------------------------------------------------------------------------
  // updateBooking

  /** `BookingSchema` as written, with `bookingDate: z.date()`. */
  function BookingIssuesAsWritten(body: Body): seq<Issue> {
    PlainString(body, "sessionId", true)
    + PlainString(body, "eventId", true)
    + PlainString(body, "classId", true)
    + PlainString(body, "tournamentId", true)
    + DateRule(body, "bookingDate")
  }

  /** As written, the schema refuses every JSON body, so `updateBooking` (and
      `createBooking`, which shares the schema) answers 400 to every request. */
  lemma BookingSchemaRefusesEveryBody(body: Body)
    ensures BookingIssuesAsWritten(body) != []
  {
    assert |DateRule(body, "bookingDate")| == 1;
  }

  /** `BookingSchema` with the date read from its ISO text, as the evidently intended
      `z.coerce.date()` does; `parseDate` stands for `new Date(text)`. */
  function BookingIssues(body: Body, parseDate: string -> Option<Instant>): seq<Issue> {
    PlainString(body, "sessionId", true)
    + PlainString(body, "eventId", true)
    + PlainString(body, "classId", true)
    + PlainString(body, "tournamentId", true)
    + StringRule(body, "bookingDate", false, s => parseDate(s).Some?, "Invalid date")
  }

  /** The parsed body: the optional keys that were present, and the date. */
  datatype BookingInput = BookingInput(
    sessionId: Option<string>, eventId: Option<string>, classId: Option<string>, tournamentId: Option<string>,
    bookingDate: Instant)

  function ParseBooking(body: Body, parseDate: string -> Option<Instant>): (r: Parse<BookingInput>)
    ensures r.Invalid? <==> BookingIssues(body, parseDate) != []
    ensures r.Invalid? ==> r.issues == BookingIssues(body, parseDate)
    ensures r.Parsed? ==> && r.value.sessionId == StringField(body, "sessionId")
                          && r.value.eventId == StringField(body, "eventId")
                          && r.value.classId == StringField(body, "classId")
                          && r.value.tournamentId == StringField(body, "tournamentId")
                          && "bookingDate" in body && body["bookingDate"].JString?
                          && parseDate(body["bookingDate"].s) == Some(r.value.bookingDate)
  {
    var issues := BookingIssues(body, parseDate);
    if issues != [] then Invalid(issues)
    else
      assert StringRule(body, "bookingDate", false, s => parseDate(s).Some?, "Invalid date") == [];
      Parsed(BookingInput(StringField(body, "sessionId"), StringField(body, "eventId"), StringField(body, "classId"),
                          StringField(body, "tournamentId"), parseDate(body["bookingDate"].s).value))
  }

  /** A link column after the update: kept when its key was absent, otherwise the
      row the text names (none when the text is not an id). */
  function NewLink(current: Option<Id>, given: Option<string>): (r: Option<Id>)
    ensures given.None? ==> r == current
    ensures given.Some? ==> r == IdOfText(given.value)
  {
    if given.None? then current else IdOfText(given.value)
  }

  /** Every link the body gives names an existing row; otherwise the store refuses the update. */
  predicate LinksExist(input: BookingInput, events: set<Id>, classes: set<Id>, tournaments: set<Id>) {
    && (input.eventId.Some? ==> IdOfText(input.eventId.value).Some? && IdOfText(input.eventId.value).value in events)
    && (input.classId.Some? ==> IdOfText(input.classId.value).Some? && IdOfText(input.classId.value).value in classes)
    && (input.tournamentId.Some? ==> IdOfText(input.tournamentId.value).Some? && IdOfText(input.tournamentId.value).value in tournaments)
  }

  /** The row `update({ data })` leaves: the given columns replaced, the others kept. */
  function Updated(b: Booking, input: BookingInput): (r: Booking)
    ensures r.id == b.id && r.bookingRef == b.bookingRef && r.usersId == b.usersId
    ensures r.status == b.status && r.slug == b.slug && r.teeId == b.teeId
    ensures r.sessionId == (if input.sessionId.Some? then input.sessionId else b.sessionId)
    ensures r.eventId == (if input.eventId.None? then b.eventId else IdOfText(input.eventId.value))
    ensures r.classId == (if input.classId.None? then b.classId else IdOfText(input.classId.value))
    ensures r.tournamentId == (if input.tournamentId.None? then b.tournamentId else IdOfText(input.tournamentId.value))
    ensures r.bookingDate == Some(input.bookingDate)
  {
    b.(sessionId := if input.sessionId.Some? then input.sessionId else b.sessionId,
       eventId := NewLink(b.eventId, input.eventId),
       classId := NewLink(b.classId, input.classId),
       tournamentId := NewLink(b.tournamentId, input.tournamentId),
       bookingDate := Some(input.bookingDate))
  }

  /** The row `where: { id, usersId }` selects: the booking with the path's id, if it
      is the caller's. */
  function OwnedIndex(bookings: seq<Booking>, idParam: string, usersId: string): (r: Option<nat>)
    ensures r.Some? ==> r.value < |bookings| && Some(bookings[r.value].id) == IdOfText(idParam)
                        && bookings[r.value].usersId == usersId
    ensures r.None? ==> forall i :: 0 <= i < |bookings| && bookings[i].usersId == usersId ==>
                          Some(bookings[i].id) != IdOfText(idParam)
  {
    if bookings == [] then None
    else
      var last := bookings[|bookings| - 1];
      if Some(last.id) == IdOfText(idParam) && last.usersId == usersId then Some(|bookings| - 1)
      else OwnedIndex(bookings[..|bookings| - 1], idParam, usersId)
  }

  /** `updateBooking` with the corrected schema. The body is validated before the
      guards, so a refused body gets 400 even without a token; the update matches the
      id together with the caller, so no one else's booking can change. */
  method UpdateBooking(db: Db, token: Option<string>, getUser: string -> Option<string>, idParam: string, body: Body,
                       parseDate: string -> Option<Instant>) returns (r: Response<Booking>)
    requires db.Valid()
    modifies db`bookings
    ensures db.Valid()
    ensures ParseBooking(body, parseDate).Invalid? ==> r == BadRequest(BookingIssues(body, parseDate))
    ensures ParseBooking(body, parseDate).Parsed? && Authenticate(token, getUser) == Forbidden ==>
              r == Refused(403, "Forbidden")
    ensures ParseBooking(body, parseDate).Parsed? && Authenticate(token, getUser) == Unauthorised ==>
              r == Refused(401, "Unauthorised")
    ensures !r.Ok? ==> db.bookings == old(db.bookings)
    ensures r.Ok? <==> && ParseBooking(body, parseDate).Parsed? && Authenticate(token, getUser).Caller?
                       && OwnedIndex(old(db.bookings), idParam, Authenticate(token, getUser).usersId).Some?
                       && LinksExist(ParseBooking(body, parseDate).value, db.events.Keys, db.classes.Keys, db.tournaments.Keys)
    ensures r.Ok? ==>
              var i := OwnedIndex(old(db.bookings), idParam, Authenticate(token, getUser).usersId).value;
              && r.status == 200
              && r.value == Updated(old(db.bookings)[i], ParseBooking(body, parseDate).value)
              && db.bookings == old(db.bookings)[i := r.value]
    ensures |db.bookings| == |old(db.bookings)|
    ensures forall i :: 0 <= i < |db.bookings| && db.bookings[i] != old(db.bookings)[i] ==>
              Authenticate(token, getUser).Caller? && old(db.bookings)[i].usersId == Authenticate(token, getUser).usersId
  {
    var parsed := ParseBooking(body, parseDate);
    if parsed.Invalid? {
      return BadRequest(parsed.issues);
    }
    var auth := Authenticate(token, getUser);
    if auth == Forbidden {
      return Refused(403, "Forbidden");
    }
    if auth == Unauthorised {
      return Refused(401, "Unauthorised");
    }
    var input := parsed.value;
    var found := OwnedIndex(db.bookings, idParam, auth.usersId);
    if found.None? {
      return Refused(500, "Record to update not found");
    }
    if !LinksExist(input, db.events.Keys, db.classes.Keys, db.tournaments.Keys) {
      return Refused(500, "Foreign key constraint failed");
    }
    var i := found.value;
    var b := Updated(db.bookings[i], input);
    db.ReplaceBooking(i, b);
    r := Ok(200, b);
  }

  // ---------------------------------------------------------------------------
  // getTeeBookings

  /** The selected columns of one tee booking, with its tee. */
  datatype TeeBookingRow = TeeBookingRow(status: Status, id: Id, bookingRef: nat, tee: Tee)

  /** `{ usersId, teeId: { not: null } }`: the caller's bookings of a tee. */
  predicate TeeSelected(b: Booking, usersId: string, tees: map<Id, Tee>) {
    b.usersId == usersId && b.teeId.Some? && b.teeId.value in tees
  }

  function RowOf(b: Booking, tees: map<Id, Tee>): TeeBookingRow
    requires b.teeId.Some? && b.teeId.value in tees
  {
    TeeBookingRow(b.status, b.id, b.bookingRef, tees[b.teeId.value])
  }

  /** The selected rows in storage order. */
  function TeeRows(bookings: seq<Booking>, usersId: string, tees: map<Id, Tee>): (r: seq<TeeBookingRow>)
    ensures |r| <= |bookings|
  {
    if bookings == [] then []
    else
      var last := bookings[|bookings| - 1];
      TeeRows(bookings[..|bookings| - 1], usersId, tees) + (if TeeSelected(last, usersId, tees) then [RowOf(last, tees)] else [])
  }

  /** A row is listed exactly when it comes from one of the caller's tee bookings. */
  lemma {:induction false} TeeRowsExact(bookings: seq<Booking>, usersId: string, tees: map<Id, Tee>)
    ensures forall b :: b in bookings && TeeSelected(b, usersId, tees) ==> RowOf(b, tees) in TeeRows(bookings, usersId, tees)
    ensures forall x :: x in TeeRows(bookings, usersId, tees) ==>
              exists b :: b in bookings && TeeSelected(b, usersId, tees) && x == RowOf(b, tees)
  {
    if bookings != [] {
      var front := bookings[..|bookings| - 1];
      TeeRowsExact(front, usersId, tees);
      assert bookings == front + [bookings[|bookings| - 1]];
    }
  }

  predicate TeeOrdered(rows: seq<TeeBookingRow>) {
    forall i, j :: 0 <= i < j < |rows| ==> rows[i].tee.startDate <= rows[j].tee.startDate
  }

  /** Places one row among rows already in tee order. */
  function InsertByTeeStart(x: TeeBookingRow, rows: seq<TeeBookingRow>): (r: seq<TeeBookingRow>)
    requires TeeOrdered(rows)
    ensures TeeOrdered(r)
    ensures multiset(r) == multiset(rows) + multiset{x}
  {
    if rows == [] || x.tee.startDate <= rows[0].tee.startDate then
      ConsOrdered(x, rows);
      [x] + rows
    else
      var rest := InsertByTeeStart(x, rows[1..]);
      assert rows == [rows[0]] + rows[1..];
      StartsNoLaterThanAll(rows[0], rest, rows[1..] + [x]);
      ConsOrdered(rows[0], rest);
      [rows[0]] + rest
  }

  /** `y` starts no later than any row of `s`. */
  predicate StartsNoLater(y: TeeBookingRow, s: seq<TeeBookingRow>) {
    forall j :: 0 <= j < |s| ==> y.tee.startDate <= s[j].tee.startDate
  }

  /** A row that starts no later than the first of ordered rows may go in front. */
  lemma ConsOrdered(y: TeeBookingRow, s: seq<TeeBookingRow>)
    requires TeeOrdered(s) && (s == [] || y.tee.startDate <= s[0].tee.startDate)
    ensures TeeOrdered([y] + s)
  {
  }

  /** A bound on every row carries over to a permutation of the rows. */
  lemma StartsNoLaterThanAll(y: TeeBookingRow, s: seq<TeeBookingRow>, t: seq<TeeBookingRow>)
    requires multiset(s) == multiset(t) && StartsNoLater(y, t)
    ensures StartsNoLater(y, s)
  {
    forall j | 0 <= j < |s| ensures y.tee.startDate <= s[j].tee.startDate {
      assert s[j] in multiset(t);
    }
  }

  /** `orderBy: { tee: { startDate: 'asc' } }`, which the store carries out. */
  function OrderByTeeStart(rows: seq<TeeBookingRow>): (r: seq<TeeBookingRow>)
    ensures TeeOrdered(r)
    ensures multiset(r) == multiset(rows)
  {
    if rows == [] then []
    else
      assert rows == [rows[0]] + rows[1..];
      InsertByTeeStart(rows[0], OrderByTeeStart(rows[1..]))
  }

  /** `getTeeBookings`: the guards, then the caller's tee bookings in ascending tee
      start; every listed row comes from one of the caller's bookings (`TeeRowsExact`). */
  function GetTeeBookings(db: Db, token: Option<string>, getUser: string -> Option<string>): (r: Response<seq<TeeBookingRow>>)
    reads db`bookings, db`tees
    ensures Authenticate(token, getUser) == Forbidden ==> r == Refused(403, "Forbidden")
    ensures Authenticate(token, getUser) == Unauthorised ==> r == Refused(401, "Unauthorised")
    ensures Authenticate(token, getUser).Caller? ==>
              && r.Ok? && r.status == 200 && TeeOrdered(r.value)
              && multiset(r.value) == multiset(TeeRows(db.bookings, Authenticate(token, getUser).usersId, db.tees))
  {
    match Authenticate(token, getUser)
    case Forbidden => Refused(403, "Forbidden")
    case Unauthorised => Refused(401, "Unauthorised")
    case Caller(usersId) => Ok(200, OrderByTeeStart(TeeRows(db.bookings, usersId, db.tees)))
  }

  // ---------------------------------------------------------------------------
  // getUpcomingActivities: the fetch

  /** The tables an activity is assembled from. */
  datatype Tables = Tables(events: map<Id, Event>, classes: map<Id, Record>, tournaments: map<Id, Record>,
                           tees: map<Id, Tee>)

  function TablesOf(db: Db): Tables
    reads db`events, db`classes, db`tournaments, db`tees
  {
    Tables(db.events, db.classes, db.tournaments, db.tees)
  }

  /** The relation filter `{ startDate: { gt: now } }` on a class or tournament row. */
  predicate StartsAfter(row: Record, now: Instant) {
    "startDate" in row && row["startDate"].Date? && row["startDate"].at > now
  }

  /** The `OR` of the fetch: the booking's event, class or tournament starts after now. */
  predicate IsUpcoming(b: Booking, t: Tables, now: Instant) {
    || (b.eventId.Some? && b.eventId.value in t.events && t.events[b.eventId.value].startDate > now)
    || (b.classId.Some? && b.classId.value in t.classes && StartsAfter(t.classes[b.classId.value], now))
    || (b.tournamentId.Some? && b.tournamentId.value in t.tournaments && StartsAfter(t.tournaments[b.tournamentId.value], now))
  }

  /** `booking.findMany` with that filter, in storage order. A tee's start plays no part. */
  function Fetch(bookings: seq<Booking>, usersId: string, t: Tables, now: Instant): (r: seq<Booking>)
    ensures |r| <= |bookings|
    ensures forall b :: b in r <==> b in bookings && b.usersId == usersId && IsUpcoming(b, t, now)
  {
    if bookings == [] then []
    else
      var front := bookings[..|bookings| - 1];
      var last := bookings[|bookings| - 1];
      assert bookings == front + [last];
      Fetch(front, usersId, t, now) + (if last.usersId == usersId && IsUpcoming(last, t, now) then [last] else [])
  }

  // ---------------------------------------------------------------------------
  // getUpcomingActivities: the merge

  function EventRecord(e: Event): Record {
    map["id" := Ref(e.id), "startDate" := Date(e.startDate), "holes" := Text(e.holes), "kit" := Text(e.kit),
        "listedEventId" := Ref(e.listedEventId), "packageId" := Ref(e.packageId)]
  }

  function TeeRecord(t: Tee): Record {
    map["id" := Ref(t.id), "holes" := Text(t.holes), "kit" := Text(t.kit), "isExistingGame" := Text(t.isExistingGame),
        "organizationId" := Text(t.organizationId), "date" := Date(t.date), "startTime" := Text(t.startTime),
        "startDate" := Date(t.startDate)]
  }

  /** `...row` of an included relation: its columns, or no key at all when the link is null. */
  function Spread<T>(link: Option<Id>, rows: map<Id, T>, columns: T -> Record): (r: Record)
    ensures link.None? || link.value !in rows ==> r == map[]
  {
    if link.Some? && link.value in rows then columns(rows[link.value]) else map[]
  }

  function EventPart(b: Booking, t: Tables): Record { Spread(b.eventId, t.events, EventRecord) }
  function ClassPart(b: Booking, t: Tables): Record { Spread(b.classId, t.classes, (r: Record) => r) }
  function TournamentPart(b: Booking, t: Tables): Record { Spread(b.tournamentId, t.tournaments, (r: Record) => r) }
  function TeePart(b: Booking, t: Tables): Record { Spread(b.teeId, t.tees, TeeRecord) }

  /** The booking's date, `null` when unset. */
  function DateOrNull(d: Option<Instant>): Val {
    if d.Some? then Date(d.value) else Null
  }

  /** One activity: the event's columns, overridden by the class's, then the
      tournament's, then the tee's; `bookingDate` always comes from the booking. */
  function Activity(b: Booking, t: Tables): (a: Record)
    ensures "bookingDate" in a && a["bookingDate"] == DateOrNull(b.bookingDate)
    ensures forall k :: k in a <==> k == "bookingDate" || k in EventPart(b, t) || k in ClassPart(b, t)
                                    || k in TournamentPart(b, t) || k in TeePart(b, t)
    ensures forall k :: k != "bookingDate" && k in TeePart(b, t) ==> a[k] == TeePart(b, t)[k]
    ensures forall k :: k != "bookingDate" && k !in TeePart(b, t) && k in TournamentPart(b, t) ==>
              a[k] == TournamentPart(b, t)[k]
    ensures forall k :: k != "bookingDate" && k !in TeePart(b, t) && k !in TournamentPart(b, t) && k in ClassPart(b, t) ==>
              a[k] == ClassPart(b, t)[k]
    ensures forall k :: (k != "bookingDate" && k !in TeePart(b, t) && k !in TournamentPart(b, t) && k !in ClassPart(b, t)
                         && k in EventPart(b, t)) ==> a[k] == EventPart(b, t)[k]
  {
    EventPart(b, t) + ClassPart(b, t) + TournamentPart(b, t) + TeePart(b, t) + map["bookingDate" := DateOrNull(b.bookingDate)]
  }

  function Activities(fetched: seq<Booking>, t: Tables): (r: seq<Record>)
    ensures |r| == |fetched|
    ensures forall i :: 0 <= i < |r| ==> r[i] == Activity(fetched[i], t)
  {
    seq(|fetched|, i requires 0 <= i < |fetched| => Activity(fetched[i], t))
  }

  // ---------------------------------------------------------------------------
  // getUpcomingActivities: the filter and the sort

  /** `activity.startDate` is truthy: the merged object has a start date (the
      columns are dates, so a present value that is not null). */
  predicate HasStart(a: Record) {
    "startDate" in a && a["startDate"].Date?
  }

  /** `startDate.getTime()`; the sort only meets activities that have one. */
  function Start(a: Record): Instant {
    if HasStart(a) then a["startDate"].at else 0
  }

  /** `filter(activity => activity.startDate)`, keeping the order. */
  function WithStart(acts: seq<Record>): (r: seq<Record>)
    ensures |r| <= |acts|
    ensures forall a :: a in r <==> a in acts && HasStart(a)
  {
    if acts == [] then []
    else
      var front := acts[..|acts| - 1];
      var last := acts[|acts| - 1];
      assert acts == front + [last];
      WithStart(front) + (if HasStart(last) then [last] else [])
  }

  predicate SortedByStart(s: seq<Record>) {
    forall i, j :: 0 <= i < j < |s| ==> Start(s[i]) <= Start(s[j])
  }

  /** Exchanges two neighbouring elements. */
  method SwapDown(a: array<Record>, j: nat)
    requires 0 < j < a.Length
    modifies a
    ensures a[j - 1] == old(a[j]) && a[j] == old(a[j - 1])
    ensures forall k :: 0 <= k < a.Length && k != j - 1 && k != j ==> a[k] == old(a[k])
    ensures multiset(a[..]) == multiset(old(a[..]))
  {
    a[j - 1], a[j] := a[j], a[j - 1];
    assert a[..] == old(a[..])[j - 1 := old(a[j])][j := old(a[j - 1])];
  }

  /** The first `n` elements of `a` are in start order. */
  predicate SortedPrefix(a: array<Record>, n: nat)
    requires n <= a.Length
    reads a
  {
    forall k, l :: 0 <= k < l < n ==> Start(a[k]) <= Start(a[l])
  }

  /** Moves `a[i]` down into the sorted prefix `a[..i]`, past every element that starts later. */
  method InsertDown(a: array<Record>, i: nat)
    requires i < a.Length && SortedPrefix(a, i)
    modifies a
    ensures SortedPrefix(a, i + 1)
    ensures forall k :: i < k < a.Length ==> a[k] == old(a[k])
    ensures multiset(a[..]) == multiset(old(a[..]))
  {
    var j := i;
    while j > 0 && Start(a[j - 1]) > Start(a[j])
      invariant 0 <= j <= i
      invariant forall k :: i < k < a.Length ==> a[k] == old(a[k])
      invariant multiset(a[..]) == multiset(old(a[..]))
      invariant forall k, l :: 0 <= k < l <= i && k != j && l != j ==> Start(a[k]) <= Start(a[l])
      invariant forall l :: j < l <= i ==> Start(a[j]) < Start(a[l])
    {
      SwapDown(a, j);
      j := j - 1;
    }
  }

  /** `activities.sort((a, b) => a.startDate.getTime() - b.startDate.getTime())`, in place. */
  method SortByStart(a: array<Record>)
    modifies a
    ensures SortedByStart(a[..])
    ensures multiset(a[..]) == multiset(old(a[..]))
  {
    var i := 0;
    while i < a.Length
      invariant 0 <= i <= a.Length
      invariant SortedPrefix(a, i)
      invariant multiset(a[..]) == multiset(old(a[..]))
    {
      InsertDown(a, i);
      i := i + 1;
    }
  }

  /** What `getUpcomingActivities` ends with: a guard's response, or the list it
      returns to Express without sending it (the request is left without a response). */
  datatype Upcoming = Guarded(status: int, reason: string) | Returned(activities: seq<Record>)

  /** `getUpcomingActivities` at the instant `now`: the guards, then the caller's
      upcoming bookings merged, filtered to those with a start, and sorted by it. */
  method GetUpcomingActivities(db: Db, token: Option<string>, getUser: string -> Option<string>, now: Instant)
    returns (r: Upcoming)
    ensures Authenticate(token, getUser) == Forbidden ==> r == Guarded(403, "Forbidden")
    ensures Authenticate(token, getUser) == Unauthorised ==> r == Guarded(401, "Unauthorised")
    ensures Authenticate(token, getUser).Caller? ==>
              var fetched := Fetch(db.bookings, Authenticate(token, getUser).usersId, TablesOf(db), now);
              && r.Returned?
              && SortedByStart(r.activities)
              && multiset(r.activities) == multiset(WithStart(Activities(fetched, TablesOf(db))))
              && |r.activities| <= |fetched|
  {
    var auth := Authenticate(token, getUser);
    if auth == Forbidden {
      return Guarded(403, "Forbidden");
    }
    if auth == Unauthorised {
      return Guarded(401, "Unauthorised");
    }
    var t := TablesOf(db);
    var fetched := Fetch(db.bookings, auth.usersId, t, now);
    var listed := WithStart(Activities(fetched, t));
    var sorted := SortedCopy(listed);
    r := Returned(sorted);
  }

  /** The activities copied into an array and sorted there. */
  method SortedCopy(listed: seq<Record>) returns (sorted: seq<Record>)
    ensures SortedByStart(sorted)
    ensures multiset(sorted) == multiset(listed)
    ensures |sorted| == |listed|
  {
    var acts := new Record[|listed|](k requires 0 <= k < |listed| => listed[k]);
    assert acts[..] == listed;
    SortByStart(acts);
    sorted := acts[..];
    assert |sorted| == |multiset(sorted)| == |multiset(listed)| == |listed|;
  }
}
