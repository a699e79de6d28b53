/** The events controller: booking a game at a listed event (the start time is a
    12-hour clock reading combined with the day and shifted to East Africa time),
    the booking's price, and listing or editing an event with its price tables. */
module Events {
  import opened Common
  import opened Schema
  import opened Store
  import opened Clock

  // ---------------------------------------------------------------------------
  // Start times

  /** `timeRegex`: `h:mm am` or `h:mm pm`, lower-case modifier. */
  predicate IsEventTime(s: string) {
    MatchesTwelveHour(s, Lower)
  }

  /** The pieces `combineDateAndTime` reads from `"<h>:<m> <modifier>"`: the two
      `parseInt` results (`None` is NaN or a missing piece) and the modifier. */
  datatype TimeFields = TimeFields(hours: Option<int>, minutes: Option<int>, modifier: Option<string>)

  function ReadTimeFields(timeStr: string): TimeFields {
    var parts := Split(timeStr, ' ');
    var fields := Split(parts[0], ':');
    TimeFields(ParseInt(fields[0]),
               if |fields| > 1 then ParseInt(fields[1]) else None,
               if |parts| > 1 then Some(parts[1]) else None)
  }

  /** `combineDateAndTime`: midnight of the given day, the hours and minutes read
      from the time (12 counts as 0, `pm` adds 12), then 3 hours back. `None` is an
      invalid date, which results when either number is missing. */
  function CombineDateAndTime(date: Instant, timeStr: string): Option<Instant> {
    CombineFields(date, ReadTimeFields(timeStr))
  }

  function CombineFields(date: Instant, t: TimeFields): Option<Instant> {
    if t.hours.None? || t.minutes.None? then None
    else
      var h := if t.hours.value == 12 then 0 else t.hours.value;
      var h24 := if t.modifier == Some("pm") then h + 12 else h;
      Some(StartOfDay(date) + h24 * HourMs + t.minutes.value * MinuteMs - 3 * HourMs)
  }

  /** Midnight of the day, plus the reading's minute of the day, less the three-hour shift. */
  function ShiftedStart(date: Instant, t: ClockTime): Instant
    requires t.Valid()
  {
    StartOfDay(date) + MinuteOfDay(t) * MinuteMs - 3 * HourMs
  }

  /** The arithmetic of the conversion agrees with the minute of the day of the reading. */
  lemma CombineFieldsOfClock(date: Instant, t: ClockTime)
    requires t.Valid()
    ensures CombineFields(date, TimeFields(Some(t.hour), Some(t.minute), Some(Meridiem(t.pm, Lower))))
            == Some(ShiftedStart(date, t))
  {
    var h24 := (t.hour % 12) + (if t.pm then 12 else 0);
    assert MinuteOfDay(t) * MinuteMs == h24 * HourMs + t.minute * MinuteMs;
  }

  /** A time written as digits, a colon, digits, a space and a word reads as those numbers and that word. */
  lemma ReadTimeFieldsOf(h: string, m: string, word: string)
    requires |h| >= 1 && forall i :: 0 <= i < |h| ==> IsDigit(h[i])
    requires |m| >= 1 && forall i :: 0 <= i < |m| ==> IsDigit(m[i])
    requires ' ' !in word
    ensures ReadTimeFields(h + [':'] + m + [' '] + word) == TimeFields(Some(DigitsValue(h)), Some(DigitsValue(m)), Some(word))
  {
    var time := h + [':'] + m;
    assert ' ' !in time by {
      forall i | 0 <= i < |time| ensures time[i] != ' ' {
        if i < |h| { assert time[i] == h[i]; }
        else if i > |h| { assert time[i] == m[i - |h| - 1]; }
      }
    }
    assert ':' !in h by {
      forall i | 0 <= i < |h| ensures h[i] != ':' { assert IsDigit(h[i]); }
    }
    assert ':' !in m by {
      forall i | 0 <= i < |m| ensures m[i] != ':' { assert IsDigit(m[i]); }
    }
    SplitAtFirst(time, ' ', word);
    SplitWithoutSeparator(word, ' ');
    SplitAtFirst(h, ':', m);
    SplitWithoutSeparator(m, ':');
    ParseIntOfDigits(h);
    ParseIntOfDigits(m);
  }

  /** On every time the schema admits, the result is midnight plus the reading's
      minute of the day, less three hours. */
  lemma CombineValidTime(date: Instant, s: string)
    requires IsEventTime(s)
    ensures CombineDateAndTime(date, s) == Some(ShiftedStart(date, ReadClock(s, Lower)))
  {
    var t := ReadClock(s, Lower);
    MatchesIsRendering(s, Lower);
    var h := HourText(t.hour, Padded(s));
    var m := MinuteText(t.minute);
    HourFieldValue(h);
    HourTextValue(t.hour, Padded(s));
    MinuteTextValue(t.minute);
    assert s == h + [':'] + m + [' '] + Meridiem(t.pm, Lower);
    ReadTimeFieldsOf(h, m, Meridiem(t.pm, Lower));
    CombineFieldsOfClock(date, t);
  }

  /** Every minute of the day is reached by some admitted time. */
  lemma EventTimeCoversDay(date: Instant, minute: nat)
    requires minute < 24 * 60
    ensures exists s :: IsEventTime(s) && CombineDateAndTime(date, s) == Some(StartOfDay(date) + minute * MinuteMs - 3 * HourMs)
  {
    var s := Render(ClockOfMinute(minute), false, Lower);
    RenderMatches(ClockOfMinute(minute), false, Lower);
    CombineValidTime(date, s);
    MinuteOfDayOfClock(minute);
  }

  /** Two admitted times give the same instant only when they are the same reading,
      and then the same string unless one pads the hour with a zero. */
  lemma EventTimeInjective(date: Instant, s1: string, s2: string)
    requires IsEventTime(s1) && IsEventTime(s2)
    requires CombineDateAndTime(date, s1) == CombineDateAndTime(date, s2)
    ensures ReadClock(s1, Lower) == ReadClock(s2, Lower)
    ensures Padded(s1) == Padded(s2) ==> s1 == s2
  {
    var t1, t2 := ReadClock(s1, Lower), ReadClock(s2, Lower);
    CombineValidTime(date, s1);
    CombineValidTime(date, s2);
    assert MinuteOfDay(t1) * MinuteMs == MinuteOfDay(t2) * MinuteMs;
    assert MinuteOfDay(t1) == MinuteOfDay(t2);
    ClockOfMinuteOfDay(t1);
    ClockOfMinuteOfDay(t2);
    if Padded(s1) == Padded(s2) {
      MatchesIsRendering(s1, Lower);
      MatchesIsRendering(s2, Lower);
    }
  }

  /** The three-hour shift moves readings before 3 am to the previous day. */
  lemma CombinePreviousDay(date: Instant, s: string)
    requires IsEventTime(s)
    ensures CombineDateAndTime(date, s).Some?
    ensures var r := CombineDateAndTime(date, s).value;
            && (r < StartOfDay(date) <==> MinuteOfDay(ReadClock(s, Lower)) < 3 * 60)
            && (r < StartOfDay(date) ==> StartOfDay(r) == StartOfDay(date) - DayMs)
            && (r >= StartOfDay(date) ==> StartOfDay(r) == StartOfDay(date))
  {
    CombineValidTime(date, s);
    var m := MinuteOfDay(ReadClock(s, Lower));
    var offset := m * MinuteMs - 3 * HourMs;
    if offset < 0 {
      StartOfDayWithin(StartOfDay(date) - DayMs, offset + DayMs);
    } else {
      StartOfDayWithin(StartOfDay(date), offset);
    }
  }

  // ---------------------------------------------------------------------------
  // The booking request

  /** `EventSchema`. `isDateTime` stands for Zod's ISO date-time check. */
  function EventIssues(body: Body, isDateTime: string -> bool): seq<Issue> {
    EnumRule(body, "holes", false, ["9 holes", "18 holes"])
    + EnumRule(body, "kit", false, ["Yes", "No"])
    + StringRule(body, "listedEventId", false, s => |s| >= 1, "Organization ID is required")
    + StringRule(body, "date", false, isDateTime, "Invalid datetime")
    + StringRule(body, "startTime", false, IsEventTime, "Invalid time format. Use HH:MM in 24-hour format.")
    + PlainString(body, "packageId", false)
  }

  datatype EventInput = EventInput(holes: string, kit: string, listedEventId: string, date: string, startTime: string, packageId: string)

  function ParseEvent(body: Body, isDateTime: string -> bool): (r: Parse<EventInput>)
    ensures r.Invalid? <==> EventIssues(body, isDateTime) != []
    ensures r.Invalid? ==> r.issues == EventIssues(body, isDateTime)
    ensures r.Parsed? ==> && r.value.holes in ["9 holes", "18 holes"] && r.value.kit in ["Yes", "No"]
                          && IsEventTime(r.value.startTime) && isDateTime(r.value.date)
                          && StringField(body, "holes") == Some(r.value.holes)
                          && StringField(body, "kit") == Some(r.value.kit)
                          && StringField(body, "date") == Some(r.value.date)
                          && StringField(body, "startTime") == Some(r.value.startTime)
                          && StringField(body, "listedEventId") == Some(r.value.listedEventId)
                          && StringField(body, "packageId") == Some(r.value.packageId)
  {
    var issues := EventIssues(body, isDateTime);
    if issues != [] then Invalid(issues)
    else
      assert EnumRule(body, "holes", false, ["9 holes", "18 holes"]) == [];
      assert EnumRule(body, "kit", false, ["Yes", "No"]) == [];
      assert StringRule(body, "date", false, isDateTime, "Invalid datetime") == [];
      assert StringRule(body, "startTime", false, IsEventTime, "Invalid time format. Use HH:MM in 24-hour format.") == [];
      Parsed(EventInput(body["holes"].s, body["kit"].s, StringField(body, "listedEventId").value,
                        body["date"].s, body["startTime"].s, StringField(body, "packageId").value))
  }

  // ---------------------------------------------------------------------------
  // The price of a booking

  /** `kitPrices.findFirst({ where: { listedEventId } })`. The query names no order;
      the model takes the first matching row of the table as listed. */
  function FirstKitPrice(rows: seq<KitPrice>, listedEventId: Id): (r: Option<KitPrice>)
    ensures r.None? <==> forall i :: 0 <= i < |rows| ==> rows[i].listedEventId != listedEventId
    ensures r.Some? ==> exists i :: 0 <= i < |rows| && rows[i] == r.value && rows[i].listedEventId == listedEventId
                           && forall j :: 0 <= j < i ==> rows[j].listedEventId != listedEventId
  {
    if rows == [] then None
    else if rows[0].listedEventId == listedEventId then Some(rows[0])
    else
      var r := FirstKitPrice(rows[1..], listedEventId);
      assert forall i :: 1 <= i < |rows| ==> rows[i] == rows[1..][i - 1];
      r
  }

  /** The amount of an event booking: the package amount, plus the event's kit
      price when kit was asked for and the event has one. */
  function EventAmount(packageAmount: real, kit: string, kitPrices: seq<KitPrice>, listedEventId: Id): real {
    if kit == "Yes" then
      match FirstKitPrice(kitPrices, listedEventId)
      case Some(k) => packageAmount + k.amount
      case None => packageAmount
    else packageAmount
  }

  /** The amount exceeds the package amount exactly when kit was asked for and the
      event has a kit price, as long as kit prices are positive (the listing schema
      makes them so); otherwise it is the package amount. */
  lemma EventAmountCases(packageAmount: real, kit: string, kitPrices: seq<KitPrice>, listedEventId: Id)
    requires forall i :: 0 <= i < |kitPrices| ==> kitPrices[i].amount > 0.0
    ensures var a := EventAmount(packageAmount, kit, kitPrices, listedEventId);
            && a >= packageAmount
            && (a > packageAmount <==> kit == "Yes" && exists i :: 0 <= i < |kitPrices| && kitPrices[i].listedEventId == listedEventId)
            && (a > packageAmount ==>
                  exists i :: 0 <= i < |kitPrices| && kitPrices[i].listedEventId == listedEventId
                              && a == packageAmount + kitPrices[i].amount)
  {
  }

  // ---------------------------------------------------------------------------
  // Booking and rescheduling

  /** The listed event and the package an event input names both exist. */
  predicate EventKeysExist(input: EventInput, listed: set<Id>, packages: set<Id>) {
    && IdOfText(input.listedEventId).Some? && IdOfText(input.listedEventId).value in listed
    && IdOfText(input.packageId).Some? && IdOfText(input.packageId).value in packages
  }

  /** What `createEvent` answers with: the booking with its slug, its event, and the amount. */
  datatype EventBooking = EventBooking(booking: Booking, event: Event, amount: real)

  /** `createEvent`. The transaction creates the event, then the caller's booking
      for it, then sets the booking's `E-` slug; a missing listed event or package
      makes the insert fail and nothing is written. `parseIso` stands for date-fns
      `parseISO`. */
  method CreateEvent(db: Db, token: Option<string>, getUser: string -> Option<string>, body: Body,
                     isDateTime: string -> bool, parseIso: string -> Instant) returns (r: Response<EventBooking>)
    requires db.Valid()
    modifies db`events, db`bookings, db`nextId, db`nextBookingRef
    ensures db.Valid()
    ensures Authenticate(token, getUser) == Forbidden ==> r == Refused(403, "Forbidden")
    ensures Authenticate(token, getUser) == Unauthorised ==> r == Refused(401, "Unauthorized")
    ensures Authenticate(token, getUser).Caller? && ParseEvent(body, isDateTime).Invalid? ==>
              r == BadRequest(EventIssues(body, isDateTime))
    ensures Authenticate(token, getUser).Caller? && ParseEvent(body, isDateTime).Parsed? ==>
              (r.Ok? <==> EventKeysExist(ParseEvent(body, isDateTime).value, old(db.listedEvents).Keys, old(db.packages).Keys))
    ensures !r.Ok? ==> db.events == old(db.events) && db.bookings == old(db.bookings)
                       && db.nextId == old(db.nextId) && db.nextBookingRef == old(db.nextBookingRef)
    ensures r.Ok? ==> Authenticate(token, getUser).Caller? && ParseEvent(body, isDateTime).Parsed?
    ensures r.Ok? ==>
              var input := ParseEvent(body, isDateTime).value;
              var e := r.value.event;
              && IdOfText(input.listedEventId) == Some(e.listedEventId) && IdOfText(input.packageId) == Some(e.packageId)
              && r.status == 201
              && e.id == old(db.nextId) && e.startDate == ShiftedStart(parseIso(input.date), ReadClock(input.startTime, Lower))
              && e.holes == input.holes && e.kit == input.kit
              && e.listedEventId in old(db.listedEvents) && e.packageId in old(db.packages)
              && db.events == old(db.events)[e.id := e]
              && r.value.booking == NewBooking(old(db.nextId) + 1, old(db.nextBookingRef), Authenticate(token, getUser).usersId)
                                      .(eventId := Some(e.id), slug := Some(Slug('E', old(db.nextBookingRef))))
              && db.bookings == old(db.bookings) + [r.value.booking]
              && r.value.amount == EventAmount(old(db.packages)[e.packageId], input.kit, old(db.kitPrices), e.listedEventId)
  {
    var auth := Authenticate(token, getUser);
    if auth == Forbidden {
      return Refused(403, "Forbidden");
    }
    if auth == Unauthorised {
      return Refused(401, "Unauthorized");
    }
    var parsed := ParseEvent(body, isDateTime);
    if parsed.Invalid? {
      return BadRequest(parsed.issues);
    }
    r := CreateAdmitted(db, auth.usersId, parsed.value, parseIso);
  }

  /** `createEvent` once the caller and the body are admitted: the start date,
      the foreign keys, then the writes. */
  method CreateAdmitted(db: Db, usersId: string, input: EventInput, parseIso: string -> Instant)
    returns (r: Response<EventBooking>)
    requires db.Valid() && IsEventTime(input.startTime)
    modifies db`events, db`bookings, db`nextId, db`nextBookingRef
    ensures db.Valid()
    ensures r.Ok? <==> EventKeysExist(input, old(db.listedEvents).Keys, old(db.packages).Keys)
    ensures !r.Ok? ==> && r == Refused(500, "Foreign key constraint failed")
                       && db.events == old(db.events) && db.bookings == old(db.bookings)
                       && db.nextId == old(db.nextId) && db.nextBookingRef == old(db.nextBookingRef)
    ensures r.Ok? ==>
              var e := r.value.event;
              && r.status == 201
              && IdOfText(input.listedEventId) == Some(e.listedEventId) && IdOfText(input.packageId) == Some(e.packageId)
              && e.id == old(db.nextId) && e.startDate == ShiftedStart(parseIso(input.date), ReadClock(input.startTime, Lower))
              && e.holes == input.holes && e.kit == input.kit
              && e.listedEventId in old(db.listedEvents) && e.packageId in old(db.packages)
              && db.events == old(db.events)[e.id := e]
              && r.value.booking == NewBooking(old(db.nextId) + 1, old(db.nextBookingRef), usersId)
                                      .(eventId := Some(e.id), slug := Some(Slug('E', old(db.nextBookingRef))))
              && db.bookings == old(db.bookings) + [r.value.booking]
              && r.value.amount == EventAmount(old(db.packages)[e.packageId], input.kit, old(db.kitPrices), e.listedEventId)
  {
    CombineValidTime(parseIso(input.date), input.startTime);
    var startDate := CombineDateAndTime(parseIso(input.date), input.startTime).value;
    var listedEventId := IdOfText(input.listedEventId);
    var packageId := IdOfText(input.packageId);
    if listedEventId.None? || listedEventId.value !in db.listedEvents || packageId.None? || packageId.value !in db.packages {
      return Refused(500, "Foreign key constraint failed");
    }
    var booked := BookEvent(db, usersId, startDate, input.holes, input.kit, listedEventId.value, packageId.value);
    r := Ok(201, booked);
  }

  /** The writes of `createEvent` once the request is admitted: the event, the
      caller's booking for it, the booking's slug; then the amount. */
  method BookEvent(db: Db, usersId: string, startDate: Instant, holes: string, kit: string, listedEventId: Id, packageId: Id)
    returns (booked: EventBooking)
    requires db.Valid() && listedEventId in db.listedEvents && packageId in db.packages
    modifies db`events, db`bookings, db`nextId, db`nextBookingRef
    ensures db.Valid()
    ensures booked.event == Event(old(db.nextId), startDate, holes, kit, listedEventId, packageId)
    ensures db.events == old(db.events)[booked.event.id := booked.event]
    ensures booked.booking == NewBooking(old(db.nextId) + 1, old(db.nextBookingRef), usersId)
                                .(eventId := Some(booked.event.id), slug := Some(Slug('E', old(db.nextBookingRef))))
    ensures db.bookings == old(db.bookings) + [booked.booking]
    ensures db.nextId == old(db.nextId) + 2 && db.nextBookingRef == old(db.nextBookingRef) + 1
    ensures booked.amount == EventAmount(db.packages[packageId], kit, db.kitPrices, listedEventId)
  {
    var event := db.AddEvent(startDate, holes, kit, listedEventId, packageId);
    var booking := db.AddBooking(usersId, Some(event.id), None, None, None);
    var slug := Slug('E', booking.bookingRef);
    db.SetBookingSlug(|db.bookings| - 1, slug);
    var amount := EventAmount(db.packages[packageId], kit, db.kitPrices, listedEventId);
    booked := EventBooking(booking.(slug := Some(slug)), event, amount);
  }

  /** What `updateEvent` answers with. */
  datatype RescheduledEvent = RescheduledEvent(event: Event, amount: real)

  /** `updateEvent`: the event named by the path id gets the requested start,
      holes, kit, listed event and package, and the amount is computed as for a new
      booking. The event is not checked to belong to the caller. */
  method UpdateEvent(db: Db, token: Option<string>, getUser: string -> Option<string>, idParam: string, body: Body,
                     isDateTime: string -> bool, parseIso: string -> Instant) returns (r: Response<RescheduledEvent>)
    requires db.Valid()
    modifies db`events
    ensures db.Valid()
    ensures Authenticate(token, getUser) == Forbidden ==> r == Refused(403, "Forbidden")
    ensures Authenticate(token, getUser) == Unauthorised ==> r == Refused(401, "Unauthorized")
    ensures Authenticate(token, getUser).Caller? && ParseEvent(body, isDateTime).Invalid? ==>
              r == BadRequest(EventIssues(body, isDateTime))
    ensures (&& Authenticate(token, getUser).Caller? && ParseEvent(body, isDateTime).Parsed?
             && (IdOfText(idParam).None? || IdOfText(idParam).value !in old(db.events))) ==> r.Code() == 500
    ensures Authenticate(token, getUser).Caller? && ParseEvent(body, isDateTime).Parsed? ==>
              (r.Ok? <==> && IdOfText(idParam).Some? && IdOfText(idParam).value in old(db.events)
                          && EventKeysExist(ParseEvent(body, isDateTime).value, old(db.listedEvents).Keys, old(db.packages).Keys))
    ensures !r.Ok? ==> db.events == old(db.events)
    ensures r.Ok? ==> Authenticate(token, getUser).Caller? && ParseEvent(body, isDateTime).Parsed?
    ensures r.Ok? ==>
              var input := ParseEvent(body, isDateTime).value;
              var e := r.value.event;
              && IdOfText(input.listedEventId) == Some(e.listedEventId) && IdOfText(input.packageId) == Some(e.packageId)
              && r.status == 200
              && IdOfText(idParam) == Some(e.id) && e.id in old(db.events)
              && e.startDate == ShiftedStart(parseIso(input.date), ReadClock(input.startTime, Lower))
              && e.holes == input.holes && e.kit == input.kit
              && e.listedEventId in old(db.listedEvents) && e.packageId in old(db.packages)
              && db.events == old(db.events)[e.id := e]
              && r.value.amount == EventAmount(old(db.packages)[e.packageId], input.kit, old(db.kitPrices), e.listedEventId)
  {
    var auth := Authenticate(token, getUser);
    if auth == Forbidden {
      return Refused(403, "Forbidden");
    }
    if auth == Unauthorised {
      return Refused(401, "Unauthorized");
    }
    var parsed := ParseEvent(body, isDateTime);
    if parsed.Invalid? {
      return BadRequest(parsed.issues);
    }
    r := UpdateAdmitted(db, idParam, parsed.value, parseIso);
  }

  /** `updateEvent` once the caller and the body are admitted: the path id and the
      foreign keys are looked up, then the event is rewritten. */
  method UpdateAdmitted(db: Db, idParam: string, input: EventInput, parseIso: string -> Instant)
    returns (r: Response<RescheduledEvent>)
    requires db.Valid() && IsEventTime(input.startTime)
    modifies db`events
    ensures db.Valid()
    ensures IdOfText(idParam).None? || IdOfText(idParam).value !in old(db.events) ==> r.Code() == 500
    ensures r.Ok? <==> && IdOfText(idParam).Some? && IdOfText(idParam).value in old(db.events)
                       && EventKeysExist(input, old(db.listedEvents).Keys, old(db.packages).Keys)
    ensures !r.Ok? ==> r.Code() == 500
    ensures !r.Ok? ==> db.events == old(db.events)
    ensures r.Ok? ==>
              var e := r.value.event;
              && r.status == 200
              && IdOfText(idParam) == Some(e.id) && e.id in old(db.events)
              && IdOfText(input.listedEventId) == Some(e.listedEventId) && IdOfText(input.packageId) == Some(e.packageId)
              && e.startDate == ShiftedStart(parseIso(input.date), ReadClock(input.startTime, Lower))
              && e.holes == input.holes && e.kit == input.kit
              && e.listedEventId in old(db.listedEvents) && e.packageId in old(db.packages)
              && db.events == old(db.events)[e.id := e]
              && r.value.amount == EventAmount(old(db.packages)[e.packageId], input.kit, old(db.kitPrices), e.listedEventId)
  {
    CombineValidTime(parseIso(input.date), input.startTime);
    var startDate := CombineDateAndTime(parseIso(input.date), input.startTime).value;
    var id := IdOfText(idParam);
    if id.None? || id.value !in db.events {
      return Refused(500, "Record to update not found");
    }
    var listedEventId := IdOfText(input.listedEventId);
    var packageId := IdOfText(input.packageId);
    if listedEventId.None? || listedEventId.value !in db.listedEvents || packageId.None? || packageId.value !in db.packages {
      return Refused(500, "Foreign key constraint failed");
    }
    var rescheduled := Reschedule(db, Event(id.value, startDate, input.holes, input.kit, listedEventId.value, packageId.value));
    r := Ok(200, rescheduled);
  }

  /** The writes of `updateEvent` once the request is admitted: the event row, then the amount. */
  method Reschedule(db: Db, event: Event) returns (rescheduled: RescheduledEvent)
    requires db.Valid() && event.id in db.events && event.packageId in db.packages
    modifies db`events
    ensures db.Valid()
    ensures db.events == old(db.events)[event.id := event]
    ensures rescheduled == RescheduledEvent(event, EventAmount(db.packages[event.packageId], event.kit, db.kitPrices, event.listedEventId))
  {
    db.ReplaceEvent(event);
    rescheduled := RescheduledEvent(event, EventAmount(db.packages[event.packageId], event.kit, db.kitPrices, event.listedEventId));
  }

  /** A booking's slug names it among all bookings and carts. */
  lemma EventSlugUnique(ref1: nat, ref2: nat, cartRef: nat)
    ensures Slug('E', ref1) == Slug('E', ref2) <==> ref1 == ref2
    ensures Slug('E', ref1) != Slug('C', cartRef)
  {
    if Slug('E', ref1) == Slug('E', ref2) {
      SlugInjective('E', ref1, 'E', ref2);
    }
    if Slug('E', ref1) == Slug('C', cartRef) {
      SlugInjective('E', ref1, 'C', cartRef);
    }
  }

  // ---------------------------------------------------------------------------
  // Listing and editing an event

  /** One element of `holesPrices` in a request. */
  datatype HolesQuote = HolesQuote(numberOfHoles: string, amount: real)

  const PositiveMessage: string := "Number must be greater than 0"

  function QuoteIssues(e: Body): seq<Issue> {
    EnumRule(e, "numberOfHoles", false, ["Nine", "Eighteen"])
    + NumberRule(e, "amount", false, n => n > 0.0, PositiveMessage)
  }

  function KitIssues(e: Body): seq<Issue> {
    NumberRule(e, "amount", false, n => n > 0.0, PositiveMessage)
  }

  /** The quote one validated `holesPrices` element stands for. */
  function QuoteOf(e: Body): (q: HolesQuote)
    requires QuoteIssues(e) == []
    ensures q.numberOfHoles in ["Nine", "Eighteen"] && q.amount > 0.0
    ensures StringField(e, "numberOfHoles") == Some(q.numberOfHoles)
    ensures NumberField(e, "amount") == Some(q.amount)
  {
    assert EnumRule(e, "numberOfHoles", false, ["Nine", "Eighteen"]) == [];
    assert NumberRule(e, "amount", false, n => n > 0.0, PositiveMessage) == [];
    HolesQuote(e["numberOfHoles"].s, e["amount"].n)
  }

  /** The quotes of a validated `holesPrices` array, in order. */
  function Quotes(items: seq<Json>): (r: seq<HolesQuote>)
    requires AllObjects(items, QuoteIssues)
    ensures |r| == |items|
    ensures forall i :: 0 <= i < |r| ==> r[i] == QuoteOf(items[i].fields)
    ensures forall i :: 0 <= i < |r| ==> r[i].numberOfHoles in ["Nine", "Eighteen"] && r[i].amount > 0.0
  {
    seq(|items|, i requires 0 <= i < |items| && AllObjects(items, QuoteIssues) => QuoteOf(items[i].fields))
  }

  /** The holes-price rows a list of quotes becomes for one listed event. */
  function HolesRows(listedEventId: Id, quotes: seq<HolesQuote>): (r: seq<HolesPrice>)
    ensures |r| == |quotes|
    ensures forall i :: 0 <= i < |r| ==> r[i].listedEventId == listedEventId
    ensures forall i :: 0 <= i < |r| ==> r[i] == HolesPrice(listedEventId, quotes[i].numberOfHoles, quotes[i].amount)
  {
    if quotes == [] then []
    else HolesRows(listedEventId, quotes[..|quotes| - 1])
         + [HolesPrice(listedEventId, quotes[|quotes| - 1].numberOfHoles, quotes[|quotes| - 1].amount)]
  }

  /** `ListEventSchema`. */
  function ListingIssues(body: Body, isUrl: string -> bool): seq<Issue> {
    StringRule(body, "name", false, s => |s| >= 1, "Name is required")
    + StringRule(body, "location", false, s => |s| >= 1, "Location is required")
    + PlainString(body, "description", false)
    + StringRule(body, "image", true, isUrl, "Invalid url")
    + PlainString(body, "startDate", true)
    + StringRule(body, "type", false, s => |s| >= 1, "Type is required")
    + ObjectArrayRule(body, "holesPrices", false, QuoteIssues)
    + ObjectRule(body, "kitPrice", false, KitIssues)
  }

  datatype Listing = Listing(
    name: string, location: string, description: string, image: Option<string>,
    startDate: Option<string>, kind: string, quotes: seq<HolesQuote>, kitAmount: real)

  function ParseListing(body: Body, isUrl: string -> bool): (r: Parse<Listing>)
    ensures r.Invalid? <==> ListingIssues(body, isUrl) != []
    ensures r.Invalid? ==> r.issues == ListingIssues(body, isUrl)
    ensures r.Parsed? ==> && |r.value.name| >= 1 && |r.value.location| >= 1 && |r.value.kind| >= 1
                          && r.value.kitAmount > 0.0
                          && |r.value.quotes| == |body["holesPrices"].items|
                          && forall i :: 0 <= i < |r.value.quotes| ==> r.value.quotes[i].amount > 0.0
    ensures r.Parsed? ==> && StringField(body, "name") == Some(r.value.name)
                          && StringField(body, "location") == Some(r.value.location)
                          && StringField(body, "description") == Some(r.value.description)
                          && r.value.image == StringField(body, "image")
                          && r.value.startDate == StringField(body, "startDate")
                          && StringField(body, "type") == Some(r.value.kind)
    ensures r.Parsed? ==> && "holesPrices" in body && body["holesPrices"].JArray?
                          && AllObjects(body["holesPrices"].items, QuoteIssues)
                          && r.value.quotes == Quotes(body["holesPrices"].items)
    ensures r.Parsed? ==> && "kitPrice" in body && body["kitPrice"].JObject?
                          && NumberField(body["kitPrice"].fields, "amount") == Some(r.value.kitAmount)
  {
    var issues := ListingIssues(body, isUrl);
    if issues != [] then Invalid(issues)
    else
      assert StringRule(body, "name", false, s => |s| >= 1, "Name is required") == [];
      assert StringRule(body, "location", false, s => |s| >= 1, "Location is required") == [];
      assert PlainString(body, "description", false) == [];
      assert StringRule(body, "type", false, s => |s| >= 1, "Type is required") == [];
      assert ObjectArrayRule(body, "holesPrices", false, QuoteIssues) == [];
      assert ObjectRule(body, "kitPrice", false, KitIssues) == [];
      assert NumberRule(body["kitPrice"].fields, "amount", false, n => n > 0.0, PositiveMessage) == [];
      Parsed(Listing(body["name"].s, body["location"].s, body["description"].s, StringField(body, "image"),
                     StringField(body, "startDate"), body["type"].s, Quotes(body["holesPrices"].items),
                     body["kitPrice"].fields["amount"].n))
  }

  /** `new Date(startDate)` for a truthy date text; an empty text means no date. */
  function ListingDate(startDate: Option<string>, parseDate: string -> Option<Instant>): Option<Option<Instant>> {
    if startDate.None? || startDate.value == "" then Some(None)
    else match parseDate(startDate.value)
      case None => None
      case Some(t) => Some(Some(t))
  }

  /** Appends one holes-price row per quote, in order. */
  method AddHolesRows(db: Db, listedEventId: Id, quotes: seq<HolesQuote>)
    requires db.Valid() && listedEventId in db.listedEvents
    modifies db`holesPrices
    ensures db.Valid()
    ensures db.holesPrices == old(db.holesPrices) + HolesRows(listedEventId, quotes)
  {
    var i := 0;
    while i < |quotes|
      invariant 0 <= i <= |quotes|
      invariant db.Valid() && listedEventId in db.listedEvents
      invariant db.holesPrices == old(db.holesPrices) + HolesRows(listedEventId, quotes[..i])
    {
      db.AddHolesPrice(HolesPrice(listedEventId, quotes[i].numberOfHoles, quotes[i].amount));
      assert quotes[..i + 1][..i] == quotes[..i];
      i := i + 1;
    }
    assert quotes[..i] == quotes;
  }

  /** Deletes a listed event's holes-price rows, then appends one per quote. */
  method ReplaceHolesRows(db: Db, listedEventId: Id, quotes: seq<HolesQuote>)
    requires db.Valid() && listedEventId in db.listedEvents
    modifies db`holesPrices
    ensures db.Valid()
    ensures db.holesPrices == RowsNotOf(old(db.holesPrices), HolesPriceOwner, listedEventId) + HolesRows(listedEventId, quotes)
  {
    db.DeleteHolesPrices(listedEventId);
    AddHolesRows(db, listedEventId, quotes);
  }

  /** `listEvent`: in one transaction, the listed event, one holes-price row per
      quote, then one kit-price row. `parseDate` stands for `new Date(text)`; an
      invalid date makes the insert fail and nothing is written. */
  method ListEvent(db: Db, token: Option<string>, getUser: string -> Option<string>, body: Body,
                   isUrl: string -> bool, parseDate: string -> Option<Instant>) returns (r: Response<ListedEvent>)
    requires db.Valid()
    modifies db`listedEvents, db`holesPrices, db`kitPrices, db`nextId
    ensures db.Valid()
    ensures Authenticate(token, getUser) == Forbidden ==> r == Refused(403, "Forbidden")
    ensures Authenticate(token, getUser) == Unauthorised ==> r == Refused(401, "Unauthorized")
    ensures Authenticate(token, getUser).Caller? && ParseListing(body, isUrl).Invalid? ==>
              r == BadRequest(ListingIssues(body, isUrl))
    ensures Authenticate(token, getUser).Caller? && ParseListing(body, isUrl).Parsed? ==>
              (r.Ok? <==> ListingDate(ParseListing(body, isUrl).value.startDate, parseDate).Some?)
    ensures !r.Ok? ==> db.listedEvents == old(db.listedEvents) && db.holesPrices == old(db.holesPrices)
                       && db.kitPrices == old(db.kitPrices) && db.nextId == old(db.nextId)
    ensures r.Ok? ==> Authenticate(token, getUser).Caller? && ParseListing(body, isUrl).Parsed?
    ensures r.Ok? ==>
              var input := ParseListing(body, isUrl).value;
              var l := r.value;
              && r.status == 201
              && ListingDate(input.startDate, parseDate).Some?
              && l == ListedEvent(old(db.nextId), input.name, input.location, input.description, input.image,
                                  ListingDate(input.startDate, parseDate).value, input.kind)
              && db.listedEvents == old(db.listedEvents)[l.id := l]
              && db.holesPrices == old(db.holesPrices) + HolesRows(l.id, input.quotes)
              && db.kitPrices == old(db.kitPrices) + [KitPrice(l.id, input.kitAmount)]
  {
    var auth := Authenticate(token, getUser);
    if auth == Forbidden {
      return Refused(403, "Forbidden");
    }
    if auth == Unauthorised {
      return Refused(401, "Unauthorized");
    }
    var parsed := ParseListing(body, isUrl);
    if parsed.Invalid? {
      return BadRequest(parsed.issues);
    }
    var input := parsed.value;
    var startDate := ListingDate(input.startDate, parseDate);
    if startDate.None? {
      return Refused(500, "An error occurred while listing the event");
    }
    var listed := AddListing(db, input, startDate.value);
    r := Ok(201, listed);
  }

  /** The writes of `listEvent` once the request is admitted: the listed event, its
      holes prices in order, then its kit price. */
  method AddListing(db: Db, input: Listing, startDate: Option<Instant>) returns (listed: ListedEvent)
    requires db.Valid()
    modifies db`listedEvents, db`holesPrices, db`kitPrices, db`nextId
    ensures db.Valid()
    ensures listed == ListedEvent(old(db.nextId), input.name, input.location, input.description, input.image, startDate, input.kind)
    ensures db.listedEvents == old(db.listedEvents)[listed.id := listed]
    ensures db.holesPrices == old(db.holesPrices) + HolesRows(listed.id, input.quotes)
    ensures db.kitPrices == old(db.kitPrices) + [KitPrice(listed.id, input.kitAmount)]
    ensures db.nextId == old(db.nextId) + 1
  {
    listed := db.AddListedEvent(input.name, input.location, input.description, input.image, startDate, input.kind);
    AddHolesRows(db, listed.id, input.quotes);
    db.AddKitPrice(KitPrice(listed.id, input.kitAmount));
  }

  /** `EditEventSchema`: every field but the id may be left out. */
  function EditIssues(body: Body, isUrl: string -> bool): seq<Issue> {
    StringRule(body, "id", false, s => |s| >= 1, "ID is required")
    + StringRule(body, "name", true, s => |s| >= 1, "Name is required")
    + StringRule(body, "location", true, s => |s| >= 1, "Location is required")
    + PlainString(body, "description", true)
    + StringRule(body, "image", true, isUrl, "Invalid url")
    + PlainString(body, "startDate", true)
    + StringRule(body, "type", true, s => |s| >= 1, "Type is required")
    + ObjectArrayRule(body, "holesPrices", true, QuoteIssues)
    + ObjectRule(body, "kitPrice", true, KitIssues)
  }

  datatype Edit = Edit(
    id: string, name: Option<string>, location: Option<string>, description: Option<string>,
    image: Option<string>, startDate: Option<string>, kind: Option<string>,
    quotes: Option<seq<HolesQuote>>, kitAmount: Option<real>)

  function ParseEdit(body: Body, isUrl: string -> bool): (r: Parse<Edit>)
    ensures r.Invalid? <==> EditIssues(body, isUrl) != []
    ensures r.Invalid? ==> r.issues == EditIssues(body, isUrl)
    ensures r.Parsed? ==> && (r.value.quotes.Some? <==> "holesPrices" in body)
                          && (r.value.kitAmount.Some? <==> "kitPrice" in body)
                          && (r.value.kitAmount.Some? ==> r.value.kitAmount.value > 0.0)
    ensures r.Parsed? ==> && StringField(body, "id") == Some(r.value.id)
                          && r.value.name == StringField(body, "name")
                          && r.value.location == StringField(body, "location")
                          && r.value.description == StringField(body, "description")
                          && r.value.image == StringField(body, "image")
                          && r.value.startDate == StringField(body, "startDate")
                          && r.value.kind == StringField(body, "type")
    ensures r.Parsed? && "holesPrices" in body ==>
              && body["holesPrices"].JArray? && AllObjects(body["holesPrices"].items, QuoteIssues)
              && r.value.quotes == Some(Quotes(body["holesPrices"].items))
    ensures r.Parsed? && "kitPrice" in body ==>
              && body["kitPrice"].JObject? && r.value.kitAmount.Some?
              && NumberField(body["kitPrice"].fields, "amount") == Some(r.value.kitAmount.value)
  {
    var issues := EditIssues(body, isUrl);
    if issues != [] then Invalid(issues)
    else
      assert StringRule(body, "id", false, s => |s| >= 1, "ID is required") == [];
      assert ObjectArrayRule(body, "holesPrices", true, QuoteIssues) == [];
      assert ObjectRule(body, "kitPrice", true, KitIssues) == [];
      var quotes := if "holesPrices" in body then Some(Quotes(body["holesPrices"].items)) else None;
      var kit :=
        if "kitPrice" in body then
          assert NumberRule(body["kitPrice"].fields, "amount", false, n => n > 0.0, PositiveMessage) == [];
          Some(body["kitPrice"].fields["amount"].n)
        else None;
      Parsed(Edit(body["id"].s, StringField(body, "name"), StringField(body, "location"), StringField(body, "description"),
                  StringField(body, "image"), StringField(body, "startDate"), StringField(body, "type"), quotes, kit))
  }

  /** `listedEvent.update`: a field left out keeps its value. */
  function Edited(l: ListedEvent, e: Edit, startDate: Option<Instant>): (r: ListedEvent)
    ensures r.id == l.id
    ensures r.name == (if e.name.Some? then e.name.value else l.name)
    ensures r.location == (if e.location.Some? then e.location.value else l.location)
    ensures r.description == (if e.description.Some? then e.description.value else l.description)
    ensures r.image == (if e.image.Some? then e.image else l.image)
    ensures r.startDate == (if startDate.Some? then startDate else l.startDate)
    ensures r.kind == (if e.kind.Some? then e.kind.value else l.kind)
  {
    ListedEvent(
      l.id,
      if e.name.Some? then e.name.value else l.name,
      if e.location.Some? then e.location.value else l.location,
      if e.description.Some? then e.description.value else l.description,
      if e.image.Some? then e.image else l.image,
      if startDate.Some? then startDate else l.startDate,
      if e.kind.Some? then e.kind.value else l.kind)
  }

  /** `editListedEvent`: in one transaction, update the listed event; when
      `holesPrices` is given, delete its holes-price rows and create one per quote;
      when `kitPrice` is given, set the amount of its kit-price rows. */
  method EditListedEvent(db: Db, token: Option<string>, getUser: string -> Option<string>, body: Body,
                         isUrl: string -> bool, parseDate: string -> Option<Instant>) returns (r: Response<ListedEvent>)
    requires db.Valid()
    modifies db`listedEvents, db`holesPrices, db`kitPrices
    ensures db.Valid()
    ensures Authenticate(token, getUser) == Forbidden ==> r == Refused(403, "Forbidden")
    ensures Authenticate(token, getUser) == Unauthorised ==> r == Refused(401, "Unauthorized")
    ensures Authenticate(token, getUser).Caller? && ParseEdit(body, isUrl).Invalid? ==>
              r == BadRequest(EditIssues(body, isUrl))
    ensures Authenticate(token, getUser).Caller? && ParseEdit(body, isUrl).Parsed? ==>
              var input := ParseEdit(body, isUrl).value;
              (r.Ok? <==> && IdOfText(input.id).Some? && IdOfText(input.id).value in old(db.listedEvents)
                          && ListingDate(input.startDate, parseDate).Some?)
    ensures !r.Ok? ==> db.listedEvents == old(db.listedEvents) && db.holesPrices == old(db.holesPrices)
                       && db.kitPrices == old(db.kitPrices)
    ensures r.Ok? ==> Authenticate(token, getUser).Caller? && ParseEdit(body, isUrl).Parsed?
    ensures r.Ok? ==>
              var input := ParseEdit(body, isUrl).value;
              var id := r.value.id;
              && r.status == 200
              && IdOfText(input.id) == Some(id) && id in old(db.listedEvents)
              && ListingDate(input.startDate, parseDate).Some?
              && r.value == Edited(old(db.listedEvents)[id], input, ListingDate(input.startDate, parseDate).value)
              && db.listedEvents == old(db.listedEvents)[id := r.value]
              && db.holesPrices == (if input.quotes.Some?
                                    then RowsNotOf(old(db.holesPrices), HolesPriceOwner, id) + HolesRows(id, input.quotes.value)
                                    else old(db.holesPrices))
              && db.kitPrices == (if input.kitAmount.Some?
                                  then WithKitAmount(old(db.kitPrices), id, input.kitAmount.value)
                                  else old(db.kitPrices))
  {
    var auth := Authenticate(token, getUser);
    if auth == Forbidden {
      return Refused(403, "Forbidden");
    }
    if auth == Unauthorised {
      return Refused(401, "Unauthorized");
    }
    var parsed := ParseEdit(body, isUrl);
    if parsed.Invalid? {
      return BadRequest(parsed.issues);
    }
    var input := parsed.value;
    var id := IdOfText(input.id);
    if id.None? || id.value !in db.listedEvents {
      return Refused(500, "An error occurred while editing the event");
    }
    var startDate := ListingDate(input.startDate, parseDate);
    if startDate.None? {
      return Refused(500, "An error occurred while editing the event");
    }
    var edited := ApplyEdit(db, id.value, input, startDate.value);
    r := Ok(200, edited);
  }

  /** The writes of `editListedEvent` once the request is admitted. */
  method ApplyEdit(db: Db, id: Id, input: Edit, startDate: Option<Instant>) returns (edited: ListedEvent)
    requires db.Valid() && id in db.listedEvents
    modifies db`listedEvents, db`holesPrices, db`kitPrices
    ensures db.Valid()
    ensures edited == Edited(old(db.listedEvents)[id], input, startDate)
    ensures db.listedEvents == old(db.listedEvents)[id := edited]
    ensures db.holesPrices == (if input.quotes.Some?
                               then RowsNotOf(old(db.holesPrices), HolesPriceOwner, id) + HolesRows(id, input.quotes.value)
                               else old(db.holesPrices))
    ensures db.kitPrices == (if input.kitAmount.Some?
                             then WithKitAmount(old(db.kitPrices), id, input.kitAmount.value)
                             else old(db.kitPrices))
  {
    ghost var holes0, kits0 := db.holesPrices, db.kitPrices;
    edited := Edited(db.listedEvents[id], input, startDate);
    db.ReplaceListedEvent(edited);
    assert db.holesPrices == holes0 && db.kitPrices == kits0;
    ghost var listed := db.listedEvents;
    if input.quotes.Some? {
      ReplaceHolesRows(db, id, input.quotes.value);
    }
    assert db.listedEvents == listed && db.kitPrices == kits0;
    ghost var holes := db.holesPrices;
    if input.kitAmount.Some? {
      db.SetKitAmounts(id, input.kitAmount.value);
    }
    assert db.listedEvents == listed && db.holesPrices == holes;
  }

  // ---------------------------------------------------------------------------
  // What the price tables hold afterwards

  /** The rows `HolesRows` writes all belong to their listed event. */
  lemma HolesPricesOfRows(id: Id, quotes: seq<HolesQuote>, other: Id)
    ensures RowsOf(HolesRows(id, quotes), HolesPriceOwner, other) == if other == id then HolesRows(id, quotes) else []
  {
    if other == id {
      RowsOfOwnRows(HolesRows(id, quotes), HolesPriceOwner, id);
    } else {
      RowsOfOtherRows(HolesRows(id, quotes), HolesPriceOwner, other);
    }
  }

  /** The rows of a listed event that did not exist before are exactly its quotes. */
  lemma ListedHolesPrices(rows: seq<HolesPrice>, id: Id, quotes: seq<HolesQuote>, other: Id)
    requires forall i :: 0 <= i < |rows| ==> rows[i].listedEventId != id
    ensures RowsOf(rows + HolesRows(id, quotes), HolesPriceOwner, id) == HolesRows(id, quotes)
    ensures other != id ==>
              RowsOf(rows + HolesRows(id, quotes), HolesPriceOwner, other) == RowsOf(rows, HolesPriceOwner, other)
  {
    RowsOfAppend(rows, HolesRows(id, quotes), HolesPriceOwner, id);
    RowsOfAppend(rows, HolesRows(id, quotes), HolesPriceOwner, other);
    HolesPricesOfRows(id, quotes, id);
    HolesPricesOfRows(id, quotes, other);
    RowsOfOtherRows(rows, HolesPriceOwner, id);
  }

  /** After an edit that supplies quotes, the edited event's holes prices are
      exactly those quotes, in order, and every other event keeps its rows. */
  lemma EditedHolesPrices(rows: seq<HolesPrice>, id: Id, quotes: seq<HolesQuote>, other: Id)
    ensures RowsOf(RowsNotOf(rows, HolesPriceOwner, id) + HolesRows(id, quotes), HolesPriceOwner, id)
            == HolesRows(id, quotes)
    ensures other != id ==>
              RowsOf(RowsNotOf(rows, HolesPriceOwner, id) + HolesRows(id, quotes), HolesPriceOwner, other)
              == RowsOf(rows, HolesPriceOwner, other)
  {
    var kept := RowsNotOf(rows, HolesPriceOwner, id);
    RowsOfAppend(kept, HolesRows(id, quotes), HolesPriceOwner, id);
    RowsOfAppend(kept, HolesRows(id, quotes), HolesPriceOwner, other);
    HolesPricesOfRows(id, quotes, id);
    HolesPricesOfRows(id, quotes, other);
    RowsOfNotOf(rows, HolesPriceOwner, id, id);
    RowsOfNotOf(rows, HolesPriceOwner, id, other);
  }

  /** Setting one event's kit amount leaves the kit price every other event is charged. */
  lemma KitAmountOfOthers(rows: seq<KitPrice>, id: Id, amount: real, other: Id)
    requires other != id
    ensures FirstKitPrice(WithKitAmount(rows, id, amount), other) == FirstKitPrice(rows, other)
  {
    var updated := WithKitAmount(rows, id, amount);
    assert forall i :: 0 <= i < |rows| && rows[i].listedEventId == other ==> updated[i] == rows[i];
    assert forall i :: 0 <= i < |rows| ==> (updated[i].listedEventId == other <==> rows[i].listedEventId == other);
    FirstKitPriceOfSameMatches(rows, updated, other);
  }

  lemma {:induction false} FirstKitPriceOfSameMatches(a: seq<KitPrice>, b: seq<KitPrice>, id: Id)
    requires |a| == |b|
    requires forall i :: 0 <= i < |a| ==> (a[i].listedEventId == id <==> b[i].listedEventId == id)
    requires forall i :: 0 <= i < |a| && a[i].listedEventId == id ==> a[i] == b[i]
    ensures FirstKitPrice(a, id) == FirstKitPrice(b, id)
    decreases |a|
  {
    if a != [] && a[0].listedEventId != id {
      FirstKitPriceOfSameMatches(a[1..], b[1..], id);
    }
  }

  /** After setting an event's kit amount, a booking with kit is charged that amount on top. */
  lemma KitAmountCharged(rows: seq<KitPrice>, id: Id, amount: real, packageAmount: real)
    requires exists i :: 0 <= i < |rows| && rows[i].listedEventId == id
    ensures EventAmount(packageAmount, "Yes", WithKitAmount(rows, id, amount), id) == packageAmount + amount
  {
    var updated := WithKitAmount(rows, id, amount);
    var i :| 0 <= i < |rows| && rows[i].listedEventId == id;
    assert updated[i].listedEventId == id;
  }
}
