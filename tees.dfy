/** The tee controller: booking a tee time. Its start time is a 12-hour reading
    with an upper-case modifier, set on the requested day with `setHours` (no
    shift; seconds and milliseconds of the day's instant are kept), and the new tee
    gets a booking for the caller. */
module Tees {
  import opened Common
  import opened Schema
  import opened Store
  import opened Clock
  import opened TeeTime

  // ---------------------------------------------------------------------------
  // The request

  /** `TeeSchema` as written, with `date: z.date()`. */
  function TeeIssuesAsWritten(body: Body): seq<Issue> {
    EnumRule(body, "holes", false, ["9 holes", "18 holes"])
    + EnumRule(body, "kit", false, ["Yes", "No"])
    + EnumRule(body, "isExistingGame", false, ["Yes", "No"])
    + StringRule(body, "organizationId", false, s => |s| >= 1, "Organization ID is required")
    + DateRule(body, "date")
    + StringRule(body, "startTime", false, IsTeeTime, "Invalid time format. Use HH:MM in 24-hour format.")
  }

  /** As written, the schema refuses every JSON body, so `createTee` never gets past validation. */
  lemma TeeSchemaRefusesEveryBody(body: Body)
    ensures TeeIssuesAsWritten(body) != []
  {
    assert |DateRule(body, "date")| == 1;
  }

  /** `TeeSchema` with the date read from its ISO text, as the evidently intended
      `z.coerce.date()` does; `parseDate` stands for `new Date(text)`. */
  function TeeIssues(body: Body, parseDate: string -> Option<Instant>): seq<Issue> {
    EnumRule(body, "holes", false, ["9 holes", "18 holes"])
    + EnumRule(body, "kit", false, ["Yes", "No"])
    + EnumRule(body, "isExistingGame", false, ["Yes", "No"])
    + StringRule(body, "organizationId", false, s => |s| >= 1, "Organization ID is required")
    + StringRule(body, "date", false, s => parseDate(s).Some?, "Invalid date")
    + StringRule(body, "startTime", false, IsTeeTime, "Invalid time format. Use HH:MM in 24-hour format.")
  }

  datatype TeeInput = TeeInput(holes: string, kit: string, isExistingGame: string, organizationId: string,
                               date: Instant, startTime: string)

  /** The corrected schema admits a body exactly when every key holds what the tee needs. */
  function ParseTee(body: Body, parseDate: string -> Option<Instant>): (r: Parse<TeeInput>)
    ensures r.Invalid? <==> TeeIssues(body, parseDate) != []
    ensures r.Invalid? ==> r.issues == TeeIssues(body, parseDate)
    ensures r.Parsed? ==> && r.value.holes in ["9 holes", "18 holes"] && r.value.kit in ["Yes", "No"]
                          && r.value.isExistingGame in ["Yes", "No"] && |r.value.organizationId| >= 1
                          && IsTeeTime(r.value.startTime)
                          && StringField(body, "holes") == Some(r.value.holes)
                          && StringField(body, "kit") == Some(r.value.kit)
                          && StringField(body, "isExistingGame") == Some(r.value.isExistingGame)
                          && StringField(body, "organizationId") == Some(r.value.organizationId)
                          && StringField(body, "startTime") == Some(r.value.startTime)
                          && "date" in body && body["date"].JString?
                          && parseDate(body["date"].s) == Some(r.value.date)
  {
    var issues := TeeIssues(body, parseDate);
    if issues != [] then Invalid(issues)
    else
      assert EnumRule(body, "holes", false, ["9 holes", "18 holes"]) == [];
      assert EnumRule(body, "kit", false, ["Yes", "No"]) == [];
      assert EnumRule(body, "isExistingGame", false, ["Yes", "No"]) == [];
      assert StringRule(body, "organizationId", false, s => |s| >= 1, "Organization ID is required") == [];
      assert StringRule(body, "date", false, s => parseDate(s).Some?, "Invalid date") == [];
      assert StringRule(body, "startTime", false, IsTeeTime, "Invalid time format. Use HH:MM in 24-hour format.") == [];
      Parsed(TeeInput(body["holes"].s, body["kit"].s, body["isExistingGame"].s, body["organizationId"].s,
                      parseDate(body["date"].s).value, body["startTime"].s))
  }

  /** What `createTee` answers with: the caller's booking and the tee it references. */
  datatype TeeBooking = TeeBooking(booking: Booking, tee: Tee)

  /** `createTee` with the corrected schema. The guards come before validation;
      a refused body gets 400 with the first issue's message only; the tee and then
      the booking are written without a transaction, and a missing organisation
      makes the tee insert fail before anything is written. */
  method CreateTee(db: Db, token: Option<string>, getUser: string -> Option<string>, body: Body,
                   parseDate: string -> Option<Instant>) returns (r: Response<TeeBooking>)
    requires db.Valid()
    modifies db`tees, db`bookings, db`nextId, db`nextBookingRef
    ensures db.Valid()
    ensures Authenticate(token, getUser) == Forbidden ==> r == Refused(403, "Forbidden")
    ensures Authenticate(token, getUser) == Unauthorised ==> r == Refused(401, "Unauthorised")
    ensures Authenticate(token, getUser).Caller? && ParseTee(body, parseDate).Invalid? ==>
              r == Refused(400, TeeIssues(body, parseDate)[0].message)
    ensures Authenticate(token, getUser).Caller? && ParseTee(body, parseDate).Parsed? ==>
              (r.Ok? <==> ParseTee(body, parseDate).value.organizationId in old(db.organisations))
    ensures !r.Ok? ==> db.tees == old(db.tees) && db.bookings == old(db.bookings)
                       && db.nextId == old(db.nextId) && db.nextBookingRef == old(db.nextBookingRef)
    ensures r.Ok? ==> Authenticate(token, getUser).Caller? && ParseTee(body, parseDate).Parsed?
    ensures r.Ok? ==>
              var input := ParseTee(body, parseDate).value;
              && r.status == 201
              && input.organizationId in db.organisations
              && r.value.tee == NewTee(old(db.nextId), input)
              && db.tees == old(db.tees)[r.value.tee.id := r.value.tee]
              && r.value.booking == NewBooking(old(db.nextId) + 1, old(db.nextBookingRef), Authenticate(token, getUser).usersId)
                                      .(teeId := Some(r.value.tee.id))
              && db.bookings == old(db.bookings) + [r.value.booking]
  {
    var auth := Authenticate(token, getUser);
    if auth == Forbidden {
      return Refused(403, "Forbidden");
    }
    if auth == Unauthorised {
      return Refused(401, "Unauthorised");
    }
    var parsed := ParseTee(body, parseDate);
    if parsed.Invalid? {
      return Refused(400, parsed.issues[0].message);
    }
    r := RecordTee(db, auth.usersId, parsed.value);
  }

  /** The tee row `createTee` writes for an admitted request. */
  function NewTee(id: Id, input: TeeInput): Tee
    requires IsTeeTime(input.startTime)
  {
    Tee(id, input.holes, input.kit, input.isExistingGame, input.organizationId, input.date, input.startTime,
        TeeStart(input.date, ReadClock(input.startTime, Upper)))
  }

  /** `createTee` once the body is admitted: the start date, then the writes,
      which fail before anything is written when the organisation is missing. */
  method RecordTee(db: Db, usersId: string, input: TeeInput) returns (r: Response<TeeBooking>)
    requires db.Valid()
    requires IsTeeTime(input.startTime)
    modifies db`tees, db`bookings, db`nextId, db`nextBookingRef
    ensures db.Valid()
    ensures r.Ok? <==> input.organizationId in db.organisations
    ensures !r.Ok? ==> && r == Refused(500, "Foreign key constraint failed")
                       && db.tees == old(db.tees) && db.bookings == old(db.bookings)
                       && db.nextId == old(db.nextId) && db.nextBookingRef == old(db.nextBookingRef)
    ensures r.Ok? ==>
              && r.status == 201
              && r.value.tee == NewTee(old(db.nextId), input)
              && db.tees == old(db.tees)[r.value.tee.id := r.value.tee]
              && r.value.booking == NewBooking(old(db.nextId) + 1, old(db.nextBookingRef), usersId)
                                      .(teeId := Some(r.value.tee.id))
              && db.bookings == old(db.bookings) + [r.value.booking]
  {
    var startDate := StartDate(input.date, input.startTime);
    if input.organizationId !in db.organisations {
      return Refused(500, "Foreign key constraint failed");
    }
    var booked := BookTee(db, usersId, input, startDate);
    r := Ok(201, booked);
  }

  /** The call `combineDateAndTime(date, startTime)` on an admitted start time:
      it yields a valid date, the reading's minute on the requested day. */
  method StartDate(date: Instant, startTime: string) returns (start: Instant)
    requires IsTeeTime(startTime)
    ensures start == TeeStart(date, ReadClock(startTime, Upper))
  {
    TeeCombineValid(date, startTime);
    start := TeeCombine(date, startTime).value;
  }

  /** The writes of `createTee` once the request is admitted: the tee, then the caller's booking for it. */
  method BookTee(db: Db, usersId: string, input: TeeInput, startDate: Instant) returns (booked: TeeBooking)
    requires db.Valid()
    modifies db`tees, db`bookings, db`nextId, db`nextBookingRef
    ensures db.Valid()
    ensures booked.tee == Tee(old(db.nextId), input.holes, input.kit, input.isExistingGame, input.organizationId,
                              input.date, input.startTime, startDate)
    ensures db.tees == old(db.tees)[booked.tee.id := booked.tee]
    ensures booked.booking == NewBooking(old(db.nextId) + 1, old(db.nextBookingRef), usersId).(teeId := Some(booked.tee.id))
    ensures db.bookings == old(db.bookings) + [booked.booking]
    ensures db.nextId == old(db.nextId) + 2 && db.nextBookingRef == old(db.nextBookingRef) + 1
  {
    var tee := db.AddTee(input.holes, input.kit, input.isExistingGame, input.organizationId, input.date, input.startTime, startDate);
    var booking := db.AddBooking(usersId, None, None, None, Some(tee.id));
    booked := TeeBooking(booking, tee);
  }
}
