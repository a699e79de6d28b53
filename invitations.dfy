/** The invitation controller: addresses are invited one at a time through the
    identity provider and each invitation is recorded as `Pending`; a failure is
    reported in that address's entry and the loop goes on. The addresses come from a
    JSON list or from the `email` column of an uploaded CSV file.

    The identity provider and the store's refusals are oracles indexed by the
    position of the address in the list: `provider(k)` is the error the k-th
    invitation call reports or throws (`None` when it reports none, which includes
    an absent client), and `store(k)` is the error the k-th `invitation.create`
    would throw. */
module Invitations {
  import opened Common
  import opened Store

  /** One entry of the result list: the created record, or the error caught. The
      address is whatever the list held, so a JSON list may carry non-strings. */
  datatype InviteResult =
    | Invited(email: Json, invitation: Invitation)
    | NotInvited(email: Json, error: string)

  /** The message of the store's type check when the address is not a string. */
  const NotAnEmail := "Argument email: Invalid value provided. Expected String"

  /** What the entries of `inviteMultipleUsers` report about `emails`: one entry per
      address, in order, each with its address; success exactly when the provider
      reported no error and the record was created; a provider error is reported as
      such and stops that address before the store. */
  predicate Reports(results: seq<InviteResult>, emails: seq<Json>, provider: nat -> Option<string>,
                    store: nat -> Option<string>)
  {
    ReportsUpTo(results, emails, |emails|, provider, store)
  }

  /** The same for the first `n` addresses. */
  predicate ReportsUpTo(results: seq<InviteResult>, emails: seq<Json>, n: nat, provider: nat -> Option<string>,
                        store: nat -> Option<string>)
    requires n <= |emails|
  {
    && |results| == n
    && (forall k :: 0 <= k < n ==> results[k].email == emails[k])
    && (forall k :: 0 <= k < n ==>
          (results[k].Invited? <==> provider(k).None? && emails[k].JString? && store(k).None?))
    && (forall k :: 0 <= k < n && results[k].Invited? ==>
          results[k].invitation == Invitation(emails[k].s, "Pending"))
    && (forall k :: 0 <= k < n && provider(k).Some? ==> results[k] == NotInvited(emails[k], provider(k).value))
  }

  /** The entry for the k-th address: the provider is asked first, then the store
      checks the address's type and writes the record. */
  function Outcome(k: nat, email: Json, provider: nat -> Option<string>, store: nat -> Option<string>): InviteResult {
    if provider(k).Some? then NotInvited(email, provider(k).value)
    else if !email.JString? then NotInvited(email, NotAnEmail)
    else if store(k).Some? then NotInvited(email, store(k).value)
    else Invited(email, Invitation(email.s, "Pending"))
  }

  /** Appending the next address's outcome keeps the entries reporting on one more address. */
  lemma ReportsExtend(results: seq<InviteResult>, emails: seq<Json>, k: nat, provider: nat -> Option<string>,
                      store: nat -> Option<string>)
    requires k < |emails| && ReportsUpTo(results, emails, k, provider, store)
    ensures ReportsUpTo(results + [Outcome(k, emails[k], provider, store)], emails, k + 1, provider, store)
  {
    var results' := results + [Outcome(k, emails[k], provider, store)];
    forall j | 0 <= j < k
      ensures results'[j] == results[j]
    {
    }
  }

  /** The records the successful entries carry, in order. */
  function Recorded(results: seq<InviteResult>): seq<Invitation> {
    if results == [] then []
    else
      var last := results[|results| - 1];
      Recorded(results[..|results| - 1]) + (if last.Invited? then [last.invitation] else [])
  }

  /** Every successful entry's record is kept, and nothing else is: at most one
      record per entry, each one carried by some successful entry. */
  lemma {:induction false} RecordedMembers(results: seq<InviteResult>)
    ensures |Recorded(results)| <= |results|
    ensures forall i :: 0 <= i < |results| && results[i].Invited? ==> results[i].invitation in Recorded(results)
    ensures forall x :: x in Recorded(results) ==> exists e :: Invited(e, x) in results
  {
    if results != [] {
      var front, last := results[..|results| - 1], results[|results| - 1];
      assert results == front + [last];
      RecordedMembers(front);
      forall i | 0 <= i < |results| && results[i].Invited?
        ensures results[i].invitation in Recorded(results)
      {
        if i < |front| {
          assert results[i] == front[i];
        }
      }
      forall x | x in Recorded(results)
        ensures exists e :: Invited(e, x) in results
      {
        if x in Recorded(front) {
          var e :| Invited(e, x) in front;
          assert Invited(e, x) in results;
        } else {
          assert Invited(last.email, x) == last;
        }
      }
    }
  }

  /** Under `Reports`, a record is written only for an address the provider accepted. */
  lemma RecordedOnlyAccepted(results: seq<InviteResult>, emails: seq<Json>, provider: nat -> Option<string>,
                             store: nat -> Option<string>, x: Invitation)
    requires Reports(results, emails, provider, store) && x in Recorded(results)
    ensures exists k :: 0 <= k < |emails| && provider(k).None? && store(k).None? && emails[k] == JString(x.email)
                        && x.status == "Pending"
  {
    RecordedMembers(results);
    var e :| Invited(e, x) in results;
    var k :| 0 <= k < |results| && results[k] == Invited(e, x);
    assert results[k].Invited?;
  }

  /** `inviteMultipleUsers`: one provider call and, when it reports no error, one
      `Pending` record per address, catching every failure into that address's entry. */
  method InviteMultipleUsers(db: Db, emails: seq<Json>, provider: nat -> Option<string>, store: nat -> Option<string>)
    returns (results: seq<InviteResult>)
    modifies db`invitations
    ensures Reports(results, emails, provider, store)
    ensures db.invitations == old(db.invitations) + Recorded(results)
  {
    results := [];
    var k := 0;
    while k < |emails|
      invariant 0 <= k <= |emails|
      invariant ReportsUpTo(results, emails, k, provider, store)
      invariant db.invitations == old(db.invitations) + Recorded(results)
    {
      ReportsExtend(results, emails, k, provider, store);
      var entry := InviteOne(db, k, emails[k], provider, store);
      RecordedSnoc(results, entry);
      results := results + [entry];
      k := k + 1;
    }
  }

  /** The work for the k-th address: the provider's verdict, the address's type,
      then the store's insert. */
  method InviteOne(db: Db, k: nat, email: Json, provider: nat -> Option<string>, store: nat -> Option<string>)
    returns (entry: InviteResult)
    modifies db`invitations
    ensures entry == Outcome(k, email, provider, store)
    ensures db.invitations == old(db.invitations) + (if entry.Invited? then [entry.invitation] else [])
  {
    if provider(k).Some? {
      entry := NotInvited(email, provider(k).value);
    } else if !email.JString? {
      entry := NotInvited(email, NotAnEmail);
    } else if store(k).Some? {
      entry := NotInvited(email, store(k).value);
    } else {
      var invitation := db.AddInvitation(email.s, "Pending");
      entry := Invited(email, invitation);
    }
  }

  /** One more entry adds its record, if it has one, at the end. */
  lemma RecordedSnoc(results: seq<InviteResult>, entry: InviteResult)
    ensures Recorded(results + [entry]) == Recorded(results) + (if entry.Invited? then [entry.invitation] else [])
  {
    assert (results + [entry])[..|results|] == results;
  }

  // ---------------------------------------------------------------------------
  // Addresses from a CSV file

  /** One row as the CSV reader hands it over: column name to cell text. */
  type CsvRow = map<string, string>

  /** `row.email` is truthy: the column is there and the cell is not empty. */
  predicate HasEmail(row: CsvRow) {
    "email" in row && row["email"] != ""
  }

  /** The `email` cells of the rows that have one, in row order. */
  function EmailColumn(rows: seq<CsvRow>): (r: seq<string>)
    ensures |r| <= |rows|
    ensures forall e :: e in r ==> e != ""
    ensures forall i :: 0 <= i < |rows| && HasEmail(rows[i]) ==> rows[i]["email"] in r
    ensures forall e :: e in r ==> exists i :: 0 <= i < |rows| && HasEmail(rows[i]) && rows[i]["email"] == e
  {
    if rows == [] then []
    else
      var front := rows[..|rows| - 1];
      var last := rows[|rows| - 1];
      assert forall i :: 0 <= i < |front| ==> front[i] == rows[i];
      EmailColumn(front) + (if HasEmail(last) then [last["email"]] else [])
  }

  /** Collecting commutes with cutting the stream: the addresses of consecutive
      chunks come out consecutively, so the row order is kept. */
  lemma {:induction false} EmailColumnAppend(a: seq<CsvRow>, b: seq<CsvRow>)
    ensures EmailColumn(a + b) == EmailColumn(a) + EmailColumn(b)
    decreases |b|
  {
    if b == [] {
      assert a + b == a;
    } else {
      var front, last := b[..|b| - 1], b[|b| - 1];
      var tail := if HasEmail(last) then [last["email"]] else [];
      assert (a + b)[..|a + b| - 1] == a + front;
      assert (a + b)[|a + b| - 1] == last;
      assert EmailColumn(a + b) == EmailColumn(a + front) + tail;
      EmailColumnAppend(a, front);
      assert EmailColumn(b) == EmailColumn(front) + tail;
    }
  }

  /** The `data` handler over the whole stream: each row with an email pushes it. */
  method CollectEmails(rows: seq<CsvRow>) returns (emails: seq<string>)
    ensures emails == EmailColumn(rows)
  {
    emails := [];
    var i := 0;
    while i < |rows|
      invariant 0 <= i <= |rows|
      invariant emails == EmailColumn(rows[..i])
    {
      assert rows[..i + 1][..i] == rows[..i];
      if HasEmail(rows[i]) {
        emails := emails + [rows[i]["email"]];
      }
      i := i + 1;
    }
    assert rows[..i] == rows;
  }

  function AsJson(emails: seq<string>): (r: seq<Json>)
    ensures |r| == |emails|
    ensures forall k :: 0 <= k < |emails| ==> r[k] == JString(emails[k])
  {
    seq(|emails|, k requires 0 <= k < |emails| => JString(emails[k]))
  }

  /** An uploaded file as the CSV reader sees it: its rows, or a stream that ends in an error. */
  datatype CsvFile = Readable(rows: seq<CsvRow>) | Unreadable

  /** `parseCSVAndInvite`: the promise rejects (`None`) on a stream error, with no one
      invited; otherwise inviting starts once every row is read. */
  method ParseCsvAndInvite(db: Db, file: CsvFile, provider: nat -> Option<string>, store: nat -> Option<string>)
    returns (r: Option<seq<InviteResult>>)
    requires db.Valid()
    modifies db`invitations
    ensures db.Valid()
    ensures file.Unreadable? ==> r.None? && db.invitations == old(db.invitations)
    ensures file.Readable? ==> && r.Some?
                               && Reports(r.value, AsJson(EmailColumn(file.rows)), provider, store)
                               && db.invitations == old(db.invitations) + Recorded(r.value)
  {
    if file.Unreadable? {
      return None;
    }
    var emails := CollectEmails(file.rows);
    var results := InviteMultipleUsers(db, AsJson(emails), provider, store);
    r := Some(results);
  }

  // ---------------------------------------------------------------------------
  // The handlers

  /** `textInvite`: a missing, non-array or empty `emails` gets 400 and invites no
      one; otherwise every element is invited and the entries are sent. */
  method TextInvite(db: Db, body: Body, provider: nat -> Option<string>, store: nat -> Option<string>)
    returns (r: Response<seq<InviteResult>>)
    requires db.Valid()
    modifies db`invitations
    ensures db.Valid()
    ensures !("emails" in body && body["emails"].JArray? && body["emails"].items != []) ==>
              r == Refused(400, "Invalid email list") && db.invitations == old(db.invitations)
    ensures ("emails" in body && body["emails"].JArray? && body["emails"].items != []) ==>
              && r.Ok? && r.status == 200
              && Reports(r.value, body["emails"].items, provider, store)
              && db.invitations == old(db.invitations) + Recorded(r.value)
  {
    if !("emails" in body && body["emails"].JArray? && body["emails"].items != []) {
      return Refused(400, "Invalid email list");
    }
    var results := InviteMultipleUsers(db, body["emails"].items, provider, store);
    r := Ok(200, results);
  }

  /** `csvInvite`: no uploaded file gets 400; a stream error gets 500; otherwise the
      entries for the file's addresses are sent. */
  method CsvInvite(db: Db, file: Option<CsvFile>, provider: nat -> Option<string>, store: nat -> Option<string>)
    returns (r: Response<seq<InviteResult>>)
    requires db.Valid()
    modifies db`invitations
    ensures db.Valid()
    ensures file.None? ==> r == Refused(400, "No file uploaded") && db.invitations == old(db.invitations)
    ensures file == Some(Unreadable) ==> r == Refused(500, "Failed to process CSV file")
                                         && db.invitations == old(db.invitations)
    ensures file.Some? && file.value.Readable? ==>
              && r.Ok? && r.status == 200
              && Reports(r.value, AsJson(EmailColumn(file.value.rows)), provider, store)
              && db.invitations == old(db.invitations) + Recorded(r.value)
  {
    if file.None? {
      return Refused(400, "No file uploaded");
    }
    var results := ParseCsvAndInvite(db, file.value, provider, store);
    if results.None? {
      return Refused(500, "Failed to process CSV file");
    }
    r := Ok(200, results.value);
  }

  // ---------------------------------------------------------------------------
  // The upload as the route stores it

  /** A file part as multer hands it to the handler: `buffer` holds the file's
      rows only when the upload was kept in memory. */
  datatype UploadedFile = UploadedFile(buffer: Option<seq<CsvRow>>)

  /** The stream `parseCSVAndInvite` reads: `Readable.from(buffer)` throws inside the
      promise executor when the buffer is undefined, which rejects the promise just
      as a stream error does. */
  function StreamOf(f: UploadedFile): (c: CsvFile)
    ensures c.Readable? <==> f.buffer.Some?
    ensures c.Readable? ==> c.rows == f.buffer.value
  {
    if f.buffer.None? then Unreadable else Readable(f.buffer.value)
  }

  /** The route's `multer.diskStorage`: the part is written to the upload directory
      and `buffer` is left unset. */
  function DiskStored(rows: seq<CsvRow>): (f: UploadedFile)
    ensures f.buffer.None?
  {
    UploadedFile(None)
  }

  /** Memory storage, the evidently intended setup: `buffer` holds the file. */
  function MemoryStored(rows: seq<CsvRow>): (f: UploadedFile)
    ensures f.buffer == Some(rows)
  {
    UploadedFile(Some(rows))
  }

  /** `POST /csv` as routed: whatever file is uploaded, the handler answers 500 and
      invites no one. `part` is the uploaded file's rows, `None` without a file part. */
  method CsvInviteAsRouted(db: Db, part: Option<seq<CsvRow>>, provider: nat -> Option<string>, store: nat -> Option<string>)
    returns (r: Response<seq<InviteResult>>)
    requires db.Valid()
    modifies db`invitations
    ensures db.Valid() && db.invitations == old(db.invitations)
    ensures part.None? ==> r == Refused(400, "No file uploaded")
    ensures part.Some? ==> r == Refused(500, "Failed to process CSV file")
  {
    var file := if part.None? then None else Some(StreamOf(DiskStored(part.value)));
    r := CsvInvite(db, file, provider, store);
  }

  /** With memory storage the same request invites every address of the file. */
  method CsvInviteInMemory(db: Db, part: Option<seq<CsvRow>>, provider: nat -> Option<string>, store: nat -> Option<string>)
    returns (r: Response<seq<InviteResult>>)
    requires db.Valid()
    modifies db`invitations
    ensures db.Valid()
    ensures part.None? ==> r == Refused(400, "No file uploaded") && db.invitations == old(db.invitations)
    ensures part.Some? ==> && r.Ok? && r.status == 200
                           && Reports(r.value, AsJson(EmailColumn(part.value)), provider, store)
                           && db.invitations == old(db.invitations) + Recorded(r.value)
  {
    var file := if part.None? then None else Some(StreamOf(MemoryStored(part.value)));
    r := CsvInvite(db, file, provider, store);
  }
}
