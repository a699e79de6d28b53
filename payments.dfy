/** The payments controller: the gateway's webhook, which maps a
    `request_status_code` to the shared status and writes it to a booking and then
    to that booking's payment, and the checkout payload rewrite done before the
    payload is handed to the gateway's encryption library. */
module Payments {
  import opened Common
  import opened Schema
  import opened Store

  // ---------------------------------------------------------------------------
  // Status codes

  /** The `request_status_code` values the webhook schema admits, in schema order. */
  const WebhookCodes: seq<string> := ["177", "178", "179", "129", "180", "183", "188"]

  /** The conditional chain of `webHookReq`: a gateway code to the shared status,
      `Failed` for anything else. */
  function StatusOfCode(code: string): (s: Status)
    ensures s == Failed <==> code !in WebhookCodes
    ensures s != Failed ==> CodeOfStatus(s) == Some(code)
  {
    if code == "180" then Rejected
    else if code == "129" then Expired
    else if code == "177" then Partial
    else if code == "178" then Completed
    else if code == "179" then Refunded
    else if code == "183" then Accepted
    else if code == "188" then Received
    else Failed
  }

  /** The same table read the other way round: the code that reports each status.
      `Pending` and `Failed` are never reported by a code. */
  function CodeOfStatus(s: Status): Option<string> {
    match s
    case Rejected => Some("180")
    case Expired => Some("129")
    case Partial => Some("177")
    case Completed => Some("178")
    case Refunded => Some("179")
    case Accepted => Some("183")
    case Received => Some("188")
    case Pending => None
    case Failed => None
  }

  /** Reading a status's code back gives the status, and that code is admitted. */
  lemma CodeOfStatusRoundTrip(s: Status)
    ensures CodeOfStatus(s).Some? ==> CodeOfStatus(s).value in WebhookCodes && StatusOfCode(CodeOfStatus(s).value) == s
    ensures CodeOfStatus(s).None? <==> s in {Pending, Failed}
  {
  }

  /** Distinct admitted codes give distinct statuses. */
  lemma StatusOfCodeInjective(a: string, b: string)
    requires a in WebhookCodes && b in WebhookCodes && a != b
    ensures StatusOfCode(a) != StatusOfCode(b)
  {
  }

  // ---------------------------------------------------------------------------
  // The webhook body

  /** One entry of the optional `errors` array. */
  function PaymentErrorIssues(e: Body): seq<Issue> {
    PlainString(e, "customer_name", false) + PlainString(e, "account_number", false)
    + PlainString(e, "cpp_transaction_id", false) + LengthRule(e, "currency_code", 3)
    + PlainString(e, "payer_client_code", false) + PlainString(e, "payer_client_name", false)
    + PlainNumber(e, "amount_paid") + PlainString(e, "service_code", false)
    + PlainString(e, "date_payment_received", false) + PlainString(e, "msisdn", false)
    + PlainString(e, "payer_transaction_id", false) + PlainString(e, "error", false)
  }

  /** `webhookRequestSchema`, key by key. */
  function WebhookIssues(body: Body): seq<Issue> {
    PlainNumber(body, "request_amount") + PlainNumber(body, "original_request_amount")
    + PlainString(body, "account_number", false)
    + PlainNumber(body, "amount_paid") + PlainNumber(body, "service_charge_amount")
    + PlainString(body, "service_code", false)
    + EnumRule(body, "request_status_code", false, WebhookCodes)
    + PlainString(body, "request_status_description", false) + PlainString(body, "msisdn", false)
    + ArrayRule(body, "payments", false) + ArrayRule(body, "failed_payments", false)
    + PlainString(body, "status_date", true)
    + LengthRule(body, "country_abbrev", 2)
    + ObjectArrayRule(body, "errors", true, PaymentErrorIssues)
  }

  /** What an accepted webhook body guarantees: an admitted status code, a two-letter
      country and three-letter currencies in every reported error. */
  lemma AcceptedWebhookFields(body: Body)
    requires WebhookIssues(body) == []
    ensures StringField(body, "account_number").Some?
    ensures StringField(body, "request_status_code").Some?
    ensures StringField(body, "request_status_code").value in WebhookCodes
    ensures StatusOfCode(StringField(body, "request_status_code").value) != Failed
    ensures Utf16Length(body["country_abbrev"].s) == 2
    ensures "errors" in body ==> forall i :: 0 <= i < |body["errors"].items| ==>
              Utf16Length(body["errors"].items[i].fields["currency_code"].s) == 3
  {
    assert EnumRule(body, "request_status_code", false, WebhookCodes) == [];
    assert LengthRule(body, "country_abbrev", 2) == [];
    assert ObjectArrayRule(body, "errors", true, PaymentErrorIssues) == [];
    if "errors" in body {
      forall i | 0 <= i < |body["errors"].items|
        ensures Utf16Length(body["errors"].items[i].fields["currency_code"].s) == 3
      {
        assert PaymentErrorIssues(body["errors"].items[i].fields) == [];
        assert LengthRule(body["errors"].items[i].fields, "currency_code", 3) == [];
      }
    }
  }

  /** The two fields of an accepted notification the handler goes on with. */
  datatype Notification = Notification(accountNumber: string, statusCode: string)

  /** `webhookRequestSchema.parse(req.body)`, keeping the fields the handler uses. */
  function ParseWebhook(body: Body): (r: Parse<Notification>)
    ensures r.Invalid? <==> WebhookIssues(body) != []
    ensures r.Invalid? ==> r.issues == WebhookIssues(body)
    ensures r.Parsed? ==> && r.value.statusCode in WebhookCodes
                          && StringField(body, "request_status_code") == Some(r.value.statusCode)
                          && StringField(body, "account_number") == Some(r.value.accountNumber)
  {
    var issues := WebhookIssues(body);
    if issues != [] then Invalid(issues)
    else
      AcceptedWebhookFields(body);
      Parsed(Notification(StringField(body, "account_number").value, StringField(body, "request_status_code").value))
  }

  // ---------------------------------------------------------------------------
  // The webhook's effect on the store

  /** The two tables the webhook writes, and its response. */
  datatype WebhookOutcome = WebhookOutcome(bookings: seq<Booking>, payments: map<Id, Payment>, response: Response<Payment>)

  /** `webHookReq` on a store: after validation, update the booking whose
      `bookingRef` is the account number, then the payment whose `bookingId` is
      that booking's id. The two updates are separate writes, so a missing payment
      leaves the booking already updated. */
  function WebhookEffect(bookings: seq<Booking>, payments: map<Id, Payment>, parsed: Parse<Notification>): WebhookOutcome {
    match parsed
    case Invalid(issues) => WebhookOutcome(bookings, payments, BadRequest(issues))
    case Parsed(note) =>
      var status := StatusOfCode(note.statusCode);
      match NumberValue(note.accountNumber)
      case None => WebhookOutcome(bookings, payments, Refused(500, "bookingRef is not an integer"))
      case Some(ref) =>
        match IndexOfRef(bookings, ref)
        case None => WebhookOutcome(bookings, payments, Refused(500, "booking to update not found"))
        case Some(i) =>
          var booking := bookings[i].(status := status);
          if booking.id !in payments then
            WebhookOutcome(bookings[i := booking], payments, Refused(500, "payment to update not found"))
          else
            var payment := payments[booking.id].(status := status);
            WebhookOutcome(bookings[i := booking], payments[booking.id := payment], Ok(201, payment))
  }

  /** A successful webhook leaves the booking with that `bookingRef` and its payment
      holding the same status, the one its code maps to, and never `Failed`. */
  lemma WebhookSynchronisesStatus(bookings: seq<Booking>, payments: map<Id, Payment>, body: Body)
    requires WebhookEffect(bookings, payments, ParseWebhook(body)).response.Ok?
    ensures var out := WebhookEffect(bookings, payments, ParseWebhook(body));
            var code := StringField(body, "request_status_code").value;
            var ref := NumberValue(StringField(body, "account_number").value);
            && WebhookIssues(body) == []
            && ref.Some?
            && exists i :: 0 <= i < |out.bookings| && out.bookings[i].bookingRef == ref.value
                 && out.bookings[i].status == StatusOfCode(code)
                 && out.bookings[i].id in out.payments
                 && out.payments[out.bookings[i].id].status == StatusOfCode(code)
                 && out.response.value == out.payments[out.bookings[i].id]
                 && StatusOfCode(code) != Failed
  {
    var note := ParseWebhook(body).value;
    AcceptedWebhookFields(body);
    NotificationSynchronises(bookings, payments, note);
  }

  /** The same for a notification already parsed. */
  lemma NotificationSynchronises(bookings: seq<Booking>, payments: map<Id, Payment>, note: Notification)
    requires WebhookEffect(bookings, payments, Parsed(note)).response.Ok?
    ensures var out := WebhookEffect(bookings, payments, Parsed(note));
            var ref := NumberValue(note.accountNumber);
            && ref.Some?
            && exists i :: 0 <= i < |out.bookings| && out.bookings[i].bookingRef == ref.value
                 && out.bookings[i].status == StatusOfCode(note.statusCode)
                 && out.bookings[i].id in out.payments
                 && out.payments[out.bookings[i].id].status == StatusOfCode(note.statusCode)
                 && out.response.value == out.payments[out.bookings[i].id]
  {
    var ref := NumberValue(note.accountNumber).value;
    var i := IndexOfRef(bookings, ref).value;
    var out := WebhookEffect(bookings, payments, Parsed(note));
    assert out.bookings[i].bookingRef == ref;
  }

  /** An invalid body gets 400 and nothing is written. */
  lemma WebhookRejectsInvalidBody(bookings: seq<Booking>, payments: map<Id, Payment>, body: Body)
    requires WebhookIssues(body) != []
    ensures WebhookEffect(bookings, payments, ParseWebhook(body)) == WebhookOutcome(bookings, payments, BadRequest(WebhookIssues(body)))
  {
  }

  /** The two writes are not one transaction: when the booking exists but has no
      payment, the booking keeps its new status and the handler answers 500. */
  lemma WebhookPartialWrite(bookings: seq<Booking>, payments: map<Id, Payment>, note: Notification, i: nat)
    requires i < |bookings| && forall j :: i < j < |bookings| ==> bookings[j].bookingRef != bookings[i].bookingRef
    requires NumberValue(note.accountNumber) == Some(bookings[i].bookingRef)
    requires bookings[i].id !in payments
    ensures var out := WebhookEffect(bookings, payments, Parsed(note));
            && out.response.Code() == 500
            && out.payments == payments
            && out.bookings == bookings[i := bookings[i].(status := StatusOfCode(note.statusCode))]
  {
    IndexOfRefLast(bookings, i);
  }

  /** Only the addressed booking's status and its payment's status change. */
  lemma WebhookFrame(bookings: seq<Booking>, payments: map<Id, Payment>, parsed: Parse<Notification>)
    ensures var out := WebhookEffect(bookings, payments, parsed);
            && |out.bookings| == |bookings|
            && out.payments.Keys == payments.Keys
            && (forall j :: 0 <= j < |bookings| ==> out.bookings[j] == bookings[j].(status := out.bookings[j].status))
            && (forall j, k :: 0 <= j < k < |bookings| ==> out.bookings[j] == bookings[j] || out.bookings[k] == bookings[k])
            && (forall id :: id in payments ==> out.payments[id] == payments[id].(status := out.payments[id].status))
            && (forall id, id' :: id in payments && id' in payments && id != id' ==>
                  out.payments[id] == payments[id] || out.payments[id'] == payments[id'])
  {
    var out := WebhookEffect(bookings, payments, parsed);
    if parsed.Parsed? && NumberValue(parsed.value.accountNumber).Some?
       && IndexOfRef(bookings, NumberValue(parsed.value.accountNumber).value).Some? {
      var i := IndexOfRef(bookings, NumberValue(parsed.value.accountNumber).value).value;
      var status := StatusOfCode(parsed.value.statusCode);
      assert out.bookings == bookings[i := bookings[i].(status := status)];
      BookingStatusFrame(bookings, i, status);
      if bookings[i].id in payments {
        assert out.payments == payments[bookings[i].id := payments[bookings[i].id].(status := status)];
        PaymentStatusFrame(payments, bookings[i].id, status);
      }
    }
  }

  /** Setting one booking's status changes that field of that booking only. */
  lemma BookingStatusFrame(bookings: seq<Booking>, i: nat, status: Status)
    requires i < |bookings|
    ensures var u := bookings[i := bookings[i].(status := status)];
            && |u| == |bookings|
            && (forall j :: 0 <= j < |bookings| ==> u[j] == bookings[j].(status := u[j].status))
            && (forall j, k :: 0 <= j < k < |bookings| ==> u[j] == bookings[j] || u[k] == bookings[k])
  {
  }

  /** Setting one payment's status changes that field of that payment only. */
  lemma PaymentStatusFrame(payments: map<Id, Payment>, id: Id, status: Status)
    requires id in payments
    ensures var u := payments[id := payments[id].(status := status)];
            && u.Keys == payments.Keys
            && (forall p :: p in payments ==> u[p] == payments[p].(status := u[p].status))
            && (forall p, q :: p in payments && q in payments && p != q ==> u[p] == payments[p] || u[q] == payments[q])
  {
  }

  /** Delivering the same notification twice leaves the store as delivering it once. */
  lemma WebhookIdempotent(bookings: seq<Booking>, payments: map<Id, Payment>, parsed: Parse<Notification>)
    ensures var once := WebhookEffect(bookings, payments, parsed);
            var twice := WebhookEffect(once.bookings, once.payments, parsed);
            twice.bookings == once.bookings && twice.payments == once.payments
  {
    if parsed.Parsed? {
      var status := StatusOfCode(parsed.value.statusCode);
      var ref := NumberValue(parsed.value.accountNumber);
      if ref.Some? && IndexOfRef(bookings, ref.value).Some? {
        IndexOfRefAfterStatusChange(bookings, ref.value, IndexOfRef(bookings, ref.value).value, status);
      }
    }
  }

  /** Changing a booking's status does not change where `bookingRef` finds it. */
  lemma {:induction false} IndexOfRefAfterStatusChange(bookings: seq<Booking>, ref: int, i: nat, status: Status)
    requires IndexOfRef(bookings, ref) == Some(i)
    ensures IndexOfRef(bookings[i := bookings[i].(status := status)], ref) == Some(i)
  {
    var n := |bookings|;
    if i != n - 1 {
      var updated := bookings[i := bookings[i].(status := status)];
      assert updated[..n - 1] == bookings[..n - 1][i := bookings[i].(status := status)];
      IndexOfRefAfterStatusChange(bookings[..n - 1], ref, i, status);
    }
  }

  /** The lookup by `bookingRef` finds the last row carrying it. */
  lemma {:induction false} IndexOfRefLast(bookings: seq<Booking>, i: nat)
    requires i < |bookings| && forall j :: i < j < |bookings| ==> bookings[j].bookingRef != bookings[i].bookingRef
    ensures IndexOfRef(bookings, bookings[i].bookingRef) == Some(i)
  {
    var n := |bookings|;
    if i != n - 1 {
      assert bookings[..n - 1][i] == bookings[i];
      IndexOfRefLast(bookings[..n - 1], i);
    }
  }

  /** `webHookReq` against the store: the booking update, then the payment update. */
  method WebHookReq(db: Db, body: Body) returns (response: Response<Payment>)
    requires db.Valid()
    modifies db`bookings, db`payments
    ensures db.Valid()
    ensures WebhookOutcome(db.bookings, db.payments, response) == WebhookEffect(old(db.bookings), old(db.payments), ParseWebhook(body))
  {
    var parsed := ParseWebhook(body);
    if parsed.Invalid? {
      return BadRequest(parsed.issues);
    }
    response := ApplyNotification(db, parsed.value);
  }

  /** The writes of `webHookReq` for a well-formed notification. */
  method ApplyNotification(db: Db, note: Notification) returns (response: Response<Payment>)
    requires db.Valid()
    modifies db`bookings, db`payments
    ensures db.Valid()
    ensures WebhookOutcome(db.bookings, db.payments, response) == WebhookEffect(old(db.bookings), old(db.payments), Parsed(note))
  {
    var status := StatusOfCode(note.statusCode);
    var ref := NumberValue(note.accountNumber);
    if ref.None? {
      return Refused(500, "bookingRef is not an integer");
    }
    // the booking update, by the unique bookingRef
    var found := IndexOfRef(db.bookings, ref.value);
    if found.None? {
      return Refused(500, "booking to update not found");
    }
    var booking := db.bookings[found.value].(status := status);
    db.SetBookingStatus(found.value, status);
    // the payment update, by the unique bookingId
    if booking.id !in db.payments {
      return Refused(500, "payment to update not found");
    }
    var payment := db.payments[booking.id].(status := status);
    db.SetPaymentStatus(booking.id, status);
    response := Ok(201, payment);
  }

  // ---------------------------------------------------------------------------
  // The checkout payload

  /** The fixed app address every redirect URL is replaced with. */
  const AppUrl: string := "exp://u.expo.dev/update/8497796c-4723-4175-9175-7818157f4d45/--/(app)/(payments)/successful_payments"

  const RedirectKeys: set<string> := {"success_redirect_url", "pending_redirect_url", "fail_redirect_url"}

  /** The keys `apiSchema` declares. */
  const PayloadKeys: set<string> := {
    "msisdn", "account_number", "country_code", "currency_code", "customer_first_name",
    "customer_last_name", "due_date", "merchant_transaction_id", "payment_option_code",
    "callback_url", "pending_redirect_url", "request_amount", "request_description",
    "service_code", "success_redirect_url", "fail_redirect_url", "language_code",
    "charge_beneficiaries"}

  /** `apiSchema`, key by key. `isUrl` stands for the URL parser Zod's `url()` uses. */
  function PayloadIssues(body: Body, isUrl: string -> bool): seq<Issue> {
    PlainString(body, "msisdn", false) + PlainString(body, "account_number", false)
    + LengthRule(body, "country_code", 3) + LengthRule(body, "currency_code", 3)
    + PlainString(body, "customer_first_name", false) + PlainString(body, "customer_last_name", false)
    + PlainString(body, "due_date", false) + PlainString(body, "merchant_transaction_id", false)
    + PlainString(body, "payment_option_code", true)
    + StringRule(body, "callback_url", false, isUrl, "Invalid url")
    + StringRule(body, "pending_redirect_url", true, isUrl, "Invalid url")
    + PlainNumber(body, "request_amount")
    + PlainString(body, "request_description", false) + PlainString(body, "service_code", false)
    + StringRule(body, "success_redirect_url", false, isUrl, "Invalid url")
    + StringRule(body, "fail_redirect_url", false, isUrl, "Invalid url")
    + EnumRule(body, "language_code", false, ["fr", "en", "ar", "pt"])
    + ArrayRule(body, "charge_beneficiaries", true)
  }

  /** An accepted payload has three-letter country and currency codes. */
  lemma AcceptedPayloadCodes(body: Body, isUrl: string -> bool)
    requires PayloadIssues(body, isUrl) == []
    ensures "country_code" in body && body["country_code"].JString? && Utf16Length(body["country_code"].s) == 3
    ensures "currency_code" in body && body["currency_code"].JString? && Utf16Length(body["currency_code"].s) == 3
  {
    assert LengthRule(body, "country_code", 3) == [];
    assert LengthRule(body, "currency_code", 3) == [];
  }

  /** The object passed to `JSON.stringify` before encryption: the parsed payload
      with the three redirect URLs set to the app address and `due_date` dropped
      (it is set to `undefined`, which `JSON.stringify` omits). */
  function EncryptionInput(payload: Body): (r: Body)
    ensures r.Keys == (payload.Keys - {"due_date"}) + RedirectKeys
    ensures forall k :: k in RedirectKeys ==> r[k] == JString(AppUrl)
    ensures forall k :: k in payload && k !in RedirectKeys && k != "due_date" ==> r[k] == payload[k]
  {
    (map k | k in payload && k != "due_date" :: payload[k])
      + map["success_redirect_url" := JString(AppUrl), "pending_redirect_url" := JString(AppUrl),
            "fail_redirect_url" := JString(AppUrl)]
  }

  /** `apiSchema.parse(req.body)`: the declared keys of an accepted body. */
  function ParsePayload(body: Body, isUrl: string -> bool): (r: Parse<Body>)
    ensures r.Invalid? <==> PayloadIssues(body, isUrl) != []
    ensures r.Invalid? ==> r.issues == PayloadIssues(body, isUrl)
    ensures r.Parsed? ==> r.value.Keys == body.Keys * PayloadKeys && forall k :: k in r.value ==> r.value[k] == body[k]
  {
    var issues := PayloadIssues(body, isUrl);
    if issues != [] then Invalid(issues) else Parsed(Strip(body, PayloadKeys))
  }

  /** `encriptPayment`: 400 with the issues on an invalid body, otherwise 201 with
      the record handed to the encryptor (`None` when the encryption keys are not
      configured and the result is `undefined`). The encryption itself is left out. */
  function EncriptPayment(body: Body, isUrl: string -> bool, keysConfigured: bool): (r: Response<Option<Body>>)
    ensures r.BadRequest? <==> PayloadIssues(body, isUrl) != []
    ensures r.BadRequest? ==> r.issues == PayloadIssues(body, isUrl)
    ensures r.Ok? ==> r.status == 201 && (r.value.Some? <==> keysConfigured)
  {
    match ParsePayload(body, isUrl)
    case Invalid(issues) => BadRequest(issues)
    case Parsed(payload) => Ok(201, if keysConfigured then Some(EncryptionInput(payload)) else None)
  }

  /** On an accepted body the handler hands over the declared keys, rewritten. */
  lemma EncriptAccepted(body: Body, isUrl: string -> bool, keysConfigured: bool)
    requires PayloadIssues(body, isUrl) == []
    ensures EncriptPayment(body, isUrl, keysConfigured)
            == Ok(201, if keysConfigured then Some(EncryptionInput(Strip(body, PayloadKeys))) else None)
  {
  }

  /** What reaches the encryptor: no `due_date`, the three redirect URLs set to
      the app address, and every other key as the client sent it. */
  lemma EncryptedRecord(body: Body, isUrl: string -> bool)
    requires PayloadIssues(body, isUrl) == []
    ensures EncriptPayment(body, isUrl, true).Ok? && EncriptPayment(body, isUrl, true).value.Some?
    ensures var sent := EncriptPayment(body, isUrl, true).value.value;
            && "due_date" !in sent
            && (forall k :: k in RedirectKeys ==> k in sent && sent[k] == JString(AppUrl))
            && (forall k :: k in sent && k !in RedirectKeys ==> k in body && sent[k] == body[k])
  {
    EncriptAccepted(body, isUrl, true);
    SentFields(body);
  }

  lemma SentFields(body: Body)
    ensures var sent := EncryptionInput(Strip(body, PayloadKeys));
            && "due_date" !in sent
            && (forall k :: k in RedirectKeys ==> k in sent && sent[k] == JString(AppUrl))
            && (forall k :: k in sent && k !in RedirectKeys ==> k in body && sent[k] == body[k])
  {
    assert "due_date" !in RedirectKeys;
  }

  /** Only declared keys reach the encryptor. */
  lemma EncryptedKeysDeclared(body: Body, isUrl: string -> bool, keysConfigured: bool)
    requires EncriptPayment(body, isUrl, keysConfigured).Ok?
    requires keysConfigured
    ensures EncriptPayment(body, isUrl, keysConfigured).value.value.Keys <= PayloadKeys - {"due_date"}
  {
    EncriptAccepted(body, isUrl, true);
    SentKeys(body);
  }

  lemma SentKeys(body: Body)
    ensures EncryptionInput(Strip(body, PayloadKeys)).Keys <= PayloadKeys - {"due_date"}
  {
    RedirectKeysDeclared();
  }

  lemma RedirectKeysDeclared()
    ensures RedirectKeys <= PayloadKeys - {"due_date"}
  {
  }
}
