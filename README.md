# tija-golf controllers in Dafny

A model of the decision logic in the Express/Prisma backend of the tija-golf
booking application. The model covers six controllers:

- the payment gateway webhook and the checkout payload rewrite (`payments.ts`);
- event bookings, event listings and their price tables (`eventsControllers.ts`);
- tee bookings (`teeContorollers.ts`);
- shopping carts (`cart.ts`);
- booking queries and updates (`bookingControllers.ts`);
- bulk invitations (`invitations.ts`).

The Prisma database is one class, `Store.Db`. Each table is a field: a `seq` where
the source's order matters (bookings, price rows, shopping items, invitations) and
a `map` from id to row elsewhere. `Db.Valid` states what the handlers rely on and
keep: bookings have distinct ids and references and link only to existing events,
classes, tournaments and tees; bookings, events, tees, listed events and carts,
and the listed event or cart each price row and item names, lie below the next id
to be given out; references lie below the next reference. It does not tie
payments to bookings, events to listed events or packages, price rows and items
to an existing listed event or cart, or tees to organisations. Each handler is a
method that takes the database and the request, returns a `Response`, and states
in its contract both the response and the new state of every table it may write.
Zod schemas become ordered issue lists (`...Issues(body)`) and a `Parse...`
function that succeeds exactly when there are no issues. The two `combineDateAndTime` functions are pure functions on
millisecond instants, with an independent reading of a 12-hour clock time as a
minute of the day (`Clock`).

Modules, one file each:

- `Common`: the JSON body, responses, authentication and the JavaScript string
  and number built-ins the handlers use.
- `Schema`: the Zod rules.
- `Clock`: the 12-hour time format shared by both time regexes.
- `Store`: entities and the database.
- `Payments`, `Events`, `TeeTime` and `Tees`, `Carts`, `Bookings`, `Invitations`:
  one per controller.

Outside collaborators are parameters:

- the user lookup behind the bearer token (`getUser: string -> Option<string>`);
- the identity provider and the invitation insert in `inviteMultipleUsers`, as
  per-email oracles;
- `parseFloat`, `z.string().url()`, `z.string().datetime()`, `new Date(string)`
  and `new Date(date)`;
- whether the encryption keys are configured.

## Model

| member | source | states |
|---|---|---|
| Payments.StatusOfCode | src/controllers/payments.ts:143-158 | the code maps to Failed exactly when it is not one of the seven admitted codes; every other code maps to the status whose code it is |
| Payments.CodeOfStatusRoundTrip | src/controllers/payments.ts:143-158 | every status except Pending and Failed has exactly one gateway code, and that code maps back to it |
| Payments.StatusOfCodeInjective | src/controllers/payments.ts:143-158 | two different admitted codes never map to the same status |
| Payments.AcceptedWebhookFields | src/controllers/payments.ts:53-97 | a body the webhook schema accepts has an account number and an admitted status code, and that code does not map to Failed; `country_abbrev` has a JavaScript length of exactly 2 and each error entry's `currency_code` of exactly 3 |
| Payments.ParseWebhook | src/controllers/payments.ts:53-97 | parsing fails exactly when the schema reports issues, and then it carries those issues; on success the notification's status code is admitted and both fields are the body's own |
| Payments.WebhookSynchronisesStatus | src/controllers/payments.ts:135-186 | after a 201 the body was valid, `Number(account_number)` is a booking reference, and the booking with that reference and the payment keyed by that booking's id both hold the mapped status, which is not Failed; the response is that payment |
| Payments.NotificationSynchronises | src/controllers/payments.ts:136-186 | the same synchronisation for an already parsed notification |
| Payments.WebhookRejectsInvalidBody | src/controllers/payments.ts:135-191 | an invalid body gives 400 with the schema's issues and writes neither bookings nor payments |
| Payments.WebhookPartialWrite | src/controllers/payments.ts:136-195 | when the booking exists but has no payment, the booking's status is still changed, the payments are untouched and the response is 500 |
| Payments.WebhookFrame | src/controllers/payments.ts:136-185 | the webhook changes nothing but a status, on at most one booking and at most one payment |
| Payments.WebhookIdempotent | src/controllers/payments.ts:136-185 | delivering the same notification twice leaves the same bookings and payments as delivering it once |
| Payments.IndexOfRefAfterStatusChange | src/controllers/payments.ts:136-142 | changing a booking's status does not change which booking a reference finds |
| Payments.IndexOfRefLast | src/controllers/payments.ts:136-142 | the lookup by reference finds the last booking with that reference |
| Payments.WebHookReq | src/controllers/payments.ts:130-197 | the handler's response and the new bookings and payments are those of the webhook's effect on the old ones, and the database stays valid |
| Payments.ApplyNotification | src/controllers/payments.ts:136-186 | the two sequential updates give exactly the webhook's effect for a parsed notification |
| Payments.AcceptedPayloadCodes | src/controllers/payments.ts:6-25 | a payload the schema accepts has a `country_code` and a `currency_code` whose JavaScript length is exactly 3 |
| Payments.ParsePayload | src/controllers/payments.ts:6-25 | parsing fails exactly when there are issues; on success only the schema's keys are kept, each with its value unchanged |
| Payments.EncryptionInput | src/controllers/payments.ts:112-114 | the record handed to the encryptor drops `due_date`, sets the three redirect URLs to the app URL and keeps every other field |
| Payments.EncriptPayment | src/controllers/payments.ts:101-129 | 400 with the issues exactly when the payload is invalid; otherwise 201, carrying an encrypted record exactly when the keys are configured |
| Payments.EncriptAccepted | src/controllers/payments.ts:112-119 | for a valid payload the response is 201 with the rewritten record when the keys are configured, and with nothing otherwise |
| Payments.EncryptedRecord | src/controllers/payments.ts:112-119 | what is encrypted has no `due_date`, has the app URL in every redirect field, and has every other field as the request gave it |
| Payments.SentFields | src/controllers/payments.ts:112-114 | the rewrite of the stripped payload changes only the redirect URLs and `due_date` |
| Payments.EncryptedKeysDeclared | src/controllers/payments.ts:112-114 | every field sent for encryption is one the schema declares, other than `due_date` |
| Payments.SentKeys | src/controllers/payments.ts:112-114 | the keys of the rewritten record are declared schema keys other than `due_date` |
| Payments.RedirectKeysDeclared | src/controllers/payments.ts:16-22 | the three redirect URL keys are declared by the payload schema |
| Clock.MatchesIsRendering | src/controllers/eventsControllers.ts:31 | every string the 12-hour pattern accepts is `h:mm` plus a space and a modifier, with hour 1..12 (zero-padded or not) and minutes 00..59 |
| Clock.RenderMatches | src/controllers/eventsControllers.ts:31 | every such rendering is accepted and reads back as the same clock time |
| Clock.ClockPieces | src/controllers/eventsControllers.ts:12-31 | an accepted string splits into hour, minute and modifier texts whose digits spell the reading |
| Clock.ReadClock | src/controllers/eventsControllers.ts:31 | the reading of an accepted string is a valid clock time |
| Clock.HourValue | src/controllers/eventsControllers.ts:31 | the hour of an accepted string is between 1 and 12 |
| Clock.MinuteOfDay | src/controllers/eventsControllers.ts:16-21 | a reading denotes a minute of the day below 1440 whose minutes are the reading's |
| Clock.HoursOfDay | src/controllers/eventsControllers.ts:16-21 | hour 12 counts as 0 and pm adds 12 |
| Clock.ClockOfMinuteOfDay | src/controllers/eventsControllers.ts:12-24 | the conversion from readings to minutes of the day is one to one |
| Clock.MinuteOfDayOfClock | src/controllers/eventsControllers.ts:12-24 | every minute of the day is the conversion of some reading |
| Events.CombineValidTime | src/controllers/eventsControllers.ts:7-29 | for an accepted time, the combination is the start of the day plus the reading's minute of the day, minus 3 hours |
| Events.CombineFieldsOfClock | src/controllers/eventsControllers.ts:16-26 | the hour and minute numbers of a reading combine to that shifted start |
| Events.ReadTimeFieldsOf | src/controllers/eventsControllers.ts:12-13 | splitting on the space and the colon and reading both numbers recovers the hour and minute digits and the modifier |
| Events.EventTimeCoversDay | src/controllers/eventsControllers.ts:7-31 | every minute of the day, shifted back 3 hours, is the combination of some accepted time |
| Events.EventTimeInjective | src/controllers/eventsControllers.ts:7-31 | two accepted times that give the same instant have the same reading, and are the same text when padded alike |
| Events.CombinePreviousDay | src/controllers/eventsControllers.ts:8-26 | the result falls on the previous day exactly when the time is before 3 am |
| Events.ParseEvent | src/controllers/eventsControllers.ts:34-44 | parsing fails exactly when there are issues; an accepted event has an admitted holes and kit value, a lower-case 12-hour start time and an ISO date, and each of its six fields is the body's string under that key |
| Events.FirstKitPrice | src/controllers/eventsControllers.ts:177-187 | the kit price found is a row for the listed event with no such row before it, and none is found exactly when there is no such row |
| Events.EventAmountCases | src/controllers/eventsControllers.ts:177-192 | the amount is the package amount, increased by that listed event's first kit price exactly when kit is "Yes" and such a row exists |
| Events.CreateEvent | src/controllers/eventsControllers.ts:124-208 | 403 and 401 before parsing, 400 with the issues for an invalid body; an authorised valid request gets 201 exactly when its listed event and package exist, and no write happens otherwise; on 201 one event with the shifted start, one booking linked to it with slug `E-<bookingRef>` for the caller, and the computed amount |
| Events.CreateAdmitted | src/controllers/eventsControllers.ts:135-206 | an admitted request succeeds exactly when the listed event and package exist; otherwise 500 and nothing is written |
| Events.BookEvent | src/controllers/eventsControllers.ts:140-192 | creates the event, then the booking, then sets its `E-` slug, and returns the amount |
| Events.UpdateEvent | src/controllers/eventsControllers.ts:449-517 | 403/401, 400 for an invalid body; an authorised valid request gets 200 exactly when the event exists and its new listed event and package exist, and otherwise 500 with no write; on 200 the event is replaced with the new start, holes, kit and links, and the amount is recomputed |
| Events.UpdateAdmitted | src/controllers/eventsControllers.ts:456-507 | the update succeeds exactly when the event, its new listed event and its new package exist, and otherwise answers 500 with no write; on success the event is replaced and the amount recomputed |
| Events.Reschedule | src/controllers/eventsControllers.ts:467-500 | only the event row changes, and the amount is that of the new kit choice |
| Events.EventSlugUnique | src/controllers/eventsControllers.ts:157-174 | distinct booking references give distinct `E-` slugs, and no event slug equals a cart slug |
| Events.QuoteOf | src/controllers/eventsControllers.ts:587-603 | an accepted hole-price element gives a quote for "Nine" or "Eighteen" holes with a positive amount, both being the element's own fields |
| Events.Quotes | src/controllers/eventsControllers.ts:587-603 | one quote per accepted element, in order, each the quote of that element; so each is for "Nine" or "Eighteen" holes and has a positive amount |
| Events.HolesRows | src/controllers/eventsControllers.ts:640-648 | one price row per quote, in order, each linked to the listed event and carrying that quote's holes and amount |
| Events.ParseListing | src/controllers/eventsControllers.ts:587-613 | parsing fails exactly when there are issues; an accepted listing has a name, location and type, a positive kit price and one positive quote per element; its name, location, description, image, start date and type are the body's strings, its quotes those of `holesPrices` and its kit amount `kitPrice.amount` |
| Events.AddHolesRows | src/controllers/eventsControllers.ts:640-648 | the loop appends exactly the listing's rows, in order |
| Events.ReplaceHolesRows | src/controllers/eventsControllers.ts:807-823 | the event's old hole prices are deleted and the new ones appended; other events' rows are kept |
| Events.ListEvent | src/controllers/eventsControllers.ts:605-673 | 403/401, 400 for an invalid body; an authorised valid request gets 201 exactly when its start date reads, and no write happens otherwise; on 201 one listed event, one hole price row per element and exactly one kit price row |
| Events.AddListing | src/controllers/eventsControllers.ts:628-656 | the listed event, its hole prices and its kit price are written in that order |
| Events.ParseEdit | src/controllers/eventsControllers.ts:748-779 | parsing fails exactly when there are issues; the edit carries hole prices exactly when they are given, and a positive kit price exactly when it is given; its id is the body's, each optional field is the body's string when present, the quotes are those of `holesPrices` and the kit amount is `kitPrice.amount` |
| Events.Edited | src/controllers/eventsControllers.ts:795-805 | the edited listing keeps its id; name, location, description, image, start date and type each take the given value and keep the old one when it was not given |
| Events.EditListedEvent | src/controllers/eventsControllers.ts:771-851 | 403/401, 400 for an invalid body; an authorised valid request gets 200 exactly when the listed event exists and the start date reads, and no write happens otherwise; on 200 the listing is edited, its hole prices are replaced only when given, and its kit prices change only when a kit price is given |
| Events.ApplyEdit | src/controllers/eventsControllers.ts:795-833 | the three writes of an admitted edit |
| Events.ListedHolesPrices | src/controllers/eventsControllers.ts:640-648 | after listing, the event's hole prices are exactly its quotes, and other events' prices are unchanged |
| Events.EditedHolesPrices | src/controllers/eventsControllers.ts:807-823 | after an edit with hole prices, the event's hole prices are exactly the new list, and other events' prices are unchanged |
| Events.HolesPricesOfRows | src/controllers/eventsControllers.ts:640-648 | the rows written for one event all belong to it and to no other event |
| Events.KitAmountOfOthers | src/controllers/eventsControllers.ts:825-833 | updating one event's kit price does not change the kit price charged for another event |
| Events.FirstKitPriceOfSameMatches | src/controllers/eventsControllers.ts:177-187 | the kit price found depends only on that event's rows |
| Events.KitAmountCharged | src/controllers/eventsControllers.ts:825-833 | after the kit price is edited, a booking with kit pays the package amount plus the new kit price |
| TeeTime.TeeTimeRefusesLowerCase | src/controllers/teeContorollers.ts:7 | a lower-case modifier is never accepted |
| TeeTime.TeeCombineValid | src/controllers/teeContorollers.ts:8-27 | for an accepted time, the combination sets the reading's hour (12 as 0, PM adding 12) and minute on the given day, with no shift |
| TeeTime.TeeStartSameDay | src/controllers/teeContorollers.ts:22-24 | the start stays on the same calendar day, keeps the date's seconds and milliseconds, and lies the reading's minute of the day after midnight |
| TeeTime.TeeTimeCoversDay | src/controllers/teeContorollers.ts:7-27 | every minute of the day is the start of some accepted time |
| TeeTime.TeeStartOfMinute | src/controllers/teeContorollers.ts:22-24 | the start of the reading of a minute is midnight plus that minute |
| TeeTime.TeeRendering | src/controllers/teeContorollers.ts:7-27 | every valid reading has an accepted text that combines to its start |
| TeeTime.TeeHoursOfField | src/controllers/teeContorollers.ts:15-20 | hour "12" becomes 0, and PM adds 12 |
| TeeTime.TeeHoursOfTwelve | src/controllers/teeContorollers.ts:15-20 | 12 AM is hour 0 and 12 PM is hour 12 |
| TeeTime.TeeHoursOfParsed | src/controllers/teeContorollers.ts:18-20 | any other hour text keeps its parsed value, plus 12 after PM |
| TeeTime.SetHours | src/controllers/teeContorollers.ts:23-24 | setting hours and minutes keeps the date's seconds and milliseconds |
| TeeTime.TeeDefaultTime | src/controllers/teeContorollers.ts:24 | an empty time gives 09:00 on the date |
| TeeTime.TeeDefaultMinutes | src/controllers/teeContorollers.ts:24 | a bare hour with no colon gives that hour and minute 0 |
| TeeTime.TeeCombineOfBareHour | src/controllers/teeContorollers.ts:13-24 | a bare hour text combines to its parsed value and minute 0 |
| TeeTime.TimePieces | src/controllers/teeContorollers.ts:13-14 | splitting `h:mm XM` on the space and then on the colon yields the hour, the minutes and the modifier |
| TeeTime.TeeTimePieces | src/controllers/teeContorollers.ts:7-14 | an accepted tee time splits into texts whose digits spell its reading |
| Tees.TeeSchemaRefusesEveryBody | src/controllers/teeContorollers.ts:34-42 | as written, the schema reports an issue for every JSON body |
| Tees.ParseTee | src/controllers/teeContorollers.ts:34-51 | with the date read from its text, parsing fails exactly when there are issues, and an accepted tee has admitted enums, an organisation and an upper-case 12-hour start time; holes, kit, existing-game flag, organisation and start time are the body's strings, and the date is the body's date text read as a date |
| Tees.CreateTee | src/controllers/teeContorollers.ts:44-81 | 403 and 401 before validation, 400 with the first issue's message; an authorised valid request gets 201 exactly when the organisation exists, and no write happens otherwise; on 201 one tee with the combined start and one booking for the caller that references that tee |
| Tees.RecordTee | src/controllers/teeContorollers.ts:52-79 | an admitted tee is stored exactly when its organisation exists; otherwise 500 and nothing is written |
| Tees.StartDate | src/controllers/teeContorollers.ts:52 | the tee's start is the combination of its date and start time |
| Tees.BookTee | src/controllers/teeContorollers.ts:54-69 | the tee is written first, then a booking for the user with that tee's id |
| Carts.QuantityIssues | src/controllers/cart.ts:9 | a quantity is accepted exactly when it is a nonnegative whole number |
| Carts.ItemOf | src/controllers/cart.ts:3-13 | an accepted item keeps the request's name, price text, image, product id and quantity |
| Carts.CartItems | src/controllers/cart.ts:3-13 | one item per element, in order |
| Carts.ParseCart | src/controllers/cart.ts:3-35 | parsing fails exactly when there are issues; an accepted cart has one item per element, each with a nonnegative quantity, and the items are those of the `items` elements in order |
| Carts.Total | src/controllers/cart.ts:36-39 | the empty cart totals 0, and the total is nonnegative when every price read is nonnegative |
| Carts.TotalSnoc | src/controllers/cart.ts:36-39 | adding an item adds its price times its quantity |
| Carts.UnreadablePriceAddsNothing | src/controllers/cart.ts:36-39 | an item whose price does not parse adds nothing |
| Carts.TotalAppend | src/controllers/cart.ts:36-39 | the total of two lists is the sum of their totals |
| Carts.StoredItems | src/controllers/cart.ts:47-53 | one stored row per item, in order, priced by the same reading |
| Carts.TotalOfStoredItems | src/controllers/cart.ts:36-54 | the cart's total equals the sum of stored price times stored quantity |
| Carts.RowsTotalAppend | src/controllers/cart.ts:36-54 | the sum over stored rows splits over an append |
| Carts.CreateCart | src/controllers/cart.ts:27-76 | 403 and 401 before parsing, 400 with the issues; every authorised valid request gets 201, with one cart for the caller with the computed total and slug `C-<cartRef>`, whose items are exactly the request's |
| Carts.StoreCart | src/controllers/cart.ts:41-69 | the cart is created, its items are created, and its slug is set |
| Carts.FillCart | src/controllers/cart.ts:58-69 | the slug is `C-` and the cart reference, and the cart's items are exactly the new rows |
| Carts.GetCart | src/controllers/cart.ts:78-90 | 200 with the cart and exactly its items when the id names a cart, and 200 with nothing otherwise |
| Carts.UpdateCart | src/controllers/cart.ts:92-139 | 403/401, 400 with the issues, 400 for an unknown cart with no write; an authorised valid request for an existing cart gets 200, the cart's items become exactly the request list, its total is recomputed by the same fold, and other carts' items are kept |
| Carts.ReplaceItems | src/controllers/cart.ts:106-132 | the old items are deleted and the new ones created, and only the total changes on the cart |
| Bookings.GetBooking | src/controllers/bookingControllers.ts:53-69 | looks up by numeric booking reference and returns only the status with 200; 404 when there is no such booking; 500 when the parameter is not a number |
| Bookings.BookingSchemaRefusesEveryBody | src/controllers/bookingControllers.ts:11-17 | as written, the schema reports an issue for every JSON body |
| Bookings.ParseBooking | src/controllers/bookingControllers.ts:11-17 | with the date read from its text, parsing fails exactly when there are issues, and the optional links are the body's own |
| Bookings.NewLink | src/controllers/bookingControllers.ts:79-82 | an omitted link is kept, and a given one is replaced |
| Bookings.Updated | src/controllers/bookingControllers.ts:79-82 | an update keeps the booking's id, reference, owner, status, slug and tee, and sets its date; the session and each of the event, class and tournament links are kept when absent from the body and otherwise take the given value |
| Bookings.OwnedIndex | src/controllers/bookingControllers.ts:79-82 | finds a booking with that id owned by the caller, or shows that the caller owns none |
| Bookings.UpdateBooking | src/controllers/bookingControllers.ts:71-90 | the body is validated before authentication; 200 exactly when the caller owns the booking and its links exist; only that booking changes, and no booking of another user ever does |
| Bookings.TeeRowsExact | src/controllers/bookingControllers.ts:177-196 | the rows are exactly the caller's bookings that have a tee, each with its tee |
| Bookings.OrderByTeeStart | src/controllers/bookingControllers.ts:197-201 | the rows are ordered by tee start and are a permutation of their input |
| Bookings.InsertByTeeStart | src/controllers/bookingControllers.ts:197-201 | inserting into an ordered list keeps it ordered and adds exactly that row |
| Bookings.GetTeeBookings | src/controllers/bookingControllers.ts:169-209 | 403 and 401; for a caller, 200 with exactly their tee bookings, ordered by ascending tee start |
| Bookings.Fetch | src/controllers/bookingControllers.ts:101-148 | the fetched bookings are exactly the caller's bookings whose event, class or tournament starts after now |
| Bookings.Activity | src/controllers/bookingControllers.ts:151-158 | an activity has the booking's date and the fields of event, class, tournament and tee, with later sources overriding earlier ones |
| Bookings.Activities | src/controllers/bookingControllers.ts:151-158 | one activity per fetched booking, in order |
| Bookings.WithStart | src/controllers/bookingControllers.ts:159 | exactly the activities with a start date are kept |
| Bookings.SortByStart | src/controllers/bookingControllers.ts:162 | the in-place sort leaves the array ordered by start date and a permutation of its old contents |
| Bookings.InsertDown | src/controllers/bookingControllers.ts:162 | one insertion step extends the sorted prefix and permutes the array |
| Bookings.SwapDown | src/controllers/bookingControllers.ts:162 | a swap exchanges two neighbours and nothing else |
| Bookings.SortedCopy | src/controllers/bookingControllers.ts:159-162 | the sorted list is ordered by start and is a permutation of the filtered list |
| Bookings.GetUpcomingActivities | src/controllers/bookingControllers.ts:92-168 | 403 and 401; for a caller, activities sorted by start, a permutation of those with a start, and no more of them than fetched bookings |
| Invitations.InviteMultipleUsers | src/controllers/invitations.ts:9-38 | one result per email, in order, each carrying its email, with no abort on failure; invitations are appended exactly for the successful ones |
| Invitations.InviteOne | src/controllers/invitations.ts:13-34 | one email's result follows the provider and store outcomes, and a record is appended only on success |
| Invitations.ReportsExtend | src/controllers/invitations.ts:12-35 | each iteration extends the in-order results by exactly one entry |
| Invitations.RecordedOnlyAccepted | src/controllers/invitations.ts:19-31 | every invitation recorded was for an email whose provider call and insert both succeeded, and has status "Pending" |
| Invitations.RecordedMembers | src/controllers/invitations.ts:24-31 | the recorded invitations are exactly those of the successful results, never more than the results |
| Invitations.RecordedSnoc | src/controllers/invitations.ts:24-33 | each result adds its invitation to the record only when it succeeded |
| Invitations.EmailColumn | src/controllers/invitations.ts:47-51 | only non-empty emails are collected, every row with an email contributes it, and every collected email is the email cell of some row |
| Invitations.EmailColumnAppend | src/controllers/invitations.ts:47-51 | emails are collected in row order |
| Invitations.CollectEmails | src/controllers/invitations.ts:47-51 | the row loop collects exactly the email column |
| Invitations.AsJson | src/controllers/invitations.ts:52-54 | the collected emails are passed on one for one |
| Invitations.ParseCsvAndInvite | src/controllers/invitations.ts:40-64 | a readable file invites its email column after the last row; an unreadable one invites no one |
| Invitations.TextInvite | src/controllers/invitations.ts:105-118 | a missing, non-array or empty list gives 400 and invites no one; otherwise 200 with one result per email |
| Invitations.CsvInvite | src/controllers/invitations.ts:157-168 | no file gives 400 and an unreadable file 500, both inviting no one; otherwise 200 with one result per collected email |
| Invitations.StreamOf | src/controllers/invitations.ts:40-45 | the stream is readable exactly when the upload has a buffer, and then holds the buffer's rows |
| Invitations.DiskStored | src/routes/invitations.ts:14-23 | disk storage leaves the upload without a buffer |
| Invitations.MemoryStored | src/routes/invitations.ts:14-23 | memory storage keeps the file's rows in the buffer |
| Invitations.CsvInviteAsRouted | src/routes/invitations.ts:14-31 | as routed, a request without a file gets 400 and any uploaded file gets 500, and no one is invited |
| Invitations.CsvInviteInMemory | src/controllers/invitations.ts:157-168 | with the file kept in memory, an uploaded file gets 200 and every address of its email column is invited |
| Store.Slug | src/controllers/eventsControllers.ts:160 | a slug is the prefix letter, a dash and the decimal reference |
| Store.SlugInjective | src/controllers/cart.ts:58-66 | different prefixes or references give different slugs |
| Store.IdOfTextOfId | src/controllers/cart.ts:100-101 | the text of an id reads back as that id |
| Store.NewBooking | src/controllers/teeContorollers.ts:61-69 | a new booking is pending, has no slug and belongs to its user (pending and no slug are taken as the table's defaults) |
| Store.WithKitAmount | src/controllers/eventsControllers.ts:825-833 | only the kit price rows of the listed event take the new amount; rows keep their places |
| Store.RowsNotOfMembers | src/controllers/eventsControllers.ts:807-812 | `deleteMany` on one owner (a listed event's hole prices, a cart's items) keeps exactly the rows of the other owners |
| Store.RowsOfAfter | src/controllers/cart.ts:108-131 | after delete-then-create, an owner's rows (a cart's items) are exactly the new rows |
| Store.RowsOfAppend | src/controllers/cart.ts:47-53 | an owner's rows in an appended table are its rows in each part, in order |
| Store.RowsOfOwnRows | src/controllers/cart.ts:47-53 | rows created for an owner are all selected for it |
| Store.RowsOfOtherRows | src/controllers/cart.ts:108-112 | rows of other owners are none of them selected |
| Store.RowsOfNotOf | src/controllers/eventsControllers.ts:807-812 | after deleting an owner's rows it has none, and every other owner keeps its rows in order |
| Store.RowsOf | src/controllers/cart.ts:80-85 | the selected rows all have the owner asked for |
| Store.RowsNotOf | src/controllers/cart.ts:108-112 | the rows left by a delete all have another owner |
| Store.IndexOfRef | src/controllers/payments.ts:136-142 | finds a booking with the reference, or shows there is none |
| Store.Db.constructor | src/controllers/payments.ts:29 | a fresh database is empty and valid |
| Store.Db.AddBooking | src/controllers/teeContorollers.ts:61-69 | appends a new pending booking with the next id and reference, keeping the database valid |
| Store.Db.SetBookingStatus | src/controllers/payments.ts:136-162 | only the status of that booking changes |
| Store.Db.SetPaymentStatus | src/controllers/payments.ts:163-185 | only the status of that payment changes |
| Store.Db.AddInvitation | src/controllers/invitations.ts:24-29 | appends exactly one invitation |
| Store.Db.DeleteItems | src/controllers/cart.ts:108-112 | removes exactly the cart's items |
| Store.Db.DeleteHolesPrices | src/controllers/eventsControllers.ts:807-812 | removes exactly the listed event's hole prices |
| Store.Db.SetKitAmounts | src/controllers/eventsControllers.ts:825-833 | sets the amount of every kit price row of the listed event |
| Common.Authenticate | src/controllers/teeContorollers.ts:46-49 | 403 exactly when the token is missing or empty; a caller's id is non-empty and is what the lookup returned; otherwise 401 |
| Common.Split | src/controllers/teeContorollers.ts:13-14 | splitting gives at least one part, and no part holds the separator |
| Common.SplitAtFirst | src/controllers/teeContorollers.ts:13-14 | the text before the first separator is the first part |
| Common.ParseIntOfDigits | src/controllers/eventsControllers.ts:12-13 | `parseInt` of a digit string is its decimal value |
| Common.ParseIntOfIntToString | src/controllers/teeContorollers.ts:19 | `parseInt` reads back what `toString` writes |
| Common.NatToStringInjective | src/controllers/eventsControllers.ts:160 | different numbers have different decimal texts |
| Common.NumberValue | src/controllers/payments.ts:139 | `Number(account_number)` is defined exactly for digit strings |
| Common.StartOfDay | src/controllers/eventsControllers.ts:8-9 | the start of a day is a midnight at or before the instant, less than a day earlier |
| Common.StartOfDayWithin | src/controllers/eventsControllers.ts:8-9 | every instant of a day has that day's midnight as its start |
| Schema.StringRule | src/controllers/eventsControllers.ts:587-603 | a string rule passes exactly when the key is present with an admitted string, or is absent and optional |
| Schema.EnumRule | src/controllers/teeContorollers.ts:35-37 | an enum rule passes exactly when the value is one of the options, or is absent and optional |
| Schema.LengthRule | src/controllers/payments.ts:9-10 | a length rule passes exactly when the string has that JavaScript length in UTF-16 code units |
| Common.Utf16Length | src/controllers/payments.ts:9-10 | JavaScript's length lies between the number of characters and twice it |
| Common.Utf16LengthOfBmp | src/controllers/payments.ts:9-10 | for text of the Basic Multilingual Plane JavaScript's length is the number of characters |
| Common.AstralCharacterLength | src/controllers/payments.ts:9-10 | a single emoji is one character of length 2 |
| Schema.NumberRule | src/controllers/eventsControllers.ts:587-603 | a number rule passes exactly when the key is present with an admitted number, or is absent and optional |
| Schema.ObjectArrayRule | src/controllers/payments.ts:79-96 | an array of objects passes exactly when every element is an object that passes |
| Schema.ElementIssues | src/controllers/cart.ts:3-13 | the element issues are empty exactly when every element passes |
| Schema.DateRule | src/controllers/teeContorollers.ts:40 | `z.date()` reports exactly one issue for any JSON value |
| Schema.Strip | src/controllers/payments.ts:113 | parsing keeps exactly the declared keys, each with its value |

## Left out

- The routers, the Express entry points and the response plumbing. A handler's reply is its returned `Response`.
- Prisma's `include`/`select` shaping, including the nested organisation includes. The rows returned are the table rows.
- `getAllBookings`, `getEventBookings`, `getAllEvents`, `getEvent`, `deleteCart` and `createBooking`. These are plain store calls; `createBooking` uses the same schema as `updateBooking`, which refuses every body.
- The identity provider and the invitation insert. They are per-email oracles that either succeed or give an error.
- The user lookup in `src/utils.ts`. It is a parameter `getUser`.
- Store failures other than missing foreign keys and missing rows. These are the source's 500 paths.
- The Cellulant encryptor. The model stops at the record handed to it.
- Where the encryption keys come from (the process environment). They are a boolean parameter.
- The csv-parser stream mechanics. A CSV file is either readable rows or unreadable.
- The webhook route. `src/routes/payments.ts` mounts only `/encript`, so `webHookReq` is reachable from no route; the model gives the handler's behaviour when it is called.
- Zod's default message texts. They are replaced by short fixed strings; the custom messages are exact.
- JavaScript `Date` time zones and daylight saving time. Instants are milliseconds of local wall-clock time.
- IEEE floating point. JSON numbers and prices are exact reals.
- Common.NumberValue: only plain digit strings are read, whereas JavaScript's `Number()` also accepts signs, decimals, exponents and surrounding spaces.
- Store.IdOfText: ids are numbers written in decimal, whereas the source uses generated string ids.
- Bookings.OrderByTeeStart: the order of bookings whose tees start at the same instant is not fixed, as in the database.
- Bookings.HasStart: an activity counts as having a start date only when that field is a date value.
- Bookings.GetUpcomingActivities: the model returns the sorted list; the source builds it but never sends a response.
- Status `In_Review`: it appears in none of the six modelled controllers.
- Events.FirstKitPrice: `findFirst` names no order, so the row it returns is whichever the database yields first; the model takes the first matching row of the table as listed, which is the same row whenever the listed event has a single kit price row, as `listEvent` creates.
- Store.NewBooking: the `Pending` status and empty slug of a new booking are assumed column defaults; the Prisma schema that sets them is not part of this model.

## Findings

| source | as written | input that shows it | evidently intended | confidence | as-written member | corrected member |
|---|---|---|---|---|---|---|
| src/controllers/teeContorollers.ts:40 | `date: z.date()` validates a JSON request body, in which a date can only be a string | any body, e.g. `{"date": "2024-05-01", ...}` with every other field valid | read the date from its text (`z.coerce.date()` or a string parsed to a date) | not executed | Tees.TeeSchemaRefusesEveryBody | Tees.ParseTee |
| src/controllers/bookingControllers.ts:16 | `bookingDate: z.date()` validates a JSON request body, in which a date can only be a string | any body, e.g. `{"bookingDate": "2024-05-01"}` | read the date from its text | not executed | Bookings.BookingSchemaRefusesEveryBody | Bookings.ParseBooking |
| src/controllers/invitations.ts:157-168 | the route stores uploads with `multer.diskStorage`, which leaves `req.file.buffer` undefined, and the handler streams `req.file.buffer`; `Readable.from(undefined)` throws inside the promise executor | any upload with a `file` part, e.g. a CSV with one row `email` = `a@b.c` | keep the upload in memory (`multer.memoryStorage()`) or read the stored file | not executed | Invitations.CsvInviteAsRouted | Invitations.CsvInviteInMemory |
