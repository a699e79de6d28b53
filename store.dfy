/** The relational store the controllers share (the Prisma client): one class whose
    fields are the tables the core touches. Handlers receive it as `db` and name in
    their `modifies` clauses exactly the tables they write. */
module Store {
  import opened Common

  /** Row identifiers (cuids in the database) are drawn from a counter. */
  type Id = nat

  /** The status shared by bookings and payments. */
  datatype Status = Pending | Completed | Failed | Refunded | Partial | Expired | Received | Rejected | Accepted

  datatype Booking = Booking(
    id: Id,
    bookingRef: nat,          // autoincremented, unique
    usersId: string,
    status: Status,
    slug: Option<string>,
    eventId: Option<Id>,
    classId: Option<Id>,
    tournamentId: Option<Id>,
    teeId: Option<Id>,
    sessionId: Option<string>,
    bookingDate: Option<Instant>)

  /** A new booking row: no linked activity yet, and the status `Pending` and empty
      slug taken to be the table's column defaults. */
  function NewBooking(id: Id, bookingRef: nat, usersId: string): (b: Booking)
    ensures b.id == id && b.bookingRef == bookingRef && b.usersId == usersId
    ensures b.status == Pending && b.slug == None
  {
    Booking(id, bookingRef, usersId, Pending, None, None, None, None, None, None, None)
  }

  /** Ids travel in request bodies and paths as text; the store writes them in
      decimal, so a text names a row exactly when it is the decimal writing of its id. */
  function IdOfText(s: string): (r: Option<Id>)
    ensures r.Some? ==> s == NatToString(r.value)
  {
    if s != [] && (forall i :: 0 <= i < |s| ==> IsDigit(s[i])) && s == NatToString(DigitsValue(s))
    then Some(DigitsValue(s)) else None
  }

  lemma IdOfTextOfId(id: Id)
    ensures IdOfText(NatToString(id)) == Some(id)
  {
    DigitsValueOfNatToString(id);
  }

  /** The slug of a booking or cart: a one-letter prefix, a dash and the reference number. */
  function Slug(prefix: char, ref: nat): (s: string)
    ensures |s| >= 3 && s[0] == prefix && s[1] == '-' && s[2..] == NatToString(ref)
  {
    [prefix, '-'] + NatToString(ref)
  }

  /** Different prefixes or different references never share a slug. */
  lemma SlugInjective(p: char, a: nat, q: char, b: nat)
    requires Slug(p, a) == Slug(q, b)
    ensures p == q && a == b
  {
    assert Slug(p, a)[2..] == Slug(q, b)[2..];
    NatToStringInjective(a, b);
  }

  datatype Payment = Payment(id: Id, bookingId: Id, status: Status)

  datatype Event = Event(id: Id, startDate: Instant, holes: string, kit: string, listedEventId: Id, packageId: Id)

  datatype Tee = Tee(
    id: Id, holes: string, kit: string, isExistingGame: string,
    organizationId: string, date: Instant, startTime: string, startDate: Instant)

  datatype ListedEvent = ListedEvent(
    id: Id, name: string, location: string, description: string,
    image: Option<string>, startDate: Option<Instant>, kind: string)

  datatype HolesPrice = HolesPrice(listedEventId: Id, numberOfHoles: string, amount: real)

  datatype KitPrice = KitPrice(listedEventId: Id, amount: real)

  datatype Cart = Cart(id: Id, cartRef: nat, usersId: string, total: real, slug: Option<string>)

  datatype ShoppingItem = ShoppingItem(cartId: Id, productId: real, name: string, price: real, quantity: int, src: string)

  datatype Invitation = Invitation(email: string, status: string)

  /** A column value of a row as the handlers see it after a fetch. */
  datatype Val = Null | Date(at: Instant) | Text(s: string) | Num(n: real) | Ref(id: Id)

  /** A fetched row as a JavaScript object: column name to value. */
  type Record = map<string, Val>

  /** The key sets of the tables a booking links to. */
  datatype Targets = Targets(events: set<Id>, classes: set<Id>, tournaments: set<Id>, tees: set<Id>)

  ghost predicate LinkedTo(b: Booking, t: Targets) {
    && (b.eventId.Some? ==> b.eventId.value in t.events)
    && (b.classId.Some? ==> b.classId.value in t.classes)
    && (b.tournamentId.Some? ==> b.tournamentId.value in t.tournaments)
    && (b.teeId.Some? ==> b.teeId.value in t.tees)
  }

  /** Booking ids and references are unique and below the counters, and every
      link points at an existing row. */
  ghost predicate BookingRows(bs: seq<Booking>, nextId: Id, nextRef: nat, t: Targets) {
    && (forall i :: 0 <= i < |bs| ==> bs[i].id < nextId && 0 < bs[i].bookingRef < nextRef && LinkedTo(bs[i], t))
    && (forall i, j :: 0 <= i < j < |bs| ==> bs[i].id != bs[j].id && bs[i].bookingRef != bs[j].bookingRef)
  }

  /** A row with the next reference and a newer id keeps the rows valid. */
  lemma AppendBookingRow(bs: seq<Booking>, b: Booking, nextId: Id, nextRef: nat, t: Targets)
    requires BookingRows(bs, nextId, nextRef, t)
    requires b.id < nextId && b.bookingRef == nextRef && 0 < nextRef && LinkedTo(b, t)
    requires forall i :: 0 <= i < |bs| ==> bs[i].id < b.id
    ensures BookingRows(bs + [b], nextId, nextRef + 1, t)
  {
    var bs' := bs + [b];
    forall i | 0 <= i < |bs'|
      ensures bs'[i].id < nextId && 0 < bs'[i].bookingRef < nextRef + 1 && LinkedTo(bs'[i], t)
    {
      if i < |bs| { assert bs'[i] == bs[i]; }
    }
    forall i, j | 0 <= i < j < |bs'|
      ensures bs'[i].id != bs'[j].id && bs'[i].bookingRef != bs'[j].bookingRef
    {
      assert bs'[i] == bs[i];
      if j < |bs| { assert bs'[j] == bs[j]; }
    }
  }

  /** A row rewritten without touching its keys or links keeps the rows valid. */
  lemma ReplaceBookingRow(bs: seq<Booking>, i: nat, b: Booking, nextId: Id, nextRef: nat, t: Targets)
    requires BookingRows(bs, nextId, nextRef, t) && i < |bs|
    requires b.id == bs[i].id && b.bookingRef == bs[i].bookingRef && LinkedTo(b, t)
    ensures BookingRows(bs[i := b], nextId, nextRef, t)
  {
  }

  class Db {
    var bookings: seq<Booking>            // in insertion order
    var payments: map<Id, Payment>        // keyed by the unique bookingId
    var events: map<Id, Event>
    var packages: map<Id, real>           // package id to package amount
    var listedEvents: map<Id, ListedEvent>
    var holesPrices: seq<HolesPrice>
    var kitPrices: seq<KitPrice>
    var tees: map<Id, Tee>
    var organisations: set<string>
    var classes: map<Id, Record>
    var tournaments: map<Id, Record>
    var carts: map<Id, Cart>
    var items: seq<ShoppingItem>
    var invitations: seq<Invitation>
    var nextId: Id
    var nextBookingRef: nat
    var nextCartRef: nat

    /** The rows a booking's links may point at. */
    ghost function LinkTargets(): Targets
      reads this`events, this`classes, this`tournaments, this`tees
    {
      Targets(events.Keys, classes.Keys, tournaments.Keys, tees.Keys)
    }

    ghost predicate BookingsValid()
      reads this`bookings, this`nextId, this`nextBookingRef, this`events, this`classes, this`tournaments, this`tees
    {
      0 < nextBookingRef && BookingRows(bookings, nextId, nextBookingRef, LinkTargets())
    }

    /** Every other table is keyed below the id counter. */
    ghost predicate TablesValid()
      reads this`events, this`tees, this`listedEvents, this`nextCartRef, this`carts, this`nextId,
            this`holesPrices, this`kitPrices, this`items
    {
      && (forall k :: k in events ==> k < nextId && events[k].id == k)
      && (forall k :: k in tees ==> k < nextId && tees[k].id == k)
      && (forall k :: k in listedEvents ==> k < nextId && listedEvents[k].id == k)
      && 0 < nextCartRef
      && (forall k :: k in carts ==> k < nextId && carts[k].id == k && 0 < carts[k].cartRef < nextCartRef)
      && (forall i :: 0 <= i < |holesPrices| ==> holesPrices[i].listedEventId < nextId)
      && (forall i :: 0 <= i < |kitPrices| ==> kitPrices[i].listedEventId < nextId)
      && (forall i :: 0 <= i < |items| ==> items[i].cartId < nextId)
    }

    ghost predicate Valid()
      reads this`bookings, this`nextId, this`nextBookingRef, this`events, this`classes, this`tournaments, this`tees,
            this`listedEvents, this`nextCartRef, this`carts, this`holesPrices, this`kitPrices, this`items
    {
      BookingsValid() && TablesValid()
    }

    /** An empty database; autoincrement columns start at 1. */
    constructor ()
      ensures Valid()
      ensures bookings == [] && payments == map[] && events == map[] && packages == map[]
      ensures listedEvents == map[] && holesPrices == [] && kitPrices == [] && tees == map[]
      ensures organisations == {} && classes == map[] && tournaments == map[]
      ensures carts == map[] && items == [] && invitations == []
      ensures nextId == 0 && nextBookingRef == 1 && nextCartRef == 1
    {
      bookings, payments, events, packages := [], map[], map[], map[];
      listedEvents, holesPrices, kitPrices, tees := map[], [], [], map[];
      organisations, classes, tournaments := {}, map[], map[];
      carts, items, invitations := map[], [], [];
      nextId, nextBookingRef, nextCartRef := 0, 1, 1;
    }

    /** `booking.update({ data: { status } })` on the row at position `i`. */
    method SetBookingStatus(i: nat, status: Status)
      requires Valid() && i < |bookings|
      modifies this`bookings
      ensures Valid()
      ensures bookings == old(bookings)[i := old(bookings)[i].(status := status)]
    {
      ReplaceBookingRow(bookings, i, bookings[i].(status := status), nextId, nextBookingRef, LinkTargets());
      bookings := bookings[i := bookings[i].(status := status)];
    }

    /** The slug update that follows a booking's creation. */
    method SetBookingSlug(i: nat, slug: string)
      requires Valid() && i < |bookings|
      modifies this`bookings
      ensures Valid()
      ensures bookings == old(bookings)[i := old(bookings)[i].(slug := Some(slug))]
    {
      ReplaceBookingRow(bookings, i, bookings[i].(slug := Some(slug)), nextId, nextBookingRef, LinkTargets());
      bookings := bookings[i := bookings[i].(slug := Some(slug))];
    }

    /** `booking.update` rewriting other columns of the row at position `i`: the keys
        stay, and every link must name an existing row. */
    method ReplaceBooking(i: nat, b: Booking)
      requires Valid() && i < |bookings|
      requires b.id == bookings[i].id && b.bookingRef == bookings[i].bookingRef && LinkedTo(b, LinkTargets())
      modifies this`bookings
      ensures Valid()
      ensures bookings == old(bookings)[i := b]
    {
      ReplaceBookingRow(bookings, i, b, nextId, nextBookingRef, LinkTargets());
      bookings := bookings[i := b];
    }

    /** A new id, as the database default generates one for each created row. */
    method FreshId() returns (id: Id)
      requires Valid()
      modifies this`nextId
      ensures Valid()
      ensures id == old(nextId) && nextId == id + 1
      ensures forall i :: 0 <= i < |bookings| ==> bookings[i].id < id
    {
      id := nextId;
      nextId := nextId + 1;
    }

    /** `booking.create`: a `Pending` booking with the next id and `bookingRef`,
        linked to the given rows, which must exist. */
    method AddBooking(usersId: string, eventId: Option<Id>, classId: Option<Id>, tournamentId: Option<Id>, teeId: Option<Id>)
      returns (b: Booking)
      requires Valid()
      requires eventId.Some? ==> eventId.value in events
      requires classId.Some? ==> classId.value in classes
      requires tournamentId.Some? ==> tournamentId.value in tournaments
      requires teeId.Some? ==> teeId.value in tees
      modifies this`bookings, this`nextId, this`nextBookingRef
      ensures Valid()
      ensures b == NewBooking(old(nextId), old(nextBookingRef), usersId)
                     .(eventId := eventId, classId := classId, tournamentId := tournamentId, teeId := teeId)
      ensures bookings == old(bookings) + [b]
      ensures nextId == old(nextId) + 1 && nextBookingRef == old(nextBookingRef) + 1
    {
      var id := FreshId();
      b := NewBooking(id, nextBookingRef, usersId)
             .(eventId := eventId, classId := classId, tournamentId := tournamentId, teeId := teeId);
      AppendBooking(b);
    }

    /** Appends a booking row carrying the next `bookingRef` and an id newer than every booking's. */
    method AppendBooking(b: Booking)
      requires Valid() && b.id < nextId && b.bookingRef == nextBookingRef && LinkedTo(b, LinkTargets())
      requires forall i :: 0 <= i < |bookings| ==> bookings[i].id < b.id
      modifies this`bookings, this`nextBookingRef
      ensures Valid()
      ensures bookings == old(bookings) + [b] && nextBookingRef == old(nextBookingRef) + 1
    {
      AppendBookingRow(bookings, b, nextId, nextBookingRef, LinkTargets());
      bookings := bookings + [b];
      nextBookingRef := nextBookingRef + 1;
    }

    /** `event.create` with the next id. */
    method AddEvent(startDate: Instant, holes: string, kit: string, listedEventId: Id, packageId: Id) returns (e: Event)
      requires Valid()
      modifies this`events, this`nextId
      ensures Valid()
      ensures e == Event(old(nextId), startDate, holes, kit, listedEventId, packageId)
      ensures events == old(events)[e.id := e] && nextId == old(nextId) + 1
    {
      e := Event(nextId, startDate, holes, kit, listedEventId, packageId);
      events := events[e.id := e];
      nextId := nextId + 1;
    }

    /** `event.update` of an existing row. */
    method ReplaceEvent(e: Event)
      requires Valid() && e.id in events
      modifies this`events
      ensures Valid()
      ensures events == old(events)[e.id := e]
    {
      events := events[e.id := e];
    }

    /** `tee.create` with the next id. */
    method AddTee(holes: string, kit: string, isExistingGame: string, organizationId: string,
                  date: Instant, startTime: string, startDate: Instant) returns (t: Tee)
      requires Valid()
      modifies this`tees, this`nextId
      ensures Valid()
      ensures t == Tee(old(nextId), holes, kit, isExistingGame, organizationId, date, startTime, startDate)
      ensures tees == old(tees)[t.id := t] && nextId == old(nextId) + 1
    {
      t := Tee(nextId, holes, kit, isExistingGame, organizationId, date, startTime, startDate);
      tees := tees[t.id := t];
      nextId := nextId + 1;
    }

    /** `listedEvent.create` with the next id. */
    method AddListedEvent(name: string, location: string, description: string, image: Option<string>,
                          startDate: Option<Instant>, kind: string) returns (l: ListedEvent)
      requires Valid()
      modifies this`listedEvents, this`nextId
      ensures Valid()
      ensures l == ListedEvent(old(nextId), name, location, description, image, startDate, kind)
      ensures listedEvents == old(listedEvents)[l.id := l] && nextId == old(nextId) + 1
    {
      l := ListedEvent(nextId, name, location, description, image, startDate, kind);
      listedEvents := listedEvents[l.id := l];
      nextId := nextId + 1;
    }

    /** `listedEvent.update` of an existing row. */
    method ReplaceListedEvent(l: ListedEvent)
      requires Valid() && l.id in listedEvents
      modifies this`listedEvents
      ensures Valid()
      ensures listedEvents == old(listedEvents)[l.id := l]
    {
      listedEvents := listedEvents[l.id := l];
    }

    /** `holesPrices.create` for an existing listed event. */
    method AddHolesPrice(row: HolesPrice)
      requires Valid() && row.listedEventId in listedEvents
      modifies this`holesPrices
      ensures Valid()
      ensures holesPrices == old(holesPrices) + [row]
    {
      holesPrices := holesPrices + [row];
    }

    /** `holesPrices.deleteMany({ where: { listedEventId } })`. */
    method DeleteHolesPrices(listedEventId: Id)
      requires Valid()
      modifies this`holesPrices
      ensures Valid()
      ensures holesPrices == RowsNotOf(old(holesPrices), HolesPriceOwner, listedEventId)
    {
      RowsNotOfMembers(holesPrices, HolesPriceOwner, listedEventId);
      holesPrices := RowsNotOf(holesPrices, HolesPriceOwner, listedEventId);
      assert forall i :: 0 <= i < |holesPrices| ==> holesPrices[i] in old(holesPrices);
    }

    /** `kitPrices.create` for an existing listed event. */
    method AddKitPrice(row: KitPrice)
      requires Valid() && row.listedEventId in listedEvents
      modifies this`kitPrices
      ensures Valid()
      ensures kitPrices == old(kitPrices) + [row]
    {
      kitPrices := kitPrices + [row];
    }

    /** `kitPrices.updateMany({ where: { listedEventId }, data: { amount } })`. */
    method SetKitAmounts(listedEventId: Id, amount: real)
      requires Valid()
      modifies this`kitPrices
      ensures Valid()
      ensures kitPrices == WithKitAmount(old(kitPrices), listedEventId, amount)
    {
      kitPrices := WithKitAmount(kitPrices, listedEventId, amount);
    }

    /** `cart.create` with the next id and `cartRef`, and no slug yet. */
    method AddCart(usersId: string, total: real) returns (c: Cart)
      requires Valid()
      modifies this`carts, this`nextId, this`nextCartRef
      ensures Valid()
      ensures c == Cart(old(nextId), old(nextCartRef), usersId, total, None)
      ensures carts == old(carts)[c.id := c]
      ensures nextId == old(nextId) + 1 && nextCartRef == old(nextCartRef) + 1
    {
      c := Cart(nextId, nextCartRef, usersId, total, None);
      carts := carts[c.id := c];
      nextId := nextId + 1;
      nextCartRef := nextCartRef + 1;
    }

    /** `cart.update({ data: { slug } })` of an existing cart. */
    method SetCartSlug(id: Id, slug: string)
      requires Valid() && id in carts
      modifies this`carts
      ensures Valid()
      ensures carts == old(carts)[id := old(carts)[id].(slug := Some(slug))]
    {
      carts := carts[id := carts[id].(slug := Some(slug))];
    }

    /** `cart.update({ data: { total } })` of an existing cart. */
    method SetCartTotal(id: Id, total: real)
      requires Valid() && id in carts
      modifies this`carts
      ensures Valid()
      ensures carts == old(carts)[id := old(carts)[id].(total := total)]
    {
      carts := carts[id := carts[id].(total := total)];
    }

    /** The nested `items: { create: [...] }` of a cart write: the rows, in order, for existing carts. */
    method AddItems(rows: seq<ShoppingItem>)
      requires Valid() && forall i :: 0 <= i < |rows| ==> rows[i].cartId in carts
      modifies this`items
      ensures Valid()
      ensures items == old(items) + rows
    {
      items := items + rows;
    }

    /** `shoppingItem.deleteMany({ where: { cartId } })`. */
    method DeleteItems(cartId: Id)
      requires Valid()
      modifies this`items
      ensures Valid()
      ensures items == RowsNotOf(old(items), ItemOwner, cartId)
    {
      RowsNotOfMembers(items, ItemOwner, cartId);
      items := RowsNotOf(items, ItemOwner, cartId);
      assert forall i :: 0 <= i < |items| ==> items[i] in old(items);
    }

    /** `invitation.create({ data: { email, status } })`. */
    method AddInvitation(email: string, status: string) returns (inv: Invitation)
      modifies this`invitations
      ensures inv == Invitation(email, status) && invitations == old(invitations) + [inv]
    {
      inv := Invitation(email, status);
      invitations := invitations + [inv];
    }

    /** `payment.update({ where: { bookingId }, data: { status } })`. */
    method SetPaymentStatus(bookingId: Id, status: Status)
      requires Valid() && bookingId in payments
      modifies this`payments
      ensures Valid()
      ensures payments == old(payments)[bookingId := old(payments)[bookingId].(status := status)]
    {
      payments := payments[bookingId := payments[bookingId].(status := status)];
    }
  }

  /** A second write to the same key replaces the first. */
  lemma UpdateTwice<K, V>(m: map<K, V>, k: K, v: V, w: V)
    ensures m[k := v][k := w] == m[k := w]
  {
  }

  /** The position of the booking with the given `bookingRef` (a unique column). */
  function IndexOfRef(bookings: seq<Booking>, bookingRef: int): (r: Option<nat>)
    ensures r.Some? ==> r.value < |bookings| && bookings[r.value].bookingRef == bookingRef
    ensures r.None? ==> forall i :: 0 <= i < |bookings| ==> bookings[i].bookingRef != bookingRef
  {
    if bookings == [] then None
    else if bookings[|bookings| - 1].bookingRef == bookingRef then Some(|bookings| - 1)
    else IndexOfRef(bookings[..|bookings| - 1], bookingRef)
  }

  // ---------------------------------------------------------------------------
  // Row filters of the price tables

  /** The rows of `updateMany` on one listed event's kit prices. */
  function WithKitAmount(rows: seq<KitPrice>, listedEventId: Id, amount: real): (r: seq<KitPrice>)
    ensures |r| == |rows|
    ensures forall i :: 0 <= i < |rows| ==>
              r[i] == if rows[i].listedEventId == listedEventId then rows[i].(amount := amount) else rows[i]
  {
    if rows == [] then []
    else WithKitAmount(rows[..|rows| - 1], listedEventId, amount)
         + [if rows[|rows| - 1].listedEventId == listedEventId then rows[|rows| - 1].(amount := amount) else rows[|rows| - 1]]
  }

  // ---------------------------------------------------------------------------
  // Rows that name their owner: holes prices their listed event, items their cart

  function HolesPriceOwner(row: HolesPrice): Id {
    row.listedEventId
  }

  function ItemOwner(row: ShoppingItem): Id {
    row.cartId
  }

  /** The rows whose `owner` column is `id`, in insertion order: what
      `include` of the relation or `findMany({ where })` hands back. */
  function RowsOf<R>(rows: seq<R>, owner: R -> Id, id: Id): (r: seq<R>)
    ensures |r| <= |rows|
    ensures forall i :: 0 <= i < |r| ==> owner(r[i]) == id
  {
    if rows == [] then []
    else RowsOf(rows[..|rows| - 1], owner, id) + (if owner(rows[|rows| - 1]) == id then [rows[|rows| - 1]] else [])
  }

  /** The rows `deleteMany({ where })` on one owner leaves behind, in insertion order. */
  function RowsNotOf<R>(rows: seq<R>, owner: R -> Id, id: Id): (r: seq<R>)
    ensures |r| <= |rows|
    ensures forall i :: 0 <= i < |r| ==> owner(r[i]) != id
  {
    if rows == [] then []
    else RowsNotOf(rows[..|rows| - 1], owner, id) + (if owner(rows[|rows| - 1]) != id then [rows[|rows| - 1]] else [])
  }

  /** `deleteMany` keeps exactly the rows of the other owners. */
  lemma {:induction false} RowsNotOfMembers<R>(rows: seq<R>, owner: R -> Id, id: Id)
    ensures forall x :: x in RowsNotOf(rows, owner, id) <==> x in rows && owner(x) != id
    decreases |rows|
  {
    if rows != [] {
      var n := |rows|;
      RowsNotOfMembers(rows[..n - 1], owner, id);
      assert rows == rows[..n - 1] + [rows[n - 1]];
    }
  }

  /** Selecting one owner's rows distributes over appending rows. */
  lemma {:induction false} RowsOfAppend<R>(a: seq<R>, b: seq<R>, owner: R -> Id, id: Id)
    ensures RowsOf(a + b, owner, id) == RowsOf(a, owner, id) + RowsOf(b, owner, id)
    decreases |b|
  {
    if b != [] {
      var n := |b|;
      RowsOfAppend(a, b[..n - 1], owner, id);
      assert (a + b)[..|a + b| - 1] == a + b[..n - 1];
      assert (a + b)[|a + b| - 1] == b[n - 1];
    } else {
      assert a + b == a;
    }
  }

  /** Rows that all belong to one owner are all selected. */
  lemma {:induction false} RowsOfOwnRows<R>(rows: seq<R>, owner: R -> Id, id: Id)
    requires forall i :: 0 <= i < |rows| ==> owner(rows[i]) == id
    ensures RowsOf(rows, owner, id) == rows
    decreases |rows|
  {
    if rows != [] {
      var front := rows[..|rows| - 1];
      RowsOfOwnRows(front, owner, id);
      assert rows == front + [rows[|rows| - 1]];
    }
  }

  /** Rows of other owners are none of them selected. */
  lemma {:induction false} RowsOfOtherRows<R>(rows: seq<R>, owner: R -> Id, id: Id)
    requires forall i :: 0 <= i < |rows| ==> owner(rows[i]) != id
    ensures RowsOf(rows, owner, id) == []
    decreases |rows|
  {
    if rows != [] {
      RowsOfOtherRows(rows[..|rows| - 1], owner, id);
    }
  }

  /** After `deleteMany` on one owner, that owner has no rows and every other
      owner keeps its rows, in order. */
  lemma {:induction false} RowsOfNotOf<R>(rows: seq<R>, owner: R -> Id, id: Id, other: Id)
    ensures RowsOf(RowsNotOf(rows, owner, id), owner, other) == if other == id then [] else RowsOf(rows, owner, other)
    decreases |rows|
  {
    if rows != [] {
      var n := |rows|;
      var kept := RowsNotOf(rows, owner, id);
      var prefix := RowsNotOf(rows[..n - 1], owner, id);
      RowsOfNotOf(rows[..n - 1], owner, id, other);
      var last := rows[n - 1];
      if owner(last) != id {
        assert kept == prefix + [last];
        assert kept[..|kept| - 1] == prefix && kept[|kept| - 1] == last;
      } else {
        assert kept == prefix;
      }
    }
  }

  /** Appending one owner's rows after rows of other owners: that owner's rows are exactly the appended ones. */
  lemma RowsOfAfter<R>(kept: seq<R>, rows: seq<R>, owner: R -> Id, id: Id)
    requires forall i :: 0 <= i < |kept| ==> owner(kept[i]) != id
    requires forall i :: 0 <= i < |rows| ==> owner(rows[i]) == id
    ensures RowsOf(kept + rows, owner, id) == rows
  {
    RowsOfAppend(kept, rows, owner, id);
    RowsOfOtherRows(kept, owner, id);
    RowsOfOwnRows(rows, owner, id);
  }
}
