/** The cart controller: a cart's total is the sum of price times quantity over
    its items, a price `parseFloat` cannot read counting as 0; the stored items
    carry the prices as read, and an update replaces all of a cart's items. */
module Carts {
  import opened Common
  import opened Schema
  import opened Store

  // ---------------------------------------------------------------------------
  // The request

  /** One element of `items` in a request. */
  datatype CartItem = CartItem(productId: real, name: string, price: string, quantity: int, src: string)

  const IntegerMessage: string := "Expected integer, received float"
  const NonnegativeMessage: string := "Number must be greater than or equal to 0"

  predicate IsQuantity(n: real) {
    n.Floor as real == n && n >= 0.0
  }

  /** `quantity: z.number().int().nonnegative()`: both checks run, in that order. */
  function QuantityIssues(e: Body): (issues: seq<Issue>)
    ensures issues == [] <==> "quantity" in e && e["quantity"].JNumber? && IsQuantity(e["quantity"].n)
  {
    if "quantity" in e && e["quantity"].JNumber? then
      var n := e["quantity"].n;
      (if n.Floor as real == n then [] else [Issue("quantity", IntegerMessage)])
      + (if n >= 0.0 then [] else [Issue("quantity", NonnegativeMessage)])
    else PlainNumber(e, "quantity")
  }

  function ItemIssues(e: Body): seq<Issue> {
    PlainNumber(e, "productId") + PlainString(e, "name", false) + PlainString(e, "price", false)
    + QuantityIssues(e) + PlainString(e, "src", false)
  }

  /** `CartCreateSchema`, which both `createCart` and `updateCart` apply. */
  function CartIssues(body: Body): seq<Issue> {
    ObjectArrayRule(body, "items", false, ItemIssues)
  }

  /** The item an element the schema admits describes. */
  function ItemOf(e: Body): (item: CartItem)
    requires ItemIssues(e) == []
    ensures item.quantity >= 0 && item.quantity as real == e["quantity"].n
    ensures item.price == e["price"].s && item.name == e["name"].s && item.src == e["src"].s
    ensures item.productId == e["productId"].n
  {
    assert PlainNumber(e, "productId") == [];
    assert PlainString(e, "name", false) == [];
    assert PlainString(e, "price", false) == [];
    assert QuantityIssues(e) == [];
    assert PlainString(e, "src", false) == [];
    CartItem(e["productId"].n, e["name"].s, e["price"].s, e["quantity"].n.Floor, e["src"].s)
  }

  /** The items of a validated `items` array, in order. */
  function CartItems(elements: seq<Json>): (r: seq<CartItem>)
    requires AllObjects(elements, ItemIssues)
    ensures |r| == |elements|
    ensures forall i :: 0 <= i < |r| ==> r[i] == ItemOf(elements[i].fields)
  {
    seq(|elements|, i requires 0 <= i < |elements| && AllObjects(elements, ItemIssues) => ItemOf(elements[i].fields))
  }

  /** The schema admits a body exactly when `items` is an array of well-formed
      items, and then hands over one item per element. */
  function ParseCart(body: Body): (r: Parse<seq<CartItem>>)
    ensures r.Invalid? <==> CartIssues(body) != []
    ensures r.Invalid? ==> r.issues == CartIssues(body)
    ensures r.Parsed? ==> "items" in body && body["items"].JArray? && |r.value| == |body["items"].items|
    ensures r.Parsed? ==> forall i :: 0 <= i < |r.value| ==> r.value[i].quantity >= 0
    ensures r.Parsed? ==> && "items" in body && body["items"].JArray?
                          && AllObjects(body["items"].items, ItemIssues)
                          && r.value == CartItems(body["items"].items)
  {
    var issues := CartIssues(body);
    if issues != [] then Invalid(issues)
    else Parsed(CartItems(body["items"].items))
  }

  // ---------------------------------------------------------------------------
  // Prices and totals

  /** The price an item is charged at: what `parseFloat` reads from its text, or 0
      for NaN. `parseFloat` stands for the JavaScript function, with exact reals. */
  function Price(price: string, parseFloat: string -> Option<real>): real {
    match parseFloat(price)
    case None => 0.0
    case Some(p) => p
  }

  /** `items.reduce((sum, item) => sum + price * item.quantity, 0)`, folding from the left. */
  function Total(items: seq<CartItem>, parseFloat: string -> Option<real>): (t: real)
    ensures items == [] ==> t == 0.0
    ensures (forall i :: 0 <= i < |items| ==> Price(items[i].price, parseFloat) >= 0.0 && items[i].quantity >= 0) ==> t >= 0.0
  {
    if items == [] then 0.0
    else
      var last := items[|items| - 1];
      assert forall i :: 0 <= i < |items| - 1 ==> items[..|items| - 1][i] == items[i];
      Total(items[..|items| - 1], parseFloat) + Price(last.price, parseFloat) * last.quantity as real
  }

  /** The row `items.map` builds for one item of the cart. */
  function StoredItem(cartId: Id, item: CartItem, parseFloat: string -> Option<real>): ShoppingItem {
    ShoppingItem(cartId, item.productId, item.name, Price(item.price, parseFloat), item.quantity, item.src)
  }

  /** The rows of a cart's nested item create, one per item and in order. */
  function StoredItems(cartId: Id, items: seq<CartItem>, parseFloat: string -> Option<real>): (rows: seq<ShoppingItem>)
    ensures |rows| == |items|
    ensures forall i :: 0 <= i < |rows| ==> rows[i] == StoredItem(cartId, items[i], parseFloat)
  {
    if items == [] then []
    else StoredItems(cartId, items[..|items| - 1], parseFloat) + [StoredItem(cartId, items[|items| - 1], parseFloat)]
  }

  /** The sum of price times quantity over stored rows. */
  function RowsTotal(rows: seq<ShoppingItem>): real {
    if rows == [] then 0.0 else RowsTotal(rows[1..]) + rows[0].price * rows[0].quantity as real
  }

  /** The stored total agrees with the stored rows: it is the sum of each stored
      price times its stored quantity. */
  lemma {:induction false} TotalOfStoredItems(cartId: Id, items: seq<CartItem>, parseFloat: string -> Option<real>)
    ensures Total(items, parseFloat) == RowsTotal(StoredItems(cartId, items, parseFloat))
    decreases |items|
  {
    if items != [] {
      var n := |items|;
      var front := items[..n - 1];
      var rows := StoredItems(cartId, items, parseFloat);
      TotalOfStoredItems(cartId, front, parseFloat);
      RowsTotalAppend(StoredItems(cartId, front, parseFloat), [StoredItem(cartId, items[n - 1], parseFloat)]);
    }
  }

  lemma {:induction false} RowsTotalAppend(a: seq<ShoppingItem>, b: seq<ShoppingItem>)
    ensures RowsTotal(a + b) == RowsTotal(a) + RowsTotal(b)
    decreases |a|
  {
    if a == [] {
      assert a + b == b;
    } else {
      RowsTotalAppend(a[1..], b);
      assert (a + b)[1..] == a[1..] + b;
    }
  }

  /** The fold is additive: a cart's items may be summed in two parts. */
  lemma {:induction false} TotalAppend(a: seq<CartItem>, b: seq<CartItem>, parseFloat: string -> Option<real>)
    ensures Total(a + b, parseFloat) == Total(a, parseFloat) + Total(b, parseFloat)
    decreases |b|
  {
    if b == [] {
      assert a + b == a;
    } else {
      var front, last := b[..|b| - 1], b[|b| - 1];
      assert b == front + [last];
      assert a + b == (a + front) + [last];
      TotalAppend(a, front, parseFloat);
      TotalSnoc(front, last, parseFloat);
      TotalSnoc(a + front, last, parseFloat);
    }
  }

  /** One more item adds its price times its quantity. */
  lemma TotalSnoc(items: seq<CartItem>, item: CartItem, parseFloat: string -> Option<real>)
    ensures Total(items + [item], parseFloat) == Total(items, parseFloat) + Price(item.price, parseFloat) * item.quantity as real
  {
    assert (items + [item])[..|items|] == items;
  }

  /** An item whose price cannot be read adds nothing, whatever its quantity. */
  lemma UnreadablePriceAddsNothing(items: seq<CartItem>, item: CartItem, parseFloat: string -> Option<real>)
    requires parseFloat(item.price).None?
    ensures Total(items + [item], parseFloat) == Total(items, parseFloat)
  {
    assert (items + [item])[..|items|] == items;
  }

  // ---------------------------------------------------------------------------
  // Handlers

  /** A cart with its items, as `include: { items: true }` returns it. */
  datatype CartView = CartView(cart: Cart, items: seq<ShoppingItem>)

  const NotFoundMessage: string := "Record to update not found."

  /** `createCart`: the guards, the schema, then in one transaction the cart with
      its total and its items, followed by the slug update that needs the
      generated `cartRef`. */
  method CreateCart(db: Db, token: Option<string>, getUser: string -> Option<string>, body: Body,
                    parseFloat: string -> Option<real>) returns (r: Response<CartView>)
    requires db.Valid()
    modifies db`carts, db`items, db`nextId, db`nextCartRef
    ensures db.Valid()
    ensures Authenticate(token, getUser) == Forbidden ==> r == Refused(403, "Forbidden")
    ensures Authenticate(token, getUser) == Unauthorised ==> r == Refused(401, "Unauthorised")
    ensures Authenticate(token, getUser).Caller? && ParseCart(body).Invalid? ==> r == BadRequest(CartIssues(body))
    ensures Authenticate(token, getUser).Caller? && ParseCart(body).Parsed? ==> r.Ok?
    ensures !r.Ok? ==> db.carts == old(db.carts) && db.items == old(db.items)
                       && db.nextId == old(db.nextId) && db.nextCartRef == old(db.nextCartRef)
    ensures r.Ok? ==> Authenticate(token, getUser).Caller? && ParseCart(body).Parsed?
    ensures r.Ok? ==>
              var items := ParseCart(body).value;
              var c := r.value.cart;
              && r.status == 201
              && c == Cart(old(db.nextId), old(db.nextCartRef), Authenticate(token, getUser).usersId,
                           Total(items, parseFloat), Some(Slug('C', old(db.nextCartRef))))
              && db.carts == old(db.carts)[c.id := c]
              && r.value.items == StoredItems(c.id, items, parseFloat)
              && r.value.items == RowsOf(db.items, ItemOwner, c.id)
              && db.items == old(db.items) + r.value.items
  {
    var auth := Authenticate(token, getUser);
    if auth == Forbidden {
      return Refused(403, "Forbidden");
    }
    if auth == Unauthorised {
      return Refused(401, "Unauthorised");
    }
    var parsed := ParseCart(body);
    if parsed.Invalid? {
      return BadRequest(parsed.issues);
    }
    var view := StoreCart(db, auth.usersId, parsed.value, parseFloat);
    r := Ok(201, view);
  }

  /** The writes of `createCart` once the request is admitted. */
  method StoreCart(db: Db, usersId: string, items: seq<CartItem>, parseFloat: string -> Option<real>)
    returns (view: CartView)
    requires db.Valid()
    modifies db`carts, db`items, db`nextId, db`nextCartRef
    ensures db.Valid()
    ensures view.cart == Cart(old(db.nextId), old(db.nextCartRef), usersId, Total(items, parseFloat),
                              Some(Slug('C', old(db.nextCartRef))))
    ensures db.carts == old(db.carts)[old(db.nextId) := view.cart]
    ensures view.items == StoredItems(old(db.nextId), items, parseFloat) && db.items == old(db.items) + view.items
    ensures view.items == RowsOf(db.items, ItemOwner, old(db.nextId))
    ensures db.nextId == old(db.nextId) + 1 && db.nextCartRef == old(db.nextCartRef) + 1
  {
    ghost var carts0 := db.carts;
    assert forall i :: 0 <= i < |db.items| ==> db.items[i].cartId < db.nextId;
    var c := db.AddCart(usersId, Total(items, parseFloat));
    var rows := StoredItems(c.id, items, parseFloat);
    assert forall i :: 0 <= i < |rows| ==> rows[i].cartId == c.id;
    view := FillCart(db, c, rows);
    UpdateTwice(carts0, c.id, c, view.cart);
  }

  /** A new cart's items and slug: the cart holds no item yet, so afterwards its
      items are exactly the given rows. */
  method FillCart(db: Db, c: Cart, rows: seq<ShoppingItem>) returns (view: CartView)
    requires db.Valid() && c.id in db.carts && db.carts[c.id] == c
    requires forall i :: 0 <= i < |db.items| ==> db.items[i].cartId != c.id
    requires forall i :: 0 <= i < |rows| ==> rows[i].cartId == c.id
    modifies db`carts, db`items
    ensures db.Valid()
    ensures view.cart == c.(slug := Some(Slug('C', c.cartRef)))
    ensures db.carts == old(db.carts)[c.id := view.cart]
    ensures view.items == rows && db.items == old(db.items) + rows
    ensures view.items == RowsOf(db.items, ItemOwner, c.id)
  {
    RowsOfAfter(db.items, rows, ItemOwner, c.id);
    db.AddItems(rows);
    db.SetCartSlug(c.id, Slug('C', c.cartRef));
    view := CartView(db.carts[c.id], rows);
  }

  /** `getCart`: the cart with its items, or `null` when no cart has that id. */
  function GetCart(db: Db, idParam: string): (r: Response<Option<CartView>>)
    reads db`carts, db`items
    ensures r.Ok? && r.status == 200
    ensures r.value.Some? <==> IdOfText(idParam).Some? && IdOfText(idParam).value in db.carts
    ensures r.value.Some? ==> && r.value.value.cart == db.carts[IdOfText(idParam).value]
                              && r.value.value.items == RowsOf(db.items, ItemOwner, IdOfText(idParam).value)
  {
    match IdOfText(idParam)
    case None => Ok(200, None)
    case Some(id) => if id in db.carts then Ok(200, Some(CartView(db.carts[id], RowsOf(db.items, ItemOwner, id)))) else Ok(200, None)
  }

  /** `updateCart`: the guards, the schema, then in one transaction the removal of
      every item of the cart, the new total and the request's items. A missing cart
      makes the update throw, the transaction rolls the removal back, and the answer
      is 400. The cart's owner is not checked. */
  method UpdateCart(db: Db, token: Option<string>, getUser: string -> Option<string>, idParam: string, body: Body,
                    parseFloat: string -> Option<real>) returns (r: Response<CartView>)
    requires db.Valid()
    modifies db`carts, db`items
    ensures db.Valid()
    ensures Authenticate(token, getUser) == Forbidden ==> r == Refused(403, "Forbidden")
    ensures Authenticate(token, getUser) == Unauthorised ==> r == Refused(401, "Unauthorised")
    ensures Authenticate(token, getUser).Caller? && ParseCart(body).Invalid? ==> r == BadRequest(CartIssues(body))
    ensures (&& Authenticate(token, getUser).Caller? && ParseCart(body).Parsed?
             && (IdOfText(idParam).None? || IdOfText(idParam).value !in old(db.carts)))
            ==> r == Refused(400, NotFoundMessage)
    ensures (&& Authenticate(token, getUser).Caller? && ParseCart(body).Parsed?
             && IdOfText(idParam).Some? && IdOfText(idParam).value in old(db.carts)) ==> r.Ok?
    ensures !r.Ok? ==> db.carts == old(db.carts) && db.items == old(db.items)
    ensures r.Ok? ==> Authenticate(token, getUser).Caller? && ParseCart(body).Parsed? && IdOfText(idParam).Some?
    ensures r.Ok? ==>
              var items := ParseCart(body).value;
              var id := IdOfText(idParam).value;
              && r.status == 200
              && id in old(db.carts)
              && r.value.cart == old(db.carts)[id].(total := Total(items, parseFloat))
              && db.carts == old(db.carts)[id := r.value.cart]
              && r.value.items == StoredItems(id, items, parseFloat)
              && r.value.items == RowsOf(db.items, ItemOwner, id)
              && db.items == RowsNotOf(old(db.items), ItemOwner, id) + r.value.items
  {
    var auth := Authenticate(token, getUser);
    if auth == Forbidden {
      return Refused(403, "Forbidden");
    }
    if auth == Unauthorised {
      return Refused(401, "Unauthorised");
    }
    var parsed := ParseCart(body);
    if parsed.Invalid? {
      return BadRequest(parsed.issues);
    }
    var id := IdOfText(idParam);
    if id.None? || id.value !in db.carts {
      return Refused(400, NotFoundMessage);
    }
    var view := ReplaceItems(db, id.value, parsed.value, parseFloat);
    r := Ok(200, view);
  }

  /** The writes of `updateCart` on an existing cart. */
  method ReplaceItems(db: Db, id: Id, items: seq<CartItem>, parseFloat: string -> Option<real>) returns (view: CartView)
    requires db.Valid() && id in db.carts
    modifies db`carts, db`items
    ensures db.Valid()
    ensures view.cart == old(db.carts)[id].(total := Total(items, parseFloat))
    ensures db.carts == old(db.carts)[id := view.cart]
    ensures view.items == StoredItems(id, items, parseFloat) && view.items == RowsOf(db.items, ItemOwner, id)
    ensures db.items == RowsNotOf(old(db.items), ItemOwner, id) + view.items
  {
    db.DeleteItems(id);
    var kept := db.items;
    db.SetCartTotal(id, Total(items, parseFloat));
    var rows := StoredItems(id, items, parseFloat);
    assert forall i :: 0 <= i < |rows| ==> rows[i].cartId == id;
    db.AddItems(rows);
    RowsOfAfter(kept, rows, ItemOwner, id);
    view := CartView(db.carts[id], rows);
  }
}
