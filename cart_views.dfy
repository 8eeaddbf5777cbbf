/** The cart endpoints of products/views.py. The rules are first given as
    functions from the tables before a request to the tables after it and
    the response; the `Store` class then performs each request step by
    step, as the view does, and is proved to agree with those functions. */
module CartViews {
  import opened Common
  import opened Models
  import opened Serializers

  /** The status and body of a cart response: 200 with the cart, or a 400 /
      404 with its `detail` message. */
  datatype Response = Ok(view: CartView) | Err400(detail: string) | Err404(detail: string)

  // ---------------------------------------------------------------------
  // Lookups over the line table
  // ---------------------------------------------------------------------

  /** The line of `cart` for `product` among the ids below `n`
      (`CartItem.objects.get(cart=..., product=...)`). */
  function FindLine(items: map<ItemId, CartItem>, n: nat, cart: CartId, product: ProductId): (r: Option<ItemId>)
    ensures r.Some? ==>
      r.value < n && r.value in items && items[r.value].cart == cart && items[r.value].product == product
    ensures r.None? ==> forall i :: i in items && i < n ==>
      !(items[i].cart == cart && items[i].product == product)
    decreases n
  {
    if n == 0 then None
    else if n - 1 in items && items[n - 1].cart == cart && items[n - 1].product == product then Some(n - 1)
    else FindLine(items, n - 1, cart, product)
  }

  /** The quantity the cart holds of a product: that of its line, 0 without one. */
  function HeldQty(db: Tables, cart: CartId, product: ProductId): nat
  {
    match FindLine(db.items, db.nextItem, cart, product)
    case Some(i) => db.items[i].qty
    case None => 0
  }

  /** The ids of the lines of `cart` below `n`, in ascending order. */
  function CartItemIds(items: map<ItemId, CartItem>, n: nat, cart: CartId): (ids: seq<ItemId>)
    ensures forall i :: i in ids <==> i in items && i < n && items[i].cart == cart
    ensures forall a, b :: 0 <= a < b < |ids| ==> ids[a] < ids[b]
    decreases n
  {
    if n == 0 then []
    else
      var init := CartItemIds(items, n - 1, cart);
      assert forall k :: 0 <= k < |init| ==> init[k] < n - 1 by {
        forall k | 0 <= k < |init| ensures init[k] < n - 1 { assert init[k] in init; }
      }
      if n - 1 in items && items[n - 1].cart == cart then init + [n - 1] else init
  }

  /** A stored line joined with the product row as it is now. */
  function LiveRow(db: Tables, i: ItemId): CartRow
    requires Valid(db) && i in db.items
  {
    CartRow(i, db.items[i].qty, db.products[db.items[i].product])
  }

  /** The cart's lines joined with the current product rows
      (`cart.items.select_related("product")`), in ascending line id. */
  function CartRows(db: Tables, cart: CartId): (rows: seq<CartRow>)
    requires Valid(db)
    ensures forall k :: 0 <= k < |rows| ==>
      rows[k].id in db.items && db.items[rows[k].id].cart == cart && rows[k] == LiveRow(db, rows[k].id)
    ensures forall i :: i in db.items && db.items[i].cart == cart ==>
      exists k :: 0 <= k < |rows| && rows[k].id == i
    ensures forall a, b :: 0 <= a < b < |rows| ==> rows[a].id < rows[b].id
  {
    var ids := CartItemIds(db.items, db.nextItem, cart);
    var rows := seq(|ids|, k requires 0 <= k < |ids| => LiveRow(db, ids[k]));
    forall i | i in db.items && db.items[i].cart == cart
      ensures exists k :: 0 <= k < |rows| && rows[k].id == i
    {
      var k :| 0 <= k < |ids| && ids[k] == i;
      assert rows[k].id == i;
    }
    rows
  }

  /** `CartSerializer(cart).data` over the current tables: one line per
      stored line of the cart, each priced from the product as it is now. */
  function View(db: Tables, cart: CartId): (v: CartView)
    requires Valid(db)
    ensures v.id == cart
    ensures forall k :: 0 <= k < |v.items| ==>
      v.items[k].id in db.items && db.items[v.items[k].id].cart == cart &&
      v.items[k] == SerializeItem(LiveRow(db, v.items[k].id))
    ensures forall i :: i in db.items && db.items[i].cart == cart ==>
      exists k :: 0 <= k < |v.items| && v.items[k].id == i
    ensures forall a, b :: 0 <= a < b < |v.items| ==> v.items[a].id < v.items[b].id
    ensures v.total == SumLineTotals(v.items)
  {
    var rows := CartRows(db, cart);
    var v := SerializeCart(cart, rows);
    ViewLines(db, cart, rows, v);
    ViewOrder(rows, v);
    v
  }

  lemma ViewLines(db: Tables, cart: CartId, rows: seq<CartRow>, v: CartView)
    requires Valid(db) && rows == CartRows(db, cart) && v == SerializeCart(cart, rows)
    ensures forall k :: 0 <= k < |v.items| ==>
      v.items[k].id in db.items && db.items[v.items[k].id].cart == cart &&
      v.items[k] == SerializeItem(LiveRow(db, v.items[k].id))
    ensures forall i :: i in db.items && db.items[i].cart == cart ==>
      exists k :: 0 <= k < |v.items| && v.items[k].id == i
  {
    forall k | 0 <= k < |v.items|
      ensures v.items[k].id in db.items && db.items[v.items[k].id].cart == cart
      ensures v.items[k] == SerializeItem(LiveRow(db, v.items[k].id))
    {
      assert v.items[k] == SerializeItem(rows[k]);
      assert rows[k] == LiveRow(db, rows[k].id);
    }
    forall i | i in db.items && db.items[i].cart == cart
      ensures exists k :: 0 <= k < |v.items| && v.items[k].id == i
    {
      var k :| 0 <= k < |rows| && rows[k].id == i;
      assert v.items[k].id == i;
    }
  }

  /** The response lists the rows in their order, so each line at most once. */
  lemma ViewOrder(rows: seq<CartRow>, v: CartView)
    requires forall a, b :: 0 <= a < b < |rows| ==> rows[a].id < rows[b].id
    requires |v.items| == |rows| && forall k :: 0 <= k < |rows| ==> v.items[k] == SerializeItem(rows[k])
    ensures forall a, b :: 0 <= a < b < |v.items| ==> v.items[a].id < v.items[b].id
  {
    forall a, b | 0 <= a < b < |v.items| ensures v.items[a].id < v.items[b].id {
      assert v.items[a].id == rows[a].id && v.items[b].id == rows[b].id;
    }
  }

  // ---------------------------------------------------------------------
  // The request handlers as functions of the tables
  // ---------------------------------------------------------------------

  /** `get_or_create_cart` as a function of the tables: the user's cart,
      created empty on first use. */
  function CartFor(db: Tables, user: UserId): (r: (Tables, CartId))
    requires Valid(db)
    ensures Valid(r.0)
    ensures user in r.0.carts && r.0.carts[user] == r.1
    ensures user in db.carts ==> r.0 == db
    ensures user !in db.carts ==> r.1 !in db.carts.Values && r.0.carts == db.carts[user := r.1]
    ensures r.0.products == db.products && r.0.items == db.items && r.0.nextItem == db.nextItem
  {
    if user in db.carts then (db, db.carts[user])
    else
      var c := db.nextCart;
      var db' := db.(carts := db.carts[user := c], nextCart := c + 1);
      assert OneCartPerUser(db') by {
        forall u, v | u in db'.carts && v in db'.carts && db'.carts[u] == db'.carts[v]
          ensures u == v
        {
          if u != user && v != user { assert db.carts[u] == db.carts[v]; }
        }
      }
      assert ItemsWellFormed(db') by {
        forall i | i in db'.items ensures db'.items[i].cart in db'.carts.Values {
          var u :| u in db.carts && db.carts[u] == db.items[i].cart;
          assert db'.carts[u] == db.items[i].cart;
        }
      }
      (db', c)
  }

  /** `product_id` is missing or falsy. */
  predicate IsFalsyId(productId: Option<int>)
  {
    productId.None? || productId.value == 0
  }

  /** The product is a row of the table with `is_active` set. */
  predicate IsActiveProduct(db: Tables, id: int)
  {
    id >= 0 && id in db.products && db.products[id].isActive
  }

  /** Going from `before` to `after`, no line is deleted, no line changes
      other than in the quantity of the line of `cart` for `pid`, and a line
      that appears is a line of `cart` for `pid`. */
  ghost predicate OnlyLineChanged(before: map<ItemId, CartItem>, after: map<ItemId, CartItem>,
                                  cart: CartId, pid: ProductId)
  {
    (forall i :: i in before ==> i in after) &&
    (forall i :: i in before && (before[i].cart != cart || before[i].product != pid) ==>
      after[i] == before[i]) &&
    (forall i :: i in before && before[i].cart == cart && before[i].product == pid ==>
      after[i].cart == cart && after[i].product == pid) &&
    (forall i :: i in after && i !in before ==> after[i].cart == cart && after[i].product == pid)
  }

  /** What a handler decided, before the response body is rendered. */
  datatype Status = Done | BadRequest(detail: string) | NotFound(detail: string)

  /** The response for a decision; a 200 renders the cart from the tables
      as they are after the request. */
  function Respond(db: Tables, cart: CartId, s: Status): (r: Response)
    requires Valid(db)
    ensures s.Done? <==> r.Ok?
    ensures s.Done? ==> r == Ok(View(db, cart))
    ensures s.BadRequest? <==> r.Err400?
    ensures s.BadRequest? ==> r.detail == s.detail
    ensures s.NotFound? <==> r.Err404?
    ensures s.NotFound? ==> r.detail == s.detail
  {
    match s
    case Done => Ok(View(db, cart))
    case BadRequest(d) => Err400(d)
    case NotFound(d) => Err404(d)
  }

  /** `CartItemViewSet.create` (POST /cart/items/): adds `qty` (default 1)
      units of a product to the caller's cart. The cart is created before
      any validation, and a failed request changes nothing else;
      AddItemOutcome states which response each request gets. */
  function AddItem(db: Tables, user: UserId, productId: Option<int>, qty: Option<int>): (r: (Tables, Response))
    requires Valid(db)
    ensures Valid(r.0)
    ensures r.0.carts == CartFor(db, user).0.carts && r.0.products == db.products
    ensures !r.1.Ok? ==> r.0 == CartFor(db, user).0
    ensures forall i :: i in r.0.items ==> i in db.items || i == db.nextItem
  {
    var (db1, cart) := CartFor(db, user);
    var (db2, s) := AddToCart(db1, cart, productId, GetOr(qty, 1));
    (db2, Respond(db2, cart, s))
  }

  /** The decision of `create` once the cart is known. */
  function AddToCart(db: Tables, cart: CartId, productId: Option<int>, q: int): (r: (Tables, Status))
    requires Valid(db) && cart in db.carts.Values
    ensures Valid(r.0)
    ensures r.0.carts == db.carts && r.0.products == db.products
    ensures !r.1.Done? ==> r.0 == db
    ensures forall i :: i in r.0.items ==> i in db.items || i == db.nextItem
  {
    if IsFalsyId(productId) then (db, BadRequest("product_id is required"))
    else if q < 1 then (db, BadRequest("qty must be >= 1"))
    else if !IsActiveProduct(db, productId.value) then (db, NotFound("Product not found"))
    else
      var pid: ProductId := productId.value;
      var product := db.products[pid];
      if product.stock < q then (db, BadRequest("Not enough stock"))
      else PutLine(db, cart, pid, q)
  }

  /** The last step of `create`: merge `q` into the product's line, or add
      a line holding `q`, unless the stock cannot cover the result. */
  function PutLine(db: Tables, cart: CartId, pid: ProductId, q: nat): (r: (Tables, Status))
    requires Valid(db) && cart in db.carts.Values && pid in db.products && q >= 1
    ensures Valid(r.0)
    ensures r.0.carts == db.carts && r.0.products == db.products
    ensures !r.1.Done? ==> r.0 == db
    ensures forall i :: i in r.0.items ==> i in db.items || i == db.nextItem
  {
    match FindLine(db.items, db.nextItem, cart, pid)
    case Some(i) =>
      var merged := db.items[i].qty + q;
      if db.products[pid].stock < merged then (db, BadRequest("Not enough stock"))
      else
        ValidAfterSetQty(db, i, merged);
        (db.(items := db.items[i := db.items[i].(qty := merged)]), Done)
    case None =>
      ValidAfterNewLine(db, cart, pid, q);
      (db.(items := db.items[db.nextItem := CartItem(cart, pid, q)], nextItem := db.nextItem + 1), Done)
  }

  /** The decisions of `create` once the cart is known: 400 for a falsy
      `product_id` or a `qty` below 1, 404 for a product that is missing or
      inactive, 400 when the quantity the cart would then hold exceeds the
      stock. Otherwise the cart holds exactly one line for the product, with
      its old quantity plus `qty`, and no other line changed. */
  lemma AddToCartOutcome(db: Tables, cart: CartId, productId: Option<int>, q: int)
    requires Valid(db) && cart in db.carts.Values
    ensures var r := AddToCart(db, cart, productId, q);
      (IsFalsyId(productId) ==> r.1 == BadRequest("product_id is required")) &&
      (!IsFalsyId(productId) && q < 1 ==> r.1 == BadRequest("qty must be >= 1")) &&
      (!IsFalsyId(productId) && q >= 1 && !IsActiveProduct(db, productId.value) ==>
        r.1 == NotFound("Product not found")) &&
      (!IsFalsyId(productId) && q >= 1 && IsActiveProduct(db, productId.value) ==>
        var pid: ProductId := productId.value;
        var want := HeldQty(db, cart, pid) + q;
        if db.products[pid].stock < want then r.1 == BadRequest("Not enough stock")
        else
          r.1 == Done && HeldQty(r.0, cart, pid) == want &&
          OnlyLineChanged(db.items, r.0.items, cart, pid))
  {
    if !IsFalsyId(productId) && q >= 1 && IsActiveProduct(db, productId.value) {
      var pid: ProductId := productId.value;
      if db.products[pid].stock >= q {
        PutLineOutcome(db, cart, pid, q);
      }
    }
  }

  /** The line step of `create`: the cart ends up holding its old quantity
      plus `q` when the stock allows it, and nothing changes otherwise. */
  lemma PutLineOutcome(db: Tables, cart: CartId, pid: ProductId, q: nat)
    requires Valid(db) && cart in db.carts.Values && pid in db.products && q >= 1
    requires db.products[pid].stock >= q
    ensures var r := PutLine(db, cart, pid, q);
      var want := HeldQty(db, cart, pid) + q;
      if db.products[pid].stock < want then r.1 == BadRequest("Not enough stock")
      else
        r.1 == Done && HeldQty(r.0, cart, pid) == want &&
        OnlyLineChanged(db.items, r.0.items, cart, pid)
  {
    var r := PutLine(db, cart, pid, q);
    match FindLine(db.items, db.nextItem, cart, pid)
    case Some(i) =>
      var merged := db.items[i].qty + q;
      assert HeldQty(db, cart, pid) == db.items[i].qty;
      if db.products[pid].stock >= merged {
        assert r.0 == db.(items := db.items[i := db.items[i].(qty := merged)]);
        MergedLineFacts(db, i, merged);
      }
    case None =>
      assert HeldQty(db, cart, pid) == 0;
      assert r.0 == db.(items := db.items[db.nextItem := CartItem(cart, pid, q)], nextItem := db.nextItem + 1);
      NewLineFacts(db, cart, pid, q);
  }

  /** The responses of `create` (see AddToCartOutcome), with the cart
      created first; a 200 carries the cart as it is after the request. */
  lemma AddItemOutcome(db: Tables, user: UserId, productId: Option<int>, qty: Option<int>)
    requires Valid(db)
    ensures var r := AddItem(db, user, productId, qty);
      var q := GetOr(qty, 1);
      var cart := r.0.carts[user];
      (IsFalsyId(productId) ==> r.1 == Err400("product_id is required")) &&
      (!IsFalsyId(productId) && q < 1 ==> r.1 == Err400("qty must be >= 1")) &&
      (!IsFalsyId(productId) && q >= 1 && !IsActiveProduct(db, productId.value) ==>
        r.1 == Err404("Product not found")) &&
      (!IsFalsyId(productId) && q >= 1 && IsActiveProduct(db, productId.value) ==>
        var pid: ProductId := productId.value;
        var want := HeldQty(CartFor(db, user).0, cart, pid) + q;
        if db.products[pid].stock < want then r.1 == Err400("Not enough stock")
        else
          r.1 == Ok(View(r.0, cart)) && HeldQty(r.0, cart, pid) == want &&
          OnlyLineChanged(db.items, r.0.items, cart, pid))
  {
    var (db1, cart) := CartFor(db, user);
    AddToCartOutcome(db1, cart, productId, GetOr(qty, 1));
  }

  /** `CartItemViewSet.partial_update` (PATCH /cart/items/{id}): sets the
      quantity of one of the caller's lines. A line of another cart is not
      found. An omitted `qty` means the current quantity; a quantity below 1
      deletes the line; one above the product's stock is refused and leaves
      the line as it was. No other line changes. */
  function UpdateItem(db: Tables, user: UserId, itemId: int, qty: Option<int>): (r: (Tables, Response))
    requires Valid(db)
    ensures Valid(r.0)
    ensures r.0.carts == CartFor(db, user).0.carts && r.0.products == db.products
    ensures r.0.nextItem == db.nextItem
    ensures !r.1.Ok? ==> r.0.items == db.items
    ensures var cart := r.0.carts[user];
      if itemId !in db.items || db.items[itemId].cart != cart then r.1 == Err404("Item not found")
      else
        var line := db.items[itemId];
        var q := GetOr(qty, line.qty);
        if q < 1 then r.0.items == db.items - {itemId} && r.1 == Ok(View(r.0, cart))
        else if db.products[line.product].stock < q then r.1 == Err400("Not enough stock")
        else r.0.items == db.items[itemId := line.(qty := q)] && r.1 == Ok(View(r.0, cart))
  {
    var (db1, cart) := CartFor(db, user);
    var (db2, s) := UpdateLine(db1, cart, itemId, qty);
    (db2, Respond(db2, cart, s))
  }

  /** The decision of `partial_update` once the cart is known. */
  function UpdateLine(db: Tables, cart: CartId, itemId: int, qty: Option<int>): (r: (Tables, Status))
    requires Valid(db)
    ensures Valid(r.0)
    ensures r.0.carts == db.carts && r.0.products == db.products && r.0.nextItem == db.nextItem
    ensures !r.1.Done? ==> r.0 == db
    ensures if itemId !in db.items || db.items[itemId].cart != cart then r.1 == NotFound("Item not found")
      else
        var line := db.items[itemId];
        var q := GetOr(qty, line.qty);
        if q < 1 then r.0.items == db.items - {itemId} && r.1 == Done
        else if db.products[line.product].stock < q then r.1 == BadRequest("Not enough stock")
        else r.0.items == db.items[itemId := line.(qty := q)] && r.1 == Done
  {
    if itemId < 0 || itemId !in db.items || db.items[itemId].cart != cart then
      (db, NotFound("Item not found"))
    else
      var line := db.items[itemId];
      var q := GetOr(qty, line.qty);
      if q < 1 then
        ValidAfterDelete(db, itemId);
        (db.(items := db.items - {itemId}), Done)
      else if db.products[line.product].stock < q then (db, BadRequest("Not enough stock"))
      else
        ValidAfterSetQty(db, itemId, q);
        (db.(items := db.items[itemId := line.(qty := q)]), Done)
  }

  /** `CartItemViewSet.destroy` (DELETE /cart/items/{id}): deletes one of the
      caller's lines, with no stock check; a line of another cart is not
      found and nothing changes. */
  function RemoveItem(db: Tables, user: UserId, itemId: int): (r: (Tables, Response))
    requires Valid(db)
    ensures Valid(r.0)
    ensures r.0.carts == CartFor(db, user).0.carts && r.0.products == db.products
    ensures r.0.nextItem == db.nextItem
    ensures var cart := r.0.carts[user];
      if itemId !in db.items || db.items[itemId].cart != cart then
        r.1 == Err404("Item not found") && r.0.items == db.items
      else r.0.items == db.items - {itemId} && r.1 == Ok(View(r.0, cart))
  {
    var (db1, cart) := CartFor(db, user);
    var (db2, s) := RemoveLine(db1, cart, itemId);
    (db2, Respond(db2, cart, s))
  }

  /** The decision of `destroy` once the cart is known. */
  function RemoveLine(db: Tables, cart: CartId, itemId: int): (r: (Tables, Status))
    requires Valid(db)
    ensures Valid(r.0)
    ensures r.0.carts == db.carts && r.0.products == db.products && r.0.nextItem == db.nextItem
    ensures if itemId !in db.items || db.items[itemId].cart != cart then
        r.1 == NotFound("Item not found") && r.0 == db
      else r.0.items == db.items - {itemId} && r.1 == Done
  {
    if itemId < 0 || itemId !in db.items || db.items[itemId].cart != cart then
      (db, NotFound("Item not found"))
    else
      ValidAfterDelete(db, itemId);
      (db.(items := db.items - {itemId}), Done)
  }

  /** `CartViewSet.list` (GET /cart/): the caller's cart, created on first
      use; no line changes. */
  function ListCart(db: Tables, user: UserId): (r: (Tables, CartView))
    requires Valid(db)
    ensures Valid(r.0)
    ensures r.0 == CartFor(db, user).0
    ensures r.0.items == db.items && r.0.products == db.products
    ensures r.1 == View(r.0, r.0.carts[user])
  {
    var (db1, cart) := CartFor(db, user);
    (db1, View(db1, cart))
  }

  // ---------------------------------------------------------------------
  // The table invariants survive each kind of line update
  // ---------------------------------------------------------------------

  lemma ValidAfterSetQty(db: Tables, i: ItemId, q: nat)
    requires Valid(db) && i in db.items && q >= 1
    ensures Valid(db.(items := db.items[i := db.items[i].(qty := q)]))
  {
    var items := db.items[i := db.items[i].(qty := q)];
    forall a, b | a in items && b in items && items[a].cart == items[b].cart &&
      items[a].product == items[b].product
      ensures a == b
    {
      assert db.items[a].cart == db.items[b].cart && db.items[a].product == db.items[b].product;
    }
  }

  lemma ValidAfterDelete(db: Tables, i: ItemId)
    requires Valid(db)
    ensures Valid(db.(items := db.items - {i}))
  {
    var items := db.items - {i};
    forall a, b | a in items && b in items && items[a].cart == items[b].cart &&
      items[a].product == items[b].product
      ensures a == b
    {
      assert db.items[a].cart == db.items[b].cart && db.items[a].product == db.items[b].product;
    }
  }

  lemma ValidAfterNewLine(db: Tables, cart: CartId, pid: ProductId, q: nat)
    requires Valid(db) && cart in db.carts.Values && pid in db.products && q >= 1
    requires FindLine(db.items, db.nextItem, cart, pid).None?
    ensures Valid(db.(items := db.items[db.nextItem := CartItem(cart, pid, q)], nextItem := db.nextItem + 1))
  {
    var n := db.nextItem;
    var items := db.items[n := CartItem(cart, pid, q)];
    forall a, b | a in items && b in items && items[a].cart == items[b].cart &&
      items[a].product == items[b].product
      ensures a == b
    {
      if a != n && b != n {
        assert db.items[a].cart == db.items[b].cart && db.items[a].product == db.items[b].product;
      }
    }
  }

  lemma MergedLineFacts(db: Tables, i: ItemId, q: nat)
    requires Valid(db) && i in db.items && q >= 1
    ensures var db2 := db.(items := db.items[i := db.items[i].(qty := q)]);
      Valid(db2) && HeldQty(db2, db.items[i].cart, db.items[i].product) == q &&
      OnlyLineChanged(db.items, db2.items, db.items[i].cart, db.items[i].product)
  {
    ValidAfterSetQty(db, i, q);
    HeldAfterSetQty(db, i, q);
  }

  lemma NewLineFacts(db: Tables, cart: CartId, pid: ProductId, q: nat)
    requires Valid(db) && cart in db.carts.Values && pid in db.products && q >= 1
    requires FindLine(db.items, db.nextItem, cart, pid).None?
    ensures var db2 := db.(items := db.items[db.nextItem := CartItem(cart, pid, q)], nextItem := db.nextItem + 1);
      Valid(db2) && HeldQty(db2, cart, pid) == q && OnlyLineChanged(db.items, db2.items, cart, pid)
  {
    ValidAfterNewLine(db, cart, pid, q);
    HeldAfterNewLine(db, cart, pid, q);
  }

  lemma ValidAfterSave(db: Tables, p: Product)
    requires Valid(db)
    ensures Valid(db.(products := db.products[p.id := Saved(p)]))
  {
  }

  /** After setting a line's quantity the cart holds that quantity. */
  lemma HeldAfterSetQty(db: Tables, i: ItemId, q: nat)
    requires Valid(db) && i in db.items && q >= 1
    ensures HeldQty(db.(items := db.items[i := db.items[i].(qty := q)]), db.items[i].cart, db.items[i].product) == q
  {
    var db2 := db.(items := db.items[i := db.items[i].(qty := q)]);
    ValidAfterSetQty(db, i, q);
    var found := FindLine(db2.items, db2.nextItem, db.items[i].cart, db.items[i].product);
    assert db2.items[i].cart == db.items[i].cart && db2.items[i].product == db.items[i].product;
    assert found.Some?;
    assert found.value == i;
  }

  /** After adding a new line the cart holds its quantity. */
  lemma HeldAfterNewLine(db: Tables, cart: CartId, pid: ProductId, q: nat)
    requires Valid(db) && cart in db.carts.Values && pid in db.products && q >= 1
    requires FindLine(db.items, db.nextItem, cart, pid).None?
    ensures HeldQty(db.(items := db.items[db.nextItem := CartItem(cart, pid, q)], nextItem := db.nextItem + 1), cart, pid) == q
  {
    var db2 := db.(items := db.items[db.nextItem := CartItem(cart, pid, q)], nextItem := db.nextItem + 1);
    ValidAfterNewLine(db, cart, pid, q);
    var found := FindLine(db2.items, db2.nextItem, cart, pid);
    assert db2.items[db.nextItem].cart == cart && db2.items[db.nextItem].product == pid;
    assert found.Some?;
    assert found.value == db.nextItem;
  }

  // ---------------------------------------------------------------------
  // The tables as mutable state, and the view methods over them
  // ---------------------------------------------------------------------

  /** The database the views read and write. Each method performs one
      request step by step and is proved to end in the tables and the
      response that the corresponding function above describes. */
  class Store {
    var products: map<ProductId, Product>
    var carts: map<UserId, CartId>
    var items: map<ItemId, CartItem>
    var nextCart: CartId
    var nextItem: ItemId

    function State(): Tables
      reads this
    {
      Tables(products, carts, items, nextCart, nextItem)
    }

    ghost predicate Valid()
      reads this
    {
      Models.Valid(State())
    }

    /** A database holding the given product rows and no cart yet. */
    constructor (rows: map<ProductId, Product>)
      requires forall k :: k in rows ==> rows[k].id == k
      ensures Valid()
      ensures State() == Tables(rows, map[], map[], 1, 1)
    {
      products, carts, items := rows, map[], map[];
      nextCart, nextItem := 1, 1;
    }

    /** `Product.save`: recomputes `is_in_stock` from `stock`, then writes
        the row; no cart or line changes. */
    method SaveProduct(p: Product)
      requires Valid()
      modifies this
      ensures Valid()
      ensures products == old(products)[p.id := Saved(p)]
      ensures carts == old(carts) && items == old(items)
      ensures nextCart == old(nextCart) && nextItem == old(nextItem)
    {
      ghost var before := State();
      ValidAfterSave(before, p);
      var row := p.(isInStock := p.stock > 0);
      products := products[p.id := row];
      assert State() == before.(products := before.products[p.id := Saved(p)]);
    }

    /** `get_or_create_cart`. */
    method GetOrCreateCart(user: UserId) returns (cart: CartId)
      requires Valid()
      modifies this
      ensures Valid()
      ensures (State(), cart) == CartFor(old(State()), user)
    {
      ghost var spec := CartFor(State(), user);
      if user in carts {
        cart := carts[user];
      } else {
        cart := nextCart;
        carts := carts[user := cart];
        nextCart := nextCart + 1;
      }
      assert State() == spec.0;
    }

    /** `CartSerializer(cart).data`, with `get_total` run as its loop. */
    method Serialize(cart: CartId) returns (v: CartView)
      requires Valid()
      ensures v == View(State(), cart)
    {
      var rows := CartRows(State(), cart);
      var total := GetTotal(rows);
      v := CartView(cart, SerializeItems(rows), total);
    }

    /** Renders a decision as the response: a 200 serialises the cart. */
    method Reply(cart: CartId, s: Status) returns (r: Response)
      requires Valid()
      ensures r == Respond(State(), cart, s)
    {
      match s {
        case Done =>
          var view := Serialize(cart);
          r := Ok(view);
        case BadRequest(d) =>
          r := Err400(d);
        case NotFound(d) =>
          r := Err404(d);
      }
    }

    /** `CartViewSet.list`. */
    method List(user: UserId) returns (v: CartView)
      requires Valid()
      modifies this
      ensures Valid()
      ensures (State(), v) == ListCart(old(State()), user)
    {
      var cart := GetOrCreateCart(user);
      v := Serialize(cart);
    }

    /** `CartItemViewSet.create`. */
    method Create(user: UserId, productId: Option<int>, qty: Option<int>) returns (r: Response)
      requires Valid()
      modifies this
      ensures Valid()
      ensures (State(), r) == AddItem(old(State()), user, productId, qty)
    {
      var cart := GetOrCreateCart(user);
      var s := AddToCartStep(cart, productId, GetOr(qty, 1));
      r := Reply(cart, s);
    }

    /** The body of `create` after the cart is known. The line is fetched
        or inserted (an inserted line starts at the column default 1), its
        quantity is then set, checked against the stock and saved. */
    method AddToCartStep(cart: CartId, productId: Option<int>, q: int) returns (s: Status)
      requires Valid() && cart in carts.Values
      modifies this
      ensures Valid()
      ensures (State(), s) == AddToCart(old(State()), cart, productId, q)
    {
      if IsFalsyId(productId) {
        return BadRequest("product_id is required");
      }
      if q < 1 {
        return BadRequest("qty must be >= 1");
      }
      if !IsActiveProduct(State(), productId.value) {
        return NotFound("Product not found");
      }
      var pid: ProductId := productId.value;
      var product := products[pid];
      if product.stock < q {
        return BadRequest("Not enough stock");
      }
      s := PutLineStep(cart, pid, q);
    }

    /** The line step of `create`: fetch or insert, set, check, save. */
    method PutLineStep(cart: CartId, pid: ProductId, q: nat) returns (s: Status)
      requires Valid() && cart in carts.Values && pid in products && q >= 1
      requires products[pid].stock >= q
      modifies this
      ensures Valid()
      ensures (State(), s) == PutLine(old(State()), cart, pid, q)
    {
      ghost var before := State();
      ghost var spec := PutLine(before, cart, pid, q);
      var found := FindLine(items, nextItem, cart, pid);
      if found.Some? {
        var id := found.value;
        var newQty := items[id].qty + q;
        if products[pid].stock < newQty {
          return BadRequest("Not enough stock");
        }
        items := items[id := items[id].(qty := newQty)];
      } else {
        var id := nextItem;
        items := items[id := CartItem(cart, pid, 1)];
        nextItem := nextItem + 1;
        items := items[id := items[id].(qty := q)];
        assert items == before.items[before.nextItem := CartItem(cart, pid, q)];
      }
      s := Done;
      assert State() == spec.0;
    }

    /** `CartItemViewSet.partial_update`. */
    method PartialUpdate(user: UserId, pk: int, qty: Option<int>) returns (r: Response)
      requires Valid()
      modifies this
      ensures Valid()
      ensures (State(), r) == UpdateItem(old(State()), user, pk, qty)
    {
      var cart := GetOrCreateCart(user);
      var s := UpdateLineStep(cart, pk, qty);
      r := Reply(cart, s);
    }

    /** The body of `partial_update` after the cart is known. */
    method UpdateLineStep(cart: CartId, pk: int, qty: Option<int>) returns (s: Status)
      requires Valid()
      modifies this
      ensures Valid()
      ensures (State(), s) == UpdateLine(old(State()), cart, pk, qty)
    {
      if pk < 0 || pk !in items || items[pk].cart != cart {
        return NotFound("Item not found");
      }
      var item := items[pk];
      var q := GetOr(qty, item.qty);
      if q < 1 {
        ValidAfterDelete(State(), pk);
        items := items - {pk};
      } else {
        if products[item.product].stock < q {
          return BadRequest("Not enough stock");
        }
        ValidAfterSetQty(State(), pk, q);
        items := items[pk := item.(qty := q)];
      }
      s := Done;
    }

    /** `CartItemViewSet.destroy`. */
    method Destroy(user: UserId, pk: int) returns (r: Response)
      requires Valid()
      modifies this
      ensures Valid()
      ensures (State(), r) == RemoveItem(old(State()), user, pk)
    {
      var cart := GetOrCreateCart(user);
      if pk < 0 || pk !in items || items[pk].cart != cart {
        return Err404("Item not found");
      }
      ValidAfterDelete(State(), pk);
      items := items - {pk};
      r := Reply(cart, Done);
    }
  }
}
