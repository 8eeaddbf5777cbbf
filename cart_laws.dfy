/** Laws relating several cart requests: the cart of a user is stable,
    quantities added to a product accumulate in its one line up to the
    stock, a user can never reach another user's line, and a line that is
    deleted is no longer listed. */
module CartLaws {
  import opened Common
  import opened Models
  import opened Serializers
  import opened CartViews

  /** Asking for the cart a second time returns the same cart and changes
      nothing. */
  lemma CartForIsStable(db: Tables, user: UserId)
    requires Valid(db)
    ensures var (db1, cart) := CartFor(db, user);
      CartFor(db1, user) == (db1, cart)
  {
  }

  /** Listing the cart twice gives the same tables and the same response. */
  lemma ListCartIsIdempotent(db: Tables, user: UserId)
    requires Valid(db)
    ensures var r := ListCart(db, user);
      ListCart(r.0, user) == r
  {
    CartForIsStable(db, user);
  }

  /** A request on a cart line keeps the caller's cart: the cart listed
      afterwards is the one the request worked on. */
  lemma CartSurvivesRequests(db: Tables, user: UserId, productId: Option<int>, qty: Option<int>)
    requires Valid(db)
    ensures var c := CartFor(db, user).1;
      AddItem(db, user, productId, qty).0.carts[user] == c
  {
  }

  /** Two additions of `a` and then `b` units of a product the cart does
      not hold yet both succeed when the stock covers `a + b`, and leave a
      single line holding `a + b`. */
  lemma {:induction false} AddTwiceAccumulates(db: Tables, user: UserId, pid: ProductId, a: nat, b: nat)
    requires Valid(db)
    requires pid != 0 && IsActiveProduct(db, pid)
    requires HeldQty(CartFor(db, user).0, CartFor(db, user).1, pid) == 0
    requires a >= 1 && b >= 1 && a + b <= db.products[pid].stock
    ensures var r1 := AddItem(db, user, Some(pid), Some(a));
      var r2 := AddItem(r1.0, user, Some(pid), Some(b));
      r1.1.Ok? && r2.1.Ok? && HeldQty(r2.0, r2.0.carts[user], pid) == a + b
  {
    var cart := CartFor(db, user).1;
    AddItemOutcome(db, user, Some(pid), Some(a));
    var r1 := AddItem(db, user, Some(pid), Some(a));
    assert r1.0.carts[user] == cart;
    assert HeldQty(r1.0, cart, pid) == a;
    assert CartFor(r1.0, user) == (r1.0, cart);
    assert IsActiveProduct(r1.0, pid);
    AddItemOutcome(r1.0, user, Some(pid), Some(b));
  }

  /** A successful addition of a product the cart already holds raises
      the quantity of that one line by `q` and changes no other line. */
  lemma MergedAdditionIsExact(db: Tables, cart: CartId, pid: ProductId, q: nat, i: ItemId)
    requires Valid(db) && cart in db.carts.Values && pid != 0 && IsActiveProduct(db, pid) && q >= 1
    requires FindLine(db.items, db.nextItem, cart, pid) == Some(i)
    requires db.items[i].qty + q <= db.products[pid].stock
    ensures AddToCart(db, cart, Some(pid), q).0.items == db.items[i := db.items[i].(qty := db.items[i].qty + q)]
  {
    assert AddToCart(db, cart, Some(pid), q) == PutLine(db, cart, pid, q);
  }

  /** A successful addition of a product the cart does not hold adds one
      line holding `q` under the next line id and changes no other line. */
  lemma NewAdditionIsExact(db: Tables, cart: CartId, pid: ProductId, q: nat)
    requires Valid(db) && cart in db.carts.Values && pid != 0 && IsActiveProduct(db, pid) && q >= 1
    requires FindLine(db.items, db.nextItem, cart, pid).None?
    requires q <= db.products[pid].stock
    ensures AddToCart(db, cart, Some(pid), q).0.items == db.items[db.nextItem := CartItem(cart, pid, q)]
  {
    assert AddToCart(db, cart, Some(pid), q) == PutLine(db, cart, pid, q);
  }

  /** When the cart already had a line for the product, a change that only
      touches that product's line, keeps one line per product and leaves
      a line of the product holding `want` is exactly the update of the old
      line's quantity to `want`. */
  lemma PinnedMerge(before: map<ItemId, CartItem>, after: map<ItemId, CartItem>,
                    cart: CartId, pid: ProductId, i: ItemId, j: ItemId, want: nat)
    requires OnlyLineChanged(before, after, cart, pid) && OneLinePerProduct(after)
    requires i in before && before[i].cart == cart && before[i].product == pid
    requires j in after && after[j] == CartItem(cart, pid, want)
    ensures after == before[i := before[i].(qty := want)]
  {
    assert j == i;
    assert after.Keys == before.Keys;
  }

  /** When the cart had no line for the product, such a change whose only
      new id can be `n` is exactly the insertion of one line under `n`. */
  lemma PinnedInsert(before: map<ItemId, CartItem>, after: map<ItemId, CartItem>,
                     cart: CartId, pid: ProductId, n: ItemId, j: ItemId, want: nat)
    requires OnlyLineChanged(before, after, cart, pid) && OneLinePerProduct(after)
    requires forall k :: k in after ==> k in before || k == n
    requires forall k :: k in before ==> !(before[k].cart == cart && before[k].product == pid)
    requires j in after && after[j] == CartItem(cart, pid, want)
    ensures after == before[n := CartItem(cart, pid, want)]
  {
    assert j == n;
    assert after.Keys == before.Keys + {n};
  }

  /** Once the cart holds the whole stock of a product, any further
      addition is refused with "Not enough stock" and changes nothing
      beyond creating the cart. */
  lemma FullLineRefusesMore(db: Tables, user: UserId, pid: ProductId, q: nat)
    requires Valid(db)
    requires pid != 0 && IsActiveProduct(db, pid) && q >= 1
    requires HeldQty(CartFor(db, user).0, CartFor(db, user).1, pid) == db.products[pid].stock
    ensures var r := AddItem(db, user, Some(pid), Some(q));
      r.1 == Err400("Not enough stock") && r.0 == CartFor(db, user).0
  {
    AddItemOutcome(db, user, Some(pid), Some(q));
  }

  /** The cart line of another user lies outside the caller's cart,
      whether or not the caller already has a cart. */
  lemma ForeignLine(db: Tables, user: UserId, other: UserId, itemId: ItemId)
    requires Valid(db) && other != user && other in db.carts
    requires itemId in db.items && db.items[itemId].cart == db.carts[other]
    ensures db.items[itemId].cart != CartFor(db, user).1
  {
    if user in db.carts {
      assert db.carts[user] != db.carts[other];
    } else {
      assert db.carts[other] < db.nextCart;
    }
  }

  /** A user cannot change a line of someone else's cart: the update is
      answered 404 and every line stays as it was. */
  lemma UpdateCannotReachForeignLine(db: Tables, user: UserId, other: UserId, itemId: ItemId, qty: Option<int>)
    requires Valid(db) && other != user && other in db.carts
    requires itemId in db.items && db.items[itemId].cart == db.carts[other]
    ensures var r := UpdateItem(db, user, itemId, qty);
      r.1 == Err404("Item not found") && r.0.items == db.items
  {
    ForeignLine(db, user, other, itemId);
  }

  /** A user cannot delete a line of someone else's cart. */
  lemma RemoveCannotReachForeignLine(db: Tables, user: UserId, other: UserId, itemId: ItemId)
    requires Valid(db) && other != user && other in db.carts
    requires itemId in db.items && db.items[itemId].cart == db.carts[other]
    ensures var r := RemoveItem(db, user, itemId);
      r.1 == Err404("Item not found") && r.0.items == db.items
  {
    ForeignLine(db, user, other, itemId);
  }

  /** Setting a line's quantity below 1 deletes it: neither the response
      nor a later listing shows it. */
  lemma ZeroQtyDropsLine(db: Tables, user: UserId, itemId: ItemId, q: int)
    requires Valid(db) && q < 1
    requires itemId in db.items && db.items[itemId].cart == CartFor(db, user).1
    ensures var r := UpdateItem(db, user, itemId, Some(q));
      r.1.Ok? && itemId !in r.0.items &&
      (forall k :: 0 <= k < |r.1.view.items| ==> r.1.view.items[k].id != itemId) &&
      (forall k :: 0 <= k < |ListCart(r.0, user).1.items| ==> ListCart(r.0, user).1.items[k].id != itemId)
  {
  }

  /** A deleted line is no longer listed. */
  lemma RemovedLineIsNotListed(db: Tables, user: UserId, itemId: ItemId)
    requires Valid(db)
    requires itemId in db.items && db.items[itemId].cart == CartFor(db, user).1
    ensures var r := RemoveItem(db, user, itemId);
      r.1.Ok? && itemId !in r.0.items &&
      (forall k :: 0 <= k < |ListCart(r.0, user).1.items| ==> ListCart(r.0, user).1.items[k].id != itemId)
  {
  }

  /** A successful addition lists the product: the response shows a line
      for it holding the accumulated quantity. */
  lemma AddedProductIsListed(db: Tables, user: UserId, pid: ProductId, q: nat)
    requires Valid(db)
    requires pid != 0 && IsActiveProduct(db, pid) && q >= 1
    requires HeldQty(CartFor(db, user).0, CartFor(db, user).1, pid) + q <= db.products[pid].stock
    ensures var r := AddItem(db, user, Some(pid), Some(q));
      r.1.Ok? &&
      (exists k :: 0 <= k < |r.1.view.items| && r.1.view.items[k].product.id == pid &&
         r.1.view.items[k].qty == HeldQty(CartFor(db, user).0, CartFor(db, user).1, pid) + q)
  {
    AddItemOutcome(db, user, Some(pid), Some(q));
    var r := AddItem(db, user, Some(pid), Some(q));
    HeldLineIsListed(r.0, r.0.carts[user], pid);
  }

  /** A product the cart holds a positive quantity of is listed in the
      cart's view with that quantity. */
  lemma HeldLineIsListed(db: Tables, cart: CartId, pid: ProductId)
    requires Valid(db) && HeldQty(db, cart, pid) >= 1
    ensures var v := View(db, cart);
      exists k :: 0 <= k < |v.items| && v.items[k].product.id == pid && v.items[k].qty == HeldQty(db, cart, pid)
  {
    var v := View(db, cart);
    var found := FindLine(db.items, db.nextItem, cart, pid);
    assert found.Some?;
    var i := found.value;
    var k :| 0 <= k < |v.items| && v.items[k].id == i;
    assert v.items[k] == SerializeItem(LiveRow(db, i));
    assert LiveRow(db, i).product == db.products[pid];
  }
}
