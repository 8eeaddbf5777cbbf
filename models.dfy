/** The catalogue and cart schema of products/models.py: the stored rows,
    the derived money and stock fields, and the uniqueness and integrity
    constraints the database keeps over the cart tables. */
module Models {
  import opened Common

  type CategoryId = nat
  type ProductId = nat
  type UserId = nat
  type CartId = nat
  type ItemId = nat

  /** A category row; `parent` is the nullable self-reference. */
  datatype Category = Category(id: CategoryId, parent: Option<CategoryId>)

  /** A product row. Money is an exact decimal, modelled as `real`.
      `price` carries no sign constraint in the schema; `discountPercent`
      and `stock` are non-negative but have no upper bound of 100 or
      otherwise. `createdAt` stands for the creation timestamp, used only
      as an ordering key. */
  datatype Product = Product(
    id: ProductId,
    category: CategoryId,
    price: real,
    discountPercent: nat,
    stock: nat,
    isInStock: bool,
    isNew: bool,
    isFeatured: bool,
    isActive: bool,
    createdAt: int)

  /** The `final_price` property: the list price reduced by the discount
      percentage when that percentage is positive. */
  function FinalPrice(p: Product): (r: real)
    ensures p.discountPercent == 0 ==> r == p.price
    ensures p.price >= 0.0 && p.discountPercent <= 100 ==> 0.0 <= r <= p.price
    ensures p.price > 0.0 && p.discountPercent > 100 ==> r < 0.0
  {
    if p.discountPercent > 0 then
      var r := p.price * (100 - p.discountPercent) as real / 100.0;
      DiscountBounds(p.price, p.discountPercent, r);
      r
    else p.price
  }

  /** Where `price * (100 - d) / 100` lies against the price. */
  lemma DiscountBounds(price: real, d: nat, r: real)
    requires r == price * (100 - d) as real / 100.0
    ensures price >= 0.0 && d <= 100 ==> 0.0 <= r <= price
    ensures price > 0.0 && d > 100 ==> r < 0.0
  {
    var f := (100 - d) as real;
    assert r * 100.0 == price * f;
    if price >= 0.0 && d <= 100 {
      assert 0.0 <= f <= 100.0;
      assert 0.0 <= price * f <= price * 100.0;
    }
    if price > 0.0 && d > 100 {
      assert f < 0.0;
      assert price * f < 0.0;
    }
  }

  /** `Product.save`: the row as persisted, with `is_in_stock` recomputed
      from `stock` whatever it was before. */
  function Saved(p: Product): (r: Product)
    ensures r.isInStock <==> r.stock > 0
    ensures r.(isInStock := p.isInStock) == p
  {
    p.(isInStock := p.stock > 0)
  }

  /** A cart line: a product reference and a quantity. No price is kept on
      the line; every money amount is recomputed from the product. */
  datatype CartItem = CartItem(cart: CartId, product: ProductId, qty: nat)

  /** The tables the cart operations read and write. `nextCart` and
      `nextItem` stand for the auto-increment counters of the cart and line
      tables. */
  datatype Tables = Tables(
    products: map<ProductId, Product>,
    carts: map<UserId, CartId>,
    items: map<ItemId, CartItem>,
    nextCart: CartId,
    nextItem: ItemId)

  /** Every product row is stored under its own id. */
  ghost predicate ProductsKeyed(db: Tables)
  {
    forall k :: k in db.products ==> db.products[k].id == k
  }

  /** `Cart.user` is one-to-one: a user owns at most one cart (the map
      has one entry per user) and no cart belongs to two users. */
  ghost predicate OneCartPerUser(db: Tables)
  {
    (forall u :: u in db.carts ==> db.carts[u] < db.nextCart) &&
    (forall u, v :: u in db.carts && v in db.carts && db.carts[u] == db.carts[v] ==> u == v)
  }

  /** The `uniq_cart_product` constraint: at most one line per (cart, product). */
  ghost predicate OneLinePerProduct(items: map<ItemId, CartItem>)
  {
    forall i, j ::
      (i in items && j in items && items[i].cart == items[j].cart &&
       items[i].product == items[j].product) ==> i == j
  }

  /** Foreign keys of the line table point at existing rows; ids lie below
      the counter; a stored quantity is never below 1 (the cart operations
      delete a line instead of storing 0). */
  ghost predicate ItemsWellFormed(db: Tables)
  {
    forall i :: i in db.items ==>
      i < db.nextItem && db.items[i].cart in db.carts.Values &&
      db.items[i].product in db.products && db.items[i].qty >= 1
  }

  ghost predicate Valid(db: Tables)
  {
    ProductsKeyed(db) && OneCartPerUser(db) &&
    OneLinePerProduct(db.items) && ItemsWellFormed(db)
  }
}
