/** The money fields and the cart read model of products/serializers.py:
    the serializers' own discount formula, line totals, the cart total
    accumulated over the cart's lines, the cart response, and the
    related-products list of the product detail response. */
module Serializers {
  import opened Common
  import opened Models

  /** `get_final_price`, written out identically in RelatedProductSerializer,
      ProductSerializer and CartProductSerializer: subtract the discount
      amount from the price. It always agrees with the model's
      `final_price`, which multiplies by the remaining percentage. */
  function SerializerFinalPrice(p: Product): (r: real)
    ensures r == FinalPrice(p)
  {
    if p.discountPercent > 0 then
      var discount := (p.price * p.discountPercent as real) / 100.0;
      p.price - discount
    else p.price
  }

  /** The product as CartProductSerializer shows it (name, image and unit
      are not modelled). */
  datatype ProductSummary = ProductSummary(
    id: ProductId,
    price: real,
    discountPercent: nat,
    finalPrice: real,
    isInStock: bool)

  function Summarize(p: Product): (r: ProductSummary)
    ensures r.id == p.id && r.price == p.price && r.discountPercent == p.discountPercent
    ensures r.isInStock == p.isInStock
    ensures r.finalPrice == FinalPrice(p)
  {
    ProductSummary(p.id, p.price, p.discountPercent, SerializerFinalPrice(p), p.isInStock)
  }

  /** A cart line joined with the live product row it refers to
      (`select_related("product")`). */
  datatype CartRow = CartRow(id: ItemId, qty: nat, product: Product)

  /** One element of the cart response's `items`. */
  datatype ItemView = ItemView(id: ItemId, product: ProductSummary, qty: nat, lineTotal: real)

  /** The cart response: id, lines and total. */
  datatype CartView = CartView(id: CartId, items: seq<ItemView>, total: real)

  /** `get_line_total`: quantity times the product's final price. It is the
      quantity times the unit price shown beside it, and for a price that is
      not negative and a discount of at most 100 it lies between 0 and the
      undiscounted amount. */
  function LineTotal(row: CartRow): (r: real)
    ensures r == row.qty as real * SerializerFinalPrice(row.product)
    ensures row.product.price >= 0.0 && row.product.discountPercent <= 100 ==>
      0.0 <= r <= row.qty as real * row.product.price
  {
    var unit := FinalPrice(row.product);
    var q := row.qty as real;
    assert q >= 0.0;
    assert row.product.price >= 0.0 && row.product.discountPercent <= 100 ==>
      0.0 <= q * unit <= q * row.product.price by {
      if row.product.price >= 0.0 && row.product.discountPercent <= 100 {
        assert 0.0 <= unit <= row.product.price;
        assert 0.0 <= q * unit;
        assert q * unit <= q * row.product.price;
      }
    }
    q * unit
  }

  /** All rows have a price that is not negative and a discount of at most 100. */
  ghost predicate WellPriced(rows: seq<CartRow>)
  {
    forall k :: 0 <= k < |rows| ==>
      rows[k].product.price >= 0.0 && rows[k].product.discountPercent <= 100
  }

  /** The sum of qty × final price over the rows: the value `get_total`
      accumulates. The total of no rows is 0, and it is never negative when
      every row is well priced. */
  function CartTotal(rows: seq<CartRow>): (r: real)
    ensures rows == [] ==> r == 0.0
    ensures WellPriced(rows) ==> r >= 0.0
    decreases |rows|
  {
    if rows == [] then 0.0
    else
      var init := rows[..|rows| - 1];
      assert WellPriced(rows) ==> WellPriced(init);
      CartTotal(init) + LineTotal(rows[|rows| - 1])
  }

  /** `get_total`: starts from 0 and adds qty × final price for every line. */
  method GetTotal(rows: seq<CartRow>) returns (total: real)
    ensures total == CartTotal(rows)
  {
    total := 0.0;
    for k := 0 to |rows|
      invariant total == CartTotal(rows[..k])
    {
      assert rows[..k + 1][..k] == rows[..k];
      total := total + rows[k].qty as real * FinalPrice(rows[k].product);
    }
    assert rows[..|rows|] == rows;
  }

  function SerializeItem(row: CartRow): (v: ItemView)
    ensures v.id == row.id && v.qty == row.qty && v.product == Summarize(row.product)
    ensures v.lineTotal == v.qty as real * v.product.finalPrice
  {
    ItemView(row.id, Summarize(row.product), row.qty, LineTotal(row))
  }

  function SerializeItems(rows: seq<CartRow>): (vs: seq<ItemView>)
    ensures |vs| == |rows|
    ensures forall k :: 0 <= k < |rows| ==> vs[k] == SerializeItem(rows[k])
  {
    seq(|rows|, k requires 0 <= k < |rows| => SerializeItem(rows[k]))
  }

  /** The sum of the `line_total` fields of a list of response lines. */
  function SumLineTotals(vs: seq<ItemView>): real
    decreases |vs|
  {
    if vs == [] then 0.0 else SumLineTotals(vs[..|vs| - 1]) + vs[|vs| - 1].lineTotal
  }

  /** The cart total equals the sum of the line totals shown in the response. */
  lemma {:induction false} TotalIsSumOfLineTotals(rows: seq<CartRow>)
    ensures CartTotal(rows) == SumLineTotals(SerializeItems(rows))
    decreases |rows|
  {
    if rows != [] {
      var init := rows[..|rows| - 1];
      TotalIsSumOfLineTotals(init);
      assert SerializeItems(rows)[..|rows| - 1] == SerializeItems(init);
    }
  }

  lemma {:induction false} CartTotalAppend(a: seq<CartRow>, b: seq<CartRow>)
    ensures CartTotal(a + b) == CartTotal(a) + CartTotal(b)
    decreases |b|
  {
    if b == [] {
      assert a + b == a;
    } else {
      var init := b[..|b| - 1];
      CartTotalAppend(a, init);
      assert (a + b)[..|a + b| - 1] == a + init;
    }
  }

  /** The total does not depend on the order in which the lines are read:
      the line query has no ordering, and any permutation gives the same sum. */
  lemma {:induction false} CartTotalPermutation(a: seq<CartRow>, b: seq<CartRow>)
    requires multiset(a) == multiset(b)
    ensures CartTotal(a) == CartTotal(b)
    decreases |a|
  {
    if a == [] {
      assert |b| == |multiset(b)| == 0;
    } else {
      var x := a[|a| - 1];
      assert x in multiset(b) by { assert x in multiset(a); }
      var j :| 0 <= j < |b| && b[j] == x;
      var rest := b[..j] + b[j + 1..];
      RemoveOne(a, b, j);
      CartTotalPermutation(a[..|a| - 1], rest);
      CartTotalWithout(b, j);
    }
  }

  /** Taking the last line of `a` and the same line at `j` out of `b`
      leaves equal multisets. */
  lemma RemoveOne(a: seq<CartRow>, b: seq<CartRow>, j: nat)
    requires multiset(a) == multiset(b) && a != [] && j < |b| && b[j] == a[|a| - 1]
    ensures multiset(a[..|a| - 1]) == multiset(b[..j] + b[j + 1..])
  {
    var x := b[j];
    assert a == a[..|a| - 1] + [x];
    assert b == b[..j] + [x] + b[j + 1..];
    assert multiset(b) == multiset(b[..j]) + multiset{x} + multiset(b[j + 1..]);
    assert multiset(a) == multiset(a[..|a| - 1]) + multiset{x};
    calc {
      multiset(a[..|a| - 1]);
      multiset(a) - multiset{x};
      multiset(b) - multiset{x};
      multiset(b[..j]) + multiset(b[j + 1..]);
      multiset(b[..j] + b[j + 1..]);
    }
  }

  /** The total of `b` is that of `b` without line `j`, plus line `j`. */
  lemma CartTotalWithout(b: seq<CartRow>, j: nat)
    requires j < |b|
    ensures CartTotal(b) == CartTotal(b[..j] + b[j + 1..]) + LineTotal(b[j])
  {
    var left, x, right := b[..j], b[j], b[j + 1..];
    assert left + [x] == b[..j + 1];
    assert b[..j + 1] + right == b;
    CartTotalAppend(left + [x], right);
    CartTotalAppend(left, [x]);
    CartTotalAppend(left, right);
    CartTotalSingle(x);
  }

  lemma CartTotalSingle(x: CartRow)
    ensures CartTotal([x]) == LineTotal(x)
  {
    assert [x][..0] == [];
  }

  /** `CartSerializer(cart).data`: the cart id, one response line per row in
      row order, and the total, which is the sum of the lines' totals. */
  function SerializeCart(id: CartId, rows: seq<CartRow>): (v: CartView)
    ensures v.id == id && |v.items| == |rows|
    ensures forall k :: 0 <= k < |rows| ==> v.items[k] == SerializeItem(rows[k])
    ensures v.total == SumLineTotals(v.items)
    ensures rows == [] ==> v.total == 0.0
  {
    TotalIsSumOfLineTotals(rows);
    CartView(id, SerializeItems(rows), CartTotal(rows))
  }

  function CreatedAt(p: Product): int
  {
    p.createdAt
  }

  /** A candidate for the related list of `p`: another active product of
      the same category. */
  predicate IsRelated(p: Product, x: Product)
  {
    x.category == p.category && x.isActive && x.id != p.id
  }

  /** `get_related_products`: nothing when the product's category id is
      falsy; otherwise the ten newest related products of `table`. */
  function RelatedProducts(table: seq<Product>, p: Product): (r: seq<Product>)
    ensures p.category == 0 ==> r == []
    ensures |r| <= 10
    ensures forall x :: x in r ==> x in table && IsRelated(p, x)
    ensures p !in r
    ensures SortedDesc(r, CreatedAt)
    ensures p.category != 0 ==> forall x :: x in table && IsRelated(p, x) && x !in r ==>
      |r| == 10 && forall y :: y in r ==> y.createdAt >= x.createdAt
    ensures multiset(r) <= multiset(table)
  {
    if p.category == 0 then []
    else Newest(Filter(table, x => IsRelated(p, x)), 10)
  }

  /** `.order_by("-created_at")[:n]`: at most `n` of the candidates, newest
      first, and no candidate left out is newer than one that was kept. */
  function Newest(candidates: seq<Product>, n: nat): (r: seq<Product>)
    ensures |r| <= n
    ensures forall x :: x in r ==> x in candidates
    ensures SortedDesc(r, CreatedAt)
    ensures forall x :: x in candidates && x !in r ==>
      |r| == n && forall y :: y in r ==> y.createdAt >= x.createdAt
    ensures multiset(r) <= multiset(candidates)
  {
    var sorted := SortDesc(candidates, CreatedAt);
    SameElements(sorted, candidates);
    TopIsPrefix(sorted, n);
    Take(sorted, n)
  }

  lemma SameElements(a: seq<Product>, b: seq<Product>)
    requires multiset(a) == multiset(b)
    ensures forall x :: x in a <==> x in b
  {
    forall x ensures x in a <==> x in b {
      assert x in a <==> x in multiset(a);
      assert x in b <==> x in multiset(b);
    }
  }

  /** Cutting a sequence sorted by descending creation time keeps the newest. */
  lemma TopIsPrefix(s: seq<Product>, n: nat)
    requires SortedDesc(s, CreatedAt)
    ensures SortedDesc(Take(s, n), CreatedAt)
    ensures forall x :: x in s && x !in Take(s, n) ==>
      |Take(s, n)| == n && forall y :: y in Take(s, n) ==> y.createdAt >= x.createdAt
  {
    var t := Take(s, n);
    forall x | x in s && x !in t
      ensures |t| == n && forall y :: y in t ==> y.createdAt >= x.createdAt
    {
      var j :| 0 <= j < |s| && s[j] == x;
      assert j >= |t|;
      forall y | y in t ensures y.createdAt >= x.createdAt {
        var i :| 0 <= i < |t| && t[i] == y;
        assert CreatedAt(s[i]) >= CreatedAt(s[j]);
      }
    }
  }
}
