/** The catalogue listings of products/views.py: the product list with its
    query-parameter filters, and the list of top-level categories. A table
    is given as the sequence of its rows in storage order. */
module CatalogViews {
  import opened Common
  import opened Models

  /** The query parameters the product list reads. The flags are the raw
      strings; `category` and `parentCategory` are the ids already parsed,
      `None` when the parameter is absent or empty. */
  datatype ProductParams = ProductParams(
    isNew: Option<string>,
    isFeatured: Option<string>,
    discounted: Option<string>,
    category: Option<CategoryId>,
    parentCategory: Option<CategoryId>)

  /** A flag is switched on only by one of the exact strings "true", "1"
      and "yes". */
  predicate IsYes(v: Option<string>)
  {
    v == Some("true") || v == Some("1") || v == Some("yes")
  }

  /** The product's category is a row of `categories` whose parent is `parent`
      (the `category__parent_id` join). */
  predicate HasParentCategory(categories: seq<Category>, p: Product, parent: CategoryId)
  {
    exists k :: 0 <= k < |categories| && categories[k].id == p.category &&
      categories[k].parent == Some(parent)
  }

  function Id(p: Product): int
  {
    p.id
  }

  /** A filter step applied only when its parameter is switched on. */
  function FilterIf<T(!new)>(s: seq<T>, on: bool, f: T -> bool): (r: seq<T>)
    ensures forall x :: x in r <==> x in s && (on ==> f(x))
    ensures multiset(r) <= multiset(s)
  {
    if on then Filter(s, f) else s
  }

  /** The filter chain of the product list, applied in the order the view
      applies it: active first, then each switched-on parameter. */
  function Narrowed(table: seq<Product>, categories: seq<Category>, q: ProductParams): (qs: seq<Product>)
    ensures forall p :: p in qs <==> p in table && Matches(categories, q, p)
    ensures multiset(qs) <= multiset(table)
  {
    var qs0 := Filter(table, (p: Product) => p.isActive);
    var qs1 := FilterIf(qs0, IsYes(q.isNew), (p: Product) => p.isNew);
    var qs2 := FilterIf(qs1, IsYes(q.isFeatured), (p: Product) => p.isFeatured);
    var qs3 := FilterIf(qs2, IsYes(q.discounted), (p: Product) => p.discountPercent > 0);
    var qs4 := FilterIf(qs3, q.category.Some?, (p: Product) => q.category.Some? && p.category == q.category.value);
    var qs5 := FilterIf(qs4, q.parentCategory.Some?,
      (p: Product) => q.parentCategory.Some? && HasParentCategory(categories, p, q.parentCategory.value));
    forall p ensures p in qs5 <==> p in table && Matches(categories, q, p) {
      assert p in qs5 <==> p in qs4 && (q.parentCategory.Some? ==> HasParentCategory(categories, p, q.parentCategory.value));
      assert p in qs4 <==> p in qs3 && (q.category.Some? ==> p.category == q.category.value);
      assert p in qs3 <==> p in qs2 && (IsYes(q.discounted) ==> p.discountPercent > 0);
      assert p in qs2 <==> p in qs1 && (IsYes(q.isFeatured) ==> p.isFeatured);
      assert p in qs1 <==> p in qs0 && (IsYes(q.isNew) ==> p.isNew);
    }
    assert multiset(qs5) <= multiset(qs3) by {
      assert multiset(qs5) <= multiset(qs4) <= multiset(qs3);
    }
    assert multiset(qs3) <= multiset(qs0) by {
      assert multiset(qs3) <= multiset(qs2) <= multiset(qs1) <= multiset(qs0);
    }
    qs5
  }

  /** `ProductViewSet.get_queryset`: exactly the active products that pass
      every filter whose parameter is switched on, ordered by descending id. */
  function ProductQuery(table: seq<Product>, categories: seq<Category>, q: ProductParams): (r: seq<Product>)
    ensures forall p :: p in r <==> p in table && Matches(categories, q, p)
    ensures forall p :: p in r ==> p.isActive
    ensures SortedDesc(r, Id)
    ensures multiset(r) <= multiset(table)
  {
    var qs := Narrowed(table, categories, q);
    var r := SortDesc(qs, Id);
    forall p ensures p in r <==> p in qs {
      assert p in r <==> p in multiset(r);
    }
    r
  }

  /** The conjunction of the filters the product list applies. */
  predicate Matches(categories: seq<Category>, q: ProductParams, p: Product)
  {
    p.isActive &&
    (IsYes(q.isNew) ==> p.isNew) &&
    (IsYes(q.isFeatured) ==> p.isFeatured) &&
    (IsYes(q.discounted) ==> p.discountPercent > 0) &&
    (q.category.Some? ==> p.category == q.category.value) &&
    (q.parentCategory.Some? ==> HasParentCategory(categories, p, q.parentCategory.value))
  }

  function NegatedId(c: Category): int
  {
    -(c.id as int)
  }

  /** `CategoryViewSet.get_queryset`: the categories without a parent,
      ordered by ascending id. */
  function CategoryRoots(categories: seq<Category>): (r: seq<Category>)
    ensures forall c :: c in r <==> c in categories && c.parent.None?
    ensures forall i, j :: 0 <= i < j < |r| ==> r[i].id <= r[j].id
    ensures multiset(r) <= multiset(categories)
  {
    var qs := Filter(categories, (c: Category) => c.parent.None?);
    var r := SortDesc(qs, NegatedId);
    forall c ensures c in r <==> c in qs {
      assert c in r <==> c in multiset(r);
    }
    assert forall i, j :: 0 <= i < j < |r| ==> NegatedId(r[i]) >= NegatedId(r[j]);
    r
  }
}
