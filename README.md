# Shop cart and catalogue: a Dafny model

This project models the core of a Django shop back end: the per-user
shopping cart, the prices and totals shown with it, the catalogue
listings, and the "me" endpoint that renames the logged-in user.

- `common.dfy` (`Common`) holds an `Option` type and the sequence
  operations the ORM query chains use: filter, order by a key
  (descending, a permutation) and slice.
- `models.dfy` (`Models`) holds the schema of `products/models.py`.
  - Product and category rows.
  - `final_price` and the stock flag recomputed by `Product.save`.
  - The cart tables. Their invariant `Valid` is one cart per user, one line
    per (cart, product), foreign keys that resolve, and stored quantities
    of at least 1.
- `serializers.dfy` (`Serializers`) covers `products/serializers.py`.
  - The serializers' own discount formula, which is proved equal to the model's.
  - Line totals.
  - The `get_total` loop, proved against a recursive sum. That sum is
    proved order-independent and equal to the sum of the shown line totals.
  - The cart response.
  - The related-products list: at most ten related products drawn from the
    table, newest first, with no related product left out that is newer
    than one kept.
- `catalog_views.dfy` (`CatalogViews`) covers the product list query with
  its parameter filters, and the top-level category list.
- `cart_views.dfy` (`CartViews`) covers `get_or_create_cart` and the cart
  endpoints (`list`, `create`, `partial_update`, `destroy`).
  - Each endpoint is first a function from the tables before the request to
    the tables after it and the response.
  - Each function is split into a decision (`Status`) and its rendering
    (`Respond`).
  - The `Store` class then holds the tables as mutable fields. Its methods
    perform each request step by step, including the insert-then-set of
    `get_or_create`. Each method is proved to end in exactly the state and
    the response the function gives.
- `cart_laws.dfy` (`CartLaws`) proves laws that span several requests:
  - the cart is stable;
  - added quantities accumulate up to the stock;
  - nobody can touch another user's line;
  - deleted lines disappear from the listing.
- `users.dfy` (`UserViews`) covers `MyUserMeView`.
  - Python's `str.strip` over Python's whitespace set.
  - The username validation.
  - A `User` class whose `Patch` writes only the `username` field.

Money is modelled with `real`. No floating point is involved.

Three facts about the code shape the contracts:

- `discount_percent` is a `PositiveSmallIntegerField`
  (products/models.py:25) with no validator bounding it by 100, so the
  model allows any `nat`. `FinalPrice` is proved negative for a discount
  above 100 on a positive price.
- `price` is a `DecimalField` (products/models.py:24) with no validator
  bounding its sign, so the model allows any `real`. The bounds lemmas require a
  non-negative price.
- `create` makes a single `get_or_create` call for the cart
  (products/views.py:77) and one for the line (products/views.py:120),
  with no retry, so no retry is modelled.

## Model

| member | source | states |
|---|---|---|
| Common.Filter | products/views.py:51-67 | `.filter`: keeps exactly the elements satisfying the predicate, each as many times as it occurs in the input, and drops the rest |
| Common.GetOr | products/views.py:106 | `request.data.get(key, default)`: the value sent, or the default when absent (also products/views.py:136) |
| Common.SortDesc | products/views.py:69 | `.order_by("-key")`: the result is ordered by descending key and is a permutation of the input |
| Common.Insert | products/views.py:69 | inserting into a descending sequence keeps it descending and adds exactly that element |
| Common.Take | products/serializers.py:97 | `[:n]`: exactly n elements when the input is longer, all of it otherwise, a prefix of the input and a sub-multiset of it |
| Models.ProductsKeyed | products/models.py:17 | the primary key: every product row is stored under its own id |
| Models.Valid | products/models.py:55-76 | the cart tables' invariant: products keyed by id, one cart per user, foreign keys that resolve, quantities of at least 1, one line per (cart, product) |
| Models.OneCartPerUser | products/models.py:56-60 | no two users share a cart |
| Models.ItemsWellFormed | products/models.py:69-71 | every line belongs to an existing cart and product and holds at least 1 |
| Models.OneLinePerProduct | products/models.py:73-76 | no two lines have the same cart and product |
| Models.FinalPrice | products/models.py:40-44 | no discount leaves the price; a discount of at most 100 on a non-negative price gives a value in [0, price]; a discount above 100 on a positive price gives a negative value |
| Models.DiscountBounds | products/models.py:42-43 | `price * (100 - d) / 100` lies in [0, price] for a non-negative price and d up to 100, and is negative for a positive price and d above 100 |
| Models.Saved | products/models.py:46-48 | after `save`, `is_in_stock` holds exactly when stock is positive, and no other field changes |
| Serializers.SerializerFinalPrice | products/serializers.py:38-42 | the `price - price*d/100` formula equals the model's `final_price` for every price and discount |
| Serializers.Summarize | products/serializers.py:109-122 | the cart's product summary carries the product's id, price, discount and stock flag and its model final price |
| Serializers.LineTotal | products/serializers.py:142-143 | `line_total` is qty times the final price, and lies between 0 and qty times the price when the price is non-negative and the discount at most 100 |
| Serializers.CartTotal | products/serializers.py:154-158 | the sum the total accumulates: 0 for no lines, never negative when every line is well priced |
| Serializers.GetTotal | products/serializers.py:154-158 | the accumulating loop ends with exactly the recursive sum of qty times final price |
| Serializers.SerializeItem | products/serializers.py:140-143 | a response line has the line's id and qty, the product summary, and a line total equal to qty times the shown final price |
| Serializers.SerializeItems | products/serializers.py:147 | one response line per cart line, in order |
| Serializers.TotalIsSumOfLineTotals | products/serializers.py:142-158 | the cart total equals the sum of the `line_total` fields of the response |
| Serializers.CartTotalAppend | products/serializers.py:154-158 | the total of two line lists joined is the sum of their totals |
| Serializers.CartTotalPermutation | products/serializers.py:156 | the total is the same for any order in which the lines are read |
| Serializers.RemoveOne | products/serializers.py:156 | removing the same line from two permutations of each other leaves permutations |
| Serializers.CartTotalWithout | products/serializers.py:154-158 | the total is the total without one line plus that line's total |
| Serializers.SerializeCart | products/serializers.py:146-158 | the cart response has the cart id, one line per row in order, and a total equal to the sum of the line totals (0 for an empty cart) |
| Serializers.IsRelated | products/serializers.py:95-96 | a related product has the same category, is active and is not the product itself |
| Serializers.RelatedProducts | products/serializers.py:90-99 | nothing for a falsy category; otherwise at most 10 active products of the same category, drawn from the table without repeats (a sub-multiset of it), never the product itself, newest first, and any related product left out is no newer than all 10 that were kept |
| Serializers.Newest | products/serializers.py:97 | at most n candidates, a sub-multiset of them, newest first, and any candidate left out is no newer than every one kept |
| Serializers.SameElements | products/serializers.py:97 | sequences with the same multiset have the same members |
| Serializers.TopIsPrefix | products/serializers.py:97 | cutting a newest-first list keeps it sorted and keeps products at least as new as every one cut off |
| CatalogViews.IsYes | products/views.py:54-60 | a flag parameter is on exactly when it is "true", "1" or "yes" |
| CatalogViews.HasParentCategory | products/views.py:66-67 | the product's category row has the given parent |
| CatalogViews.Matches | products/views.py:51-67 | the product is active and meets every filter whose parameter is on |
| CatalogViews.FilterIf | products/views.py:54-67 | a filter step applied only when its parameter is on |
| CatalogViews.Narrowed | products/views.py:51-67 | the filter chain keeps exactly the active products matching every switched-on parameter |
| CatalogViews.ProductQuery | products/views.py:42-69 | the product list holds exactly the matching active products, ordered by descending id |
| CatalogViews.CategoryRoots | products/views.py:25-26 | the category list holds exactly the categories without a parent, by ascending id |
| CartViews.IsFalsyId | products/views.py:108 | a `product_id` that is missing or 0 is refused as required |
| CartViews.IsActiveProduct | products/views.py:113 | the id names a product row whose `is_active` is set |
| CartViews.HeldQty | products/views.py:120-121 | the quantity of the cart's line for the product, 0 when there is none |
| CartViews.FindLine | products/views.py:120 | the lookup finds the line of the cart for the product, or proves there is none |
| CartViews.CartItemIds | products/serializers.py:156 | exactly the ids of the cart's lines, strictly ascending |
| CartViews.LiveRow | products/serializers.py:156-157 | a stored line joined with its product row as it is now |
| CartViews.CartRows | products/serializers.py:156 | every line of the cart, each joined with the current product row |
| CartViews.View | products/serializers.py:146-158 | the cart response lists every line of the cart, each once (ids strictly ascending), priced from the live product row, and its total is the sum of the line totals |
| CartViews.ViewLines | products/serializers.py:146-158 | every response line is a line of the cart serialized from its live row, and every line of the cart appears |
| CartViews.ViewOrder | products/serializers.py:147 | the response lines keep the rows' strictly ascending ids, so no line is shown twice |
| CartViews.CartFor | products/views.py:76-78 | the user's existing cart with nothing changed, or one fresh cart that no other user has, recorded for the user |
| CartViews.Respond | products/views.py:109-127 | a successful decision renders the cart after the request; a refusal carries its status and message |
| CartViews.AddItem | products/views.py:102-127 | `create` keeps the invariants, creates the cart before validating, and a refused request changes nothing else |
| CartViews.AddToCart | products/views.py:105-127 | after the cart is known, `create` keeps the invariants and changes no cart or product; a refusal changes nothing |
| CartViews.PutLine | products/views.py:120-127 | the merge-or-insert step keeps the invariants and changes nothing when it refuses |
| CartViews.AddToCartOutcome | products/views.py:105-127 | 400 for a falsy product id or qty below 1, 404 for a missing or inactive product, 400 when the held qty plus qty exceeds stock; otherwise the cart holds old qty plus qty in one line and no other line changes |
| CartViews.PutLineOutcome | products/views.py:120-126 | the merge sets the product's single line to the old quantity plus qty, unless that exceeds the stock |
| CartViews.AddItemOutcome | products/views.py:102-127 | the responses of `create` as above, with qty defaulting to 1, and a 200 carrying the cart after the request |
| CartViews.UpdateItem | products/views.py:129-146 | 404 for an id missing or in another cart; omitted qty means the current qty; qty below 1 deletes the line; qty above stock is 400 with nothing changed; otherwise only that line's qty is set; a 200 carries the cart |
| CartViews.UpdateLine | products/views.py:132-146 | the same decisions on a known cart, without rendering |
| CartViews.RemoveItem | products/views.py:148-156 | 404 with nothing changed for an id missing or in another cart; otherwise exactly that line is deleted and the cart is returned |
| CartViews.RemoveLine | products/views.py:151-156 | the same decision on a known cart, without rendering |
| CartViews.ListCart | products/views.py:88-90 | listing creates the cart if needed, changes no line and returns the cart's view |
| CartViews.ValidAfterSetQty | products/models.py:73-76 | setting a line's qty to at least 1 keeps one line per (cart, product) and the other invariants |
| CartViews.ValidAfterDelete | products/models.py:73-76 | deleting a line keeps the invariants |
| CartViews.ValidAfterNewLine | products/models.py:73-76 | adding a line for a product the cart does not hold keeps the invariants |
| CartViews.MergedLineFacts | products/views.py:121-126 | after a merge the cart holds the merged qty and only that line changed |
| CartViews.NewLineFacts | products/views.py:120-126 | after an insert the cart holds the new qty and only that line appeared |
| CartViews.ValidAfterSave | products/models.py:46-48 | saving a product keeps the invariants |
| CartViews.HeldAfterSetQty | products/views.py:143-144 | after setting a line's qty the cart holds that qty of its product |
| CartViews.HeldAfterNewLine | products/views.py:120-126 | after inserting a line the cart holds its qty of the product |
| CartViews.Store.constructor | products/models.py:17-76 | a database with the given products and no cart or line |
| CartViews.Store.SaveProduct | products/models.py:46-48 | writes the product with its recomputed stock flag and leaves the cart tables as they were |
| CartViews.Store.GetOrCreateCart | products/views.py:76-78 | ends in exactly the tables and cart of `CartFor` |
| CartViews.Store.Serialize | products/serializers.py:146-158 | builds, with the `get_total` loop, exactly the cart view |
| CartViews.Store.Reply | products/views.py:109-127 | renders a decision exactly as `Respond` does |
| CartViews.Store.List | products/views.py:88-90 | ends in exactly the state and view of `ListCart` |
| CartViews.Store.Create | products/views.py:102-127 | ends in exactly the state and response of `AddItem` |
| CartViews.Store.AddToCartStep | products/views.py:105-127 | performs the checks of `create` in order and ends as `AddToCart` says |
| CartViews.Store.PutLineStep | products/views.py:120-126 | the insert-at-default-1, set, check and save of `create` end as `PutLine` says |
| CartViews.Store.PartialUpdate | products/views.py:129-146 | ends in exactly the state and response of `UpdateItem` |
| CartViews.Store.UpdateLineStep | products/views.py:132-146 | changes the line as `UpdateLine` says |
| CartViews.Store.Destroy | products/views.py:148-156 | ends in exactly the state and response of `RemoveItem` |
| CartLaws.CartForIsStable | products/views.py:76-78 | a second `get_or_create_cart` returns the same cart and changes nothing |
| CartLaws.ListCartIsIdempotent | products/views.py:88-90 | listing twice gives the same tables and the same view |
| CartLaws.CartSurvivesRequests | products/views.py:103 | after `create` the user's cart is the one it worked on |
| CartLaws.AddTwiceAccumulates | products/views.py:120-126 | adding a then b of a product not yet held both succeed when stock covers a+b, leaving one line that holds a+b |
| CartLaws.FullLineRefusesMore | products/views.py:123-124 | when the cart holds all the stock, any further add is 400 "Not enough stock" and changes nothing beyond the cart |
| CartLaws.ForeignLine | products/models.py:56-60 | a line of another user's cart is never in the caller's cart, fresh or existing |
| CartLaws.UpdateCannotReachForeignLine | products/views.py:132-134 | updating another user's line is 404 and leaves every line as it was |
| CartLaws.RemoveCannotReachForeignLine | products/views.py:151-153 | deleting another user's line is 404 and leaves every line as it was |
| CartLaws.ZeroQtyDropsLine | products/views.py:138-139 | setting qty below 1 deletes the line: neither the response nor a later list shows it |
| CartLaws.RemovedLineIsNotListed | products/views.py:155-156 | a deleted line is not in the later list |
| CartLaws.AddedProductIsListed | products/views.py:120-127 | after a successful add the response shows a line for the product holding the old quantity plus the added one |
| CartLaws.HeldLineIsListed | products/serializers.py:146-158 | a product the cart holds is shown with the quantity held |
| CartLaws.MergedAdditionIsExact | products/views.py:120-126 | adding a product the cart holds sets that line to its quantity plus the added one and changes no other line |
| CartLaws.NewAdditionIsExact | products/views.py:120-126 | adding a product the cart does not hold adds exactly one line with the added quantity under the next id |
| CartLaws.PinnedMerge | products/views.py:120-126 | the outcome contract of `create` pins the line table: with an old line, it is that line with the new quantity |
| CartLaws.PinnedInsert | products/views.py:120-126 | the outcome contract of `create` pins the line table: without an old line, it is the old table plus one new line |
| UserViews.IsSpace | users/views.py:63 | the characters Python's `str.strip()` removes |
| UserViews.LeadingSpaces | users/views.py:63 | the count of leading whitespace characters, ending at the first non-whitespace |
| UserViews.TrailingSpaces | users/views.py:63 | the count of trailing whitespace characters, stopping at the last non-whitespace |
| UserViews.Strip | users/views.py:63 | `strip()` yields a slice of the input bounded by whitespace only, empty exactly for all-whitespace input, else starting and ending with non-whitespace |
| UserViews.TrimmedSlice | users/views.py:63 | the text between the leading and trailing whitespace is a slice followed only by whitespace, empty exactly for all-whitespace input, else bounded by non-whitespace |
| UserViews.StripIsIdempotent | users/views.py:63 | stripping twice is stripping once |
| UserViews.CheckUsername | users/views.py:56-68 | absent or empty is "This field is required."; a stripped value shorter than 3 is "Username must be at least 3 characters."; otherwise the stripped value is accepted |
| UserViews.AcceptedIsStable | users/views.py:63-71 | an accepted username has no whitespace at its ends and is accepted unchanged when sent again |
| UserViews.BlankIsTooShort | users/views.py:56-68 | a non-empty all-whitespace value passes the required check and fails the length check |
| UserViews.PatchMe | users/views.py:53-76 | on acceptance only the username changes, to the stripped value, and the response shows id, email and new username; on rejection the user is unchanged |
| UserViews.User.constructor | users/views.py:47-51 | a user with the given id, email and username |
| UserViews.User.Get | users/views.py:46-51 | the response is exactly the user's id, email and username |
| UserViews.User.Patch | users/views.py:53-76 | writes only `username` and ends in exactly the user and response of `PatchMe` |

## Left out

- HTTP, routing, permissions and JWT authentication are framework calls. The model takes the authenticated user's id as a parameter and an already-parsed request body.
- Concurrency: the race between two `get_or_create` calls, and the uniqueness-conflict error it can raise, are not modelled. The uniqueness constraints are invariants instead.
- `int(...)` on a non-numeric `qty` raises an exception. Quantities are modelled as already-parsed integers. The `category` and `parent_category` parameters are already-parsed ids, `None` when absent or empty.
- The `if not username` check also rejects other falsy JSON values (0, lists) and `str()` converts non-strings. The model takes the username as an optional string.
- `get_price_text` is presentation formatting with a currency symbol.
- Admin, profile images, `MyProfileView` and `UploadProfileImage` are external storage and presentation.
- Name, slug, SKU, image, unit, description and update timestamps are not modelled. `created_at` is an abstract ordering key.
- Search and ordering query parameters of the list endpoints come from framework filter backends.
- Database ordering: the cart's lines have no declared order. The model lists them by ascending line id, and `CartTotalPermutation` proves the total does not depend on that order.
- Decimal context precision (28 significant digits) is not modelled. Each line total is exact with 12-digit prices and integer percentages; the running total of `get_total` is exact while it stays within 28 significant digits.
- `if not product_id` tests the raw JSON value. The model takes `product_id` as an already-parsed integer, with 0 standing for every falsy raw value. Truthy raw values that are not integer ids (the string "0", `true`) are not modelled.
- UserViews.PatchMe: the uniqueness of the `username` column of the user table is not modelled. Renaming to a name another user holds makes `u.save` (users/views.py:70-71) fail there, and is accepted here.
- UserViews.User.Patch: the same unique-column failure of `u.save` is not modelled.
- Models.FinalPrice: the upper bounds of the integer columns (32767 for `discount_percent`, 12 digits for `price`) are not modelled.
