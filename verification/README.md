# Storefront cart and catalog, modelled in Dafny

This project models the state logic of a small storefront page (`task5.js`). It covers:

- the static product **catalog**: eight products, each with an id, a name, a price and a category;
- the two **catalog queries**:
  - the category filter (`filterProducts`);
  - the case-insensitive search over name and category (`performSearch`);
- the **shopping cart**: an ordered list of lines, where each line is a copy of a product plus a quantity. The cart operations are `addToCart`, `updateQuantity`, `removeFromCart` and `checkout`. The cart also has the badge count (a `reduce`) and the total shown in the cart panel (a loop).

The model is functional. Every operation is a pure function from the old cart to the new one.

Modules, one per file:

- `Wrappers`: `Option` and `Result`.
- `Sequences`: the JavaScript array `find` and `filter`, with their laws.
- `Text`: ASCII `toLowerCase` and `includes`.
- `Catalog`: the product data, `FindById` and the two queries.
- `Cart`: the cart operations, its invariant (`Valid`: one line per id, every quantity at least 1), and the sums.
- `Scenario`: worked scenarios over the real catalog, each a lemma about fixed inputs:
  - adding 1, 1, 3 gives count 3 and a charge of 229997 cents;
  - lowering a line below zero removes it;
  - the "gaming" filter finds the expected products;
  - searching "PRO" finds the expected products.

Prices are integer cents. For example, 999.99 is `99999`.

The JavaScript code copies the whole product into the cart line (`{...product, quantity: 1}`), so a line keeps the price it had when it was added. The model follows the code: `CartLine(item: Product, quantity: int)`. It does not store a product id that is resolved against the catalog when the total is computed.

`addToCart` looks in the cart before it needs the product. An id that already has a line gets one more unit whether or not the catalog still lists it. Only the append path depends on the catalog lookup.

`updateQuantity` changes the *first* line for the id. When the quantity would drop to zero or below, it removes *every* line for that id, because `removeFromCart` is a `filter`. The model keeps both behaviours, so neither operation needs a precondition. On a valid cart there is only one such line.

## Model

| member | source | states |
|---|---|---|
| Sequences.Find | task5.js:167-168 | `find` returns the first position whose element passes the test; it returns nothing exactly when no element passes |
| Sequences.Filter | task5.js:149 | `filter` never grows the list, and everything it returns passes the test and comes from the input |
| Sequences.FilterMembers | task5.js:149 | an element survives `filter` exactly when it is in the input and passes the test |
| Sequences.FilterCounts | task5.js:157-160 | `filter` keeps every copy of a passing element and no copy of a failing one |
| Sequences.FilterIsSubsequence | task5.js:265 | `filter` only deletes; the survivors keep their relative order |
| Sequences.FilterDropsOne | task5.js:265 | when only the element at `k` fails the test, `filter` is exactly the input with position `k` cut out |
| Text.LowerChar | task5.js:156 | lower-casing a character never yields an upper-case letter; it shifts `A`-`Z` to `a`-`z` and leaves every other character unchanged |
| Text.ToLower | task5.js:156-159 | `toLowerCase` keeps the length, turns each letter `A`-`Z` into its lower-case partner `a`-`z`, and leaves every other character in place |
| Text.ToLowerIdempotent | task5.js:156-159 | lower-casing twice is the same as lower-casing once |
| Text.ContainsOccurs | task5.js:158-159 | `includes` is true exactly when the needle occurs at some position of the string |
| Catalog.FindById | task5.js:167 | the lookup returns a catalog product with that id, and returns nothing exactly when no product has it; with unique ids it is the only product with that id |
| Catalog.FilterByCategory | task5.js:147-149 | the category filter returns exactly the catalog products whose category equals the argument, as a subsequence in catalog order |
| Catalog.FilterByCategoryCounts | task5.js:149 | the category filter keeps every copy of a matching product and no copy of any other |
| Catalog.MatchesTermOccurs | task5.js:157-160 | a product passes the search test exactly when the lower-cased term occurs in its lower-cased name or in its lower-cased category |
| Catalog.Search | task5.js:155-160 | the search returns exactly the catalog products whose lower-cased name or category contains the lower-cased term, as a subsequence in catalog order |
| Catalog.SearchCounts | task5.js:157-160 | the search keeps every copy of a matching product and no copy of any other |
| Catalog.SearchEmptyTerm | task5.js:156-160 | searching for the empty term returns the whole catalog, unchanged |
| Catalog.SearchIgnoresTermCase | task5.js:156 | searching for a term and for its lower-cased form give the same result |
| Cart.Reduce | task5.js:191 | the left fold that `reduce` performs equals its start value plus the line-by-line sum |
| Cart.Count | task5.js:190-192 | the badge count is the sum of the quantities, and it is 0 for an empty cart |
| Cart.CountBoundsLines | task5.js:191 | in a valid cart the count is at least the number of lines, so the count is 0 exactly when the cart is empty |
| Cart.TotalCostNonnegative | task5.js:277 | a cart whose quantities are all positive never has a negative total |
| Cart.FindLine | task5.js:168 | the cart lookup returns the first line for the id, and returns nothing exactly when no line has it; in a valid cart no other line has that id |
| Cart.AddToCart | task5.js:166-174 | the call fails only for an id that has no line and is not in the catalog. An existing line gains one unit, with every line kept in place. A new id appends one line holding that catalog product with quantity 1, and the earlier lines form an unchanged prefix. The id list grows by at most that id. A valid cart stays valid |
| Cart.AddToCartCount | task5.js:166-174 | a successful add raises the count by exactly 1 |
| Cart.AddToCartTotal | task5.js:166-174 | a successful add raises the total by one unit price: the existing line's price, or the catalog price for a new line |
| Cart.AddOneMore | task5.js:166-174 | adding a catalog id to a valid cart succeeds, keeps the cart valid, counts one more unit and leaves a line for the id |
| Cart.AddNFacts | task5.js:166-174 | `n` successive `addToCart` calls for one catalog id on a valid cart never fail. The cart they leave is valid, counts exactly `n` more units and holds one line for the id |
| Cart.AddTimes | task5.js:166-174 | the result is the cart after `n` successive `addToCart` calls for one catalog id, none of which fails. It stays valid, its count rises by exactly `n`, and it holds exactly one line for the id. The number of lines grows by one only when the id was new |
| Cart.UpdateQuantity | task5.js:250-261 | an id with no line leaves the cart unchanged. A result of zero or less removes the id's lines. Otherwise only that line's quantity moves by `change`, and every line keeps its place. A valid cart stays valid |
| Cart.UpdateQuantityCount | task5.js:250-261 | updating moves the count by `change`, or down by the old quantity when the line is removed |
| Cart.PlusIsAdd | task5.js:250-253 | on a line already in a valid cart, raising its quantity by 1 gives the same cart as adding the id again, whatever the catalog holds |
| Cart.RemoveFromCart | task5.js:264-265 | no line for the id remains. Every copy of every other line survives, in its original order. An absent id changes nothing, so removing twice equals removing once. A valid cart stays valid |
| Cart.FilterKeepsDistinct | task5.js:265 | filtering a cart whose ids are distinct leaves them distinct |
| Cart.RemoveDeletesOneLine | task5.js:265 | in a valid cart, removing an id cuts out exactly its single line and closes the gap |
| Cart.RemoveFromCartSums | task5.js:265 | removing an id takes exactly its line's quantity off the count and its cost off the total |
| Cart.Checkout | task5.js:271-279 | an empty cart is refused: it is left as it was and no total is produced. Otherwise the total is the sum of price times quantity and the cart is emptied. Validity is kept, and the total is never negative for positive quantities |
| Cart.DisplayTotal | task5.js:202-213 | the running total of the cart panel equals the sum of price times quantity; it is the amount checkout charges, and 0 for an empty cart |
| Scenario.ProductIdsUnique | task5.js:2-75 | the catalog holds 8 products, and no two share an id |
| Scenario.AddOneTwice | task5.js:166-174 | adding id 1 twice to an empty cart gives one line of the "Galaxy Pro Max" with quantity 2 |
| Scenario.AddThreeAfterOnes | task5.js:166-174 | adding id 3 next appends the headphones as a second line with quantity 1 |
| Scenario.OneOneThreeTotals | task5.js:271-279 | that cart counts 3 units, and checkout charges 2 × 99999 + 29999 = 229997 cents and empties it |
| Scenario.CheckoutEmpty | task5.js:272-275 | checking out an empty cart charges nothing and leaves the cart empty |
| Scenario.DropBelowZero | task5.js:250-256 | a line of 2 units lowered by 5 is removed, and the count becomes 0 |
| Scenario.GamingCategory | task5.js:147-149 | the "gaming" filter returns the console and the monitor, in that order |
| Scenario.SearchPro | task5.js:155-160 | searching "PRO" returns "Galaxy Pro Max", "UltraBook Pro" and "Wireless Earbuds Pro", in catalog order |

## Left out

- Rendering and DOM wiring are not modelled: `displayProducts`, the `updateCartDisplay` markup, event listeners, `toggleCart`, `scrollToProducts` and `init`. They hold no state beyond the sums that are modelled.
- The button animation through `setTimeout` and the `alert` dialogs are not modelled. They are cosmetic side effects. Checkout's `alert` carries the total, which `Checkout` returns instead. Checkout's final `toggleCart` only opens or closes the panel.
- Prices are JavaScript floats in the source. The model uses exact integer cents, so float rounding and `toFixed(2)` formatting are not modelled.
- The product fields `icon`, `rating` and `reviews` are not modelled. They are only rendered.
- `currentFilter` is not modelled: it is written by `filterProducts` and never read.
- Cart.AddToCart: an id missing from both the cart and the catalog returns `Err(ProductNotFound)`. The source instead pushes the malformed line `{quantity: 1}`, which has no id and no price. The model does not reproduce that line.
- Text.ToLower: lower-cases only the ASCII letters `A`-`Z`; full Unicode case mapping is not modelled. Every catalog string is ASCII, but the search term is user input, so the model differs on non-ASCII terms. For example, JavaScript lower-cases the Kelvin sign U+212A to `k`, so `performSearch` on it finds "UltraBook Pro", "4K Gaming Monitor" and "MacBook Air M3". `Search(Products, "\u212A")` finds nothing.
- `parseInt` on the button's data attributes is not modelled. The operations take the parsed id and change as integers.
