# BADJUICE storefront page: a verified model

The BADJUICE site is a one-page React storefront. Its page component
(`src/pages/Index.tsx`) holds three state cells: the shopping **cart**, an
ordered list of lines (a catalog product plus a quantity); **currentTrack**,
the index of the selected track in the audio archive tab; and **activeTab**,
the tab on show. Every user event replaces one of them. The model keeps
`cart` and `currentTrack`; `activeTab` only switches tabs and is left out.
The shop tab shows the static catalog of six products in two sections,
juices and clothing.

This project models that logic in Dafny:

- `sequences.dfy` (module `Sequences`): the array built-ins the page uses
  (`find`, `map`, `filter`, `reduce`) as functions on sequences, with what
  they promise (pointwise results, membership, order, partition).
- `catalog.dfy` (module `Catalog`): `Product`, the six-entry catalog and the
  two category sections.
- `cart.dfy` (module `Cart`): the pure updaters that `addToCart`,
  `removeFromCart` and `updateQuantity` hand to `setCart`, the
  `totalPrice` fold, and the lemmas about them. The cart invariant
  (`WellFormed`) says that no two lines have the same product id and that
  every quantity is at least 1.
- `tracks.dfy` (module `Tracks`): the track list and the clamped skip
  arithmetic of the two skip buttons.
- `index_page.dfy` (module `Page`): class `Index`, whose fields `cart` and
  `currentTrack` are the two state cells. Each handler is a method that
  installs the value the matching pure function computes. Each method keeps
  `Valid()`, which holds when the cart is well formed and the track index is
  in range.

The source's constants and inline callbacks appear as named declarations
without contracts of their own; the members that use them carry the
properties:

- `Catalog.Products` is the catalog at `src/pages/Index.tsx:23-30`, and
  `Tracks.Playlist` the track list at `src/pages/Index.tsx:37`.
- `Catalog.InCategory` is the test `p => p.category === ...` at
  `src/pages/Index.tsx:179` and `:210`.
- `Cart.HasId` is the `find` test at `:41`, `Cart.Increment` the `map`
  callback at `:44`, `Cart.OtherId` the `filter` test at `:52`,
  `Cart.SetQuantity` the `map` callback at `:61`, and `Cart.AddLine` the
  reducer at `:65`.

A cart line is `CartItem(product, quantity)`. The source's
`CartItem extends Product` copies the product's fields into the line with
spread syntax. Keeping the product record whole as one field carries the
same data. JavaScript numbers are modelled as unbounded integers, because
ids, prices and quantities are small whole numbers here.

The page's code is narrower than a full storefront:

- Selecting a track only sets the index. It does not clamp the index, and it
  does not start playback.
- The page has no review store, no rating filter and no playback state
  machine, so the model has none either.

## Model

| member | source | states |
|---|---|---|
| `Sequences.Find` | src/pages/Index.tsx:41 | `find` gives nothing exactly when no element passes; otherwise it gives the first element that passes |
| `Sequences.Map` | src/pages/Index.tsx:43-45 | `map` keeps the length, and element `i` of the result is `f` applied to element `i` |
| `Sequences.Reduce` | src/pages/Index.tsx:65 | `reduce` returns the start value for an empty list, and otherwise combines the last element last, with the fold of everything before it |
| `Sequences.Filter` | src/pages/Index.tsx:52 | `filter` keeps exactly the elements that pass, and never lengthens the list |
| `Sequences.FilterIsSubsequence` | src/pages/Index.tsx:52 | the survivors of a `filter` keep their original relative order |
| `Sequences.FilterKeepsAll` | src/pages/Index.tsx:52 | a `filter` that every element passes returns the list unchanged |
| `Sequences.FilterDropsOne` | src/pages/Index.tsx:52 | a `filter` that rejects exactly the element at `k` returns the list without that one element, the rest in order |
| `Sequences.FilterPartition` | src/pages/Index.tsx:179-210 | two filters with complementary tests split a list: together they hold every element exactly as often as the list does |
| `Catalog.CategoryView` | src/pages/Index.tsx:179-210 | a section holds only catalog products of its category, and every catalog product of that category |
| `Catalog.CatalogWellFormed` | src/pages/Index.tsx:23-30 | catalog ids are pairwise distinct and prices are non-negative |
| `Catalog.ViewsKeepCatalogOrder` | src/pages/Index.tsx:179-210 | both sections list their products in catalog definition order |
| `Catalog.ViewsPartitionCatalog` | src/pages/Index.tsx:179-210 | the juice and clothing sections together are the whole catalog as a multiset |
| `Catalog.SplitByCategory` | src/pages/Index.tsx:179-210 | splitting any product list into juices and clothing neither loses nor duplicates a product |
| `Catalog.EachProductShownOnce` | src/pages/Index.tsx:179-210 | every catalog product appears exactly once across the two sections |
| `Catalog.JuiceViewContents` | src/pages/Index.tsx:179 | the juice section is products 1, 2 and 5, in that order |
| `Catalog.ClothingViewContents` | src/pages/Index.tsx:210 | the clothing section is products 3, 4 and 6, in that order |
| `Cart.AddToCart` | src/pages/Index.tsx:39-49 | after `addToCart(p)` the cart has a line for `p.id`; it gains a line exactly when it had none |
| `Cart.RemoveFromCart` | src/pages/Index.tsx:51-53 | after `removeFromCart(id)` no line has `id`, and the remaining lines are exactly the old lines with other ids |
| `Cart.UpdateQuantity` | src/pages/Index.tsx:55-63 | a quantity of 0 or less leaves no line for `id`; a positive quantity keeps the length and every line's product in place |
| `Cart.Ids` | src/pages/Index.tsx:81-83 | the set of ids in the cart is exactly the ids that have a line |
| `Cart.AddToCartExisting` | src/pages/Index.tsx:41-45 | when `p.id` has a line, that line's quantity rises by exactly 1 and every other line and the order stay the same |
| `Cart.AddToCartNew` | src/pages/Index.tsx:47 | when `p.id` has no line, the new cart is the old one with `{...p, quantity: 1}` appended |
| `Cart.AddToCartPreservesWellFormed` | src/pages/Index.tsx:39-49 | `addToCart` keeps ids distinct and every quantity at least 1 |
| `Cart.RemoveFromCartDeletesLine` | src/pages/Index.tsx:52 | removing an id that has line `k` gives the cart without line `k`, the rest in their original order |
| `Cart.RemoveFromCartAbsent` | src/pages/Index.tsx:52 | removing an absent id leaves the cart unchanged |
| `Cart.RemoveFromCartKeepsOrder` | src/pages/Index.tsx:52 | the remaining lines are a subsequence of the old cart |
| `Cart.RemoveFromCartPreservesWellFormed` | src/pages/Index.tsx:51-53 | `removeFromCart` keeps ids distinct and every quantity at least 1 |
| `Cart.UpdateQuantityNonPositiveRemoves` | src/pages/Index.tsx:56-58 | `updateQuantity(id, q)` with `q <= 0` gives exactly the cart `removeFromCart(id)` gives |
| `Cart.UpdateQuantityPositive` | src/pages/Index.tsx:60-62 | with `q > 0`, the line for `id` gets quantity exactly `q` and every other line stays the same |
| `Cart.UpdateQuantityAbsent` | src/pages/Index.tsx:55-63 | updating an id that has no line never creates one and changes nothing |
| `Cart.UpdateQuantityPreservesWellFormed` | src/pages/Index.tsx:55-63 | `updateQuantity` keeps ids distinct and every quantity at least 1 |
| `Cart.MinusButton` | src/pages/Index.tsx:111 | the minus button deletes a line of quantity 1 and otherwise lowers the line by exactly 1 |
| `Cart.PlusButton` | src/pages/Index.tsx:120 | the plus button raises the line by exactly 1 |
| `Cart.ReduceAddsLines` | src/pages/Index.tsx:65 | folding with the price reducer from any start adds the sum of line totals to that start |
| `Cart.TotalPrice` | src/pages/Index.tsx:65 | `totalPrice`, the fold with the price reducer from 0, is the sum of `price * quantity` over all lines, and 0 for an empty cart |
| `Cart.TotalPriceNonNegative` | src/pages/Index.tsx:65 | with non-negative prices, a well-formed cart never totals below 0 |
| `Cart.LinesSumAppend` | src/pages/Index.tsx:47 | appending a line raises the sum by that line's total |
| `Cart.LinesSumUpdate` | src/pages/Index.tsx:43-45 | replacing one line changes the sum by the difference of the two line totals |
| `Cart.TotalAfterAdd` | src/pages/Index.tsx:39-65 | in a cart with one line per id, each `addToCart(p)` raises `totalPrice` by `p.price` when the line for `p.id`, if any, carries `p.price` |
| `Cart.AddOneMore` | src/pages/Index.tsx:39-49 | one more `addToCart(p)` on a cart holding only `m` units of `p` gives one line of `m + 1` units and adds `p.price` to the total |
| `Cart.AddTimesFromEmpty` | src/pages/Index.tsx:39-65 | from an empty cart, `n` calls of `addToCart(p)` give one line of `n` units and a total of `p.price * n` |
| `Cart.LineCountIsProductCount` | src/pages/Index.tsx:81-83 | the badge count `cart.length` equals the number of distinct products in the cart |
| `Cart.CartScenario` | src/pages/Index.tsx:24-65 | two BLOOD ORANGE and one ARCHIVE HOODIE make 2 lines totalling 3200 |
| `Tracks.Max` | src/pages/Index.tsx:267 | `Math.max` gives one of its arguments, and one no smaller than either |
| `Tracks.Min` | src/pages/Index.tsx:281 | `Math.min` gives one of its arguments, and one no larger than either |
| `Tracks.SkipBack` | src/pages/Index.tsx:267 | skip back moves one step down from a later track, stays put at track 0, and never leaves the range |
| `Tracks.SkipForward` | src/pages/Index.tsx:281 | skip forward moves one step up from an earlier track, stays put at the last track, and never leaves the range |
| `Tracks.Navigate` | src/pages/Index.tsx:244-284 | with no presses the track stays put, and after a row click as the last press the clicked row's track is current |
| `Tracks.NavigateStaysInRange` | src/pages/Index.tsx:244-284 | any sequence of row clicks and skip presses keeps the current track in `[0, count - 1]` |
| `Tracks.RepeatedSkipBack` | src/pages/Index.tsx:267 | `k` skip-back presses land on `max(0, current - k)`, so there is no wrap-around |
| `Tracks.RepeatedSkipForward` | src/pages/Index.tsx:281 | `k` skip-forward presses land on `min(count - 1, current + k)`, so there is no wrap-around |
| `Page.Index.constructor` | src/pages/Index.tsx:33-35 | the page starts with an empty cart and track 0 |
| `Page.Index.AddToCart` | src/pages/Index.tsx:39-49 | the handler installs the cart `Cart.AddToCart` computes and keeps the page invariant |
| `Page.Index.RemoveFromCart` | src/pages/Index.tsx:51-53 | the handler installs the cart `Cart.RemoveFromCart` computes and keeps the page invariant |
| `Page.Index.UpdateQuantity` | src/pages/Index.tsx:55-63 | the handler delegates to removal for `q <= 0`, otherwise maps the quantity in; it keeps the page invariant |
| `Page.Index.SelectTrack` | src/pages/Index.tsx:244-247 | clicking the row at position `index` makes that track current |
| `Page.Index.SkipBack` | src/pages/Index.tsx:267 | the skip-back button installs `Tracks.SkipBack` of the current track and keeps it in range |
| `Page.Index.SkipForward` | src/pages/Index.tsx:281 | the skip-forward button installs `Tracks.SkipForward` of the current track and keeps it in range |

## Left out

- Rendering: all JSX, styling classes and the UI library components (Sheet, Tabs, Card, Badge, Button, Icon). They are presentation and carry no behaviour.
- The checkout fields (name, phone, address) and the order button. They are uncontrolled inputs with no handler.
- The large play button. It has no handler, and the page has no audio element, so there is no playback state to model.
- `activeTab`. It is plain tab-switching UI state.
- Reviews, rating aggregation, rating filters, play/pause, time updates, auto-advance at the end of a track and time formatting. None of these exist in the page's code.
- Page.Index.SelectTrack: requires a listed index, because the only caller is a track row that passes its own position. The source's `setCurrentTrack(index)` would accept any number.
- JavaScript numbers are doubles, so very large quantities or totals would lose precision. The model uses unbounded integers.
- Product images are kept as strings. The model does not look inside them.
