# Rocker Pizza storefront: cart, promo configurator and checkout, in Dafny

This project models the ordering logic of the Rocker Pizza web storefront, a
single-page React shop. Four parts of it are modelled:

- **Cart engine** (`src/App.tsx`). The cart is an ordered list of lines, each a product
  snapshot with a quantity. `addToCart` merges a product into the matching line or
  appends a line of quantity 1. `updateQuantity` moves the quantities of every line with
  an id, clamps them at 0 and drops the lines that reach 0. `removeFromCart` drops
  every line with an id. `cartCount` sums the quantities.
  Module `CartEngine`: each operation is a pure function over the line list. The class
  `CartEngine.Cart` holds the list in a `seq` field, and its methods replace it, as
  `setCartItems` does.
- **Promo configurator** (`src/components/MenuSection.tsx`). Clicking a product with
  ingredient options opens a session with `pizzaCount || 1` empty ingredient slots;
  any other product goes straight to the cart. The tabs choose the current slot, and
  the ingredient buttons toggle names in it within a cap. The search box narrows the
  options shown. The confirm button hands the slots to the cart as the product's
  `pizzaBundles` and ends the session.
  Module `Configurator`, class `BundleConfigurator`.
- **Checkout** (`src/components/Cart.tsx`). `total` is the sum of price times quantity.
  `handleWhatsAppCheckout` builds the order message line by line.
  Module `Checkout`: the message is specified as a list of lines (`Transcript`) joined
  by newlines. The method `BuildMessage` builds the same text with loops and appends,
  and is proved equal to it.
- **Catalog** (`src/data/products.ts`): the sixteen Rocker toppings, four promos and two
  drinks. Module `Catalog`.

Further modules:

- `Types` holds the records of `src/types.ts`.
- `Builtins` writes out the JavaScript library operations the code relies on: the
  default string order of `sort`, `sort` itself, `includes`, `join`, `filter` and the
  decimal text of an integer.
- `Scenarios` proves end-to-end facts about the pieces working together over the catalog.

Two library calls become parameters: `toLocaleString('es-CL')` is a function `fmt` from
integers to text, and `toLowerCase` is a function `lower` from text to text.

The merge test of `addToCart` compares only the id and the sorted
`selectedIngredients`. The configurator sets only `pizzaBundles`, so two differently
topped configurations of one promo merge into one line. That line gains quantity 2 and
keeps the first configuration's toppings (`Scenarios.PromoAddedTwiceMerges`).

Quirks of the code that the model keeps:

- A line's `selectedIngredients` is `Option<seq<string>>`. An absent list and an empty
  list serialise differently in the merge test, so they do not merge.
- The merge test sorts ingredient lists in place. Because `&&` short-circuits, only
  lines with the product's id are sorted, and the added product's own list is sorted
  only when some line has its id (`CartEngine.AddedProduct`).
- `map` raises every matching line, not just the one `find` returned.
  `updateQuantity` and `removeFromCart` act on every line with the id.
- The toggle handler caps a slot at `maxIngredients || 1`, while the counter and the
  disable check use `maxIngredients || 3`.
- The confirm handler does not itself test that every slot is filled; the disabled
  button is the only gate (`ClickConfirm` models the button).

## Model

| member | source | states |
|---|---|---|
| CartEngine.MatchesIffSameSelection | src/App.tsx:30-32 | a line matches a product exactly when the ids are equal and both ingredient lists hold the same names counted with multiplicity, in any order, or both are absent; no other field, in particular not `pizzaBundles`, takes part |
| CartEngine.KeyOfSortedProduct | src/App.tsx:32 | the in-place sort done by the merge test never changes what the test compares |
| CartEngine.NumMatchesExact | src/App.tsx:30-33 | in a cart without two lines of one key, the number of lines matching a product is 1 when one matches and 0 otherwise |
| CartEngine.CountAfterIncrement | src/App.tsx:36-40 | raising each matching line by one raises the summed quantity by the number of matching lines |
| CartEngine.AddedToCart | src/App.tsx:27-43 | the length stays when a line matches and grows by one otherwise; every old line keeps its place and gains 1 exactly when it matches, its ingredient list sorted exactly when it has the product's id; without a match the new last line is the product with quantity 1 |
| CartEngine.AddedToCartCount | src/App.tsx:36-42 | in a cart without two lines of one key, adding any product raises the badge count by exactly one |
| CartEngine.AddedToCartValid | src/App.tsx:30-42 | adding keeps all quantities positive and never creates two lines with one key |
| CartEngine.CartCountAppend | src/App.tsx:61 | the badge count of two carts laid end to end is the sum of their counts |
| CartEngine.RemovedFromCart | src/App.tsx:57-59 | the result holds exactly the lines whose id differs from the given id; when no line has the id the cart is returned unchanged |
| CartEngine.RemovedFromCartAppend | src/App.tsx:58 | removal works piecewise, so the kept lines stay in their relative order |
| CartEngine.RemovedFromCartCount | src/App.tsx:58 | the count drops by exactly the summed quantity of the lines with the id |
| CartEngine.RemovedFromCartValid | src/App.tsx:57-59 | removal keeps quantities positive and keys distinct |
| CartEngine.QuantityUpdated | src/App.tsx:47-55 | after a quantity change every remaining line has a positive quantity and there are no more lines than before |
| CartEngine.QuantityUpdatedOthers | src/App.tsx:48-54 | lines with other ids come through unchanged and in their original relative order |
| CartEngine.QuantityUpdatedToZero | src/App.tsx:48-54 | a change that takes every line with the id to zero or below leaves exactly what removing the id leaves |
| CartEngine.QuantityUpdatedKeepsLines | src/App.tsx:48-54 | a change that keeps every line with the id above zero keeps all lines in place and moves just those quantities by the delta |
| CartEngine.QuantityUpdatedMembers | src/App.tsx:48-54 | a line survives a quantity change exactly when it has another id and a positive quantity, and is then unchanged, or it has the id and its quantity plus the delta is positive, and is then moved by the delta |
| CartEngine.QuantityUpdatedAppend | src/App.tsx:48-54 | a quantity change works line by line over a concatenation, so the surviving lines of every id keep their relative order |
| CartEngine.QuantityUpdatedLine | src/App.tsx:49-54 | a single line with the id becomes `max(0, q + delta)` and is dropped at zero; a line with another id is kept while its quantity is positive |
| CartEngine.QuantityUpdatedValid | src/App.tsx:47-55 | a quantity change keeps quantities positive and keys distinct |
| CartEngine.Cart.constructor | src/App.tsx:11 | the cart starts empty |
| CartEngine.Cart.AddToCart | src/App.tsx:27-45 | the new list is the add transformation of the old one, the cart invariant holds and the badge count rises by one |
| CartEngine.Cart.UpdateQuantity | src/App.tsx:47-55 | the new list is the quantity transformation of the old one, the invariant holds and lines with other ids are untouched |
| CartEngine.Cart.RemoveFromCart | src/App.tsx:57-59 | the new list is the removal of the old one, the invariant holds and no line with the id is left |
| Builtins.Sort | src/App.tsx:32 | sorting yields a permutation of its input |
| Builtins.SortSorted | src/App.tsx:32 | the sorted list is in ascending string order |
| Builtins.SortCanonical | src/App.tsx:32 | two lists sort to the same list exactly when they hold the same strings with the same multiplicities |
| Builtins.SortIdempotent | src/App.tsx:32 | sorting a sorted list changes nothing |
| Builtins.StrLeqTotal | src/App.tsx:32 | any two strings are comparable in the default sort order |
| Builtins.StrLeqAntisymmetric | src/App.tsx:32 | strings ordered both ways are equal |
| Builtins.StrLeqTransitive | src/App.tsx:32 | the default sort order is transitive |
| Builtins.ContainsIff | src/components/MenuSection.tsx:234 | `includes` holds exactly when the term occurs at some position of the text |
| Builtins.Filter | src/App.tsx:58 | `filter` keeps exactly the elements its test accepts and never lengthens the list |
| Builtins.FilterAppend | src/App.tsx:58 | `filter` works piecewise over a concatenation, so it keeps the order of what it keeps |
| Builtins.FilterKeepsAll | src/App.tsx:54 | `filter` with a test every element passes returns the list itself |
| Builtins.FilterPairwise | src/App.tsx:54 | any property of every ordered pair of elements survives `filter` |
| Builtins.JoinSnoc | src/components/Cart.tsx:72 | joining one more part appends the separator and that part |
| Configurator.ToggleRemovesSelected | src/components/MenuSection.tsx:58-59 | toggling a selected ingredient removes it and only it, whatever the cap |
| Configurator.ToggleKeepsSlotValid | src/components/MenuSection.tsx:56-65 | a slot without duplicates and within the cap stays so; an unselected ingredient is refused when the slot is full |
| Configurator.ToggleTwiceRestores | src/components/MenuSection.tsx:56-65 | adding an ingredient that fits and toggling it again restores the slot |
| Configurator.DefaultCapsDisagree | src/components/MenuSection.tsx:62 | without `maxIngredients` the toggle allows one name while the disable check at line 238 allows three: a second option stays enabled and clicking it changes nothing |
| Configurator.FilterOptions | src/components/MenuSection.tsx:234 | the listed options are exactly those whose lower-case form contains the lower-cased term |
| Configurator.FilterOptionsInOrder | src/components/MenuSection.tsx:234 | the search keeps the options' catalog order |
| Configurator.FilterOptionsEmptyTerm | src/components/MenuSection.tsx:234 | an empty search box lists every option |
| Configurator.OpenedSessionIncomplete | src/components/MenuSection.tsx:42-43 | a newly opened session has at least one slot and is not complete |
| Configurator.BundleConfigurator.constructor | src/components/MenuSection.tsx:15-29 | no product selected, slot index 0, no slots, empty search |
| Configurator.BundleConfigurator.HandleProductClick | src/components/MenuSection.tsx:36-50 | a product with options opens a session with `pizzaCount` or 1 empty slots, index 0 and an empty search, cart untouched; any other product is added to the cart with the session untouched |
| Configurator.BundleConfigurator.SelectPizza | src/components/MenuSection.tsx:200 | a tab makes its slot the current one |
| Configurator.BundleConfigurator.SetSearchTerm | src/components/MenuSection.tsx:230 | typing sets the search term and leaves the slots alone |
| Configurator.BundleConfigurator.HandleIngredientToggle | src/components/MenuSection.tsx:52-69 | only the current slot changes, to its toggled contents under the cap `maxIngredients` or 1; the slot count is kept and no slot gets a duplicate or exceeds the cap |
| Configurator.BundleConfigurator.ClickOption | src/components/MenuSection.tsx:244 | a click on a disabled option changes nothing; otherwise it toggles |
| Configurator.BundleConfigurator.VisibleOptions | src/components/MenuSection.tsx:234 | the options shown are exactly the product's options matching the search term |
| Configurator.BundleConfigurator.HandleModalAddToCart | src/components/MenuSection.tsx:73-83 | with a selection, the cart receives the product with the current slots as its bundles, and the selection and slots are cleared; without one, nothing changes |
| Configurator.BundleConfigurator.ClickConfirm | src/components/MenuSection.tsx:274-280 | the confirm button acts only when every slot holds an ingredient, and then hands the slots to the cart and clears the selection and slots, keeping the slot index and the search term |
| Checkout.TotalAppend | src/components/Cart.tsx:51 | the total of two carts laid end to end is the sum of their totals |
| Checkout.TotalAfterIncrement | src/components/Cart.tsx:51 | raising each matching line by one raises the total by the price times the number of matching lines |
| Checkout.TotalAfterAdd | src/components/Cart.tsx:51 | with one price per id, adding a product raises the total by its price, whether it merges or opens a line |
| Checkout.TranscriptHeader | src/components/Cart.tsx:56-59 | the message opens with the greeting and a blank line; an empty name prints `Sin nombre` and an empty address `Retiro en local`, otherwise they print as given; the payment method always prints |
| Checkout.NotesLineIffNotes | src/components/Cart.tsx:61-63 | the notes line is present exactly when notes were written; without notes no header line carries the notes label |
| Checkout.DetailLinesAppend | src/components/Cart.tsx:67-77 | the item lines follow the cart's order |
| Checkout.ItemLinesShape | src/components/Cart.tsx:68-76 | each line starts with quantity, name and subtotal; bundles give one sub-line per slot in slot order and then no ingredients sub-line; otherwise an ingredients sub-line `  _Ingredientes: a, b_` appears exactly when ingredients are selected |
| Checkout.MessageEndsWithTotal | src/components/Cart.tsx:79 | the message ends with a blank line and the TOTAL line carrying the cart total |
| Checkout.WriteHeader | src/components/Cart.tsx:56-65 | the appended header text is the header lines, each ended by a newline |
| Checkout.WriteItem | src/components/Cart.tsx:68-76 | the appended text of one line is its item lines, each ended by a newline |
| Checkout.WriteItems | src/components/Cart.tsx:67-77 | the appended text of the cart is the item lines of every line in cart order |
| Checkout.BuildMessage | src/components/Cart.tsx:53-79 | an empty cart gives no message; otherwise the message is the transcript joined by newlines |
| Catalog.IdsDistinct | src/data/products.ts:22-93 | the catalog has six entries and no two share an id |
| Catalog.PromosConfigured | src/data/products.ts:24-74 | every promo has options, a slot count of at least 1 and a cap of at least 1 |
| Catalog.PromoCapsAgree | src/data/products.ts:24-74 | for every promo the two caps agree and the session has `pizzaCount` slots |
| Catalog.DrinksAddDirectly | src/data/products.ts:77-92 | exactly the drinks lack options, so a click adds them directly |
| Catalog.PricesPositive | src/data/products.ts:22-93 | every price is positive, and each entry has its listed id and price |
| Catalog.IngredientsDistinct | src/data/products.ts:3-20 | the Rocker list has sixteen distinct names |
| Catalog.CatalogStartsEmpty | src/data/products.ts:22-93 | catalog entries carry no bundles and no ingredient selection |
| Scenarios.PromoAddedTwiceMerges | src/App.tsx:30-40 | two `promo-1-3ing` configurations with different toppings make one line of quantity 2 keeping the first toppings; count 2, total 19980 |
| Scenarios.PromoTwoRockerSession | src/components/MenuSection.tsx:36-85 | `promo-2rocker` cannot be confirmed while slot 2 is empty; once filled, confirming leaves one line with both slots and total 17990 |
| Scenarios.DrinkClickedTwice | src/components/MenuSection.tsx:47-48 | two clicks on a drink open no session and make one line of quantity 2 with total 3000 |

## Left out

- Loading and saving the cart through `localStorage` (`src/App.tsx:15-25`) is browser storage and is not modelled. The load parses the stored text without error handling, and the model does not replace that with a fallback. The `Cart` methods assume the invariant the constructor sets up.
- Encoding the message and opening the messaging URL (`src/components/Cart.tsx:81-82`) are foreign calls. `BuildMessage` returns the text instead.
- `toLocaleString('es-CL')` and `toLowerCase` are parameters `fmt` and `lower`, so no property depends on their output, except that `Configurator.FilterOptionsEmptyTerm` assumes `lower("") == ""`, which `"".toLowerCase()` satisfies.
- Builtins.StrLeqTotal: the default sort compares UTF-16 code units, while the model compares characters. The two orders differ only for characters outside the Basic Multilingual Plane.
- Counts are `nat`, so a negative or fractional count is not modelled. For `pizzaCount` such a value would make `Array(count)` throw (`src/components/MenuSection.tsx:42-43`). `maxIngredients` is only compared (lines 62-63 and 238-239): a negative cap would make the toggle refuse every new ingredient, and a fractional one would act as the next whole number. The model does not capture those caps.
- Prices and quantities are unbounded integers, with no floating point.
- Opening and closing the modal and the cart drawer, the category tabs, drag gestures, the mobile layout and scroll locking are display state only. Closing the modal without confirming leaves the session as it is, and the model has no close operation.
- `image` and `popular` are display-only product fields and are not part of the record.
- The `selectedSize` display branch of the cart drawer uses a field the product type lacks.
- The in-place sort mutates arrays shared between the cart and the caller's product object. The model sorts the copies it holds and does not model this aliasing.
- The header, navigation bar, marketing, footer components and the styling configuration hold no ordering logic.
