# BluBlu cart and checkout, modelled in Dafny

BluBlu is a campus-delivery web front end. Its shopping logic is modelled here:

- **The shared cart store** (`CartStore`). It is one ordered list of lines `{id, name, price, qty, image}`. Adding merges into an existing line by id. Removing filters the line out. Setting a quantity overwrites it, then drops every non-positive line. Clearing empties the list. The item count and subtotal are reductions over the lines.
- **Three catalogue pages** push lines into that store, each under its own key scheme:
  - food (`FoodMenu`): `id::label`, with sizes read out of free-text descriptions by a number scanner and a label table;
  - tuck shop (`Tuck`): `item@option`, where the first option is the default;
  - groceries (`Grocery`): `category||name` at price 0, plus a search filter.

  Because all these keys share one list, the page views and the page "Clear" buttons are modelled over that whole list. `CrossPage` shows that the three key shapes do not collide, so the stationery sidebar and its Clear leave grocery and food lines alone, and the grocery view ignores stationery and food lines.
- **The checkout page** (`Checkout`). It covers the total with its flat delivery fee of 20, the UPI payment link and the app links derived from it, and the rows an order writes. It also covers `placeOrder`: the order of its guards, the profile write, the category fallback, the two inserts, and clearing the cart only on success. Every answer of the backend is an input.
- **The home page** (`App`). It covers the case-insensitive keyword classifier that sends a service card to the food, grocery or tuck page or to the generic order form, and the sign-in gate in front of it. It also covers the fallback to the six built-in services, the render guard of the order form, and the header's checkout button.
- **The hero section's own little cart** (`Hero`). It is a separate merge-or-append cart with a category filter over four sample items.

The supporting modules are:
- `Text`: JavaScript string operations used by the pages, namely `includes`, `startsWith`, the first-occurrence `indexOf` and `replace`, ASCII `toLowerCase`, `trim` over the JavaScript whitespace set, `split`/`join`, and decimal rendering;
- `Wrappers`: `Option` and JavaScript truthiness of an optional string;
- `Navigation`: the alert and route effects of a button.

Each React page whose state changes in place is a class. Its fields are that state, and the shared store is the `Cart` object it holds. Each handler is a method, specified by a function of the old state. Prices are integer rupees.

## Model

| member | source | states |
|---|---|---|
| CartStore.FindIndex | src/contexts/CartContext.tsx:57 | the index of the first line with the id, or -1 exactly when no line has it |
| CartStore.AddedNew | src/contexts/CartContext.tsx:55-59 | adding an id that is not in the cart appends exactly one line `{item, qty}` at the end and leaves the other lines as they were |
| CartStore.AddedAt | src/contexts/CartContext.tsx:60-64 | adding an id already present adds `qty` to that line only. The line keeps its name, price and image, and the length is unchanged |
| CartStore.AddedHasId | src/contexts/CartContext.tsx:55-66 | after an add, the cart has a line with that id |
| CartStore.AddedKeepsUnique | src/contexts/CartContext.tsx:55-66 | an add keeps line ids unique |
| CartStore.AddedKeepsPositive | src/contexts/CartContext.tsx:55-66 | adding a positive quantity to a cart of positive lines leaves all lines positive |
| CartStore.AddTwiceMerges | src/contexts/CartContext.tsx:55-66 | adding a new item twice gives one line, at the end, whose quantity is the sum of both |
| CartStore.Added | src/contexts/CartContext.tsx:55-66 | `addItem` as a value. `AddedNew` and `AddedAt` state it: append a new id at the end, merge into an existing one |
| CartStore.Removed | src/contexts/CartContext.tsx:68-70 | removing never lengthens the cart |
| CartStore.RemovedSpec | src/contexts/CartContext.tsx:68-70 | a line survives removal exactly when it was in the cart with a different id |
| CartStore.RemovedHasNoId | src/contexts/CartContext.tsx:68-70 | no line with the removed id is left |
| CartStore.RemovedKeepsUnique | src/contexts/CartContext.tsx:68-70 | removal keeps ids unique |
| CartStore.RemovedAppend | src/contexts/CartContext.tsx:68-70 | removal works line by line, so it keeps the order of the remaining lines |
| CartStore.RemovedAbsent | src/contexts/CartContext.tsx:68-70 | removing an absent id leaves the cart unchanged |
| CartStore.DropNonPositive | src/contexts/CartContext.tsx:76 | the filter never lengthens the list |
| CartStore.DropNonPositiveSpec | src/contexts/CartContext.tsx:76 | a line survives exactly when its quantity is positive |
| CartStore.DropLeavesPositive | src/contexts/CartContext.tsx:76 | every line left by the filter is positive |
| CartStore.DropKeepsUnique | src/contexts/CartContext.tsx:76 | the filter keeps ids unique |
| CartStore.DropAllPositive | src/contexts/CartContext.tsx:76 | on a cart of positive lines the filter changes nothing |
| CartStore.WithQtyKeepsIds | src/contexts/CartContext.tsx:72-78 | overwriting a quantity keeps every position's id, and a quantity update keeps ids unique |
| CartStore.QtyUpdated | src/contexts/CartContext.tsx:72-78 | `updateQty` as a value. `QtyUpdatedSpec` and `UpdateToZeroIsRemove` state it |
| CartStore.QtyUpdatedSpec | src/contexts/CartContext.tsx:72-78 | after `updateQty(id, q)` every line is positive. For q ≤ 0 the id is gone. An absent id is never created. On a positive cart with q > 0 the update is exactly the overwrite |
| CartStore.UpdateToZeroIsRemove | src/contexts/CartContext.tsx:68-78 | on a cart of positive lines, `updateQty(id, q)` with q ≤ 0 gives the same list as `removeItem(id)` |
| CartStore.ReductionsAppend | src/contexts/CartContext.tsx:82-83 | item count and subtotal add up over concatenation |
| CartStore.ReductionsUpdate | src/contexts/CartContext.tsx:82-83 | replacing one line changes count and subtotal by exactly that line's difference |
| CartStore.CountZeroIffEmpty | src/contexts/CartContext.tsx:82 | on positive lines the item count is at least the number of lines, and it is 0 exactly when the cart is empty |
| CartStore.AddedNewReductions | src/contexts/CartContext.tsx:55-59 | adding a new line with price p and quantity q raises the count by q and the subtotal by p·q |
| CartStore.AddedMergeReductions | src/contexts/CartContext.tsx:60-64 | merging q units raises the count by q and the subtotal by the line's frozen price times q |
| CartStore.ApplyAllKeepsUnique | src/contexts/CartContext.tsx:55-80 | every sequence of add, remove, update and clear operations keeps ids unique |
| CartStore.Cart.constructor | src/contexts/CartContext.tsx:31 | the store starts empty |
| CartStore.Cart.AddItem | src/contexts/CartContext.tsx:55-66 | the new list is the merge-or-append of the old one. Unique ids stay unique, and positive lines stay positive for a positive quantity |
| CartStore.Cart.RemoveItem | src/contexts/CartContext.tsx:68-70 | the new list is the old one without the id. No line with it is left, and ids stay unique |
| CartStore.Cart.UpdateQty | src/contexts/CartContext.tsx:72-78 | the new list is the overwrite followed by the positive filter. All lines are positive and ids stay unique |
| CartStore.Cart.ClearCart | src/contexts/CartContext.tsx:80-83 | the list is empty, with item count 0 and subtotal 0 |
| FoodMenu.DigitRun | src/pages/FoodMenuPage.tsx:390-401 | the digit run taken at a position is at most the cap and at most the text |
| FoodMenu.DigitRunIs | src/pages/FoodMenuPage.tsx:390-401 | the run is exactly the longest prefix of digits up to the cap |
| FoodMenu.SkipTail | src/pages/FoodMenuPage.tsx:390-401 | skipping the `[,0-9]*` tail never lengthens the text |
| FoodMenu.DigitRunDigits | src/pages/FoodMenuPage.tsx:390-401 | the run consists of digits only |
| FoodMenu.ScanAtNonDigit | src/pages/FoodMenuPage.tsx:390-401 | a non-digit starts no number and is skipped |
| FoodMenu.ScanAtDigit | src/pages/FoodMenuPage.tsx:390-401 | at a digit the scanner emits the value of up to four digits, then continues after the skipped tail |
| FoodMenu.ReadDigits | src/pages/FoodMenuPage.tsx:390-401 | the loop reads exactly the digit run, at most four digits, and returns its decimal value, below 10000 |
| FoodMenu.SkipNumberTail | src/pages/FoodMenuPage.tsx:390-401 | the loop stops exactly where the specified tail skip stops |
| FoodMenu.ExtractNumbersFromString | src/pages/FoodMenuPage.tsx:390-401 | the scan loop returns the specified number list, [] for an absent text, and every number is below 10000 |
| FoodMenu.ScanOf | src/pages/FoodMenuPage.tsx:390-401 | `extractNumbersFromString` as a value. `ExtractNumbersFromString` computes it; `ScanBelow10000`, `ScanNoDigits`, `ScanRendered` and `ScanPriceList` state what it reads |
| FoodMenu.DecimalBelowPow | src/pages/FoodMenuPage.tsx:393 | a decimal numeral of n digits is below 10^n |
| FoodMenu.DecimalSnoc | src/pages/FoodMenuPage.tsx:393 | appending a digit multiplies by ten and adds it |
| FoodMenu.DecimalBelow | src/pages/FoodMenuPage.tsx:393 | a numeral of at most four digits is below 10000 |
| FoodMenu.ScanBelow10000 | src/pages/FoodMenuPage.tsx:390-401 | every extracted number is in 0..9999 |
| FoodMenu.ScanNoDigits | src/pages/FoodMenuPage.tsx:390-401 | a text without digits gives [] |
| FoodMenu.ScanSkipsHead | src/pages/FoodMenuPage.tsx:390-401 | a digit-free prefix contributes nothing |
| FoodMenu.ScanRendered | src/pages/FoodMenuPage.tsx:390-401 | a rendered price below 10000, not followed by a digit or comma, is read back as exactly that number |
| FoodMenu.ScanNumberAfter | src/pages/FoodMenuPage.tsx:390-401 | the same after a digit-free prefix |
| FoodMenu.ScanPriceList | src/pages/FoodMenuPage.tsx:390-401 | a text `₹p1/₹p2/…` followed by a suffix scans as the price list followed by the suffix's numbers |
| FoodMenu.ScanPriceThen | src/pages/FoodMenuPage.tsx:390-401 | one `₹p/` step of that list |
| FoodMenu.ScanExampleList | src/pages/FoodMenuPage.tsx:127 | `₹15/₹30/₹50 (S/M/L)`, built as a price list, scans as [15, 30, 50] |
| FoodMenu.ExampleText | src/pages/FoodMenuPage.tsx:127 | the description literal is that price list followed by ` (S/M/L)` |
| FoodMenu.ScanExample | src/pages/FoodMenuPage.tsx:127 | `extractNumbersFromString('₹15/₹30/₹50 (S/M/L)')` is [15, 30, 50] |
| FoodMenu.InferLabelsForCount | src/pages/FoodMenuPage.tsx:403-419 | exactly `count` labels are returned |
| FoodMenu.InferredLabelsDistinct | src/pages/FoodMenuPage.tsx:403-419 | the labels are pairwise distinct, including `Opt1..Optn` for every n |
| FoodMenu.InferLabelsCases | src/pages/FoodMenuPage.tsx:403-419 | 3 gives S/M/L. 2 gives Half/Full when the lower-cased text mentions both words, else Reg/Large. 1 gives One, 0 gives none, 4 or more give Opt1..Optn |
| FoodMenu.DeriveSizesSpec | src/pages/FoodMenuPage.tsx:421-440 | with two or more numbers there is one size per number, priced at it and labelled by the table. Otherwise `s/m/l` in the text gives S, M, L at the base price (0 if absent). Otherwise there are no sizes |
| FoodMenu.DeriveSizesFromDesc | src/pages/FoodMenuPage.tsx:421-440 | `deriveSizesFromDesc` as a value, stated by `DeriveSizesSpec` and `DeriveTwoSizes` |
| FoodMenu.DeriveTwoSizes | src/pages/FoodMenuPage.tsx:421-440 | two numbers give exactly two sizes with the two inferred labels |
| FoodMenu.GetSizesForItem | src/pages/FoodMenuPage.tsx:476-480 | the item's own sizes whenever it has some, else the derived ones. A derived result has at least two sizes |
| FoodMenu.DalFrySizes | src/pages/FoodMenuPage.tsx:91 | Dal Fry (`Half / Full: ₹70 / ₹120`, no sizes) gets Half at 70 and Full at 120 |
| FoodMenu.DalFryPrices | src/pages/FoodMenuPage.tsx:91 | its description scans as [70, 120] |
| FoodMenu.DalFryText | src/pages/FoodMenuPage.tsx:91 | its description is the two rendered prices in their surrounding text |
| FoodMenu.DalFryMentions | src/pages/FoodMenuPage.tsx:91 | its lower-cased description mentions `half` and `full` |
| FoodMenu.DisplayId | src/pages/FoodMenuPage.tsx:445 | the cart key of a (dish, size). `SizeKeysDistinct` states that distinct labels give distinct keys, none the bare id |
| FoodMenu.FoodLine | src/pages/FoodMenuPage.tsx:444-457 | the line `addToCart` hands to `addItem`, stated by `FoodLineSpec` |
| FoodMenu.SizeKeysDistinct | src/pages/FoodMenuPage.tsx:445 | two different non-empty labels of one dish give two different cart keys, and neither is the bare id |
| FoodMenu.FoodLineSpec | src/pages/FoodMenuPage.tsx:444-457 | the line added is keyed `id::label` and named `name (label)` for a label, or keyed and named by the bare id and name otherwise. It is priced at the size price when given, else at the dish price |
| FoodMenu.SelectSize | src/pages/FoodMenuPage.tsx:483-492 | `getSelectedSizeLabel` as a value, stated by `SelectSizeStable` |
| FoodMenu.SelectSizeStable | src/pages/FoodMenuPage.tsx:483-492 | no label exactly when the dish has no sizes. Otherwise a stored non-empty label is returned with the map unchanged, and a missing or empty one gives the first size's label, which is returned and recorded. A second call agrees with the first and changes nothing |
| FoodMenu.PriceOfLabel | src/pages/FoodMenuPage.tsx:628-629 | the price of the FIRST size carrying the label when one does (no earlier size has it), else the fallback |
| FoodMenu.FoodDelta | src/pages/FoodMenuPage.tsx:461-471 | the page's floored delta update as a value, stated by `FoodDeltaSpec` |
| FoodMenu.FoodDeltaSpec | src/pages/FoodMenuPage.tsx:461-471 | on positive lines, a floored quantity of 0 removes the line and any other sets it. An id not in the cart is never added, whatever the delta |
| FoodMenu.WithQtyAbsent | src/pages/FoodMenuPage.tsx:461-471 | overwriting the quantity of an absent id changes nothing |
| FoodMenu.CheckoutClick | src/pages/FoodMenuPage.tsx:516-522 | the cart bar's Checkout button, stated by `CheckoutGate` |
| FoodMenu.CheckoutGate | src/pages/FoodMenuPage.tsx:516-522 | checkout opens exactly when the shared cart has a line, and otherwise an alert is shown |
| FoodMenu.FoodMenuPage.constructor | src/pages/FoodMenuPage.tsx:378-381 | nothing disabled, no size selected |
| FoodMenu.FoodMenuPage.GetSelectedSizeLabel | src/pages/FoodMenuPage.tsx:483-492 | returns and records the label that `SelectSize` specifies |
| FoodMenu.FoodMenuPage.AddToCart | src/pages/FoodMenuPage.tsx:444-458 | while the key is disabled it leaves cart and set unchanged. Otherwise it adds one unit of the specified line and disables the key |
| FoodMenu.FoodMenuPage.AddClick | src/pages/FoodMenuPage.tsx:700-707 | with sizes and a non-empty selected label, adds one unit keyed `id::label` at `PriceOfLabel` (the first size with that label, else the dish price). Otherwise it adds the plain dish at its price. A disabled key changes nothing |
| FoodMenu.FoodMenuPage.ReEnable | src/pages/FoodMenuPage.tsx:451 | the key is enabled again and nothing else changes |
| FoodMenu.FoodMenuPage.UpdateQty | src/pages/FoodMenuPage.tsx:461-471 | the cart becomes the specified floored delta update |
| Tuck.MakeCartIdInjective | src/pages/Tuck.tsx:72 | for item ids without `@`, two keys are equal exactly when both the item and the option agree |
| Tuck.MakeCartId | src/pages/Tuck.tsx:72 | the key `itemId@optionId`, with `def` for no option. `MakeCartIdInjective` and `OwnKeysAdmitted` state it |
| Tuck.TuckAdmitsIff | src/pages/Tuck.tsx:69 | the sidebar admits an id exactly when its first `@` comes after a non-empty prefix and it starts with a catalogue id |
| Tuck.OwnKeysAdmitted | src/pages/Tuck.tsx:69-72 | every key built for a catalogue item is admitted |
| Tuck.CatalogueIdsWellFormed | src/pages/Tuck.tsx:25-54 | every catalogue id is non-empty and contains neither `@` nor a bar |
| Tuck.TuckCart | src/pages/Tuck.tsx:69 | a line is in the sidebar exactly when it is in the cart and admitted |
| Tuck.OtherLines | src/pages/Tuck.tsx:195-198 | the lines the sidebar Clear keeps are exactly the cart's non-admitted lines |
| Tuck.SubtotalSplits | src/pages/Tuck.tsx:225 | the sidebar subtotal and the rest of the cart add up to the shared subtotal, and likewise for the counts |
| Tuck.WithoutNoIds | src/pages/Tuck.tsx:195-198 | removing no ids changes nothing |
| Tuck.RemovedWithout | src/pages/Tuck.tsx:195-198 | one more `removeItem` removes one more id |
| Tuck.WithoutAdmitted | src/pages/Tuck.tsx:195-198 | removing exactly the admitted ids leaves exactly the other lines |
| Tuck.FindOption | src/pages/Tuck.tsx:81 | an option with the id is found exactly when one exists, and the one found has that id |
| Tuck.ResolveAdd | src/pages/Tuck.tsx:75-102 | what `handleAddToCart` adds and records, stated by `ResolveAddSpec`, `ResolveAddStale` and `ResolveAddFirstOption` |
| Tuck.ResolveAddSpec | src/pages/Tuck.tsx:75-102 | with no selection the first option prices and names the line (`title — caption`, or the bare title for an empty caption), becomes the selection, and keys the line. A selected existing option prices, names and keys it the same way. An item without options is keyed by the selection or `def`, at `price ?? 0`, under its title |
| Tuck.ResolveAddStale | src/pages/Tuck.tsx:77-86 | a selected id that names no option gives `price ?? 0` and the bare title, and still keys the line by that id |
| Tuck.ResolveAddFirstOption | src/pages/Tuck.tsx:88-100 | the first click on an item with options adds `id@first`, named `title — label`, at the first option's price, and records that option |
| Tuck.NotebooksFirstClick | src/pages/Tuck.tsx:31-37 | the first click on Notebooks adds `notebooks@n-ruled` at 40 and selects Ruled |
| Tuck.ResolveAddAdmitted | src/pages/Tuck.tsx:69-100 | every line the page adds is shown in its sidebar |
| Tuck.TuckDelta | src/pages/Tuck.tsx:105-114 | `handleChangeQty` as a value, stated by `TuckDeltaAbsent`, `TuckDeltaRemoves` and `TuckDeltaSets` |
| Tuck.TuckDeltaAbsent | src/pages/Tuck.tsx:106-107 | an id not in the cart is a no-op |
| Tuck.TuckDeltaRemoves | src/pages/Tuck.tsx:108-110 | a quantity that falls to 0 or below removes the line |
| Tuck.TuckDeltaSets | src/pages/Tuck.tsx:108-113 | a positive result sets that absolute quantity |
| Tuck.CheckoutGate | src/pages/Tuck.tsx:230-237 | the sidebar Checkout leads to `/checkout` exactly when an admitted line exists |
| Tuck.CheckoutClick | src/pages/Tuck.tsx:230-237 | the sidebar Checkout button, stated by `CheckoutGate` |
| Tuck.OtherLinesHaveNoTuck | src/pages/Tuck.tsx:195-198 | after the sidebar Clear the sidebar is empty |
| Tuck.IdSetStep | src/pages/Tuck.tsx:197 | the ids of a growing prefix grow by one line's id |
| Tuck.TuckIdsExact | src/pages/Tuck.tsx:197 | a cart line's id is among the sidebar's ids exactly when it is admitted |
| Tuck.TuckPage.constructor | src/pages/Tuck.tsx:61-63 | no selections and the cart panel closed |
| Tuck.TuckPage.HandleAddToCart | src/pages/Tuck.tsx:75-102 | adds one unit of the resolved line, stores the resolved selection and opens the panel |
| Tuck.TuckPage.HandleChangeQty | src/pages/Tuck.tsx:105-114 | the cart becomes the specified floored delta update |
| Tuck.TuckPage.HandleRemove | src/pages/Tuck.tsx:116-118 | the line is removed from the shared cart |
| Tuck.TuckPage.SelectOption | src/pages/Tuck.tsx:159-160 | the item's selection becomes the chosen option |
| Tuck.TuckPage.ClearSelection | src/pages/Tuck.tsx:180 | the item's selection is dropped |
| Tuck.TuckPage.ClearTuckLines | src/pages/Tuck.tsx:195-198 | removing the sidebar's lines one by one leaves exactly the other lines, and the sidebar is empty |
| Tuck.TuckPage.SidebarSubtotal | src/pages/Tuck.tsx:225 | the sidebar subtotal is the shared subtotal less that of the lines the sidebar does not show |
| Grocery.MakeIdNoEarlierSep | src/pages/Grocery.tsx:101 | a made id has no double bar inside its category |
| Grocery.MakeId | src/pages/Grocery.tsx:101 | the key category, double bar, name. `ParseMakeId` states that `ParseId` inverts it for a carried category |
| Grocery.ParseId | src/pages/Grocery.tsx:110-111 | the category and name read back from a key. `ParseMakeId` states the round trip, `ParseTrailingBar` where it fails |
| Grocery.ParseMakeId | src/pages/Grocery.tsx:101-111 | parsing `makeId(c, n)` recovers (c, n) when c has no double bar and does not end in a bar |
| Grocery.ParseTrailingBar | src/pages/Grocery.tsx:101-111 | a category ending in a bar does not survive: category `a` plus a bar, with name `b`, parses as category `a` with the bar moved to the front of the name |
| Grocery.NoBarOk | src/pages/Grocery.tsx:101-111 | a category without any bar can be carried |
| Grocery.CatalogueIdsParse | src/pages/Grocery.tsx:21-111 | every catalogue category round-trips, whatever the item name |
| Grocery.KeyIndex | src/pages/Grocery.tsx:104-116 | the position of a key in the view, or -1 exactly when it is absent |
| Grocery.BuildCartMap | src/pages/Grocery.tsx:104-116 | the loop builds the specified view of the cart |
| Grocery.CartMapKeysDistinct | src/pages/Grocery.tsx:104-116 | the view has distinct keys |
| Grocery.CartMapKeysFromCart | src/pages/Grocery.tsx:104-116 | every key in the view is the double-bar id of a cart line |
| Grocery.CartMapCoversLines | src/pages/Grocery.tsx:104-116 | every double-bar line of the cart has an entry in the view |
| Grocery.GroceryLines | src/pages/Grocery.tsx:108 | exactly the cart's lines whose id contains the double bar |
| Grocery.CartMapUnique | src/pages/Grocery.tsx:104-116 | on a cart with unique ids the view is the grocery lines, in cart order, each with its parsed category |
| Grocery.TotalOfMapLocal | src/pages/Grocery.tsx:131 | the view's quantities add up to the lines' item count |
| Grocery.CartTotalItemsSpec | src/pages/Grocery.tsx:130-131 | `cartTotalItems` is the sum of quantities over the grocery lines only |
| Grocery.Matches | src/pages/Grocery.tsx:124 | an item is kept exactly when its lower-cased name contains the query |
| Grocery.MatchesAppend | src/pages/Grocery.tsx:124 | the item filter keeps catalogue order: a concatenation's matches are each part's, in turn |
| Grocery.FilteredByQuery | src/pages/Grocery.tsx:119-128 | the search returns the specified filtered catalogue |
| Grocery.SearchLoop | src/pages/Grocery.tsx:122-127 | the loop over the categories computes the specified search |
| Grocery.SearchSpec | src/pages/Grocery.tsx:122-127 | a result is exactly a category of the catalogue with its matching items, and it is kept when some item matches |
| Grocery.SearchOf | src/pages/Grocery.tsx:122-127 | the search loop's results as a value, stated by `SearchSpec` and `SearchAppend` |
| Grocery.SearchAppend | src/pages/Grocery.tsx:122-127 | the results keep catalogue order: searching a concatenation searches each part, in turn |
| Grocery.FilteredOf | src/pages/Grocery.tsx:119-128 | `filteredByQuery` as a value. `FilteredByQuery` computes it, and `BlankQuery` states the blank-query shortcut |
| Grocery.MatchesEmptyQuery | src/pages/Grocery.tsx:122-127 | the empty query keeps every item |
| Grocery.SearchEmptyQuery | src/pages/Grocery.tsx:122-127 | on non-empty categories the empty query keeps every category |
| Grocery.BlankQuery | src/pages/Grocery.tsx:119-121 | a query that trims to empty returns the whole catalogue unchanged |
| Grocery.GroceryUpdateIsUpdate | src/pages/Grocery.tsx:140-146 | on positive lines, `handleUpdateQty` is the store's quantity update, and for q > 0 it sets exactly q |
| Grocery.GroceryUpdate | src/pages/Grocery.tsx:140-146 | `handleUpdateQty` as a value, stated by `GroceryUpdateIsUpdate` |
| Grocery.GroceryAddReductions | src/pages/Grocery.tsx:134-137 | adding a new grocery line raises the item count by its quantity and leaves the subtotal (price 0) unchanged |
| Grocery.CheckoutGate | src/pages/Grocery.tsx:371-381 | Checkout navigates to `/checkout` exactly when a grocery line exists. It alerts when signed out or when no grocery line exists, so a signed-out user is alerted and still navigated |
| Grocery.CheckoutClick | src/pages/Grocery.tsx:371-381 | the Checkout button, stated by `CheckoutGate` |
| Grocery.CartMapEmptyIff | src/pages/Grocery.tsx:104-116 | the view is empty exactly when no line is a grocery line |
| Grocery.CartMapOf | src/pages/Grocery.tsx:104-116 | `cartMap` as a value. `BuildCartMap` computes it; `CartMapKeysDistinct`, `CartMapKeysFromCart`, `CartMapCoversLines` and `CartMapUnique` state it |
| Grocery.GroceryPage.constructor | src/pages/Grocery.tsx:93-94 | empty query and no category |
| Grocery.GroceryPage.SelectFirstCategory | src/pages/Grocery.tsx:161-165 | the active category defaults to the first catalogue category and is otherwise kept |
| Grocery.GroceryPage.HandleAddToCart | src/pages/Grocery.tsx:134-137 | adds the key category, double bar, name at price 0 with the given quantity |
| Grocery.GroceryPage.HandleUpdateQty | src/pages/Grocery.tsx:140-146 | removes the line for q ≤ 0 and otherwise applies the store update |
| Grocery.GroceryPage.HandleRemove | src/pages/Grocery.tsx:148-150 | removes the line |
| Grocery.GroceryPage.SetQuery | src/pages/Grocery.tsx:189 | the search box stores the typed text as the query |
| Grocery.GroceryPage.Shown | src/pages/Grocery.tsx:119-128 | the listed categories for the stored query; a blank query lists the whole catalogue, and a non-blank one lists only categories with at least one match |
| Grocery.ShownNonEmpty | src/pages/Grocery.tsx:119-128 | with a non-blank query, every listed category has at least one matching item |
| Grocery.GroceryPage.Clear | src/pages/Grocery.tsx:388 | empties the whole shared cart |
| Checkout.Total | src/pages/Checkout.tsx:20-21 | the total exceeds the subtotal by exactly the fee of 20 |
| Checkout.Utf8 | src/pages/Checkout.tsx:23-32 | one to four bytes per character. ASCII is one byte of the same value, and every byte of a non-ASCII character is at least 0x80 |
| Checkout.HexValue | src/pages/Checkout.tsx:23-32 | a hex digit's value is below 16 |
| Checkout.HexRoundTrip | src/pages/Checkout.tsx:23-32 | the upper-case hex digit of d reads back as d |
| Checkout.EncodeByte | src/pages/Checkout.tsx:23-32 | an encoded byte contains no `&` and no `=` |
| Checkout.EncodeBytes | src/pages/Checkout.tsx:23-32 | nor does an encoded byte string |
| Checkout.FlattenAppend | src/pages/Checkout.tsx:23-32 | concatenating the parts distributes over appending lists of parts |
| Checkout.FlattenLacks | src/pages/Checkout.tsx:23-32 | a character absent from every part is absent from their concatenation |
| Checkout.FormEncodeClean | src/pages/Checkout.tsx:23-32 | a form-encoded text contains no `&` and no `=` |
| Checkout.FormEncodeAppend | src/pages/Checkout.tsx:23-32 | form encoding works character by character |
| Checkout.FormEncodeChar | src/pages/Checkout.tsx:23-32 | one character encodes as its UTF-8 bytes |
| Checkout.DecodeEncodedByte | src/pages/Checkout.tsx:23-32 | decoding an encoded ASCII byte gives back that character |
| Checkout.FormDecodeEncode | src/pages/Checkout.tsx:23-32 | decoding the form encoding of an ASCII text gives back the text |
| Checkout.ParseEncodedPair | src/pages/Checkout.tsx:23-32 | an encoded ASCII `key=value` pair parses back to the pair |
| Checkout.ParseSerialize | src/pages/Checkout.tsx:23-32 | parsing the serialized parameters of ASCII pairs gives back the same pairs in order |
| Checkout.UpiUrl | src/pages/Checkout.tsx:23-32 | the link starts with `upi://pay?` |
| Checkout.NatToStringAscii | src/pages/Checkout.tsx:29 | a rendered number is ASCII |
| Checkout.IntToStringAscii | src/pages/Checkout.tsx:29 | likewise for a signed one |
| Checkout.UpiParamsAscii | src/pages/Checkout.tsx:25-31 | all the link's parameters are ASCII |
| Checkout.UpiUrlParams | src/pages/Checkout.tsx:23-32 | the link's query parses back to pa, pn, am, cu, tn in that order, and `am` reads as the total |
| Checkout.FormEncodeAscii | src/pages/Checkout.tsx:23-32 | an ASCII character encodes as its one byte, and a safe one stands for itself |
| Checkout.FormEncodeSafe | src/pages/Checkout.tsx:23-32 | a text of safe characters encodes as itself |
| Checkout.EncodeAround | src/pages/Checkout.tsx:23-32 | only the unsafe character in safe surroundings is escaped |
| Checkout.EscapedAt | src/pages/Checkout.tsx:26 | `@` encodes as `%40` |
| Checkout.UpiIdEncoded | src/pages/Checkout.tsx:17 | the payee address `9424476949@pthdfc` appears in the link as `9424476949%40pthdfc` |
| Checkout.UpiNoteEncoded | src/pages/Checkout.tsx:30 | the note `BluBlu Order` appears as `BluBlu+Order` |
| Checkout.AppLinkKeepsQuery | src/pages/Checkout.tsx:214-216 | an app link is the link with `upi://` replaced by the app's scheme and the query untouched |
| Checkout.SchemeSwap | src/pages/Checkout.tsx:214-216 | replacing the leading `upi://` swaps only the scheme |
| Checkout.PaymentStatus | src/pages/Checkout.tsx:116 | the payment status is `cod` exactly for cash on delivery, and `pending` for UPI |
| Checkout.OrNull | src/pages/Checkout.tsx:64-72 | `s` or null is null exactly for the empty text |
| Checkout.CustomerName | src/pages/Checkout.tsx:118 | the customer name is set exactly when the profile has a non-empty full name |
| Checkout.AddressOf | src/pages/Checkout.tsx:34-52 | the fields shown are the profile's columns, with a missing column shown as empty |
| Checkout.UpsertWritesBack | src/pages/Checkout.tsx:34-72 | loading and then placing without edits writes each column back as read, except that an empty text comes back as null |
| Checkout.DeliveryLocationSpec | src/pages/Checkout.tsx:74-76 | `Room not set` exactly when building or room is empty. Otherwise the text is the building, then the separator ` - Room `, then the room |
| Checkout.DeliveryLocation | src/pages/Checkout.tsx:74-76 | `deliveryLocation`, stated by `DeliveryLocationSpec` |
| Checkout.SummaryAppend | src/pages/Checkout.tsx:101 | one line is summarised as `name x qty`, and each further line follows after `, `, in cart order |
| Checkout.Summary | src/pages/Checkout.tsx:101 | `summary`, stated by `SummaryAppend` |
| Checkout.ItemsPayload | src/pages/Checkout.tsx:124-131 | one row per cart line |
| Checkout.ItemsPayloadSpec | src/pages/Checkout.tsx:124-131 | each row copies its line's id, name, price, quantity and image, and together add up to the cart's subtotal and item count |
| Checkout.FailureMessage | src/pages/Checkout.tsx:144-145 | the error shown is the failure's message when it has one, and `Failed to place order` otherwise |
| Checkout.PlaceOrderGuards | src/pages/Checkout.tsx:55-64 | signed out, nothing at all happens. With an empty cart, only the empty-cart error is set and nothing is written. Otherwise `placing` ends false and the profile row is written |
| Checkout.PlaceOrderNoCategory | src/pages/Checkout.tsx:79-99 | with neither category lookup giving an id, an error is set, nothing is inserted and the cart is kept |
| Checkout.PlaceOrderClearsOnSuccess | src/pages/Checkout.tsx:54-149 | the cart is cleared exactly when both inserts succeed. Then there is no error, the page goes to the orders view, and a UPI link is opened exactly for UPI. Otherwise there is no navigation |
| Checkout.PlaceOrderFailures | src/pages/Checkout.tsx:103-145 | a failed insert reports its message or the generic one and keeps the cart. A failed item insert leaves the order row written |
| Checkout.PlacedOrderConsistent | src/pages/Checkout.tsx:101-143 | the header's total is the rows' total plus the fee and equals the cart total. Fee 20, order status `pending`, the user, the category, the summary, and a payment status of `cod` iff cash and `pending` for UPI. Every row points at the new order, and the UPI link asks for the header's total |
| Checkout.OrderHeaderOf | src/pages/Checkout.tsx:103-120 | the `orders` row inserted, stated by `PlacedOrderConsistent` |
| Checkout.PlaceOrderRun | src/pages/Checkout.tsx:54-149 | `placeOrder` as a value, stated by `PlaceOrderGuards`, `PlaceOrderNoCategory`, `PlaceOrderClearsOnSuccess`, `PlaceOrderFailures` and `PlacedOrderConsistent` |
| Checkout.InsertedRun | src/pages/Checkout.tsx:121-143 | a successful order insert records the header and one row per line for the new id |
| Checkout.CheckoutPage.constructor | src/pages/Checkout.tsx:12-16 | no profile, empty address, UPI chosen, nothing placed or written |
| Checkout.CheckoutPage.LoadProfile | src/pages/Checkout.tsx:34-52 | signed out, it goes home. Otherwise it stores the profile and fills the address from it, and nothing else changes |
| Checkout.CheckoutPage.SetBuilding | src/pages/Checkout.tsx:170-175 | only the building field changes |
| Checkout.CheckoutPage.SetRoom | src/pages/Checkout.tsx:176-181 | only the room field changes |
| Checkout.CheckoutPage.SetPhone | src/pages/Checkout.tsx:182-187 | only the phone field changes |
| Checkout.CheckoutPage.ChoosePayment | src/pages/Checkout.tsx:195-206 | the chosen method becomes current |
| Checkout.CheckoutPage.PlaceOrder | src/pages/Checkout.tsx:54-149 | the page's state and everything written agree with the specified run: profile writes, orders, order rows, the cleared or kept cart, the error, the link and the route |
| Checkout.CheckoutPage.InsertOrder | src/pages/Checkout.tsx:103-148 | the two inserts and their consequences as the run specifies them |
| Checkout.EnabledPressWrites | src/pages/Checkout.tsx:259-261 | a press on the enabled button by a signed-in user always gets past the guards to the profile write |
| App.IsFoodIff | src/App.tsx:116-125 | food exactly when the lower-cased id is `food` or the name or slug mentions `food` |
| App.IsGroceriesIff | src/App.tsx:116-134 | groceries exactly when the id is `groceries` or `grocery`, the name mentions `grocery` or `groceries`, the slug is `groceries`, or the slug mentions `grocery` |
| App.IsTuckIff | src/App.tsx:116-141 | tuck exactly when the id is `tuck` or the name or slug mentions `tuck` |
| App.Classify | src/App.tsx:116-178 | the page a card leads to, testing food, then groceries, then tuck, as the three `Iff` lemmas and `HandleServiceClick` state |
| App.Destination | src/App.tsx:143-177 | a dedicated route exactly for food, groceries and tuck, and the order form otherwise |
| App.FoodDeliveryByName | src/App.tsx:39 | a row named `Food Delivery` goes to `/food`, whatever its id |
| App.NoKeyword | src/App.tsx:120-141 | a text without `f`, `g` or `t` mentions no keyword |
| App.MallDeliveryIsGeneric | src/App.tsx:43 | `Mall Delivery` matches no dedicated page and opens the order form |
| App.MallTexts | src/App.tsx:43 | its lower-cased id, name and slug |
| App.DefaultMall | src/App.tsx:38-45 | the fifth built-in service is Mall Delivery, and it is classified as no dedicated page |
| App.GuardedIdsAreDedicated | src/App.tsx:285 | every category the render guard hides is one the click handler already sends to a dedicated page |
| App.ServicesOfSpec | src/App.tsx:71-96 | the grid shows the backend's rows when there are any. Otherwise, on an error, an exception or no rows, it shows the six built-in services, so it is never empty |
| App.ServicesOf | src/App.tsx:71-96 | the services shown, stated by `ServicesOfSpec` |
| App.ContainsSelf | src/App.tsx:124 | a text contains itself, so an exact slug match is also a mention |
| App.AppContent.constructor | src/App.tsx:50-54 | no modal shown, no category, no services |
| App.AppContent.LoadServices | src/App.tsx:71-96 | the services become the specified fallback result |
| App.AppContent.HandleServiceClick | src/App.tsx:113-178 | signed out, only the sign-in prompt opens. Signed in, food, groceries and tuck (in that precedence) navigate to their page, and any other service opens the order form for that service |
| App.AppContent.HeaderCheckout | src/App.tsx:211-219 | signed out, the sign-in prompt opens. Otherwise it navigates to `/checkout` |
| App.AppContent.HandleGetStarted | src/App.tsx:180-187 | signed out, the sign-in prompt opens, and otherwise nothing changes |
| App.AppContent.CloseOrderModal | src/App.tsx:289-292 | the order form closes and forgets its category |
| Hero.RemovedId | src/components/Hero.tsx:96-98 | removing never lengthens the cart |
| Hero.ReductionsAppend | src/components/Hero.tsx:153 | count and total grow by the appended line |
| Hero.BumpedReductions | src/components/Hero.tsx:74 | incrementing the matching lines raises the count by their number and the total by their prices |
| Hero.UniqueOccurrence | src/components/Hero.tsx:71-74 | with unique ids a present id matches exactly one line |
| Hero.NoOccurrence | src/components/Hero.tsx:71-74 | an absent id matches none |
| Hero.AddedSpec | src/components/Hero.tsx:69-77 | a new id is appended as one line of quantity 1. An existing id keeps the length and increments exactly its line |
| Hero.Added | src/components/Hero.tsx:69-77 | the merge-or-append as a value, stated by `AddedSpec`, `AddedKeepsUnique` and `AddedTotal` |
| Hero.AddedKeepsUnique | src/components/Hero.tsx:69-79 | an add keeps ids unique and raises the count by one |
| Hero.AddedTotal | src/components/Hero.tsx:69-79 | an add raises the total by the price of that item's line |
| Hero.VegWrapTwice | src/components/Hero.tsx:21 | adding Veg Wrap twice to an empty cart gives one line of quantity 2, a count of 2 and a total of 198 |
| Hero.RemovedIdSpec | src/components/Hero.tsx:96-98 | exactly the lines with that id are removed |
| Hero.RemovedIdKeepsUnique | src/components/Hero.tsx:96-98 | removal keeps ids unique |
| Hero.RemovedIdAppend | src/components/Hero.tsx:96-98 | removal keeps the order of the remaining lines: removing from a concatenation removes from each part |
| Hero.InCategory | src/components/Hero.tsx:66 | the filter never lengthens the list |
| Hero.InCategorySpec | src/components/Hero.tsx:66 | an item is kept exactly when its category is the active one |
| Hero.InCategoryAppend | src/components/Hero.tsx:66 | the filter keeps the items' order: filtering a concatenation filters each part, in turn |
| Hero.FilteredSpec | src/components/Hero.tsx:64-67 | `All` shows every sample item, and any other category exactly its items |
| Hero.Filtered | src/components/Hero.tsx:64-67 | `filtered`, stated by `FilteredSpec`, `InCategoryAppend` and `MedicineIsEmpty` |
| Hero.MedicineIsEmpty | src/components/Hero.tsx:29 | `Medicine` shows nothing |
| Hero.InCategoryNone | src/components/Hero.tsx:66 | a category no item has shows nothing |
| Hero.HeroSection.constructor | src/components/Hero.tsx:30-39 | the stored cart or none, category `All`, no toast |
| Hero.HeroSection.SelectCategory | src/components/Hero.tsx:144 | the category becomes active |
| Hero.HeroSection.HandleAddToCart | src/components/Hero.tsx:69-87 | the cart becomes the merge-or-append, a toast names the item, and ids stay unique with the count raised by one |
| Hero.HeroSection.HandleRemoveFromCart | src/components/Hero.tsx:96-98 | the id is gone and ids stay unique |
| Hero.HeroSection.Clear | src/components/Hero.tsx:154 | the cart is empty, with count and total 0 |
| Hero.HeroSection.HandleNavigateToCart | src/components/Hero.tsx:89-94 | the parent handler is preferred, and otherwise it navigates to `/cart` |
| CrossPage.NoAtNotTuck | src/pages/Tuck.tsx:69 | a key without `@` is never a stationery line |
| CrossPage.NoBarNotGrocery | src/pages/Grocery.tsx:108 | a key without a bar is never a grocery line |
| CrossPage.GroceryKeyNotTuck | src/pages/Tuck.tsx:69 | a grocery key whose category and name have no `@` is not a stationery line |
| CrossPage.FoodKeyNotTuck | src/pages/Tuck.tsx:69 | a food key whose dish id and label have no `@` is not a stationery line |
| CrossPage.TuckKeyNotGrocery | src/pages/Grocery.tsx:108 | a stationery key whose item and option ids have no bar is not a grocery line |
| CrossPage.FoodKeyNotGrocery | src/pages/Grocery.tsx:108 | a food key whose dish id and label have no bar is not a grocery line |
| CrossPage.ClearKeepsGroceryLine | src/pages/Tuck.tsx:195-198 | the stationery Clear keeps such a grocery line, and the sidebar does not show it |
| CrossPage.ClearKeepsFoodLine | src/pages/Tuck.tsx:195-198 | the stationery Clear keeps such a food line, and the sidebar does not show it |
| CrossPage.GroceryViewSkipsTuckLine | src/pages/Grocery.tsx:104-116 | the grocery view never holds a catalogue stationery line whose option id has no bar |
| CrossPage.GroceryViewSkipsFoodLine | src/pages/Grocery.tsx:104-116 | nor a food line whose dish id and label have no bar |
| Text.IndexOf | src/pages/Tuck.tsx:69 | `indexOf`: -1 or the first position where the pattern occurs |
| Text.IndexOfContains | src/pages/Tuck.tsx:69 | `indexOf` is -1 exactly when the text does not contain the pattern |
| Text.ReplaceFirst | src/pages/Checkout.tsx:214-216 | `replace` with a string pattern changes nothing when the pattern is absent, and replaces a leading occurrence |
| Text.SplitOn | src/pages/Grocery.tsx:110 | `split` gives at least one part |
| Text.JoinSplitOn | src/pages/Grocery.tsx:110-111 | joining the parts of a split with the separator gives back the text |
| Text.SplitOnJoin | src/pages/Grocery.tsx:110-111 | splitting a join of separator-free parts gives back the parts |
| Text.TrimEmptyIff | src/pages/Grocery.tsx:119-121 | `trim` gives the empty text exactly when the text is all whitespace |
| Text.NatToStringRoundTrip | src/pages/Checkout.tsx:29 | `String(n)` is a digit string that reads back as n, with at most four digits below 10000 |

## Left out

- Reading the cart from `localStorage` on start and writing it back on every change (src/contexts/CartContext.tsx:34-53, src/components/Hero.tsx:31-49) are browser storage with swallowed failures. `Cart` starts empty. The hero section's constructor takes what was stored as an input.
- The backend calls are network I/O, so each answer is an input and not a call. These are the profile read and upsert, the two category lookups and the two inserts of the checkout page, and `loadServices`/`loadProfile` on the home page.
- The sign-in state is a `signedIn` flag or an optional user id, because the authentication context is not part of this model.
- Timers are not modelled: the 350 ms re-enable in `addToCart` (modelled as the separate `ReEnable` step), the loading delay of the food page and the toast timeout of the hero section.
- Scrolling, `window.print`, keyboard shortcuts and animations are left out, as is rendering beyond the values the markup computes. The same goes for the `onAddToCart`/`onOrderNow` callbacks, beyond whether `onOrderNow` is present.
- `formatINR`/`toFixed` formatting and the QR image URL are display only.
- `toLowerCase` is ASCII-only. A non-ASCII letter is left as it is.
- Form decoding is exact only for ASCII text. UTF-8 decoding of percent escapes is not modelled, so the round trip of the link's parameters is proved for ASCII. All of the link's parameters are ASCII.
- A tuck item whose `options` array is present but empty would crash on `options[0].price` in the source. The model reads an empty list as "no options".
- `Grocery.CartMapUnique`: the view equals the grocery lines in cart order only when cart ids are unique. With duplicate ids, JavaScript object key order and overwriting decide, and this is stated only as `Grocery.BuildCartMap`'s result.
- Object keys that look like integers (which JavaScript enumerates first) are not modelled. Every key the pages build contains `::`, `@` or `||` or is a catalogue id.
- CrossPage.ClearKeepsGroceryLine: takes as a hypothesis that the category and item name contain no `@` rather than checking the whole grocery catalogue's strings one by one. The food and option lemmas likewise take their id and label characters as hypotheses. Only the stationery ids are checked (`Tuck.CatalogueIdsWellFormed`).
- `Tuck.TuckDeltaRemoves`: `Math.max(0, qty + delta) === 0` is stated as `qty + delta <= 0`, which is the same condition.

## Notes on the code

These are behaviours of the code as written that a reader might not expect. Each is stated in the model as it is:

- `addItem` accepts a zero or negative quantity. Only `updateQty` drops non-positive lines (`CartStore.Cart.AddItem` keeps lines positive only for a positive quantity).
- The grocery id round trip also needs the category not to end in `|`. For example, `makeId("a|", "b")` parses as `("a", "|b")` (`Grocery.ParseTrailingBar`). Every catalogue category qualifies (`Grocery.CatalogueIdsParse`).
- The grocery Checkout button alerts a signed-out user and then navigates anyway (`Grocery.CheckoutGate`).
- The grocery Clear buttons empty the whole shared cart, food and tuck lines included (`Grocery.GroceryPage.Clear`). The tuck sidebar Clear removes only tuck lines (`Tuck.TuckPage.ClearTuckLines`).
- A failed item insert leaves the order row already written, without items (`Checkout.PlaceOrderFailures`).
- The order form's render guard reads a missing id as `undefined`. The click handler reads it as `''`. Either way a hidden category is one the handler sends to a dedicated page (`App.GuardedIdsAreDedicated`).
- The tuck key reads the selection as it was before the click. After a first click, the key and the stored selection are the same first option (`Tuck.ResolveAddFirstOption`).
