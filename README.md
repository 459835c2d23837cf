# JBL Store carts in Dafny

This project models the two cart stores of the JBL Store front end. They are
independent: each keeps an ordered list of line items under its own storage
key, and they never read each other's entry.

- **Popup cart** (`js/cart-popup.js`, module `PopupCart`). Lines are
  `{name, price, image, quantity}` kept under the key `cart`.
  `addToCartWithPopup` loads the list, bumps the first line with the
  product's name or pushes a new line with quantity 1, writes the list back
  and hands the merged or appended line to the popup. `updateCartPopupContent`
  shows either an empty state or the subtotal, the amount left to free
  shipping (threshold 1000), the shipping fee (0 or 50), the 20% tax and the
  total. `updateHeaderCartCount` shows the sum of the quantities.
- **Controller cart** (`js/shopping-cart-tr.js`, class `ShoppingCartSystem`,
  modules `ControllerLines`, `ControllerCsv` and `ControllerCart`). Lines also
  carry an `id`, and the list is kept under the key `jblCart`. The class owns
  a `cart` field that its methods change in place and save after every
  change:
  - `addToCart` merges by name.
  - `removeFromCart` splices out the first line with that id.
  - `updateQuantity` removes the line when the quantity is `<= 0`.
  - `clearCart` and `checkout` empty the cart once confirmed.
  - `getTotal` and `getTotalItems` are the two sums.
  - `checkout` quotes `getTotal() + 50`.
  - `downloadCartAsCSV` builds a header, one row per line and a `TOPLAM` row.

How the model is laid out:

- `ControllerLines` states what each list operation does to the list, as
  functions of the old list.
- `ShoppingCartSystem` in `ControllerCart` is a class. Its `cart` field and
  the stored entry `storage` are changed by methods proved equal to those
  functions. Each method keeps `Valid()`, meaning the stored entry reads back
  as the cart in memory.
- The popup's add step is a method. It mutates a local copy of the loaded
  list and is proved against the function `AddProduct`.
- `Decimal` gives the text that a template literal writes for an integer,
  and proves that it reads back as that integer.

## Model

| member | source | states |
|---|---|---|
| PopupCart.FindIndexByName | js/cart-popup.js:295 | The index of the first line with that name, or -1 exactly when no line has it |
| PopupCart.AddToCartWithPopup | js/cart-popup.js:290-319 | The list written back and the line handed to the popup are exactly `AddProduct` of the loaded list (absent entry = empty list) |
| PopupCart.AddProductMerges | js/cart-popup.js:295-299 | When line i is the first with the product's name: the length is unchanged, line i gains exactly one unit and keeps its stored price and image, every other line is unchanged, and line i is the just-added item |
| PopupCart.AddProductAppends | js/cart-popup.js:300-308 | When no line has the name: one line `{name, price, image, quantity: 1}` is appended at the end, earlier lines are unchanged, and it is the just-added item |
| PopupCart.AddProductAmounts | js/cart-popup.js:297-317 | After add, the item count is one more. The subtotal grows by the stored price of the merged line, or by the product's price on an append. The just-added item carries the product's name and is in the list |
| PopupCart.AddProductKeepsNamesDistinct | js/cart-popup.js:295-308 | Pairwise distinct names stay distinct after add, and the popup then shows the filled view |
| PopupCart.SubtotalUpdate | js/cart-popup.js:187 | Replacing one line changes the `reduce` subtotal by the difference of that line's `price * quantity` |
| PopupCart.ItemCountUpdate | js/cart-popup.js:324 | Replacing one line changes the quantity sum by the difference of that line's quantity |
| PopupCart.NonEmptyCartIsShown | js/cart-popup.js:157-166 | A non-empty stored cart never takes the empty-state branch |
| PopupCart.Progress | js/cart-popup.js:190 | The progress value is at most 100, and is 100 exactly when the subtotal reaches the threshold 1000 |
| PopupCart.UpdateCartPopupContent | js/cart-popup.js:155-248 | Empty state exactly when the loaded list is empty. Otherwise it shows the line count, the subtotal and `remaining = 1000 - subtotal`. The free-shipping banner (`remaining <= 0`), the fee 0 (`subtotal >= 1000`) and a full progress bar all coincide. The fee is 0 or 50, the tax is `subtotal * 0.20`, the progress is `Progress(subtotal)`, and the total is `subtotal * 1.2 + fee` |
| PopupCart.UpdateHeaderCartCount | js/cart-popup.js:322-324 | The badge of an absent entry is 0 |
| PopupCart.ItemCountCoversLines | js/cart-popup.js:324 | With every quantity at least 1, the badge count is at least the number of lines, and positive for a non-empty cart |
| PopupCart.AbsentEntryIsEmpty | js/cart-popup.js:155-166 | An absent entry gives the empty-state popup and a badge of 0 |
| PopupCart.ShippingScenarios | js/cart-popup.js:187-248 | A subtotal of 1000 ships free. A subtotal of 400 leaves 600, costs 50 shipping and fills 40% of the bar |
| Decimal.IntToString | js/shopping-cart-tr.js:322 | The interpolated text of an integer is non-empty and made of digits and a minus sign, which leads exactly when the integer is negative |
| Decimal.ParseIntToString | js/shopping-cart-tr.js:322 | The interpolated text of every integer reads back as that integer |
| ControllerLines.IndexOfName | js/shopping-cart-tr.js:25 | The first line with that name, or -1 exactly when no line has it |
| ControllerLines.IndexOfId | js/shopping-cart-tr.js:45 | The first line with that id, or -1 exactly when no line has it |
| ControllerLines.AddLine | js/shopping-cart-tr.js:24-41 | With an existing name, only that line changes, by one unit, and the passed price and image are ignored. With a new name, `{id, name, price, image, quantity: 1}` is appended after the unchanged old lines |
| ControllerLines.RemoveById | js/shopping-cart-tr.js:44-53 | No-op when no id matches. Otherwise the list is one shorter, with the lines before and after the first match kept in order |
| ControllerLines.UpdateQuantity | js/shopping-cart-tr.js:56-67 | Unknown id: unchanged. Known id with `q <= 0`: exactly `RemoveById`. Known id with `q > 0`: only that line's quantity becomes `q` |
| ControllerLines.QuoteOf | js/shopping-cart-tr.js:282-298 | No quote exactly for an empty cart. Otherwise the quote holds `getTotalItems()`, `getTotal()` and the total `getTotal() + 50` |
| ControllerLines.SumConcat | js/shopping-cart-tr.js:84-91 | A `reduce` sum over two lists put together is the sum of the two sums |
| ControllerLines.SumUpdate | js/shopping-cart-tr.js:84-91 | Replacing one line changes a sum by the difference of that line's amounts |
| ControllerLines.SumRemoveAt | js/shopping-cart-tr.js:84-91 | Splicing out one line takes exactly that line's amount off a sum |
| ControllerLines.TotalItemsCoversLines | js/shopping-cart-tr.js:88-91 | With every quantity at least 1, `getTotalItems()` is at least the number of lines, and 0 exactly for the empty cart |
| ControllerLines.AddLineTotals | js/shopping-cart-tr.js:24-41 | `addToCart` adds exactly one item. `getTotal()` grows by the stored price on a merge, or by the passed price on an append |
| ControllerLines.AddLineInvariants | js/shopping-cart-tr.js:24-41 | `addToCart` keeps names pairwise distinct and quantities at least 1. It keeps ids distinct when the new id is fresh |
| ControllerLines.RemoveByIdTotals | js/shopping-cart-tr.js:44-53 | Removing a present id takes exactly that line's `price * quantity` off `getTotal()` and its quantity off `getTotalItems()` |
| ControllerLines.RemoveByIdKeepsOrder | js/shopping-cart-tr.js:44-53 | After removal, position k holds old line k before the removed position and old line k+1 from it on |
| ControllerLines.RemoveByIdInvariants | js/shopping-cart-tr.js:44-53 | Removal keeps quantities at least 1, distinct names and distinct ids. With distinct ids, the removed id is gone afterwards |
| ControllerLines.UpdateQuantityInvariants | js/shopping-cart-tr.js:56-67 | `updateQuantity` with any integer keeps every quantity at least 1, and keeps names and ids distinct |
| ControllerLines.UpdateQuantityTotals | js/shopping-cart-tr.js:56-67 | Setting a positive quantity q moves `getTotalItems()` by `q - old` and `getTotal()` by `price * (q - old)` |
| ControllerLines.SpeakerScenario | js/shopping-cart-tr.js:24-41 | Adding "Speaker" at 500 twice gives one line of quantity 2, with total 1000 and 2 items |
| ControllerCsv.RowLastField | js/shopping-cart-tr.js:322 | The last field of each row reads back as that line's `price * quantity` |
| ControllerCsv.RowsConcat | js/shopping-cart-tr.js:321-323 | The rows of two lists put together are the rows of the first followed by those of the second |
| ControllerCsv.RowsInOrder | js/shopping-cart-tr.js:321-323 | Row k comes after the rows of lines 0..k-1 and before the rows of the lines after it |
| ControllerCsv.TotalRowField | js/shopping-cart-tr.js:324 | The total row starts with `TOPLAM,` and its last field reads back as the total |
| ControllerCsv.CsvEndsWithTotalRow | js/shopping-cart-tr.js:320-324 | The text ends with two line breaks (the end of the last row or header, then a blank line) followed by the `TOPLAM` row, whose last field reads back as `getTotal()` |
| ControllerCsv.CsvLineCount | js/shopping-cart-tr.js:320-324 | When no name holds a newline, the text has exactly `lines + 3` line breaks: header, one per row, blank line and total row |
| ControllerCart.ShoppingCartSystem.constructor | js/shopping-cart-tr.js:6-16 | The cart is the stored entry, or empty when there is none, and nothing is written |
| ControllerCart.ShoppingCartSystem.AddToCart | js/shopping-cart-tr.js:24-41 | The new cart is `AddLine` of the old one and is saved. The item count grows by 1. Positive quantities and distinct names are kept |
| ControllerCart.ShoppingCartSystem.RemoveFromCart | js/shopping-cart-tr.js:44-53 | The new cart is `RemoveById` of the old one. It is saved only when the id was present. Positive quantities are kept |
| ControllerCart.ShoppingCartSystem.UpdateQuantity | js/shopping-cart-tr.js:56-67 | The new cart is `UpdateQuantity` of the old one. It is saved only when the id was present. Positive quantities are kept |
| ControllerCart.ShoppingCartSystem.ClearCart | js/shopping-cart-tr.js:70-81 | An empty cart is left as it is. A non-empty one is emptied and saved when confirmed, and left as it is when declined |
| ControllerCart.ShoppingCartSystem.Checkout | js/shopping-cart-tr.js:282-308 | The quote is `QuoteOf` of the old cart (none when empty). A confirmed checkout empties and saves the cart. A declined one or an empty cart leaves cart and storage unchanged |
| ControllerCart.ShoppingCartSystem.DownloadCartAsCsv | js/shopping-cart-tr.js:319-324 | The text built row by row in the loop is exactly `CsvText` of the cart: header, rows in cart order, blank line, `TOPLAM` row |

## Left out

- DOM and HTML are not modelled: templating, `innerHTML`, class toggling, event wiring, `openCartPopup`, `toggleCartModal`, `renderCartModal`, `updateUI`, `updateProductButton` and the suggested products. They only draw the state that is modelled here.
- Timers, animations and notification toasts are left out: they are asynchronous UI effects with no bearing on the cart.
- `localStorage` and JSON are an in-memory `Option` entry. A malformed or `null`-valued entry is not modelled: `JSON.parse` would throw or yield a non-list.
- An entry holding the empty string is not modelled either. The controller treats it like an absent entry.
- `toLocaleString('tr-TR')` and `formatPrice` are not modelled: they are library formatting of displayed numbers. The CSV uses plain interpolation, which `Decimal` models.
- JavaScript numbers are modelled as unbounded integers. The model has no floating-point rounding of sums, and no exponent notation for integers of 1e21 or more in the CSV.
- The popup's tax `subtotal * 0.20` and its progress percentage are exact reals, without the binary floating-point rounding.
- `Date.now()` ids are an argument of `AddToCart`, and the order number shown after checkout is left out.
- `alert` and `confirm` are not modelled: the confirm answers are the `confirmed` arguments, and alerts show no state.
- The Blob and URL download of the CSV is left out. `DownloadCartAsCsv` returns the text.
- The string-valued quantity passed by the quantity input's `onchange` is not modelled: it relies on JavaScript type coercion, and quantities are integers here.
- The top-level use of `cartSystem` before it is constructed, the global wrapper functions and the search filter over product cards are browser glue and are not modelled.
- `getTotal` and `getTotalItems` are the module functions `ControllerLines.Total` and `ControllerLines.TotalItems` rather than class members. The class methods and lemmas refer to them on the `cart` field.
- `showCartDetails` only logs to the console and is not modelled.
- PopupCart.UpdateHeaderCartCount: the contract states only the absent-entry case. The general relation to the quantities is `ItemCountCoversLines`.
- ControllerCsv.CsvLineCount: it requires names without newlines. Names are written between quotes without escaping, so a newline or quote in a name would split or break its row.
