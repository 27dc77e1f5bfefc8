# Shopping cart of the Mbhaco Designs shop page

This project models the client-side shopping cart of the shop's product page
(`static/main.js`). The page keeps three keys in the browser's
`localStorage`, and every "add to cart" click updates all three:

- `'cartProducts'`: the number of items in the cart;
- `'productsCart'`: the cart, a map from product name to a product record
  with a `quantity`;
- `'calculateTotal'`: the running price total.

The catalog `Items` is an array of twelve product objects whose quantities
start at 0. Button *i* is wired to `Items[i]`. Two functions empty the whole
store: `removeFromCart` (then it reloads the page) and `payment` (it shows the
paid total and does not reload).

The model has two modules:

- `Storage` (storage.dfy) holds the stored values and the pure transitions.
  A stored number is `Option<Num>`: `None` is a missing key, `Some(NaN)` is
  stored text that `parseInt` cannot read, and `Some(Int(n))` is a whole
  number. The cart is a `map<string, Record>`. It also holds the sums over a
  cart (`ItemCount`, `CartValue`), the consistency predicate
  `StoreConsistent` and the lemmas.
- `Shop` (shop.dfy) holds the mutable state. `Product` is a class whose
  `quantity` changes in place. `LocalStorage` is a class with one field per
  key. There is one method per script function: `CartProducts`, `SetItems`,
  `CalculateTotal`, `RemoveFromCart` and `Payment`. `Click` models the click
  listener and `LoadPage` models the catalog a page load creates.

The central invariant is `Shop.Consistent`. It holds three facts:
- The counter equals the sum of the cart's quantities.
- The total equals the sum of price × quantity.
- Every catalog object whose product is not yet in the cart still has
  quantity 0.

A page load with empty storage establishes it. Every click preserves it, and
so does `removeFromCart`. `payment` breaks it (see Findings).

The server side, `app.py`, consists of route handlers that only render
templates, and a `login` handler that returns nothing when the form
validates (app.py:34-35). The only logic with state is the cart script, and
that script is what this model follows.

## Model

| member | source | states |
|---|---|---|
| `Storage.NextCount` | static/main.js:91-107 | the stored counter becomes old + 1 for every stored whole number (a stored 0 also gives 1), and 1 when the key is missing or unreadable |
| `Storage.NextTotal` | static/main.js:145-154 | the stored total becomes old total + price, exactly the price when no total is stored, and stays NaN once the stored text is not a number |
| `Storage.AddToCart` | static/main.js:115-140 | with no cart: a map with exactly one entry, the product under its name with quantity 1; otherwise the key set becomes old keys + the product's name, other entries are unchanged, an existing entry's quantity grows by 1, and a new entry is the catalog object with its quantity + 1 |
| `Storage.CatalogQuantityAfterAdd` | static/main.js:121-138 | the catalog object's quantity after `setItems`: set to 1 with no cart, + 1 when it was inserted into a cart, unchanged when the cart already had the product; when the product was not in the cart it equals the quantity recorded in the new entry |
| `Storage.AddKeepsStoreConsistent` | static/main.js:89-155 | one click keeps counter = item count and total = cart value, given that a product not yet in the cart has catalog quantity 0 and that its cart entry has its price |
| `Storage.StaleQuantityBreaksCount` | static/main.js:122-130 | if a product new to a consistent cart has a non-zero catalog quantity q, the cart gains q + 1 items while the counter gains 1, so the keys no longer agree |
| `Storage.AddKeepsPricesAgree` | static/main.js:113-141 | after adding a catalog product, every catalog product in the cart is still recorded at its catalog price |
| `Storage.AddToCartFixed` | static/main.js:122-133 | corrected insertion: a product new to the cart is recorded with quantity 1; otherwise the result is the as-written update applied to a zero-quantity product |
| `Storage.FixedAddKeepsStoreConsistent` | static/main.js:122-133 | with the corrected insertion, a click keeps counter = item count and total = cart value whatever the catalog object's quantity |
| `Storage.CatalogNamesDistinct` | static/main.js:2-73 | the catalog has 12 products with distinct names, and all quantities start at 0 |
| `Shop.LoadPage` | static/main.js:2-73 | a page load creates a fresh catalog array that matches `Items` entry by entry, with every quantity 0; consistent storage is consistent with it |
| `Shop.CartProducts` | static/main.js:89-110 | sets the counter to `NextCount` of the old counter, then applies `setItems`; the total key is untouched |
| `Shop.SetItems` | static/main.js:113-141 | stores `AddToCart` of the old cart and the catalog object's state, and updates the catalog object in place as `CatalogQuantityAfterAdd` says; counter and total are untouched |
| `Shop.CalculateTotal` | static/main.js:144-155 | stores `NextTotal` of the old total and the product's price; counter and cart are untouched |
| `Shop.Click` | static/main.js:79-86 | a click on button i runs `cartProducts(Items[i])` then `calculateTotal(Items[i])`, changes only storage and `Items[i]`, and preserves `Consistent` |
| `Shop.LocalStorage.Clear` | static/main.js:229 | `localStorage.clear()` leaves counter, cart and total all missing |
| `Shop.RemoveFromCart` | static/main.js:219-223 | clears all three keys and reloads the page, so storage and the new catalog are consistent |
| `Shop.Payment` | static/main.js:226-231 | returns the total the alert shows and leaves counter, cart and total all missing; the catalog objects are not touched |
| `Shop.ShoppingSession` | static/main.js:79-86 | from a fresh page and empty storage, any sequence of clicks with no clear in between leaves storage consistent: the counter equals the number of clicks and the cart's item count, and the total equals the cart's value |
| `Shop.PaymentLeak` | static/main.js:226-231 | clicking product 1, paying, then clicking products 0 and 1 on the same page stores counter 2 and total 200, while the cart holds 3 items worth 300 |

## Left out

- `app.py`: Flask route handlers that only render templates, and a login form class. They are wrappers over libraries this model does not include.
- `keepItemsOnbrowser` and `displayItems`: they only write page text, so they are not modelled. The same goes for the `cart-total` badge updates in `cartProducts`.
- The `alert` in `payment` is not modelled as output. `Shop.Payment` returns the stored total that the alert shows.
- `location.reload()` is modelled as a new catalog from `Shop.LoadPage`. Storage is kept. Nothing is re-rendered.
- JSON encoding and decoding of the cart is taken to be the identity on these flat records.
- `parseInt` is modelled only on what this page can store: whole numbers, or text that reads as NaN. Strings such as "12.5" are not modelled.
- Prices are whole rands (`nat`). JavaScript's floating-point numbers, and their loss of precision above 2^53, are not modelled.
- Only the three keys the page uses are modelled. Other `localStorage` keys, storage quotas and other tabs are left out.
- Adding and removing event listeners are not modelled. A click on button i is a call to `Shop.Click`.
- Shop.Click: requires a button index inside the catalog. A page with more buttons than products would throw in `setItems` (static/main.js:122 with a stored cart, or 133 without one) after writing the counter, so `calculateTotal` would not run. That failure is not modelled.
- Shop.LoadPage: builds the array literal `Items` with a loop over the `Catalog` table. This loop stands for the literal and is not a loop in the script.

## Findings

| source | as written | input that shows it | evidently intended | confidence | as-written member | corrected member |
|---|---|---|---|---|---|---|
| static/main.js:122-130 | `payment` (static/main.js:229-230) clears storage without reloading, so catalog objects keep their quantities. `setItems` then inserts a product new to the cart as its catalog object and increments that stale quantity | on one page: click product 1, pay, click product 0, click product 1. The counter is 2 and the total is 200, but the cart lists product 1 with quantity 2: 3 items worth 300 | a product added to the cart for the first time is recorded with quantity 1, as the branch with no stored cart does | medium: the reload after the clear is commented out at static/main.js:230, and whether the page is left after payment depends on markup outside this model; not executed | `Shop.PaymentLeak` | `Storage.AddToCartFixed` |

The general form of the as-written fault is `Storage.StaleQuantityBreaksCount`. `Storage.FixedAddKeepsStoreConsistent` proves that the corrected insertion keeps the three keys consistent whatever the catalog objects hold.
