# Shopping cart, catalog and sign-up check of the pocpe-todo Android app, in Dafny

This project models the small core of logic in the pocpe-todo Android client.
Everything else in the app is screens wired to vendor SDKs.

- **Cart store** (`CartManager` and `CartItem`): a process-wide, insertion-ordered
  list of cart lines, each a product and a quantity. Adding a product that is
  already in the cart merges into its line. Removing deletes every line with the
  id. Setting a quantity of zero or less removes the line. The total, the item
  count and clearing complete the interface.
- **Sample catalog** (`SampleProducts`): six fixed products and a lookup by id that
  returns the first match or null.
- **Sign-up form check** (`SignUpActivity.setupSignUp`): the e-mail, password and
  confirmation fields are trimmed. Then come, in order: all fields filled,
  password at least 6 characters, password equal to confirmation. The first
  failure is shown as a message. Only an accepted form reaches analytics and
  account creation.

Files:

- `wrappers.dfy`: `Option`, which stands for Kotlin's nullable types.
- `kotlin_int.dfy`: Kotlin's 32-bit `Int` and its wrap-around addition.
- `catalog.dfy`: `Product`, the catalog and lookup by id.
- `cart.dfy`: the cart as a sequence value (`Added`, `Without`, `Updated`, `SumOf`),
  the lemmas about it, and the class `CartManager`. Its mutators (`AddToCart`,
  `RemoveFromCart`, `UpdateQuantity`, `ClearCart`) assign a new sequence to the
  `lines` field and are proved to yield `Added`, `Without`, `Updated` and `[]` of
  the old lines. Its queries change nothing: `Find` is proved to return
  `FirstIndex`, and `GetCartTotal` and `GetItemCount` return `SumOf` (wrapped to an
  `Int` for the count).
- `signup.dfy`: Kotlin `trim`, UTF-16 string length, the validator and the effects
  of pressing the sign-up button.

Modelling choices:

- Prices are integer cents, for example 99.99 USD is 9999. Totals are therefore
  exact sums.
- Quantities are Kotlin `Int` values. `quantity += q` when merging and the
  `sumOf` in `getItemCount` wrap modulo 2^32, and the model says so: `Add32` is
  Kotlin's `Int` addition and `Wrap32` reduces an exact sum modulo 2^32.
  Lemmas that speak of the exact sum of the quantities (`SumOf`) say so. Lemmas
  about the `Int` that `getItemCount` returns require that the exact sum fits in
  an `Int`. `ItemCountWrapsToZero` shows a cart where it does not fit.
- The singleton `CartManager` object is a class instance that starts empty. Its
  invariant `Valid()` is "at most one line per product id". Each mutator keeps it.
- One might expect every line to hold at least one unit. The code does not
  enforce that: `addToCart` accepts any quantity, and only
  `updateQuantity` removes lines whose quantity is 0 or less. The model follows the
  code. Positivity (`AllPositive`) is proved only under the condition that callers
  add positive quantities, as every caller in the app does (`addToCart(p, 1)`).
- When `addToCart` merges, the line keeps the product value it already holds.
  Only its quantity changes, because the Kotlin code mutates `existingItem.quantity`.

## Model

| member | source | states |
|---|---|---|
| `KotlinInt.Wrap32` | app/src/main/java/com/pocpe/todo/models/CartItem.kt:20 | the wrapped value equals the exact one when it fits in an `Int`, and differs from it by a multiple of 2^32 |
| `KotlinInt.WrapAdd` | app/src/main/java/com/pocpe/todo/models/CartItem.kt:47 | wrapping after each addition equals wrapping the exact sum once |
| `KotlinInt.Add32` | app/src/main/java/com/pocpe/todo/models/CartItem.kt:20 | Kotlin `Int` `+`: the exact sum when it fits in an `Int`; below the exact sum when that is above `Int.MAX_VALUE`, above it when it is below `Int.MIN_VALUE` |
| `KotlinInt.Add32IsWrap` | app/src/main/java/com/pocpe/todo/models/CartItem.kt:20 | `Int` addition is the exact sum reduced modulo 2^32 (`Wrap32`) |
| `KotlinInt.Add32Assoc` | app/src/main/java/com/pocpe/todo/models/CartItem.kt:20 | `Int` addition is associative, overflow included |
| `Catalog.Products` | app/src/main/java/com/pocpe/todo/data/SampleProducts.kt:6-75 | exactly six products with ids `prod_001` … `prod_006` in that order; every currency is "USD" and every price is positive |
| `Catalog.CatalogIdsDistinct` | app/src/main/java/com/pocpe/todo/data/SampleProducts.kt:6-75 | no two catalog products share an id |
| `Catalog.FindById` | app/src/main/java/com/pocpe/todo/data/SampleProducts.kt:78 | `find`: None exactly when no entry has the id; otherwise the first entry with that id |
| `Catalog.ProductById` | app/src/main/java/com/pocpe/todo/data/SampleProducts.kt:77-79 | null (None) exactly when no catalog product has the id; otherwise a catalog product with that id, the first in catalog order |
| `Catalog.FindByIdOfEntry` | app/src/main/java/com/pocpe/todo/data/SampleProducts.kt:77-79 | among entries with distinct ids, looking up entry k's id returns entry k |
| `Catalog.ProductByIdOfCatalogEntry` | app/src/main/java/com/pocpe/todo/data/SampleProducts.kt:6-79 | every catalog product is found by its own id |
| `Cart.LineTotal` | app/src/main/java/com/pocpe/todo/models/CartItem.kt:9-11 | a line's total is 0 for quantity 0, the unit price for quantity 1, and never negative for a non-negative price and quantity |
| `Cart.LineTotalGrows` | app/src/main/java/com/pocpe/todo/models/CartItem.kt:9-11 | a line's total is linear in its quantity: adding `q` units (without overflow) adds `q` times the price |
| `Cart.SumOf` | app/src/main/java/com/pocpe/todo/models/CartItem.kt:42-48 | Kotlin `sumOf` over the lines, computed exactly; a sum of non-negative values is non-negative |
| `Cart.FirstIndex` | app/src/main/java/com/pocpe/todo/models/CartItem.kt:18 | `find` by product id: the index of the first line with that id, or None exactly when no line has it |
| `Cart.Added` | app/src/main/java/com/pocpe/todo/models/CartItem.kt:17-24 | `addToCart` on a cart: the number of lines stays the same exactly when a line with the id exists, and grows by one exactly when none does |
| `Cart.AddedMergesOrAppends` | app/src/main/java/com/pocpe/todo/models/CartItem.kt:17-24 | with a line for the id: same length, the first such line keeps its product and its quantity becomes the old quantity plus `q` in `Int` arithmetic, every other line unchanged; without one: the old lines in order, then `(product, q)` |
| `Cart.AddedPresent` | app/src/main/java/com/pocpe/todo/models/CartItem.kt:18-20 | adding a product already in the cart updates its line at the same index, which stays the first line with that id |
| `Cart.AddedAbsent` | app/src/main/java/com/pocpe/todo/models/CartItem.kt:18-23 | adding a product not in the cart appends `(product, q)`, which becomes the first line with that id |
| `Cart.AddedTwice` | app/src/main/java/com/pocpe/todo/models/CartItem.kt:17-24 | adding `q1` and then `q2` of one product gives the same cart as adding `q1 + q2` (in `Int` arithmetic) once |
| `Cart.Without` | app/src/main/java/com/pocpe/todo/models/CartItem.kt:26-28 | no line with the id remains; the result is no longer than the cart; nothing changes when the id is absent |
| `Cart.WithoutKeepsOnlyOldLines` | app/src/main/java/com/pocpe/todo/models/CartItem.kt:26-28 | every line that removal keeps was in the cart |
| `Cart.Updated` | app/src/main/java/com/pocpe/todo/models/CartItem.kt:30-36 | absent id: the cart is unchanged; `q ≤ 0`: the result equals removing the id; otherwise only the matching line's quantity becomes `q` |
| `Cart.WithoutAppend` | app/src/main/java/com/pocpe/todo/models/CartItem.kt:27 | removal distributes over concatenation, so the kept lines keep their relative order |
| `Cart.WithoutSetSameId` | app/src/main/java/com/pocpe/todo/models/CartItem.kt:32-34 | setting the quantity of the line that is then removed makes no difference to the result |
| `Cart.WithoutOneLine` | app/src/main/java/com/pocpe/todo/models/CartItem.kt:26-28 | when no other line has line `i`'s id, removing that id deletes exactly line `i` and keeps the rest in order |
| `Cart.WithoutKeepsOneLinePerId` | app/src/main/java/com/pocpe/todo/models/CartItem.kt:26-28 | removal keeps "at most one line per id" |
| `Cart.SumOfAppend` | app/src/main/java/com/pocpe/todo/models/CartItem.kt:42-48 | a sum over concatenated carts is the sum of the two sums |
| `Cart.SumOfUpdate` | app/src/main/java/com/pocpe/todo/models/CartItem.kt:42-48 | replacing one line changes a sum by exactly that line's difference |
| `Cart.CountAtLeastLines` | app/src/main/java/com/pocpe/todo/models/CartItem.kt:46-48 | with positive quantities, the exact sum of the quantities (before any `Int` wrap) is at least the number of lines |
| `Cart.EmptyIffNoItems` | app/src/main/java/com/pocpe/todo/CartActivity.kt:39 | with positive quantities, the cart has no line (checkout refused) exactly when the exact sum of the quantities is 0 |
| `Cart.ItemCountAtLeastLines` | app/src/main/java/com/pocpe/todo/models/CartItem.kt:46-48 | with positive quantities whose exact sum fits in an `Int`, the count `getItemCount` returns is at least the number of lines |
| `Cart.EmptyIffItemCountZero` | app/src/main/java/com/pocpe/todo/models/CartItem.kt:46-48 | with positive quantities whose exact sum fits in an `Int`, `getItemCount` returns 0 exactly when the cart has no line |
| `Cart.AddedKeepsOneLinePerId` | app/src/main/java/com/pocpe/todo/models/CartItem.kt:17-24 | adding keeps "at most one line per id" |
| `Cart.AddedSums` | app/src/main/java/com/pocpe/todo/models/CartItem.kt:17-24 | without overflow, adding `q` raises the item count by `q` and the total by `q` times the price of the line that receives it |
| `Cart.AddedKeepsPositive` | app/src/main/java/com/pocpe/todo/models/CartItem.kt:17-24 | adding a positive quantity without overflow keeps every quantity positive |
| `Cart.WithoutSums` | app/src/main/java/com/pocpe/todo/models/CartItem.kt:26-28 | removing a present id lowers each sum by that line's contribution; removing an absent id leaves the sums alone |
| `Cart.UpdatedKeepsOneLinePerId` | app/src/main/java/com/pocpe/todo/models/CartItem.kt:30-36 | updating a quantity keeps "at most one line per id" |
| `Cart.UpdatedKeepsPositive` | app/src/main/java/com/pocpe/todo/models/CartItem.kt:30-36 | updating never leaves a line with quantity ≤ 0 behind |
| `Cart.UpdatedSums` | app/src/main/java/com/pocpe/todo/models/CartItem.kt:30-36 | setting a present line to `q > 0` replaces its quantity and its line total in the sums |
| `Cart.MergeScenario` | app/src/main/java/com/pocpe/todo/models/CartItem.kt:17-48 | adding 2 then 1 of a 10.00 product gives one line, 3 items and a total of 30.00 |
| `Cart.ItemCountWrapsToZero` | app/src/main/java/com/pocpe/todo/models/CartItem.kt:46-48 | a valid cart of three positive lines, two of them at `Int.MAX_VALUE`, whose `getItemCount` wraps to 0 |
| `Cart.RemoveScenario` | app/src/main/java/com/pocpe/todo/models/CartItem.kt:17-28 | adding A then B and removing A leaves exactly B's line |
| `Cart.CartManager.constructor` | app/src/main/java/com/pocpe/todo/models/CartItem.kt:14-15 | the store starts empty and valid |
| `Cart.CartManager.Find` | app/src/main/java/com/pocpe/todo/models/CartItem.kt:31 | the loop returns the index of the first line with the id, or None when there is none |
| `Cart.CartManager.AddToCart` | app/src/main/java/com/pocpe/todo/models/CartItem.kt:17-24 | the new lines are `Added(old lines, product, quantity)`, and the one-line-per-id invariant holds |
| `Cart.CartManager.RemoveFromCart` | app/src/main/java/com/pocpe/todo/models/CartItem.kt:26-28 | the loop keeps exactly `Without(old lines, id)`, and the invariant holds |
| `Cart.CartManager.UpdateQuantity` | app/src/main/java/com/pocpe/todo/models/CartItem.kt:30-36 | the new lines are `Updated(old lines, id, quantity)`, and the invariant holds |
| `Cart.CartManager.GetCartItems` | app/src/main/java/com/pocpe/todo/models/CartItem.kt:38-40 | returns the lines in insertion order and changes nothing |
| `Cart.CartManager.GetCartTotal` | app/src/main/java/com/pocpe/todo/models/CartItem.kt:42-44 | the loop returns the sum of the line totals (0 for an empty cart) and changes nothing |
| `Cart.CartManager.GetItemCount` | app/src/main/java/com/pocpe/todo/models/CartItem.kt:46-48 | the loop returns the sum of the quantities, wrapped to an `Int` (exact when it fits; 0 for an empty cart), and changes nothing |
| `Cart.CartManager.ClearCart` | app/src/main/java/com/pocpe/todo/models/CartItem.kt:50-52 | the cart is empty afterwards, also when it was empty before |
| `Cart.CartManager.Contains` | app/src/main/java/com/pocpe/todo/CollectionActivity.kt:125-126 | the "in cart" test holds exactly when some line has the id |
| `SignUp.IsWhitespace` | app/src/main/java/com/pocpe/todo/SignUpActivity.kt:56-58 | `Char.isWhitespace`, as `trim` uses it: a space is whitespace, no ASCII letter or digit is, and every whitespace character lies in the Basic Multilingual Plane |
| `SignUp.LeadingBlanks` | app/src/main/java/com/pocpe/todo/SignUpActivity.kt:56-58 | the number of leading whitespace characters: all of them whitespace, and the next character is not |
| `SignUp.TrailingBlanks` | app/src/main/java/com/pocpe/todo/SignUpActivity.kt:56-58 | the number of trailing whitespace characters: all of them whitespace, and the previous character is not |
| `SignUp.Trim` | app/src/main/java/com/pocpe/todo/SignUpActivity.kt:56-58 | the result is a contiguous part of the input; every character dropped is whitespace; the result neither starts nor ends with whitespace; it is empty exactly when the input is blank |
| `SignUp.TrimIdempotent` | app/src/main/java/com/pocpe/todo/SignUpActivity.kt:56-58 | trimming twice is trimming once |
| `SignUp.TrimKeepsTrimmed` | app/src/main/java/com/pocpe/todo/SignUpActivity.kt:56-58 | text that neither starts nor ends with whitespace is left unchanged |
| `SignUp.Utf16Length` | app/src/main/java/com/pocpe/todo/SignUpActivity.kt:65 | `String.length` counts UTF-16 units: between one and two per character, and one per character when all are in the Basic Multilingual Plane |
| `SignUp.Rejection.Message` | app/src/main/java/com/pocpe/todo/SignUpActivity.kt:60-72 | every rejection has a non-empty message |
| `SignUp.MessagesDistinct` | app/src/main/java/com/pocpe/todo/SignUpActivity.kt:60-72 | different rejections show different messages |
| `SignUp.ValidateSignUp` | app/src/main/java/com/pocpe/todo/SignUpActivity.kt:56-73 | "Please fill all fields" exactly when some field is blank (this check wins); otherwise too short exactly when the trimmed password has fewer than 6 UTF-16 units; otherwise mismatch exactly when the trimmed passwords differ; accepted exactly when all three checks pass, carrying the trimmed e-mail and password |
| `SignUp.ValidateIgnoresSurroundingWhitespace` | app/src/main/java/com/pocpe/todo/SignUpActivity.kt:56-73 | the outcome for trimmed inputs equals the outcome for the raw inputs |
| `SignUp.SixCharacterPasswordAccepted` | app/src/main/java/com/pocpe/todo/SignUpActivity.kt:65-68 | a password of exactly 6 characters, padded with spaces, passes and is trimmed |
| `SignUp.OnSignUpClick` | app/src/main/java/com/pocpe/todo/SignUpActivity.kt:54-83 | a rejected form produces only its message; tracking and account creation happen exactly when the form is accepted, and the account is requested with the trimmed e-mail and password |

## Left out

- Floating point: prices and totals are Kotlin `Double`. Here they are exact integer cents. IEEE rounding and the `"%.2f"` display formatting are not modelled.
- EmptyIffItemCountZero, ItemCountAtLeastLines: both require that the exact sum of the quantities fits in an `Int`. Past that, `getItemCount` wraps and can be 0 or smaller than the number of lines for a non-empty cart (`ItemCountWrapsToZero`). The checkout button is unaffected, because it tests `getCartItems().isEmpty()` (app/src/main/java/com/pocpe/todo/CartActivity.kt:39), not the count.
- Default arguments: `CartItem(product, quantity = 1)` and `addToCart(product, quantity = 1)` are modelled with the quantity always passed. Every call in the app passes 1 explicitly (app/src/main/java/com/pocpe/todo/CollectionActivity.kt:143, app/src/main/java/com/pocpe/todo/ProductDetailActivity.kt:67).
- Cart.LineTotal: its contract states only consequences of "price times quantity" (zero, unit price, sign). The exact product is its one-line definition; `LineTotalGrows` states its linearity in the quantity, and `AddedSums` and `UpdatedSums` use it.
- Aliasing: `getCartItems` returns a shallow copy whose `CartItem` objects are shared with the store. The model's lines are immutable values, so changes made through a leaked reference are not modelled.
- Concurrency: `CartManager` is an unsynchronised singleton. The model is single-threaded.
- `getProducts` being constant needs no member: a Dafny function always returns the same value for the same arguments.
- `Char.isWhitespace` follows the Unicode tables of the runtime. The model fixes the set: TAB to CR, FS to US, and the Unicode space, line and paragraph separators (U+180E is not included).
- The sign-up handler after the account request is left out. That covers the asynchronous Firebase reply, Mixpanel profile updates, the advertising-id lookup, navigation and the Facebook sign-up path. All of these are calls into SDKs.
- Screens, intents, adapters, analytics helpers (RudderStack, Mixpanel), device checks (flashlight, Bluetooth, connectivity, speed test), random order ids and the build configuration are not part of this model.
- The login screen's check (trimmed e-mail and password non-empty) is not modelled separately. Its condition is the first check of the sign-up validator with two fields, but its message differs: it shows "Please enter email and password" (app/src/main/java/com/pocpe/todo/MainActivity.kt:58-59).
- Unpaired surrogates: a Kotlin `String` is a sequence of UTF-16 units and may hold a lone surrogate, while a Dafny `char` is a Unicode scalar value, so such strings cannot be represented. No surrogate is whitespace and a lone one counts as one unit of length, so the outcome of the form check would not change.
