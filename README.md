# Storefront cart and checkout, modelled in Dafny

The storefront keeps one cart for its single shopper (`userId` "mock-user").
The backend has four cart handlers:

- read the cart, creating an empty one on first use;
- add a product, merging into the product's line or appending a new line that copies the product's name, price and image;
- remove a line;
- set a line's quantity.

Every reply carries the lines and the fold of price times quantity over them. The cart document's schema requires every quantity to be at least 1. Its pre-save hook overwrites the stored `total` with the same fold on every save.

Checkout turns the cart into an order:

- check that a customer name and email were sent;
- refuse an absent or empty cart;
- re-price each line against the catalog as it is now, falling back to the cart's copies for a product no longer there;
- total the order, save it, then empty the cart.

On the frontend, the checkout form validates the name and email before it submits them.

The model has these modules:

- `Totals`: the left fold behind every total.
- `Replies`: the handler outcomes (a value, or a 400, 404 or 500 error).
- `ObjectIds`: the text forms of MongoDB ObjectIds.
- `CartSchema`: the line and cart documents. `Cart` is the in-memory document a handler mutates; its `PreSave` is the save-time validation and hook.
- `OrderSchema`: the order document.
- `Store`: the document store as state.
  - `Database` holds the catalog map, the optional stored cart, the append-only orders and the source of fresh ObjectIds.
  - `FindCart` hands out a fresh copy of the stored cart.
  - `SaveCart` and `SaveOrder` write back. Each takes the write's outcome as a parameter.
  - `Valid()` is the invariant every handler keeps:
    - every stored quantity is at least 1;
    - the stored total is the fold;
    - line ids are distinct;
    - each product has at most one line;
    - every order's total is the fold over its lines.
- `CartRoutes`: the cart handlers. Each handler is a method over `Database`, specified by list functions on the lines (`Add`, `Without`, `SetQuantity`) whose properties are lemmas.
- `CheckoutRoute`: the checkout handler and the re-pricing map `ResolveAll`.
- `CheckoutForm`: `validateForm` with JavaScript's `trim` and the email pattern, and the component state updated by `handleChange` and `handleSubmit`.

Money is integer cents. The checkout handler only checks that the name and email are non-empty (backend/routes/checkout.js:12); only the form trims them and checks the email's shape. An absent or empty cart at checkout gets 400 "Cart is empty" (backend/routes/checkout.js:16-19).

## Model

| member | source | states |
|---|---|---|
| Totals.SumConcat | backend/models/Cart.js:43 | the fold over a concatenation is the sum of the folds over the parts |
| Totals.SumUpdate | backend/models/Cart.js:43 | replacing one element moves the fold by the difference of the two amounts |
| Totals.SumDelete | backend/models/Cart.js:43 | deleting one element lowers the fold by its amount |
| ObjectIds.CanonicalId | backend/routes/cart.js:57 | an id's printed form has the same length, is 24 lower-case hex digits for any 24-hex-digit text, and is the identity on text already in that form |
| ObjectIds.SameIdExactlyUpToCase | backend/routes/cart.js:57 | two 24-hex-digit texts print as the same id exactly when they differ only in the case of their hex letters |
| Store.FindByIdUpToCase | backend/routes/cart.js:43-47 | the lookup sees only the id a text stands for: two 24-hex-digit spellings that differ only in the case of their letters find the same product, or both find none |
| Store.Database.FreshId | backend/routes/cart.js:64-70 | a new id is distinct from every id handed out before, and the store's invariant is kept |
| Store.Database.FindCart | backend/routes/cart.js:95 | no cart is returned exactly when none is stored; otherwise a fresh in-memory copy equal to the stored one |
| Store.Database.SaveCart | backend/models/Cart.js:42-45 | a save succeeds exactly when every quantity is at least 1 and the write goes through; it stores the cart with `total` overwritten by the fold, leaves the lines as they were, and on failure stores nothing; a failed validation also leaves `total` as it was |
| Store.Database.SaveOrder | backend/routes/checkout.js:37-46 | an order is appended exactly when the write goes through and its required name and email are present; otherwise the orders are unchanged |
| CartSchema.Cart.constructor | backend/routes/cart.js:53 | a new in-memory cart holds exactly the given owner, lines and total |
| CartSchema.Cart.PreSave | backend/models/Cart.js:42-45 | validation passes exactly when every quantity is at least 1, and then `total` becomes the fold whatever it held; a failed validation leaves `total` alone |
| CartRoutes.FindByProduct | backend/routes/cart.js:56-58 | the first line with the product id, or -1 exactly when no line has it |
| CartRoutes.FindLine | backend/routes/cart.js:141 | the first line with the line id, or -1 exactly when no line has it |
| CartRoutes.Without | backend/routes/cart.js:102 | filtering never lengthens the list and leaves no line with the id |
| CartRoutes.AddMerges | backend/routes/cart.js:56-62 | when the product has a line, that line's quantity grows by exactly the amount added; its name, price and image, the line count and every other line stay as they were |
| CartRoutes.AddAppends | backend/routes/cart.js:63-72 | when the product has no line, exactly one line is pushed at the end, copying the product's name, price and image, with the quantity asked for |
| CartRoutes.AddKeepsInvariant | backend/routes/cart.js:56-72 | Add keeps every quantity at least 1, line ids distinct and fresh, and at most one line per product |
| CartRoutes.AddTotal | backend/routes/cart.js:74-76 | after an Add the fold is the old fold plus the quantity times the cached price (merge) or the catalog price (append) |
| CartRoutes.AddedProductHasLine | backend/routes/cart.js:56-72 | after an Add the product has a line, holding its previous quantity plus the amount added |
| CartRoutes.AsWrittenDuplicatesProduct | backend/routes/cart.js:56-58 | as written, an upper-case spelling of the id of a product already in the cart matches no line, and the handler leaves two lines for one product |
| CartRoutes.UpperCaseSpelling | backend/routes/cart.js:43 | the upper-case id of the example is accepted by the lookup and names the stored lower-case id |
| CartRoutes.UpperCaseIdExample | backend/routes/cart.js:56-72 | on the example cart the handler as written appends a second line for the product, while Add merges into the one line |
| CartRoutes.WithoutAbsent | backend/routes/cart.js:102 | filtering out an id that no line has changes nothing |
| CartRoutes.WithoutShrinks | backend/routes/cart.js:101-104 | filtering out an id that some line has makes the list shorter |
| CartRoutes.LengthDetectsRemoval | backend/routes/cart.js:101-107 | the length comparison finds the list unchanged exactly when no line has the id |
| CartRoutes.WithoutSplits | backend/routes/cart.js:102 | with distinct line ids, removing the line at k leaves exactly the lines before it and after it, in their order |
| CartRoutes.WithoutIdempotent | backend/routes/cart.js:101-107 | after a removal no line has the id, so a second removal changes nothing |
| CartRoutes.WithoutKeepsInvariant | backend/routes/cart.js:102 | removing a line keeps every quantity at least 1, line ids distinct and at most one line per product |
| CartRoutes.DeleteKeepsInvariant | backend/routes/cart.js:102 | deleting one position keeps the cart's invariants |
| CartRoutes.WithoutTotal | backend/routes/cart.js:109-111 | removing a line lowers the fold by that line's price times quantity |
| CartRoutes.SetQuantityEffect | backend/routes/cart.js:141-147 | the line with the id gets exactly the new quantity, an absolute value; its other fields and every other line are unchanged |
| CartRoutes.SetQuantityKeepsInvariant | backend/routes/cart.js:147 | setting a quantity of at least 1 keeps the cart's invariants |
| CartRoutes.SetQuantityTotal | backend/routes/cart.js:147-150 | the fold moves by the line's price times the change in quantity |
| CartRoutes.GetCart | backend/routes/cart.js:7-31 | a stored cart is returned untouched with its lines and their fold; with none, an empty cart is created and saved and `[]`, 0 returned; a failed write is a 500 |
| CartRoutes.AddItem | backend/routes/cart.js:33-88 | a missing product id or a quantity below 1 is a 400, an id that does not cast is a 500, an unknown product is a 404, each with nothing changed; otherwise the cart becomes Add of the product over the stored lines (or none) with its fold as total, and the reply carries those lines and that fold; a failed write stores nothing |
| CartRoutes.AddTwice | backend/routes/cart.js:56-72 | adding the same product twice, `a` then `b`: the first add adds a line only when the product had none, the second adds none; the stored cart is the reply's lines with their fold, at most one line per product, and the product's line holds its previous quantity plus `a + b` |
| CartRoutes.RemoveItem | backend/routes/cart.js:91-123 | no cart is a 404 and no line with the id is a 404, neither saving anything; otherwise the cart becomes the other lines in order with their fold as total |
| CartRoutes.RemoveTwice | backend/routes/cart.js:101-107 | removing the same line twice succeeds once, and the second request is a 404 with the cart as the first left it |
| CartRoutes.UpdateItem | backend/routes/cart.js:125-162 | a quantity below 1 is a 400, no cart or no such line a 404, each with nothing changed; otherwise exactly that line's quantity is set and the cart saved with its fold |
| CheckoutRoute.ResolveAll | backend/routes/checkout.js:22-33 | one order line per cart line, in the cart's order, each the re-pricing of its cart line |
| CheckoutRoute.ResolvedLines | backend/routes/checkout.js:23-31 | each order line takes product id and quantity from its cart line, and name, price and image from the catalog when the product is there and from the cart's copies when not |
| CheckoutRoute.ResolvedTotalMatchesCart | backend/routes/checkout.js:35 | when no product in the cart changed price, the order total equals the cart's fold |
| CheckoutRoute.ResolvedPrefix | backend/routes/checkout.js:23 | re-pricing a prefix of the lines gives the prefix of the re-priced lines |
| CheckoutRoute.CheckoutUsesCurrentPrice | backend/routes/checkout.js:27-35 | a product whose price rose from 10.00 to 12.00 is charged 12.00: a cart fold of 20.00 becomes an order total of 24.00 |
| CheckoutRoute.CheckoutFallsBackToCartCopy | backend/routes/checkout.js:27-35 | a product gone from the catalog is charged at the price the cart kept |
| CheckoutRoute.Checkout | backend/routes/checkout.js:8-62 | a missing name or email, or an absent or empty cart, is a 400 with nothing changed; otherwise the order is the re-priced lines with their fold, saved before the cart is cleared; a failed order write leaves the cart as it was; on success the cart is empty with total 0 and the reply echoes the order |
| CheckoutForm.TrimStart | frontend/src/components/CheckoutForm.js:26 | drops exactly the leading whitespace: a suffix, all of whose removed characters are whitespace, starting with a non-space |
| CheckoutForm.TrimEnd | frontend/src/components/CheckoutForm.js:26 | drops exactly the trailing whitespace |
| CheckoutForm.Trim | frontend/src/components/CheckoutForm.js:26 | the trimmed text is empty exactly when the text is all whitespace, and otherwise starts and ends with a non-space |
| CheckoutForm.IndexOf | frontend/src/components/CheckoutForm.js:31 | the first position of a character, or -1 exactly when it does not occur |
| CheckoutForm.CountZero | frontend/src/components/CheckoutForm.js:31 | a character occurs zero times exactly when no position holds it |
| CheckoutForm.CountOne | frontend/src/components/CheckoutForm.js:31 | a character occurs exactly once exactly when none follows its first occurrence |
| CheckoutForm.EmailShapeMatchesPattern | frontend/src/components/CheckoutForm.js:31 | the pattern matches exactly the text with no whitespace, exactly one "@" with something before it, and a "." after it that is neither the first nor the last character of the domain |
| CheckoutForm.ValidationErrors | frontend/src/components/CheckoutForm.js:24-35 | a name error exactly when the name is blank; an email error exactly when the email is blank or, untrimmed, fails the pattern, "required" taking precedence over "invalid" (`Field` has no other keys) |
| CheckoutForm.PassesExactlyWhenComplete | frontend/src/components/CheckoutForm.js:24-35 | no errors exactly when the name is not blank and the email matches the pattern |
| CheckoutForm.PaddedEmailRejected | frontend/src/components/CheckoutForm.js:29-33 | an email with a leading or trailing space is reported invalid, since the pattern sees it untrimmed |
| CheckoutForm.FieldsIndependent | frontend/src/components/CheckoutForm.js:25-34 | the name's error depends only on the name, and the email's only on the email |
| CheckoutForm.Form.constructor | frontend/src/components/CheckoutForm.js:4-8 | the form starts with both fields empty and no errors |
| CheckoutForm.Form.HandleChange | frontend/src/components/CheckoutForm.js:10-22 | the edited field takes the new value; that field's error, when it shows one, is blanked, and every other error stays |
| CheckoutForm.Form.HandleSubmit | frontend/src/components/CheckoutForm.js:37-45 | with any error the errors are shown and nothing is submitted; otherwise the values are submitted and the shown errors are kept; what is submitted always passes validation |

## Left out

- HTTP: Express routing, the error middleware and the console logging are left out. A handler's reply is a `Result`, and a thrown exception is `ServerError`.
- Persistence:
  - Reads from the store always succeed.
  - The outcome of every write is a parameter (`writeOk`).
  - A new document's `_id` is a fresh number from a counter.
  - The cart's own `_id` and its `timestamps` are not modelled.
  - Order lines' `_id`s are not modelled.
- Concurrency:
  - Two handlers interleaving on the same cart (a lost update) is not modelled.
  - The checkout's `Promise.all` is modelled as one map over a fixed catalog snapshot.
  - The gap between saving the order and clearing the cart is modelled only as the sequential case where the second write fails.
- Request values: an absent field arrives as "" or 0, which are falsy like a missing one. A quantity sent as a fraction, as a JSON string (where `+=` would concatenate) or as a non-number is not modelled; quantities are integers.
- ObjectId text: a productId that is a 12-byte string (which Mongoose also casts) is treated as malformed. Line ids in requests are numbers, not text.
- Schema `required` string fields (a cart line's name and image): an empty string is not rejected at save, because product data is taken as complete.
- Money and numbers: floating-point arithmetic, and the `toFixed` display of totals, are not modelled.
- Time: the clock is the `now` parameter of checkout.
- Not part of this model, as I/O or rendering only:
  - backend/server.js;
  - backend/routes/products.js;
  - frontend/src/services/api.js;
  - frontend/src/App.js;
  - frontend/src/components/Cart.js, ProductGrid.js and ReceiptModal.js.
- The checkout form's `loading` state (disabled inputs) and its rendering are left out.
- CartRoutes.AddItem: matches an existing line against the id's printed form, not the request's text (see Findings).
- CartRoutes.AddTwice and CartRoutes.RemoveTwice: both writes are assumed to succeed.

## Findings

| source | as written | input that shows it | evidently intended | confidence | as-written member | corrected member |
|---|---|---|---|---|---|---|
| backend/routes/cart.js:56-58 | the merge compares each line's printed product id with the raw request text | the cart holds product 64b7f0c2a1d3e4f5a6b7c8d9 and the request sends 64B7F0C2A1D3E4F5A6B7C8D9; `findById` finds the product, no line matches, and a second line for the same product is pushed | match on the found product's id, keeping one line per product | not executed | CartRoutes.AsWrittenDuplicatesProduct | CartRoutes.AddKeepsInvariant |
