# Shopping-cart backend: a Dafny model of the cart routes and their token gate

This project models the logic of a small Express/Mongoose shopping-cart API:

- **CartSchema** (`cart_schema.dfy`) is the Mongoose cart schema. A `Cart` has an owner `userId` and an ordered `items` list of `Item(productId, quantity)`. The predicate `Valid` is what `save()` checks: the owner id is present, every product id is present, and every quantity is at least 1. The schema says nothing about duplicate products.
- **CartItems** (`cart_items.dfy`) holds the pure list rules the routes use:
  - `FindIndex` is `findIndex`: first match, or -1.
  - `RemoveAll` is the `filter` in DELETE.
  - `AddToItems` is POST's merge-or-append.
  - `SetQuantityAt` is PUT's replace.
  - `TotalOf(items, p)` sums the quantities listed for a product. It is the reference view that the lemmas use to say what each rule does to the cart as a product-to-amount table.
- **Auth** (`auth.js` → `auth.dfy`) is the middleware:
  - `Fields` is `split(" ")`, proved inverse to `Join`.
  - `Token` is the second field.
  - `Decide` makes the 401 / 400 / next choice.
  - `Authenticate` is an imperative method on an `Exchange` (request/response) object. It sets `req.user`, writes a reply, or counts a call to `next`.
  - `jwt.verify` with the server secret is the parameter `verify: string -> Option<Claims>`. It is never interpreted.
- **CartRoutes** (`cart_routes.dfy`) covers the store and the routes:
  - The cart collection is a `CartStore` object. Its `carts` field maps each user id to the items of that user's one cart, and its `products` field is the set of ids that `Product.findById` finds.
  - The handlers `Get`, `Post`, `Put` and `Delete` load the cart, change it and call `Save`. `Save` writes only a schema-valid cart; a refused save is a 500 and leaves the store unchanged.
  - Each handler's `ensures` ties its response and the new store to a value-level specification function: `GetOutcome`, `PostOutcome`, `PutOutcome` or `DeleteOutcome`.
  - The handlers keep two store invariants. Every stored cart is schema-valid (`Valid`), and no stored cart lists a product twice (`Distinct`). `Distinct` assumes ids in their canonical spelling (see `ObjectId` casting under Left out).
  - `Serve` runs the gate and then the route.

Ids are compared as strings. A `required` id counts as present when it is non-empty. Quantities are unbounded integers.

## Model

| member | source | states |
|---|---|---|
| CartSchema.LowQuantityInvalid | src/models/Cart.js:16-20 | a cart containing any item whose quantity is below 1 fails the schema |
| CartSchema.SchemaAllowsDuplicates | src/models/Cart.js:9-22 | the schema accepts a valid cart that lists the same product twice, so uniqueness does not come from storage |
| CartItems.FindIndex | src/routes/cart.js:56-58 | the result is -1 exactly when no item has the product id; otherwise it is the index of the first item that has it |
| CartItems.RemoveAll | src/routes/cart.js:110-112 | the result's members are exactly the input's members whose product id differs, and it is no longer than the input; order and multiplicity are fixed by `RemoveAppend` |
| CartItems.AddMergesFirstMatch | src/routes/cart.js:56-62 | when the product is already listed, only the first matching item changes, by `+= quantity`; the length and every other item stay the same |
| CartItems.AddAppends | src/routes/cart.js:63-66 | when the product is absent, the new item is appended at the end and the existing items keep their order |
| CartItems.AddTotal | src/routes/cart.js:56-66 | adding raises the product's total by the given amount and leaves every other product's total unchanged |
| CartItems.AddKeepsDistinct | src/routes/cart.js:56-66 | merge-or-append keeps a list free of duplicate product ids |
| CartItems.AddValid | src/routes/cart.js:62-69 | adding to a valid cart gives a valid cart exactly when the touched or new item has quantity at least 1 |
| CartItems.SetQuantityOnly | src/routes/cart.js:86-91 | PUT changes only the found item's quantity; the product ids and all other items are unchanged |
| CartItems.SetTotal | src/routes/cart.js:86-93 | in a duplicate-free list, PUT makes the product's total equal to the new quantity (replace, not add); other totals are unchanged |
| CartItems.SetKeepsDistinct | src/routes/cart.js:90-91 | PUT never introduces a duplicate product |
| CartItems.RemoveAbsent | src/routes/cart.js:110-112 | filtering out a product that is not listed returns the list unchanged |
| CartItems.RemoveAppend | src/routes/cart.js:110-112 | filtering commutes with concatenation, so the kept items stay in their order |
| CartItems.RemoveTwice | src/routes/cart.js:110-112 | filtering twice equals filtering once |
| CartItems.RemoveTotal | src/routes/cart.js:110-112 | after filtering, the product's total is 0 and every other product's total is unchanged |
| CartItems.RemoveKeeps | src/routes/cart.js:110-114 | filtering keeps a list duplicate-free and keeps a valid cart valid |
| Auth.Fields | src/middlewares/auth.js:6 | `split(" ")` gives at least one field, no field contains a space, joining the fields with spaces gives back the header, and there is a single field exactly when the header has no space |
| Auth.FieldsJoin | src/middlewares/auth.js:6 | splitting undoes joining for space-free fields |
| Auth.TokenAfterScheme | src/middlewares/auth.js:6 | the token is the space-free run after the first space, whatever follows it |
| Auth.TokenNeedsSpace | src/middlewares/auth.js:6 | a header yields a token exactly when it contains a space |
| Auth.SchemeIgnored | src/middlewares/auth.js:6 | any scheme word gives the same decision for the same token; the word is never checked to be `Bearer` |
| Auth.EmptyTokenHeaders | src/middlewares/auth.js:6-9 | `"<scheme> "` and a double space both give an empty token |
| Auth.DenyWithoutToken | src/middlewares/auth.js:6-13 | a missing header, a header without a space, or an empty token gets 401 "Access Denied: No Token Provided" |
| Auth.DecideOnToken | src/middlewares/auth.js:15-27 | with a non-empty token: 400 "Invalid Token" when verification fails, otherwise the request proceeds with the decoded claims |
| Auth.ProceedOnlyVerified | src/middlewares/auth.js:15-24 | the request proceeds exactly when a non-empty token verifies, and then carries that token's claims |
| Auth.Authenticate | src/middlewares/auth.js:3-28 | on every path exactly one thing happens: either a reply is written and neither `req.user` nor `next` is touched, or `req.user` is set to the claims and `next` is called once |
| CartRoutes.Persist | src/routes/cart.js:69-73 | a save succeeds exactly when the cart is schema-valid; on success the cart is written under its owner, on failure the answer is 500 and the store is unchanged; store validity is preserved |
| CartRoutes.Dispatch | src/routes/cart.js:10-119 | every route answers 200, 404 or 500, keeps the store valid, and changes nothing unless it answers 200 |
| CartRoutes.GetEnsuresCart | src/routes/cart.js:13-22 | after GET the user has a cart; a new user gets `[]` stored and returned, and an existing cart is returned unchanged |
| CartRoutes.PostUnknownProduct | src/routes/cart.js:40-43 | an unknown product gets 404 "Product not found" with the store untouched and no cart created |
| CartRoutes.PostCreatesCart | src/routes/cart.js:48-53 | for a user without a cart, POST stores and returns a cart whose items are exactly `[{productId, quantity}]` |
| CartRoutes.PostAddsToTotal | src/routes/cart.js:56-66 | a successful POST raises the product's total in the user's cart by the quantity; other products are unchanged |
| CartRoutes.PostKeepsDistinct | src/routes/cart.js:56-66 | POST keeps every stored cart free of duplicate products |
| CartRoutes.PostBelowMinimumRefused | src/routes/cart.js:62-72 | a POST whose merged or new item would have quantity below 1 (a new cart, an appended item, or a merged one) answers 500 and changes nothing |
| CartRoutes.PutNotFound | src/routes/cart.js:82-96 | with no cart the answer is 404 "Cart not found"; with the product absent it is 404 "Item not found in cart"; nothing is saved in either case |
| CartRoutes.PutReplaces | src/routes/cart.js:86-93 | a successful PUT sets the product's total to the given quantity, whatever it was before; other products are unchanged |
| CartRoutes.PutKeepsDistinct | src/routes/cart.js:86-93 | PUT keeps every stored cart free of duplicate products |
| CartRoutes.PutBelowMinimumRefused | src/routes/cart.js:91-98 | a PUT with quantity below 1 leaves the store unchanged; when the item is found, its refused save answers 500 |
| CartRoutes.DeleteRemoves | src/routes/cart.js:106-115 | on an existing cart, DELETE answers 200 and stores the filtered list, in which no item of that product remains |
| CartRoutes.DeleteTwice | src/routes/cart.js:106-115 | a second DELETE of the same product returns the same answer and leaves the same store |
| CartRoutes.DeleteKeepsDistinct | src/routes/cart.js:110-114 | DELETE keeps every stored cart free of duplicate products |
| CartRoutes.AddUpdateDeleteSession | src/routes/cart.js:35-115 | adding 2, adding 3, setting 1 and deleting the same product gives `[P1×2]`, `[P1×5]`, `[P1×1]`, `[]` |
| CartRoutes.CartStore.Save | src/routes/cart.js:69 | `save()` writes the cart under its owner exactly when the schema accepts it; otherwise the store is unchanged |
| CartRoutes.CartStore.FindCart | src/routes/cart.js:46 | `findOne` finds a cart exactly when the user has one, and returns that user's stored items |
| CartRoutes.CartStore.Get | src/routes/cart.js:10-29 | the response and the new store are `GetOutcome` of the old store; store validity and distinctness are kept |
| CartRoutes.CartStore.Post | src/routes/cart.js:35-74 | the response and the new store are `PostOutcome` of the old store; store validity and distinctness are kept |
| CartRoutes.CartStore.Put | src/routes/cart.js:78-100 | the response and the new store are `PutOutcome` of the old store; store validity and distinctness are kept |
| CartRoutes.CartStore.Delete | src/routes/cart.js:104-119 | the response and the new store are `DeleteOutcome` of the old store; store validity and distinctness are kept |
| CartRoutes.CartStore.Serve | src/routes/cart.js:4-10 | a request the gate refuses gets the gate's status and message and never changes the store; otherwise the route runs as the verified user `claims.id` |

## Left out

- Database I/O. `findOne`, `findById` and `save` are operations on the in-memory `carts` map and `products` set. A failed database call is not modelled, so the only 500 is a schema-refused save. The error message Mongoose would return in that case is not modelled either (`SaveError`).
- The model validates the whole cart on every save. For an existing cart this makes no difference, because every stored cart is already valid (`CartStore.Valid`).
- `ObjectId` casting. A product id that is not a well-formed ObjectId would make `findById` throw (a 500). Ids here are plain strings compared for equality, and a `required` id is a non-empty string. This assumes every id arrives in its canonical lower-case spelling. `findById` also accepts an upper-case spelling, but `findIndex` compares against the lower-case `toString()`. A POST with the upper-case spelling of a listed product would therefore append a second item for the same product. So the `Distinct` invariant holds only for canonical ids.
- JavaScript coercion of `quantity` from the JSON body. A string would make `+=` concatenate, and a missing or fractional value is also not modelled. Quantities are integers.
- The lost-update race between concurrent requests on the same cart. Each handler is modelled as atomic.
- `jwt.verify` and the JWT secret. Signature and expiry checking is the opaque parameter `verify`. Its failure by exception is its `None` result. Claims other than `id` are not modelled.
- Express plumbing. JSON serialisation and the `Request` value are not modelled; the `Request` value stands for the parsed verb, path and body. The server start-up (`server.js`) and the user schema (`src/models/User.js`) are not part of this model, and neither is `Product.js`, which only supplies the product set.
