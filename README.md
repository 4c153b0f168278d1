# Storefront cart engine — a Dafny model

This project models the decision logic of a small storefront (an Express/Mongoose
backend with a Next.js client):

- the **per-user cart engine** (`backend/routes/cart.js`): a user's cart is an
  insertion-ordered sequence of `(itemId, quantity)` lines stored on the user
  record; `get` returns it, `add` checks the catalog and then merges into an
  existing line or appends one (quantity defaults to 1), `update` answers
  "Item not found in cart" for a missing line and otherwise removes the line
  (quantity ≤ 0) or sets an absolute quantity, and `remove` filters the item out,
  silently when it is absent;
- the **catalog item record** (`backend/models/Item.js`): required fields, the
  trimmed name, price ≥ 0, the six-value category enum and the defaults;
- the **cart page** (`frontend/app/cart/page.jsx`): which request a quantity
  change sends, the −/+/Remove buttons, and the displayed item count;
- the **product filters** (`frontend/app/products/page.jsx`): the successive
  filter passes of `applyFilters`, `handleFilterChange` and `clearFilters`;
- the **sign-up form** (`frontend/app/signup/page.jsx`): the two local checks
  and the body of the registration request.

Files: `wrappers.dfy` (Option, Result), `cart_lines.dfy` (the value semantics of
a cart's lines and the lemmas about add, update and remove), `cart_routes.dfy`
(class `UserCarts`, one method per route, and the `find`/`filter` loops),
`item.dfy`, `cart_page.dfy`, `products_page.dfy`, `signup_page.dfy`.

The route handlers are imperative in the source (a line's quantity is changed in
place, or `user.cart` is reassigned to a filtered copy), so they are methods of a
class whose field `carts` maps each user id to that user's `user.cart`. Each method
states its whole new state in terms of the value-level functions of `CartLines`,
and the invariants "one line per item" (`Valid`) and "only positive quantities"
(`Positive`) are stated as preserved. The user id is a parameter: it is what the
authentication middleware resolved. The catalog that `add` consults is a
parameter `catalog: map<ItemId, Item>`.

`add` does not check that the quantity is positive, so `Add` preserves positivity
only when the amount is positive; `CartLines.MergeNonPositiveBreaksPositivity`
shows that a new item added with an amount ≤ 0 is stored with that quantity.
The handlers read, change and save the user record without any locking; the model
runs each request alone and states no property about concurrent requests.

`get` returns the stored lines: the `populate` join with the catalog is not
modelled (see Left out). A missing user record makes `user.cart` throw, which the
handlers answer with their generic 500 response; the model returns `ServerError`.

## Model

| member | source | states |
|---|---|---|
| `CartLines.Status` | backend/routes/cart.js:14-94 | the two not-found conditions answer 404, only a server failure answers 500 |
| `CartLines.MessagesDistinct` | backend/routes/cart.js:58-60 | "Item not found", "Item not found in cart" and "Server error" are pairwise distinct, so the catalog and cart conditions are never conflated |
| `CartLines.Message` | backend/routes/cart.js:14-94 | the two 404 messages begin "Item not found" and the 500 message does not |
| `CartLines.IndexOf` | backend/routes/cart.js:29-31 | the line `find` locates: -1 exactly when no line has the id, otherwise the first line with that id |
| `CartLines.IndexOfUnique` | backend/routes/cart.js:54-56 | on a cart with one line per item, `find` locates each line by its own id |
| `CartLines.Merge` | backend/routes/cart.js:29-37 | after an add the cart has a line for the item, is one line longer only when the item was new, and keeps every line of other items in place |
| `CartLines.MergeExisting` | backend/routes/cart.js:33-34 | adding an item already in the cart raises that line by the amount; the length and every other line are unchanged |
| `CartLines.MergeNew` | backend/routes/cart.js:35-37 | adding an item not in the cart appends exactly one line `(itemId, quantity)` after all earlier lines |
| `CartLines.MergeIndex` | backend/routes/cart.js:29-37 | after an add the item's line is where it was (or last), and its quantity grew by the amount |
| `CartLines.MergeTwice` | backend/routes/cart.js:33-34 | adding q1 and then q2 is the same cart as adding q1 + q2; the quantity grows by q1 + q2 |
| `CartLines.MergeKeepsUnique` | backend/routes/cart.js:29-37 | add keeps "at most one line per item id" |
| `CartLines.MergeKeepsPositive` | backend/routes/cart.js:33-37 | with a positive amount, add keeps "every quantity > 0" |
| `CartLines.MergeNonPositiveBreaksPositivity` | backend/routes/cart.js:21 | the amount is never checked: adding a new item with an amount ≤ 0 stores a non-positive line |
| `CartLines.Without` | backend/routes/cart.js:85-87 | the filtered cart is no longer, has no line for the id, and holds exactly the lines of the original whose id differs |
| `CartLines.WithoutConcat` | backend/routes/cart.js:85-87 | filtering distributes over concatenation, so the kept lines keep their relative order |
| `CartLines.WithoutAbsent` | backend/routes/cart.js:85-87 | removing an item with no line leaves the cart exactly as it was |
| `CartLines.WithoutIdempotent` | backend/routes/cart.js:85-87 | removing twice equals removing once |
| `CartLines.WithoutAt` | backend/routes/cart.js:63-65 | on a cart with one line per item, removing an item deletes exactly its position and keeps everything before and after |
| `CartLines.WithoutKeepsUnique` | backend/routes/cart.js:85-87 | remove keeps "at most one line per item id" |
| `CartLines.WithoutKeepsPositive` | backend/routes/cart.js:85-87 | remove keeps "every quantity > 0" |
| `CartLines.Update` | backend/routes/cart.js:53-68 | update fails exactly when the cart has no line for the id, and then with the not-in-cart error |
| `CartLines.UpdateNonPositive` | backend/routes/cart.js:62-65 | a quantity ≤ 0 on a present item removes its line, keeping the other lines in order |
| `CartLines.UpdatePositive` | backend/routes/cart.js:66-68 | a quantity > 0 sets that line's quantity to exactly the value, whatever it was, and touches no other line |
| `CartLines.UpdateKeepsInvariants` | backend/routes/cart.js:62-68 | update keeps "one line per item" and, whatever the quantity, "every quantity > 0" |
| `CartLines.AddUpdateAddScenario` | backend/routes/cart.js:19-77 | add 2, update to 5, add 1 on a cart with one line per item leaves exactly one line for the item, of quantity 6 |
| `CartRoutes.AddQuantity` | backend/routes/cart.js:21 | a missing quantity in the add request means 1; a given one is used as is |
| `CartRoutes.FindLine` | backend/routes/cart.js:29-31 | the search loop returns the index `IndexOf` specifies |
| `CartRoutes.FilterOut` | backend/routes/cart.js:85-87 | the filter loop returns exactly `Without` of the lines |
| `CartRoutes.UserCarts.Get` | backend/routes/cart.js:9-16 | the user's stored lines in order, or the 500 answer when the user record is missing |
| `CartRoutes.UserCarts.Add` | backend/routes/cart.js:19-46 | unknown item: "Item not found" and no change; otherwise only this user's cart changes, to the merged lines, which are returned; preserves one-line-per-item, and positivity when the amount is positive |
| `CartRoutes.UserCarts.Update` | backend/routes/cart.js:49-77 | no line: "Item not found in cart" and no change; otherwise only this user's cart changes, as `CartLines.Update` says; preserves both invariants |
| `CartRoutes.UserCarts.Remove` | backend/routes/cart.js:80-96 | only this user's cart changes, to the lines without the item (absent item: unchanged); preserves both invariants |
| `CartRoutes.AddUpdateAddSession` | backend/routes/cart.js:19-77 | through the route methods: add 2, update 5, add 1 ends with the item's single line at quantity 6 after the user's earlier lines, and another user's cart, whatever it held, is untouched |
| `ItemModel.TrimStart` | backend/models/Item.js:7 | the result is a suffix starting with a non-space, and every dropped character is white space |
| `ItemModel.TrimEnd` | backend/models/Item.js:7 | the result is a prefix ending with a non-space, and every dropped character is white space |
| `ItemModel.IsWhitespace` | backend/models/Item.js:7 | space, tab, line feed and carriage return are stripped by trimming, and no printable ASCII character is |
| `ItemModel.Trim` | backend/models/Item.js:4-8 | the stored name neither starts nor ends with white space, and an already trimmed name is stored unchanged |
| `ItemModel.TrimIdempotent` | backend/models/Item.js:4-8 | trimming an already trimmed name changes nothing |
| `ItemModel.Errors` | backend/models/Item.js:3-22 | no field fails exactly when all four required fields are supplied and the item they make (name trimmed) is valid |
| `ItemModel.ValidItem` | backend/models/Item.js:3-22 | a valid item's name is already trimmed |
| `ItemModel.BlankNameRejected` | backend/models/Item.js:4-8 | a missing name, or one that is only white space, is rejected on the name field |
| `ItemModel.MissingDescriptionRejected` | backend/models/Item.js:9-12 | a missing or empty description is rejected on the description field |
| `ItemModel.Create` | backend/models/Item.js:3-36 | a document is stored exactly when no field fails; a stored item is valid, has the trimmed name, the description, price and category as supplied, and gets the placeholder image, `inStock` true and stock 10 when those are missing |
| `ItemModel.CreateRoundTrip` | backend/models/Item.js:3-36 | every valid item, supplied field by field, is stored exactly as it is |
| `ItemModel.NegativePriceRejected` | backend/models/Item.js:13-17 | a negative price is rejected on the price field |
| `ItemModel.UnknownCategoryRejected` | backend/models/Item.js:18-22 | a category outside Electronics, Clothing, Books, Home, Sports, Beauty is rejected |
| `CartPage.QuantityRequest` | frontend/app/cart/page.jsx:49-53 | a requested quantity ≤ 0 becomes a remove request, anything else an update carrying exactly that (positive) quantity, for the same item |
| `CartPage.DecrementRequest` | frontend/app/cart/page.jsx:206 | the − button removes a line of quantity 1 and otherwise asks for one less |
| `CartPage.IncrementRequest` | frontend/app/cart/page.jsx:215 | the + button asks for one more |
| `CartPage.RemoveButtonRequest` | frontend/app/cart/page.jsx:227 | the Remove button issues a remove for the line's item, whatever its quantity |
| `CartPage.Serve` | backend/routes/cart.js:53-87 | a remove request always succeeds and leaves no line for the item; an update request fails exactly when the cart has no line for the item |
| `CartPage.QuantityRequestAgreesWithUpdate` | frontend/app/cart/page.jsx:49-53 | for an item in the cart, the page's choice of route has the same effect as the update route given the same quantity |
| `CartPage.ServeKeepsPositive` | frontend/app/cart/page.jsx:49-53 | no request the page sends can leave a non-positive line in a positive cart |
| `CartPage.TotalItems` | frontend/app/cart/page.jsx:85-87 | the count is 0 for an empty cart and at least the number of lines when quantities are positive |
| `CartPage.TotalItemsConcat` | frontend/app/cart/page.jsx:85-87 | the count of two carts joined is the sum of their counts |
| `CartPage.TotalItemsReplace` | frontend/app/cart/page.jsx:85-87 | replacing one line changes the count by the difference of the quantities |
| `CartPage.TotalItemsWithout` | frontend/app/cart/page.jsx:85-87 | removing a line of a cart with one line per item lowers the count by that line's quantity |
| `CartPage.DecrementCountsDown` | frontend/app/cart/page.jsx:206 | on a well-formed cart the − button lowers the item count by exactly one, and at quantity 1 the line disappears |
| `CartPage.IncrementCountsUp` | frontend/app/cart/page.jsx:215 | the + button raises the item count by exactly one |
| `ProductsPage.LowerChar` | frontend/app/products/page.jsx:66-67 | upper-case ASCII letters map to their lower-case letter, every other character is kept |
| `ProductsPage.ToLower` | frontend/app/products/page.jsx:66-67 | lower-casing keeps the length and lower-cases character by character |
| `ProductsPage.Includes` | frontend/app/products/page.jsx:66-67 | the empty string is included in every string, and nothing longer than the string is |
| `ProductsPage.Holds` | frontend/app/products/page.jsx:51-69 | the test of each filter pass: exact category, price at least the minimum, price at most the maximum, or the lower-cased search occurring in the lower-cased name or description at some index |
| `ProductsPage.IncludesIffOccurs` | frontend/app/products/page.jsx:66-67 | `Includes(s, t)` holds exactly when `t` occurs in `s` as a contiguous block at some index |
| `ProductsPage.SelectWhere` | frontend/app/products/page.jsx:49-69 | an item is kept exactly when it is in the list and passes every criterion |
| `ProductsPage.Keep` | frontend/app/products/page.jsx:52 | one `filter` pass keeps exactly the listed items that pass its test, and never lengthens the list |
| `ProductsPage.Active` | frontend/app/products/page.jsx:51-63 | a pass runs for each non-empty filter value, with that value, and for no other |
| `ProductsPage.SelectNothing` | frontend/app/products/page.jsx:49 | with no criterion the list is the full item list |
| `ProductsPage.KeepConcat` | frontend/app/products/page.jsx:52 | one filter pass distributes over concatenation |
| `ProductsPage.KeepAfterSelect` | frontend/app/products/page.jsx:51-69 | one more pass over an already filtered list equals filtering by one more criterion |
| `ProductsPage.ApplyFilters` | frontend/app/products/page.jsx:48-72 | the successive passes yield exactly the list the active filters select |
| `ProductsPage.VisibleIffMatches` | frontend/app/products/page.jsx:48-71 | an item is shown exactly when it is in the list and matches the category exactly, lies within the set price bounds and its lower-cased name or description contains the lower-cased search |
| `ProductsPage.SelectWhereSubsequence` | frontend/app/products/page.jsx:49-69 | the filtered list is a subsequence of the items |
| `ProductsPage.VisibleIsSubsequence` | frontend/app/products/page.jsx:48-71 | the shown list keeps the items' relative order |
| `ProductsPage.ClearFilters` | frontend/app/products/page.jsx:81-88 | the cleared record has no active filter |
| `ProductsPage.ClearedShowsAll` | frontend/app/products/page.jsx:81-88 | after clearing, every item is shown, in order |
| `ProductsPage.HandleFilterChange` | frontend/app/products/page.jsx:74-79 | the named field takes the new value and the other three are unchanged |
| `ProductsPage.CategoryChangeNarrows` | frontend/app/products/page.jsx:51-53 | after choosing a category, every shown item has exactly that category |
| `SignupPage.Validate` | frontend/app/signup/page.jsx:36-63 | a mismatch is reported first, then a password under 6 characters; a form passing both yields a body of exactly name, email and password |
| `SignupPage.MismatchReportedFirst` | frontend/app/signup/page.jsx:36-44 | when both checks fail, the error is "Passwords do not match" |
| `SignupPage.SentBodyIsConfirmed` | frontend/app/signup/page.jsx:55-63 | a sent body carries the confirmed password of at least 6 characters and no confirmation field |
| `SignupPage.ResponseError` | frontend/app/signup/page.jsx:65-77 | the error stays empty only for a response with data; an empty response gives "Registration failed. Please try again."; a failure gives the server's message when it is non-empty, else "Registration failed" |
| `SignupPage.SignupState.HandleSubmit` | frontend/app/signup/page.jsx:32-81 | the error is cleared first; a failed check sets its error, sends nothing and leaves loading as it was; otherwise the body is sent, the error reflects the response and loading ends false |
| `SignupPage.SignupState.constructor` | frontend/app/signup/page.jsx:14-15 | the form starts with no error and not loading |

## Left out

- Authentication: the middleware and the user and auth modules are not part of this model; the user id is a parameter of every route method.
- Concurrency: the handlers read, change and save the user record without locking; the model runs each request alone and claims no no-lost-update or per-user serialisation property.
- Mongoose `populate`: the read-time join with the catalog is a database-library feature; `Get`, `Add`, `Update` and `Remove` return the stored lines, and orphaned lines are not claimed to be omitted.
- Persistence failures, malformed ids (Mongoose cast errors) and other thrown exceptions: only a missing user record is modelled as the 500 answer.
- JavaScript dynamic typing in request bodies: quantities are integers; a string quantity (which `+=` would concatenate), a fractional one, or an update without a quantity are not modelled.
- `backend/models/Cart.js`, `backend/routes/items.js` and `backend/server.js`: an unused schema, a database query builder and server wiring.
- Item timestamps (`timestamps: true`) come from the clock and are not modelled; `stock` is an integer.
- `CartRoutes.UserCarts.Add`: item ids are compared as plain strings, both for the catalog lookup and for finding the cart line. In the source, `Item.findById` casts the id to an ObjectId and also accepts an upper-case hex spelling, while the line match compares the stored id's lower-case string with the raw request id. Adding an existing item under a differently cased id therefore stores a second line for the same item, so the source does not keep one line per item in that case. ObjectId parsing belongs to the database library and is not modelled.
- `ItemModel.Errors`: Mongoose's own type casting (a price given as a string, `null` versus missing values) is not modelled; a field is either supplied or missing.
- `ItemModel.IsWhitespace`: the white-space set is the one listed in the definition; no other Unicode classification is attempted.
- `ProductsPage.LowerChar`: only the 26 ASCII capitals are mapped; JavaScript's Unicode lower-case mapping of other letters (such as 'É' or 'Σ'), including letters whose lower case is longer than one character, is not modelled.
- `ProductsPage.ToLower`: applies `LowerChar` character by character, so it inherits the ASCII-only mapping and keeps the length unchanged, which JavaScript's full Unicode case mapping does not always do.
- `ProductsPage.ApplyFilters`: the price bounds are already-parsed reals (an empty input is an absent bound); `Number.parseFloat`, and the empty list a bound that parses to NaN would produce, are not modelled.
- `SignupPage.Validate`: the length is counted in characters, while JavaScript counts UTF-16 code units, which differ for characters outside the Basic Multilingual Plane.
- Money totals (`getTotalPrice`, the cart context's total) use floating point and `toFixed`, and are not modelled.
- Page rendering, local storage, redirects, notifications, the HTTP calls themselves, the login page, the cart context and the navigation bar are I/O or duplicate the item count, and are not modelled; the registration response is a parameter of `HandleSubmit`.
