# Bookstore backend: carts and ownership-scoped books

This project models the stateful core of a small bookstore HTTP backend. Each handler becomes one atomic operation on an in-memory store.

- **Carts.** Each user has at most one *pending* cart. The lookup "this user's pending cart" finds it. The first cart read or cart add creates it.
  - Adding a book merges by book: the line item for that book has its quantity increased, or a new line is appended.
  - The cart total is `price × quantity` summed over the lines, using the books' current prices.
  - Checkout moves the pending cart to `done`. Checked-out carts are kept.
- **Cart document schema.** A cart has a required owner. Every line item has a required book reference and a required quantity. The status is the enum `pending | done` with default `pending`. A save refuses a document that breaks the schema.
- **Books.** A book document stores the caller as its owner (`userId`) when it is created. Update and delete happen only when the book exists *and* names the caller as its owner. Otherwise they report "not found" and change nothing. Two reads list books: the caller's own books and all books.

Modules, one per component:

- `common.dfy` (`Common`): identifiers, `Option`, `Result`, `Outcome` and the error kinds (validation 400, not found 404, invalid state 400, unexpected 500).
- `cart_schema.dfy` (`CartSchema`): the cart schema (`Cart`, `Item`, `Status`). `RawCart` is a document before it is saved, and any required path of it may be missing. `Validate` is the schema check that a save performs. `New` builds a cart and fills in the default status.
- `books.dfy` (`Books`): book documents, modelled as maps from field name to value. The owner stamp (`Stamp`), the update patch (`Patch`), the ownership gate (`MayModify`) and the two listings. The class `BookTable` holds the book collection, a map from id to document, and has the create, update and delete handlers.
- `carts.dfy` (`Carts`): the pending-cart lookup, the item merge, the total and the reference sum. The class `CartStore` holds the cart collection, a sequence whose index is the cart id. Its invariant says that no user has two pending carts and that no cart lists a book on two lines. It has the three cart handlers.
- `scenario.dfy` (`Scenario`): client methods. They run request sequences through the handlers' contracts: buy one book and check out, add the same book twice, send an add without a quantity, try to change another user's book.

Inputs from outside the core become parameters:
- The caller's user id, which the token check would supply, is a parameter of each handler.
- The book collection is passed to the cart read, standing for the populate step that joins each line with its book.

Behaviour the model follows from the code:
- **Save validation in add-item.** The add builds the document it will save and runs it through `Validate`.
  - A request without `bookId` matches no line. It appends a line with no book reference, and the save refuses it (400).
  - A request without `quantity` appends a line with no quantity, or makes an existing line's quantity `old + undefined`, which is NaN. The Number path refuses NaN. Either way the save refuses the document (400) and nothing is stored.
- **Update can change the owner.** An update applies every top-level field of the body. That includes `userId`, so the owner can give a book to another user (`Books.PatchOwner`). The gate compares only the *current* owner with the caller.
- **A deleted book breaks the total.** Populating a line whose book was deleted gives `null`. Reading `.price` from it throws, and the cart read answers 500 (`Total` returns `Err(Unexpected)`). In the model, a book whose stored price is not a number (`Num`) makes the sum NaN; see `Books.PriceOf` under "## Left out" for how this differs from JavaScript's conversions.
- **First match.** The pending-cart lookup returns the first matching cart in store order, and the item lookup returns the first matching line. The store invariant makes both matches unique.

## Model

| member | source | states |
|---|---|---|
| `CartSchema.ParseStatus` | models/cart.js:21 | An absent status takes the default `pending`. A given status is admitted exactly when it is `pending` or `done`, and it is stored as that enum value. |
| `CartSchema.ValidateItems` | models/cart.js:11-20 | The item list is valid exactly when every item has both a book reference and a quantity. The saved list then keeps every item, in order, with its values. |
| `CartSchema.Validate` | models/cart.js:4-24 | A save accepts a document exactly when it has an owner, every item is complete and the status is absent or an enum value. Otherwise it answers a validation error. The stored cart keeps the owner and the items, and takes the default status when none was given. |
| `CartSchema.ValidateToRaw` | models/cart.js:4-24 | Every stored cart passes the schema again unchanged. |
| `CartSchema.New` | models/cart.js:21 | A cart built with only an owner and an empty item list belongs to that owner, has no items and is `pending`. |
| `Books.PriceOf` | index.js:166 | A book has a price exactly when its `price` field is numeric, and the price is that number. |
| `Books.Stamp` | index.js:81 | The created document is owned by the caller and by no one else, overriding any `userId` in the body. Every other body field is kept as given. |
| `Books.Patch` | index.js:103-107 | An update replaces or adds each field the body names and keeps every field it does not name. |
| `Books.PatchOwner` | index.js:103-107 | After an update the owner is the body's `userId` when the body names one, and the previous owner otherwise. |
| `Books.FindById` | index.js:89-99 | Reading one book succeeds exactly when the id is stored, and returns that book. Otherwise it answers not found. No ownership check is made. |
| `Books.MyBooks` | index.js:136-143 | The caller's listing holds exactly the stored books that name the caller as owner, with their stored values. |
| `Books.AllBooks` | index.js:145-152 | The full listing holds every stored book, unfiltered. |
| `Books.MyBooksPartition` | index.js:138 | Each user's listing is part of the full listing. Two different users' listings share no book. |
| `Books.MyBooksAfterCreate` | index.js:79-87 | After a create, the new book appears in its creator's listing, and no other user's listing changes. |
| `Books.BookTable.Create` | index.js:79-87 | The book is stored under a fresh id as the stamped body owned by the caller, and nothing else changes. |
| `Books.BookTable.Update` | index.js:101-117 | When the book exists and the caller owns it, the patched book is stored and returned. Otherwise the result is not found and the table is unchanged. |
| `Books.BookTable.Delete` | index.js:119-134 | When the book exists and the caller owns it, exactly that book is removed. Otherwise the result is not found and the table is unchanged. |
| `Carts.FindPending` | index.js:157-160 | The lookup returns the first cart that belongs to the user and is pending. It returns none exactly when the user has no pending cart. |
| `Carts.FindPendingUnique` | index.js:157-160 | While no user has two pending carts, the lookup finds the user's pending cart wherever it stands. |
| `Carts.FindIndex` | index.js:186-188 | The item lookup returns the first line for the book, or -1 exactly when no line has that book. |
| `Carts.AddQuantity` | index.js:190 | The accumulated quantity is the sum when both operands exist. It is unstorable (NaN) when either is missing. |
| `Carts.AddToExisting` | index.js:189-190 | When the book has a line, the number of lines is unchanged, that line's quantity is old plus added, and every other line is unchanged. |
| `Carts.AddToMissing` | index.js:191-192 | When the book has no line, exactly one line `{bookId, quantity}` is appended after the unchanged earlier lines. |
| `Carts.AddToItems` | index.js:186-193 | The merge-or-append never shortens the list and grows it by at most one line. When it grows, the result is the old list followed by the one new line `{bookId, quantity}`. `Carts.AddToExisting` and `Carts.AddToMissing` state each branch in full. |
| `Carts.AddKeepsUnique` | index.js:186-193 | If the books of a cart's lines are distinct before an add, they are distinct after it. |
| `Carts.AddTwice` | index.js:186-193 | Adding a book twice gives the same lines as adding the summed quantity once. |
| `Carts.SaveAfterAdd` | index.js:186-194 | The saved document passes the schema exactly when the request carries both the book and the quantity. It then stores the cart with the merged or appended lines. Otherwise the save answers a validation error. |
| `Carts.LineAmount` | index.js:166 | One line's term faults (a 500) exactly when the line's book is not stored, because the populated book is null. Otherwise it is price × quantity when the book has a numeric price, and NaN when it does not. |
| `Carts.Total` | index.js:165-168 | The total faults exactly when some line's book is not stored, and the fault is a 500. It is a number exactly when every line's book has a numeric price. |
| `Carts.TotalIsSum` | index.js:165-168 | When every line's book has a price, the total equals the reference sum of price × quantity. An empty cart totals 0. |
| `Carts.TotalAfterAdd` | index.js:186-193 | Adding a priced book raises the total by its price × the added quantity, whether it merges into a line or appends one. |
| `Carts.PendingOrNew` | index.js:178-184 | When the user has a pending cart, the add works on exactly that stored cart. Otherwise it works on a new cart owned by the user, with no items and status `pending`. |
| `Carts.SaveWorking` | index.js:194 | The save replaces the user's pending cart in place, or appends the cart when the user has none. It puts the saved cart at that position and leaves every cart that is not the user's pending cart where it was. `Carts.SaveWorkingKeepsConsistent` states the invariant it keeps. |
| `Carts.SaveWorkingKeepsConsistent` | index.js:194 | Saving the user's working cart keeps the store invariant and makes that cart the user's pending one. No other user's pending cart changes. |
| `Carts.CheckoutKeepsConsistent` | index.js:207-211 | Marking the pending cart done keeps the store invariant and leaves the user with no pending cart. No other user's pending cart changes. |
| `Carts.CartStore.GetCart` | index.js:155-173 | With no pending cart, it stores a new empty pending cart for the caller and answers it with total 0. With one, it answers that cart and its live total, or the total's fault, and the store is unchanged. Afterwards the caller has a pending cart, and it is the one answered. |
| `Carts.CartStore.AddItem` | index.js:175-199 | With both book and quantity, it stores the user's pending cart, or a new one, with the book merged or appended, and returns it. A new cart then holds exactly the one line. Without either field, it answers a validation error and changes nothing. |
| `Carts.CartStore.Checkout` | index.js:201-216 | With no pending cart, it answers invalid state and the store is unchanged. Otherwise exactly that cart becomes done and no cart is added. Either way the user has no pending cart afterwards. |
| `Scenario.BuyOneBook` | index.js:155-216 | One add of two copies of a book priced 10 gives a read with one line of quantity 2 and a total of 20. Checkout passes. The next read answers a new, empty pending cart with total 0 under a different id. |
| `Scenario.AddSameBookTwice` | index.js:186-193 | Two adds of one book leave a single line with the summed quantity. |
| `Scenario.AddWithoutQuantity` | index.js:177-198 | An add without a quantity is refused with a validation error and stores no cart. |
| `Scenario.ForeignBookIsLocked` | index.js:101-138 | Another user's update and delete of a book both answer not found. Only the owner lists the book as their own. |

## Left out

- HTTP plumbing: routing, body parsing, CORS, the JSON shape of responses and the listening port. Only the outcome of each handler, success or error kind, is modelled.
- Registration, login and the token check, with their password hashing and token signing: foreign cryptographic calls. The caller's user id is a parameter of every authenticated handler. The user collection is not modelled.
- Mongoose and MongoDB mechanics. The connection, query options, timestamps and id generation are not modelled. Book ids come from a counter and a cart's id is its position. Ids are compared as plain values rather than through `toString`.
- The populated book data inside the cart read's response. The model answers the cart with book ids only, plus the total computed from the book collection.
- The book schema. models/Book.js is not part of this model, so create and update never fail validation, and field casting and dropping of unknown fields are not modelled. A client-supplied `_id` in a create body is not modelled either.
- Database failures. The only 500 modelled is the total's fault on a deleted book. The catch-all 500 answers of the other handlers are not modelled.
- Concurrency. Each handler is atomic. The duplicate pending carts and lost quantity updates that concurrent requests can cause are outside the model. That is why the at-most-one-pending invariant holds here.
- Number semantics. Prices and quantities are integers, not floating-point numbers. In the model, NaN arises from a missing quantity and from a stored price that is not a `Num`. Non-number request values, such as a quantity sent as a string that JavaScript would concatenate, are not modelled.
- Order of the book listings. `Books.MyBooks` and `Books.AllBooks` return the books keyed by id, not in the store's natural order.
- Update bodies with update operators. Only plain-field bodies are modelled. A body whose keys start with `$` (`$set`, `$unset`, `$inc`, …) is applied as update operators, and it can change or remove fields, the owner included, without naming them at the top level. `Books.Patch` and `Books.PatchOwner` do not cover such bodies.
- Books.PriceOf: a stored price that is not a `Num` gives no price, so `Carts.LineAmount` makes the line NaN. JavaScript's `*` converts its operands instead: a numeric string such as `"10"` counts as 10, and `null` counts as 0. Because models/Book.js is not part of this model, the type a stored price has is not known here.
