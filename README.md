# tuka-tuku-store: validation, envelopes and the cart/transaction flow, in Dafny

This project models the shared core of the store's REST handlers:

- the product and category field rules (zod schemas);
- the authorization guard `isNotLoggedIn` and the `nullIfError` adapter;
- the handlers for `/carts`, `/users`, `/categories`, `/products` and `/transactions`.

Each handler maps its parsed input (and, where it touches the datastore, a table) to one
response: a status code and a `{message, method, data, error}` body.

Modules:

- `Wrappers`: `Option` and `Result`. `Err(message)` stands for a thrown JavaScript error.
- `Validation`: values as zod sees them (`Undefined`, `Null`, a string, a number, a `File`, ...), zod's default type messages, and the `safeParse` result shapes.
- `Envelope`: the response body, the status codes, and `Conforms`, the status contract every handler keeps. A failure status has `data: null` and says why. A success status reports no error.
- `ProductRules`, `CategoryRules`: the schemas. Each rule is written twice, once as zod runs it (the `...Issues` functions) and once as a declarative predicate (`...Accepted`). The contracts tie the two together, key by key.
- `Functions`: `IsNotLoggedIn` is checked against an independent per-route policy (`Permits`). `NullIfError` is over `Result`.
- `CategoriesRoute`, `ProductsRoute`: pure handlers that write nothing.
- `CartsRoute`: a `CartStore` class holds the `carts` table (keyed by the unique `user_id`) and the `cart_items` rows. POST upserts the cart, then overwrites the quantity of the first matching item, or appends a new item.
  - An undefined `product_id` drops out of the lookup's filter, so the first item of the cart, whatever its product, gets the quantity. When the cart has no item, the create is refused for want of a product, after the cart was upserted.
  - The rule "at most one item per (cart, product)" is kept, and every other row is kept.
  - Adding a product twice leaves one row with the latest quantity.
- `UsersRoute`:
  - `TotalPages` is integer ceiling division.
  - `UserStore.Put` filters out a zero-size image, validates, then writes only the name and address.
- `TransactionsRoute`: the catch block's compensating batch delete, taken as atomic.

Datastore failures are a `Fault` parameter naming the call that throws. What earlier calls wrote stays written. The schemas whose files are not part of this model (`cartSchema`, `transactionSchema`, `userBaseSchema`) are function parameters returning a `Verdict`. The carts and users handlers each take one assumption about their schema, spelled out by a `DemandsFields` predicate:

- carts: a passing value has the shape of the `CartSchema` type the body is cast to (src/app/api/carts/route.ts:58). `product_id` is a string or absent: line 97 asserts it non-null with `!`, and src/app/api/carts/[item_id]/route.ts:18-20 validates `quantity` alone with the same schema. `quantity` is a number: both cart handlers write it to the datastore as it is (POST at src/app/api/carts/route.ts:93 and 97, the item PUT at src/app/api/carts/[item_id]/route.ts:38).
- users: `name` and `address` are strings. The handler casts both `formData` entries to `string` (src/app/api/users/route.ts:52-53) and writes them as they are (lines 79-82).

Behaviour of the code that a reader might not expect, all of it modelled as written:

- carts POST and transactions POST answer with the default status 200 on success (src/app/api/carts/route.ts:101-106, src/app/api/transactions/route.ts:34-39). The other create handlers answer 201.
- carts POST reports field errors under `reason`, the other modelled handlers under `error` (src/app/api/carts/route.ts:72).
- categories POST and products POST store nothing, and products POST uploads nothing (src/app/api/categories/route.ts:29-33, src/app/api/products/route.ts:42-50).
- None of these handlers calls the authorization guard. Six carry a TODO to protect them: carts GET and POST (src/app/api/carts/route.ts:8, 56), users GET and PUT (src/app/api/users/route.ts:14, 49), categories POST (src/app/api/categories/route.ts:9) and products POST (src/app/api/products/route.ts:13). Categories GET, products GET and transactions POST carry none.
- users PUT answers 500 when the form has no `image` entry, because `formData.get` then gives `null` and the code reads its `size` (src/app/api/users/route.ts:54-57).
- The transactions compensation deletes the rows of id `""`, because `transactionId` keeps its initial value (src/app/api/transactions/route.ts:10, 43-50). When those rows do not exist, the batch fails and its error escapes with no envelope.

## Model

| member | source | states |
|---|---|---|
| Envelope.ServerError | src/app/api/carts/route.ts:107-118 | every handler's catch block: status 500, the given message and method, null data, the thrown message under `error`; it conforms to the status contract |
| ProductRules.NameIssues | src/utils/types/products.ts:14-21 | no message exactly when the name is a string of 10 to 50 characters; the min message below 10, the max message above 50, zod's type message for a non-string |
| ProductRules.DescriptionIssues | src/utils/types/products.ts:22-26 | no message exactly when the description is a string of at least 10 characters; no upper bound |
| ProductRules.RequiredStringIssues | src/utils/types/products.ts:27-30 | every string passes, empty included; anything else gets exactly the schema's own message ("Price is required", "Category is required") |
| ProductRules.ImageIssues | src/utils/types/products.ts:31-41 | an absent image passes; a non-file gets exactly "Input not instance of File"; a file gets exactly the size message (iff size > 2 MiB) followed by the type message (iff the type is neither "" nor an accepted type), the two checks independent |
| ProductRules.ProductIssues | src/utils/types/products.ts:13-46 | the flattened `fieldErrors`: keys only among the five fields, each key holding at least one message; `NoIssuesIffAccepted` ties each key and its messages to the field rules |
| ProductRules.ValidateProduct | src/utils/types/products.ts:13-46 | valid iff every field rule holds, yielding exactly the given fields; otherwise a non-empty error map whose keys are exactly the failing fields, each holding that field's own messages in check order |
| ProductRules.NoIssuesIffAccepted | src/utils/types/products.ts:13-46 | the flattened error map is empty iff the product is accepted, each key is present iff its field's rule fails, and it holds that field's messages |
| ProductRules.UploadLimitIsTwoMebibytes | src/utils/types/products.ts:4-5 | MAX_UPLOAD_SIZE is 2097152; 2097152 bytes pass, 2097153 fail |
| ProductRules.NameBoundaries | src/utils/types/products.ts:14-21 | 9 characters get the min message, 10 and 50 pass, 51 get the max message |
| ProductRules.ImageChecksIndependent | src/utils/types/products.ts:34-41 | a file can fail the size check, the type check, or both; an empty-typed small file passes |
| CategoryRules.NameIssues | src/utils/types/categories.ts:4-6 | no message exactly when the name is a string of at least 3 characters; the min message for a shorter string |
| CategoryRules.ValidateCategory | src/utils/types/categories.ts:3-7 | valid iff the name rule holds, yielding the name; otherwise the error map has only the key `name` |
| CategoryRules.NameBoundaries | src/utils/types/categories.ts:4-6 | "Bo" is refused with the min-length message, "Books" accepted, a missing name refused with "Required" |
| Functions.IsNotLoggedIn | src/utils/functions.ts:27-38 | denied iff the policy (authenticated, or admin when `isAdmin`) does not permit the session; no session is always denied, a session is allowed when admin is not required, a session without user is denied when it is |
| Functions.AdminCheckIsStricter | src/utils/functions.ts:27-38 | passing the admin check implies passing the plain one; `isAdmin` defaults to false |
| Functions.NullIfError | src/utils/functions.ts:17-25 | returns the call's value when it returns, null exactly when it throws |
| Functions.NullIfErrorForgetsTheCause | src/utils/functions.ts:21-24 | any two thrown errors yield the same null |
| CategoriesRoute.Get | src/app/api/categories/route.ts:4-6 | 200 with an empty list |
| CategoriesRoute.Post | src/app/api/categories/route.ts:8-45 | thrown parse error gives 500 with its message; invalid name gives 400 with the name errors under `error`; valid name gives 201 echoing the unparsed body as `[body]`; always conforms |
| CategoriesRoute.PostExamples | src/app/api/categories/route.ts:15-33 | "Books" gives 201 with the body echoed; "Bo" gives 400 with the min-length message under `name` |
| ProductsRoute.Get | src/app/api/products/route.ts:4-10 | 200 with an empty list |
| ProductsRoute.GetIgnoresQuery | src/app/api/products/route.ts:4-10 | the response does not depend on the query parameters |
| ProductsRoute.NormaliseImage | src/app/api/products/route.ts:28 | a null image becomes absent, any other value is kept |
| ProductsRoute.FieldsOf | src/app/api/products/route.ts:18-29 | the validated object is the form with only the image normalised |
| ProductsRoute.Post | src/app/api/products/route.ts:12-62 | thrown form error gives 500; a form failing the schema gives 400 with its flattened errors under `error`; a valid one gives 201 with `[]`; always conforms |
| ProductsRoute.MissingImageIsAbsent | src/app/api/products/route.ts:21-28 | a form without an image entry is created iff its other four fields pass |
| CartsRoute.ProductFilter | src/app/api/carts/route.ts:86-88 | the lookup filters by product exactly when `product_id` is a string, and then by that string |
| CartsRoute.FindFirstItem | src/app/api/carts/route.ts:86-88 | the index of the first item matching the cart and, when given, the product; none iff no item matches |
| CartsRoute.ItemsOf | src/app/api/carts/route.ts:18-30 | the items of the given cart, each as many times as in the table, and no other; empty iff the cart has no item |
| CartsRoute.SetFirstInCart | src/app/api/carts/route.ts:86-99 | with `product_id` undefined: refused iff the cart has no item; otherwise only the cart's first item changes, and only its quantity |
| CartsRoute.SetFirstInCartKeepsSlotsUnique | src/app/api/carts/route.ts:90-94 | that overwrite keeps at most one item per (cart, product) |
| CartsRoute.SetFirstInCartExample | src/app/api/carts/route.ts:86-94 | without a product the cart's first item takes the quantity whatever its product; an empty cart is refused |
| CartsRoute.CartFor | src/app/api/carts/route.ts:78-84 | the cart `upsert` returns: the user's existing cart, else a new one; in a table keyed by user it belongs to the user, and it has the next id iff it is new |
| CartsRoute.Upserted | src/app/api/carts/route.ts:78-84 | the user then has a cart; an existing cart table is left unchanged; otherwise one cart with the next id is added |
| CartsRoute.AddItem | src/app/api/carts/route.ts:86-99 | the items after the find-then-branch: at most one row longer, every row outside the (cart, product) slot unchanged, and the slot's first match carries the quantity sent |
| CartsRoute.AddItemOverwrites | src/app/api/carts/route.ts:90-94 | an existing item keeps its row and gets the new quantity, not the sum, provided every (cart, product) slot held at most one item beforehand |
| CartsRoute.AddItemCreates | src/app/api/carts/route.ts:95-98 | with no existing item, exactly one row with the given cart, product and quantity is appended |
| CartsRoute.AddItemKeepsSlotsUnique | src/app/api/carts/route.ts:86-99 | at most one item per (cart, product) before implies the same after |
| CartsRoute.AddItemLeavesOne | src/app/api/carts/route.ts:86-99 | afterwards the slot holds exactly one item, the first match, with the quantity sent, provided every (cart, product) slot held at most one item beforehand |
| CartsRoute.AddTwiceKeepsLatest | src/app/api/carts/route.ts:86-99 | adding a product twice leaves one row with the second quantity, provided every (cart, product) slot held at most one item beforehand |
| CartsRoute.PostLeavesOtherCartsAlone | src/app/api/carts/route.ts:78-99 | another user's cart and its items are unchanged by the caller's POST, with a string `product_id` or without one |
| CartsRoute.CartStore.UpsertCart | src/app/api/carts/route.ts:78-84 | returns the user's cart, creating it with the next id when absent; the table becomes `Upserted` |
| CartsRoute.CartStore.PutItem | src/app/api/carts/route.ts:86-99 | the items become `AddItem` of the old items; the id counter advances only on create |
| CartsRoute.CartStore.SetFirstItem | src/app/api/carts/route.ts:86-94 | reports whether the cart had an item; the items become `SetFirstInCart` of the old ones, or stay as they were |
| CartsRoute.CartStore.Get | src/app/api/carts/route.ts:6-52 | upserts the caller's cart (the id counter advances only when the cart is new) and returns 200 with it and its items; a failing upsert gives 500 and writes nothing |
| CartsRoute.CartStore.Post | src/app/api/carts/route.ts:54-120 | parse error: 500, nothing written; refused input: 400 with errors under `reason`, nothing written; otherwise upsert then find-or-overwrite, default 200 with null data; without `product_id` the cart's first item is overwritten, or, in an empty cart, the refused create gives 500 after the upsert; a failing call gives 500 keeping earlier writes; the per-slot invariant is preserved |
| UsersRoute.TotalPages | src/app/api/users/route.ts:19-20 | 0 iff the count is 0; otherwise (pages-1)*10 < count <= pages*10 |
| UsersRoute.TotalPagesIsTheCeiling | src/app/api/users/route.ts:20 | any page count meeting those bounds equals `TotalPages` |
| UsersRoute.TotalPagesExamples | src/app/api/users/route.ts:20 | 0 gives 0, 1 and 10 give 1, 11 gives 2 |
| UsersRoute.IndexOfUser | src/app/api/users/route.ts:88-93 | the row `update` writes: one with the id, none iff no row has it |
| UsersRoute.ImageToValidate | src/app/api/users/route.ts:54-59 | a missing entry throws; a zero-size file becomes absent (so none is validated); anything else is kept |
| UsersRoute.ApplyUpdate | src/app/api/users/route.ts:79-93 | sets name and address, keeps id and role, keeps the image when `data` carries none |
| UsersRoute.PutKeepsImage | src/app/api/users/route.ts:79-93 | PUT's update never changes id, role or image |
| UsersRoute.UserStore.Get | src/app/api/users/route.ts:12-45 | 200 with every user and meta (count, `TotalPages(count)`); either query throwing gives 500 |
| UsersRoute.UserStore.Put | src/app/api/users/route.ts:47-113 | parse error or missing image entry: 500, nothing written; refused: 400 with errors under `error`, nothing written; missing row or failing update: the full 500 envelope with the thrown text, nothing written; otherwise only name and address of the caller's row change and it is returned with 200 |
| TransactionsRoute.DeletePair | src/app/api/transactions/route.ts:43-50 | the batch succeeds iff no datastore fault and both the order and the transaction with the id exist; then exactly those two rows are removed, otherwise its error is returned |
| TransactionsRoute.DeletePairKeepsOtherIds | src/app/api/transactions/route.ts:43-48 | rows of every other id are untouched |
| TransactionsRoute.CompensationNeedsThePair | src/app/api/transactions/route.ts:43-50 | without both rows of id "", the compensation fails |
| TransactionsRoute.TransactionStore.Post | src/app/api/transactions/route.ts:9-62 | refused body: 400, no compensation; accepted: default 200 with null data, nothing written; thrown parse error: batch delete of id "", then 500, or the batch error escapes with nothing deleted |

## Left out

- `fileUploader` (the media-host upload stream) is external I/O and is not modelled. No core handler calls it yet.
- Datastore internals are not modelled:
  - the query engine, `include`/`select` shaping (carts GET returns the cart and its items, without the product name, price and image selection) and `cacheStrategy`;
  - the exact error texts of failed writes. `RECORD_NOT_FOUND` and `RECORD_TO_DELETE_MISSING` stand in for them.
- The `$transaction` batch is taken as atomic.
- The users GET takes `findMany` and `count` from the same table state. A write between the two queries is not modelled.
- Request parsing (`request.json()`, `request.formData()`, destructuring the body) becomes a `Result` input. Serialising with `NextResponse.json` and `console` logging make no difference to the model and are not modelled.
- zod internals beyond per-field messages in check order are not modelled:
  - form-level errors of `flatten()`;
  - the exact wording of type names other than those listed in `Validation.TypeName`.
- JavaScript measures string length in UTF-16 code units. The model counts Unicode characters, so the two differ for characters outside the Basic Multilingual Plane.
- Numbers are integers. NaN, fractions and the float behind `Math.ceil` are not modelled. `TotalPages` is exact integer ceiling division.
- `cartSchema`, `transactionSchema` and `userBaseSchema` live in files that are not part of this model, so they are parameters.
- CartsRoute.CartStore.Post: assumes, through `DemandsFields`, that a passing cart-schema verdict has `product_id` a string or absent and `quantity` a number, the shape of `CartSchema`. The datastore's answer to a filter or a quantity of another type is not modelled. The text of the datastore's refusal of a row without a product is the parameter `missingProduct`.
- UsersRoute.UserStore.Put: assumes, through `DemandsFields`, that a passing user-schema verdict has `name` and `address` strings, the types the handler casts them to.
- The `[item_id]`, `[category_id]`, `[transaction_id]`, `[user_id]` and `[product_id]` handlers, the login and profile pages and the products fetch service are not part of this model. They are callers and pages outside the core.
- Concurrency between requests is not modelled: each handler runs alone on the tables it is given.
