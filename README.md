# Storefront order, cart, URL and translation logic in Dafny

This project models the parts of the factory-direct storefront that have
logic to them:

- **Order storage** (`Storage`, from `server/storage.ts`).
  - `createOrder` looks up the product of every requested line.
  - It fails with `Product <id> not found` at the first line whose product
    has no row, and writes nothing in that case.
  - Otherwise it adds up `price × quantity`, snapshots each price, and
    inserts one `pending` order row and then one `order_items` row per line.
  - `getOrders` lists a user's orders, newest first, each with its items
    inner-joined to their products.
  - The database is the class `DatabaseStorage`. Its fields are the
    products table, the orders and order-items tables, and the two serial
    counters.
- **Shopping cart** (`Cart`, from `client/src/hooks/use-cart.tsx`).
  - The class `CartProvider` holds the cart lines.
  - `addItem` merges into the line of the same product or appends a line.
  - `removeItem` filters out every line of the product.
  - `updateQuantity` removes the line when the quantity is zero or less,
    and otherwise overwrites it.
  - `clearCart` empties the cart.
  - `total`, `savings` and `itemCount` are left folds over the lines.
- **Shared API helpers** (`Routes`, from `shared/routes.ts`).
  - `buildUrl` substitutes parameters into a path pattern. It follows
    JavaScript's `String.prototype.replace` with a string pattern: only
    the first occurrence is replaced, and `$$`, `$&`, `` $` `` and `$'` in
    the replacement are expanded.
  - The `orders.create.input` schema is a parser over a small JSON datatype.
    A separate declarative predicate states what the schema accepts.
- **Translations** (`I18n`, from `client/src/lib/i18n.tsx`).
  - The English and Arabic tables.
  - The lookup `t`, which falls back to the key.
  - The page direction chosen from the language.

Shared pieces:

- `Schema` holds the row records of `shared/schema.ts`.
- `Strings` holds the decimal rendering of integers used in messages and
  URLs, with its parse-back round trip.
- `Results` holds `Option` and `Result`.

Money is integer cents. The `decimal(10,2)` columns hold exact cents, and the
model keeps them exact (see Left out for the floating-point arithmetic the
code does on them). An order's `createdAt` is the database clock, passed to
`CreateOrder` as the parameter `now`.

What `createOrder` does not do:

- It has no minimum order quantity. The 30-item rule exists only as an unused
  message in the translation tables (`client/src/lib/i18n.tsx:27`).
- It does not check or decrease stock, takes no row lock and runs in no
  transaction.
- It does not store the payment method. The request body's payment method is
  validated, and then the route handler passes only the lines on
  (`server/routes.ts:86`).

## Model

| member | source | states |
|---|---|---|
| Strings.IntToStringRoundTrip | server/storage.ts:159 | the decimal text written for an id in a message reads back as exactly that id |
| Strings.IntToStringInjective | server/storage.ts:159 | different ids produce different decimal texts, so a message names one product |
| Storage.StorageError.Message | server/storage.ts:159 | the error text is "Product ", the id's digits, then " not found", and the middle part parses back to the missing product id |
| Storage.FirstMissing | server/storage.ts:157-159 | the failing line is the first one whose product has no row: every earlier line has one, and it equals the line count exactly when all products exist |
| Storage.OrderTotal | server/storage.ts:157-163 | the running total of price × quantity over the lines; it is never negative when no price or quantity is |
| Storage.Snapshot | server/storage.ts:164-168 | one pending item per line, in order, with the line's product id and quantity and the price read from its product row |
| Storage.RowsTotalIsOrderTotal | server/storage.ts:161-162 | the order's total equals the sum of price × quantity over the item rows it writes |
| Storage.EmptyOrder | server/storage.ts:152-188 | an empty line list is accepted: it makes an order with total 0 and writes no item rows |
| Storage.InsertKeepsConsistent | server/storage.ts:171-185 | inserting an order and its item rows keeps ids unique and increasing, keeps them below the serial counters and keeps every item pointing at an existing order |
| Storage.DatabaseStorage.CreateOrder | server/storage.ts:152-188 | when a product is missing, returns the not-found error for the first such line and leaves every table and counter as it was; otherwise appends the pending order with the computed total and the current time, appends the snapshotted item rows and advances both counters |
| Storage.DatabaseStorage.ReadLines | server/storage.ts:154-168 | the read phase fails with the not-found error of the first line whose product is missing; when every product exists, it returns the order total and one price snapshot per line, in order |
| Storage.DatabaseStorage.InsertItems | server/storage.ts:177-185 | the write phase appends one order_items row per snapshot, in order, numbered from the item serial, and changes nothing else |
| Storage.UserOrders | server/storage.ts:191 | keeps exactly the orders of the given user, with their multiplicities |
| Storage.InsertByNewest | server/storage.ts:191 | inserting into a newest-first list keeps it newest first and adds exactly the one order |
| Storage.NewestFirst | server/storage.ts:191 | the result is ordered by creation time, newest first, and is a permutation of the input |
| Storage.JoinItems | server/storage.ts:194-200 | an item appears joined to a product exactly when it belongs to the order and its product row exists, joined to that row, and it appears as often as it does in the items table |
| Storage.JoinKeepsSnapshots | server/storage.ts:194-205 | the items listed for an order do not depend on the products' current prices: any products table with the same ids lists the same item rows, with the stored snapshot prices |
| Storage.WithItems | server/storage.ts:193-206 | each listed order keeps its header, in order, and carries exactly the join of its item rows, each as often as it is in the items table |
| Storage.DatabaseStorage.GetOrders | server/storage.ts:190-209 | lists only the user's orders, newest first, exactly the user's orders as a multiset, each with exactly its joined items, every item as often as it is in the items table |
| Storage.ListedOrdersAreTheUsers | server/storage.ts:190-209 | an order is listed for a user exactly when it is in the orders table and belongs to that user |
| Storage.IncreasingIdsOnce | server/storage.ts:177-185 | in a table whose ids strictly increase, every row occurs at most once |
| Storage.ListedItemsOnce | server/storage.ts:193-206 | in a consistent database, every item listed under an order appears at most once |
| Cart.IndexOfProduct | client/src/hooks/use-cart.tsx:36 | finds the first line of a product: no earlier line has the product, and the returned line does when one exists |
| Cart.AddedItem | client/src/hooks/use-cart.tsx:35-45 | after adding, the cart has a line of the product; the line count is unchanged when it already had one and grows by one otherwise; the existing lines keep their products in order |
| Cart.WithoutProduct | client/src/hooks/use-cart.tsx:53 | the remaining lines are exactly the old lines of other products |
| Cart.WithQuantity | client/src/hooks/use-cart.tsx:61-65 | same lines and products in order; the product's lines get the new quantity and every other line is unchanged |
| Cart.QuantityUpdated | client/src/hooks/use-cart.tsx:57-65 | every line of the product left after the update has exactly the requested quantity, which is then positive (so a non-positive quantity leaves none), and every line of another product stays |
| Cart.AddMerges | client/src/hooks/use-cart.tsx:36-43 | adding a product already in the cart raises that line's quantity by the added amount and changes no other line |
| Cart.AddAppends | client/src/hooks/use-cart.tsx:44 | adding a product not in the cart appends one line with the product and quantity |
| Cart.AddKeepsUnique | client/src/hooks/use-cart.tsx:34-45 | after adding, each product still has at most one line |
| Cart.RemoveSplices | client/src/hooks/use-cart.tsx:53 | removing a product cuts out its one line and keeps the others in order |
| Cart.NoLineNoChange | client/src/hooks/use-cart.tsx:53 | removing a product the cart does not hold leaves the cart unchanged |
| Cart.RemoveKeepsUnique | client/src/hooks/use-cart.tsx:53 | after removing, products stay unique and no line of the removed product is left |
| Cart.SetQuantitySetsOneLine | client/src/hooks/use-cart.tsx:61-65 | a positive quantity overwrites the quantity of the product's line only, and a product not in the cart changes nothing |
| Cart.NonPositiveQuantityRemoves | client/src/hooks/use-cart.tsx:57-60 | a quantity of zero or less acts as removing the product |
| Cart.UpdateKeepsUnique | client/src/hooks/use-cart.tsx:56-66 | after an update, each product still has at most one line |
| Cart.SumAppend | client/src/hooks/use-cart.tsx:70-83 | each fold over two carts joined together is the sum of the two folds |
| Cart.ItemCount | client/src/hooks/use-cart.tsx:83 | the number of units; when every quantity is at least 1 it is at least the number of lines |
| Cart.Total | client/src/hooks/use-cart.tsx:70-73 | the price × quantity fold; never negative when no price or quantity is |
| Cart.Savings | client/src/hooks/use-cart.tsx:75-80 | the (original price − price) × quantity fold; never negative when no price exceeds its original price and no quantity is negative |
| Cart.EmptyCartTotals | client/src/hooks/use-cart.tsx:70-83 | an empty cart has item count, total and savings 0 |
| Cart.AddToLineTotals | client/src/hooks/use-cart.tsx:36-43 | merging into an existing line raises the item count by the added quantity and the total and savings by that quantity at the line's stored prices |
| Cart.AddNewLineTotals | client/src/hooks/use-cart.tsx:44 | appending a new line raises the item count, total and savings by exactly the new line's share |
| Cart.RemoveTotals | client/src/hooks/use-cart.tsx:52-54 | removing a product lowers the item count, total and savings by exactly its line's share |
| Cart.UpdateTotals | client/src/hooks/use-cart.tsx:61-65 | setting a positive quantity replaces the line's old share of every total with its new share |
| Cart.CartProvider.constructor | client/src/hooks/use-cart.tsx:24-27 | a new cart is empty |
| Cart.CartProvider.AddItem | client/src/hooks/use-cart.tsx:34-45 | the new lines are the merge-or-append of the old ones, and products stay unique |
| Cart.CartProvider.RemoveItem | client/src/hooks/use-cart.tsx:52-54 | the new lines are the old ones without the product's line |
| Cart.CartProvider.UpdateQuantity | client/src/hooks/use-cart.tsx:56-66 | the new lines are the old ones with the quantity set, or with the line removed when the quantity is not positive |
| Cart.CartProvider.ClearCart | client/src/hooks/use-cart.tsx:68 | the cart becomes empty, and its item count, total and savings are 0 |
| Routes.IndexOfFrom | shared/routes.ts:131-132 | returns the first position at or after the start where the pattern occurs, or -1 exactly when it occurs nowhere there |
| Routes.Substitution | shared/routes.ts:132 | a replacement text without `$` is inserted literally, and `$&` inserts the matched text |
| Routes.ReplaceFirst | shared/routes.ts:132 | without a match the string is kept; with one, the text before and after the first match is kept around the substitution, which is the replacement itself when it has no `$` |
| Routes.BuildUrl | shared/routes.ts:127-137 | without parameters the path is returned; with parameters, each entry in turn replaces the first occurrence of its `:key`, if any |
| Routes.NoEntriesKeepPath | shared/routes.ts:129-136 | an empty parameter object leaves the path as it is |
| Routes.ApplyParam | shared/routes.ts:131-133 | a parameter whose `:key` is not in the URL changes nothing; otherwise the URL before the first `:key` is kept |
| Routes.ApplyParams | shared/routes.ts:130-134 | the entries are applied one after another; a path with no `:` comes back unchanged whatever the parameters |
| Routes.NoColonNoPlaceholder | shared/routes.ts:131 | a URL without `:` contains no placeholder |
| Routes.NumberHasNoDollar | shared/routes.ts:132 | the text of a numeric parameter contains no `$`, so it is inserted literally |
| Routes.FirstPlaceholderAt | shared/routes.ts:131-132 | a `:key` found before any other colon is the occurrence that is replaced |
| Routes.ReplacesFirstPlaceholder | shared/routes.ts:131-133 | for a value without `$`, the result is the URL with the first `:key` replaced by the value's text and everything else kept |
| Routes.ProductUrl | shared/routes.ts:44 | the product path with id n becomes "/api/products/" followed by n's decimal digits |
| Routes.OnlyFirstOccurrence | shared/routes.ts:132 | a key that appears twice in the path is replaced only at its first occurrence |
| Routes.PlaceholderMatchesPrefix | shared/routes.ts:131-132 | `:id` also matches the start of a longer placeholder such as `:idx` |
| Routes.DollarAmpersandKeepsPlaceholder | shared/routes.ts:132 | a text value `$&` puts the matched placeholder back, leaving the URL unchanged |
| Routes.ParseLine | shared/routes.ts:101-104 | a line is accepted exactly when it is an object with a numeric productId and a numeric quantity of at least 1, and then yields those two numbers |
| Routes.ParseLines | shared/routes.ts:101 | the array is accepted exactly when every element is, and then yields the parsed lines in order |
| Routes.ParseOrderInput | shared/routes.ts:100-106 | every accepted line has quantity at least 1 |
| Routes.ParseAcceptsExactly | shared/routes.ts:100-106 | the parser accepts exactly the bodies the schema describes: an items array of valid lines, and a paymentMethod that is absent, "cash" or "visa" |
| Routes.ParsedBodyContents | shared/routes.ts:100-106 | an accepted body yields its lines in order; its payment method is visa exactly when the body says "visa", and cash otherwise, including when it is absent |
| Routes.EmptyItemsAccepted | shared/routes.ts:100-106 | an empty items array is accepted, with payment method cash |
| Routes.ParseEncodeRoundTrip | shared/routes.ts:100-106 | encoding any order input whose quantities are at least 1 and parsing it back gives the same input |
| I18n.Lookup | client/src/lib/i18n.tsx:118 | returns the entry when it exists and is non-empty, and the key itself when the entry is missing or empty |
| I18n.T | client/src/lib/i18n.tsx:117-119 | `t` returns the current language's non-empty entry, and the key when that language has no entry |
| I18n.Dir | client/src/lib/i18n.tsx:114 | the direction is "rtl" or "ltr" |
| I18n.DirFollowsLanguage | client/src/lib/i18n.tsx:114 | the direction is "rtl" exactly for Arabic and "ltr" exactly for English |
| I18n.SameKeys | client/src/lib/i18n.tsx:11-102 | the English and Arabic tables define the same set of keys |

## Left out

- Floating point: prices are `decimal(10,2)` strings. The code turns them into JavaScript numbers and multiplies them (`server/storage.ts:161-162`, `client/src/hooks/use-cart.tsx:70-81`). The model computes in exact integer cents, so it has no rounding error.
- Column ranges: the database would reject a total that overflows `decimal(10,2)` or a quantity outside `integer`. That error is raised by the database and is not modelled.
- Atomicity: `createOrder` uses no transaction. A database error between the order insert and the last item insert would leave a partial order. Database errors are not modelled; the model's only failure (a missing product) happens before any write, as in the code.
- Storage.DatabaseStorage.CreateOrder: the lookups are independent reads. Concurrent orders interleaving with them are not modelled.
- Stock, minimum order quantity, locking and order status transitions: the code has none in `createOrder`. The status button guard lives in the admin page, which is not part of this model.
- Payment method: it is parsed (`Routes.ParseOrderInput`) and then dropped by the route handler, so orders do not carry it.
- Storage.DatabaseStorage.GetOrders: the database's order among orders with equal `createdAt` and its order of joined rows are not specified. The model keeps table order in both places. The per-order queries run concurrently under `Promise.all` in the code; here they run one after another.
- JSON numbers: the model has integers only. zod's `number()` also accepts fractions such as 1.5 for both fields. Unknown fields are ignored, as zod does.
- Routes.BuildUrl: parameters are given as an ordered list of entries. JavaScript's `Object.entries` puts integer-like keys first, and that ordering is not modelled. `String(value)` of a number is modelled for integers only: no fractions and no exponent notation.
- I18n.T: keys inherited from `Object.prototype`, such as `toString`, are not modelled. Nor is a language value read from storage that is neither "en" nor "ar".
- The cart's and language's `localStorage` persistence, the toast after adding an item, React context errors, the query hooks, HTTP, authentication and all rendering are not part of this model.
- `getProducts` and the other storage methods are not part of this model.
