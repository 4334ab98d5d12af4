# Storefront cart and checkout — a verified Dafny model

This project models the logic core of a small storefront: the static product
catalog, the client-side cart reducer with its derived totals, the checkout
request validator with its error-to-response mapping, and the checkout
endpoint's total computation. All four pieces are pure in the source (the
reducer builds new states with `map`, `filter` and spread; the validator is an
early-return scan; the totals are `reduce` folds), so the model is datatypes,
functions and lemmas.

- `wrappers.dfy` — `Option` and `Result`.
- `catalog.dfy` (module `Catalog`) — the ten products, `FindById` (the
  source's `find`), `GetProductById`, `GetProductsByCategory`,
  `GetAllProducts`.
- `cart.dfy` (module `Cart`) — `CartItem`, `CartState`, the five actions and
  `Apply`, the reducer. `total` and `itemCount` are recomputed by
  `CalculateTotals` from `TotalPrice` and `ItemCount`. `WellFormed` is the
  invariant the reducer keeps: consistent totals, unique product ids and
  positive quantities.
- `error_handling.dfy` (module `ErrorHandling`) — `APIError` (status 500 by
  default), `HandleAPIError`, and `ValidateCartItems` over a JSON-like input.
  That input is either not an array or an array of elements. An element is
  null/undefined, or any other value, whose `productId` and `quantity` are
  each absent, a number, or some other value. A primitive element such as `5`
  or `"x"` is such a value with both properties absent, since reading a
  property of it gives `undefined`.
- `checkout.dfy` (module `Checkout`) — the body of the checkout `POST`.
  It validates (400), sums quantities, then folds over the lines looking up
  prices, aborting with 404 at the first unknown id. It also holds the
  cart-page projection of lines to `(productId, quantity)` and the theorem
  that the server's totals equal the cart's own totals.

Numbers are modelled as unbounded integers: the catalog prices are whole
rupees, and ids and quantities are integers in every modelled input.

The model follows the code in these points:
- RemoveItem and UpdateQuantity act on every line with the id, through
  `filter` and `map`, not on one line (contexts/CartContext.tsx:50 and
  contexts/CartContext.tsx:63-67).
- The validator rejects a product id of 0 (JavaScript's `!productId`), while
  negative ids pass (lib/utils/error-handling.ts:62).
- ADD_ITEM on a product already in the cart keeps the stored line's product
  (object spread, contexts/CartContext.tsx:33), so `total` grows by the
  stored price, not by the price of the product passed in
  (`AddExistingTotals`).

## Model

| member | source | states |
|---|---|---|
| `Catalog.FindById` | lib/data/products.ts:93-95 | `find`: None exactly when no product has the id; otherwise the product at the first index carrying that id |
| `Catalog.FilterByCategory` | lib/data/products.ts:97-99 | `filter`: a product is in the result iff it is in the input and its category is the given one; never longer than the input |
| `Catalog.FilterByCategoryAppend` | lib/data/products.ts:97-99 | filtering distributes over concatenation, so the result keeps catalog order |
| `Catalog.GetAllProducts` | __tests__/api/products.test.ts:38-52 | every product returned has id > 0, a non-empty name and price > 0, and there are at least five |
| `Catalog.CatalogIds` | lib/data/products.ts:10-91 | the catalog has ten products with ids 1..10 in order, pairwise distinct |
| `Catalog.GetProductById` | lib/data/products.ts:93-95 | `getProductById`: absent exactly when no catalog product has the id; otherwise a catalog product carrying that id |
| `Catalog.GetProductsByCategory` | lib/data/products.ts:97-99 | `getProductsByCategory`: a product is in the result iff it is a catalog product of that category |
| `Catalog.FindByIdPositionalIds` | lib/data/products.ts:93-95 | in a list whose ids are positions plus one, lookup succeeds exactly on 1..length and yields the product at position id - 1 |
| `Catalog.GetProductByIdSucceedsExactlyOnCatalogIds` | lib/data/products.ts:93-95 | lookup succeeds iff 1 <= id <= 10, and then yields the product at position id - 1 |
| `Catalog.UnknownIdIsAbsent` | lib/data/products.ts:93-95 | lookup of 9999 is absent |
| `Catalog.ProductOnePrice` | lib/data/products.ts:12-14 | product 1 exists and costs 1299 |
| `Catalog.LookupsReturnCatalogProducts` | lib/data/products.ts:93-103 | every result of lookup by id or by category is an element of the whole catalog |
| `Cart.ItemCountAppend` | contexts/CartContext.tsx:85 | the `itemCount` fold (`ItemCount`) of two concatenated lists is the sum of their counts |
| `Cart.TotalPriceAppend` | contexts/CartContext.tsx:84 | the `total` fold (`TotalPrice`) of two concatenated lists is the sum of their totals |
| `Cart.ItemCountAtLeastLines` | contexts/CartContext.tsx:85 | with at least one unit on every line, the `itemCount` fold is at least the number of lines |
| `Cart.TotalPriceNonNegative` | contexts/CartContext.tsx:84 | with no negative price or quantity, the `total` fold is not negative |
| `Cart.CalculateTotals` | contexts/CartContext.tsx:83-87 | keeps the lines and makes total and itemCount consistent with them |
| `Cart.IncrementWhere` | contexts/CartContext.tsx:31-35 | same length; every line with the id gains one unit, every other line is unchanged |
| `Cart.SetQuantityWhere` | contexts/CartContext.tsx:63-67 | same length; every line with the id gets exactly the quantity, every other line is unchanged |
| `Cart.RemoveWhere` | contexts/CartContext.tsx:50 | a line survives iff it was present and does not carry the id |
| `Cart.RemoveWhereAppend` | contexts/CartContext.tsx:50 | removal distributes over concatenation, so survivors keep their relative order |
| `Cart.RemoveWhereAbsent` | contexts/CartContext.tsx:50 | removing an id no line carries returns the lines unchanged |
| `Cart.RemoveWherePreservesUnique` | contexts/CartContext.tsx:50 | removal cannot introduce a duplicate id |
| `Cart.SetQuantityWhereIdempotent` | contexts/CartContext.tsx:63-67 | setting a quantity twice equals setting it once |
| `Cart.SetQuantityWhereAbsent` | contexts/CartContext.tsx:63-67 | setting the quantity of an absent id returns the lines unchanged |
| `Cart.IncrementWhereUniqueLine` | contexts/CartContext.tsx:31-35 | with unique ids, the increment touches only the line carrying the id |
| `Cart.Apply` | contexts/CartContext.tsx:25-81 | after every action total == sum of price times quantity and itemCount == sum of quantities over the new lines |
| `Cart.AddExistingLines` | contexts/CartContext.tsx:28-37 | adding a present product keeps the number and order of lines and adds one unit to the lines with its id only |
| `Cart.AddExistingTotals` | contexts/CartContext.tsx:28-37 | with unique ids, adding a present product raises itemCount by 1 and total by that line's stored price |
| `Cart.AddNewProduct` | contexts/CartContext.tsx:40-45 | adding an absent product appends one line of quantity 1 after the existing lines; itemCount grows by 1 and total by the product's price |
| `Cart.AddSameProductTwice` | contexts/CartContext.tsx:27-45 | two adds of one product to an empty cart give a single line of quantity 2 |
| `Cart.AddDistinctProducts` | contexts/CartContext.tsx:27-45 | adds of distinct, absent products append one line each; itemCount grows by their number and total by the sum of their prices |
| `Cart.RemoveDropsExactlyThatId` | contexts/CartContext.tsx:48-54 | no line with the id remains, and every other line remains |
| `Cart.RemoveAbsentIsNoOp` | contexts/CartContext.tsx:48-54 | removing an absent id from a consistent cart leaves the state unchanged |
| `Cart.UpdateNonPositiveIsRemove` | contexts/CartContext.tsx:57-61 | UpdateQuantity with quantity <= 0 yields the same state as RemoveItem of that id |
| `Cart.UpdatePositiveSetsQuantity` | contexts/CartContext.tsx:63-68 | a positive quantity is set exactly on the lines with the id, others untouched; an absent id leaves a consistent cart unchanged |
| `Cart.UpdateQuantityIdempotent` | contexts/CartContext.tsx:57-68 | applying the same UpdateQuantity twice equals applying it once |
| `Cart.ClearCartEmpties` | contexts/CartContext.tsx:71-73 | ClearCart yields no lines, total 0 and itemCount 0 from any state |
| `Cart.LoadCartRoundTrip` | contexts/CartContext.tsx:75-76 | loading a consistent cart's own lines reproduces that cart, totals included |
| `Cart.LoadCartMayDuplicate` | contexts/CartContext.tsx:75-76 | LoadCart installs lines verbatim and can produce duplicate ids |
| `Cart.ApplyPreservesWellFormed` | contexts/CartContext.tsx:25-81 | every action keeps totals consistent, ids unique and quantities >= 1, provided LoadCart's lines are unique and positive |
| `Cart.EmptyCartWellFormed` | contexts/CartContext.tsx:90-94 | the provider's initial state, no lines with total 0 and itemCount 0, satisfies the invariant |
| `Cart.ApplyAllPreservesWellFormed` | contexts/CartContext.tsx:25-81 | any sequence of actions, each LoadCart carrying unique ids and positive quantities, keeps the invariant |
| `ErrorHandling.HandleAPIError` | lib/utils/error-handling.ts:18-38 | an APIError keeps its message and status; any other Error or non-Error gives status 500 with a fixed generic message |
| `ErrorHandling.NewAPIError` | lib/utils/error-handling.ts:4-13 | `new APIError(message, statusCode, code)` keeps all three, and `handleAPIError` relays exactly its message and status |
| `ErrorHandling.DefaultStatusIs500` | lib/utils/error-handling.ts:4-13 | an APIError built without a status has status 500 and is reported with its own message |
| `ErrorHandling.OtherErrorsDoNotLeak` | lib/utils/error-handling.ts:26-37 | any non-API Error gives ("Internal server error", 500) whatever its message; a non-Error gives ("Unknown error occurred", 500) |
| `ErrorHandling.CheckItem` | lib/utils/error-handling.ts:60-68 | an element passes iff it has a non-zero numeric id and a positive numeric quantity; the id is checked first; a null element throws |
| `ErrorHandling.CheckItems` | lib/utils/error-handling.ts:60-70 | Valid iff every element passes; otherwise the verdict of an element before which every element passes |
| `ErrorHandling.ValidateCartItems` | lib/utils/error-handling.ts:51-71 | non-array gives "Items must be an array"; empty gives "Cart cannot be empty"; Valid iff a non-empty array whose elements all pass; error messages are non-empty |
| `ErrorHandling.ValidateReportsFirstFailure` | lib/utils/error-handling.ts:60-68 | a non-empty array is rejected with exactly the verdict of its first failing element |
| `ErrorHandling.ProductIdTruthiness` | lib/utils/error-handling.ts:62-67 | id 0 is rejected, id -5 is accepted, the id check precedes the quantity check, a non-numeric quantity is rejected |
| `Checkout.Respond` | app/api/checkout/route.ts:52-58 | a caught APIError becomes an error response with its own message and status; anything else becomes status 500 with one of the two generic messages |
| `Checkout.Checkout` | app/api/checkout/route.ts:15-59 | `POST`: an order is placed only for a valid request, with success true and the fixed message; every error status is 400, 404 or 500; a rejected request gets 400 with the validator's message. Its full behaviour is stated by `InvalidRequestIs400`, `NullItemIs500`, `CheckoutSuccess` and `UnknownProductIs404` |
| `Checkout.SumQuantities` | app/api/checkout/route.ts:26 | `totalItems`: with every quantity positive, the sum is at least the number of lines |
| `Checkout.NotFoundMessage` | app/api/checkout/route.ts:30 | the 404 text is "Product with ID ", the id's decimal text, then " not found" |
| `Checkout.NatToStringRoundTrip` | app/api/checkout/route.ts:30 | the decimal text the template prints for a natural number reads back as that number |
| `Checkout.AmountFold` | app/api/checkout/route.ts:27-33 | succeeds iff every id is in the catalog, with acc plus the sum of catalog price times quantity; otherwise fails with an unknown id all of whose predecessors are known |
| `Checkout.AmountFoldStopsAtFirstUnknown` | app/api/checkout/route.ts:28-31 | the fold fails with exactly the first unknown id |
| `Checkout.InvalidRequestIs400` | app/api/checkout/route.ts:20-23 | a request the validator rejects gets status 400 with the validator's message, before any lookup |
| `Checkout.NullItemIs500` | app/api/checkout/route.ts:52-58 | a null element makes reading `cartItem.productId` throw a TypeError (lib/utils/error-handling.ts:62); the catch reports it as ("Internal server error", 500) |
| `Checkout.CheckoutSuccess` | app/api/checkout/route.ts:24-50 | success iff the request is valid and every id is known; the response then has success true, the fixed message, totalItems = sum of quantities and totalAmount = sum of catalog price times quantity |
| `Checkout.UnknownProductIs404` | app/api/checkout/route.ts:27-31 | a valid request whose first id outside the catalog (1..10) is at line k gets 404 "Product with ID <id> not found" for that id |
| `Checkout.EmptyAndNonArrayRequests` | app/api/checkout/route.ts:20-23 | an empty items array and a non-array each get 400 with their own message |
| `Checkout.TwoOfProductOne` | app/api/checkout/route.ts:26-33 | one line {productId: 1, quantity: 2} gives totalItems 2 and totalAmount 2598 |
| `Checkout.UnknownProductExample` | app/api/checkout/route.ts:28-31 | one line with productId 9999 gets 404 "Product with ID 9999 not found" |
| `Checkout.NotFoundMessageExample` | app/api/checkout/route.ts:30 | the not-found message renders the id in decimal |
| `Checkout.CheckoutRequest` | components/Cart.tsx:38-41 | the request has one element per cart line, in order, carrying that line's product id and quantity |
| `Checkout.ProjectedSums` | app/api/checkout/route.ts:26-33 | over projected cart lines priced from the catalog, totalItems equals the cart's itemCount and the amount equals its total |
| `Checkout.CheckoutAgreesWithCart` | components/Cart.tsx:38-41 | checking out a non-empty well-formed cart whose lines carry catalog ids at catalog prices places the order with exactly the cart's itemCount and total |

## Left out

- `CartProvider` and `useCart`: React state plumbing, `localStorage` reads and writes and JSON parsing of the saved cart are I/O and framework code.
- Toast notifications emitted by the reducer are UI side effects and are not recorded.
- The reducer's `default: return state` branch cannot be reached with a typed action, so `CartAction` has exactly the five actions.
- `Product.imageUrl` and `Product.description` are display-only strings that no modelled operation reads; the catalog constant carries id, name, price and category only.
- JavaScript number semantics are not modelled: floating point, NaN, and fractional quantities such as 1.5 (which the validator would accept). All numbers are integers.
- `Field.NonNumber` stands for every present non-number value (string, boolean, null, object, array). The validator rejects all of them alike, whatever their truthiness.
- In checkout, reading and parsing the request body (`request.json()`) is left out. So are a body that is not an object, `NextResponse`, the `console.log` calls, the `ORD-<timestamp>` order id and the timestamp, which are clock-dependent. `Checkout` starts from the parsed `items` value.
- `formatINR` and `formatINRNumber` wrap a locale library that is not part of this model; they only feed the log line.
- The products API route is a one-line response wrapper and is not modelled.
