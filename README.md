# Cart hook model

A Dafny model of the cart state of a storefront's `CartProvider` hook
(`src/hooks/useCart.tsx`). The provider holds an ordered list of line items: a
product id, an amount, and the product's attributes. It also mirrors that list into
one browser storage key. It offers three mutations:

- `addProduct(id)` checks the amount of the first entry with that id (0 if there is
  none) against the stock reported for the id. It then bumps that entry in place,
  fetches the product, and appends it with amount 1.
- `removeProduct(id)` sets the amount of the first entry with that id to 0.
- `updateProductAmount({id, amount})` rejects, in this order: an amount below 1, a
  stock lookup that fails or reports less than the amount, and an id not in the cart.
  Otherwise it gives every entry with that id the new amount.

Each operation reports an outcome: `Ok`, `OutOfStock`, `NotFound`, `InvalidAmount` or
`LookupFailed`. The source only shows a notification; the model names the kind instead.

Layout:

- `cart_items.dfy`, module `CartItems`: the values (line item, product record, product
  attributes) and the list operations the source calls. These are `find` (`FindFirst`),
  `some` (`HasItem`), `map` (`WithAmount`) and the in-place amount write (`SetAmountAt`).
  It also holds occurrence counting and its lemmas.
- `cart_transitions.dfy`, module `CartTransitions`: each mutation as a pure transition.
  A transition maps the held cart, the stored snapshot and the lookup answers to an
  outcome, a new cart and a new snapshot. The lemmas state the properties of those
  transitions.
- `cart_store.dfy`, module `CartStore`: class `CartProvider`. Its field `cart` is the
  held state and its ghost field `stored` is the storage key's content. `stored` is
  `None` when the key held no cart at start-up (absent or empty) and nothing has been
  stored since. Its methods follow the source's steps in order. Each method's
  postcondition equates its outcome and new state with the transition function.

The network lookups are inputs. `stock: Option<int>` is the answer of the stock
lookup and `product: Option<Product>` the answer of the product lookup. `None` means
the lookup threw.

### Where the code and the intended cart behaviour disagree

A cart is meant to hold at most one entry per product id, to only increment a
re-added product, to drop an entry on removal, and to change nothing when an
operation fails. The code does otherwise, and the model follows the code:

- Adding a product already in the cart bumps the first matching entry and still
  appends a fresh amount-1 entry (`useCart.tsx:42-49`). The cart then holds duplicate
  ids (`AddPresentDuplicates`).
- Removing sets the first match's amount to 0 and keeps the entry
  (`useCart.tsx:68`; `RemoveKeepsEntry`).
- `addProduct` looks the entry up in the held cart itself (`useCart.tsx:33`), so the
  bump at line 43 writes the held cart's own entry. If the product fetch at line 46
  then throws, the held cart keeps the bump, and nothing is appended or stored
  (`AddPresentLookupFailed`). The shallow copy at line 32 shares that entry, so the
  bump also shows in the copy that is pushed onto, set and stored at lines 49-52.
  `removeProduct` works the same way (lines 60-61, 68-70).
- `updateProductAmount` changes every entry with the id, while `addProduct` and
  `removeProduct` change only the first one.
- A walk-through checked against the provider (`CartStore.DesignScenario`): add 7
  twice, set it to 5, add it again, remove it. The cart ends with two entries for id
  7, with amounts 0 and 5. With unique ids and real removal it would end empty.

## Model

| member | source | states |
|---|---|---|
| `CartItems.HasItem` | src/hooks/useCart.tsx:92 | the index-based test holds exactly when some element of the cart carries the id |
| `CartItems.CartQuantity` | src/hooks/useCart.tsx:33-35 | 0 when no entry carries the id; otherwise the amount of the first entry carrying it |
| `CartItems.FindFirst` | src/hooks/useCart.tsx:33 | the index found holds the id and no earlier entry does; none is found exactly when no entry carries the id |
| `CartItems.SetAmountAt` | src/hooks/useCart.tsx:43 | writing an amount into one entry changes only that entry's amount; length, id, attributes and all other entries are kept |
| `CartItems.WithAmount` | src/hooks/useCart.tsx:98-100 | every entry with the id gets the new amount with id and attributes kept, every other entry is identical, length is preserved |
| `CartItems.CountPositive` | src/hooks/useCart.tsx:92 | an id has a positive occurrence count exactly when some entry carries it |
| `CartItems.CountAppend` | src/hooks/useCart.tsx:49 | appending an entry raises the count of its id by one and keeps every other count |
| `CartItems.CountSameIds` | src/hooks/useCart.tsx:43 | carts with the same ids position by position have the same occurrence counts |
| `CartTransitions.AddProductSpec` | src/hooks/useCart.tsx:30-56 | only Ok, OutOfStock or LookupFailed; OutOfStock exactly when stock is known and the first match's amount (or 0) reaches it; success grows the cart by one, ends with the fetched product's id and attributes at amount 1, and stores exactly the new cart; a rejection writes no storage |
| `CartTransitions.RemoveProductSpec` | src/hooks/useCart.tsx:58-74 | only Ok or NotFound; NotFound exactly when no entry has the id, and then nothing changes; success keeps the length and stores exactly the new cart |
| `CartTransitions.UpdateProductAmountSpec` | src/hooks/useCart.tsx:76-107 | Ok exactly when 1 <= amount <= known stock and the id is in the cart; success keeps the length and stores exactly the new cart; every rejection leaves cart and storage unchanged |
| `CartTransitions.AddStockLookupFailed` | src/hooks/useCart.tsx:34 | a failed stock lookup leaves cart and storage unchanged and reports LookupFailed |
| `CartTransitions.AddOutOfStock` | src/hooks/useCart.tsx:33-40 | when the first match's amount (or 0) is at least the stock, cart and storage are unchanged and the outcome is OutOfStock |
| `CartTransitions.AddNewProduct` | src/hooks/useCart.tsx:42-52 | an id not in the cart, with stock above 0 and a fetched product, yields the old cart followed by exactly one amount-1 entry, which is also stored |
| `CartTransitions.AddPresentProduct` | src/hooks/useCart.tsx:42-52 | a present id below stock: the first match becomes n+1, other entries keep their value and position, a new amount-1 entry is appended, the result is stored |
| `CartTransitions.AddProductLookupFailed` | src/hooks/useCart.tsx:33-48 | under stock, a failed product fetch reports LookupFailed and leaves storage unchanged; for an id not in the cart the held cart is unchanged too |
| `CartTransitions.AddPresentLookupFailed` | src/hooks/useCart.tsx:33-48 | for a present id under stock, a failed product fetch keeps the first match's bump in the held cart and leaves storage unchanged, so a cart that matched storage no longer does |
| `CartTransitions.AddCounts` | src/hooks/useCart.tsx:43-49 | a successful add raises the count of the fetched product's id by one and keeps every other id's count |
| `CartTransitions.AddPresentDuplicates` | src/hooks/useCart.tsx:42-49 | re-adding a present product whose lookup answers the same id leaves at least two entries with that id, so ids are no longer unique |
| `CartTransitions.RemoveAbsent` | src/hooks/useCart.tsx:61-66 | removing an absent id reports NotFound and leaves cart and storage unchanged |
| `CartTransitions.RemovePresent` | src/hooks/useCart.tsx:68-70 | removing a present id keeps length and order, zeroes the first match, leaves every other entry untouched, and stores the result |
| `CartTransitions.RemoveKeepsEntry` | src/hooks/useCart.tsx:68 | after a remove the id is still in the cart with a first-match amount of 0, and its count is unchanged |
| `CartTransitions.UpdateInvalidAmount` | src/hooks/useCart.tsx:81-84 | an amount below 1 is rejected as InvalidAmount whatever the stock lookup gives, with nothing changed |
| `CartTransitions.UpdateStockRejects` | src/hooks/useCart.tsx:86-90 | for an amount of at least 1, a failed stock lookup gives LookupFailed and an amount above stock gives OutOfStock, whether or not the id is present, with nothing changed |
| `CartTransitions.UpdateAbsent` | src/hooks/useCart.tsx:92-96 | a valid in-stock amount for an absent id gives NotFound with nothing changed |
| `CartTransitions.UpdateSucceeds` | src/hooks/useCart.tsx:98-103 | every entry with the id becomes the same entry with the new amount, every other entry is identical, length and order are kept, the result is stored |
| `CartTransitions.UpdateIdempotent` | src/hooks/useCart.tsx:98-103 | repeating a successful update with the same stock answer yields the same cart and storage |
| `CartTransitions.NonNegativePreserved` | src/hooks/useCart.tsx:30-107 | none of the three operations brings a negative amount into a cart that had none |
| `CartStore.CartProvider.constructor` | src/hooks/useCart.tsx:25-28 | the held cart starts as the stored cart when the key holds one, otherwise empty; storage is untouched |
| `CartStore.CartProvider.AddProduct` | src/hooks/useCart.tsx:30-56 | outcome and new held cart and storage are those of AddProductSpec; success grows the cart by one and stores it |
| `CartStore.CartProvider.RemoveProduct` | src/hooks/useCart.tsx:58-74 | outcome and new state are those of RemoveProductSpec; a rejection changes nothing |
| `CartStore.CartProvider.UpdateProductAmount` | src/hooks/useCart.tsx:76-107 | outcome and new state are those of UpdateProductAmountSpec; a rejection changes nothing |
| `CartStore.DesignScenario` | src/hooks/useCart.tsx:30-107 | add 7 twice, set 7 to 5, add 7 at stock 5, remove 7: the cart ends as two id-7 entries with amounts 0 and 5, and storage holds it |

## Left out

- React context, state hooks, JSX and the `useCart` accessor (`useCart.tsx:1-22`, `109-120`): UI framework plumbing. The held cart is the field `cart`.
- Notifications and their message text: fire-and-forget UI effects. Only the outcome kind is kept.
- The HTTP calls to the stock and product endpoints: their answers are method inputs, and `None` stands for a call that threw.
- Storage I/O and JSON serialisation: `stored` is a ghost snapshot assigned where the source writes the key. A failing storage write or parse is not modelled. A stored value that is present but empty counts as absent in the source; `None` covers that case at hydration.
- Line items are values, not shared objects. The one observable effect of writing the held cart's own entry and sharing it with the copy (the bump reaching the held cart before the product fetch) is written out in `AddProduct` and `RemoveProduct`. No two cart positions share an object in this code, so nothing else depends on identity.
- Async interleaving and lost updates between overlapping calls: each operation is atomic and the calls are sequential.
- Amounts and stock are unbounded integers. JavaScript numbers (floating point, `NaN`, non-integer amounts) and a stock answer without an amount field are not modelled.
- The product types module (`src/types`) is not part of this model. `Details` stands for the product attributes other than id and amount.
