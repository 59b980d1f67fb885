# Shopping-cart slice, modelled in Dafny

This project models the shopping-cart state container of a storefront's Redux
store (`src/store/cartSlice/cartSlice.ts`). The cart is an ordered list of line
items, each identified by the pair `(id, size)`, with a cached grand total.
Five reducers change it:

- `addProduct` bumps the first entry with the payload's key, or appends the payload.
- `increaseQuantity` adds one to the first entry with the key.
- `decreaseQuantity` takes one from that entry, or drops the key altogether when the entry's quantity is not above 1.
- `removeProduct` drops every entry with the key.
- `clearCart` empties the cart.

After each of them except `clearCart`, the grand total is recomputed by
`calculateTotalPrice`, a left fold of `price * quantity` over the list.

The project has three modules:

- `CartModel` (`cart_model.dfy`) holds the values: `Item`, `Catalog` and `Notice`.
  It also holds the pure parts of the source: `find` as `FindFirst`, `filter` as
  `RemoveProduct` and the fold as `CalculateTotalPrice`. Each reducer's effect on
  the list is specified there as a function.
- `CartProperties` (`cart_properties.dfy`) proves what the reducers guarantee:
  - what happens to the entry found, to the other entries and to the grand total;
  - that keys stay unique;
  - when the cached line totals stay consistent with price times quantity.
- `CartSlice` (`cart_slice.dfy`) is the store's state object. The class
  `CartState` has the fields `cart` and `totalPrice`. Its reducer methods update
  these fields in place, as the Immer draft does. Each method's contract ties the
  new list to the specification function and the new total to the fold. Each
  method also keeps the invariant `Valid()`: the total is the fold, and no key
  occurs twice.

Modelling choices that follow the code:

- Everywhere else a line total is computed as price times quantity (lines
  57-58, 89, 106). The new-item branch of `addProduct` (lines 64-67) instead
  stores the payload's own `totalPrice`, and the model follows it.
  `AddProductNew` states this. `AddProductConsistent` proves that line totals
  stay consistent after an add exactly when the payload's own line total is
  consistent, or when the key is already present.
- From quantity 3, three decreases remove an entry (2, then 1, then removed).
  `WorkedTrace` follows this.
- `decreaseQuantity` treats a first match with quantity 1 or less (zero or
  negative included) as a removal. It then removes every entry with the key,
  not only the one it found (lines 104-115). `increaseQuantity`,
  `decreaseQuantity` and `addProduct` change only the first match. Uniqueness
  is not checked anywhere. It is an invariant that each reducer preserves if it
  already held.

Shared helpers used by the members below, with the source lines they model:

- `CartModel.Matches` is the predicate `item.id === id && item.size === size`
  that `find` and `filter` receive (lines 50-52, 82-84, 99-101, 110-113, 125-128).
- `CartModel.WithQuantity` is the in-place update of an entry's quantity and
  its recomputed `totalPrice` (lines 56-58, 88-89, 105-106).

## Model

| member | source | states |
|---|---|---|
| CartModel.FindFirst | src/store/cartSlice/cartSlice.ts:49-53 | `find` returns the index of the first entry with the key: that entry matches and none before it does; with no result, no entry has the key |
| CartModel.RemoveProduct | src/store/cartSlice/cartSlice.ts:123-129 | the filtered list has no entry with the key, holds only entries of the original cart, and is shorter exactly when the key was present |
| CartModel.AddProduct | src/store/cartSlice/cartSlice.ts:48-73 | after adding, the payload's key is present; the length is unchanged when the key was present and one more otherwise |
| CartModel.IncreaseQuantity | src/store/cartSlice/cartSlice.ts:77-90 | length is preserved and every position keeps its key (so order is kept) |
| CartModel.DecreaseQuantity | src/store/cartSlice/cartSlice.ts:94-115 | the list never grows; if its length is kept, every position keeps its key; if it shrinks, the key is gone |
| CartModel.CalculateTotalPrice | src/store/cartSlice/cartSlice.ts:147-152 | the left fold of `price * quantity` from 0 over the cart in order; the total is never negative when no price or quantity is; its properties are proved in `TotalFromFront`, `TotalConcat`, `TotalUpdate`, `TotalDelete` and `TotalIgnoresLineTotals` |
| CartProperties.TotalFromFront | src/store/cartSlice/cartSlice.ts:147-152 | summing from the front gives the same total as summing from the back: the fold equals the first entry's subtotal plus the fold of the rest |
| CartProperties.TotalConcat | src/store/cartSlice/cartSlice.ts:147-152 | the grand-total fold over a concatenation is the sum of the folds over the parts |
| CartProperties.TotalUpdate | src/store/cartSlice/cartSlice.ts:147-152 | replacing one entry changes the recomputed total by exactly the difference of the two subtotals |
| CartProperties.TotalDelete | src/store/cartSlice/cartSlice.ts:147-152 | deleting one entry lowers the recomputed total by exactly its subtotal |
| CartProperties.TotalIgnoresLineTotals | src/store/cartSlice/cartSlice.ts:149 | the grand total depends only on prices and quantities, never on the cached `totalPrice` of an entry |
| CartProperties.AddProductExisting | src/store/cartSlice/cartSlice.ts:49-58 | with a first match at i: the length is unchanged; entry i's quantity grows by the payload's; its totalPrice becomes its own price times the new quantity; its other fields are kept; every other entry is unchanged; the total grows by price times the added quantity |
| CartProperties.AddProductNew | src/store/cartSlice/cartSlice.ts:63-68 | with no match: the result is the old cart with the payload appended verbatim, its own totalPrice included; the total grows by the payload's subtotal |
| CartProperties.AddProductPreservesUnique | src/store/cartSlice/cartSlice.ts:49-68 | if no two entries shared a key before the add, none do after it |
| CartProperties.AddProductConsistent | src/store/cartSlice/cartSlice.ts:55-68 | starting from consistent line totals, they stay consistent if and only if the key was present or the payload's own totalPrice equals its price times quantity |
| CartProperties.IncreaseQuantityUnchanged | src/store/cartSlice/cartSlice.ts:81-90 | increaseQuantity leaves the cart unchanged if and only if no entry has the key |
| CartProperties.IncreaseQuantityFirst | src/store/cartSlice/cartSlice.ts:81-92 | with a first match at i: only entry i changes; its quantity grows by one and its totalPrice is recomputed; length and order are kept; the total grows by its price |
| CartProperties.IncreaseQuantityPreserves | src/store/cartSlice/cartSlice.ts:81-90 | increaseQuantity preserves unique keys and consistent line totals |
| CartProperties.RemoveProductConcat | src/store/cartSlice/cartSlice.ts:123-129 | the filter distributes over concatenation, so kept entries stay in their original order |
| CartProperties.RemoveProductKeepsOthers | src/store/cartSlice/cartSlice.ts:123-129 | every entry with another key survives as many times as it occurred |
| CartProperties.RemoveProductAbsent | src/store/cartSlice/cartSlice.ts:123-129 | removing a key leaves the cart unchanged if and only if the key is absent |
| CartProperties.RemoveProductIdempotent | src/store/cartSlice/cartSlice.ts:123-129 | removing a key twice gives the same cart as removing it once |
| CartProperties.RemoveProductAt | src/store/cartSlice/cartSlice.ts:123-134 | with unique keys and a match at i, removing the key deletes exactly entry i, and the total drops by its subtotal |
| CartProperties.RemoveProductPreserves | src/store/cartSlice/cartSlice.ts:123-129 | removal preserves unique keys and consistent line totals |
| CartProperties.DecreaseQuantityUnchanged | src/store/cartSlice/cartSlice.ts:98-115 | decreaseQuantity leaves the cart unchanged if and only if no entry has the key |
| CartProperties.DecreaseQuantityDecrements | src/store/cartSlice/cartSlice.ts:104-106 | with a first match at i whose quantity is above 1: only entry i changes; its quantity drops by one and its totalPrice is recomputed; the length is kept; the total drops by its price |
| CartProperties.DecreaseQuantityRemoves | src/store/cartSlice/cartSlice.ts:107-115 | with a first match of quantity at most 1: the result is the filter that drops every entry with the key; with unique keys that deletes exactly the match, and the total drops by its subtotal |
| CartProperties.DecreaseQuantityPreserves | src/store/cartSlice/cartSlice.ts:98-115 | decreaseQuantity preserves unique keys and consistent line totals |
| CartProperties.WorkedTrace | src/store/cartSlice/cartSlice.ts:48-118 | add 2 at price 10 to an empty cart, add 1 more, then decrease three times: quantities 2, 3, 2, 1 and then no entry, with totals 20, 30, 20, 10 and 0 |
| CartSlice.CartState.constructor | src/store/cartSlice/cartSlice.ts:39-42 | the initial state is an empty cart with total 0, which satisfies the invariant |
| CartSlice.CartState.AddProduct | src/store/cartSlice/cartSlice.ts:48-76 | the new list is `AddProduct` of the old one; the total is the fold over it; the invariant is kept; the notice is a success titled "Cart updated: name" or "Product added: name" |
| CartSlice.CartState.IncreaseQuantity | src/store/cartSlice/cartSlice.ts:77-93 | the new list is `IncreaseQuantity` of the old one; the total is the fold over it; the invariant and consistent line totals are kept |
| CartSlice.CartState.DecreaseQuantity | src/store/cartSlice/cartSlice.ts:94-118 | the new list is `DecreaseQuantity` of the old one; the total is the fold over it; the invariant and consistent line totals are kept |
| CartSlice.CartState.RemoveProduct | src/store/cartSlice/cartSlice.ts:119-135 | the new list is the filter of the old one; the total is the fold over it; the invariant and consistent line totals are kept; the notice is an info "Product removed from cart"; when the invariant held and the key was present, exactly one entry goes and the total drops by that entry's subtotal |
| CartSlice.CartState.ClearCart | src/store/cartSlice/cartSlice.ts:136-143 | the cart is empty and the total is 0, which equals the fold over the empty cart; the notice is a warning "Cart cleared" |

## Left out

- The `toast` hook (lines 1, 59-62, 69-72, 130-133, 139-142) is not part of this model. Each reducer instead returns the notice it would show (variant and title), and nothing is displayed.
- Redux Toolkit plumbing (`createSlice`, `PayloadAction`, Immer drafts, the exported action creators and reducer; lines 2, 44-47, 154-161) is framework code. Each reducer is a method on the `CartState` object instead.
- JavaScript `number` arithmetic is floating point. Prices, quantities and totals are unbounded integers here, so sums and products are exact. Rounding and overflow to infinity are not modelled.
- The descriptive catalog fields (lines 10-31, such as `image`, `comments`, `brand` and `in_stock`) are modelled as one `Catalog` value holding a map from strings to strings. The reducers only copy it along unchanged. The fields' own types (numbers, booleans, arrays) are not modelled.
- The reducers take `{ id, size }` payloads as two parameters. A payload missing either field, or a non-numeric `id`, cannot be written in the model.
- That quantities stay at least 1 is not an invariant of the model. The code does not enforce it: `addProduct` accepts any payload quantity.
