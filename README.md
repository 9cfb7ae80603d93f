# GoMarketplace cart store

A Dafny model of the cart provider of the GoMarketplace mobile storefront
(`src/hooks/cart.tsx`). The cart is an ordered list of line items
(`Product`: `id`, `title`, `image_url`, `price`, `quantity`) keyed by `id`.
Three operations change it:

- `addToCart` overwrites the entry with the same id and adds one unit, or appends a new entry with quantity 1;
- `increment` adds one unit to the entry with the given id;
- `decrement` removes one unit from that entry while its quantity stays positive, and never removes the entry.

After every change that found or added an entry, the whole list is written to the storage slot
`@GoMarketplace:products`. At start-up the store installs the list found in
that slot, or starts empty.

Everything is in `cart.dfy`, module `Cart`:

- `FindIndex` is `findIndex` with the predicate `item.id === id`.
- `AddedTo`, `Incremented` and `Decremented` give the list after each operation.
  `Lowered` is the decrement rule `quantity - 1 > 0 ? quantity - 1 : quantity`.
- The lemmas state what these functions promise.
- The class `CartStore` holds the in-memory list `products` and the slot `stored`.
  Its ghost field `writes` logs every value written to the slot.
  Its methods follow the source's lookup, replace or push, and persist steps.
  Each method's `ensures` ties the new state to the matching function.
- `WellFormed` is the invariant the operations keep: ids are unique and every quantity is at least 1.
  It is not required of a list read back from storage, because the source does not check what it loads.
- Four small client methods replay the cart's documented scenarios against the class.

`price` is a `real` that is only copied. `quantity` is an `int`, since a list read from storage is not validated.
Serialisation to and from JSON is the identity on the list.
A missing slot is `None`.

## Model

| member | source | states |
|---|---|---|
| `Cart.FindIndex` | src/hooks/cart.tsx:48 | the result is -1 exactly when no entry has the id, and otherwise the position of the first entry that has it |
| `Cart.FindIndexByIds` | src/hooks/cart.tsx:48 | the lookup depends only on the ids of the list, in order, so changing a quantity or overwriting fields never moves an entry |
| `Cart.FindIndexAppend` | src/hooks/cart.tsx:48-59 | looking up an id after a push finds the earlier match if there was one, else the pushed entry if it has the id, else nothing |
| `Cart.AddExisting` | src/hooks/cart.tsx:48-57 | adding a present id keeps the length and the id order; the matched entry takes the input's title, image and price and its old quantity + 1; every other entry is unchanged |
| `Cart.AddNew` | src/hooks/cart.tsx:58-59 | adding an absent id appends exactly one entry, with the input's fields and quantity 1, behind the unchanged old list |
| `Cart.AddThenFind` | src/hooks/cart.tsx:45-60 | after an add, the lookup of the item's id finds an entry with the item's fields, at its old position or at the new end, whose quantity is the old quantity + 1 or 1 |
| `Cart.AddKeepsWellFormed` | src/hooks/cart.tsx:48-59 | adding keeps ids unique and every quantity at least 1 |
| `Cart.AddSameFieldsIsIncrement` | src/hooks/cart.tsx:45-91 | re-adding an item whose title, image and price are unchanged is the same as incrementing its id |
| `Cart.AddTwiceMerges` | src/hooks/cart.tsx:45-60 | two adds of a new id leave one appended entry with quantity 2 and the second add's fields |
| `Cart.AddDistinctAppends` | src/hooks/cart.tsx:45-60 | two adds of distinct new ids append two entries of quantity 1, in the order of the adds |
| `Cart.MissingIdIsNoOp` | src/hooks/cart.tsx:71-117 | increment and decrement of an id that is not in the list leave the list unchanged |
| `Cart.IncrementFound` | src/hooks/cart.tsx:73-84 | on a found id, increment raises only that entry's quantity by 1; its other fields, every other entry and the length are unchanged |
| `Cart.DecrementFound` | src/hooks/cart.tsx:97-108 | on a found id, decrement sets quantity q to q - 1 when q > 1 and keeps q otherwise; the entry stays, the ids keep their order, nothing else changes |
| `Cart.QuantityChangesKeepIds` | src/hooks/cart.tsx:71-117 | increment and decrement keep the list of ids and its order |
| `Cart.IncrementKeepsWellFormed` | src/hooks/cart.tsx:71-93 | increment keeps ids unique and every quantity at least 1 |
| `Cart.DecrementKeepsWellFormed` | src/hooks/cart.tsx:95-117 | decrement keeps ids unique and every quantity at least 1 |
| `Cart.DecrementUndoesIncrement` | src/hooks/cart.tsx:71-117 | on a list whose quantities are at least 1, decrementing an id right after incrementing it restores the list |
| `Cart.IncrementAfterFloor` | src/hooks/cart.tsx:71-117 | the floor is not undone: decrementing an entry of quantity 1 and then incrementing it gives quantity 2 |
| `Cart.CartStore.constructor` | src/hooks/cart.tsx:29-43 | start-up installs the list held in the slot, or the empty list when the slot is empty; no write is made |
| `Cart.CartStore.AddToCart` | src/hooks/cart.tsx:45-69 | the new list is the upsert of the old one; the slot then holds the new list, after exactly one write; the invariant is kept |
| `Cart.CartStore.Increment` | src/hooks/cart.tsx:71-93 | the new list is the increment of the old one; on a found id the slot holds the new list after one write, on a missing id nothing changes and nothing is written |
| `Cart.CartStore.Decrement` | src/hooks/cart.tsx:95-117 | the new list is the decrement of the old one; on a found id the slot holds the new list after one write, on a missing id nothing changes and nothing is written |
| `Cart.StartWithoutSavedList` | src/hooks/cart.tsx:29-43 | a store started with an empty slot holds no items |
| `Cart.ReAddMerges` | src/hooks/cart.tsx:45-69 | adding A with (T, u, 10) and then A with (T2, u2, 20) leaves the single entry (A, T2, u2, 20, quantity 2) |
| `Cart.DecrementFloorsAtOne` | src/hooks/cart.tsx:95-117 | decrement leaves quantity 1 at 1 and lowers quantity 3 to 2 |
| `Cart.RestartRestoresCart` | src/hooks/cart.tsx:31-117 | after an add, an increment and two decrements, a store started from the slot holds the same list as the store that wrote it |

## Left out

- React wiring is not modelled: the context, `useState`, the `useCallback` and `useMemo` dependency lists, and the provider JSX. The store is an explicit object instead.
- The `useCart` guard is not modelled. It throws when the hook is used outside a provider, and that is a property of the component tree, not of the cart.
- AsyncStorage is a single `Option` field, and each write completes at once.
  The model does not capture the asynchronous start-up load racing with early operations.
  It does not capture writes that finish out of order (last write to finish wins).
  It does not capture storage failures, which the source ignores.
- The model does not capture the in-place mutation of the previous `products` array, which the source aliases as `newProducts`. The model replaces the list as a value. Each operation's result and the written value are the same either way.
- `JSON.parse` and `JSON.stringify` are taken as the identity on the list. A malformed stored blob, which the source does not handle, is not modelled.
- `price` is a JavaScript floating-point number. It is only copied, so it is a `real` here. `quantity` is an unbounded integer, and floating-point rounding of very large quantities is not modelled.
- The decrement rule follows the code (`quantity - 1 > 0 ? quantity - 1 : quantity`, src/hooks/cart.tsx:107). A clamp `max(quantity - 1, 1)` would differ from it only for a quantity of 0 or less read back from storage. The code leaves such a quantity unchanged, and so does `Lowered`.
