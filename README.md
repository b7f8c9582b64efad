# Cart store model

A Dafny model of the shopping-cart store of a React shop front-end
(`CartProvider` in `src/hooks/useCart.tsx`). The store keeps the cart, an
ordered list of products with the quantity held of each, and a copy of that
list in the browser's storage slot `@RocketShoes:cart`. Three operations
change it:

- `addProduct` asks the stock endpoint for the available quantity. It refuses
  when the quantity already in the cart plus one exceeds it. Otherwise it
  appends a new entry with amount 1, built from the product endpoint's answer,
  or increments the existing entry.
- `removeProduct` refuses an id that is not in the cart. Otherwise it filters
  the entries with that id out.
- `updateProductAmount` asks the stock endpoint first. It then ignores an
  amount below 1, refuses one above the stock, and otherwise sets the amount of
  the entries with that id.

Every successful operation writes the whole new list to the storage slot.
Every failure shows a notification and changes nothing.

`CartState.AddSession` and `CartState.RemoveSession` are worked examples:
sequences of calls whose results follow from the operations' contracts alone.

The model has two modules:

- `CartItems` (`cart_items.dfy`) holds the values and the pure list
  computations the operations are built from. `Find` is the `find` lookup,
  `Without` the `filter`, and `Bump` and `Assign` the two `map` updates. It
  also holds the cart invariant `WellFormed`: ids are unique and every amount
  is at least 1. The lemmas there pin these computations down.
- `CartState` (`cart_store.dfy`) holds the class `CartStore`. Its fields are
  `cart` and `stored`, the storage slot, where `None` means the slot is empty.
  The three operations are methods on it. The endpoints' answers come in as
  parameters, with `None` meaning the request failed. The notification comes
  back as an `Outcome`, and `Notification` maps an outcome to the message the
  front-end shows.

Three details of the code the model keeps:

- `updateProductAmount` asks for the stock before it looks at the amount
  (lines 95 and 97). A failed stock request is therefore reported even for an
  amount below 1.
- `updateProductAmount` does not check that the id is in the cart. For an
  absent id the `map` changes nothing, and the operation still succeeds and
  rewrites the storage slot. It reports no not-found error.
- The new entry in `addProduct` takes its id from the product endpoint's
  answer (line 52 spreads the fetched data), not from the requested id. The
  model keeps this. It proves the invariant only when the endpoint answers
  with the product it was asked for (`CartState.Answers`).

## Model

| member | source | states |
|---|---|---|
| `CartItems.Entry` | src/hooks/useCart.tsx:52 | the new entry carries exactly the fetched product data, and the given amount |
| `CartItems.Quantity` | src/hooks/useCart.tsx:41 | the quantity held is 0 for an id not in the cart, else the amount of the entry found; in a well-formed cart it is at least 1 |
| `CartItems.Find` | src/hooks/useCart.tsx:39 | finds an entry exactly when some entry has the id; the entry found is in the cart and has that id |
| `CartItems.FindFirst` | src/hooks/useCart.tsx:39 | the entry found is the first one with the id |
| `CartItems.FindUnique` | src/hooks/useCart.tsx:39-41 | with unique ids, the entry at any position holding the id is the one found, and the quantity held is its amount |
| `CartItems.Without` | src/hooks/useCart.tsx:81 | no entry with the id is left, and the list is no longer than before |
| `CartItems.WithoutCount` | src/hooks/useCart.tsx:81 | every entry with another id is kept as often as the cart holds it; entries with the id are gone |
| `CartItems.WithoutAbsent` | src/hooks/useCart.tsx:81 | filtering an id not in the cart returns the cart itself |
| `CartItems.WithoutAppend` | src/hooks/useCart.tsx:81 | filtering distributes over concatenation, so the kept entries stay in their order |
| `CartItems.WithoutUnique` | src/hooks/useCart.tsx:81-84 | with unique ids, removing the id at position k gives the cart minus exactly that entry, one shorter |
| `CartItems.Bump` | src/hooks/useCart.tsx:56-61 | same length; each entry with the id gets its amount plus one, every other entry is unchanged in place |
| `CartItems.Assign` | src/hooks/useCart.tsx:107-112 | same length; each entry with the id gets the requested amount, every other entry is unchanged in place |
| `CartItems.AssignAbsent` | src/hooks/useCart.tsx:106-113 | setting the amount of an id not in the cart leaves the cart as it was |
| `CartItems.BumpAsAssign` | src/hooks/useCart.tsx:56-61 | when every entry with the id holds n - 1, incrementing them equals setting them to n |
| `CartItems.BumpIsAssign` | src/hooks/useCart.tsx:55-61 | with unique ids, incrementing an entry equals setting it to the quantity held plus one |
| `CartItems.AppendPreservesWellFormed` | src/hooks/useCart.tsx:50-52 | appending an entry for a new id with amount 1 keeps ids unique and amounts at least 1 |
| `CartItems.BumpPreservesWellFormed` | src/hooks/useCart.tsx:55-61 | incrementing keeps ids unique and amounts at least 1 |
| `CartItems.AssignPreservesWellFormed` | src/hooks/useCart.tsx:97-112 | setting an amount of at least 1 keeps ids unique and amounts at least 1 |
| `CartItems.WithoutPreservesWellFormed` | src/hooks/useCart.tsx:81 | filtering keeps ids unique and amounts at least 1 |
| `CartState.Notification` | src/hooks/useCart.tsx:44-117 | a notification is shown exactly for a failure; out of stock shows the stock message; a failed removal shows the removal message; a failed lookup in an add or an update shows that operation's error message |
| `CartState.CartStore.constructor` | src/hooks/useCart.tsx:25-33 | the cart starts as the saved list, or empty when the slot is empty; the slot keeps what it held |
| `CartState.CartStore.AddProduct` | src/hooks/useCart.tsx:35-70 | failed stock request: lookup error; held quantity plus one above stock: out of stock; known id: entry incremented; new id: fetched entry with amount 1 appended, or lookup error when the product request failed; success rewrites the slot with the cart, failure changes nothing; keeps the invariant when the product endpoint answers with the id asked for |
| `CartState.CartStore.RemoveProduct` | src/hooks/useCart.tsx:72-88 | succeeds exactly when the id is in the cart, else not found with nothing changed; on success the cart is the filtered list, the slot holds it, and with unique ids it is one shorter; keeps the invariant |
| `CartState.CartStore.UpdateProductAmount` | src/hooks/useCart.tsx:90-119 | failed stock request: lookup error whatever the amount; amount below 1: ignored; above stock: out of stock; otherwise the amount is set, an absent id leaves the cart as it was, and the slot holds the cart; failure changes nothing; keeps the invariant |
| `CartState.CartStore.Reload` | src/hooks/useCart.tsx:25-33 | a store started from the slot right after a successful operation holds the same cart |

## Left out

- React context, state hook, JSX and the `useCart` hook (lines 1-24, 121-134): UI plumbing. The `cart` field stands for the state value.
- The HTTP requests (lines 37, 51, 95): their answers are parameters, and `None` stands for a failed request.
- The toast calls: the outcome is returned, and `Notification` names the message.
- JSON serialisation and the storage API: the slot is the field `stored` holding the list itself. An empty string in the slot counts as an empty slot, as line 28 treats it. A write to the slot is taken to succeed; a storage error after `setCart`, which would leave the cart changed and the slot stale, is not modelled.
- Concurrency: each operation runs as one atomic step. The lost increment of two overlapping `addProduct` calls for the same id is not modelled.
- In-place mutation of entries (`item.amount++`, `item.amount = amount`): modelled as building new entries. The lists that reach the state and the slot are the same, including line 115, which stores the old array whose entries were already updated.
- Numbers: ids, amounts and stock are integers. A fractional amount passed to `updateProductAmount` is not modelled. Prices are reals that nothing computes with.
- `src/types.ts`, which declares the product and stock records, is not part of this model; the entry fields are id, name, price, imageUrl and amount.
- CartState.CartStore.AddProduct: keeps the invariant only when the product endpoint answers with the id it was asked for, because the new entry takes its id from that answer.
