# Stock allocation model

A Dafny model of the stock-allocation rule of a small domain model
(`model.py`): order lines are allocated to batches of stock.

- An **order line** (`Model.Orderline`) is an immutable value: an order id, a
  SKU and a quantity. Equality is structural, so two lines with the same
  fields are the same member of a set.
- A **batch** (`Model.Batch`) is an entity. Its reference, SKU, purchased
  quantity and optional ETA are fixed. Its set of allocated order lines
  changes over its life. The fixed attributes are `const` fields, so
  `Allocate` and `Deallocate` cannot change them. A batch with no ETA is in
  stock now.
- A batch **admits** a line when the SKUs match and the available quantity
  (the purchased quantity less the summed quantities of the allocated lines)
  is at least the line's quantity. `Allocate` adds an admitted line.
  Otherwise it does nothing and signals no error. `Deallocate` removes a line
  if it is allocated, and otherwise does nothing.
- The priority order `GreaterThan` makes in-stock batches preferred. A batch
  with no ETA is never greater. A dated batch is greater than an undated one.
  Two dated batches compare by ETA.

The allocation rule is stated twice in the model:

- on values, by the ghost functions `Available`, `Admits`, `AfterAllocate`
  and `AfterDeallocate`, over a SKU, a purchased quantity and an allocation
  set. The lemmas about the rule are stated over these;
- on the `Batch` class, whose methods change `allocations` in place. Their
  `ensures` clauses tie the new set to those functions.

The allocated quantity is the ghost function `SumQty`, a recursive sum over a
finite set. Dafny cannot compile a choice from a set inside a function, so
the read-only queries (`AllocatedQuantity`, `AvailableQuantity`,
`CanAllocate`) are methods. `AllocatedQuantity` is a loop over the set, as
the source's `sum` over a generator is. Each query is proved equal to its
specification. The query methods have no `modifies` clause, so they change
no state.

The source's constructor calls `typing.Set()`, which Python refuses to
instantiate. The evident intent is an empty built-in set, so the model's
constructor starts from the empty set.

The priority order is a strict weak order (`GreaterThanIsStrictWeakOrder`).
It is irreflexive and transitive, and "neither is greater" is exactly "same
ETA or both undated" (`IncomparableIffSameEta`), which is transitive. So
two undated batches are tied, not a break in transitivity, and sorting by
this order is well defined.

Quantities are not validated by the source; neither are they in the model.
One consequence: deallocating a line with a negative quantity lowers the
available quantity, and can make it negative.

## Model

| member | source | states |
|---|---|---|
| `Model.SumQtyRemove` | model.py:53-54 | taking any allocated line out of a set lowers the summed quantity by exactly that line's quantity |
| `Model.SumQtyAdd` | model.py:53-54 | adding a line not yet in a set raises the summed quantity by exactly that line's quantity |
| `Model.Batch.constructor` | model.py:32-37 | the batch keeps the given reference, SKU, quantity and ETA; nothing is allocated, so the available quantity is the purchased quantity, and the SKU invariant holds |
| `Model.Batch.GreaterThan` | model.py:45-50 | a batch is greater only if it has an ETA; a dated batch is greater than an undated one |
| `Model.Batch.AllocatedQuantity` | model.py:52-54 | returns the sum of the quantities of the allocated lines |
| `Model.Batch.AvailableQuantity` | model.py:56-58 | returns the purchased quantity less the allocated quantity |
| `Model.Batch.CanAllocate` | model.py:60-61 | true exactly when the line's SKU is the batch's and the available quantity is at least the line's quantity; changes nothing |
| `Model.Batch.Allocate` | model.py:63-65 | adds the line exactly when it is admitted, else leaves the set as it was; keeps every allocated line on the batch's SKU; never makes a batch with non-negative availability negative; raises the allocated quantity by the line's quantity when a fresh line is admitted |
| `Model.Batch.Deallocate` | model.py:67-69 | removes the line if present, else leaves the set as it was; lowers the allocated quantity by the line's quantity when it was present; keeps the SKU invariant |
| `Model.AllocateRejectedIsNoOp` | model.py:63-65 | a line that is not admitted leaves the allocation set unchanged; an admitted one is added |
| `Model.AllocateIdempotent` | model.py:63-65 | allocating a value-equal line a second time gives the same set as allocating it once |
| `Model.AllocateAccounting` | model.py:53-65 | allocating a fresh line raises the allocated quantity by exactly its quantity when it is admitted and not at all otherwise; after an admitted allocation the available quantity is non-negative |
| `Model.AllocateKeepsAvailableNonNegative` | model.py:56-65 | if the available quantity is non-negative before an allocation, it still is afterwards |
| `Model.AllocateKeepsSkuGuard` | model.py:60-65 | allocation only ever adds lines of the batch's SKU |
| `Model.DeallocateAccounting` | model.py:53-54 | deallocating an absent line changes nothing; deallocating a present one removes it and lowers the allocated quantity by exactly its quantity |
| `Model.DeallocateThenAllocateRestores` | model.py:60-69 | deallocating a present line of the batch's SKU and allocating it again is admitted and restores the allocation set, and so the available quantity, when the batch was not oversold |
| `Model.AllocateThenDeallocateRestores` | model.py:63-69 | allocating a fresh line and then deallocating it restores the allocation set |
| `Model.DeallocateKeepsSkuGuard` | model.py:67-69 | deallocation keeps every allocated line on the batch's SKU |
| `Model.UndatedMutuallyNotGreater` | model.py:45-47 | of two undated batches neither is greater |
| `Model.DatedCompareByEta` | model.py:48-50 | of two dated batches one is greater exactly when its ETA is later |
| `Model.IncomparableIffSameEta` | model.py:45-50 | neither of two batches is greater exactly when their ETAs are equal or both absent |
| `Model.GreaterThanIsStrictWeakOrder` | model.py:45-50 | the order is irreflexive, asymmetric and transitive, and its incomparability is transitive |
| `Model.ScenarioAllocateTwoOfTwenty` | model.py:53-65 | a batch of twenty red chairs admits an order line for two; afterwards two are allocated and eighteen are available |
| `Model.ScenarioRejections` | model.py:60-65 | a red-chair batch rejects a blue-chair line and stays empty; a batch of two cannot take a line for twenty |

## Left out

- `Batch.__repr__` (model.py:39-40): display formatting only.
- `Batch.__hash__` (model.py:42-43): hashing on the reference. Dafny object identity plays this role, and the source defines no `__eq__`.
- `datetime.date`: an ETA is an integer day number (`Model.Date`). Only its `>` comparison is used.
- `snippet.py`: top-level asserts about unrelated value types and a `print`. It has no operations.
- Concurrency: the source is single-threaded, and so is the model.
- The constructor's `typing.Set()` call fails in Python with a type error. The model does not reproduce that failure: it starts from the empty set.
- `Model.Batch.Deallocate`: does not promise that the available quantity stays non-negative. With the unvalidated negative quantities the source accepts, it need not.
- `Model.DeallocateThenAllocateRestores`: requires the batch not to be oversold. An oversold batch, reachable only through negative quantities, rejects the re-allocation.
