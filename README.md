# Polygon buffers and batch strategies in Dafny

Polygon simulates a production line. Parts move through buffers, and
stations take them out and put them back in batches. This project models
the line's buffer layer and batch-transfer layer as sequential data
structures with guards, and proves what those layers promise.

The layers are:

- `BufferStore`: a FIFO queue of parts. Its capacity is optional, and no
  capacity means unbounded.
- `BufferContainer`: a numeric level between 0 and an optional capacity.
- `StoreBatchStrategies` and `ContainerBatchStrategies`: these move a
  batch between a caller and one buffer.
- The pydantic configuration records `BufferConfig` and `PartConfig`,
  with their defaults and field constraints.

In the source, a get or a put that cannot proceed suspends the calling
simpy process until it can. In the model, such a step completes only when
it is enabled: a store put needs room, a store get needs an item, and a
container step needs enough level or room. A step that is not enabled
reports `Blocked` (or `done == false`, or `None`) and changes nothing.

A store batch runs its single-item steps one after another. When one of
those steps blocks, the batch comes back `Pending` with what has already
moved, and those items stay moved. This is the partial drain of a batch
get: the items already taken are out of the buffer while the batch waits.
The `Resume…` methods continue such a batch the way the Python generator
resumes.

Files:

- `common.dfy` (module `Common`): `Option`, `Result`, the errors, and
  `Capacity`, which is `Unbounded` or `Finite(limit)`.
- `validators.dfy` (module `Validators`): the configuration records and
  their validity predicates.
- `buffer.dfy` (module `Buffer`): the `BufferStore` and `BufferContainer`
  classes and the container's construction.
- `strategies.dfy` (module `Strategies`): the specification functions
  `StoreGetSpec`, `StorePutSpec`, `ContainerGetSpec` and
  `ContainerPutSpec`, the lemmas about them, and the two strategy classes.
  Each strategy method is proved equal to its specification function.

The model follows the code:

- The store batch get issues its gets one after another, in a `for`
  loop (src/polygon/models/strategies.py:42-45).
- The container batch put sums a list of quantities
  (src/polygon/models/strategies.py:88-90).
- Both strategies take the buffer as an argument on every call.
- The container's get does not return the amount it took, because simpy
  completes a container get with no value. The strategy returns `count`
  itself.

## Model

| member | source | states |
|---|---|---|
| `Common.CapacityOf` | src/polygon/models/buffer.py:41-42 | A configured capacity of `None` gives an unbounded buffer, which admits every size. Any other configured value is exactly the bound. |
| `Validators.BufferConfigErrors` | src/polygon/utils/validators.py:6-14 | Lists the failing fields in declaration order. Each of name, capacity and init is listed exactly when its constraint fails, and the list is empty exactly when the config is valid. |
| `Validators.MakeBufferConfig` | src/polygon/utils/validators.py:12-14 | A BufferConfig is built exactly when the name has length 3 to 50, the capacity is absent or > 0, and init is >= 0. The result is the record unchanged. Otherwise it is a validation error with at least one field. |
| `Validators.MakePartConfig` | src/polygon/utils/validators.py:17-18 | A PartConfig is built exactly when its name has length 3 to 50. Otherwise the validation error names the name field. |
| `Validators.DefaultBufferConfig` | src/polygon/utils/validators.py:6-14 | A BufferConfig given only an id and a name has no capacity (so it is unbounded), init 0 and empty metadata. It is valid exactly when its name is. |
| `Validators.DefaultPartConfig` | src/polygon/utils/validators.py:6-18 | A PartConfig given only an id and a name has an empty path and empty metadata. It is valid exactly when its name is. |
| `Buffer.BufferStore.constructor` | src/polygon/models/buffer.py:35-42 | A new store is empty and keeps its config. Its capacity is the configured one, or unbounded when none is configured. |
| `Buffer.BufferStore.PutItem` | src/polygon/models/buffer.py:51-55 | The put completes exactly when the store is below capacity, and then appends the item at the back. Otherwise nothing changes. The size never exceeds the capacity. |
| `Buffer.BufferStore.GetItem` | src/polygon/models/buffer.py:44-49 | The get completes exactly when the store is non-empty. It returns the oldest item and removes exactly that item. Otherwise nothing changes. |
| `Buffer.BufferStore.GetBufferLevel` | src/polygon/models/buffer.py:57-59 | Returns the number of held items and changes nothing. |
| `Buffer.BufferStore.GetItemsList` | src/polygon/models/buffer.py:61-63 | Returns the held items in queue order and changes nothing, since the result is a copy. |
| `Buffer.NewContainer` | src/polygon/models/buffer.py:83 | simpy's Container construction succeeds exactly when the capacity is positive or infinite, the initial level is >= 0, and the initial level fits the capacity. It then starts at that level, within its bounds. |
| `Buffer.ContainerSetupAsWritten` | src/polygon/models/buffer.py:82-83 | As written, any container it does build has capacity equal to the configured init and level equal to the configured capacity. |
| `Buffer.ContainerSetup` | src/polygon/models/buffer.py:82-83 | The intended setup. For a valid config it succeeds exactly when init fits the capacity, and otherwise fails with the init-above-capacity error. The container starts at level init under the configured capacity. |
| `Buffer.AsWrittenRejectsDefaultInit` | src/polygon/models/buffer.py:82-83 | As written, every config that keeps the default init of 0 fails with simpy's capacity error. |
| `Buffer.AsWrittenRejectsCapacity15Init0` | src/polygon/models/buffer.py:82-83 | Capacity 15 with init 0 fails as written. The intended setup builds a container of capacity 15 at level 0. |
| `Buffer.AsWrittenSwapsInitAndCapacity` | src/polygon/models/buffer.py:82-83 | When the setup as written succeeds, init is positive and a capacity is configured. The result matches the intended setup only when the two numbers are equal. |
| `Buffer.BufferContainer.constructor` | src/polygon/models/buffer.py:76-83 | Builds the container of the intended setup (`ContainerSetup`), not the one the positional call at line 83 builds. A new container starts at level init under the configured capacity and satisfies `0 <= level <= capacity`. |
| `Buffer.BufferContainer.Create` | src/polygon/models/buffer.py:76-83 | Construction succeeds exactly when the intended setup does, and otherwise returns its error. A new container is at level init under the configured capacity. |
| `Buffer.BufferContainer.GetItem` | src/polygon/models/buffer.py:85-89 | A count <= 0 fails with an invalid-quantity error. Otherwise the get completes exactly when level >= count and lowers the level by exactly count. If it does not complete, the level is unchanged. The invariant `0 <= level <= capacity` holds. |
| `Buffer.BufferContainer.PutItem` | src/polygon/models/buffer.py:91-94 | A count <= 0 fails with an invalid-quantity error. Otherwise the put completes exactly when level + count fits the capacity and raises the level by exactly count, with no partial grant. If it does not complete, the level is unchanged. |
| `Buffer.BufferContainer.GetBufferLevel` | src/polygon/models/buffer.py:96-98 | Returns the current level and changes nothing. |
| `Common.Capacity.Accepts` | src/polygon/models/buffer.py:51-53 | Of `want` single-item puts into a store holding `size` items, the number accepted before it is full: at most `want`, within capacity, and when fewer than `want` one more would overflow. |
| `Strategies.ResolveCount` | src/polygon/models/strategies.py:35-36 | No contract; an omitted count takes the batch size. Characterised by `StoreGetDefaultIsSingle` and by the rejection clauses of `StoreGetSpec`. |
| `Strategies.Gather` | src/polygon/models/strategies.py:41-48 | The get loop loses and reorders nothing: the items taken followed by what is left equal the items taken before plus the store. It stops short of the count only on an empty store. Characterised fully by `GatherTakesOldest`. |
| `Strategies.StoreGetOutcome` | src/polygon/models/strategies.py:41-50 | A resumed batch is never rejected. When complete, what it took followed by what is left equals what it held plus the store. When pending, it holds everything and the store is empty. |
| `Strategies.StoreGetSpec` | src/polygon/models/strategies.py:33-50 | Rejected with an invalid-quantity error exactly when the resolved count is <= 0, leaving the store unchanged. A complete batch has exactly count items and, followed by what is left, equals the old store. A pending batch holds the whole old store and leaves it empty. |
| `Strategies.Place` | src/polygon/models/strategies.py:57-59 | The put loop appends the list items it gets through, in list order, at the back of the store, and stops before the end of the list only on a full store. Characterised fully by `PlaceAppendsInOrder`. |
| `Strategies.StorePutOutcome` | src/polygon/models/strategies.py:57-62 | A resumed put batch is never rejected. When complete, the rest of the list is appended in order. When pending, a prefix of the list has gone through, its new part is appended, and the store is full. |
| `Strategies.StorePutSpec` | src/polygon/models/strategies.py:52-62 | Never rejected. When complete, the store's new tail is the list. When pending, a proper prefix of the list is the new tail and the store is full. |
| `Strategies.Sum` | src/polygon/models/strategies.py:88-90 | A list of non-negative quantities sums to a non-negative amount. Characterised further by `SumAppend` and `SumPositive`. |
| `Strategies.Total` | src/polygon/models/strategies.py:88-90 | No contract; a list is replaced by its sum and a scalar is kept. Characterised by `ContainerPutList`. |
| `Strategies.ContainerGetSpec` | src/polygon/models/strategies.py:71-84 | No contract; characterised by `ContainerGetIsAtomic`. |
| `Strategies.ContainerPutSpec` | src/polygon/models/strategies.py:86-99 | No contract; characterised by `ContainerPutIsAtomic` and `ContainerPutList`. |
| `Strategies.AsList` | src/polygon/models/strategies.py:54-55 | A single item becomes a one-element list, and a list is used as it is. |
| `Strategies.GatherTakesOldest` | src/polygon/models/strategies.py:41-48 | The sequential gets take the oldest items, as many as are still wanted or as the store has. The rest of the store is left in order. |
| `Strategies.StoreGetRejectsNonPositive` | src/polygon/models/strategies.py:35-39 | A resolved count <= 0 is rejected before any item is removed, and the store is unchanged. |
| `Strategies.StoreGetTakesPrefix` | src/polygon/models/strategies.py:41-50 | When the store holds at least count items, the batch returns exactly count items: the store's first count items in FIFO order. The store loses exactly that prefix. |
| `Strategies.StoreGetDrainsPartially` | src/polygon/models/strategies.py:41-48 | When the store holds fewer than count items, every held item is removed. The batch stays pending with them, and none goes back to the store. |
| `Strategies.StoreGetDefaultIsSingle` | src/polygon/models/strategies.py:30-36 | With the default batch size of 1 and no count, a batch get takes just the oldest item. |
| `Strategies.StoreGetResumeMatchesWhole` | src/polygon/models/strategies.py:41-48 | A batch that blocked and then resumed after more puts ends the same as a batch started with all those items present. The items come back in arrival order. |
| `Strategies.PlaceAppendsInOrder` | src/polygon/models/strategies.py:57-59 | The sequential puts append the next items of the list, in list order, as many as the capacity accepts. |
| `Strategies.StorePutAppendsList` | src/polygon/models/strategies.py:52-59 | When there is room for the whole list, the batch completes and the store's new tail is the list, in order. |
| `Strategies.StorePutStopsWhenFull` | src/polygon/models/strategies.py:57-62 | When there is not room, the part of the list that fits is appended and the store is full. The batch stays pending with that part. |
| `Strategies.StorePutEmptyAndSingle` | src/polygon/models/strategies.py:54-59 | An empty list changes nothing. A single item is put exactly as one store put would put it. |
| `Strategies.StorePutKeepsCapacity` | src/polygon/models/strategies.py:57-59 | A batch put never takes the store over its capacity. |
| `Strategies.StorePutThenGetIsFifo` | src/polygon/models/strategies.py:33-59 | Parts put in one batch into a store with room come back, in the order they were put, from a batch get of everything. They come after what was already there, and the store ends empty. |
| `Strategies.SumAppend` | src/polygon/models/strategies.py:88-90 | The sum of a list of quantities splits over concatenation. |
| `Strategies.SumPositive` | src/polygon/models/strategies.py:88-93 | A list of positive quantities sums to at least its length, and sums to more than 0 exactly when it is non-empty. |
| `Strategies.ContainerGetIsAtomic` | src/polygon/models/strategies.py:71-84 | A count <= 0 is rejected. Otherwise the batch completes exactly when level >= count. It then returns count and lowers the level by exactly count, in one step. Otherwise the level is unchanged and nothing was taken. The level stays within [0, capacity]. |
| `Strategies.ContainerPutIsAtomic` | src/polygon/models/strategies.py:86-99 | A quantity <= 0 is rejected. Otherwise the batch completes exactly when the quantity fits, and raises the level by exactly that quantity. Otherwise the level is unchanged. The level stays within [0, capacity]. |
| `Strategies.ContainerPutList` | src/polygon/models/strategies.py:88-93 | A list of positive quantities is rejected only when it is empty, because its sum is then 0. Otherwise it is put as a single amount, its sum. |
| `Strategies.StoreBatchStrategies.constructor` | src/polygon/models/strategies.py:30-31 | Keeps the batch size, which defaults to 1. |
| `Strategies.StoreBatchStrategies.GetBufferItems` | src/polygon/models/strategies.py:33-50 | The outcome and the store's new contents equal `StoreGetSpec` of the old contents. A count of `None` resolves to the batch size, and the store's capacity invariant is kept. |
| `Strategies.StoreBatchStrategies.ResumeGetBufferItems` | src/polygon/models/strategies.py:41-50 | The get loop, resumed with some items already taken, ends as `StoreGetOutcome` of the store's old contents describes. |
| `Strategies.StoreBatchStrategies.PutBufferItems` | src/polygon/models/strategies.py:52-62 | The outcome and the store's new contents equal `StorePutSpec` of the old contents. The capacity invariant is kept. |
| `Strategies.StoreBatchStrategies.ResumePutBufferItems` | src/polygon/models/strategies.py:57-62 | The put loop, resumed at a list index, ends as `StorePutOutcome` of the store's old contents describes. |
| `Strategies.ContainerBatchStrategies.constructor` | src/polygon/models/strategies.py:68-69 | Keeps the batch size, which defaults to 1. |
| `Strategies.ContainerBatchStrategies.GetBufferItems` | src/polygon/models/strategies.py:71-84 | The outcome and the new level equal `ContainerGetSpec` of the old level. This is a single container get of the resolved count, and a buffer error is passed on unchanged. |
| `Strategies.ContainerBatchStrategies.PutBufferItems` | src/polygon/models/strategies.py:86-99 | The outcome and the new level equal `ContainerPutSpec` of the old level. This is a single container put of the quantity, or of a list's sum, and a buffer error is passed on unchanged. |

## Left out

- simpy is not part of this model. The event queue, the clock,
  `env.now`, and the suspension of processes are not modelled. A step
  that would suspend is modelled as "not enabled, nothing changes".
- simpy's queues of pending gets and pending puts, which it serves in
  FIFO order, are not modelled. When several callers wait on one buffer,
  the model does not decide who is served first. A `Pending` batch is
  continued by the `Resume…` methods, on the assumption that no competing
  request takes the items first.
- `simpy.Interrupt` and the other asynchronous exceptions are not
  modelled. A simpy store get or put raises nothing else, so a store
  batch has no error path after validation. The `except …: raise`
  clauses, which re-raise unchanged, appear only in the container
  strategy: a `Failed(e)` status from the buffer becomes `Rejected(e)`.
- Logging and `__repr__` / `__str__` are not modelled.
- `int | float` quantities and capacities are modelled as `int`. Floats
  are not modelled, and neither is the `TypeError` that `range(count)`
  raises for a float count.
- UUID generation (`default_factory=uuid4`) is not modelled: ids are
  given. Metadata values of type `Any` are modelled as strings. An
  explicit `init=None` or `metadata=None`, which the `Optional`
  annotations admit, is not modelled: init is an integer that defaults to
  0, and metadata is a map that defaults to empty.
- `Buffer.BufferStore.constructor`: requires a valid configuration, as
  pydantic guarantees for every `BufferConfig`. simpy's own rejection of a
  non-positive store capacity therefore cannot arise and is not
  modelled.
- src/polygon/models/process.py, src/polygon/core/simulation.py and
  src/polygon/models/part.py are not part of this model. They hold the
  station loop, the scenario wiring and the part wrapper. A part is an
  opaque `Part(config)`.

## Findings

| source | as written | input that shows it | evidently intended | confidence | as-written member | corrected member |
|---|---|---|---|---|---|---|
| src/polygon/models/buffer.py:83 | `simpy.Container(self.env, self.buffer_config.init, capacity)` passes its arguments by position. simpy's signature is `Container(env, capacity, init)`, so the configured init becomes the capacity and the configured capacity (or infinity) becomes the initial level. | `BufferConfig(capacity=15, init=0)`: simpy gets capacity 0 and raises "capacity must be > 0". Every config that keeps the default `init=0` fails the same way. `capacity=None, init=5` fails because an infinite initial level exceeds capacity 5. | A container bounded by the configured capacity that starts at the configured init, as the comments and the field descriptions say. | High for the argument order of simpy's `Container`, which is not part of this model; not executed | `Buffer.ContainerSetupAsWritten`, exhibited by `Buffer.AsWrittenRejectsCapacity15Init0` | `Buffer.ContainerSetup`, used by `Buffer.BufferContainer.Create` |
