# cacheMachine store, modelled in Dafny

cacheMachine is an in-process generic key/value cache written in Go. A
`Cache[TKey, TValue]` keeps its entries in a Go map `data` and counts them in a
separate integer field `counter`. Every public call (`Add`, `AddBulk`, `Remove`,
`RemoveBulk`, `Get`, `GetBulk`, `GetAll`, `Exist`, `Count`, `Reset`) sends a
message over a channel to a single goroutine, which runs one private
operation. The store is therefore sequential, and each public call is one
atomic call of a private operation. Most public calls run the private
operation of the same name. The public `Add` and `Remove` are the exceptions:
they send a one-pair map or a one-key slice, so the goroutine runs `addBulk`
or `removeBulk` on it. `PublicAdd` and `PublicRemove` model that route and
prove that it has the effect of `add` and `remove`.

This project models those private operations:

- `cache_machine.dfy`, module `CacheMachine`: class `Cache<K, V>` with the
  fields `data: map<K, V>` and `counter: int`, and a constant `zero: V`. The
  invariant `Valid()` is `counter == |data|`, the invariant the Go code keeps by
  hand. Mutating operations are methods with `modifies this`. Each one proves
  that `Valid()` is preserved and states the new map and counter in terms of
  the old ones. `get`, `exist` and `count` are pure reads and are functions.
  `getBulk` and `getAll` fill a fresh map in a loop and are methods that
  change nothing.
- `scenarios.dfy`, module `CacheScenarios`: client programs that replay the
  package's tests (ten adds, then count, lookup, remove, bulk remove, reset)
  and the bulk-insert/`getAll` round trip. They use only the contracts of
  `Cache`.

Modelling choices:

- Go gives a missing key the value type's zero value. Dafny cannot name that
  value for a generic type, so it is the constant `zero`, fixed when the cache
  is created.
- Go distinguishes a nil map or slice from an empty one. Every operation here
  treats both the same way (an early return or a loop with nothing to do), so
  nil is represented by the empty map or sequence.
- Go iterates over a map in an unspecified order. `addBulk` and `getAll` are
  modelled as loops that pick any remaining key of the map. Their contracts
  hold for every order.
- A key is any type with decidable equality (`K(==)`).
- Dafny maps are values, so the result of `getAll` is a copy by construction.
  Later changes to the store cannot reach it.

## Model

| member | source | states |
|---|---|---|
| `CacheMachine.Cache.constructor` | cacheMachine.go:224-241 | `New` yields an empty map and a zero counter, so the counting invariant holds from the start |
| `CacheMachine.Cache.Add` | cacheMachine.go:35-41 | afterwards the key maps to the new value and every other key is unchanged; the counter rises by one exactly when the key was absent, so the counter equal to the number of stored keys is preserved |
| `CacheMachine.Cache.AddBulk` | cacheMachine.go:44-52 | the new map is the old one overridden by the batch: every pair of the batch is readable, keys outside it keep their presence and values; the counter grows by the number of keys that were new, so the invariant is preserved |
| `CacheMachine.Cache.Remove` | cacheMachine.go:55-64 | deletes exactly the given key; the counter drops by one only if the key was present, and an absent key leaves map and counter unchanged; afterwards the key reads as the zero value |
| `CacheMachine.Cache.RemoveBulk` | cacheMachine.go:67-76 | the new map is the old one without every listed key; unlisted keys keep their presence and values; the counter drops by the number of distinct listed keys that were present, so duplicates never over-decrement; an empty slice is a no-op |
| `CacheMachine.RemovedSize` | cacheMachine.go:67-76 | removing a set of keys shrinks a map by exactly the number of those keys it held, which is why skipping absent keys keeps the counter exact |
| `CacheMachine.Cache.PublicAdd` | cacheMachine.go:131-133 | the public `Add`, run as `addBulk` of the one-pair map, leaves the same map and counter as the private `add`: the key maps to the new value and the counter rises exactly when the key was new |
| `CacheMachine.Cache.PublicRemove` | cacheMachine.go:141-143 | the public `Remove`, run as `removeBulk` of the one-key slice, leaves the same map and counter as the private `remove`: exactly that key is gone and the counter drops only if it was present |
| `CacheMachine.Cache.Get` | cacheMachine.go:79-81 | returns the stored value for a present key and the zero value for a missing one |
| `CacheMachine.Cache.GetBulk` | cacheMachine.go:84-96 | returns a map whose keys are exactly the requested keys (none for an empty slice), each mapped to what `Get` returns for it; the store is not changed |
| `CacheMachine.Cache.GetAll` | cacheMachine.go:99-107 | returns a map with the same keys and values as the store, whose size is `Count()`; the store is not changed |
| `CacheMachine.Cache.Exist` | cacheMachine.go:110-113 | true exactly when the key is stored, in which case `Get` returns the stored value |
| `CacheMachine.Cache.Count` | cacheMachine.go:116-118 | under the invariant the returned counter is the number of stored keys, and it is zero exactly when the store is empty |
| `CacheMachine.Cache.Reset` | cacheMachine.go:121-124 | afterwards the map is empty, the counter is zero (re-establishing the invariant), and every key is absent and reads as the zero value |
| `CacheScenarios.IdentityContents` | cachemachine_test.go:10-18 | the contents stored by `initializeFullCache(n)` are exactly the keys `0 .. n-1`, each mapped to itself, and there are `n` of them |
| `CacheScenarios.InitializeFullCache` | cachemachine_test.go:10-18 | `n` single adds of `i -> i` into a new cache produce exactly those contents and keep the invariant |
| `CacheScenarios.FullCacheScenario` | cachemachine_test.go:52-95 | after ten adds, `Count` is 10, `GetAll` has 10 pairs, `Get(5)` is 5 and `Exist(5)` holds |
| `CacheScenarios.AddBulkRoundTrip` | cachemachine_test.go:32-50 | `getAll` right after `addBulk(m)` on a new cache returns `m`, and the count is the size of `m` |
| `CacheScenarios.RemoveScenario` | cachemachine_test.go:97-107 | removing key 5 out of ten makes it absent and leaves a count of 9 |
| `CacheScenarios.RemoveTwice` | cacheMachine.go:55-64 | removing a key twice leaves the same map and counter as removing it once |
| `CacheScenarios.GetBulkScenario` | cachemachine_test.go:109-120 | looking up keys 2, 4 and 6 of a ten-entry cache returns exactly those three pairs |
| `CacheScenarios.RemoveBulkScenario` | cachemachine_test.go:196-207 | removing the five even keys from a ten-entry cache leaves a count of 5 |
| `CacheScenarios.ResetScenario` | cachemachine_test.go:122-132 | after a reset of a full cache the count is 0 and `GetAll` is empty |

## Left out

- Channel plumbing: the public wrappers (cacheMachine.go:131-183), the
  `cacheManager` goroutine and its `select` loop (cacheMachine.go:188-221), and
  the channel fields (cacheMachine.go:15-27). They serialise the calls, and each
  public call is modelled as one atomic call of the private operation it
  forwards to.
- The write calls are asynchronous and share their argument. The channels are
  unbuffered, so `Add`, `AddBulk`, `Remove`, `RemoveBulk` and `Reset` return as
  soon as the goroutine receives the message, before the operation has run. The
  caller's map or slice reaches the goroutine without a copy. A caller that
  changes it after the call races with the `addBulk` or `removeBulk` loop over
  it, which in Go can be a fatal concurrent map write. The model treats the
  argument as a value fixed at the call, so it assumes the caller never changes
  it afterwards. It does not capture the early return or this aliasing.
- TTL timers, `Requirements`, `Copy`, `Merge`, `MergeAndReset`, `ForEach`,
  `GetAndRemove`, `GetAllAndRemove`, `GetRandomSamples` and entry handles:
  none is defined in cacheMachine.go. They appear only in the tests and
  benchmarks, which use a newer API. That newer API is not part of this model.
- `Get` returns only the value, as cacheMachine.go:79-81 does. The
  `(value, found)` pair that the tests use belongs to the newer API.
  `Exist` gives the presence flag.
- Float keys: `float32` and `float64` are allowed as keys by cacheMachine.go:6-8.
  NaN is never equal to itself, so such a key cannot be looked up again. The
  model assumes keys with ordinary equality.
- `counter` is a Go `int`. The model uses an unbounded integer. The counter
  never exceeds the number of entries a map can hold, so it never wraps.
- The benchmark harness (benchmarks/benchmarks_test.go) has no logic to model.
