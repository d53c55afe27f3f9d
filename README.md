# create-fast-context: the per-Provider store, in Dafny

`createFastContext(initialState, options)` returns a `Provider` component and
two hooks, `useStore(selector)` and `useSetStore()`. Each mounted `Provider`
owns one store instance. The store holds a snapshot of the state and a `Set` of
subscriber callbacks. `set(update)` shallow-merges `update(current)` over the
snapshot and then calls every subscriber. `subscribe(cb)` registers a callback
and returns its remover. With `updateOnPropsChange`, the Provider's props are
merged back into the store whenever its props effect runs.

This project models that store and proves what it guarantees:

- `state.dfy` (module `StoreState`): the snapshot as `map<string, V>`. It holds
  the shallow merge `Spread` (`{...base, ...over}`) and its laws: the merge is
  right-biased, idempotent and does no deep merge. It also folds a sequence of
  writes, and proves that each key then holds the latest value written to it.
- `subscribers.dfy` (module `Subscribers`): the JavaScript `Set` of callbacks,
  as an insertion-ordered sequence without repetitions. It holds `add`/`delete`
  as `Insert`/`Remove` and one `forEach` fan-out as `Notify`. It proves that
  delete is idempotent and keeps the order of the other callbacks, that
  subscribing a callback not yet registered and then unsubscribing it
  restores the registry, and that a fan-out calls each registered callback
  exactly once, in order.
- `store.dfy` (module `FastContext`): the class `Store`, with fields `state`
  and `subs` and methods for `get`, `set`, `subscribe`, the remover and the
  props effect. It also models the two hooks over an explicit context handle
  `Option<Store>`, Provider mounting, sibling isolation, and two scenarios
  taken from the repository's tests.
- `results.dfy` (module `Results`): `Option` and `Result`.

Callbacks are identities (`CallbackId`). A `set` returns the calls it makes, in
order, as `Notice(callback, seen)`. `seen` is the snapshot the callback gets
when it calls `get()`, so the model can state that subscribers see the
post-update state. React's context lookup is the value `ctx: Option<Store>`:
`None` means no enclosing Provider.

Three behaviours of the code shape the model:

- `set` iterates the live `Set`, not a copy of it (src/index.tsx:43).
- Nothing happens on unmount, so a store has no torn-down state.
- The `[props]` effect (src/index.tsx:51-53) runs after every Provider
  render, including the first, because line 71 builds a new rest-props
  object each time. Children's effects run before their Provider's, so the
  readers below a Provider are subscribed when the effect first runs.
  `MountProvider` models that first commit: the effect merges the seed's own
  props again, which leaves the snapshot unchanged (`SpreadIdempotent`), and
  with props syncing on it calls every reader once.

Some functions are definitions that the lemmas about them state the
properties of, and have no row of their own: `StoreState.AfterWrites` (the
fold of `set` writes, characterised by `AfterWritesAt`),
`FastContext.AfterPropsChanges` (the fold of props effects, characterised by
`PropsChangesIgnored` and `PropsChangesAreWrites`), `Subscribers.Callees`
(the callbacks a list of calls reaches, used to state `NotifyExactlyOnce`)
and `Subscribers.NoDup` (the registry has no repeats).

## Model

| member | source | states |
|---|---|---|
| `StoreState.Spread` | src/index.tsx:39-42 | A write's merge: the keys are those of the old snapshot plus those of the update; every updated key takes the update's value; every other key keeps its old value. |
| `StoreState.SpreadIdempotent` | src/index.tsx:52 | Merging the same props twice equals merging them once. So the props effect's run right after seeding with those props leaves the snapshot as seeded. |
| `StoreState.NoDeepMerge` | src/__tests__/index.test.tsx:60-69 | A nested object in an update replaces the old nested object wholesale. A nested key that the update leaves out is dropped. |
| `StoreState.LastWrite` | src/index.tsx:38-42 | Finds the value of the latest write that mentions a key. It is `None` exactly when no write mentions the key; otherwise no later write mentions the key. |
| `StoreState.AfterWritesAt` | src/index.tsx:38-44 | After any sequence of `set` calls, a key is present iff it was present at the start or some write set it. It holds the latest written value, or its original value if no write mentioned it. |
| `Subscribers.Insert` | src/index.tsx:47 | `Set.add`: keeps the set free of repeats; adds exactly `cb` and keeps every other member. An already-present `cb` changes nothing; a new one goes last in iteration order. |
| `Subscribers.Remove` | src/index.tsx:48 | `Set.delete`: keeps the set free of repeats; removes exactly `cb` and keeps every other member; a missing `cb` changes nothing. |
| `Subscribers.RemoveConcat` | src/index.tsx:48 | Deleting from a registry made of two parts deletes from each part and keeps them in order, so deletion never reorders the remaining callbacks. |
| `Subscribers.RemoveSplit` | src/index.tsx:48 | In a registry without repeats, deleting a registered callback takes out exactly its entry; the callbacks before and after it stay, in order. |
| `Subscribers.RemoveIdempotent` | src/index.tsx:48 | Calling a remover a second time is a harmless no-op. |
| `Subscribers.RemoveInsertFresh` | src/index.tsx:46-49 | Subscribing a callback that was not registered and then calling its remover restores the exact registry, order included. |
| `Subscribers.RemoveInsertOthers` | src/index.tsx:46-49 | Subscribing and then unsubscribing one callback leaves every other callback's membership as it was. |
| `Subscribers.InsertAll` | src/index.tsx:47 | Adding callbacks one after another keeps the registry free of repeats; its members are the earlier ones plus the added ones. |
| `Subscribers.InsertAllDistinct` | src/index.tsx:47 | Adding distinct callbacks to an empty registry gives exactly those callbacks, in the order they subscribed. |
| `Subscribers.Notify` | src/index.tsx:43 | One `forEach` pass makes exactly one call per registered callback. |
| `Subscribers.NotifyAt` | src/index.tsx:43 | The i-th call of a fan-out goes to the i-th registered callback (insertion order), and every call sees the snapshot given to the fan-out. |
| `Subscribers.NotifyExactlyOnce` | src/index.tsx:43 | Over a registry without repeats, a fan-out calls each registered callback exactly once and calls no unregistered callback. |
| `FastContext.SyncsProps` | src/index.tsx:52 | The `options?.updateOnPropsChange` test: an absent flag or `false` leaves props syncing off, and `true` turns it on. |
| `FastContext.Seed` | src/index.tsx:32 | A new store's snapshot is `{...initialState, ...props}`: prop keys override initial keys, and the other initial keys are kept. |
| `FastContext.AfterPropsEffect` | src/index.tsx:51-53 | With props syncing off, the effect leaves the snapshot as it is. With it on, the props are shallow-merged over the current snapshot. |
| `FastContext.PropsChangesIgnored` | src/index.tsx:51-53 | With `updateOnPropsChange` false or absent, no sequence of props changes alters the snapshot after creation. |
| `FastContext.PropsChangesAreWrites` | src/index.tsx:51-53 | With `updateOnPropsChange` true, a sequence of props changes acts exactly like that sequence of `set` writes. |
| `FastContext.Store.constructor` | src/index.tsx:32-36 | A store starts with the seeded snapshot and an empty registry, and remembers whether its definition syncs props. |
| `FastContext.Store.Get` | src/index.tsx:34 | `get` returns the current snapshot and changes nothing. |
| `FastContext.Store.Set` | src/index.tsx:38-44 | `set(update)` stores the merge of the old snapshot with `update(old)` and leaves the registry unchanged. It then calls every registered callback once, in registration order, and each call sees the new snapshot. |
| `FastContext.Store.Subscribe` | src/index.tsx:46-49 | `subscribe(cb)` adds exactly `cb` to the registry, leaves the snapshot alone and returns a remover for `cb` that is bound to this store. |
| `FastContext.Store.Unsubscribe` | src/index.tsx:48 | A remover, called on the store that issued it, removes exactly its callback. It returns true iff the callback was registered, so a repeated call returns false and changes nothing. |
| `FastContext.Store.PropsEffect` | src/index.tsx:51-53 | With props syncing on, the effect merges the props over the current snapshot and notifies every subscriber with the new snapshot. With it off, the effect changes nothing and calls no subscriber. |
| `FastContext.UseStore` | src/index.tsx:79-92 | `useStore` fails with 'Store not found' exactly when no Provider encloses the caller. Otherwise it returns the selector applied to that store's current snapshot, paired with that same store's writer. |
| `FastContext.UseSetStore` | src/index.tsx:94-101 | `useSetStore` fails with 'Store not found' exactly when no Provider encloses the caller. Otherwise it returns that store's writer. |
| `FastContext.MountProvider` | src/index.tsx:71-77 | Mounting a Provider creates a new store seeded from its props, and the readers below it subscribe in order. The props effect then runs once with the same props. Afterwards the snapshot is still the seed, whatever the option. With syncing on, every reader is called once and sees the seed; with it off, no reader is called. |
| `FastContext.MountSiblings` | tests/multipleSiblings.test.tsx:19-45 | Sibling Providers from one definition each get their own distinct new store, seeded from their own props, whose registry holds only their own readers. So each subtree reads its own `project`. |
| `FastContext.SetOneSibling` | src/index.tsx:71-77 | A write through one sibling's store does what `set` does to that store: its snapshot becomes the merge, its registry is unchanged, and its own readers are called with the new snapshot. Every other sibling's snapshot and registry stay unchanged. |
| `FastContext.CounterScenario` | src/__tests__/counter.test.tsx:32-47 | A store made from `{count: 0}` reads 0. After an increment it reads 1, and its one subscriber was called once and saw `{count: 1}`. |
| `FastContext.PropsChangeScenario` | tests/propsChanged.test.tsx:14-35 | A Provider mounted with `state="1"` and then given `state="2"` shows "2" when props syncing is on, and still shows "1" when it is off. |

## Left out

- React machinery is not modelled. This covers `useRef` and `useCallback` identity stability, `useEffect` scheduling, and `createContext`/`useContext` propagation. Context lookup is the explicit `Option<Store>` handle, and when the props effect runs is up to the caller of `PropsEffect`.
- `useSyncExternalStore` is not modelled: tearing avoidance, the reference comparison of selector outputs and the re-render decisions belong to React, not to this code. `UseStore` models one read, `selector(get())`.
- Callbacks that re-enter the store during a fan-out are not modelled. Such a callback would call `set`, subscribe or unsubscribe while `Set.forEach` is still iterating the live set. A subscriber is an observer that reads `get()`, and the registry is fixed for the duration of one `set`.
- Unmounting is not modelled, because the code does nothing on teardown.
- Update functions are total functions from snapshot to partial snapshot. An update that throws is not modelled; in the code it would leave the snapshot unchanged and call no subscriber.
- JavaScript object details are not modelled: property order, `undefined` versus a missing key, inherited and non-enumerable properties. A snapshot is a map from property names to values.
- The `props &&` test in the props effect (src/index.tsx:52) is not modelled, because `Provider` always passes a rest-props object, which is truthy.
- `Subscribers.Notify`: its own contract states only the number of calls. Which callback each call reaches, and with what snapshot, is stated by `Subscribers.NotifyAt` and `Subscribers.NotifyExactlyOnce`.
