/**
 * The store instance that `createFastContext` builds for each Provider
 * mount, and the two hooks that find it.
 *
 * React's context lookup is an explicit `Option<Store>` handle: `Some(s)`
 * when a Provider encloses the caller, `None` otherwise. A subscriber
 * callback is an identity; the store reports which callbacks a write calls,
 * in order, each with the snapshot it reads through `get()`.
 */
module FastContext {

  import opened Results
  import opened StoreState
  import opened Subscribers

  /** The options object passed to `createFastContext`; an absent flag is `None`. */
  datatype StoreOptions = StoreOptions(updateOnPropsChange: Option<bool>)

  /**
   * `options?.updateOnPropsChange` as a condition: an absent flag and an
   * explicit `false` both leave props syncing off; only `true` turns it on.
   */
  function SyncsProps(options: StoreOptions): (on: bool)
    ensures options.updateOnPropsChange == None ==> !on
    ensures options.updateOnPropsChange == Some(false) ==> !on
    ensures options.updateOnPropsChange == Some(true) ==> on
  {
    options.updateOnPropsChange == Some(true)
  }

  /** What one `createFastContext(initialState, options)` call fixes for all its Providers. */
  datatype Definition<V> = Definition(initialState: State<V>, options: StoreOptions)

  /** The error `useStore` and `useSetStore` throw outside any Provider: 'Store not found'. */
  datatype StoreError = StoreNotFound

  /** The snapshot a new store starts from: `{...initialState, ...props}`. */
  function Seed<V>(def: Definition<V>, props: State<V>): (r: State<V>)
    ensures forall k :: k in r <==> k in def.initialState || k in props
    ensures forall k :: k in props ==> r[k] == props[k]
    ensures forall k :: k in def.initialState && k !in props ==> r[k] == def.initialState[k]
  {
    Spread(def.initialState, props)
  }

  /** The snapshot after the props effect has run once with `props` over `s`. */
  function AfterPropsEffect<V>(syncProps: bool, s: State<V>, props: State<V>): (r: State<V>)
    ensures !syncProps ==> r == s
    ensures syncProps ==> forall k :: k in r <==> k in s || k in props
    ensures syncProps ==> forall k :: k in props ==> r[k] == props[k]
    ensures syncProps ==> forall k :: k in s && k !in props ==> r[k] == s[k]
  {
    if syncProps then Spread(s, props) else s
  }

  /** The snapshot after the props effect has run for each props object in `changes`, in order. */
  function AfterPropsChanges<V>(syncProps: bool, s: State<V>, changes: seq<State<V>>): State<V>
    decreases |changes|
  {
    if changes == [] then s
    else AfterPropsEffect(syncProps, AfterPropsChanges(syncProps, s, changes[..|changes| - 1]), changes[|changes| - 1])
  }

  /** With props syncing off, no sequence of props changes alters the snapshot after creation. */
  lemma {:induction false} PropsChangesIgnored<V>(s: State<V>, changes: seq<State<V>>)
    ensures AfterPropsChanges(false, s, changes) == s
    decreases |changes|
  {
    if changes != [] {
      PropsChangesIgnored(s, changes[..|changes| - 1]);
    }
  }

  /**
   * With props syncing on, a sequence of props changes acts as that sequence
   * of writes: each key holds the value the latest props gave it, or its
   * previous value when no props mentioned it.
   */
  lemma {:induction false} PropsChangesAreWrites<V>(s: State<V>, changes: seq<State<V>>)
    ensures AfterPropsChanges(true, s, changes) == AfterWrites(s, changes)
    decreases |changes|
  {
    if changes != [] {
      PropsChangesAreWrites(s, changes[..|changes| - 1]);
    }
  }

  /**
   * The store one Provider mount owns (`useStoreData`): the current snapshot
   * and the registry of subscriber callbacks.
   */
  class Store<V> {
    /** Whether this store's definition asked for props to be synced after creation. */
    const syncProps: bool
    /** `store.current`: the current snapshot. */
    var state: State<V>
    /** `subscribers.current`: the registered callbacks, in insertion order. */
    var subs: seq<CallbackId>

    /** The registry is a set: no callback is registered twice. */
    ghost predicate Valid()
      reads this
    {
      NoDup(subs)
    }

    /** A Provider mount creates its store seeded from the definition and the Provider's props. */
    constructor (def: Definition<V>, props: State<V>)
      ensures Valid()
      ensures state == Seed(def, props)
      ensures subs == []
      ensures syncProps == SyncsProps(def.options)
    {
      syncProps := SyncsProps(def.options);
      state := Seed(def, props);
      subs := [];
    }

    /** `get`: the current snapshot; it changes nothing. */
    method Get() returns (s: State<V>)
      ensures s == state
    {
      s := state;
    }

    /**
     * `set(update)`: stores `{...state, ...update(state)}` and then calls each
     * registered callback once, in registration order. Every call reads the
     * new snapshot. The registry does not change.
     */
    method Set(update: State<V> -> State<V>) returns (calls: seq<Notice<State<V>>>)
      requires Valid()
      modifies this`state
      ensures Valid()
      ensures state == Spread(old(state), update(old(state)))
      ensures calls == Notify(subs, state)
    {
      state := Spread(state, update(state));
      calls := [];
      var i := 0;
      while i < |subs|
        invariant 0 <= i <= |subs|
        invariant calls == Notify(subs[..i], state)
      {
        assert subs[..i + 1][..i] == subs[..i];
        calls := calls + [Notice(subs[i], state)];
        i := i + 1;
      }
      assert subs[..i] == subs;
    }

    /**
     * `subscribe(callback)`: registers exactly `cb`, leaves the snapshot alone
     * and hands back the remover for `cb`.
     */
    method Subscribe(cb: CallbackId) returns (remover: Remover<V>)
      requires Valid()
      modifies this`subs
      ensures Valid()
      ensures subs == Insert(old(subs), cb)
      ensures remover == Remover(this, cb)
    {
      subs := Insert(subs, cb);
      remover := Remover(this, cb);
    }

    /**
     * Calling a remover: `subscribers.current.delete(callback)` removes exactly
     * that callback and answers whether it was registered, so a second call is
     * a no-op answering false.
     */
    method Unsubscribe(remover: Remover<V>) returns (deleted: bool)
      requires Valid() && remover.store == this
      modifies this`subs
      ensures Valid()
      ensures subs == Remove(old(subs), remover.callback)
      ensures deleted <==> remover.callback in old(subs)
    {
      deleted := remover.callback in subs;
      subs := Remove(subs, remover.callback);
    }

    /**
     * The Provider's props effect: with props syncing on, `set(() => props)`,
     * which merges the props over the current snapshot and notifies every
     * subscriber; with it off, nothing happens.
     */
    method PropsEffect(props: State<V>) returns (calls: seq<Notice<State<V>>>)
      requires Valid()
      modifies this`state
      ensures Valid()
      ensures state == AfterPropsEffect(syncProps, old(state), props)
      ensures calls == if syncProps then Notify(subs, state) else []
    {
      if syncProps {
        calls := Set(_ => props);
      } else {
        calls := [];
      }
    }
  }

  /**
   * The function `subscribe` returns: it closes over the registry of the store
   * that made it and deletes the callback it was made for.
   */
  datatype Remover<V> = Remover(store: Store<V>, callback: CallbackId)

  /** What `useStore(selector)` returns: the selected slice and the store's `set`. */
  datatype Reading<V, T> = Reading(selected: T, setter: Store<V>)

  /**
   * `useStore(selector)`: outside a Provider it throws 'Store not found';
   * inside, it yields the selector applied to the store's current snapshot
   * together with that same store's writer.
   */
  function UseStore<V, T>(ctx: Option<Store<V>>, selector: State<V> -> T): (r: Result<Reading<V, T>, StoreError>)
    reads if ctx.Some? then {ctx.value} else {}
    ensures r.Failure? <==> ctx.None?
    ensures r.Failure? ==> r.error == StoreNotFound
    ensures r.Success? ==> r.value.selected == selector(ctx.value.state) && r.value.setter == ctx.value
  {
    match ctx
    case None => Failure(StoreNotFound)
    case Some(store) => Success(Reading(selector(store.state), store))
  }

  /** `useSetStore()`: the enclosing store's writer, or 'Store not found' outside a Provider. */
  function UseSetStore<V>(ctx: Option<Store<V>>): (r: Result<Store<V>, StoreError>)
    ensures r.Failure? <==> ctx.None?
    ensures r.Failure? ==> r.error == StoreNotFound
    ensures r.Success? ==> r.value == ctx.value
  {
    match ctx
    case None => Failure(StoreNotFound)
    case Some(store) => Success(store)
  }

  /**
   * A Provider's first commit: the store is seeded from its props; the
   * readers below it (`useStore` children, whose effects run before the
   * Provider's) subscribe `readers` in order; then the props effect runs
   * once with those same props. Whatever the option, the snapshot is still
   * the seed afterwards; with props syncing on, every reader is called once
   * and sees the seed.
   */
  method MountProvider<V>(def: Definition<V>, props: State<V>, readers: seq<CallbackId>)
    returns (store: Store<V>, calls: seq<Notice<State<V>>>)
    ensures fresh(store) && store.Valid()
    ensures store.state == Seed(def, props)
    ensures store.subs == InsertAll([], readers)
    ensures store.syncProps == SyncsProps(def.options)
    ensures calls == if SyncsProps(def.options) then Notify(store.subs, store.state) else []
  {
    store := new Store(def, props);
    var i := 0;
    while i < |readers|
      invariant 0 <= i <= |readers|
      invariant store.Valid() && store.state == Seed(def, props)
      invariant store.subs == InsertAll([], readers[..i])
      invariant store.syncProps == SyncsProps(def.options)
    {
      assert readers[..i + 1][..i] == readers[..i];
      var _ := store.Subscribe(readers[i]);
      i := i + 1;
    }
    assert readers[..i] == readers;
    calls := store.PropsEffect(props);
    SpreadIdempotent(def.initialState, props);
  }

  /** One Provider element among siblings: its props and the readers below it. */
  datatype Mount<V> = Mount(props: State<V>, readers: seq<CallbackId>)

  /**
   * Sibling Providers from one definition, each mounted with its own props
   * and readers: each gets a distinct new store seeded from its own props,
   * whose registry holds its own readers only.
   */
  method MountSiblings<V>(def: Definition<V>, mounts: seq<Mount<V>>) returns (stores: seq<Store<V>>)
    ensures |stores| == |mounts|
    ensures forall i :: 0 <= i < |stores| ==> fresh(stores[i]) && stores[i].Valid()
    ensures forall i :: 0 <= i < |stores| ==> stores[i].state == Seed(def, mounts[i].props)
    ensures forall i :: 0 <= i < |stores| ==> stores[i].subs == InsertAll([], mounts[i].readers)
    ensures forall i, j :: 0 <= i < j < |stores| ==> stores[i] != stores[j]
  {
    stores := [];
    var i := 0;
    while i < |mounts|
      invariant 0 <= i <= |mounts|
      invariant |stores| == i
      invariant forall m :: 0 <= m < i ==> fresh(stores[m]) && MountedFrom(stores[m], def, mounts[m])
      invariant forall m, n :: 0 <= m < n < i ==> stores[m] != stores[n]
    {
      var store, _ := MountProvider(def, mounts[i].props, mounts[i].readers);
      stores := stores + [store];
      i := i + 1;
    }
  }

  /** `store` is what mounting `mount` from `def` produced. */
  ghost predicate MountedFrom<V>(store: Store<V>, def: Definition<V>, mount: Mount<V>)
    reads store
  {
    store.Valid() && store.state == Seed(def, mount.props) && store.subs == InsertAll([], mount.readers)
  }

  /**
   * A write through one sibling's store changes only that store: every other
   * sibling keeps its snapshot and its registry.
   */
  method SetOneSibling<V>(stores: seq<Store<V>>, j: nat, update: State<V> -> State<V>)
    returns (calls: seq<Notice<State<V>>>)
    requires j < |stores| && stores[j].Valid()
    requires forall m, n :: 0 <= m < n < |stores| ==> stores[m] != stores[n]
    modifies stores[j]
    ensures stores[j].Valid() && stores[j].subs == old(stores[j].subs)
    ensures stores[j].state == Spread(old(stores[j].state), update(old(stores[j].state)))
    ensures calls == Notify(stores[j].subs, stores[j].state)
    ensures forall m :: 0 <= m < |stores| && m != j ==>
              stores[m].state == old(stores[m].state) && stores[m].subs == old(stores[m].subs)
  {
    calls := stores[j].Set(update);
  }

  /**
   * The counter test: a store made from `{count: 0}` with one subscriber reads
   * 0; after `set(prev => ({count: prev.count + 1}))` the subscriber has been
   * called once, seeing 1, and a read gives 1.
   */
  method CounterScenario(cb: CallbackId) returns (before: int, after: int, calls: seq<Notice<State<int>>>)
    ensures before == 0 && after == 1
    ensures calls == [Notice(cb, map["count" := 1])]
  {
    var def := Definition(map["count" := 0], StoreOptions(None));
    var store := new Store(def, map[]);
    var _ := store.Subscribe(cb);
    var s := store.Get();
    before := s["count"];
    calls := store.Set(prev => if "count" in prev then map["count" := prev["count"] + 1] else map[]);
    s := store.Get();
    after := s["count"];
    assert s == map["count" := 1];
    assert Notify([cb], s) == Notify([], s) + [Notice(cb, s)];
  }

  /**
   * The props-change test: a Provider fed `state="1"` that is re-rendered
   * with `state="2"` shows "2" when its definition syncs props and keeps "1"
   * when it does not.
   */
  method PropsChangeScenario(sync: bool) returns (shown: string)
    ensures shown == if sync then "2" else "1"
  {
    var def := if sync then Definition(map["state" := ""], StoreOptions(Some(true)))
               else Definition(map[], StoreOptions(None));
    var store, _ := MountProvider(def, map["state" := "1"], []);
    var _ := store.PropsEffect(map["state" := "2"]);
    var s := store.Get();
    assert "state" in s && s["state"] == if sync then "2" else "1";
    shown := s["state"];
  }
}
