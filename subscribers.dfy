/**
 * The subscriber registry and the notification fan-out.
 *
 * The registry is a JavaScript `Set` of callbacks: membership is by callback
 * identity, adding a member twice keeps one copy, and `forEach` visits the
 * members in the order they were first added. It is modelled as a sequence
 * of callback identities without repetitions, in insertion order.
 */
module Subscribers {

  /** The identity of a subscriber callback (JavaScript compares functions by reference). */
  type CallbackId = nat

  /** No callback occurs twice in the registry. */
  predicate NoDup(subs: seq<CallbackId>)
  {
    forall i, j :: 0 <= i < j < |subs| ==> subs[i] != subs[j]
  }

  /**
   * `Set.prototype.add`: a callback not yet registered goes to the end of the
   * iteration order; adding one that is registered changes nothing.
   */
  function Insert(subs: seq<CallbackId>, cb: CallbackId): (r: seq<CallbackId>)
    ensures NoDup(subs) ==> NoDup(r)
    ensures cb in r
    ensures forall x :: x in r <==> x in subs || x == cb
    ensures cb in subs ==> r == subs
    ensures cb !in subs ==> r == subs + [cb]
  {
    if cb in subs then subs else subs + [cb]
  }

  /**
   * `Set.prototype.delete`: removes exactly `cb`, keeping the order of the
   * others; deleting a callback that is not registered changes nothing.
   */
  function Remove(subs: seq<CallbackId>, cb: CallbackId): (r: seq<CallbackId>)
    ensures NoDup(subs) ==> NoDup(r)
    ensures forall x :: x in r <==> x in subs && x != cb
    ensures cb !in subs ==> r == subs
    ensures |r| <= |subs|
    decreases |subs|
  {
    if subs == [] then []
    else
      var rest := Remove(subs[..|subs| - 1], cb);
      var last := subs[|subs| - 1];
      if last == cb then rest
      else
        assert NoDup(subs) ==> last !in subs[..|subs| - 1];
        rest + [last]
  }

  /** Deleting from a concatenation deletes from each part, so the order of what is left is kept. */
  lemma {:induction false} RemoveConcat(a: seq<CallbackId>, b: seq<CallbackId>, cb: CallbackId)
    ensures Remove(a + b, cb) == Remove(a, cb) + Remove(b, cb)
    decreases |b|
  {
    if b != [] {
      var init := b[..|b| - 1];
      assert (a + b)[..|a + b| - 1] == a + init;
      RemoveConcat(a, init, cb);
    } else {
      assert a + b == a;
    }
  }

  /**
   * In a registry without repeats, deleting a registered callback takes out
   * exactly its entry and leaves the callbacks before and after it in order.
   */
  lemma RemoveSplit(a: seq<CallbackId>, b: seq<CallbackId>, cb: CallbackId)
    requires cb !in a && cb !in b
    ensures Remove(a + [cb] + b, cb) == a + b
  {
    RemoveConcat(a + [cb], b, cb);
    RemoveConcat(a, [cb], cb);
  }

  /** Deleting a callback a second time is a harmless no-op. */
  lemma RemoveIdempotent(subs: seq<CallbackId>, cb: CallbackId)
    ensures Remove(Remove(subs, cb), cb) == Remove(subs, cb)
  {
  }

  /** Subscribing a new callback and then calling its remover restores the registry. */
  lemma RemoveInsertFresh(subs: seq<CallbackId>, cb: CallbackId)
    requires cb !in subs
    ensures Remove(Insert(subs, cb), cb) == subs
  {
  }

  /** Subscribing and unsubscribing one callback leaves every other membership as it was. */
  lemma RemoveInsertOthers(subs: seq<CallbackId>, cb: CallbackId, other: CallbackId)
    requires other != cb
    ensures other in Remove(Insert(subs, cb), cb) <==> other in subs
  {
  }

  /** The registry after `subs` has had `cbs` added to it one after another. */
  function InsertAll(subs: seq<CallbackId>, cbs: seq<CallbackId>): (r: seq<CallbackId>)
    ensures NoDup(subs) ==> NoDup(r)
    ensures forall x :: x in r <==> x in subs || x in cbs
    decreases |cbs|
  {
    if cbs == [] then subs
    else Insert(InsertAll(subs, cbs[..|cbs| - 1]), cbs[|cbs| - 1])
  }

  /** Adding distinct callbacks to an empty registry gives them in the order they were added. */
  lemma {:induction false} InsertAllDistinct(cbs: seq<CallbackId>)
    requires NoDup(cbs)
    ensures InsertAll([], cbs) == cbs
    decreases |cbs|
  {
    if cbs != [] {
      var init := cbs[..|cbs| - 1];
      InsertAllDistinct(init);
      assert cbs == init + [cbs[|cbs| - 1]];
    }
  }

  /** One call of a subscriber, with the snapshot it reads through `get()` while running. */
  datatype Notice<S> = Notice(callback: CallbackId, seen: S)

  /** The calls one `forEach` pass over `subs` makes while the snapshot is `snap`. */
  function Notify<S>(subs: seq<CallbackId>, snap: S): (r: seq<Notice<S>>)
    ensures |r| == |subs|
    decreases |subs|
  {
    if subs == [] then []
    else Notify(subs[..|subs| - 1], snap) + [Notice(subs[|subs| - 1], snap)]
  }

  /** The callbacks a list of calls reaches, in call order. */
  function Callees<S>(calls: seq<Notice<S>>): seq<CallbackId>
  {
    seq(|calls|, i requires 0 <= i < |calls| => calls[i].callback)
  }

  /**
   * A fan-out reaches the registered callbacks in registration order, and
   * every call reads the snapshot the fan-out was given.
   */
  lemma {:induction false} NotifyAt<S>(subs: seq<CallbackId>, snap: S, i: nat)
    requires i < |subs|
    ensures Notify(subs, snap)[i] == Notice(subs[i], snap)
    decreases |subs|
  {
    if i < |subs| - 1 {
      NotifyAt(subs[..|subs| - 1], snap, i);
    }
  }

  /**
   * Over a registry without repetitions, a fan-out calls every registered
   * callback exactly once and no other callback.
   */
  lemma {:induction false} NotifyExactlyOnce<S>(subs: seq<CallbackId>, snap: S, cb: CallbackId)
    requires NoDup(subs)
    ensures multiset(Callees(Notify(subs, snap)))[cb] == if cb in subs then 1 else 0
    decreases |subs|
  {
    if subs != [] {
      var init := subs[..|subs| - 1];
      var last := subs[|subs| - 1];
      NotifyExactlyOnce(init, snap, cb);
      assert subs == init + [last];
      assert Callees(Notify(subs, snap)) == Callees(Notify(init, snap)) + [last];
      assert last !in init;
    }
  }
}
