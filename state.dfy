/**
 * The store's snapshot and the shallow merge that every write performs.
 *
 * A snapshot is a JavaScript object seen as a map from property names to
 * values. `{...base, ...over}` copies the own keys of `base`, then those of
 * `over`, so a key present in both takes its value from `over`.
 */
module StoreState {

  import opened Results

  /** A state snapshot: top-level property name to value. */
  type State<V> = map<string, V>

  /**
   * Shallow merge `{...base, ...over}`: every key of `over` is overwritten
   * with its value from `over` (nested values are replaced wholesale), every
   * other key of `base` keeps its value, and no other key appears.
   */
  function Spread<V>(base: State<V>, over: State<V>): (r: State<V>)
    ensures r.Keys == base.Keys + over.Keys
    ensures forall k :: k in over ==> r[k] == over[k]
    ensures forall k :: k in base && k !in over ==> r[k] == base[k]
  {
    base + over
  }

  /** Merging the same partial state twice is the same as merging it once. */
  lemma SpreadIdempotent<V>(s: State<V>, p: State<V>)
    ensures Spread(Spread(s, p), p) == Spread(s, p)
  {
  }

  /**
   * No deep merge: when a write gives a key a nested object, the nested
   * object replaces the old one, and a nested key the write leaves out is
   * gone rather than carried over.
   */
  lemma NoDeepMerge<W>(s: State<map<string, W>>, p: State<map<string, W>>, k: string, j: string)
    requires k in s && k in p && j in s[k] && j !in p[k]
    ensures Spread(s, p)[k] == p[k]
    ensures j !in Spread(s, p)[k]
  {
  }

  /**
   * The snapshot after the writes `writes` (each already evaluated to the
   * partial state it returned) have been merged, in order, over `s`.
   */
  function AfterWrites<V>(s: State<V>, writes: seq<State<V>>): State<V>
    decreases |writes|
  {
    if writes == [] then s
    else Spread(AfterWrites(s, writes[..|writes| - 1]), writes[|writes| - 1])
  }

  /** The value the last write that mentions `k` gave it, if any write did. */
  function LastWrite<V>(writes: seq<State<V>>, k: string): (r: Option<V>)
    ensures r.None? <==> forall i :: 0 <= i < |writes| ==> k !in writes[i]
    ensures r.Some? ==> exists i :: 0 <= i < |writes| && k in writes[i] && writes[i][k] == r.value &&
                          forall j :: i < j < |writes| ==> k !in writes[j]
    decreases |writes|
  {
    if writes == [] then None
    else if k in writes[|writes| - 1] then Some(writes[|writes| - 1][k])
    else
      var r := LastWrite(writes[..|writes| - 1], k);
      assert forall i :: 0 <= i < |writes| - 1 ==> writes[..|writes| - 1][i] == writes[i];
      r
  }

  /**
   * After any sequence of writes, each key holds the value of the most
   * recent write that mentioned it, or its original value when none did;
   * a key is present exactly when it was present before or some write set it.
   */
  lemma {:induction false} AfterWritesAt<V>(s: State<V>, writes: seq<State<V>>, k: string)
    ensures k in AfterWrites(s, writes) <==> k in s || LastWrite(writes, k).Some?
    ensures LastWrite(writes, k).Some? ==> AfterWrites(s, writes)[k] == LastWrite(writes, k).value
    ensures LastWrite(writes, k).None? && k in s ==> AfterWrites(s, writes)[k] == s[k]
    decreases |writes|
  {
    if writes != [] {
      AfterWritesAt(s, writes[..|writes| - 1], k);
    }
  }
}
