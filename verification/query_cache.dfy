/**
 * The shared query-client table as the mutation hooks use it: cached values
 * under their keys with a stale flag, `invalidateQueries` marking every entry
 * under a key prefix stale in place, and a mutation that invalidates its fixed
 * filters only after its remote call succeeds.
 */
module QueryCache {
  import opened Common
  import opened Identity
  import opened Queries

  /** A cached value and whether an invalidation has marked it for refetching. */
  datatype Entry<V> = Entry(data: V, stale: bool)

  /** The table after one `invalidateQueries({ queryKey: filter })`. */
  function MarkStale<V>(entries: map<Key, Entry<V>>, filter: Key): (e: map<Key, Entry<V>>)
    ensures e.Keys == entries.Keys
    ensures forall k :: k in e ==> e[k] == Entry(entries[k].data, entries[k].stale || Matches(filter, k))
  {
    map k | k in entries :: Entry(entries[k].data, entries[k].stale || Matches(filter, k))
  }

  /** The table after invalidating each filter of `filters` in turn. */
  function InvalidateAll<V>(entries: map<Key, Entry<V>>, filters: seq<Key>): (e: map<Key, Entry<V>>)
    ensures e.Keys == entries.Keys
  {
    if filters == [] then entries
    else MarkStale(InvalidateAll(entries, filters[..|filters| - 1]), filters[|filters| - 1])
  }

  /** Some filter of `filters` reaches `k`. */
  predicate AnyMatches(filters: seq<Key>, k: Key) {
    exists i :: 0 <= i < |filters| && Matches(filters[i], k)
  }

  /**
   * Invalidating a list of filters keeps every key and every cached value and
   * marks stale exactly the entries some filter reaches; the rest keep their flag.
   */
  lemma {:induction false} InvalidateAllMeaning<V>(entries: map<Key, Entry<V>>, filters: seq<Key>, k: Key)
    ensures k in InvalidateAll(entries, filters) <==> k in entries
    ensures k in entries ==>
      InvalidateAll(entries, filters)[k] == Entry(entries[k].data, entries[k].stale || AnyMatches(filters, k))
  {
    if filters != [] {
      var init, last := filters[..|filters| - 1], filters[|filters| - 1];
      InvalidateAllMeaning(entries, init, k);
      if AnyMatches(filters, k) && !Matches(last, k) {
        var i :| 0 <= i < |filters| && Matches(filters[i], k);
        assert init[i] == filters[i];
      }
      if AnyMatches(init, k) {
        var i :| 0 <= i < |init| && Matches(init[i], k);
        assert filters[i] == init[i];
      }
    }
  }

  /**
   * After mutation `m` succeeds, the entry of every cached read keeps its value,
   * and is stale exactly when it was already stale or `m` refreshes that read;
   * no other entry appears or disappears.
   */
  lemma MutationMarksExactly<V>(entries: map<Key, Entry<V>>, m: Mutation, r: Read)
    ensures KeyOf(r) in InvalidateAll(entries, Invalidates(m)) <==> KeyOf(r) in entries
    ensures KeyOf(r) in entries ==>
      InvalidateAll(entries, Invalidates(m))[KeyOf(r)]
        == Entry(entries[KeyOf(r)].data, entries[KeyOf(r)].stale || Refreshes(m, r))
  {
    InvalidateAllMeaning(entries, Invalidates(m), KeyOf(r));
    InvalidationExact(m, r);
  }

  /**
   * A successful follow of `x` marks the cached followers of `x` and the cached
   * following list of the caller `self` for refetching.
   */
  lemma FollowMarksBothLists<V>(entries: map<Key, Entry<V>>, x: Principal, self: Principal)
    requires KeyOf(FollowersRead(Some(x))) in entries && KeyOf(FollowingRead(Some(self))) in entries
    ensures InvalidateAll(entries, Invalidates(Follow(x)))[KeyOf(FollowersRead(Some(x)))].stale
    ensures InvalidateAll(entries, Invalidates(Follow(x)))[KeyOf(FollowingRead(Some(self)))].stale
  {
    MutationMarksExactly(entries, Follow(x), FollowersRead(Some(x)));
    MutationMarksExactly(entries, Follow(x), FollowingRead(Some(self)));
  }

  /** The query client's table of cached reads. */
  class Cache<V> {
    var entries: map<Key, Entry<V>>

    constructor ()
      ensures entries == map[]
    {
      entries := map[];
    }

    /** A mounted, enabled read fetches when its entry is missing or has been invalidated. */
    predicate NeedsFetch(r: Read, actorPresent: bool, isFetching: bool)
      reads this
    {
      Enabled(r, actorPresent, isFetching) && (KeyOf(r) !in entries || entries[KeyOf(r)].stale)
    }

    /** A resolved `queryFn` stores its value, fresh, under the read's key. */
    method Settle(r: Read, value: V)
      modifies this
      ensures entries == old(entries)[KeyOf(r) := Entry(value, false)]
      ensures forall a: bool, f: bool :: !NeedsFetch(r, a, f)
    {
      entries := entries[KeyOf(r) := Entry(value, false)];
    }

    /** `invalidateQueries({ queryKey: filter })`: marks every entry under `filter` stale, nothing else. */
    method Invalidate(filter: Key)
      modifies this
      ensures entries.Keys == old(entries).Keys
      ensures forall k :: k in entries ==>
        entries[k].data == old(entries)[k].data &&
        (entries[k].stale <==> old(entries)[k].stale || Matches(filter, k))
      ensures entries == MarkStale(old(entries), filter)
    {
      entries := map k | k in entries :: Entry(entries[k].data, entries[k].stale || Matches(filter, k));
    }

    /**
     * `mutate(m)`: the `mutationFn` (which throws without an actor), then the
     * remote call, whose rejection `remoteError` carries; only when both succeed
     * does `onSuccess` invalidate the mutation's filters, one after another.
     */
    method Mutate(m: Mutation, actorPresent: bool, freshId: string, remoteError: Option<string>)
      returns (r: Result<WriteCall>)
      modifies this
      ensures r.Success? <==> actorPresent && remoteError.None?
      ensures !actorPresent ==> r == Failure(NotAuthenticated)
      ensures actorPresent && remoteError.Some? ==> r == Failure(remoteError.value)
      ensures r.Success? ==> r == MutationFn(m, actorPresent, freshId)
      ensures entries == if r.Success? then InvalidateAll(old(entries), Invalidates(m)) else old(entries)
    {
      r := MutationFn(m, actorPresent, freshId);
      if r.Failure? {
        return;
      }
      if remoteError.Some? {
        r := Failure(remoteError.value);
        return;
      }
      var filters := Invalidates(m);
      var i := 0;
      while i < |filters|
        invariant 0 <= i <= |filters|
        invariant entries == InvalidateAll(old(entries), filters[..i])
      {
        Invalidate(filters[i]);
        assert filters[..i + 1][..i] == filters[..i];
        i := i + 1;
      }
      assert filters[..i] == filters;
    }
  }
}
