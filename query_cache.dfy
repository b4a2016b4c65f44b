/**
 * The query cache as the core uses it: a map from query key to cached
 * response, read with `getQueryData`, written with `setQueryData`, and
 * told to refetch (`invalidateQueries`), drop (`removeQueries`) or stop
 * fetching (`cancelQueries`) the entries a filter key selects.
 * Refetching, timers and garbage collection are not modelled; an
 * invalidation is recorded as the filter it was issued with.
 */
module QueryCache {
  import opened Wrappers
  import opened QueryKey

  /** A scalar field of a response record. */
  datatype Value = VNull | VBool(b: bool) | VNum(n: int) | VStr(s: string)

  /** A response record (a message, a conversation, a page, app info):
      field name to value, so that `{...r, f: v}` is `r[f := v]`. */
  type Record = map<string, Value>

  /** `{ total, page, limit }` of a list response. */
  datatype ListMeta = ListMeta(total: int, page: int, limit: int)

  /** A cached response: a list response `{ success, data: [...], meta }`
      or a single-record response `{ success, data: {...} }`. */
  datatype Entry =
    | ListEntry(success: bool, data: seq<Record>, meta: ListMeta)
    | RecordEntry(success: bool, record: Record)

  /** `!old?.success` in an updater: no entry, or an entry without success. */
  predicate NotSuccess(prev: Option<Entry>) {
    prev.None? || !prev.value.success
  }

  class Client {
    var entries: map<Key, Entry>
    /** Filters passed to `invalidateQueries`, in call order. */
    var invalidations: seq<Key>
    /** Filters passed to `cancelQueries`, in call order. */
    var cancellations: seq<Key>

    constructor ()
      ensures entries == map[] && invalidations == [] && cancellations == []
    {
      entries, invalidations, cancellations := map[], [], [];
    }

    /** `getQueryData(key)`: the cached value, `undefined` when absent. */
    function GetQueryData(key: Key): (r: Option<Entry>)
      reads this
      ensures r.Some? <==> key in entries
      ensures r.Some? ==> r.value == entries[key]
    {
      if key in entries then Some(entries[key]) else None
    }

    /** The entry is selected by some filter issued to `invalidateQueries`. */
    predicate IsInvalidated(key: Key)
      reads this
    {
      exists i :: 0 <= i < |invalidations| && IsPrefix(invalidations[i], key)
    }

    /** `setQueryData(key, value)`; an `undefined` value leaves the cache as it is. */
    method SetQueryData(key: Key, value: Option<Entry>)
      modifies this
      ensures value.Some? ==> entries == old(entries)[key := value.value]
      ensures value.None? ==> entries == old(entries)
      ensures invalidations == old(invalidations) && cancellations == old(cancellations)
    {
      if value.Some? {
        entries := entries[key := value.value];
      }
    }

    /** `setQueryData(key, updater)`: the updater sees the current value. */
    method UpdateQueryData(key: Key, updater: Option<Entry> -> Option<Entry>)
      modifies this
      ensures var n := updater(old(GetQueryData(key)));
        entries == if n.Some? then old(entries)[key := n.value] else old(entries)
      ensures invalidations == old(invalidations) && cancellations == old(cancellations)
    {
      var current := GetQueryData(key);
      SetQueryData(key, updater(current));
    }

    method InvalidateQueries(filter: Key)
      modifies this
      ensures invalidations == old(invalidations) + [filter]
      ensures entries == old(entries) && cancellations == old(cancellations)
    {
      invalidations := invalidations + [filter];
    }

    /** `removeQueries`: every entry the filter selects is dropped. */
    method RemoveQueries(filter: Key)
      modifies this
      ensures entries == map k | k in old(entries) && !IsPrefix(filter, k) :: old(entries)[k]
      ensures invalidations == old(invalidations) && cancellations == old(cancellations)
    {
      entries := map k | k in entries && !IsPrefix(filter, k) :: entries[k];
    }

    method CancelQueries(filter: Key)
      modifies this
      ensures cancellations == old(cancellations) + [filter]
      ensures entries == old(entries) && invalidations == old(invalidations)
    {
      cancellations := cancellations + [filter];
    }

    /** Runs a mutation's `onSuccess`: its removals, then its invalidations,
        in order (every `onSuccess` of the core removes before it invalidates). */
    method Apply(e: Effect)
      modifies this
      ensures entries == map k | k in old(entries) && !Removes(e, k) :: old(entries)[k]
      ensures invalidations == old(invalidations) + e.invalidated
      ensures cancellations == old(cancellations)
    {
      var i := 0;
      while i < |e.removed|
        invariant 0 <= i <= |e.removed|
        invariant entries == map k | k in old(entries) && !Removes(Effect(e.removed[..i], []), k) :: old(entries)[k]
        invariant invalidations == old(invalidations) && cancellations == old(cancellations)
      {
        RemoveQueries(e.removed[i]);
        assert e.removed[..i + 1] == e.removed[..i] + [e.removed[i]];
        i := i + 1;
      }
      assert e.removed[..i] == e.removed;
      var j := 0;
      while j < |e.invalidated|
        invariant 0 <= j <= |e.invalidated|
        invariant entries == map k | k in old(entries) && !Removes(e, k) :: old(entries)[k]
        invariant invalidations == old(invalidations) + e.invalidated[..j]
        invariant cancellations == old(cancellations)
      {
        InvalidateQueries(e.invalidated[j]);
        assert e.invalidated[..j + 1] == e.invalidated[..j] + [e.invalidated[j]];
        j := j + 1;
      }
      assert e.invalidated[..j] == e.invalidated;
    }
  }
}
