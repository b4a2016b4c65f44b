/**
 * Query keys of the data-fetching cache and the rule by which a key passed
 * to `invalidateQueries`/`removeQueries` selects cached entries.
 *
 * A key is an array of parts. The cache library matches a filter key
 * against a cached key partially; for keys made of strings, numbers,
 * `undefined` and whole parameter objects this model takes that rule to be
 * "the filter is a prefix of the key" (`IsPrefix`). This is the model's
 * assumption about a library whose source is not part of this model.
 */
module QueryKey {

  /** One element of a key array. `Obj` is a parameter object, kept whole. */
  datatype KeyPart =
    | Str(s: string)
    | Num(n: int)
    | Obj(fields: seq<(string, string)>)
    | Undefined

  type Key = seq<KeyPart>

  /** `filter` selects `key`. */
  predicate IsPrefix(filter: Key, key: Key) {
    |filter| <= |key| && key[..|filter|] == filter
  }

  predicate IsProperPrefix(filter: Key, key: Key) {
    IsPrefix(filter, key) && |filter| < |key|
  }

  /** Two keys that differ at a position both have: no key is selected by both. */
  predicate Diverge(a: Key, b: Key) {
    exists i :: 0 <= i < |a| && i < |b| && a[i] != b[i]
  }

  lemma PrefixTransitive(a: Key, b: Key, c: Key)
    requires IsPrefix(a, b) && IsPrefix(b, c)
    ensures IsPrefix(a, c)
  {
    assert c[..|a|] == c[..|b|][..|a|];
  }

  /** Diverging filters select disjoint sets of keys. */
  lemma DivergeDisjoint(a: Key, b: Key, key: Key)
    requires Diverge(a, b)
    ensures !(IsPrefix(a, key) && IsPrefix(b, key))
  {
    var i :| 0 <= i < |a| && i < |b| && a[i] != b[i];
    assert IsPrefix(a, key) ==> key[i] == a[i];
  }

  /** What a mutation's `onSuccess` hands to the cache: filters for
      `removeQueries` and filters for `invalidateQueries`, in call order. */
  datatype Effect = Effect(removed: seq<Key>, invalidated: seq<Key>)

  predicate Invalidates(e: Effect, key: Key) {
    exists i :: 0 <= i < |e.invalidated| && IsPrefix(e.invalidated[i], key)
  }

  predicate Removes(e: Effect, key: Key) {
    exists i :: 0 <= i < |e.removed| && IsPrefix(e.removed[i], key)
  }

  /** The effect leaves `key` alone. */
  predicate Untouched(e: Effect, key: Key) {
    !Invalidates(e, key) && !Removes(e, key)
  }

  /** An effect that invalidates nothing and removes nothing. */
  const NoEffect := Effect([], [])

  /** When one filter of `e` (at index `j`) is a prefix of all of them,
      `e` invalidates exactly the keys under that filter. */
  lemma InvalidatesUnderTop(e: Effect, j: int, key: Key)
    requires 0 <= j < |e.invalidated|
    requires forall i :: 0 <= i < |e.invalidated| ==> IsPrefix(e.invalidated[j], e.invalidated[i])
    ensures Invalidates(e, key) <==> IsPrefix(e.invalidated[j], key)
  {
    if Invalidates(e, key) {
      var i :| 0 <= i < |e.invalidated| && IsPrefix(e.invalidated[i], key);
      PrefixTransitive(e.invalidated[j], e.invalidated[i], key);
    }
  }

  /** The keys an effect with two invalidation filters marks stale. */
  lemma InvalidatesEither(e: Effect, key: Key)
    requires |e.invalidated| == 2
    ensures Invalidates(e, key) <==> IsPrefix(e.invalidated[0], key) || IsPrefix(e.invalidated[1], key)
  {
  }

  /** The keys an effect with one removal filter drops. */
  lemma RemovesUnder(e: Effect, key: Key)
    requires |e.removed| == 1
    ensures Removes(e, key) <==> IsPrefix(e.removed[0], key)
  {
  }

  /** Every key under `root` diverges from every filter of `e`: the effect
      touches nothing under `root`. */
  lemma UntouchedUnder(e: Effect, root: Key, key: Key)
    requires forall i :: 0 <= i < |e.invalidated| ==> Diverge(e.invalidated[i], root)
    requires forall i :: 0 <= i < |e.removed| ==> Diverge(e.removed[i], root)
    requires IsPrefix(root, key)
    ensures Untouched(e, key)
  {
    forall i | 0 <= i < |e.invalidated| ensures !IsPrefix(e.invalidated[i], key) {
      DivergeDisjoint(e.invalidated[i], root, key);
    }
    forall i | 0 <= i < |e.removed| ensures !IsPrefix(e.removed[i], key) {
      DivergeDisjoint(e.removed[i], root, key);
    }
  }
}
