/**
 * The app-info cache logic of src/queries/common.query.ts: `commonKeys`,
 * the optimistic merge of an update into the cached app info with its
 * rollback, the generated webhook verify key written into the cache, and
 * the single-field update.
 */
module CommonQuery {
  import opened Wrappers
  import opened QueryKey
  import opened QueryCache

  // ===== commonKeys =====

  function All(): Key { [Str("common")] }
  function AppInfo(): Key { All() + [Str("appInfo")] }

  lemma AppInfoUnderAll()
    ensures IsProperPrefix(All(), AppInfo())
    ensures AppInfo() == [Str("common"), Str("appInfo")]
  {
  }

  /** `onSuccess` of `useUpdateAppInfo`. */
  function UpdateAppInfoEffect(): Effect { Effect([], [AppInfo()]) }

  // ===== updaters =====

  /** `{ ...old, data: { ...old.data, ...updates } }`, or `old` itself
      when it is not a successful entry. */
  function MergeAppInfo(prev: Option<Entry>, updates: Record): (r: Option<Entry>)
    ensures NotSuccess(prev) ==> r == prev
    ensures !NotSuccess(prev) && prev.value.RecordEntry? ==>
      && r.Some? && r.value.RecordEntry? && r.value.success == prev.value.success
      && r.value.record.Keys == prev.value.record.Keys + updates.Keys
      && (forall f :: f in updates ==> r.value.record[f] == updates[f])
      && (forall f :: f in prev.value.record && f !in updates ==> r.value.record[f] == prev.value.record[f])
  {
    if NotSuccess(prev) then prev
    else match prev.value
      case RecordEntry(success, record) => Some(RecordEntry(success, record + updates))
      case ListEntry(_, _, _) => prev
  }

  /** Two optimistic updates in a row amount to one update with both sets
      of fields, the later winning. */
  lemma MergeAppInfoComposes(prev: Option<Entry>, u1: Record, u2: Record)
    ensures MergeAppInfo(MergeAppInfo(prev, u1), u2) == MergeAppInfo(prev, u1 + u2)
  {
    if !NotSuccess(prev) && prev.value.RecordEntry? {
      var r := prev.value.record;
      assert (r + u1) + u2 == r + (u1 + u2);
    }
  }

  /** Re-applying the same update changes nothing. */
  lemma MergeAppInfoIdempotent(prev: Option<Entry>, updates: Record)
    ensures MergeAppInfo(MergeAppInfo(prev, updates), updates) == MergeAppInfo(prev, updates)
  {
    MergeAppInfoComposes(prev, updates, updates);
    assert updates + updates == updates;
  }

  /** `updateField(field, value)`: the update object `{ [field]: value }`. */
  function UpdateField(field: string, value: Value): (u: Record)
    ensures u.Keys == {field} && u[field] == value
  {
    map[field := value]
  }

  /** A single-field update changes that field of the cached app info and
      nothing else. */
  lemma UpdateFieldMerge(prev: Option<Entry>, field: string, value: Value)
    requires !NotSuccess(prev) && prev.value.RecordEntry?
    ensures MergeAppInfo(prev, UpdateField(field, value)) ==
      Some(RecordEntry(prev.value.success, prev.value.record[field := value]))
  {
    assert prev.value.record + UpdateField(field, value) == prev.value.record[field := value];
  }

  /** The updater of `useGenerateWebhookVerifyKey`: only
      `data.metaWebhookVerifyKey` changes. */
  function SetWebhookVerifyKey(prev: Option<Entry>, key: Value): (r: Option<Entry>)
    ensures NotSuccess(prev) ==> r == prev
    ensures !NotSuccess(prev) && prev.value.RecordEntry? ==>
      && r.Some? && r.value.RecordEntry? && r.value.success == prev.value.success
      && r.value.record.Keys == prev.value.record.Keys + {"metaWebhookVerifyKey"}
      && r.value.record["metaWebhookVerifyKey"] == key
      && forall f :: f in prev.value.record && f != "metaWebhookVerifyKey" ==> r.value.record[f] == prev.value.record[f]
  {
    if NotSuccess(prev) then prev
    else match prev.value
      case RecordEntry(success, record) => Some(RecordEntry(success, record["metaWebhookVerifyKey" := key]))
      case ListEntry(_, _, _) => prev
  }

  /** Writing the generated key is the single-field merge of that key. */
  lemma SetWebhookVerifyKeyIsMerge(prev: Option<Entry>, key: Value)
    ensures SetWebhookVerifyKey(prev, key) == MergeAppInfo(prev, UpdateField("metaWebhookVerifyKey", key))
  {
    if !NotSuccess(prev) && prev.value.RecordEntry? {
      UpdateFieldMerge(prev, "metaWebhookVerifyKey", key);
    }
  }

  // ===== the cache writes =====

  /** `optimisticUpdate`: cancel fetches of app info, take the snapshot,
      merge the update in. Returns the snapshot. */
  method OptimisticUpdate(cache: Client, updates: Record) returns (previous: Option<Entry>)
    modifies cache
    ensures previous == old(cache.GetQueryData(AppInfo()))
    ensures cache.cancellations == old(cache.cancellations) + [AppInfo()]
    ensures cache.invalidations == old(cache.invalidations)
    ensures var n := MergeAppInfo(previous, updates);
      cache.entries == if n.Some? then old(cache.entries)[AppInfo() := n.value] else old(cache.entries)
  {
    cache.CancelQueries(AppInfo());
    previous := cache.GetQueryData(AppInfo());
    cache.UpdateQueryData(AppInfo(), prev => MergeAppInfo(prev, updates));
  }

  /** `mutateWithOptimisticUpdate` with the request's outcome given: a
      failure rolls back to the snapshot, a success invalidates app info. */
  method MutateWithOptimisticUpdate(cache: Client, updates: Record, succeeded: bool)
    modifies cache
    ensures cache.cancellations == old(cache.cancellations) + [AppInfo()]
    ensures !succeeded ==> cache.entries == old(cache.entries) && cache.invalidations == old(cache.invalidations)
    ensures succeeded ==>
      && cache.invalidations == old(cache.invalidations) + [AppInfo()]
      && var n := MergeAppInfo(old(cache.GetQueryData(AppInfo())), updates);
         cache.entries == if n.Some? then old(cache.entries)[AppInfo() := n.value] else old(cache.entries)
  {
    var previous := OptimisticUpdate(cache, updates);
    if succeeded {
      cache.Apply(UpdateAppInfoEffect());
    } else {
      cache.SetQueryData(AppInfo(), previous);
      if previous.Some? {
        assert old(cache.entries)[AppInfo() := previous.value] == old(cache.entries);
      }
    }
  }

  /** `onSuccess` of `useGenerateWebhookVerifyKey`. */
  method GenerateWebhookVerifyKeySucceeded(cache: Client, key: string)
    modifies cache
    ensures var n := SetWebhookVerifyKey(old(cache.GetQueryData(AppInfo())), VStr(key));
      cache.entries == if n.Some? then old(cache.entries)[AppInfo() := n.value] else old(cache.entries)
    ensures cache.invalidations == old(cache.invalidations) && cache.cancellations == old(cache.cancellations)
  {
    cache.UpdateQueryData(AppInfo(), prev => SetWebhookVerifyKey(prev, VStr(key)));
  }
}
