/** The bookkeeping every summarization pass shares: what a processor result puts in the
    cache and the runtime status, what it forwards to the database, and the batch loop that
    collects the forwarded results into one bulk write. Items are processed one after the
    other, each seeing the cache as the previous items left it. */
module BaseSummarizer {
  import opened Common
  import opened SummaryCache
  import opened NodeSummaryProcessor

  /** The keys of a result that are copied into the cache. */
  predicate CachedKey(key: string) {
    key == KeySummary || key == KeyCodeAnalysis || key == KeyCodeHash
  }

  /** `cache_data`: the summary, code analysis and code hash the result holds, and no other key. */
  function CacheData(res: NodeResult): (r: Entry)
    ensures r.Keys == set key | key in res.fields && CachedKey(key)
    ensures forall key :: key in r ==> r[key] == res.fields[key]
  {
    map key | key in res.fields && CachedKey(key) :: res.fields[key]
  }

  /** Whether a result's status makes `_handle_result` merge it into the cache. */
  predicate Merged(res: NodeResult) {
    res.status == Regenerated || res.status == StatusRestored || res.status == StatusUnchanged
  }

  /** Whether a result is handed on to the database write. */
  predicate Forwarded(res: NodeResult) {
    res.status == Regenerated || res.status == StatusRestored
  }

  /** The cache after `_handle_result`. */
  function CacheAfter(cache: Cache, result: Option<NodeResult>): Cache {
    if result.Some? && Merged(result.value) then Updated(cache, result.value.id, CacheData(result.value))
    else cache
  }

  /** The runtime status after `_handle_result`. */
  function StatusAfter(status: Status, result: Option<NodeResult>): Status {
    if result.Some? && result.value.status == Regenerated then WithStatus(status, result.value.id, Regenerated)
    else status
  }

  /** What `_handle_result` returns. */
  function ForwardedResult(result: Option<NodeResult>): (r: Option<NodeResult>)
    ensures r.Some? <==> result.Some? && Forwarded(result.value)
    ensures r.Some? ==> r == result
  {
    if result.Some? && Forwarded(result.value) then result else None
  }

  /** Handling `None` changes nothing and forwards nothing; a result with a status other than
      the three known ones is neither cached nor forwarded. */
  lemma HandleNothing(cache: Cache, status: Status, result: Option<NodeResult>)
    requires result.None? || !Merged(result.value)
    ensures CacheAfter(cache, result) == cache
    ensures StatusAfter(status, result) == status
    ensures ForwardedResult(result) == None
  {
  }

  /** After a merged result, the node's cache entry holds the result's cached keys with the
      result's values and keeps its other keys; every other node's entry is unchanged. */
  lemma HandleMerges(cache: Cache, res: NodeResult)
    requires Merged(res)
    ensures var c := CacheAfter(cache, Some(res));
      && c.Keys == cache.Keys + {res.id}
      && (forall key :: key in res.fields && CachedKey(key) ==> key in c[res.id] && c[res.id][key] == res.fields[key])
      && (forall key :: key in EntryOf(cache, res.id) && !(key in res.fields && CachedKey(key)) ==>
            key in c[res.id] && c[res.id][key] == cache[res.id][key])
      && (forall n :: n in cache && n != res.id ==> c[n] == cache[n])
  {
  }

  /** Only a regenerated result marks its node as changed, so that later nodes depending on it
      see it as stale; other results leave the change tracker's verdict alone. */
  lemma HandleMarksChanged(status: Status, res: NodeResult, ids: seq<string>)
    requires res.id in ids
    ensures res.status == Regenerated ==> Stale(StatusAfter(status, Some(res)), ids)
    ensures res.status != Regenerated ==> (Stale(StatusAfter(status, Some(res)), ids) <==> Stale(status, ids))
  {
    if res.status == Regenerated {
      var k :| 0 <= k < |ids| && ids[k] == res.id;
      assert Changed(StatusAfter(status, Some(res)), ids[k]);
    }
  }

  /** A forwarded summary is what the cache serves for that node afterwards. */
  lemma ForwardedSummaryCached(cache: Cache, res: NodeResult)
    requires Forwarded(res) && KeySummary in res.fields
    ensures Lookup(CacheAfter(cache, Some(res)), res.id, KeySummary) == Some(res.fields[KeySummary])
  {
  }

  /** `_handle_result`, updating the cache manager in place. */
  method HandleResult(cm: SummaryCacheManager, result: Option<NodeResult>) returns (r: Option<NodeResult>)
    modifies cm
    ensures cm.cache == CacheAfter(old(cm.cache), result)
    ensures cm.runtimeStatus == StatusAfter(old(cm.runtimeStatus), result)
    ensures cm.files == old(cm.files)
    ensures r == ForwardedResult(result)
  {
    if result.None? {
      return None;
    }
    var res := result.value;
    var nodeId := res.id;
    var status := res.status;
    var cacheData: Entry := map[];
    if KeySummary in res.fields { cacheData := cacheData[KeySummary := res.fields[KeySummary]]; }
    if KeyCodeAnalysis in res.fields { cacheData := cacheData[KeyCodeAnalysis := res.fields[KeyCodeAnalysis]]; }
    if KeyCodeHash in res.fields { cacheData := cacheData[KeyCodeHash := res.fields[KeyCodeHash]]; }
    assert cacheData == CacheData(res);
    if status == Regenerated || status == StatusRestored {
      cm.UpdateNodeCache(nodeId, cacheData);
      if status == Regenerated {
        cm.SetRuntimeStatus(nodeId, Regenerated);
      }
      return result;
    } else if status == StatusUnchanged {
      cm.UpdateNodeCache(nodeId, cacheData);
    }
    return None;
  }

  /** A processor hook: the result for a prepared item, given the cache and runtime status the
      processor reads. */
  type ProcessorHook<!T> = (T, Cache, Status) -> Outcome

  /** What a batch has built so far: the cache, the runtime status and the forwarded results. */
  datatype BatchState = BatchState(cache: Cache, status: Status, updates: seq<NodeResult>)

  /** One item of a batch: prepare it, run the processor on the current cache, handle the
      result; an exception skips the item and changes nothing. */
  function ItemStep<T>(st: BatchState, item: T, prepare: T -> T, process: ProcessorHook<T>): BatchState {
    match process(prepare(item), st.cache, st.status)
    case Raised(_) => st
    case Returned(result) =>
      var fwd := ForwardedResult(result);
      BatchState(CacheAfter(st.cache, result), StatusAfter(st.status, result),
        st.updates + (if fwd.Some? then [fwd.value] else []))
  }

  /** The items of a batch handled one after the other. */
  function BatchFrom<T>(st: BatchState, items: seq<T>, prepare: T -> T, process: ProcessorHook<T>): BatchState
    decreases |items|
  {
    if items == [] then st
    else BatchFrom(ItemStep(st, items[0], prepare, process), items[1..], prepare, process)
  }

  /** Handling a batch in two parts is handling the second part from where the first left off. */
  lemma {:induction false} BatchAppend<T>(st: BatchState, xs: seq<T>, ys: seq<T>, prepare: T -> T, process: ProcessorHook<T>)
    ensures BatchFrom(st, xs + ys, prepare, process) == BatchFrom(BatchFrom(st, xs, prepare, process), ys, prepare, process)
    decreases |xs|
  {
    if xs == [] {
      assert xs + ys == ys;
    } else {
      assert (xs + ys)[0] == xs[0];
      assert (xs + ys)[1..] == xs[1..] + ys;
      BatchAppend(ItemStep(st, xs[0], prepare, process), xs[1..], ys, prepare, process);
    }
  }

  /** Every collected update is a regenerated or restored result, the earlier updates are kept
      in front, and each item adds at most one. */
  lemma {:induction false} BatchUpdates<T>(st: BatchState, items: seq<T>, prepare: T -> T, process: ProcessorHook<T>)
    ensures var r := BatchFrom(st, items, prepare, process);
      && |st.updates| <= |r.updates| <= |st.updates| + |items|
      && r.updates[..|st.updates|] == st.updates
      && forall k :: |st.updates| <= k < |r.updates| ==> Forwarded(r.updates[k])
    decreases |items|
  {
    if items != [] {
      var next := ItemStep(st, items[0], prepare, process);
      BatchUpdates(next, items[1..], prepare, process);
      assert next.updates[..|st.updates|] == st.updates;
      var r := BatchFrom(st, items, prepare, process);
      assert r.updates[..|st.updates|] == r.updates[..|next.updates|][..|st.updates|];
    }
  }

  /** An item whose processing raises, at the point the batch reaches it, leaves the outcome of
      the batch exactly as if it had not been in the list. */
  lemma BatchSkipsRaised<T>(st: BatchState, items: seq<T>, k: nat, prepare: T -> T, process: ProcessorHook<T>)
    requires k < |items|
    requires var before := BatchFrom(st, items[..k], prepare, process);
      process(prepare(items[k]), before.cache, before.status).Raised?
    ensures BatchFrom(st, items, prepare, process) == BatchFrom(st, items[..k] + items[k + 1..], prepare, process)
  {
    assert items == items[..k] + ([items[k]] + items[k + 1..]);
    BatchAppend(st, items[..k], [items[k]] + items[k + 1..], prepare, process);
    BatchAppend(st, items[..k], items[k + 1..], prepare, process);
  }

  /** What `process_batch` returns and writes: nothing for an empty batch or when no result was
      forwarded, else one bulk write of every forwarded result, counted by the database. */
  function BatchWrite(updates: seq<NodeResult>, write: seq<NodeResult> -> nat): (r: (nat, Option<seq<NodeResult>>))
    ensures updates == [] ==> r == (0, None)
    ensures updates != [] ==> r == (write(updates), Some(updates))
  {
    if updates == [] then (0, None) else (write(updates), Some(updates))
  }

  /** `_process_and_handle_item`: prepare, process on the current cache, then handle. The
      exception of a failed item propagates to the caller as `Raised`. */
  method ProcessAndHandleItem<T>(cm: SummaryCacheManager, item: T, prepare: T -> T, process: ProcessorHook<T>)
    returns (r: Outcome)
    modifies cm
    ensures var st := ItemStep(BatchState(old(cm.cache), old(cm.runtimeStatus), []), item, prepare, process);
      && cm.cache == st.cache && cm.runtimeStatus == st.status && cm.files == old(cm.files)
      && (r.Raised? <==> process(prepare(item), old(cm.cache), old(cm.runtimeStatus)).Raised?)
      && (r.Returned? ==> st.updates == (if r.result.Some? then [r.result.value] else []))
  {
    var prepared := prepare(item);
    var result := process(prepared, cm.cache, cm.runtimeStatus);
    match result
    case Raised(e) =>
      return Raised(e);
    case Returned(res) =>
      var handled := HandleResult(cm, res);
      return Returned(handled);
  }

  /** `process_batch`, sequentialised: the items in the given order, each one's exception
      skipped, then at most one bulk write. */
  method ProcessBatch<T>(cm: SummaryCacheManager, items: seq<T>, prepare: T -> T, process: ProcessorHook<T>,
                         write: seq<NodeResult> -> nat)
    returns (count: nat, written: Option<seq<NodeResult>>)
    modifies cm
    ensures var st := BatchFrom(BatchState(old(cm.cache), old(cm.runtimeStatus), []), items, prepare, process);
      && cm.cache == st.cache && cm.runtimeStatus == st.status && cm.files == old(cm.files)
      && (count, written) == BatchWrite(st.updates, write)
    ensures items == [] ==> count == 0 && written == None
  {
    if items == [] {
      return 0, None;
    }
    ghost var start := BatchState(cm.cache, cm.runtimeStatus, []);
    var updates: seq<NodeResult> := [];
    for i := 0 to |items|
      invariant cm.files == old(cm.files)
      invariant BatchFrom(start, items, prepare, process)
        == BatchFrom(BatchState(cm.cache, cm.runtimeStatus, updates), items[i..], prepare, process)
    {
      ghost var before := BatchState(cm.cache, cm.runtimeStatus, updates);
      assert items[i..][0] == items[i] && items[i..][1..] == items[i + 1..];
      var updateData := ProcessAndHandleItem(cm, items[i], prepare, process);
      if updateData.Returned? && updateData.result.Some? {
        updates := updates + [updateData.result.value];
      }
      assert BatchState(cm.cache, cm.runtimeStatus, updates) == ItemStep(before, items[i], prepare, process);
    }
    if updates == [] {
      return 0, None;
    }
    return write(updates), Some(updates);
  }
}
