/** The on-disk summary cache: an in-memory map of node entries, a per-run change
    tracker, and a primary file with a temporary file and two rolling backups. */
module SummaryCache {

  /** The keys a node entry holds (`summary`, `code_analysis`, `code_hash`) and their values. */
  type Entry = map<string, string>

  /** Node id to entry. */
  type Cache = map<string, Entry>

  /** Node id to the `changed` flag of its runtime status (absent key = no entry). */
  type Status = map<string, bool>

  /** The four files of the cache directory. */
  datatype Slot = Primary | Tmp | Bak1 | Bak2

  /** A file that JSON-parses to a cache, or one that does not. */
  datatype Stored = Parsed(entries: Cache) | Corrupt

  /** The cache directory: a missing key is a missing file. */
  type Disk = map<Slot, Stored>

  /** How writing the temporary file ends. */
  datatype WriteOutcome = Written | OpenFailed | PartialWrite

  /** The status string that marks a node as changed in this run. */
  const Regenerated := "regenerated"

  /** The cache a load produces: the primary file's content when it parses, else empty. */
  function LoadedCache(disk: Disk): (r: Cache)
    ensures Primary in disk && disk[Primary].Parsed? ==> r == disk[Primary].entries
    ensures Primary !in disk || disk[Primary].Corrupt? ==> r == map[]
  {
    if Primary in disk && disk[Primary].Parsed? then disk[Primary].entries else map[]
  }

  /** The entry of a node, empty for an unknown node. */
  function EntryOf(cache: Cache, id: string): Entry {
    if id in cache then cache[id] else map[]
  }

  /** The cache after merging `data` into the entry of `id`. */
  function Updated(cache: Cache, id: string, data: Entry): (r: Cache)
    ensures r.Keys == cache.Keys + {id}
    ensures r[id].Keys == EntryOf(cache, id).Keys + data.Keys
    ensures forall key :: key in data ==> r[id][key] == data[key]
    ensures forall key :: key in EntryOf(cache, id) && key !in data ==> r[id][key] == cache[id][key]
    ensures forall n :: n in cache && n != id ==> r[n] == cache[n]
  {
    cache[id := EntryOf(cache, id) + data]
  }

  /** Whether a node's runtime status says it changed in this run (`.get('changed', False)`). */
  predicate Changed(status: Status, id: string) {
    id in status && status[id]
  }

  /** The runtime status after recording `s` for `id`. */
  function WithStatus(status: Status, id: string, s: string): (r: Status)
    ensures r.Keys == status.Keys + {id}
    ensures Changed(r, id) <==> s == Regenerated || Changed(status, id)
    ensures forall n :: n in status && n != id ==> r[n] == status[n]
  {
    if s == Regenerated then status[id := true]
    else if id in status then status
    else status[id := false]
  }

  /** Whether promotion is refused: the old primary parses, held more than 100 entries, and
      the new cache has fewer than 95% of them (compared exactly, as `100 * new < 95 * old`). */
  predicate Refused(disk: Disk, newSize: nat) {
    Primary in disk && disk[Primary].Parsed?
    && |disk[Primary].entries| > 100
    && 100 * newSize < 95 * |disk[Primary].entries|
  }

  /** The directory after the two-level backup rotation. */
  function Rotated(disk: Disk): (r: Disk)
    ensures Primary !in r
    ensures Bak1 in r <==> Primary in disk
    ensures Primary in disk ==> r[Bak1] == disk[Primary]
    ensures Bak2 in r <==> Bak1 in disk
    ensures Bak1 in disk ==> r[Bak2] == disk[Bak1]
    ensures Tmp in r <==> Tmp in disk
    ensures Tmp in disk ==> r[Tmp] == disk[Tmp]
  {
    var noBak2 := disk - {Bak2};
    var shifted := if Bak1 in disk then noBak2[Bak2 := disk[Bak1]] - {Bak1} else noBak2;
    if Primary in disk then shifted[Bak1 := disk[Primary]] - {Primary} else shifted
  }

  /** The directory after promoting the temporary file, with `newSize` entries in memory. */
  function Promoted(disk: Disk, newSize: nat): Disk
    requires Tmp in disk
  {
    if Refused(disk, newSize) then disk
    else Rotated(disk)[Primary := disk[Tmp]] - {Tmp}
  }

  /** The directory after a save of `cache` whose temporary write ends with `outcome`. */
  function Saved(disk: Disk, cache: Cache, outcome: WriteOutcome): Disk {
    match outcome
    case OpenFailed => disk
    case PartialWrite => disk[Tmp := Corrupt]
    case Written => Promoted(disk[Tmp := Parsed(cache)], |cache|)
  }

  /** Refusal keeps every file, the new content waiting in the temporary file; promotion puts
      the new content in the primary, shifts the old primary to bak1 and the old bak1 to bak2
      (dropping the old bak2) and consumes the temporary file. */
  lemma PromotionOutcome(disk: Disk, newSize: nat)
    requires Tmp in disk
    ensures var r := Promoted(disk, newSize);
      if Refused(disk, newSize) then r == disk
      else
        && Primary in r && r[Primary] == disk[Tmp]
        && Tmp !in r
        && (Bak1 in r <==> Primary in disk) && (Primary in disk ==> r[Bak1] == disk[Primary])
        && (Bak2 in r <==> Bak1 in disk) && (Bak1 in disk ==> r[Bak2] == disk[Bak1])
  {
  }

  /** A primary that does not parse, or is missing, never blocks promotion. */
  lemma UnreadablePrimaryPromotes(disk: Disk, newSize: nat)
    requires Tmp in disk
    requires Primary !in disk || disk[Primary].Corrupt?
    ensures Primary in Promoted(disk, newSize) && Promoted(disk, newSize)[Primary] == disk[Tmp]
  {
  }

  /** A small old cache (at most 100 entries) is always replaced. */
  lemma SmallPrimaryPromotes(disk: Disk, newSize: nat)
    requires Tmp in disk && Primary in disk && disk[Primary].Parsed?
    requires |disk[Primary].entries| <= 100
    ensures Primary in Promoted(disk, newSize) && Promoted(disk, newSize)[Primary] == disk[Tmp]
  {
  }

  /** A successful save followed by a load reads back exactly the saved cache, unless the
      promotion was refused, in which case the load reads the old primary. */
  lemma SaveThenLoad(disk: Disk, cache: Cache)
    ensures var d := disk[Tmp := Parsed(cache)];
      LoadedCache(Saved(disk, cache, Written))
        == if Refused(d, |cache|) then LoadedCache(disk) else cache
  {
    var d := disk[Tmp := Parsed(cache)];
    if !Refused(d, |cache|) {
      PromotionOutcome(d, |cache|);
    }
  }

  /** A failed temporary write leaves the primary and both backups as they were. */
  lemma FailedWriteKeepsFiles(disk: Disk, cache: Cache, outcome: WriteOutcome)
    requires outcome != Written
    ensures var r := Saved(disk, cache, outcome);
      forall s :: s != Tmp ==> (s in r <==> s in disk) && (s in disk ==> r[s] == disk[s])
  {
  }

  /** The cache manager: the in-memory cache, the runtime change tracker, and the directory. */
  class SummaryCacheManager {
    var cache: Cache
    var runtimeStatus: Status
    var files: Disk

    /** Starts with an empty cache and no runtime status over an existing directory. */
    constructor (disk: Disk)
      ensures cache == map[] && runtimeStatus == map[] && files == disk
    {
      cache := map[];
      runtimeStatus := map[];
      files := disk;
    }

    /** Replaces the in-memory cache by the primary file's content, or by the empty cache. */
    method Load()
      modifies this
      ensures cache == LoadedCache(files)
      ensures files == old(files) && runtimeStatus == old(runtimeStatus)
    {
      if Primary in files {
        match files[Primary]
        case Parsed(entries) =>
          cache := entries;
        case Corrupt =>
          cache := map[];
      } else {
        cache := map[];
      }
    }

    /** Writes the cache (and only the cache) to the temporary file, then promotes it. */
    method Save(outcome: WriteOutcome)
      modifies this
      ensures files == Saved(old(files), old(cache), outcome)
      ensures cache == old(cache) && runtimeStatus == old(runtimeStatus)
    {
      match outcome
      case OpenFailed =>
        return;
      case PartialWrite =>
        files := files[Tmp := Corrupt];
        return;
      case Written =>
        files := files[Tmp := Parsed(cache)];
        PromoteTmpCache();
    }

    /** Moves the temporary file over the primary unless the size sanity check refuses it. */
    method PromoteTmpCache()
      requires Tmp in files
      modifies this
      ensures files == Promoted(old(files), |old(cache)|)
      ensures cache == old(cache) && runtimeStatus == old(runtimeStatus)
    {
      if Primary in files {
        match files[Primary]
        case Parsed(oldEntries) =>
          var oldSize := |oldEntries|;
          var newSize := |cache|;
          if 100 * newSize < 95 * oldSize && oldSize > 100 {
            return;
          }
        case Corrupt =>
      }
      RotateBackups();
      files := files[Primary := files[Tmp]] - {Tmp};
    }

    /** Deletes bak2, moves bak1 to bak2, then moves the primary to bak1. */
    method RotateBackups()
      modifies this
      ensures files == Rotated(old(files))
      ensures cache == old(cache) && runtimeStatus == old(runtimeStatus)
    {
      if Bak2 in files {
        files := files - {Bak2};
      }
      if Bak1 in files {
        files := files[Bak2 := files[Bak1]] - {Bak1};
      }
      if Primary in files {
        files := files[Bak1 := files[Primary]] - {Primary};
      }
    }

    /** The entry of a node, or an empty entry; the cache itself is not touched. */
    function GetNodeCache(id: string): (r: Entry)
      reads this
      ensures id in cache ==> r == cache[id]
      ensures id !in cache ==> r == map[]
    {
      EntryOf(cache, id)
    }

    /** Creates the entry if absent, then merges `data` into it. */
    method UpdateNodeCache(id: string, data: Entry)
      modifies this
      ensures cache == Updated(old(cache), id, data)
      ensures files == old(files) && runtimeStatus == old(runtimeStatus)
    {
      if id !in cache {
        cache := cache[id := map[]];
      }
      cache := cache[id := cache[id] + data];
    }

    /** Creates the runtime entry if absent; sets `changed` only for a regenerated node. */
    method SetRuntimeStatus(id: string, s: string)
      modifies this
      ensures runtimeStatus == WithStatus(old(runtimeStatus), id, s)
      ensures files == old(files) && cache == old(cache)
    {
      if id !in runtimeStatus {
        runtimeStatus := runtimeStatus[id := false];
      }
      if s == Regenerated {
        runtimeStatus := runtimeStatus[id := true];
      }
    }

    /** Whether any of the given nodes was regenerated in this run. */
    method WasDependencyChanged(ids: seq<string>) returns (changed: bool)
      ensures changed <==> exists k :: 0 <= k < |ids| && Changed(runtimeStatus, ids[k])
    {
      for k := 0 to |ids|
        invariant forall j :: 0 <= j < k ==> !Changed(runtimeStatus, ids[j])
      {
        if ids[k] in runtimeStatus && runtimeStatus[ids[k]] {
          return true;
        }
      }
      return false;
    }
  }
}
