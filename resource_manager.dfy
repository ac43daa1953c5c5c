/** The resource manager: a fixed pool of voices with a FIFO free list and
    priority-based reuse, and a reference-counted cache of decoded buffers
    with least-recently-used eviction under a size ceiling, plus the list of
    preloaded directories. Every operation runs under one lock in the
    original, so each is modelled as one atomic step. */
module Resources {
  import opened Util
  import opened Types
  import opened Paths
  import opened PoolModel
  import opened CacheModel
  import opened Disk

  const SIZE_T_MODULUS: int := 0x1_0000_0000_0000_0000
  const BYTES_PER_MEGABYTE: nat := 1024 * 1024

  /** What `freeOldestBuffer` guarantees when it turns the cache `before`
      and the pool `poolBefore` into `after` and `poolAfter`: entries are
      only removed, oldest first, regardless of their reference counts;
      removal stops once the total is within the ceiling or nothing is left;
      nothing is removed when the total was already within the ceiling, and
      the newest entry removed was removed while the total was above it, so
      removal stopped as soon as the total fitted; every active voice
      holding a removed buffer is detached. */
  ghost predicate Evicted(before: Cache, poolBefore: seq<Slot>, after: Cache, poolAfter: seq<Slot>, ceiling: nat) {
    && SubCache(after, before)
    && RemovedOldestFirst(after, before)
    && (TotalSize(after) <= ceiling || after == map[])
    && (TotalSize(before) <= ceiling ==> after == before)
    && (after != before ==>
          exists r | r in before && r !in after ::
            && TotalSize(after) + before[r].buffer.size > ceiling
            && forall q | q in before && q !in after :: before[q].lastAccessed <= before[r].lastAccessed)
    && poolAfter == DetachAll(poolBefore, RemovedBufferIds(after, before))
  }

  /** The state part way through `freeOldestBuffer`: what `Evicted`
      states, except that the loop may not be finished; `lastRemoved` is
      the entry the latest round removed, the newest of those removed. */
  ghost predicate EvictionSoFar(before: Cache, poolBefore: seq<Slot>, after: Cache, poolAfter: seq<Slot>,
                                ceiling: nat, lastRemoved: Path) {
    && SubCache(after, before)
    && RemovedOldestFirst(after, before)
    && (after != before ==>
          && TotalSize(before) > ceiling
          && lastRemoved in before && lastRemoved !in after
          && TotalSize(after) + before[lastRemoved].buffer.size > ceiling
          && forall q | q in before && q !in after :: before[q].lastAccessed <= before[lastRemoved].lastAccessed)
    && poolAfter == DetachAll(poolBefore, RemovedBufferIds(after, before))
  }

  lemma EvictionStart(before: Cache, pool: seq<Slot>, ceiling: nat)
    ensures EvictionSoFar(before, pool, before, pool, ceiling, "")
  {
    RemovedBufferIdsNone(before, before);
    DetachAllNone(pool);
  }

  /** One round of the eviction loop: removing the oldest entry while over
      the ceiling, and detaching its buffer, keeps the loop's invariant. */
  lemma EvictionStep(before: Cache, poolBefore: seq<Slot>, after: Cache, poolAfter: seq<Slot>,
                     ceiling: nat, lastRemoved: Path, oldest: Path)
    requires EvictionSoFar(before, poolBefore, after, poolAfter, ceiling, lastRemoved)
    requires IsOldest(after, oldest) && TotalSize(after) > ceiling
    ensures EvictionSoFar(before, poolBefore, after - {oldest},
                          DetachAll(poolAfter, {after[oldest].buffer.id as nat}), ceiling, oldest)
  {
    var id := after[oldest].buffer.id as nat;
    RemovedBufferIdsStep(after, before, oldest);
    RemovedBufferIdsNone(before, after);
    DetachAllAccumulates(poolBefore, RemovedBufferIds(after, before), id);
    TotalSizeRemove(after, oldest);
  }

  /** When the loop stops, its invariant is what `Evicted` promises. */
  lemma EvictionDone(before: Cache, poolBefore: seq<Slot>, after: Cache, poolAfter: seq<Slot>,
                     ceiling: nat, lastRemoved: Path)
    requires EvictionSoFar(before, poolBefore, after, poolAfter, ceiling, lastRemoved)
    requires TotalSize(after) <= ceiling || after == map[]
    ensures Evicted(before, poolBefore, after, poolAfter, ceiling)
  {
  }

  /** An entry cached after every other one is evicted only when eviction
      empties the cache: older entries go first. */
  lemma NewestSurvivesUnlessAlone(before: Cache, key: Path, entry: CacheEntry, poolBefore: seq<Slot>,
                                   after: Cache, poolAfter: seq<Slot>, ceiling: nat)
    requires key !in before
    requires forall k | k in before :: before[k].lastAccessed < entry.lastAccessed
    requires Evicted(before[key := entry], poolBefore, after, poolAfter, ceiling)
    ensures key !in after ==> after == map[]
  {
  }

  /** A new entry that fits under the ceiling with everything already
      cached causes no eviction. */
  lemma EvictedWhenFits(before: Cache, key: Path, entry: CacheEntry, poolBefore: seq<Slot>,
                        after: Cache, poolAfter: seq<Slot>, ceiling: nat)
    requires key !in before
    requires TotalSize(before) + entry.buffer.size <= ceiling
    requires Evicted(before[key := entry], poolBefore, after, poolAfter, ceiling)
    ensures after == before[key := entry] && poolAfter == poolBefore
  {
    TotalSizeInsert(before, key, entry);
    RemovedBufferIdsNone(before[key := entry], after);
    DetachAllNone(poolBefore);
  }

  /** A new entry larger than the ceiling on its own empties the cache,
      itself included. */
  lemma EvictedWhenTooLarge(before: Cache, key: Path, entry: CacheEntry, poolBefore: seq<Slot>,
                            after: Cache, poolAfter: seq<Slot>, ceiling: nat)
    requires key !in before
    requires forall k | k in before :: before[k].lastAccessed < entry.lastAccessed
    requires entry.buffer.size > ceiling
    requires Evicted(before[key := entry], poolBefore, after, poolAfter, ceiling)
    ensures after == map[]
  {
    if key in after {
      TotalSizeRemove(after, key);
    }
    NewestSurvivesUnlessAlone(before, key, entry, poolBefore, after, poolAfter, ceiling);
  }

  class ResourceManager {
    var initialized: bool
    var audioRoot: Path
    var maxSources: nat
    var pool: seq<Slot>
    var freeIndices: seq<nat>      // the deque of free slot indices, front first
    var cache: Cache
    var maxCacheSize: nat          // the raw `maxCacheSizeMB` argument, compared with byte counts
    var currentCacheSize: nat
    var loadedDirectories: seq<Path>
    var clock: nat                 // `steady_clock`: every reading is later than the previous one

    /** What every operation keeps: the pool fits a `size_t` count, each
        free index names a slot, the byte counter is the sum of the cached
        sizes, and every cache stamp was taken before the current time. */
    ghost predicate Valid()
      reads this
    {
      && |pool| < SIZE_T_MODULUS
      && (forall k | 0 <= k < |freeIndices| :: freeIndices[k] < |pool|)
      && currentCacheSize == TotalSize(cache)
      && (forall k | k in cache :: cache[k].lastAccessed < clock)
    }

    /** The free list lists exactly the inactive slots, each once. */
    ghost predicate Tidy()
      reads this`pool, this`freeIndices
    {
      FreeListMatches(pool, freeIndices)
    }

    /** The byte total respects the ceiling (or nothing is left to evict). */
    ghost predicate CacheBounded()
      reads this`cache, this`currentCacheSize, this`maxCacheSize
    {
      currentCacheSize <= maxCacheSize || cache == map[]
    }

    constructor ()
      ensures Valid() && Tidy()
      ensures !initialized && maxSources == 0 && maxCacheSize == 0
      ensures pool == [] && freeIndices == [] && cache == map[] && currentCacheSize == 0
      ensures loadedDirectories == [] && clock == 0
    {
      initialized := false;
      audioRoot := "";
      maxSources := 0;
      pool := [];
      freeIndices := [];
      cache := map[];
      maxCacheSize := 0;
      currentCacheSize := 0;
      loadedDirectories := [];
      clock := 0;
    }

    /** Reads the clock. */
    method Now() returns (t: nat)
      modifies this`clock
      ensures t == old(clock) && clock == old(clock) + 1
    {
      t := clock;
      clock := clock + 1;
    }

    /** `initialize`: records the normalised root and the two limits and
        rebuilds the pool. The cache and the directory list are kept. */
    method Initialize(fs: FileSystem, audioRootDirectory: Path, maxSources: nat, maxCacheSizeMB: nat)
      modifies this
      requires Valid() && maxSources < SIZE_T_MODULUS
      ensures Valid() && Tidy()
      ensures initialized && audioRoot == fs.normalize(audioRootDirectory)
      ensures this.maxSources == maxSources && maxCacheSize == maxCacheSizeMB
      ensures |pool| == maxSources
      ensures forall i | 0 <= i < |pool| :: pool[i] == Slot(UncreatedSource, Medium, old(clock), false)
      ensures |freeIndices| == maxSources && forall k | 0 <= k < |freeIndices| :: freeIndices[k] == k
      ensures ActiveSourceCount() == 0
      ensures cache == old(cache) && currentCacheSize == old(currentCacheSize)
      ensures loadedDirectories == old(loadedDirectories) && clock == old(clock) + 1
    {
      audioRoot := fs.normalize(audioRootDirectory);
      this.maxSources := maxSources;
      maxCacheSize := maxCacheSizeMB;
      CreateSourcePool();
      initialized := true;
    }

    /** `initialize` as evidently intended: the ceiling is given in
        megabytes and stored in bytes, the unit the cache counts in. */
    method InitializeInMegabytes(fs: FileSystem, audioRootDirectory: Path, maxSources: nat, maxCacheSizeMB: nat)
      modifies this
      requires Valid() && maxSources < SIZE_T_MODULUS
      ensures Valid() && Tidy()
      ensures initialized && audioRoot == fs.normalize(audioRootDirectory)
      ensures this.maxSources == maxSources && maxCacheSize == maxCacheSizeMB * BYTES_PER_MEGABYTE
      ensures |pool| == maxSources
      ensures forall i | 0 <= i < |pool| :: pool[i] == Slot(UncreatedSource, Medium, old(clock), false)
      ensures |freeIndices| == maxSources && forall k | 0 <= k < |freeIndices| :: freeIndices[k] == k
      ensures ActiveSourceCount() == 0
      ensures cache == old(cache) && currentCacheSize == old(currentCacheSize)
      ensures loadedDirectories == old(loadedDirectories) && clock == old(clock) + 1
    {
      Initialize(fs, audioRootDirectory, maxSources, maxCacheSizeMB * BYTES_PER_MEGABYTE);
    }

    /** `createSourcePool`: `maxSources` fresh inactive Medium slots, all
        stamped with one reading of the clock, and the free list 0, 1, ... */
    method CreateSourcePool()
      modifies this
      requires Valid() && maxSources < SIZE_T_MODULUS
      ensures Valid() && Tidy()
      ensures |pool| == maxSources
      ensures forall i | 0 <= i < |pool| :: pool[i] == Slot(UncreatedSource, Medium, old(clock), false)
      ensures |freeIndices| == maxSources && forall k | 0 <= k < |freeIndices| :: freeIndices[k] == k
      ensures ActiveSourceCount() == 0
      ensures clock == old(clock) + 1
      ensures unchanged(this`initialized, this`audioRoot, this`maxSources, this`maxCacheSize)
      ensures unchanged(this`cache, this`currentCacheSize, this`loadedDirectories)
    {
      var n := maxSources;
      var blank := Slot(UncreatedSource, Medium, 0, false);
      pool := if |pool| >= n then pool[..n] else pool + seq(n - |pool|, _ => blank);
      freeIndices := if |freeIndices| >= n then freeIndices[..n] else freeIndices + seq(n - |freeIndices|, _ => 0);
      var time := Now();
      var index := 0;
      while index < n
        invariant index <= n && |pool| == n && |freeIndices| == n
        invariant forall i | 0 <= i < index :: pool[i] == Slot(UncreatedSource, Medium, time, false)
        invariant forall k | 0 <= k < index :: freeIndices[k] == k
        invariant clock == old(clock) + 1 && time == old(clock)
        invariant unchanged(this`initialized, this`audioRoot, this`maxSources, this`maxCacheSize)
        invariant unchanged(this`cache, this`currentCacheSize, this`loadedDirectories)
      {
        pool := pool[index := Slot(UncreatedSource, Medium, time, false)];
        freeIndices := freeIndices[index := index];
        index := index + 1;
      }
      assert Tidy() by {
        forall i | 0 <= i < |pool|
          ensures i in freeIndices
        {
          assert freeIndices[i] == i;
        }
      }
      ActiveCountFromFreeList(pool, freeIndices);
    }

    /** `shutdown`: empties the pool, the free list, the cache and the
        directory list. */
    method Shutdown()
      modifies this
      ensures Valid() && Tidy()
      ensures !initialized && pool == [] && freeIndices == [] && cache == map[]
      ensures currentCacheSize == 0 && loadedDirectories == []
      ensures unchanged(this`audioRoot, this`maxSources, this`maxCacheSize, this`clock)
    {
      pool := [];
      cache := map[];
      loadedDirectories := [];
      freeIndices := [];
      currentCacheSize := 0;
      initialized := false;
    }

    /** `getActiveSourceCount`: slots minus free entries, in `size_t`
        arithmetic. With a consistent free list it is the number of active
        slots. */
    function ActiveSourceCount(): (n: nat)
      reads this`pool, this`freeIndices
      ensures n < SIZE_T_MODULUS
      ensures Tidy() && |pool| < SIZE_T_MODULUS ==> n == CountActive(pool)
    {
      ActiveCountIfMatches(pool, freeIndices);
      (|pool| - |freeIndices|) % SIZE_T_MODULUS
    }

    /** The caller plays, pauses or stops a voice it holds, or the voice
        finishes on its own: the slot's voice changes, nothing else does. */
    method SourceChanged(index: nat, source: Source)
      modifies this`pool
      requires Valid() && index < |pool|
      ensures Valid()
      ensures pool == old(pool)[index := old(pool)[index].(source := source)]
      ensures old(Tidy()) ==> Tidy()
    {
      pool := pool[index := pool[index].(source := source)];
    }

    /** `findSourceToReplace`, called when no slot is free: the first active
        slot whose voice has stopped, or else the slot first by (priority,
        allocation time), whose voice is stopped; that slot is refused only
        when its priority is strictly above the request. */
    method FindSourceToReplace(newPriority: SoundPriority) returns (found: bool, replaceIndex: nat)
      modifies this`pool
      requires Valid()
      ensures Valid()
      ensures found ==> replaceIndex < |pool|
      ensures old(pool) == [] || old(freeIndices) != [] ==> !found && pool == old(pool)
      ensures old(pool) != [] && old(freeIndices) == [] && (exists i | 0 <= i < |old(pool)| :: Reclaimable(old(pool)[i])) ==>
        && found && replaceIndex < |old(pool)| && Reclaimable(old(pool)[replaceIndex])
        && (forall j | 0 <= j < replaceIndex :: !Reclaimable(old(pool)[j]))
        && pool == old(pool)
      ensures old(pool) != [] && old(freeIndices) == [] && (forall i | 0 <= i < |old(pool)| :: !Reclaimable(old(pool)[i])) ==>
        && IsEvictionCandidate(old(pool), replaceIndex)
        && (found <==> !PriorityLess(newPriority, old(pool)[replaceIndex].priority))
        && pool == if found then old(pool)[replaceIndex := StopIfActive(old(pool)[replaceIndex])] else old(pool)
      ensures old(Tidy()) ==> Tidy()
    {
      if pool == [] || freeIndices != [] {
        return false, 0;
      }
      var reclaimable;
      reclaimable, replaceIndex := FindReclaimable(pool);
      if reclaimable {
        return true, replaceIndex;
      }
      replaceIndex := FindEvictionCandidate(pool);
      if PriorityLess(newPriority, pool[replaceIndex].priority) {
        return false, replaceIndex;
      }
      pool := pool[replaceIndex := StopIfActive(pool[replaceIndex])];
      found := true;
    }

    /** `acquireSource`: the front of the free list when there is one, or
        else the slot `FindSourceToReplace` picks; the slot is given the
        requested priority and the current time and marked active. */
    method AcquireSource(priority: SoundPriority) returns (acquired: bool, index: nat)
      modifies this`pool, this`freeIndices, this`clock
      requires Valid()
      ensures Valid()
      ensures acquired ==> index < |pool|
      ensures old(freeIndices) != [] ==>
        && acquired && index == old(freeIndices)[0] && freeIndices == old(freeIndices)[1..]
        && pool == old(pool)[index := Allocate(old(pool)[index], priority, old(clock))]
      ensures old(freeIndices) == [] ==> freeIndices == []
      ensures old(freeIndices) == [] && old(pool) == [] ==> !acquired && pool == old(pool)
      ensures old(freeIndices) == [] && (exists i | 0 <= i < |old(pool)| :: Reclaimable(old(pool)[i])) ==>
        && acquired && index < |old(pool)| && Reclaimable(old(pool)[index])
        && (forall j | 0 <= j < index :: !Reclaimable(old(pool)[j]))
        && pool == old(pool)[index := Allocate(old(pool)[index], priority, old(clock))]
      ensures old(freeIndices) == [] && old(pool) != [] && (forall i | 0 <= i < |old(pool)| :: !Reclaimable(old(pool)[i])) ==>
        && IsEvictionCandidate(old(pool), index)
        && (acquired <==> !PriorityLess(priority, old(pool)[index].priority))
        && pool == if acquired then old(pool)[index := Allocate(StopIfActive(old(pool)[index]), priority, old(clock))] else old(pool)
      ensures clock == if acquired then old(clock) + 1 else old(clock)
      ensures old(Tidy()) ==> Tidy()
      ensures old(Tidy()) ==> ActiveSourceCount() == old(ActiveSourceCount()) + (if old(freeIndices) != [] then 1 else 0)
    {
      if freeIndices == [] {
        acquired, index := AcquireByReplacement(priority);
      } else {
        index := AcquireFromFreeList(priority);
        acquired := true;
      }
    }

    /** The free-list path of `acquireSource`. */
    method AcquireFromFreeList(priority: SoundPriority) returns (index: nat)
      modifies this`pool, this`freeIndices, this`clock
      requires Valid() && freeIndices != []
      ensures Valid() && index < |pool|
      ensures index == old(freeIndices)[0] && freeIndices == old(freeIndices)[1..]
      ensures pool == old(pool)[index := Allocate(old(pool)[index], priority, old(clock))]
      ensures clock == old(clock) + 1
      ensures old(Tidy()) ==> Tidy() && ActiveSourceCount() == old(ActiveSourceCount()) + 1
    {
      ghost var tidy := Tidy();
      index := TakeFreeIndex();
      AllocateSlot(index, priority);
      if tidy {
        AcquiredStaysTidy(old(pool), old(freeIndices), pool, freeIndices, index);
        ActiveCountFromFreeList(old(pool), old(freeIndices));
        ActiveCountFromFreeList(pool, freeIndices);
      }
    }

    /** The replacement path of `acquireSource`, taken when no slot is free. */
    method AcquireByReplacement(priority: SoundPriority) returns (acquired: bool, index: nat)
      modifies this`pool, this`clock
      requires Valid() && freeIndices == []
      ensures Valid()
      ensures acquired ==> index < |pool|
      ensures old(pool) == [] ==> !acquired && pool == old(pool)
      ensures (exists i | 0 <= i < |old(pool)| :: Reclaimable(old(pool)[i])) ==>
        && acquired && index < |old(pool)| && Reclaimable(old(pool)[index])
        && (forall j | 0 <= j < index :: !Reclaimable(old(pool)[j]))
        && pool == old(pool)[index := Allocate(old(pool)[index], priority, old(clock))]
      ensures old(pool) != [] && (forall i | 0 <= i < |old(pool)| :: !Reclaimable(old(pool)[i])) ==>
        && IsEvictionCandidate(old(pool), index)
        && (acquired <==> !PriorityLess(priority, old(pool)[index].priority))
        && pool == if acquired then old(pool)[index := Allocate(StopIfActive(old(pool)[index]), priority, old(clock))] else old(pool)
      ensures clock == if acquired then old(clock) + 1 else old(clock)
      ensures old(Tidy()) ==> Tidy() && ActiveSourceCount() == old(ActiveSourceCount())
    {
      ghost var tidy := Tidy();
      var found;
      found, index := FindSourceToReplace(priority);
      if !found {
        return false, index;
      }
      AllocateSlot(index, priority);
      acquired := true;
      if tidy {
        AllActiveWhenNoneFree(old(pool));
        AcquiredStaysTidy(old(pool), old(freeIndices), pool, freeIndices, index);
        ActiveCountFromFreeList(old(pool), old(freeIndices));
        ActiveCountFromFreeList(pool, freeIndices);
      }
    }

    /** Pops the front of the free list. */
    method TakeFreeIndex() returns (index: nat)
      modifies this`freeIndices
      requires Valid() && freeIndices != []
      ensures Valid() && index < |pool|
      ensures index == old(freeIndices)[0] && freeIndices == old(freeIndices)[1..]
    {
      index := freeIndices[0];
      freeIndices := freeIndices[1..];
    }

    /** Gives slot `index` the priority and the current time, marked active. */
    method AllocateSlot(index: nat, priority: SoundPriority)
      modifies this`pool, this`clock
      requires Valid() && index < |pool|
      ensures Valid()
      ensures pool == old(pool)[index := Allocate(old(pool)[index], priority, old(clock))]
      ensures clock == old(clock) + 1
    {
      var now := Now();
      pool := pool[index := Allocate(pool[index], priority, now)];
    }

    /** `releaseSource`, as written: the first slot whose voice has the
        given driver id is detached, made inactive and appended to the free
        list, whether or not it was active; no match changes nothing. It
        always reports success. */
    method ReleaseSource(sourceId: nat) returns (ok: bool)
      modifies this`pool, this`freeIndices
      requires Valid()
      ensures Valid() && ok
      ensures IndexOfSource(old(pool), sourceId).None? ==> pool == old(pool) && freeIndices == old(freeIndices)
      ensures IndexOfSource(old(pool), sourceId).Some? ==>
        var i := IndexOfSource(old(pool), sourceId).value;
        pool == old(pool)[i := Released(old(pool)[i])] && freeIndices == old(freeIndices) + [i]
      ensures old(Tidy()) && (IndexOfSource(old(pool), sourceId).None? || old(pool)[IndexOfSource(old(pool), sourceId).value].active) ==> Tidy()
    {
      var i := 0;
      while i < |pool|
        invariant i <= |pool| && pool == old(pool) && freeIndices == old(freeIndices)
        invariant forall j | 0 <= j < i :: pool[j].source.id != sourceId
      {
        if pool[i].source.id == sourceId {
          ghost var tidy := Tidy();
          pool := pool[i := Released(pool[i])];
          freeIndices := freeIndices + [i];
          if tidy && old(pool)[i].active {
            ReleasedStaysTidy(old(pool), old(freeIndices), i);
          }
          return true;
        }
        i := i + 1;
      }
      return true;
    }

    /** `releaseSource` as evidently intended: only an active slot is
        released, so a second release of the same voice changes nothing. */
    method ReleaseSourceChecked(sourceId: nat) returns (ok: bool)
      modifies this`pool, this`freeIndices
      requires Valid()
      ensures Valid() && ok
      ensures IndexOfActiveSource(old(pool), sourceId).None? ==> pool == old(pool) && freeIndices == old(freeIndices)
      ensures IndexOfActiveSource(old(pool), sourceId).Some? ==>
        var i := IndexOfActiveSource(old(pool), sourceId).value;
        pool == old(pool)[i := Released(old(pool)[i])] && freeIndices == old(freeIndices) + [i]
      ensures old(Tidy()) ==> Tidy()
      ensures old(Tidy()) ==> ActiveSourceCount() == old(ActiveSourceCount()) - (if IndexOfActiveSource(old(pool), sourceId).Some? then 1 else 0)
    {
      ghost var tidy := Tidy();
      var i := 0;
      while i < |pool|
        invariant i <= |pool| && pool == old(pool) && freeIndices == old(freeIndices)
        invariant forall j | 0 <= j < i :: !(pool[j].active && pool[j].source.id == sourceId)
      {
        if pool[i].active && pool[i].source.id == sourceId {
          pool := pool[i := Released(pool[i])];
          freeIndices := freeIndices + [i];
          if tidy {
            ReleasedStaysTidy(old(pool), old(freeIndices), i);
            ActiveCountFromFreeList(old(pool), old(freeIndices));
            ActiveCountFromFreeList(pool, freeIndices);
          }
          return true;
        }
        i := i + 1;
      }
      return true;
    }

    /** `getCacheSizeBytes`: the sum of the cached buffers' sizes. */
    function CacheSizeBytes(): (n: nat)
      reads this
      requires Valid()
      ensures n == TotalSize(cache)
      ensures cache == map[] ==> n == 0
    {
      currentCacheSize
    }

    /** The loop shared by eviction and unloading: every active voice
        holding buffer `bufferId` is detached. */
    method DetachBufferFromSources(bufferId: BufferId)
      modifies this`pool
      requires Valid()
      ensures Valid()
      ensures pool == DetachAll(old(pool), {bufferId})
      ensures old(Tidy()) ==> Tidy()
    {
      var i := 0;
      while i < |pool|
        invariant i <= |pool| == |old(pool)|
        invariant forall j | 0 <= j < i :: pool[j] == DetachIfHolding(old(pool)[j], {bufferId})
        invariant forall j | i <= j < |pool| :: pool[j] == old(pool)[j]
      {
        if pool[i].active && pool[i].source.bufferId == bufferId {
          pool := pool[i := pool[i].(source := Detach(pool[i].source))];
        }
        i := i + 1;
      }
      DetachAllKeepsFreeList(old(pool), freeIndices, {bufferId});
    }

    /** `freeOldestBuffer`: while the total exceeds the ceiling and the cache
        is not empty, removes the least recently accessed entry, detaching
        the active voices that hold its buffer. */
    method FreeOldestBuffer()
      modifies this`pool, this`cache, this`currentCacheSize
      requires Valid()
      ensures Valid() && CacheBounded()
      ensures Evicted(old(cache), old(pool), cache, pool, maxCacheSize)
      ensures old(Tidy()) ==> Tidy()
    {
      ghost var lastRemoved: Path := "";
      EvictionStart(cache, pool, maxCacheSize);
      while currentCacheSize > maxCacheSize && cache != map[]
        invariant Valid()
        invariant EvictionSoFar(old(cache), old(pool), cache, pool, maxCacheSize, lastRemoved)
        invariant old(Tidy()) ==> Tidy()
        decreases |cache|
      {
        var oldest := FindOldest(cache);
        EvictionStep(old(cache), old(pool), cache, pool, maxCacheSize, lastRemoved, oldest);
        EvictEntry(oldest);
        lastRemoved := oldest;
      }
      EvictionDone(old(cache), old(pool), cache, pool, maxCacheSize, lastRemoved);
    }

    /** One round of `freeOldestBuffer`: the entry under `key` leaves the
        cache and its size leaves the total, and the active voices holding
        its buffer are detached. */
    method EvictEntry(key: Path)
      modifies this`pool, this`cache, this`currentCacheSize
      requires Valid() && key in cache
      ensures Valid()
      ensures cache == old(cache) - {key}
      ensures pool == DetachAll(old(pool), {old(cache)[key].buffer.id as nat})
      ensures old(Tidy()) ==> Tidy()
    {
      DetachBufferFromSources(cache[key].buffer.id);
      RemoveEntry(key);
    }

    /** Erasing the entry under `key` from the cache and its size from the
        total, which keeps the total equal to the entries' sizes. */
    method RemoveEntry(key: Path)
      modifies this`cache, this`currentCacheSize
      requires Valid() && key in cache
      ensures Valid()
      ensures cache == old(cache) - {key} && |cache| == |old(cache)| - 1
      ensures currentCacheSize == old(currentCacheSize) - old(cache)[key].buffer.size
    {
      TotalSizeRemove(cache, key);
      currentCacheSize := currentCacheSize - cache[key].buffer.size;
      assert |cache.Keys - {key}| == |cache.Keys| - 1;
      assert (cache - {key}).Keys == cache.Keys - {key};
      cache := cache - {key};
    }

    /** `preloadFileImpl`: a regular file with a supported extension that is
        not yet cached is decoded and cached with no references and the
        current time, and the cache is then brought back under the ceiling.
        A cached file is left as it is. A file that is missing, unsupported
        or fails to decode changes nothing. */
    method PreloadFileImpl(fs: FileSystem, filename: Path) returns (ok: bool)
      modifies this`pool, this`cache, this`currentCacheSize, this`clock
      requires Valid()
      ensures Valid()
      ensures var key := FullPath(fs, audioRoot, filename);
        ok <==> IsSupportedAudioFile(fs, key) && (key in old(cache) || fs.decode(key).Some?)
      ensures var key := FullPath(fs, audioRoot, filename);
        !ok || key in old(cache) ==> cache == old(cache) && pool == old(pool) && clock == old(clock)
      ensures var key := FullPath(fs, audioRoot, filename);
        ok && key !in old(cache) ==>
          && clock == old(clock) + 1
          && Evicted(old(cache)[key := CacheEntry(fs.decode(key).value, 0, old(clock))], old(pool), cache, pool, maxCacheSize)
      ensures old(CacheBounded()) ==> CacheBounded()
      ensures old(Tidy()) ==> Tidy()
    {
      var fullPath := FullPath(fs, audioRoot, filename);
      if fullPath !in fs.regularFiles {
        return false;
      }
      if !IsSupportedAudioFile(fs, fullPath) {
        return false;
      }
      if fullPath in cache {
        return true;
      }
      var decoded := fs.decode(fullPath);
      if decoded.None? {
        return false;
      }
      CacheAndEvict(fullPath, decoded.value);
      return true;
    }

    /** The success path of `preloadFileImpl`: caches `buffer` under the
        new key `key` with no references and the current time, adds its
        size to the total, and evicts if the total exceeds the ceiling. */
    method CacheAndEvict(key: Path, buffer: Buffer)
      modifies this`pool, this`cache, this`currentCacheSize, this`clock
      requires Valid() && key !in cache
      ensures Valid() && CacheBounded()
      ensures clock == old(clock) + 1
      ensures Evicted(old(cache)[key := CacheEntry(buffer, 0, old(clock))], old(pool), cache, pool, maxCacheSize)
      ensures old(Tidy()) ==> Tidy()
    {
      var now := Now();
      var entry := CacheEntry(buffer, 0, now);
      TotalSizeInsert(cache, key, entry);
      currentCacheSize := currentCacheSize + buffer.size;
      cache := cache[key := entry];
      if currentCacheSize > maxCacheSize {
        FreeOldestBuffer();
      } else {
        EvictionStart(cache, pool, maxCacheSize);
        EvictionDone(cache, pool, cache, pool, maxCacheSize, "");
      }
    }

    /** The miss path of `getBuffer`: the file is preloaded under its own
        full path; the lookup then succeeds exactly when an entry for the
        lookup path is cached, and takes a reference to it. */
    method GetMissingBuffer(fs: FileSystem, filename: Path, key: Path, ghost loaded: Option<Buffer>,
        ghost fits: bool, ghost tooLarge: bool)
      returns (buffer: Option<Buffer>)
      modifies this`pool, this`cache, this`currentCacheSize, this`clock
      requires Valid() && key == RootedPath(fs, audioRoot, filename) && key !in cache
      requires loaded == LoadableBy(fs, audioRoot, filename)
      requires fits == (loaded.Some? && TotalSize(cache) + loaded.value.size <= maxCacheSize)
      requires tooLarge == (loaded.Some? && loaded.value.size > maxCacheSize)
      ensures Valid()
      ensures buffer.Some? <==> key in cache
      ensures buffer.Some? ==> buffer == loaded && cache[key].buffer == buffer.value && cache[key].refCount == 1
      ensures loaded.None? && FullPath(fs, audioRoot, filename) == key ==>
        buffer.None? && cache == old(cache) && pool == old(pool) && clock == old(clock)
      ensures loaded.Some? && buffer.None? ==> cache == map[]
      ensures fits ==>
        && buffer == loaded
        && cache == Retain(old(cache)[key := CacheEntry(loaded.value, 0, old(clock))], key, old(clock) + 1)
        && pool == old(pool)
      ensures tooLarge ==> buffer.None? && cache == map[]
      ensures loaded.Some? ==>
        exists preloaded ::
          && Evicted(old(cache)[key := CacheEntry(loaded.value, 0, old(clock))], old(pool), preloaded, pool, maxCacheSize)
          && cache == (if key in preloaded then Retain(preloaded, key, old(clock) + 1) else preloaded)
      ensures old(CacheBounded()) ==> CacheBounded()
      ensures old(Tidy()) ==> Tidy()
    {
      var found := LoadForLookup(fs, filename, key, loaded, fits, tooLarge);
      ghost var preloaded := cache;
      ghost var inserted := if loaded.Some? then old(cache)[key := CacheEntry(loaded.value, 0, old(clock))] else old(cache);
      assert loaded.Some? ==> Evicted(inserted, old(pool), preloaded, pool, maxCacheSize);
      if !found {
        assert cache == preloaded;
        return None;
      }
      ghost var entry := cache[key];
      assert loaded.Some? && entry.buffer == loaded.value;
      RetainEntry(key);
      assert cache == Retain(preloaded, key, old(clock) + 1);
      assert cache[key].buffer == entry.buffer && cache[key].refCount == 1;
      return Some(cache[key].buffer);
    }

    /** Preloads a file for `getBuffer` and reports whether an entry for
        the lookup path is then cached. */
    method LoadForLookup(fs: FileSystem, filename: Path, key: Path, ghost loaded: Option<Buffer>,
        ghost fits: bool, ghost tooLarge: bool)
      returns (found: bool)
      modifies this`pool, this`cache, this`currentCacheSize, this`clock
      requires Valid() && key == RootedPath(fs, audioRoot, filename) && key !in cache
      requires loaded == LoadableBy(fs, audioRoot, filename)
      requires fits == (loaded.Some? && TotalSize(cache) + loaded.value.size <= maxCacheSize)
      requires tooLarge == (loaded.Some? && loaded.value.size > maxCacheSize)
      ensures Valid()
      ensures found <==> key in cache
      ensures found ==> loaded.Some? && cache[key] == CacheEntry(loaded.value, 0, old(clock))
      ensures loaded.None? && FullPath(fs, audioRoot, filename) == key ==>
        cache == old(cache) && pool == old(pool) && clock == old(clock)
      ensures loaded.Some? && !found ==> cache == map[]
      ensures fits ==>
        && cache == old(cache)[key := CacheEntry(loaded.value, 0, old(clock))]
        && pool == old(pool) && clock == old(clock) + 1
      ensures tooLarge ==> !found && cache == map[]
      ensures loaded.Some? ==>
        && clock == old(clock) + 1
        && Evicted(old(cache)[key := CacheEntry(loaded.value, 0, old(clock))], old(pool), cache, pool, maxCacheSize)
      ensures old(CacheBounded()) ==> CacheBounded()
      ensures old(Tidy()) ==> Tidy()
    {
      var fullPath := key;
      var ok := PreloadFileImpl(fs, filename);
      found := fullPath in cache;
      if FullPath(fs, audioRoot, filename) == fullPath && ok {
        var entry := CacheEntry(fs.decode(fullPath).value, 0, old(clock));
        NewestSurvivesUnlessAlone(old(cache), fullPath, entry, old(pool), cache, pool, maxCacheSize);
        if TotalSize(old(cache)) + entry.buffer.size <= maxCacheSize {
          EvictedWhenFits(old(cache), fullPath, entry, old(pool), cache, pool, maxCacheSize);
        }
        if entry.buffer.size > maxCacheSize {
          EvictedWhenTooLarge(old(cache), fullPath, entry, old(pool), cache, pool, maxCacheSize);
        }
      }
    }

    /** `getBuffer`: a cached file gains a reference and a fresh access
        time; a file not cached is preloaded first, and a file that cannot
        be loaded yields nothing. When no entry is under the lookup path
        after the preload (evicted at once, or cached under a different
        name), the original dereferences a null buffer; here no buffer is
        returned and nothing is inserted. */
    method GetBuffer(fs: FileSystem, filename: Path) returns (buffer: Option<Buffer>)
      modifies this`pool, this`cache, this`currentCacheSize, this`clock
      requires Valid()
      ensures Valid()
      ensures buffer.Some? <==> RootedPath(fs, audioRoot, filename) in cache
      ensures var key := RootedPath(fs, audioRoot, filename);
        key in old(cache) ==>
          && buffer == Some(old(cache)[key].buffer)
          && cache == Retain(old(cache), key, old(clock))
          && pool == old(pool) && clock == old(clock) + 1
      ensures var key, loaded := RootedPath(fs, audioRoot, filename), LoadableBy(fs, audioRoot, filename);
        key !in old(cache) && buffer.Some? ==> buffer == loaded && cache[key].buffer == buffer.value && cache[key].refCount == 1
      ensures var key, loaded := RootedPath(fs, audioRoot, filename), LoadableBy(fs, audioRoot, filename);
        key !in old(cache) && FullPath(fs, audioRoot, filename) == key && loaded.None? ==>
          buffer.None? && cache == old(cache) && pool == old(pool) && clock == old(clock)
      ensures var key, loaded := RootedPath(fs, audioRoot, filename), LoadableBy(fs, audioRoot, filename);
        key !in old(cache) && loaded.Some? && buffer.None? ==> cache == map[]
      ensures var key, loaded := RootedPath(fs, audioRoot, filename), LoadableBy(fs, audioRoot, filename);
        key !in old(cache) && loaded.Some? && TotalSize(old(cache)) + loaded.value.size <= maxCacheSize ==>
          && buffer == loaded
          && cache == Retain(old(cache)[key := CacheEntry(loaded.value, 0, old(clock))], key, old(clock) + 1)
          && pool == old(pool)
      ensures var key, loaded := RootedPath(fs, audioRoot, filename), LoadableBy(fs, audioRoot, filename);
        key !in old(cache) && loaded.Some? && loaded.value.size > maxCacheSize ==> buffer.None? && cache == map[]
      ensures var key, loaded := RootedPath(fs, audioRoot, filename), LoadableBy(fs, audioRoot, filename);
        key !in old(cache) && loaded.Some? ==>
          exists preloaded ::
            && Evicted(old(cache)[key := CacheEntry(loaded.value, 0, old(clock))], old(pool), preloaded, pool, maxCacheSize)
            && cache == (if key in preloaded then Retain(preloaded, key, old(clock) + 1) else preloaded)
      ensures old(CacheBounded()) ==> CacheBounded()
      ensures old(Tidy()) ==> Tidy()
    {
      var fullPath := RootedPath(fs, audioRoot, filename);
      if fullPath in cache {
        RetainEntry(fullPath);
        return Some(cache[fullPath].buffer);
      }
      ghost var loaded := LoadableBy(fs, audioRoot, filename);
      buffer := GetMissingBuffer(fs, filename, fullPath, loaded,
        loaded.Some? && TotalSize(cache) + loaded.value.size <= maxCacheSize,
        loaded.Some? && loaded.value.size > maxCacheSize);
    }

    /** The hit path of `getBuffer`: one more reference and a fresh access time. */
    method RetainEntry(key: Path)
      modifies this`cache, this`clock
      requires Valid() && key in cache
      ensures Valid()
      ensures cache == Retain(old(cache), key, old(clock)) && clock == old(clock) + 1
    {
      var now := Now();
      RetainReleaseKeepTotal(cache, key, now);
      cache := Retain(cache, key, now);
    }

    /** `releaseBuffer`: drops one reference from a cached file, but never
        below zero; a file not cached changes nothing. Always succeeds. */
    method ReleaseBuffer(fs: FileSystem, filename: Path) returns (ok: bool)
      modifies this`cache
      requires Valid()
      ensures Valid() && ok
      ensures cache == Release(old(cache), RootedPath(fs, audioRoot, filename))
    {
      var fullPath := RootedPath(fs, audioRoot, filename);
      if fullPath !in cache {
        return true;
      }
      if cache[fullPath].refCount == 0 {
        return true;
      }
      RetainReleaseKeepTotal(cache, fullPath, 0);
      cache := Release(cache, fullPath);
      return true;
    }

    /** `unloadFileImpl`: a cached regular file is removed from the cache;
        when it still has references, the active voices holding its buffer
        are detached first. A name that is not a regular file, or not
        cached, changes nothing. Always reports success. */
    method UnloadFileImpl(fs: FileSystem, filename: Path) returns (ok: bool)
      modifies this`pool, this`cache, this`currentCacheSize
      requires Valid()
      ensures Valid() && ok
      ensures var key := FullPath(fs, audioRoot, filename);
        key !in fs.regularFiles || key !in old(cache) ==> cache == old(cache) && pool == old(pool)
      ensures var key := FullPath(fs, audioRoot, filename);
        key in fs.regularFiles && key in old(cache) ==>
          && cache == old(cache) - {key}
          && pool == if old(cache)[key].refCount > 0 then DetachAll(old(pool), {old(cache)[key].buffer.id as nat}) else old(pool)
      ensures old(Tidy()) ==> Tidy()
      ensures old(CacheBounded()) ==> CacheBounded()
    {
      var fullPath := FullPath(fs, audioRoot, filename);
      if fullPath !in fs.regularFiles {
        return true;
      }
      if fullPath !in cache {
        return true;
      }
      if cache[fullPath].refCount > 0 {
        DetachBufferFromSources(cache[fullPath].buffer.id);
      }
      RemoveEntry(fullPath);
      return true;
    }

    /** `cleanupUnusedBuffers`: removes every entry without references and
        returns how many were removed. Voices are not touched. */
    method CleanupUnusedBuffers() returns (removed: nat)
      modifies this`cache, this`currentCacheSize
      requires Valid()
      ensures Valid()
      ensures cache == InUse(old(cache))
      ensures removed == |old(cache)| - |cache|
      ensures old(CacheBounded()) ==> CacheBounded()
    {
      removed := 0;
      var todo := cache.Keys;
      while todo != {}
        invariant Valid()
        invariant todo <= cache.Keys
        invariant forall k :: k in cache <==> k in old(cache) && (k in todo || old(cache)[k].refCount != 0)
        invariant forall k | k in cache :: cache[k] == old(cache)[k]
        invariant removed + |cache| == |old(cache)|
        invariant TotalSize(cache) <= TotalSize(old(cache))
        decreases todo
      {
        var k :| k in todo;
        if cache[k].refCount != 0 {
          todo := todo - {k};
          continue;
        }
        RemoveEntry(k);
        removed := removed + 1;
        todo := todo - {k};
      }
    }

    /** `isDirectoryLoadedImpl`: a linear search of the loaded list. */
    method IsDirectoryLoaded(subdirectory: Path) returns (loaded: bool)
      ensures loaded <==> ContainsPath(loadedDirectories, subdirectory)
    {
      var i := 0;
      while i < |loadedDirectories|
        invariant i <= |loadedDirectories|
        invariant !ContainsPath(loadedDirectories[..i], subdirectory)
      {
        if SamePath(loadedDirectories[i], subdirectory) {
          return true;
        }
        assert loadedDirectories[..i + 1] == loadedDirectories[..i] + [loadedDirectories[i]];
        i := i + 1;
      }
      assert loadedDirectories[..i] == loadedDirectories;
      return false;
    }

    /** `scanDirectoryForAudioFiles`: the supported audio files met in the
        recursive walk of the subdirectory, in walk order, and whether there
        was any. */
    method ScanDirectoryForAudioFiles(fs: FileSystem, subdirectory: Path) returns (found: bool, audioFiles: seq<Path>)
      ensures audioFiles == AudioFilesAmong(fs, DirectoryEntries(fs, audioRoot, subdirectory))
      ensures found <==> audioFiles != []
    {
      var entries := DirectoryEntries(fs, audioRoot, subdirectory);
      audioFiles := [];
      found := false;
      var i := 0;
      while i < |entries|
        invariant i <= |entries|
        invariant audioFiles == AudioFilesAmong(fs, entries[..i])
        invariant found <==> audioFiles != []
      {
        AudioFilesAmongStep(fs, entries, i);
        if IsSupportedAudioFile(fs, entries[i]) {
          audioFiles := audioFiles + [entries[i]];
          found := true;
        }
        i := i + 1;
      }
      assert entries[..i] == entries;
    }

    /** `preloadDirectory`: a subdirectory that exists and is not yet loaded
        has every audio file in it preloaded and is then recorded, provided
        it holds at least one; preloading takes no references. A missing
        subdirectory or one without audio files fails and is not recorded;
        an already-loaded one succeeds with no change. */
    method PreloadDirectory(fs: FileSystem, subdirectory: Path) returns (ok: bool)
      modifies this`pool, this`cache, this`currentCacheSize, this`clock, this`loadedDirectories
      requires Valid()
      ensures Valid()
      ensures ok <==>
        && RootedPath(fs, audioRoot, subdirectory) in fs.directories
        && (ContainsPath(old(loadedDirectories), subdirectory) || AudioFilesAmong(fs, DirectoryEntries(fs, audioRoot, subdirectory)) != [])
      ensures loadedDirectories == if ok && !ContainsPath(old(loadedDirectories), subdirectory) then old(loadedDirectories) + [subdirectory] else old(loadedDirectories)
      ensures !ok || ContainsPath(old(loadedDirectories), subdirectory) ==>
        cache == old(cache) && pool == old(pool) && clock == old(clock)
      ensures forall k | k in cache :: cache[k].refCount == 0 || (k in old(cache) && cache[k] == old(cache)[k])
      ensures forall k | k in cache && k !in old(cache) ::
        k in FullPathsOf(fs, audioRoot, AudioFilesAmong(fs, DirectoryEntries(fs, audioRoot, subdirectory)))
      ensures DistinctPaths(old(loadedDirectories)) ==> DistinctPaths(loadedDirectories)
      ensures old(CacheBounded()) ==> CacheBounded()
      ensures old(Tidy()) ==> Tidy()
    {
      var fullPath := RootedPath(fs, audioRoot, subdirectory);
      if fullPath !in fs.directories {
        return false;
      }
      var loaded := IsDirectoryLoaded(subdirectory);
      if loaded {
        return true;
      }
      var found, audioFiles := ScanDirectoryForAudioFiles(fs, subdirectory);
      if !found {
        return false;
      }
      var i := 0;
      while i < |audioFiles|
        invariant i <= |audioFiles|
        invariant Valid()
        invariant forall k | k in cache :: cache[k].refCount == 0 || (k in old(cache) && cache[k] == old(cache)[k])
        invariant forall k | k in cache && k !in old(cache) :: k in FullPathsOf(fs, audioRoot, audioFiles[..i])
        invariant old(CacheBounded()) ==> CacheBounded()
        invariant old(Tidy()) ==> Tidy()
        invariant loadedDirectories == old(loadedDirectories)
      {
        FullPathsOfStep(fs, audioRoot, audioFiles, i);
        PreloadNext(fs, audioFiles[i], old(cache), FullPathsOf(fs, audioRoot, audioFiles[..i]));
        i := i + 1;
      }
      assert audioFiles[..i] == audioFiles;
      loadedDirectories := loadedDirectories + [subdirectory];
      return true;
    }

    /** One round of `preloadDirectory`'s loop: `preloadFileImpl` on the
        next file, seen from the state before the loop: an entry is new
        only under a name preloaded so far, and takes no references. */
    method PreloadNext(fs: FileSystem, filename: Path, ghost start: Cache, ghost done: set<Path>)
      modifies this`pool, this`cache, this`currentCacheSize, this`clock
      requires Valid()
      requires forall k | k in cache :: cache[k].refCount == 0 || (k in start && cache[k] == start[k])
      requires forall k | k in cache && k !in start :: k in done
      ensures Valid()
      ensures forall k | k in cache :: cache[k].refCount == 0 || (k in start && cache[k] == start[k])
      ensures forall k | k in cache && k !in start :: k in done + {FullPath(fs, audioRoot, filename)}
      ensures old(CacheBounded()) ==> CacheBounded()
      ensures old(Tidy()) ==> Tidy()
    {
      var _ := PreloadFileImpl(fs, filename);
    }

    /** The loop of `unloadDirectory`: `unloadFileImpl` on each name in turn. */
    method UnloadFiles(fs: FileSystem, files: seq<Path>)
      modifies this`pool, this`cache, this`currentCacheSize
      requires Valid()
      ensures Valid()
      ensures cache == old(cache) - (FullPathsOf(fs, audioRoot, files) * fs.regularFiles)
      ensures pool == DetachAll(old(pool), RemovedReferencedIds(cache, old(cache)))
      ensures old(CacheBounded()) ==> CacheBounded()
      ensures old(Tidy()) ==> Tidy()
    {
      RemovedReferencedIdsNone(cache, cache);
      DetachAllNone(pool);
      var i := 0;
      while i < |files|
        invariant i <= |files|
        invariant Valid()
        invariant cache == old(cache) - (FullPathsOf(fs, audioRoot, files[..i]) * fs.regularFiles)
        invariant pool == DetachAll(old(pool), RemovedReferencedIds(cache, old(cache)))
        invariant old(CacheBounded()) ==> CacheBounded()
        invariant old(Tidy()) ==> Tidy()
      {
        FullPathsOfStep(fs, audioRoot, files, i);
        UnloadNext(fs, files[i], old(cache), old(pool), FullPathsOf(fs, audioRoot, files[..i]));
        i := i + 1;
      }
      assert files[..i] == files;
    }

    /** One round of `unloadDirectory`'s loop: `unloadFileImpl` on the next
        name, seen from the state before the loop: the entries under the
        names done so far, and their referenced buffers' voices, are gone. */
    method UnloadNext(fs: FileSystem, filename: Path, ghost start: Cache, ghost startPool: seq<Slot>, ghost done: set<Path>)
      modifies this`pool, this`cache, this`currentCacheSize
      requires Valid()
      requires cache == start - (done * fs.regularFiles)
      requires pool == DetachAll(startPool, RemovedReferencedIds(cache, start))
      ensures Valid()
      ensures cache == start - ((done + {FullPath(fs, audioRoot, filename)}) * fs.regularFiles)
      ensures pool == DetachAll(startPool, RemovedReferencedIds(cache, start))
      ensures old(CacheBounded()) ==> CacheBounded()
      ensures old(Tidy()) ==> Tidy()
    {
      var key := FullPath(fs, audioRoot, filename);
      RemoveAmongStep(start, done, fs.regularFiles, key);
      if key in fs.regularFiles && key in cache {
        RemovedReferencedIdsStep(cache, start, key);
        if cache[key].refCount > 0 {
          RemovedReferencedIdsNone(start, cache);
          DetachAllAccumulates(startPool, RemovedReferencedIds(cache, start), cache[key].buffer.id as nat);
        }
      }
      var _ := UnloadFileImpl(fs, filename);
    }

    /** `unloadDirectory`: a loaded subdirectory has every audio file in it
        unloaded, that is, removed from the cache when it is a regular file,
        and is then removed from the list; one that is not loaded changes
        nothing. Always reports success. */
    method UnloadDirectory(fs: FileSystem, subdirectory: Path) returns (ok: bool)
      modifies this`pool, this`cache, this`currentCacheSize, this`loadedDirectories
      requires Valid()
      ensures Valid() && ok
      ensures loadedDirectories == WithoutPath(old(loadedDirectories), subdirectory)
      ensures !ContainsPath(old(loadedDirectories), subdirectory) ==> cache == old(cache) && pool == old(pool)
      ensures ContainsPath(old(loadedDirectories), subdirectory) ==>
        var audioFiles := AudioFilesAmong(fs, DirectoryEntries(fs, audioRoot, subdirectory));
        cache == old(cache) - (FullPathsOf(fs, audioRoot, audioFiles) * fs.regularFiles)
      ensures pool == DetachAll(old(pool), RemovedReferencedIds(cache, old(cache)))
      ensures DistinctPaths(old(loadedDirectories)) ==> DistinctPaths(loadedDirectories)
      ensures old(CacheBounded()) ==> CacheBounded()
      ensures old(Tidy()) ==> Tidy()
    {
      var loaded := IsDirectoryLoaded(subdirectory);
      if !loaded {
        RemovedReferencedIdsNone(cache, cache);
        DetachAllNone(pool);
        return true;
      }
      UnloadLoadedDirectory(fs, subdirectory);
      return true;
    }

    /** The body of `unloadDirectory` for a loaded subdirectory: its audio
        files are unloaded and its records erased. */
    method UnloadLoadedDirectory(fs: FileSystem, subdirectory: Path)
      modifies this`pool, this`cache, this`currentCacheSize, this`loadedDirectories
      requires Valid()
      ensures Valid()
      ensures loadedDirectories == WithoutPath(old(loadedDirectories), subdirectory)
      ensures var audioFiles := AudioFilesAmong(fs, DirectoryEntries(fs, audioRoot, subdirectory));
        cache == old(cache) - (FullPathsOf(fs, audioRoot, audioFiles) * fs.regularFiles)
      ensures pool == DetachAll(old(pool), RemovedReferencedIds(cache, old(cache)))
      ensures DistinctPaths(old(loadedDirectories)) ==> DistinctPaths(loadedDirectories)
      ensures old(CacheBounded()) ==> CacheBounded()
      ensures old(Tidy()) ==> Tidy()
    {
      var found, audioFiles := ScanDirectoryForAudioFiles(fs, subdirectory);
      UnloadFiles(fs, audioFiles);
      ForgetDirectory(subdirectory);
    }

    /** The erase-remove at the end of `unloadDirectory`: every record that
        is the same path as the subdirectory is dropped. */
    method ForgetDirectory(subdirectory: Path)
      modifies this`loadedDirectories
      ensures loadedDirectories == WithoutPath(old(loadedDirectories), subdirectory)
      ensures DistinctPaths(old(loadedDirectories)) ==> DistinctPaths(loadedDirectories)
    {
      if DistinctPaths(loadedDirectories) {
        WithoutPathKeepsDistinct(loadedDirectories, subdirectory);
      }
      loadedDirectories := WithoutPath(loadedDirectories, subdirectory);
    }
  }
}
