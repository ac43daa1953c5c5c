/** The decoded-buffer cache's records, its byte total and the searches
    and updates the eviction and reference counting use. */
module CacheModel {
  import opened Paths

  /** Buffer names the driver hands out are never 0 (0 means "no buffer"). */
  type BufferId = x: nat | x > 0 witness 1

  /** A decoded buffer: its driver name and its size in bytes. */
  datatype Buffer = Buffer(id: BufferId, size: nat)

  /** `BufferCacheEntry`. */
  datatype CacheEntry = CacheEntry(buffer: Buffer, refCount: nat, lastAccessed: nat)

  /** The cache, keyed by full path. */
  type Cache = map<Path, CacheEntry>

  ghost function PickKey(c: Cache): Path
    requires c != map[]
  {
    var k :| k in c; k
  }

  /** The sum of the sizes of the cached buffers. */
  ghost function TotalSize(c: Cache): nat
    decreases |c|
  {
    if c == map[] then 0
    else
      var k := PickKey(c);
      c[k].buffer.size + TotalSize(c - {k})
  }

  /** Removing any one entry takes exactly its size off the total. */
  lemma {:induction false} TotalSizeRemove(c: Cache, k: Path)
    requires k in c
    ensures TotalSize(c) == c[k].buffer.size + TotalSize(c - {k})
    decreases |c|
  {
    var j := PickKey(c);
    if j != k {
      TotalSizeRemove(c - {j}, k);
      TotalSizeRemove(c - {k}, j);
      assert c - {j} - {k} == c - {k} - {j};
    }
  }

  /** Inserting a new entry adds exactly its size to the total. */
  lemma TotalSizeInsert(c: Cache, k: Path, e: CacheEntry)
    requires k !in c
    ensures TotalSize(c[k := e]) == TotalSize(c) + e.buffer.size
  {
    TotalSizeRemove(c[k := e], k);
    assert c[k := e] - {k} == c;
  }

  /** Replacing an entry by one with a buffer of the same size keeps the total. */
  lemma TotalSizeReplace(c: Cache, k: Path, e: CacheEntry)
    requires k in c && e.buffer.size == c[k].buffer.size
    ensures TotalSize(c[k := e]) == TotalSize(c)
  {
    TotalSizeRemove(c[k := e], k);
    TotalSizeRemove(c, k);
    assert c[k := e] - {k} == c - {k};
  }

  /** An entry that no key was accessed before. */
  ghost predicate IsOldest(c: Cache, k: Path) {
    k in c && forall j | j in c :: c[k].lastAccessed <= c[j].lastAccessed
  }

  /** `min_element` over the cache by last access. The cache is an unordered
      map, so among equally old entries any may be the one found. */
  method FindOldest(c: Cache) returns (oldest: Path)
    requires c != map[]
    ensures IsOldest(c, oldest)
  {
    var todo := c.Keys;
    oldest :| oldest in todo;
    todo := todo - {oldest};
    while todo != {}
      invariant oldest in c && todo <= c.Keys
      invariant forall j | j in c && j !in todo :: c[oldest].lastAccessed <= c[j].lastAccessed
      decreases todo
    {
      var k :| k in todo;
      if c[k].lastAccessed < c[oldest].lastAccessed {
        oldest := k;
      }
      todo := todo - {k};
    }
  }

  /** The cache after a hit on `k` at time `now`: one more reference and a
      fresh access stamp. */
  function Retain(c: Cache, k: Path, now: nat): Cache
    requires k in c
  {
    c[k := c[k].(refCount := c[k].refCount + 1, lastAccessed := now)]
  }

  /** A hit, at the next tick, on an entry just inserted without references
      is the insertion of the entry with one reference at that tick. */
  lemma RetainInserted(c: Cache, k: Path, b: Buffer, t: nat)
    ensures Retain(c[k := CacheEntry(b, 0, t)], k, t + 1) == c[k := CacheEntry(b, 1, t + 1)]
  {
  }

  /** The cache after `releaseBuffer` on `k`: one reference fewer, but only
      when there is one; a missing key or a zero count changes nothing. */
  function Release(c: Cache, k: Path): (r: Cache)
    ensures r.Keys == c.Keys
    ensures forall j | j in c && j != k :: r[j] == c[j]
    ensures k in c ==> r[k].buffer == c[k].buffer && r[k].lastAccessed == c[k].lastAccessed
    ensures k in c ==> r[k].refCount == if c[k].refCount > 0 then c[k].refCount - 1 else 0
  {
    if k in c && c[k].refCount > 0 then c[k := c[k].(refCount := c[k].refCount - 1)] else c
  }

  /** A release undoes a hit, except for the access stamp. */
  lemma RetainThenRelease(c: Cache, k: Path, now: nat)
    requires k in c
    ensures Release(Retain(c, k, now), k) == c[k := c[k].(lastAccessed := now)]
  {
  }

  /** Hits and releases change no buffer, so they keep the byte total. */
  lemma RetainReleaseKeepTotal(c: Cache, k: Path, now: nat)
    requires k in c
    ensures TotalSize(Retain(c, k, now)) == TotalSize(c)
    ensures TotalSize(Release(c, k)) == TotalSize(c)
  {
    TotalSizeReplace(c, k, Retain(c, k, now)[k]);
    if c[k].refCount > 0 {
      TotalSizeReplace(c, k, Release(c, k)[k]);
    }
  }

  /** Removing the entries under `gone` and then, if it is one of `files`
      and still cached, the entry under `k`, removes those under `gone`
      and `k` among `files`. */
  lemma RemoveAmongStep(c: Cache, gone: set<Path>, files: set<Path>, k: Path)
    ensures (if k in files && k in c - (gone * files) then (c - (gone * files)) - {k} else c - (gone * files))
      == c - ((gone + {k}) * files)
  {
  }

  /** The entries `cleanupUnusedBuffers` keeps: those still referenced. */
  function InUse(c: Cache): (r: Cache)
    ensures r.Keys <= c.Keys
    ensures forall k | k in c :: k in r <==> c[k].refCount != 0
    ensures forall k | k in r :: r[k] == c[k]
  {
    map k | k in c && c[k].refCount != 0 :: c[k]
  }

  /** `after` is `before` with some entries removed and the rest unchanged. */
  ghost predicate SubCache(after: Cache, before: Cache) {
    after.Keys <= before.Keys && forall k | k in after :: after[k] == before[k]
  }

  /** Least-recently-used order of removal: no removed entry was accessed
      later than any entry that stays. */
  ghost predicate RemovedOldestFirst(after: Cache, before: Cache) {
    forall r, k | r in before && r !in after && k in after :: before[r].lastAccessed <= after[k].lastAccessed
  }

  /** The names of the buffers that `before` holds and `after` no longer does. */
  ghost function RemovedBufferIds(after: Cache, before: Cache): set<nat> {
    set r | r in before && r !in after :: before[r].buffer.id as nat
  }

  /** Removing one more entry adds its buffer to the removed ones. */
  lemma RemovedBufferIdsStep(after: Cache, before: Cache, k: Path)
    requires SubCache(after, before) && k in after
    ensures RemovedBufferIds(after - {k}, before) == RemovedBufferIds(after, before) + {after[k].buffer.id as nat}
  {
    var removed := RemovedBufferIds(after, before);
    forall id | id in RemovedBufferIds(after - {k}, before)
      ensures id in removed + {after[k].buffer.id as nat}
    {
      var r :| r in before && r !in after - {k} && before[r].buffer.id as nat == id;
    }
  }

  /** Before any removal nothing was removed; no buffer name is 0. */
  lemma RemovedBufferIdsNone(c: Cache, after: Cache)
    ensures RemovedBufferIds(c, c) == {}
    ensures 0 !in RemovedBufferIds(after, c)
  {
  }

  /** The names of the buffers that `before` holds with references and
      `after` no longer holds: those whose voices `unloadFileImpl` detaches. */
  ghost function RemovedReferencedIds(after: Cache, before: Cache): set<nat> {
    set r | r in before && r !in after && before[r].refCount > 0 :: before[r].buffer.id as nat
  }

  /** Removing one more entry adds its buffer to the removed referenced
      ones exactly when it still has references. */
  lemma RemovedReferencedIdsStep(after: Cache, before: Cache, k: Path)
    requires SubCache(after, before) && k in after
    ensures RemovedReferencedIds(after - {k}, before)
      == RemovedReferencedIds(after, before) + if after[k].refCount > 0 then {after[k].buffer.id as nat} else {}
  {
    var removed := RemovedReferencedIds(after, before);
    forall id | id in RemovedReferencedIds(after - {k}, before)
      ensures id in removed + if after[k].refCount > 0 then {after[k].buffer.id as nat} else {}
    {
      var r :| r in before && r !in after - {k} && before[r].refCount > 0 && before[r].buffer.id as nat == id;
    }
  }

  /** Before any removal no referenced buffer was removed; no buffer name is 0. */
  lemma RemovedReferencedIdsNone(c: Cache, after: Cache)
    ensures RemovedReferencedIds(c, c) == {}
    ensures 0 !in RemovedReferencedIds(after, c)
  {
  }
}
