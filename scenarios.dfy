/** Concrete runs of the resource manager on a small file system: the
    behaviours the unit tests exercise, and the two discrepancies between
    the code and its evident intent. */
module Scenarios {
  import opened Util
  import opened Types
  import opened Paths
  import opened PoolModel
  import opened CacheModel
  import opened Disk
  import opened Resources

  const Root: Path := "/audio"
  const SoundsName: Path := "sounds"
  const Sounds: Path := Root + "/" + SoundsName
  const Test1File: Path := "test1" + "." + "wav"
  const Test1Name: Path := SoundsName + "/" + Test1File
  const Test1: Path := Sounds + "/" + Test1File

  /** One second of 16-bit mono audio at 44.1 kHz, as the test WAV files hold. */
  const Test1Buffer: Buffer := Buffer(1, 88200)

  /** A file system holding one WAV file in the `sounds` subdirectory of
      the root; paths are joined with '/', normalisation changes nothing,
      and only that file decodes. */
  function TestFileSystem(): FileSystem {
    FileSystem(
      {Test1},
      {Root, Sounds},
      d => if d == Sounds then [Test1] else [],
      p => p,
      p => |p| > 0 && p[0] == '/',
      (a, b) => a + "/" + b,
      p => if p == Test1 then Some(Test1Buffer) else None)
  }

  /** What a lookup of the test file by its relative name finds. */
  lemma Test1Lookup()
    ensures RootedPath(TestFileSystem(), Root, Test1Name) == Test1
    ensures FullPath(TestFileSystem(), Root, Test1Name) == Test1
    ensures IsSupportedAudioFile(TestFileSystem(), Test1)
    ensures TestFileSystem().decode(Test1) == Some(Test1Buffer)
  {
    Test1Resolves();
    Test1IsSupported();
  }

  lemma Test1Resolves()
    ensures RootedPath(TestFileSystem(), Root, Test1Name) == Test1
    ensures FullPath(TestFileSystem(), Root, Test1Name) == Test1
  {
    assert Test1Name[0] == 's';
    assert Root + "/" + Test1Name == Test1;
  }

  lemma SoundsResolves()
    ensures RootedPath(TestFileSystem(), Root, SoundsName) == Sounds
    ensures RootedPath(TestFileSystem(), Root, "music") !in TestFileSystem().directories
  {
    var music := Root + "/" + "music";
    assert music[7] == 'm' && Sounds[7] == 's' && |Root| < |music|;
  }

  lemma SoundsHoldsTest1()
    ensures AudioFilesAmong(TestFileSystem(), DirectoryEntries(TestFileSystem(), Root, SoundsName)) == [Test1]
  {
    var fs := TestFileSystem();
    SoundsResolves();
    Test1IsSupported();
    assert DirectoryEntries(fs, Root, SoundsName) == [Test1];
    assert [Test1][..0] == [];
  }

  lemma Test1IsSupported()
    ensures IsSupportedAudioFile(TestFileSystem(), Test1)
  {
    assert Test1 == Sounds + "/" + "test1" + "." + "wav";
    ExtensionOfFileName(Sounds, "test1", "wav");
  }

  /** A manager just initialised with four voices: nothing active, four
      slots, nothing cached. */
  method FreshManager() returns (active: nat, total: nat, cached: nat, bytes: nat)
    ensures active == 0 && total == 4 && cached == 0 && bytes == 0
  {
    var m := new ResourceManager();
    m.Initialize(TestFileSystem(), Root, 4, 2);
    active := m.ActiveSourceCount();
    total := |m.pool|;
    cached := |m.cache|;
    bytes := m.CacheSizeBytes();
  }

  /** With one voice: a Critical holder is not displaced by a Low request,
      but is displaced by another Critical one; the count stays at one. */
  method EqualPriorityIsReplaced() returns (lowAcquired: bool, criticalAcquired: bool, index: nat, active: nat)
    ensures !lowAcquired && criticalAcquired && index == 0 && active == 1
  {
    var m := new ResourceManager();
    m.Initialize(TestFileSystem(), Root, 1, 2);
    var first, i0 := m.AcquireSource(Critical);
    assert m.pool[0] == Slot(UncreatedSource, Critical, 1, true);
    lowAcquired, index := m.AcquireSource(Low);
    criticalAcquired, index := m.AcquireSource(Critical);
    active := m.ActiveSourceCount();
  }

  /** After `shutdown`, twice over, the pool is empty and acquisition fails. */
  method AcquireAfterShutdown() returns (acquired: bool, total: nat)
    ensures !acquired && total == 0
  {
    var m := new ResourceManager();
    m.Initialize(TestFileSystem(), Root, 4, 2);
    m.Shutdown();
    m.Shutdown();
    var index;
    acquired, index := m.AcquireSource(High);
    total := |m.pool|;
  }

  /** Acquiring a voice from four free slots leaves three free, and the
      voice is found by its driver id. */
  method AcquireOneOfFour(m: ResourceManager) returns (sourceId: nat)
    modifies m`pool, m`freeIndices, m`clock
    requires m.Valid() && |m.pool| == 4 && |m.freeIndices| == 4
    ensures m.Valid() && |m.pool| == 4 && |m.freeIndices| == 3
    ensures IndexOfSource(m.pool, sourceId).Some?
  {
    var acquired, index := m.AcquireSource(Medium);
    sourceId := m.pool[index].source.id;
  }

  /** As written, a second release of the same voice appends its slot
      index to the free list again. */
  method ReleaseTwice(m: ResourceManager, sourceId: nat)
    modifies m`pool, m`freeIndices
    requires m.Valid() && IndexOfSource(m.pool, sourceId).Some?
    ensures |m.pool| == |old(m.pool)| && |m.freeIndices| == |old(m.freeIndices)| + 2
  {
    ghost var i := IndexOfSource(m.pool, sourceId).value;
    var ok := m.ReleaseSource(sourceId);
    assert m.pool[i].source.id == sourceId;
    ok := m.ReleaseSource(sourceId);
  }

  /** As written, releasing the same voice twice appends its index twice,
      and the active count wraps around to the largest `size_t`. */
  method DoubleReleaseWraps() returns (active: nat)
    ensures active == SIZE_T_MODULUS - 1
  {
    var m := new ResourceManager();
    m.Initialize(TestFileSystem(), Root, 4, 2);
    var sourceId := AcquireOneOfFour(m);
    ReleaseTwice(m, sourceId);
    assert (4 - 5) % SIZE_T_MODULUS == SIZE_T_MODULUS - 1;
    active := m.ActiveSourceCount();
  }

  /** Releasing only active slots, a second release changes nothing and the
      count returns to zero. */
  method DoubleReleaseChecked() returns (active: nat)
    ensures active == 0
  {
    var m := new ResourceManager();
    m.Initialize(TestFileSystem(), Root, 4, 2);
    var acquired, index := m.AcquireSource(Medium);
    var sourceId := m.pool[index].source.id;
    var ok := m.ReleaseSourceChecked(sourceId);
    ok := m.ReleaseSourceChecked(sourceId);
    active := m.ActiveSourceCount();
  }

  /** A first lookup of the test file in an empty cache whose ceiling
      holds it: the decoded buffer, cached with one reference. */
  method LookupFits(m: ResourceManager) returns (buffer: Option<Buffer>)
    modifies m`pool, m`cache, m`currentCacheSize, m`clock
    requires m.Valid() && m.audioRoot == Root && m.cache == map[]
    requires m.maxCacheSize >= Test1Buffer.size
    ensures m.Valid() && m.audioRoot == Root && m.maxCacheSize == old(m.maxCacheSize)
    ensures buffer == Some(Test1Buffer)
    ensures m.cache.Keys == {Test1} && m.cache[Test1].refCount == 1
  {
    var fs := TestFileSystem();
    Test1Lookup();
    buffer := m.GetBuffer(fs, Test1Name);
  }

  /** The same lookup under a ceiling smaller than the file: evicted as
      soon as it is cached, so no entry is left and no buffer is returned
      (where the original dereferences a null buffer). */
  method LookupTooLarge(m: ResourceManager) returns (buffer: Option<Buffer>)
    modifies m`pool, m`cache, m`currentCacheSize, m`clock
    requires m.Valid() && m.audioRoot == Root && m.cache == map[]
    requires m.maxCacheSize < Test1Buffer.size
    ensures buffer.None? && m.cache == map[]
  {
    var fs := TestFileSystem();
    Test1Lookup();
    buffer := m.GetBuffer(fs, Test1Name);
  }

  /** A lookup of the cached test file takes one more reference. */
  method LookupCached(m: ResourceManager) returns (buffer: Option<Buffer>)
    modifies m`pool, m`cache, m`currentCacheSize, m`clock
    requires m.Valid() && m.audioRoot == Root && Test1 in m.cache
    ensures m.Valid() && m.audioRoot == Root
    ensures buffer == Some(old(m.cache)[Test1].buffer)
    ensures m.cache.Keys == old(m.cache).Keys
    ensures m.cache[Test1].refCount == old(m.cache)[Test1].refCount + 1
  {
    var fs := TestFileSystem();
    Test1Lookup();
    buffer := m.GetBuffer(fs, Test1Name);
  }

  /** A release of the cached test file drops one reference, never below zero. */
  method ReleaseCached(m: ResourceManager)
    modifies m`cache
    requires m.Valid() && m.audioRoot == Root && Test1 in m.cache
    ensures m.Valid() && m.audioRoot == Root
    ensures m.cache.Keys == old(m.cache).Keys
    ensures m.cache[Test1].refCount == if old(m.cache)[Test1].refCount > 0 then old(m.cache)[Test1].refCount - 1 else 0
  {
    var fs := TestFileSystem();
    Test1Lookup();
    var ok := m.ReleaseBuffer(fs, Test1Name);
  }

  /** Preloading the test file into an empty cache that holds it caches it
      with no references. */
  method PreloadFits(m: ResourceManager) returns (ok: bool)
    modifies m`pool, m`cache, m`currentCacheSize, m`clock
    requires m.Valid() && m.audioRoot == Root && m.cache == map[]
    requires m.maxCacheSize >= Test1Buffer.size
    ensures m.Valid() && ok
    ensures m.cache.Keys == {Test1} && m.cache[Test1].refCount == 0
  {
    var fs := TestFileSystem();
    Test1Lookup();
    ghost var pool := m.pool;
    ghost var clock := m.clock;
    ghost var before: Cache := map[];
    assert TotalSize(before) == 0;
    ok := m.PreloadFileImpl(fs, Test1Name);
    ghost var entry := CacheEntry(Test1Buffer, 0, clock);
    EvictedWhenFits(before, Test1, entry, pool, m.cache, m.pool, m.maxCacheSize);
    assert m.cache == map[Test1 := entry];
  }

  /** Four releases of the test file held three times leave it cached
      with no references. */
  method ReleaseFourTimes(m: ResourceManager)
    modifies m`cache
    requires m.Valid() && m.audioRoot == Root
    requires m.cache.Keys == {Test1} && m.cache[Test1].refCount == 3
    ensures m.cache.Keys == {Test1} && m.cache[Test1].refCount == 0
  {
    ReleaseCached(m);
    ReleaseCached(m);
    ReleaseCached(m);
    ReleaseCached(m);
  }

  /** Three lookups of the test file take three references. */
  method LookupThrice(m: ResourceManager)
    modifies m`pool, m`cache, m`currentCacheSize, m`clock
    requires m.Valid() && m.audioRoot == Root && m.cache == map[]
    requires m.maxCacheSize >= Test1Buffer.size
    ensures m.Valid() && m.audioRoot == Root
    ensures m.cache.Keys == {Test1} && m.cache[Test1].refCount == 3
  {
    var b := LookupFits(m);
    b := LookupCached(m);
    b := LookupCached(m);
  }

  /** Three lookups take three references to the one cached buffer; four
      releases bring the count to zero and no lower, and the buffer stays. */
  method ReferenceCounting() returns (refsAfterGets: nat, refsAfterReleases: nat, cached: nat)
    ensures refsAfterGets == 3 && refsAfterReleases == 0 && cached == 1
  {
    var m := new ResourceManager();
    m.InitializeInMegabytes(TestFileSystem(), Root, 4, 2);
    LookupThrice(m);
    refsAfterGets := m.cache[Test1].refCount;
    ReleaseFourTimes(m);
    refsAfterReleases := m.cache[Test1].refCount;
    cached := |m.cache|;
  }

  /** Cleanup removes exactly the entries nobody references. */
  method CleanupRemovesUnreferenced() returns (removed: nat, cached: nat)
    ensures removed == 1 && cached == 0
  {
    var m := new ResourceManager();
    m.InitializeInMegabytes(TestFileSystem(), Root, 4, 2);
    var ok := PreloadFits(m);
    assert m.cache.Keys == {Test1};
    assert InUse(m.cache) == map[];
    removed := m.CleanupUnusedBuffers();
    cached := |m.cache|;
  }

  /** As written, a ceiling of "2" (megabytes, by its name) is compared with
      byte counts, so one second of audio is evicted as soon as it is cached
      and no buffer is returned (where the original dereferences a null
      buffer). */
  method UnscaledCeilingLosesFile() returns (buffer: Option<Buffer>, cached: nat)
    ensures buffer.None? && cached == 0
  {
    var m := new ResourceManager();
    m.Initialize(TestFileSystem(), Root, 4, 2);
    buffer := LookupTooLarge(m);
    cached := |m.cache|;
  }

  /** With the ceiling scaled to bytes, the same lookup succeeds and the
      file stays cached. */
  method ScaledCeilingKeepsFile() returns (buffer: Option<Buffer>, cached: nat)
    ensures buffer == Some(Test1Buffer) && cached == 1
  {
    var m := new ResourceManager();
    m.InitializeInMegabytes(TestFileSystem(), Root, 4, 2);
    buffer := LookupFits(m);
    assert m.cache.Keys == {Test1};
    cached := |m.cache|;
  }

  /** Eviction stops as soon as the total fits: with an old 100-byte entry
      and a newer 1-byte one under a 50-byte ceiling, only the old entry
      goes, and the voices holding its buffer are detached. */
  lemma EvictionStopsOnceWithin(pool: seq<Slot>, after: Cache, poolAfter: seq<Slot>)
    requires Evicted(map["a" := CacheEntry(Buffer(1, 100), 0, 0), "b" := CacheEntry(Buffer(2, 1), 0, 1)],
                     pool, after, poolAfter, 50)
    ensures after == map["b" := CacheEntry(Buffer(2, 1), 0, 1)]
    ensures poolAfter == DetachAll(pool, {1})
  {
    var ea, eb := CacheEntry(Buffer(1, 100), 0, 0), CacheEntry(Buffer(2, 1), 0, 1);
    var before := map["a" := ea, "b" := eb];
    var onlyB := map["b" := eb];
    assert before - {"a"} == onlyB;
    assert onlyB - {"b"} == map[];
    TotalSizeRemove(before, "a");
    TotalSizeRemove(onlyB, "b");
    if "a" in after {
      assert false;
    }
    if "b" !in after {
      assert false;
    }
    assert after == onlyB;
    assert RemovedBufferIds(after, before) == {1};
  }

  /** A directory is recorded once however often it is preloaded, a missing
      one is refused, and unloading removes the record. */
  method DirectoryBookkeeping() returns (first: bool, again: bool, missing: bool, afterPreload: seq<Path>, afterUnload: seq<Path>)
    ensures first && again && !missing
    ensures afterPreload == [SoundsName] && afterUnload == []
  {
    var fs := TestFileSystem();
    var m := new ResourceManager();
    m.InitializeInMegabytes(fs, Root, 4, 2);
    first := PreloadSounds(m);
    again := PreloadSounds(m);
    missing := PreloadMissing(m);
    afterPreload := m.loadedDirectories;
    UnloadSounds(m);
    afterUnload := m.loadedDirectories;
  }

  /** Preloading `sounds`, which holds an audio file, succeeds and leaves
      it recorded once. */
  method PreloadSounds(m: ResourceManager) returns (ok: bool)
    modifies m`pool, m`cache, m`currentCacheSize, m`clock, m`loadedDirectories
    requires m.Valid() && m.audioRoot == Root
    requires m.loadedDirectories == [] || m.loadedDirectories == [SoundsName]
    ensures m.Valid() && ok && m.loadedDirectories == [SoundsName]
  {
    SoundsResolves();
    SoundsHoldsTest1();
    assert ContainsPath([SoundsName], SoundsName) by {
      assert SamePath(SoundsName, SoundsName);
    }
    ok := m.PreloadDirectory(TestFileSystem(), SoundsName);
  }

  /** Preloading a directory that does not exist fails and records nothing. */
  method PreloadMissing(m: ResourceManager) returns (ok: bool)
    modifies m`pool, m`cache, m`currentCacheSize, m`clock, m`loadedDirectories
    requires m.Valid() && m.audioRoot == Root
    ensures m.Valid() && !ok && m.loadedDirectories == old(m.loadedDirectories)
  {
    SoundsResolves();
    ok := m.PreloadDirectory(TestFileSystem(), "music");
  }

  /** The list holds paths, not strings: a directory recorded as
      "sounds/sfx" is found, and erased, under the name "sounds//sfx". */
  lemma DoubledSeparatorFindsRecord()
    ensures ContainsPath(["sounds/sfx"], "sounds//sfx")
    ensures WithoutPath(["sounds/sfx"], "sounds//sfx") == []
  {
    DoubledSeparatorIsSamePath("sounds", "sfx");
    assert "sounds" + "/" + "sfx" == "sounds/sfx";
    assert "sounds" + "//" + "sfx" == "sounds//sfx";
    assert "sounds/sfx" in ["sounds/sfx"];
  }

  /** Unloading the only loaded directory erases its record. */
  method UnloadSounds(m: ResourceManager)
    modifies m`pool, m`cache, m`currentCacheSize, m`loadedDirectories
    requires m.Valid() && m.loadedDirectories == [SoundsName]
    ensures m.Valid() && m.loadedDirectories == []
  {
    var _ := m.UnloadDirectory(TestFileSystem(), SoundsName);
  }
}
