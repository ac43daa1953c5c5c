# soundcoe resource core in Dafny

A model of the resource layer of the soundcoe audio engine, with proofs.

The layer is the `ResourceManager`. It owns two things:

- **A fixed pool of voice slots** (OpenAL sources). Free slots wait on a FIFO free list. When no slot is free, a slot is reused by priority: a finished voice first, otherwise the lowest-priority, oldest allocation.
- **A reference-counted cache of decoded buffers**, keyed by full path. The cache keeps a running byte total against a ceiling and evicts the least recently accessed entry when the total is over it. Preloaded subdirectories are remembered in a list.

Around it sit:

- the enumerations the engine shares, with their label tables;
- the decoded-audio record (`AudioData`): its driver-format table, its validity test, the PCM byte-size arithmetic of its three loaders, and the move discipline of the PCM pointer;
- the naming of the driver's error codes.

Modules, one per concern:

| module | file | models |
|---|---|---|
| `Util` | util.dfy | `Option` and a fact about duplicate-free sequences |
| `Types` | types.dfy | `SoundState`, `SoundPriority` and its order, `AudioFormat`, `AudioDecoderOperation`, both `toString` tables |
| `Paths` | paths.dfy | `path::filename`, `path::extension` and `path` equality on '/'-separated strings, and the erase-remove idiom on a list of paths |
| `PoolModel` | pool_model.dfy | voice and slot records, the two slot searches, detaching, free-list consistency |
| `CacheModel` | cache_model.dfy | cache entries, the byte total, the oldest-entry search, hit, release and cleanup on the map |
| `Disk` | disk.dfy | the file system as an oracle value, path forming, the supported-file test and the directory scan |
| `Resources` | resource_manager.dfy | the `ResourceManager` class: fields updated in place by methods with loops |
| `AudioData` | audio_data.dfy | the format table, size arithmetic, and the `AudioData` class with its moves |
| `ErrorHandler` | error_handler.dfy | the AL and ALC code-to-name tables and the no-error tests |
| `Scenarios` | scenarios.dfy | concrete runs on a one-file system, mirroring the unit tests and two of the findings |

Modelling choices:

- **The manager is a class.** Its fields are `seq` and `map` values that its methods reassign, and loops keep their source shape. These loops are the pool scans in `releaseSource` and `unloadFileImpl`, the eviction `while` loop, and the erase-while-iterating cleanup.
- **One invariant is kept by every operation.** `Valid` says the byte counter equals the sum of the cached sizes, every free index names a slot, and every cache stamp predates the clock.
- **Free-list consistency is tracked separately.** `Tidy` says the free list holds exactly the inactive slots, once each. It is preserved by every operation except the as-written double release.
- **`steady_clock` is a counter field** that every reading advances.
- **The file system is a value passed in.** It gives the regular files, the directories, the recursive listing, `lexically_normal`, `is_absolute`, `operator/`, and what decoding a file yields (a buffer or a failure).
- **A voice is the record `{id, state, bufferId}`; a buffer is `{id, size}`.** Buffer ids are never 0. A pool voice is default-constructed with id 0.
- **Code over header.** Where the header and the code disagree, the model follows `resource_manager.cpp`. `acquireSource` takes only a priority; the model also returns the chosen slot index. `releaseBuffer` takes a file name.
- **Equal priority is replaceable.** When the pool is full, the code refuses a request only when the candidate's priority is strictly higher (`resource_manager.cpp:335`). A voice of equal priority is therefore replaced, and the model follows the code (`Scenarios.EqualPriorityIsReplaced`). The log message at `resource_manager.cpp:337` speaks of "no lower priority source", which hints that equal priority may have been meant to be refused.
- **The loaded-directories list holds paths.** `m_loadedDirectories` is a vector of `std::filesystem::path` (`resource_manager.hpp:49`), so `std::find` and `std::remove` compare with `path::operator==`. `Paths.SamePath` models that comparison: the same root directory and the same names one by one, so that "sounds//sfx" is "sounds/sfx" while "." and ".." still count as names.
- **A lookup that finds no entry after its preload returns nothing.** This happens when the preload evicts the file at once, or caches it under another name. The code reads the entry with `operator[]`, which inserts an empty entry, and then dereferences its null buffer (`resource_manager.cpp:170-173`). That is undefined behaviour. The model returns no buffer and adds no entry (see "## Left out").

## Model

| member | source | states |
|---|---|---|
| `Types.PriorityValue` | include/soundcoe/core/types.hpp:17-23 | a priority's underlying value is its position in the declaration order Low, Medium, High, Critical |
| `Types.PriorityLessIsStrictTotalOrder` | include/soundcoe/core/types.hpp:17-23 | `<` on priorities is irreflexive, transitive and total, with Low < Medium < High < Critical |
| `Types.FormatName` | include/soundcoe/core/types.hpp:32-41 | every format has a three-letter label, so the empty default is never returned |
| `Types.FormatNamesDistinct` | include/soundcoe/core/types.hpp:32-41 | no two formats share a label |
| `Types.OperationName` | include/soundcoe/core/types.hpp:61-77 | every decoder operation has a non-empty label, so the empty default is never returned |
| `Types.OperationNamesDistinct` | include/soundcoe/core/types.hpp:61-77 | no two decoder operations share a label |
| `Paths.FileName` | src/resources/resource_manager.cpp:422 | the file name is no longer than the path |
| `Paths.FileNameIsLastComponent` | src/resources/resource_manager.cpp:422 | the file name is a suffix of the path and holds no separator |
| `Paths.Extension` | src/resources/resource_manager.cpp:422 | an extension starts with a dot and is strictly shorter than the file name, so a hidden file's leading dot is never an extension |
| `Paths.ExtensionIsSuffix` | src/resources/resource_manager.cpp:422 | an extension is a suffix of the path with no further dot and no separator |
| `Paths.ExtensionOfFileName` | src/resources/resource_manager.cpp:422-423 | a file `stem.ext` in any directory has extension `.ext` |
| `Paths.HiddenFileHasNoExtension` | src/resources/resource_manager.cpp:422-423 | a file named `.wav` has no extension, so it is not taken for a WAV file |
| `Paths.DoubledSeparatorIsSamePath` | include/soundcoe/resources/resource_manager.hpp:49 | under `path` equality, doubling the separator after a leading name gives the same path, for any name and any rest |
| `Paths.WithoutPath` | src/resources/resource_manager.cpp:112-113 | erase-remove drops every entry that is the same path as the directory, keeps every other entry, never grows, and changes nothing when no entry is the same path |
| `Paths.WithoutPathKeepsDistinct` | src/resources/resource_manager.cpp:112-113 | removing entries keeps a list of pairwise different paths pairwise different |
| `Paths.WithoutPathKeepsOrder` | src/resources/resource_manager.cpp:112-113 | `remove` is stable: the result reads the list at strictly increasing positions, and those positions include every entry that is not the same path as the directory |
| `PoolModel.Stop` | src/resources/sound_source.cpp:155-172 | stopping keeps the voice's id and buffer; a playing or paused voice becomes stopped, and no voice is left playing or paused |
| `PoolModel.Detach` | src/resources/sound_source.cpp:103-110 | detaching keeps the id, stops the voice and leaves it holding buffer 0 |
| `PoolModel.Allocate` | src/resources/resource_manager.cpp:150-153 | the slot handed out gets the requested priority, the acquisition time and the active mark, and keeps its voice |
| `PoolModel.StopIfActive` | src/resources/resource_manager.cpp:341-342 | the chosen slot's voice is stopped when the slot is active; an inactive slot is left as it is |
| `PoolModel.Released` | src/resources/resource_manager.cpp:192-195 | a released slot is inactive and its voice detached, keeping its priority and time |
| `PoolModel.FindReclaimable` | src/resources/resource_manager.cpp:320-324 | `find_if` finds a slot exactly when some slot is active with a stopped voice, and then the first such slot |
| `PoolModel.FindEvictionCandidate` | src/resources/resource_manager.cpp:327-333 | `min_element` returns a slot no slot precedes by (priority, allocation time), and the first such slot |
| `PoolModel.CandidateHasLowestPriority` | src/resources/resource_manager.cpp:327-339 | the candidate has the lowest priority in the pool, so a request is refused exactly when every slot's priority is strictly above it |
| `PoolModel.DetachIfHolding` | src/resources/resource_manager.cpp:361-377 | only an active slot holding an evicted buffer is changed: its voice is detached, and its active flag, priority and time are kept |
| `PoolModel.DetachAll` | src/resources/resource_manager.cpp:361-377 | the pool after detaching has the same length, and each slot is detached on its own |
| `PoolModel.DetachAllNone` | src/resources/resource_manager.cpp:350-382 | detaching no buffer changes no slot |
| `PoolModel.DetachAllAccumulates` | src/resources/resource_manager.cpp:350-382 | detaching buffers round by round is detaching all of them at once |
| `PoolModel.IndexOfSource` | src/resources/resource_manager.cpp:180-183 | the first slot whose voice has the id, found exactly when one exists |
| `PoolModel.IndexOfActiveSource` | src/resources/resource_manager.cpp:180-194 | the first active slot whose voice has the id, found exactly when one exists (the corrected match) |
| `PoolModel.CountActive` | src/resources/resource_manager.cpp:227-232 | the number of active slots is at most the pool size |
| `PoolModel.InactiveIndicesCount` | src/resources/resource_manager.cpp:227-232 | there are as many inactive slots as slots minus active ones |
| `PoolModel.ActiveCountFromFreeList` | src/resources/resource_manager.cpp:227-232 | with a consistent free list, slots minus free entries is the number of active slots |
| `PoolModel.AllActiveWhenNoneFree` | src/resources/resource_manager.cpp:136-138 | with a consistent empty free list every slot is active |
| `PoolModel.AcquiredStaysTidy` | src/resources/resource_manager.cpp:144-153 | popping the front free index, or reusing an active slot, and marking the slot active keeps the free list consistent |
| `PoolModel.ReleasedStaysTidy` | src/resources/resource_manager.cpp:194-195 | releasing an active slot and appending its index keeps the free list consistent |
| `PoolModel.DetachAllKeepsFreeList` | src/resources/resource_manager.cpp:361-377 | detaching voices changes no active flag, so the free list stays consistent |
| `CacheModel.TotalSizeRemove` | src/resources/resource_manager.cpp:282-283 | removing an entry takes exactly its size off the total |
| `CacheModel.TotalSizeInsert` | src/resources/resource_manager.cpp:472-473 | inserting a new entry adds exactly its size to the total |
| `CacheModel.TotalSizeReplace` | src/resources/resource_manager.cpp:171-172 | replacing an entry by one of the same size keeps the total |
| `CacheModel.FindOldest` | src/resources/resource_manager.cpp:354-358 | `min_element` by last access returns an entry accessed no later than any other |
| `CacheModel.Retain` | src/resources/resource_manager.cpp:170-172 | a hit takes one more reference and stamps the entry with the current time, keeping its buffer and every other entry |
| `CacheModel.RetainInserted` | src/resources/resource_manager.cpp:161-174 | a hit, at the next tick, on an entry just cached without references is that entry cached with one reference at that tick |
| `CacheModel.Release` | src/resources/resource_manager.cpp:204-225 | release keeps every key and every other entry; it drops one reference only when there is one, so a count never goes below 0 |
| `CacheModel.RetainThenRelease` | src/resources/resource_manager.cpp:161-225 | a release undoes a hit except for the access stamp |
| `CacheModel.RetainReleaseKeepTotal` | src/resources/resource_manager.cpp:171-172 | hits and releases keep the byte total |
| `CacheModel.InUse` | src/resources/resource_manager.cpp:269-288 | cleanup keeps exactly the entries with a reference count other than 0, unchanged |
| `Disk.IsSupportedAudioFile` | src/resources/resource_manager.cpp:415-430 | a supported file is a regular file whose extension is exactly `.wav`, `.mp3` or `.ogg` (case-sensitive) |
| `Disk.AudioFilesAmong` | src/resources/resource_manager.cpp:396-403 | the scan collects no more files than the walk yields |
| `Disk.AudioFilesAmongMembers` | src/resources/resource_manager.cpp:396-403 | a path is collected exactly when the walk yields it and it is a regular file with a supported extension |
| `Disk.FullPathsOf` | src/resources/resource_manager.cpp:491-495 | the full paths of n names are at most n paths |
| `Disk.FullPathsOfMembers` | src/resources/resource_manager.cpp:491-495 | a path is among the full paths exactly when some name resolves to it |
| `Resources.EvictionStart` | src/resources/resource_manager.cpp:350-352 | before the first round nothing is removed and no voice is detached |
| `Resources.EvictionStep` | src/resources/resource_manager.cpp:352-380 | removing the oldest entry while over the ceiling, and detaching the voices holding its buffer, keeps the eviction loop's invariant; the entry just removed is the newest of those removed, and the total was above the ceiling before it went |
| `Resources.EvictionDone` | src/resources/resource_manager.cpp:352 | when the loop stops, entries were removed oldest first; the newest removed one was removed while the total was above the ceiling, so removal stopped as soon as the total fitted; the total is within the ceiling or the cache is empty; the voices holding removed buffers are detached |
| `Resources.NewestSurvivesUnlessAlone` | src/resources/resource_manager.cpp:482-483 | the entry just cached is evicted only when eviction empties the cache |
| `Resources.EvictedWhenFits` | src/resources/resource_manager.cpp:482-483 | a new entry that fits under the ceiling with everything cached evicts nothing |
| `Resources.EvictedWhenTooLarge` | src/resources/resource_manager.cpp:482-483 | a new entry larger than the ceiling on its own empties the cache, itself included |
| `Resources.ResourceManager.constructor` | src/resources/resource_manager.cpp:9-11 | not initialised, no limits, empty pool, free list, cache and directory list, size 0 |
| `Resources.ResourceManager.Initialize` | src/resources/resource_manager.cpp:21-42 | the normalised root and the raw `maxCacheSizeMB` are stored; `maxSources` inactive Medium slots, free list 0..n-1 in order, active count 0; cache and directories kept |
| `Resources.ResourceManager.InitializeInMegabytes` | src/resources/resource_manager.cpp:21-42 | as `Initialize`, with the ceiling stored in bytes |
| `Resources.ResourceManager.CreateSourcePool` | src/resources/resource_manager.cpp:290-304 | `maxSources` inactive Medium slots stamped with one clock reading, free list 0..n-1 in order, consistent, active count 0 |
| `Resources.ResourceManager.Shutdown` | src/resources/resource_manager.cpp:44-55 | pool, free list, cache and directory list emptied, size 0, not initialised; repeating it changes nothing further |
| `Resources.ResourceManager.ActiveSourceCount` | src/resources/resource_manager.cpp:227-232 | slots minus free entries in `size_t` arithmetic; with a consistent free list, the number of active slots |
| `Resources.ResourceManager.FindSourceToReplace` | src/resources/resource_manager.cpp:306-348 | fails on an empty pool or a non-empty free list; otherwise reuses the first active stopped slot whatever its priority; otherwise takes the (priority, time) minimum, refuses it only when its priority is strictly above the request, and stops it |
| `Resources.ResourceManager.AcquireSource` | src/resources/resource_manager.cpp:131-159 | with a free slot, pops the front index and allocates that slot; otherwise the replacement rules; the chosen slot gets the priority and the current time and is marked active, no other slot changes, and the active count rises by one only when a free slot was used |
| `Resources.ResourceManager.AcquireFromFreeList` | src/resources/resource_manager.cpp:144-153 | front index popped, that slot allocated, free list consistent, active count up by one |
| `Resources.ResourceManager.AcquireByReplacement` | src/resources/resource_manager.cpp:136-153 | the replacement rules of `findSourceToReplace` and then allocation, with the free list consistent and the active count unchanged |
| `Resources.ResourceManager.TakeFreeIndex` | src/resources/resource_manager.cpp:146-147 | the front free index is returned and removed, and names a slot |
| `Resources.ResourceManager.AllocateSlot` | src/resources/resource_manager.cpp:150-153 | the slot gets the priority and the current time and is marked active; the clock advances |
| `Resources.ResourceManager.ReleaseSource` | src/resources/resource_manager.cpp:176-202 | as written: the first slot with the id is released and its index appended, whether or not it was active; no match changes nothing; always true |
| `Resources.ResourceManager.ReleaseSourceChecked` | src/resources/resource_manager.cpp:176-202 | corrected: only the first active slot with the id is released, the free list stays consistent and the active count drops by exactly one per real release |
| `Resources.ResourceManager.CacheSizeBytes` | src/resources/resource_manager.cpp:248-253 | the reported size is the sum of the cached buffers' sizes, 0 for an empty cache |
| `Resources.ResourceManager.DetachBufferFromSources` | src/resources/resource_manager.cpp:520-534 | every active voice holding the buffer is detached, nothing else changes |
| `Resources.ResourceManager.FreeOldestBuffer` | src/resources/resource_manager.cpp:350-382 | ends within the ceiling or empty; removes oldest entries first regardless of reference counts, only while over the ceiling, detaching every active voice holding a removed buffer |
| `Resources.ResourceManager.EvictEntry` | src/resources/resource_manager.cpp:360-380 | one round: the entry leaves the cache and the voices holding its buffer are detached |
| `Resources.ResourceManager.RemoveEntry` | src/resources/resource_manager.cpp:537-538 | the entry leaves the cache and its size leaves the total |
| `Resources.ResourceManager.PreloadFileImpl` | src/resources/resource_manager.cpp:432-487 | succeeds exactly for a supported regular file that is cached or decodes; a cached file or a failure changes nothing; a new one is cached with no references and the current time and then eviction runs |
| `Resources.ResourceManager.CacheAndEvict` | src/resources/resource_manager.cpp:464-483 | the new entry is cached with 0 references, its size added, and eviction runs when the total exceeds the ceiling |
| `Resources.ResourceManager.GetBuffer` | src/resources/resource_manager.cpp:161-174 | a cached file gains one reference and a fresh stamp, with its buffer returned; a file that is not cached and cannot be loaded (missing, not a regular file, unsupported, or failing to decode) yields `nullopt` and changes nothing; a returned buffer is always the decoded file; a loadable file that is not cached is inserted with no references and the current time, eviction runs on the result, and the lookup path then gains one reference if it survived; a file that fits is returned with one reference; a file larger than the ceiling is evicted by its own preload, leaving an empty cache, and no buffer is returned; a cache within its ceiling stays within it |
| `Resources.ResourceManager.GetMissingBuffer` | src/resources/resource_manager.cpp:166-173 | the miss path: succeeds exactly when the lookup path is cached after the preload, and then returns the decoded file with one reference; a loadable file leaves the cache evicted from the old cache plus the new entry, with the lookup path retained if it survived; a file that cannot be loaded yields nothing and changes nothing; a cache within its ceiling stays within it |
| `Resources.ResourceManager.LoadForLookup` | src/resources/resource_manager.cpp:166-168 | after the preload, the lookup path is found exactly when it is cached, and then holds the decoded file with no references; a file that cannot be loaded leaves cache, pool and clock unchanged; a loadable file advances the clock once and leaves cache and pool evicted from the old cache plus the new entry; a fitting file is inserted with no eviction; a file larger than the ceiling leaves an empty cache; the ceiling and the free list are kept |
| `Resources.ResourceManager.RetainEntry` | src/resources/resource_manager.cpp:170-172 | one more reference and the current time on the entry |
| `Resources.ResourceManager.ReleaseBuffer` | src/resources/resource_manager.cpp:204-225 | the cache becomes `Release` of the lookup path, and the call always succeeds |
| `Resources.ResourceManager.UnloadFileImpl` | src/resources/resource_manager.cpp:489-540 | a cached regular file is removed and, if referenced, its voices detached; otherwise nothing changes; always true |
| `Resources.ResourceManager.CleanupUnusedBuffers` | src/resources/resource_manager.cpp:269-288 | exactly the entries without references are removed, and their number is returned |
| `Resources.ResourceManager.IsDirectoryLoaded` | src/resources/resource_manager.cpp:542-547 | true exactly when some entry of the loaded list is the same path as the directory |
| `Resources.ResourceManager.ScanDirectoryForAudioFiles` | src/resources/resource_manager.cpp:389-413 | the supported audio files of the walk in walk order, and whether there is any |
| `Resources.ResourceManager.PreloadDirectory` | src/resources/resource_manager.cpp:64-93 | succeeds exactly for an existing directory that is loaded (under any spelling of the same path) or holds audio files; appends it only when no entry is the same path; a loaded or failing directory changes nothing; takes no references; a new entry is only ever one of the directory's audio files; keeps the entries pairwise different paths |
| `Resources.ResourceManager.PreloadNext` | src/resources/resource_manager.cpp:84-85 | one round of the preload loop: a new entry is only ever under a name preloaded so far, and takes no references |
| `Resources.ResourceManager.UnloadFiles` | src/resources/resource_manager.cpp:105-108 | the cache loses exactly the entries under the names' full paths that are regular files, and the active voices holding a removed buffer that still had references are detached |
| `Resources.ResourceManager.UnloadNext` | src/resources/resource_manager.cpp:105-108 | one round of the unload loop: the entry under the next name, when it is a regular file, leaves the cache, and the voices of a removed referenced buffer are detached |
| `Resources.ResourceManager.UnloadDirectory` | src/resources/resource_manager.cpp:95-115 | a directory that is not loaded changes nothing; a loaded one has its audio files' entries removed, the active voices holding a removed referenced buffer detached, and every entry that is the same path erased from the list; keeps the entries pairwise different paths; always true |
| `Resources.ResourceManager.UnloadLoadedDirectory` | src/resources/resource_manager.cpp:104-113 | for a loaded directory: the entries of its audio files that are regular files leave the cache, the active voices holding a removed referenced buffer are detached, and every record that is the same path is erased |
| `Resources.ResourceManager.ForgetDirectory` | src/resources/resource_manager.cpp:112-113 | the list afterwards is the erase-remove of the directory, and stays pairwise different paths |
| `AudioData.OpenALFormat` | src/resources/audio_data.cpp:39-53 | a format exactly for 1 or 2 channels of 8 or 16 bits, whose channel count and width are the ones asked for; AL_NONE otherwise |
| `AudioData.OpenALFormatInjective` | src/resources/audio_data.cpp:39-53 | the four supported (channels, bits) pairs get four different formats |
| `AudioData.ToALsizei` | src/resources/audio_data.cpp:115 | the cast keeps the value modulo 2^32 within the signed 32-bit range, and is exact below 2^31 |
| `AudioData.WavBytesPerSample` | src/resources/audio_data.cpp:114 | 2 bytes up to 16 bits per sample, 4 above |
| `AudioData.WavPcmSize` | src/resources/audio_data.cpp:114-115 | the WAV size is frames × channels × sample width, cast to a signed 32-bit `ALsizei` |
| `AudioData.OggPcmSize` | src/resources/audio_data.cpp:125-129 | as written: the OGG size is the frame count × 2, cast to `ALsizei` |
| `AudioData.OggPcmSizeIntended` | src/resources/audio_data.cpp:125-129 | corrected: the OGG size counts the 16-bit samples of every channel |
| `AudioData.Mp3PcmSize` | src/resources/audio_data.cpp:140-144 | the MP3 size is frames × channels × 2, cast to `ALsizei` |
| `AudioData.PcmSizesExact` | src/resources/audio_data.cpp:114-144 | below 2 GiB, WAV is frames × channels × (2 or 4), MP3 is frames × channels × 2, and the intended OGG size is frames × channels × 2 |
| `AudioData.OggUnderCountsStereo` | src/resources/audio_data.cpp:125-129 | as written, the OGG size is smaller than the decoded data for every non-empty stream with more than one channel: 88200 of 176400 bytes for one second of stereo |
| `AudioData.WavPcmSizeWrapsAt2GiB` | src/resources/audio_data.cpp:115 | a 2 GiB decode reports a negative size |
| `AudioData.LoadedWavIsValid` | src/resources/audio_data.cpp:166 | a non-null decode of a non-empty stream below 2 GiB is valid |
| `AudioData.DeallocatorFor` | src/resources/audio_data.cpp:20-37 | a WAV block is freed by `drwav_free`, an MP3 block by `drmp3_free`, an OGG block by `free` |
| `AudioData.AudioData.constructor` | src/resources/audio_data.cpp:10-18 | fields as given, format from the table |
| `AudioData.AudioData.IsValid` | src/resources/audio_data.cpp:166 | the data is valid exactly when the pointer is not null and the size is positive |
| `AudioData.AudioData.MoveFrom` | src/resources/audio_data.cpp:55-61 | takes every field and nulls the source's pointer, leaving its other fields |
| `AudioData.AudioData.Cleanup` | src/resources/audio_data.cpp:20-37 | a null pointer frees nothing; otherwise the block is freed once, by its format's routine |
| `AudioData.AudioData.MoveAssign` | src/resources/audio_data.cpp:63-82 | self-assignment changes nothing; otherwise the target frees its own block, takes every field, and the source has its pointer nulled and every other field unchanged |
| `AudioData.MoveThenDestroyBoth` | src/resources/audio_data.cpp:55-84 | after a move and both destructors the block is freed exactly once |
| `ErrorHandler.OpenALErrorName` | src/core/error_handler.cpp:8-27 | "UNKNOWN ERROR" exactly for the codes outside the six; the six get names starting "AL_" |
| `ErrorHandler.OpenALErrorNamesDistinct` | src/core/error_handler.cpp:8-23 | the six AL codes get six different names |
| `ErrorHandler.ALCErrorName` | src/core/error_handler.cpp:46-65 | "UNKNOWN ERROR" exactly for the codes outside the six; the six get names starting "ALC_" |
| `ErrorHandler.ALCErrorNamesDistinct` | src/core/error_handler.cpp:46-63 | the six ALC codes get six different names |
| `ErrorHandler.CheckOpenALError` | src/core/error_handler.cpp:29-39 | reports an error exactly when the code's name is not "AL_NO_ERROR" |
| `ErrorHandler.CheckALCError` | src/core/error_handler.cpp:67-77 | reports an error exactly when the code's name is not "ALC_NO_ERROR" |
| `Scenarios.FreshManager` | tests/resources_tests.cpp:44-51 | after initialisation with four voices: four slots, none active, nothing cached, size 0 |
| `Scenarios.EqualPriorityIsReplaced` | src/resources/resource_manager.cpp:335-339 | a Low request does not displace a Critical voice; a Critical request does |
| `Scenarios.AcquireAfterShutdown` | tests/resources_tests.cpp:53-58 | after two shutdowns the pool is empty and acquisition fails |
| `Scenarios.DoubleReleaseWraps` | src/resources/resource_manager.cpp:194-195 | as written, releasing a voice twice makes the active count the largest `size_t` |
| `Scenarios.DoubleReleaseChecked` | src/resources/resource_manager.cpp:176-202 | with the corrected release, a second release changes nothing and the count returns to 0 |
| `Scenarios.LookupFits` | src/resources/resource_manager.cpp:161-174 | a first lookup under a sufficient ceiling returns the decoded buffer, cached with one reference |
| `Scenarios.LookupTooLarge` | src/resources/resource_manager.cpp:166-170 | a first lookup of a file larger than the ceiling leaves the cache empty and returns no buffer (the code dereferences a null buffer here) |
| `Scenarios.LookupCached` | src/resources/resource_manager.cpp:166-173 | a lookup of a cached file returns its buffer with one more reference, keys unchanged |
| `Scenarios.ReleaseCached` | src/resources/resource_manager.cpp:215-224 | a release drops one reference, never below zero, keys unchanged |
| `Scenarios.PreloadFits` | src/resources/resource_manager.cpp:464-473 | a preload into an empty cache that holds the file caches it with no references |
| `Scenarios.ReleaseFourTimes` | tests/resources_tests.cpp:160-171 | four releases of a file held three times leave it cached with no references |
| `Scenarios.LookupThrice` | tests/resources_tests.cpp:152-158 | three lookups take three references to one cached buffer |
| `Scenarios.ReferenceCounting` | tests/resources_tests.cpp:146-180 | follows the test on one file with the ceiling in bytes: three lookups then four releases give 3 references, then 0, and the file stays cached |
| `Scenarios.CleanupRemovesUnreferenced` | tests/resources_tests.cpp:176-179 | follows the test on one file with the ceiling in bytes (the test has two files and expects 2): cleanup removes the unreferenced file and returns 1 |
| `Scenarios.UnscaledCeilingLosesFile` | src/resources/resource_manager.cpp:27 | as written, a "2 MB" ceiling evicts one second of audio as soon as it is loaded, so the lookup finds no entry, the cache is empty and no buffer is returned (the code dereferences a null buffer here) |
| `Scenarios.ScaledCeilingKeepsFile` | src/resources/resource_manager.cpp:27 | with the ceiling in bytes, the same lookup succeeds and the file stays cached |
| `Scenarios.EvictionStopsOnceWithin` | src/resources/resource_manager.cpp:352-381 | with a 100-byte old entry and a 1-byte newer one under a 50-byte ceiling, eviction removes only the old entry and detaches only its buffer's voices |
| `Scenarios.DirectoryBookkeeping` | tests/resources_tests.cpp:194-215 | a directory preloaded twice is recorded once, a missing one is refused, and unloading removes the record |
| `Scenarios.DoubledSeparatorFindsRecord` | src/resources/resource_manager.cpp:542-547 | a directory recorded as "sounds/sfx" is found, and erased, under the name "sounds//sfx" |

## Left out

- The mutex and `lock_guard`: every operation is one atomic step, and the threaded tests are not modelled.
- Logging: the messages are not modelled, only the outcomes and return values.
- The real file system: `exists`, `is_regular_file`, `is_directory`, `recursive_directory_iterator`, `lexically_normal`, `is_absolute` and `operator/` are oracle fields of `Disk.FileSystem`. Filesystem exceptions are not modelled, except that a walk of a missing directory yields nothing.
- Decoding and the driver: `SoundBuffer` construction is the `decode` oracle, which gives a buffer or a failure. Playback, pausing and the end of a voice are `Resources.ResourceManager.SourceChanged`, made by the caller.
- The null check on the pool voice (`resource_manager.cpp:155-156`): every slot holds a voice once the pool is created, so the check never fails.
- `steady_clock` values: modelled as a counter that every reading advances, so stamps are distinct and ordered.
- Floating point: the `AudioData` duration and `Vec3` are not modelled.
- The plain getters (`isInitialized`, `getTotalSourceCount`, `getCachedBufferCount`, `getLoadedDirectories`), which read a field of the class directly.
- The `preloadFile` and `unloadFile` wrappers, which only take the lock around `preloadFileImpl` and `unloadFileImpl`.
- The singleton accessor and the destructor, which calls `shutdown`.
- `getSourceAllocation` is declared in the header but has no definition.
- Loader control flow in `loadFromWav`, `loadFromOgg` and `loadFromMp3`: only their size arithmetic is modelled.
- `clearOpenALError` and `clearALCError` only read the driver. The message that `checkOpenALError` and `checkALCError` log is not modelled.
- `Resources.ResourceManager.FindSourceToReplace`: the stopped slot is modelled, but not the driver call that stops it.
- `Resources.ResourceManager.GetBuffer`: when no entry is under the lookup path after the preload, the code inserts an empty entry with `operator[]` and dereferences its null buffer (`resource_manager.cpp:170-173`). That is undefined behaviour. The model returns no buffer and inserts nothing. The case arises when the file is evicted by its own preload, or when an absolute name is cached under an unnormalised path.
- `Resources.ResourceManager.GetBuffer`: for an absolute name that normalising changes, the contract does not say what the preload under the other path did to the cache.
- `Resources.ResourceManager.PreloadDirectory`: the contract states that new entries come only from the directory's audio files and that surviving old entries are unchanged or unreferenced. It does not state which old entries eviction removed across the loop, nor the exact cache afterwards.
- Buffer sizes and the byte total are unbounded natural numbers. In the code, `getSize()` is a signed `ALsizei`, which is negative after the 2 GiB wrap (`AudioData.WavPcmSizeWrapsAt2GiB`). It is added to and subtracted from a `size_t` total (`resource_manager.cpp:282, 379, 472, 537`), which wraps modulo 2^64. The model assumes every size is at most 2^31 - 1 and the total stays below 2^64.
- `m_bufferCache` is a `std::unordered_map`, whose iteration order is unspecified. `cleanupUnusedBuffers` visits the keys in any order, and its result does not depend on the order. `min_element` in `freeOldestBuffer` may pick any of several equally old entries.

## Findings

| source | as written | input that shows it | evidently intended | confidence | as-written member | corrected member |
|---|---|---|---|---|---|---|
| src/resources/resource_manager.cpp:176-201, 231 | `releaseSource` releases the first slot with the voice's id without checking that it is active, and appends its index to the free list again | a pool of 4, one voice acquired and then released twice: the free list holds 5 indices for 4 slots, and `getActiveSourceCount` returns 4 - 5 in `size_t`, that is 2^64 - 1 | a second release of a voice already released changes nothing, and the active count stays the number of active slots | not executed | `Resources.ResourceManager.ReleaseSource`, `Scenarios.DoubleReleaseWraps` | `Resources.ResourceManager.ReleaseSourceChecked`, `Scenarios.DoubleReleaseChecked` |
| src/resources/resource_manager.cpp:27, 352, 482 | `initialize` stores `maxCacheSizeMB` unscaled, and the cache compares it with byte counts | `initialize(root, 4, 2)` and then `getBuffer` of a one-second 16-bit mono WAV (88200 bytes): the total 88200 exceeds the ceiling of 2, so the buffer is evicted as soon as it is loaded and no entry is left for the lookup: the code then inserts an empty entry and dereferences its null buffer, and the model returns no buffer | the ceiling is `maxCacheSizeMB` megabytes, stored as bytes, and the file stays cached | not executed | `Resources.ResourceManager.Initialize`, `Scenarios.UnscaledCeilingLosesFile` | `Resources.ResourceManager.InitializeInMegabytes`, `Scenarios.ScaledCeilingKeepsFile` |
| src/resources/audio_data.cpp:125-129 | `loadFromOgg` reports `totalSamples * sizeof(short)` bytes, where `stb_vorbis_decode_filename` returns the number of samples per channel while it decodes that many samples for each channel | one second of 44.1 kHz stereo Ogg: 44100 is returned and 176400 bytes are decoded, but 88200 are reported, so only the first half of the data would be played | the size covers every channel: frames × channels × 2 | not executed | `AudioData.OggPcmSize`, `AudioData.OggUnderCountsStereo` | `AudioData.OggPcmSizeIntended`, `AudioData.PcmSizesExact` |
