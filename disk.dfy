/** The file system as the resource manager sees it, given as an oracle:
    which paths are regular files and directories, what a recursive
    directory walk yields, how paths are normalised and joined, and what
    decoding a file gives. */
module Disk {
  import opened Util
  import opened Paths
  import opened CacheModel

  datatype FileSystem = FileSystem(
    regularFiles: set<Path>,          // `exists` and `is_regular_file`
    directories: set<Path>,           // `exists` and `is_directory`
    listing: Path -> seq<Path>,       // `recursive_directory_iterator`, in its order
    normalize: Path -> Path,          // `lexically_normal`
    isAbsolute: Path -> bool,         // `path::is_absolute`
    join: (Path, Path) -> Path,       // `operator/`
    decode: Path -> Option<Buffer>)   // `SoundBuffer(path)`: a loaded buffer, or a decoder/driver failure

  /** `checkIfSupportedAudioFile`: a regular file with a supported extension. */
  predicate IsSupportedAudioFile(fs: FileSystem, p: Path) {
    p in fs.regularFiles && SupportedExtension(Extension(p))
  }

  /** The supported audio files among `entries`, in order. */
  function AudioFilesAmong(fs: FileSystem, entries: seq<Path>): (files: seq<Path>)
    ensures |files| <= |entries|
  {
    if entries == [] then []
    else
      var last := entries[|entries| - 1];
      AudioFilesAmong(fs, entries[..|entries| - 1]) + if IsSupportedAudioFile(fs, last) then [last] else []
  }

  /** A path is among the files found exactly when it is one of the entries
      and a supported audio file. */
  lemma {:induction false} AudioFilesAmongMembers(fs: FileSystem, entries: seq<Path>, p: Path)
    ensures p in AudioFilesAmong(fs, entries) <==> p in entries && IsSupportedAudioFile(fs, p)
  {
    if entries != [] {
      var init := entries[..|entries| - 1];
      AudioFilesAmongMembers(fs, init, p);
      assert entries == init + [entries[|entries| - 1]];
    }
  }

  /** Scanning one more entry appends it exactly when it is a supported
      audio file. */
  lemma AudioFilesAmongStep(fs: FileSystem, entries: seq<Path>, i: nat)
    requires i < |entries|
    ensures AudioFilesAmong(fs, entries[..i + 1])
      == AudioFilesAmong(fs, entries[..i]) + if IsSupportedAudioFile(fs, entries[i]) then [entries[i]] else []
  {
    assert entries[..i + 1][..i] == entries[..i];
  }

  /** `root / normalizePath(p)`: how `getBuffer`, `releaseBuffer` and the
      directory operations form a full path. */
  function RootedPath(fs: FileSystem, root: Path, p: Path): Path {
    fs.join(root, fs.normalize(p))
  }

  /** How `preloadFileImpl` and `unloadFileImpl` form a full path: an
      absolute name is taken as it is, unnormalised. */
  function FullPath(fs: FileSystem, root: Path, p: Path): Path {
    if fs.isAbsolute(p) then p else RootedPath(fs, root, p)
  }

  /** What a lookup of `name` loads when it is not cached: the decoded
      file, when the path `preloadFileImpl` loads is the path the lookup
      then looks up and the file there is a supported audio file that
      decodes; otherwise nothing. */
  function LoadableBy(fs: FileSystem, root: Path, name: Path): Option<Buffer> {
    var key := RootedPath(fs, root, name);
    if FullPath(fs, root, name) == key && IsSupportedAudioFile(fs, key) then fs.decode(key) else None
  }

  /** What the recursive walk of `root / normalizePath(subdirectory)` yields;
      a walk of a missing directory throws, which the scan catches, and so
      yields nothing. */
  function DirectoryEntries(fs: FileSystem, root: Path, subdirectory: Path): seq<Path> {
    var dir := RootedPath(fs, root, subdirectory);
    if dir in fs.directories then fs.listing(dir) else []
  }

  /** The full paths of `names`, formed as `unloadFileImpl` forms them. */
  function FullPathsOf(fs: FileSystem, root: Path, names: seq<Path>): (r: set<Path>)
    ensures |r| <= |names|
  {
    if names == [] then {}
    else FullPathsOf(fs, root, names[..|names| - 1]) + {FullPath(fs, root, names[|names| - 1])}
  }

  /** A path is among the full paths exactly when some name resolves to it. */
  lemma {:induction false} FullPathsOfMembers(fs: FileSystem, root: Path, names: seq<Path>, p: Path)
    ensures p in FullPathsOf(fs, root, names) <==> exists i | 0 <= i < |names| :: FullPath(fs, root, names[i]) == p
  {
    if names != [] {
      var init := names[..|names| - 1];
      FullPathsOfMembers(fs, root, init, p);
      if p in FullPathsOf(fs, root, init) {
        var i :| 0 <= i < |init| && FullPath(fs, root, init[i]) == p;
        assert names[i] == init[i];
      }
      if exists i | 0 <= i < |names| :: FullPath(fs, root, names[i]) == p {
        var i :| 0 <= i < |names| && FullPath(fs, root, names[i]) == p;
        if i < |init| {
          assert init[i] == names[i];
        }
      }
    }
  }

  /** Taking one more name adds its full path. */
  lemma FullPathsOfStep(fs: FileSystem, root: Path, names: seq<Path>, i: nat)
    requires i < |names|
    ensures FullPathsOf(fs, root, names[..i + 1]) == FullPathsOf(fs, root, names[..i]) + {FullPath(fs, root, names[i])}
  {
    assert names[..i + 1][..i] == names[..i];
  }
}
