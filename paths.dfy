/** Paths as strings, and the part of `std::filesystem::path` the engine
    relies on without touching the disk: the file name and its extension
    (POSIX separators). */
module Paths {

  type Path = string

  /** The index of the last occurrence of `c` in `s`, or -1. */
  function LastIndexOf(s: string, c: char): (r: int)
    ensures -1 <= r < |s|
    ensures r >= 0 ==> s[r] == c
  {
    LastIndexBefore(s, c, |s|)
  }

  /** The index of the last occurrence of `c` among the first `n`
      characters of `s`, or -1. */
  function LastIndexBefore(s: string, c: char, n: nat): (r: int)
    requires n <= |s|
    ensures -1 <= r < n
    ensures r >= 0 ==> s[r] == c
  {
    if n == 0 then -1
    else if s[n - 1] == c then n - 1
    else LastIndexBefore(s, c, n - 1)
  }

  /** No occurrence of `c` lies between the one `LastIndexBefore` finds and
      position `n`. */
  lemma {:induction false} LastIndexBeforeIsLast(s: string, c: char, n: nat)
    requires n <= |s|
    ensures forall j | LastIndexBefore(s, c, n) < j < n :: s[j] != c
  {
    if n > 0 && s[n - 1] != c {
      LastIndexBeforeIsLast(s, c, n - 1);
    }
  }

  /** No occurrence of `c` follows the one `LastIndexOf` finds, and there
      is none at all when it finds none. */
  lemma LastIndexOfIsLast(s: string, c: char)
    ensures forall j | LastIndexOf(s, c) < j < |s| :: s[j] != c
  {
    LastIndexBeforeIsLast(s, c, |s|);
  }

  /** `path::filename`: what follows the last separator. */
  function FileName(p: Path): (name: Path)
    ensures |name| <= |p|
  {
    p[LastIndexOf(p, '/') + 1..]
  }

  /** A file name is a suffix of its path and holds no separator. */
  lemma FileNameIsLastComponent(p: Path)
    ensures FileName(p) == p[|p| - |FileName(p)|..]
    ensures '/' !in FileName(p)
  {
    LastIndexOfIsLast(p, '/');
    var name := FileName(p);
    forall j | 0 <= j < |name|
      ensures name[j] != '/'
    {
      assert name[j] == p[LastIndexOf(p, '/') + 1 + j];
    }
  }

  /** `path::extension`: from the last dot of the file name to its end,
      except for "." and "..", and except that a leading dot (a hidden
      file such as ".profile") does not start an extension. */
  function Extension(p: Path): (ext: Path)
    ensures |ext| <= |p|
    ensures ext != [] ==> ext[0] == '.' && |ext| < |FileName(p)|
  {
    var name := FileName(p);
    if name == "." || name == ".." then []
    else
      var d := LastIndexOf(name, '.');
      if d <= 0 then [] else name[d..]
  }

  /** An extension is a suffix of its path: a dot and then neither a dot
      nor a separator. */
  lemma ExtensionIsSuffix(p: Path)
    ensures Extension(p) == p[|p| - |Extension(p)|..]
    ensures Extension(p) != [] ==> '.' !in Extension(p)[1..] && '/' !in Extension(p)
  {
    var name := FileName(p);
    var ext := Extension(p);
    FileNameIsLastComponent(p);
    if ext != [] {
      var d := LastIndexOf(name, '.');
      LastIndexOfIsLast(name, '.');
      assert ext == name[d..];
      forall j | 0 <= j < |ext|
        ensures ext[j] == name[d + j] && ext[j] != '/'
        ensures j > 0 ==> ext[j] != '.'
      {
      }
      assert ext == p[|p| - |ext|..];
    }
  }

  /** The extensions `checkIfSupportedAudioFile` accepts (case-sensitive). */
  predicate SupportedExtension(ext: Path) {
    ext == ".wav" || ext == ".mp3" || ext == ".ogg"
  }

  /** `LastIndexOf` finds an occurrence with none after it. */
  lemma LastIndexOfIs(s: string, c: char, i: nat)
    requires i < |s| && s[i] == c
    requires forall j | i < j < |s| :: s[j] != c
    ensures LastIndexOf(s, c) == i
  {
    LastIndexBeforeIs(s, c, i, |s|);
  }

  lemma {:induction false} LastIndexBeforeIs(s: string, c: char, i: nat, n: nat)
    requires i < n <= |s| && s[i] == c
    requires forall j | i < j < n :: s[j] != c
    ensures LastIndexBefore(s, c, n) == i
  {
    if i < n - 1 {
      LastIndexBeforeIs(s, c, i, n - 1);
    }
  }

  /** The file name of `dir/name` is `name`. */
  lemma FileNameOfJoin(dir: Path, name: Path)
    requires '/' !in name
    ensures FileName(dir + "/" + name) == name
  {
    var p := dir + "/" + name;
    forall j | |dir| < j < |p|
      ensures p[j] != '/'
    {
      assert p[j] == name[j - |dir| - 1];
    }
    LastIndexOfIs(p, '/', |dir|);
    assert p[|dir| + 1..] == name;
  }

  lemma NoSlashInConcat(a: string, b: string)
    requires '/' !in a && '/' !in b
    ensures '/' !in a + b
  {
  }

  lemma DotOnlyAt(stem: string, ext: string)
    requires stem != [] && ext != [] && '.' !in ext
    ensures LastIndexOf(stem + ("." + ext), '.') == |stem|
    ensures |stem + ("." + ext)| >= 3
  {
    var dotExt := "." + ext;
    var name := stem + dotExt;
    assert name[|stem|] == '.';
    forall j | |stem| < j < |name|
      ensures name[j] != '.'
    {
      assert name[j] == dotExt[j - |stem|] == ext[j - |stem| - 1];
    }
    LastIndexOfIs(name, '.', |stem|);
  }

  /** A file named `stem.ext` in any directory has extension `.ext`. */
  lemma ExtensionOfFileName(dir: Path, stem: Path, ext: Path)
    requires stem != [] && ext != []
    requires '/' !in stem && '/' !in ext && '.' !in ext
    ensures Extension(dir + "/" + stem + "." + ext) == "." + ext
  {
    var name := stem + ("." + ext);
    var p := dir + "/" + name;
    assert dir + "/" + stem + "." + ext == p;
    NoSlashInConcat(stem, "." + ext);
    FileNameOfJoin(dir, name);
    assert FileName(p) == name;
    DotOnlyAt(stem, ext);
    assert name[|stem|..] == "." + ext;
  }

  /** A hidden file such as `.wav` has no extension at all. */
  lemma HiddenFileHasNoExtension(dir: Path, name: Path)
    requires '/' !in name && '.' !in name
    ensures Extension(dir + "/" + "." + name) == []
  {
    var file := "." + name;
    assert dir + "/" + "." + name == dir + "/" + file;
    assert '/' !in file by {
      forall j | 0 <= j < |file|
        ensures file[j] != '/'
      {
        if j > 0 { assert file[j] == name[j - 1]; }
      }
    }
    FileNameOfJoin(dir, file);
    forall j | 0 < j < |file|
      ensures file[j] != '.'
    {
      assert file[j] == name[j - 1];
    }
    if file != "." && file != ".." {
      assert LastIndexOf(file, '.') == 0 by {
        LastIndexOfIs(file, '.', 0);
      }
    }
  }
  /** `path::has_root_directory` on POSIX: the path starts with a separator. */
  predicate HasRootDirectory(p: Path) {
    |p| > 0 && p[0] == '/'
  }

  /** `p` without its leading separators. */
  function DropSeparators(p: Path): (r: Path)
    ensures r == [] || r[0] != '/'
    ensures |r| <= |p|
  {
    if p != [] && p[0] == '/' then DropSeparators(p[1..]) else p
  }

  /** The position of the first separator in `p`, or `|p|` when it has none. */
  function FirstSeparator(p: Path): (i: nat)
    ensures i <= |p|
    ensures i < |p| ==> p[i] == '/'
    ensures forall j | 0 <= j < i :: p[j] != '/'
  {
    if p == [] || p[0] == '/' then 0 else 1 + FirstSeparator(p[1..])
  }

  /** The file names of a path that does not start with a separator, as
      `path`'s iterator yields them: a run of separators ends a name, and a
      trailing separator adds a last, empty name. */
  function Names(p: Path): seq<Path>
    requires p == [] || p[0] != '/'
    decreases |p|
  {
    if p == [] then []
    else
      var i := FirstSeparator(p);
      if i == |p| then [p]
      else
        var rest := DropSeparators(p[i..]);
        if rest == [] then [p[..i], ""] else [p[..i]] + Names(rest)
  }

  /** `path::compare(q) == 0`, the test behind `operator==`: both or neither
      have a root directory, and their names agree one by one. Redundant
      separators therefore do not matter, while "." and ".." are names like
      any other (there is no normalisation). */
  predicate SamePath(a: Path, b: Path) {
    && HasRootDirectory(a) == HasRootDirectory(b)
    && Names(DropSeparators(a)) == Names(DropSeparators(b))
  }

  /** Doubling the separator after a leading name gives the same path:
      "sounds//sfx" is "sounds/sfx". */
  lemma DoubledSeparatorIsSamePath(name: Path, rest: Path)
    requires name != [] && '/' !in name
    ensures SamePath(name + "/" + rest, name + "//" + rest)
  {
    var single, double := name + "/" + rest, name + "//" + rest;
    assert name[0] != '/' by { assert name[0] in name; }
    assert single[0] == name[0] && double[0] == name[0];
    assert FirstSeparator(single) == |name| by {
      assert single[|name|] == '/';
    }
    assert FirstSeparator(double) == |name| by {
      assert double[|name|] == '/';
    }
    assert single[..|name|] == name && double[..|name|] == name;
    assert single[|name|..] == "/" + rest && double[|name|..] == "/" + ("/" + rest);
    assert ("/" + rest)[1..] == rest;
    assert ("/" + ("/" + rest))[1..] == "/" + rest;
    assert DropSeparators(double[|name|..]) == DropSeparators(single[|name|..]);
  }

  /** Some recorded path is the same path as `p`: `std::find` succeeds. */
  predicate ContainsPath(dirs: seq<Path>, p: Path) {
    exists d | d in dirs :: SamePath(d, p)
  }

  /** No two recorded paths are the same path. */
  ghost predicate DistinctPaths(dirs: seq<Path>) {
    forall i, j | 0 <= i < j < |dirs| :: !SamePath(dirs[i], dirs[j])
  }

  /** `erase(remove(begin, end, p), end)` on a list of paths: every entry
      that is the same path as `p` removed, every other one kept. */
  function WithoutPath(dirs: seq<Path>, p: Path): (r: seq<Path>)
    ensures forall d | d in r :: !SamePath(d, p)
    ensures forall d | !SamePath(d, p) :: d in r <==> d in dirs
    ensures |r| <= |dirs|
    ensures !ContainsPath(dirs, p) ==> r == dirs
  {
    if dirs == [] then []
    else
      var init := WithoutPath(dirs[..|dirs| - 1], p);
      var last := dirs[|dirs| - 1];
      assert forall d :: d in dirs <==> d in dirs[..|dirs| - 1] || d == last;
      assert !ContainsPath(dirs, p) ==> dirs[..|dirs| - 1] + [last] == dirs;
      if SamePath(last, p) then init else init + [last]
  }

  /** Removing entries keeps a list of distinct paths distinct. */
  lemma {:induction false} WithoutPathKeepsDistinct(dirs: seq<Path>, p: Path)
    requires DistinctPaths(dirs)
    ensures DistinctPaths(WithoutPath(dirs, p))
  {
    if dirs != [] {
      var init, last := dirs[..|dirs| - 1], dirs[|dirs| - 1];
      assert DistinctPaths(init);
      WithoutPathKeepsDistinct(init, p);
      if !SamePath(last, p) {
        var r := WithoutPath(init, p);
        forall i | 0 <= i < |r|
          ensures !SamePath(r[i], last)
        {
          assert r[i] in r;
          var j :| 0 <= j < |init| && init[j] == r[i];
          assert dirs[j] == init[j];
        }
        assert WithoutPath(dirs, p) == r + [last];
      }
    }
  }

  /** `remove` is stable: the result reads the list at increasing positions,
      and those positions are all the entries that are not the same path as
      `p`. */
  lemma {:induction false} WithoutPathKeepsOrder(dirs: seq<Path>, p: Path)
    ensures exists at: seq<nat> :: ReadAt(dirs, at, WithoutPath(dirs, p)) && KeepsAllBut(dirs, p, at)
  {
    if dirs == [] {
      assert ReadAt(dirs, [], []) && KeepsAllBut(dirs, p, []);
    } else {
      var init, last := dirs[..|dirs| - 1], dirs[|dirs| - 1];
      assert dirs == init + [last];
      WithoutPathKeepsOrder(init, p);
      var at: seq<nat> :| ReadAt(init, at, WithoutPath(init, p)) && KeepsAllBut(init, p, at);
      var keep := !SamePath(last, p);
      ReadAtStep(init, last, at, WithoutPath(init, p), keep);
      KeepsAllButStep(init, last, p, at);
      var at' := if keep then at + [|init|] else at;
      assert ReadAt(dirs, at', WithoutPath(dirs, p)) && KeepsAllBut(dirs, p, at');
    }
  }

  /** `at` holds the position of every entry that is not the same path as `p`. */
  ghost predicate KeepsAllBut(dirs: seq<Path>, p: Path, at: seq<nat>) {
    forall i | 0 <= i < |dirs| && !SamePath(dirs[i], p) :: i in at
  }

  lemma KeepsAllButStep(init: seq<Path>, last: Path, p: Path, at: seq<nat>)
    requires KeepsAllBut(init, p, at)
    ensures KeepsAllBut(init + [last], p, if SamePath(last, p) then at else at + [|init|])
  {
  }

  lemma ReadAtStep(init: seq<Path>, last: Path, at: seq<nat>, r: seq<Path>, keep: bool)
    requires ReadAt(init, at, r)
    ensures keep ==> ReadAt(init + [last], at + [|init|], r + [last])
    ensures !keep ==> ReadAt(init + [last], at, r)
  {
  }

  /** `r` is `s` read at the strictly increasing positions `at`. */
  ghost predicate ReadAt(s: seq<Path>, at: seq<nat>, r: seq<Path>) {
    && |at| == |r|
    && (forall k | 0 <= k < |at| :: at[k] < |s| && s[at[k]] == r[k])
    && (forall k, l | 0 <= k < l < |at| :: at[k] < at[l])
  }
}
