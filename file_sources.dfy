/**
 * The file system as the loader sees it, and the two sources that read it:
 * one configuration file (`loadConfFromFile`) and the configuration files
 * directly inside one directory (`loadConfFromDir_`).
 */
module FileSources {
  import opened ConfMaps

  /** A path: the names of the directories leading to an entry, then its own. */
  type Path = seq<string>

  /** What reading a regular file yields. */
  datatype FileState =
    | Unreadable          // `canRead()` is false
    | OpenFails           // opening a stream on it throws
    | ParseFails          // `Properties.load` throws
    | Parsed(props: Conf) // the properties it holds

  /** What listing a directory yields, in the order the file system returns names. */
  datatype Listing = ListFails | Names(names: seq<string>)

  datatype Entry = Directory(listing: Listing) | RegularFile(state: FileState)

  /** The file system: the entry at every path that exists. */
  type FileSystem = map<Path, Entry>

  predicate IsDirectory(fs: FileSystem, p: Path) {
    p in fs && fs[p].Directory?
  }

  /** A path that does not exist cannot be read; a directory can. */
  predicate CanRead(fs: FileSystem, p: Path) {
    p in fs && fs[p] != RegularFile(Unreadable)
  }

  /** A stream opens on a readable regular file and never on a directory. */
  predicate CanOpen(fs: FileSystem, p: Path)
    requires CanRead(fs, p)
  {
    fs[p].RegularFile? && fs[p].state != OpenFails
  }

  /**
   * `loadConfFromFile`: the properties the file holds, or an empty map when
   * it cannot be read, cannot be opened, or does not parse.
   */
  function LoadConfFromFile(fs: FileSystem, p: Path): (r: Conf)
    ensures r != map[] ==> p in fs && fs[p] == RegularFile(Parsed(r))
    ensures p in fs && fs[p].RegularFile? && fs[p].state.Parsed? ==> r == fs[p].state.props
  {
    if !CanRead(fs, p) then map[]
    else if !CanOpen(fs, p) then map[]
    else match fs[p].state
      case Parsed(props) => props
      case _ => map[]
  }

  predicate EndsWith(s: string, suffix: string) {
    |suffix| <= |s| && s[|s| - |suffix|..] == suffix
  }

  /** The listing filter: names ending in `.properties` or `.conf`. */
  predicate IsConfFileName(name: string) {
    EndsWith(name, ".properties") || EndsWith(name, ".conf")
  }

  /** The names a filtered listing keeps, in listing order. */
  function ConfFiles(names: seq<string>): (r: seq<string>)
    ensures forall n :: n in r <==> n in names && IsConfFileName(n)
    ensures |r| <= |names|
  {
    if names == [] then []
    else (if IsConfFileName(names[0]) then [names[0]] else []) + ConfFiles(names[1..])
  }

  /** Filtering keeps the listing order: it distributes over concatenation. */
  lemma {:induction false} ConfFilesAppend(a: seq<string>, b: seq<string>)
    ensures ConfFiles(a + b) == ConfFiles(a) + ConfFiles(b)
  {
    if a != [] {
      assert (a + b)[0] == a[0];
      assert (a + b)[1..] == a[1..] + b;
      ConfFilesAppend(a[1..], b);
    } else {
      assert a + b == b;
    }
  }

  /** `listFiles` with the filter: no array when the path is not a listable directory. */
  function ListConfFiles(fs: FileSystem, dir: Path): Option<seq<string>> {
    if IsDirectory(fs, dir) && fs[dir].listing.Names? then Some(ConfFiles(fs[dir].listing.names))
    else None
  }

  /** The maps of the listed files, one layer per file, in listing order. */
  function FileLayers(fs: FileSystem, dir: Path, files: seq<string>): (r: seq<Conf>)
    ensures |r| == |files|
    ensures forall i :: 0 <= i < |files| ==> r[i] == LoadConfFromFile(fs, dir + [files[i]])
  {
    seq(|files|, i requires 0 <= i < |files| => LoadConfFromFile(fs, dir + [files[i]]))
  }

  /** What `loadConfFromDir_` yields: the listed files merged in listing order. */
  function DirConf(fs: FileSystem, dir: Path): Conf {
    match ListConfFiles(fs, dir)
    case None => map[]
    case Some(files) => MergeLayers(FileLayers(fs, dir, files))
  }

  /**
   * `loadConfFromDir_`: list the configuration files of `dir` and put each
   * file's map, in listing order, over the ones before it.
   */
  method LoadConfFromDirFiles(fs: FileSystem, dir: Path) returns (merged: Conf)
    ensures merged == DirConf(fs, dir)
  {
    var confFiles := ListConfFiles(fs, dir);
    if confFiles.None? {
      return map[];
    }
    var files := confFiles.value;
    ghost var layers := FileLayers(fs, dir, files);
    merged := map[];
    var n := |files|;
    for i := 0 to n
      invariant merged == MergeLayers(layers[..i])
    {
      assert layers[..i + 1][..i] == layers[..i];
      merged := merged + LoadConfFromFile(fs, dir + [files[i]]);
    }
    assert layers[..n] == layers;
  }

  /** A failed listing, or a path that is no directory, contributes nothing. */
  lemma DirConfUnlisted(fs: FileSystem, dir: Path)
    requires !IsDirectory(fs, dir) || fs[dir].listing == ListFails
    ensures DirConf(fs, dir) == map[]
  {
  }

  /**
   * A key is in a directory's map exactly when some listed configuration file
   * defines it.
   */
  lemma DirConfKeys(fs: FileSystem, dir: Path, k: string)
    ensures k in DirConf(fs, dir) <==>
      IsDirectory(fs, dir) && fs[dir].listing.Names? &&
      exists n :: n in fs[dir].listing.names && IsConfFileName(n) && k in LoadConfFromFile(fs, dir + [n])
  {
    if ListConfFiles(fs, dir).Some? {
      var files := ListConfFiles(fs, dir).value;
      var layers := FileLayers(fs, dir, files);
      MergeLayersKeys(layers, k);
      if k in DirConf(fs, dir) {
        var i :| 0 <= i < |layers| && k in layers[i];
        assert files[i] in files;
      }
      if exists n :: n in fs[dir].listing.names && IsConfFileName(n) && k in LoadConfFromFile(fs, dir + [n]) {
        var n :| n in fs[dir].listing.names && IsConfFileName(n) && k in LoadConfFromFile(fs, dir + [n]);
        var i :| 0 <= i < |files| && files[i] == n;
        assert k in layers[i];
      }
    }
  }

  /** A later file in the listing overrides an earlier one. */
  lemma DirConfLastFileWins(fs: FileSystem, dir: Path, files: seq<string>, i: nat, k: string)
    requires ListConfFiles(fs, dir) == Some(files)
    requires i < |files| && k in LoadConfFromFile(fs, dir + [files[i]])
    requires forall j :: i < j < |files| ==> k !in LoadConfFromFile(fs, dir + [files[j]])
    ensures k in DirConf(fs, dir)
    ensures DirConf(fs, dir)[k] == LoadConfFromFile(fs, dir + [files[i]])[k]
  {
    MergeLayersLastWins(FileLayers(fs, dir, files), i, k);
  }

  /** What a file not named like a configuration file holds never matters. */
  lemma DirConfIgnoresOtherFiles(fs: FileSystem, dir: Path, name: string, e: Entry)
    requires !IsConfFileName(name)
    ensures DirConf(fs[dir + [name] := e], dir) == DirConf(fs, dir)
  {
    var fs' := fs[dir + [name] := e];
    assert dir + [name] != dir by {
      assert |dir + [name]| != |dir|;
    }
    assert ListConfFiles(fs', dir) == ListConfFiles(fs, dir);
    if ListConfFiles(fs, dir).Some? {
      var files := ListConfFiles(fs, dir).value;
      forall i | 0 <= i < |files|
        ensures LoadConfFromFile(fs', dir + [files[i]]) == LoadConfFromFile(fs, dir + [files[i]])
      {
        assert files[i] in files;
        assert files[i] != name;
        assert (dir + [files[i]])[|dir|] != (dir + [name])[|dir|];
      }
      assert FileLayers(fs', dir, files) == FileLayers(fs, dir, files);
    }
  }

  /** Two file systems hold the same entry (or none) at a path. */
  predicate AgreeAt(fs: FileSystem, fs': FileSystem, p: Path) {
    (p in fs <==> p in fs') && (p in fs ==> fs[p] == fs'[p])
  }

  /** A directory's map depends only on the directory and its immediate children. */
  lemma DirConfFrame(fs: FileSystem, fs': FileSystem, dir: Path)
    requires AgreeAt(fs, fs', dir)
    requires forall p :: |p| == |dir| + 1 && p[..|dir|] == dir ==> AgreeAt(fs, fs', p)
    ensures DirConf(fs, dir) == DirConf(fs', dir)
  {
    assert ListConfFiles(fs', dir) == ListConfFiles(fs, dir);
    if ListConfFiles(fs, dir).Some? {
      var files := ListConfFiles(fs, dir).value;
      forall i | 0 <= i < |files|
        ensures LoadConfFromFile(fs', dir + [files[i]]) == LoadConfFromFile(fs, dir + [files[i]])
      {
        var p := dir + [files[i]];
        assert p[..|dir|] == dir;
        assert AgreeAt(fs, fs', p);
      }
      assert FileLayers(fs', dir, files) == FileLayers(fs, dir, files);
    }
  }
}
