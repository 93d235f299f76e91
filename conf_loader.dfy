/**
 * The layering engine (`ConfLoader.load`): files in the resource root, then
 * `conf`, then `conf/<common>`, then `conf/<profile>`, then the system
 * properties, each layer overriding the keys of the ones before it; the
 * merged map is normalized once, at the end.
 */
module ConfLoader {
  import opened ConfMaps
  import opened KeyNormalizer
  import opened ProfileResolver
  import opened FileSources

  /** The process-wide state a load reads. */
  datatype Environment = Environment(
    sysProps: Conf,              // `System.getProperties()`
    commonTag: Option<string>,   // the common-set override from `SysProps.get`
    profileTag: Option<string>,  // the profile override from `SysProps.get`
    modeName: string)            // `Act.mode().name()`

  /** The conventional configuration directory under a resource root. */
  const ConfDirName: string := "conf"

  function ConfDir(root: Path): Path {
    root + [ConfDirName]
  }

  /** An optional overlay directory: its map when it is a directory, nothing otherwise. */
  function OverlayDir(fs: FileSystem, dir: Path): (r: Conf)
    ensures !IsDirectory(fs, dir) ==> r == map[]
  {
    if IsDirectory(fs, dir) then DirConf(fs, dir) else map[]
  }

  function RootLayer(fs: FileSystem, root: Path): Conf { DirConf(fs, root) }
  function ConfLayer(fs: FileSystem, root: Path): Conf { DirConf(fs, ConfDir(root)) }
  function CommonLayer(fs: FileSystem, root: Path, common: string): Conf { OverlayDir(fs, ConfDir(root) + [common]) }
  function ProfileLayer(fs: FileSystem, root: Path, profile: string): Conf { OverlayDir(fs, ConfDir(root) + [profile]) }

  /** The four disk layers, lowest precedence first. */
  function Layers(fs: FileSystem, root: Path, common: string, profile: string): seq<Conf> {
    [RootLayer(fs, root), ConfLayer(fs, root), CommonLayer(fs, root, common), ProfileLayer(fs, root, profile)]
  }

  /** What `loadConfFromDir` yields for a resource directory. */
  function LayeredConf(fs: FileSystem, root: Path, common: string, profile: string): Conf {
    if root !in fs then map[] else MergeLayers(Layers(fs, root, common, profile))
  }

  /** Merging four layers puts each over the ones before it. */
  lemma MergeFour(a: Conf, b: Conf, c: Conf, d: Conf)
    ensures MergeLayers([a, b, c, d]) == map[] + a + b + c + d
  {
    assert [a][..0] == [];
    assert MergeLayers([a]) == map[] + a;
    assert [a, b][..1] == [a];
    assert MergeLayers([a, b]) == map[] + a + b;
    assert [a, b, c][..2] == [a, b];
    assert MergeLayers([a, b, c]) == map[] + a + b + c;
    assert [a, b, c, d][..3] == [a, b, c];
  }

  /**
   * `loadConfFromDir`: nothing when the directory does not exist; otherwise
   * the root's files, then `conf`, then the common set and the profile, each
   * only when it is a directory.
   */
  method LoadConfFromDir(fs: FileSystem, env: Environment, resourceDir: Path) returns (merged: Conf)
    ensures merged == LayeredConf(fs, resourceDir, Common(env.commonTag), ConfSetName(env.profileTag, env.modeName))
  {
    if resourceDir !in fs {
      return map[];
    }
    merged := map[];
    var fromRoot := LoadConfFromDirFiles(fs, resourceDir);
    merged := merged + fromRoot;
    var confDir := ConfDir(resourceDir);
    var fromConf := LoadConfFromDirFiles(fs, confDir);
    merged := merged + fromConf;
    var common := Common(env.commonTag);
    var commonConfDir := confDir + [common];
    if IsDirectory(fs, commonConfDir) {
      var fromCommon := LoadConfFromDirFiles(fs, commonConfDir);
      merged := merged + fromCommon;
    } else {
      assert merged + map[] == merged;
    }
    var profile := ConfSetName(env.profileTag, env.modeName);
    var taggedConfDir := confDir + [profile];
    if taggedConfDir in fs && IsDirectory(fs, taggedConfDir) {
      var fromProfile := LoadConfFromDirFiles(fs, taggedConfDir);
      merged := merged + fromProfile;
    } else {
      assert merged + map[] == merged;
    }
    MergeFour(fromRoot, fromConf, CommonLayer(fs, resourceDir, common), ProfileLayer(fs, resourceDir, profile));
  }

  /**
   * Layer precedence: the keys are the union of the layers' keys, and each
   * value comes from the last layer that defines the key, in the order
   * root, `conf`, `conf/<common>`, `conf/<profile>`.
   */
  lemma LayerPrecedence(fs: FileSystem, root: Path, common: string, profile: string, k: string)
    requires root in fs
    ensures var r, rl, cl, ml, pl := LayeredConf(fs, root, common, profile), RootLayer(fs, root),
              ConfLayer(fs, root), CommonLayer(fs, root, common), ProfileLayer(fs, root, profile);
      && (k in r <==> k in rl || k in cl || k in ml || k in pl)
      && (k in pl ==> r[k] == pl[k])
      && (k !in pl && k in ml ==> r[k] == ml[k])
      && (k !in pl && k !in ml && k in cl ==> r[k] == cl[k])
      && (k !in pl && k !in ml && k !in cl && k in rl ==> r[k] == rl[k])
  {
    var ls := Layers(fs, root, common, profile);
    MergeLayersKeys(ls, k);
    if k in ls[3] {
      MergeLayersLastWins(ls, 3, k);
    } else if k in ls[2] {
      MergeLayersLastWins(ls, 2, k);
    } else if k in ls[1] {
      MergeLayersLastWins(ls, 1, k);
    } else if k in ls[0] {
      MergeLayersLastWins(ls, 0, k);
    }
  }

  /** Without common and profile directories the result is the root and `conf` layers alone. */
  lemma AbsentOverlays(fs: FileSystem, root: Path, common: string, profile: string)
    requires root in fs
    requires !IsDirectory(fs, ConfDir(root) + [common]) && !IsDirectory(fs, ConfDir(root) + [profile])
    ensures LayeredConf(fs, root, common, profile) == RootLayer(fs, root) + ConfLayer(fs, root)
  {
    var r := LayeredConf(fs, root, common, profile);
    var two := RootLayer(fs, root) + ConfLayer(fs, root);
    forall k ensures (k in r <==> k in two) && (k in r ==> r[k] == two[k]) {
      LayerPrecedence(fs, root, common, profile, k);
    }
  }

  /** `p` lies strictly inside the directory `q`. */
  predicate StrictlyBelow(p: Path, q: Path) {
    |q| < |p| && p[..|q|] == q
  }

  /**
   * Profile isolation: whatever lies under `conf/<other>`, for a name that is
   * neither the common set nor the active profile, does not affect the result.
   */
  lemma ProfileIsolation(fs: FileSystem, fs': FileSystem, root: Path, common: string, profile: string, other: string)
    requires other != common && other != profile
    requires forall p :: !StrictlyBelow(p, ConfDir(root) + [other]) ==> AgreeAt(fs, fs', p)
    ensures LayeredConf(fs, root, common, profile) == LayeredConf(fs', root, common, profile)
  {
    var q := ConfDir(root) + [other];
    assert AgreeAt(fs, fs', root);
    if root in fs {
      var dirs := [root, ConfDir(root), ConfDir(root) + [common], ConfDir(root) + [profile]];
      forall d | d in dirs ensures DirConf(fs, d) == DirConf(fs', d) && AgreeAt(fs, fs', d) {
        forall p | |p| == |d| + 1 && p[..|d|] == d ensures AgreeAt(fs, fs', p) {
          if |q| < |p| {
            assert p[..|q|] == d;
            assert d[|root| + 1] != q[|root| + 1];
          }
        }
        DirConfFrame(fs, fs', d);
      }
      assert Layers(fs, root, common, profile) == Layers(fs', root, common, profile);
    }
  }

  /**
   * What `loadConfFromDisk` yields: the layered directory load for a
   * directory, and the single file otherwise.
   */
  function DiskConf(fs: FileSystem, env: Environment, root: Path): (r: Conf)
    ensures IsDirectory(fs, root) ==>
      r == LayeredConf(fs, root, Common(env.commonTag), ConfSetName(env.profileTag, env.modeName))
    ensures !IsDirectory(fs, root) ==> r == LoadConfFromFile(fs, root)
    ensures root !in fs ==> r == map[]
  {
    if IsDirectory(fs, root) then
      LayeredConf(fs, root, Common(env.commonTag), ConfSetName(env.profileTag, env.modeName))
    else LoadConfFromFile(fs, root)
  }

  /** `loadConfFromDisk`: a directory is layered, anything else is read as one file. */
  method LoadConfFromDisk(fs: FileSystem, env: Environment, conf: Path) returns (r: Conf)
    ensures r == DiskConf(fs, env, conf)
  {
    if IsDirectory(fs, conf) {
      r := LoadConfFromDir(fs, env, conf);
    } else {
      r := LoadConfFromFile(fs, conf);
    }
  }

  /**
   * The map `load` hands to normalization: the disk result (nothing without a
   * root) with the system properties put over it.
   */
  function RawConf(fs: FileSystem, env: Environment, resourceRoot: Option<Path>): (r: Conf)
    ensures forall k :: k in env.sysProps ==> k in r && r[k] == env.sysProps[k]
    ensures resourceRoot.None? ==> r == env.sysProps
    ensures resourceRoot.Some? && resourceRoot.value !in fs ==> r == env.sysProps
    ensures resourceRoot.Some? ==>
      && r.Keys == DiskConf(fs, env, resourceRoot.value).Keys + env.sysProps.Keys
      && forall k :: k in r && k !in env.sysProps ==> r[k] == DiskConf(fs, env, resourceRoot.value)[k]
  {
    (if resourceRoot.None? then map[] else DiskConf(fs, env, resourceRoot.value)) + env.sysProps
  }

  /**
   * `load`: read the disk, put the system properties over it, and strip the
   * reserved prefix once, visiting the keys in `order`.
   */
  method Load(fs: FileSystem, env: Environment, resourceRoot: Option<Path>, order: seq<string>) returns (conf: Conf)
    requires IsKeyOrder(order, RawConf(fs, env, resourceRoot).Keys)
    ensures conf == Normalize(RawConf(fs, env, resourceRoot), order)
    ensures conf.Keys == set k | k in RawConf(fs, env, resourceRoot) :: Strip(k)
  {
    var rawConf: Conf;
    if resourceRoot.None? {
      rawConf := map[];
    } else {
      rawConf := LoadConfFromDisk(fs, env, resourceRoot.value);
    }
    rawConf := rawConf + env.sysProps;
    conf := ProcessConf(rawConf, order);
  }

  /**
   * System properties win: a system property whose normalized key no other
   * raw key shares ends up in the result with its own value, whatever the
   * disk holds.
   */
  lemma SysPropsWin(fs: FileSystem, env: Environment, resourceRoot: Option<Path>, order: seq<string>, k: string)
    requires IsKeyOrder(order, RawConf(fs, env, resourceRoot).Keys)
    requires k in env.sysProps
    requires forall k' :: k' in RawConf(fs, env, resourceRoot) && k' != k ==> Strip(k') != Strip(k)
    ensures Strip(k) in Normalize(RawConf(fs, env, resourceRoot), order)
    ensures Normalize(RawConf(fs, env, resourceRoot), order)[Strip(k)] == env.sysProps[k]
  {
    NormalizeNoCollision(RawConf(fs, env, resourceRoot), order, k);
  }

  /** Without a resource root, the result is the normalized system properties. */
  lemma NullRootLoad(fs: FileSystem, env: Environment, order: seq<string>)
    requires IsKeyOrder(order, env.sysProps.Keys)
    ensures IsKeyOrder(order, RawConf(fs, env, None).Keys)
    ensures Normalize(RawConf(fs, env, None), order) == Normalize(env.sysProps, order)
  {
  }

  /**
   * The worked example: `a.properties` holds `x=1` in the root, `x=2, y=3`
   * in `conf` and `y=4` in `conf/common`; the mode is `DEV` and there is no
   * `conf/dev`, no override and no system property.
   */
  function ExampleFileSystem(): FileSystem {
    map[
      ["app"] := Directory(Names(["a.properties", "conf"])),
      ["app", "a.properties"] := RegularFile(Parsed(map["x" := "1"])),
      ["app", "conf"] := Directory(Names(["a.properties", "common"])),
      ["app", "conf", "a.properties"] := RegularFile(Parsed(map["x" := "2", "y" := "3"])),
      ["app", "conf", "common"] := Directory(Names(["a.properties"])),
      ["app", "conf", "common", "a.properties"] := RegularFile(Parsed(map["y" := "4"]))
    ]
  }

  function ExampleEnvironment(): Environment {
    Environment(map[], None, None, "DEV")
  }

  lemma ExampleNames()
    ensures ConfFiles(["a.properties", "conf"]) == ["a.properties"]
    ensures ConfFiles(["a.properties", "common"]) == ["a.properties"]
    ensures ConfFiles(["a.properties"]) == ["a.properties"]
  {
    var name := "a.properties";
    assert name[|name| - 11..] == ".properties";
    assert IsConfFileName(name);
    assert !IsConfFileName("conf") && !IsConfFileName("common");
  }

  /** A directory that lists `a.properties` alone, as a configuration file, has that file's map. */
  lemma ExampleDir(fs: FileSystem, dir: Path, m: Conf)
    requires ListConfFiles(fs, dir) == Some(["a.properties"])
    requires LoadConfFromFile(fs, dir + ["a.properties"]) == m
    ensures DirConf(fs, dir) == m
  {
    assert FileLayers(fs, dir, ["a.properties"]) == [m];
    assert [m][..0] == [];
    assert MergeLayers([m]) == MergeLayers([]) + m;
    assert map[] + m == m;
  }

  lemma ExampleRootLayer()
    ensures RootLayer(ExampleFileSystem(), ["app"]) == map["x" := "1"]
  {
    var fs := ExampleFileSystem();
    ExampleNames();
    assert fs[["app"]] == Directory(Names(["a.properties", "conf"]));
    assert ["app"] + ["a.properties"] == ["app", "a.properties"];
    assert fs[["app", "a.properties"]] == RegularFile(Parsed(map["x" := "1"]));
    ExampleDir(fs, ["app"], map["x" := "1"]);
  }

  lemma ExampleConfLayer()
    ensures ConfLayer(ExampleFileSystem(), ["app"]) == map["x" := "2", "y" := "3"]
  {
    var fs := ExampleFileSystem();
    ExampleNames();
    assert ConfDir(["app"]) == ["app", "conf"];
    assert fs[["app", "conf"]] == Directory(Names(["a.properties", "common"]));
    assert ["app", "conf"] + ["a.properties"] == ["app", "conf", "a.properties"];
    assert fs[["app", "conf", "a.properties"]] == RegularFile(Parsed(map["x" := "2", "y" := "3"]));
    ExampleDir(fs, ["app", "conf"], map["x" := "2", "y" := "3"]);
  }

  lemma ExampleCommonLayer()
    ensures CommonLayer(ExampleFileSystem(), ["app"], "common") == map["y" := "4"]
  {
    var fs := ExampleFileSystem();
    ExampleNames();
    var dir := ["app", "conf", "common"];
    assert ConfDir(["app"]) + ["common"] == dir;
    assert fs[dir] == Directory(Names(["a.properties"]));
    assert dir + ["a.properties"] == ["app", "conf", "common", "a.properties"];
    assert fs[dir + ["a.properties"]] == RegularFile(Parsed(map["y" := "4"]));
    ExampleDir(fs, dir, map["y" := "4"]);
  }

  lemma ExampleProfileLayer()
    ensures ProfileLayer(ExampleFileSystem(), ["app"], "dev") == map[]
  {
    assert ConfDir(["app"]) + ["dev"] == ["app", "conf", "dev"];
    assert ["app", "conf", "dev"] !in ExampleFileSystem();
  }

  lemma ExampleDisk()
    ensures DiskConf(ExampleFileSystem(), ExampleEnvironment(), ["app"]) == map["x" := "2", "y" := "4"]
  {
    var fs, env := ExampleFileSystem(), ExampleEnvironment();
    assert Common(env.commonTag) == "common";
    assert ConfSetName(env.profileTag, env.modeName) == "dev";
    assert IsDirectory(fs, ["app"]);
    ExampleRootLayer();
    ExampleConfLayer();
    ExampleCommonLayer();
    ExampleProfileLayer();
    var a, b, c: Conf := map["x" := "1"], map["x" := "2", "y" := "3"], map["y" := "4"];
    assert Layers(fs, ["app"], "common", "dev") == [a, b, c, map[]];
    MergeFour(a, b, c, map[]);
    ExampleMerge();
  }

  lemma ExampleMerge()
    ensures map[] + map["x" := "1"] + map["x" := "2", "y" := "3"] + map["y" := "4"] + map[]
      == map["x" := "2", "y" := "4"]
  {
  }

  lemma WorkedExample(order: seq<string>)
    requires IsKeyOrder(order, {"x", "y"})
    ensures RawConf(ExampleFileSystem(), ExampleEnvironment(), Some(["app"])) == map["x" := "2", "y" := "4"]
    ensures Normalize(map["x" := "2", "y" := "4"], order) == map["x" := "2", "y" := "4"]
  {
    ExampleDisk();
    var r := map["x" := "2", "y" := "4"];
    assert r + map[] == r;
    NormalizeIdentity(r, order);
  }
}
