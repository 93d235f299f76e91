# ConfLoader: layered configuration resolution

A Dafny model of the configuration layering engine of ActFramework
(`act.conf.ConfLoader`). Given a resource root and the system properties,
the loader produces one flat key→value map:

1. the `.properties` and `.conf` files directly in the root, then those in
   `conf`, then those in `conf/<common>` (default `common`), then those in
   `conf/<profile>` (default: the lower-cased runtime mode name). Each layer
   overrides the keys of the layers before it. Within one directory the files
   merge in listing order.
2. the system properties, put over the disk result.
3. key normalization, run once at the end: the reserved prefix `act.` is
   stripped from every key.

A root that is a regular file is loaded as that one file, with no layering.
An unreadable file, a file that fails to open or parse, a failed listing and
a missing directory each contribute an empty map. None of them aborts the
load.

The environment is explicit:

- The file system is a map from paths (sequences of names) to entries. An
  entry is a directory with an ordered listing, or a failed listing. Otherwise
  it is a regular file: unreadable, failing to open, failing to parse, or
  parsed into a map.
- The system properties, the two name overrides and the runtime mode name
  form an `Environment` value.
- The `HashMap` iteration order of `processConf` is an explicit sequence of
  keys. It lists every key exactly once. The winner of a collision after
  stripping is therefore stated: the key visited later.

Modules: `ConfMaps` (maps and the last-writer-wins merge of a layer stack),
`KeyNormalizer` (`processConf`), `ProfileResolver` (`common()`,
`confSetName()`), `FileSources` (`loadConfFromFile`, `loadConfFromDir_`) and
`ConfLoader` (`loadConfFromDir`, `loadConfFromDisk`, `load`). The loops and
the in-place `putAll` sequences are methods over local maps. Each method is
proved equal to a specification function. The lemmas state the properties of
those functions.

In a collision after stripping, the value of whichever of `k` and `act.k`
the `HashMap` visits later wins, and neither key is preferred
(`KeyNormalizer.NormalizeCollision`). Listing order decides collisions
between files of one directory. The code has no sorted mode.

## Model

| member | source | states |
|---|---|---|
| ConfMaps.MergeLayersKeys | src/main/java/act/conf/ConfLoader.java:145-178 | a key is in the merge of a layer stack exactly when some layer defines it |
| ConfMaps.MergeLayersLastWins | src/main/java/act/conf/ConfLoader.java:145-178 | a key's merged value is the one from the last layer that defines it |
| ConfMaps.MergeLayersAppend | src/main/java/act/conf/ConfLoader.java:191-196 | merging a stack split in two equals putting the merge of the second half over the merge of the first |
| KeyNormalizer.Strip | src/main/java/act/conf/ConfLoader.java:52 | a key starting with `act.` loses exactly that prefix; any other key is unchanged |
| KeyNormalizer.StripCollision | src/main/java/act/conf/ConfLoader.java:50-53 | two distinct keys normalize alike only when one is the other, unprefixed, with `act.` in front |
| KeyNormalizer.StripPreimage | src/main/java/act/conf/ConfLoader.java:52 | the keys normalizing to an unprefixed key are exactly that key and its `act.` twin |
| KeyNormalizer.NormalizeKeys | src/main/java/act/conf/ConfLoader.java:48-55 | the normalized key set is exactly the image of the visited keys under stripping |
| KeyNormalizer.NormalizeLastWins | src/main/java/act/conf/ConfLoader.java:50-53 | a visited key that no later key collides with keeps its value under its stripped key |
| KeyNormalizer.NormalizeCollision | src/main/java/act/conf/ConfLoader.java:50-53 | when `k` and `act.k` both occur, `k` maps to the value of whichever of the two is visited later |
| KeyNormalizer.NormalizeNoCollision | src/main/java/act/conf/ConfLoader.java:50-53 | a key with no collision partner keeps its value under its stripped key, in any iteration order |
| KeyNormalizer.NormalizeIdentity | src/main/java/act/conf/ConfLoader.java:48-55 | a map with no `act.`-prefixed key normalizes to itself |
| KeyNormalizer.ProcessConf | src/main/java/act/conf/ConfLoader.java:48-56 | the loop builds the normalized map; its key set is the image of the input's keys under stripping |
| ProfileResolver.Common | src/main/java/act/conf/ConfLoader.java:119-125 | the override when it is non-blank, `"common"` otherwise; never blank |
| ProfileResolver.ToLower | src/main/java/act/conf/ConfLoader.java:134 | reference definition of lower-casing: same length, each ASCII upper-case letter mapped to its lower-case letter, every other character kept |
| ProfileResolver.ToLowerIdempotent | src/main/java/act/conf/ConfLoader.java:134 | a lower-cased name has no upper-case letter, and lower-casing it again changes nothing |
| ProfileResolver.ConfSetName | src/main/java/act/conf/ConfLoader.java:131-137 | the profile override when it is non-blank, otherwise the mode name lower-cased, character by character |
| FileSources.LoadConfFromFile | src/main/java/act/conf/ConfLoader.java:85-113 | the parsed properties for a parsed regular file; an empty map for a missing or unreadable path, a failed open, a parse error or a directory |
| FileSources.ConfFiles | src/main/java/act/conf/ConfLoader.java:182-187 | the filtered listing holds exactly the names ending in `.properties` or `.conf` |
| FileSources.ConfFilesAppend | src/main/java/act/conf/ConfLoader.java:182-187 | the filter keeps listing order: it distributes over concatenation |
| FileSources.FileLayers | src/main/java/act/conf/ConfLoader.java:192-195 | reference definition of the per-file layers: one per listed file, in listing order, each that file's map |
| FileSources.LoadConfFromDirFiles | src/main/java/act/conf/ConfLoader.java:181-198 | the loop's result is the listed files' maps merged in listing order, or empty when listing fails |
| FileSources.DirConfUnlisted | src/main/java/act/conf/ConfLoader.java:188-189 | a failed listing or a path that is not a directory yields an empty map |
| FileSources.DirConfKeys | src/main/java/act/conf/ConfLoader.java:181-197 | a key is in a directory's map exactly when some listed configuration file defines it |
| FileSources.DirConfLastFileWins | src/main/java/act/conf/ConfLoader.java:192-195 | a later file in the listing overrides an earlier one |
| FileSources.DirConfIgnoresOtherFiles | src/main/java/act/conf/ConfLoader.java:182-187 | changing a file not named `*.properties` or `*.conf` never changes a directory's map |
| FileSources.DirConfFrame | src/main/java/act/conf/ConfLoader.java:181-198 | a directory's map depends only on the directory and its immediate children |
| ConfLoader.OverlayDir | src/main/java/act/conf/ConfLoader.java:161-176 | an optional overlay contributes nothing unless its path is a directory |
| ConfLoader.LoadConfFromDir | src/main/java/act/conf/ConfLoader.java:139-179 | the in-place `putAll` sequence yields the merge of root, `conf`, common and profile layers, or empty for a missing root |
| ConfLoader.LayerPrecedence | src/main/java/act/conf/ConfLoader.java:145-178 | keys are the union of the four layers; each value comes from the last layer defining it, in the order root < `conf` < common < profile |
| ConfLoader.AbsentOverlays | src/main/java/act/conf/ConfLoader.java:161-176 | with no common and no profile directory the result is the root layer with `conf` put over it |
| ConfLoader.ProfileIsolation | src/main/java/act/conf/ConfLoader.java:167-176 | nothing under `conf/<other>`, for a name that is neither common set nor profile, affects the result |
| ConfLoader.DiskConf | src/main/java/act/conf/ConfLoader.java:77-83 | a directory root is layered with the resolved common and profile names; a root that is not a directory is read as one file; a missing root yields an empty map |
| ConfLoader.LoadConfFromDisk | src/main/java/act/conf/ConfLoader.java:77-83 | the dispatch yields the layered load for a directory and the single-file load otherwise |
| ConfLoader.RawConf | src/main/java/act/conf/ConfLoader.java:60-64 | every system property is present with its own value over any disk value; other keys keep the disk value; a null or missing root leaves just the system properties |
| ConfLoader.Load | src/main/java/act/conf/ConfLoader.java:58-71 | the result is the raw map normalized once; its keys are the stripped raw keys |
| ConfLoader.SysPropsWin | src/main/java/act/conf/ConfLoader.java:60-67 | a system property with no collision partner ends up, under its stripped key, with its own value |
| ConfLoader.NullRootLoad | src/main/java/act/conf/ConfLoader.java:60-67 | with a null root the result is the normalized system properties |
| ConfLoader.WorkedExample | src/main/java/act/conf/ConfLoader.java:139-179 | root `x=1`, `conf` `x=2,y=3`, `conf/common` `y=4` and no system property give `{x:2, y:4}`, unchanged by normalization |

## Left out

- Real I/O (`File.listFiles`, `FileInputStream`, `canRead`, `IO.close`) is replaced by the file-system map. Closing streams has no modelled effect.
- The text syntax of `Properties.load` is not modelled. A file is either parsed into a map or fails as a whole.
- Logging (lines 87, 98, 107, 141 and 172) is not modelled.
- `System.getProperties()`, `SysProps.get` and `Act.mode()` are inputs (`Environment`). The model does not tie the two name overrides to the system-property map that `SysProps.get` reads.
- The classloader branch at lines 91-93 is not modelled. It cannot run, because `conf.canRead()` at line 86 has already dereferenced `conf`.
- The abstract `create` and `confFileName` are not modelled, nor the typed `Config` they build. `Load` returns the map handed to `create`.
- ProfileResolver.ToLower: lower-cases ASCII letters only. Java's locale-dependent `String.toLowerCase` is not modelled. Runtime mode names are ASCII.
- `new File(confDir, name)` with a name containing a separator or `..` is treated as one path segment.
- `src/main/java/act/cli/meta/CommandParamMetaInfo.java` is not part of this model. It is a setter/getter descriptor whose only logic calls foreign code.
- The values of system properties are strings. `Properties` entries with non-string values are not modelled.
