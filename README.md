# AstrBot plugin utilities, modelled in Dafny

This project models the plugin bookkeeping of AstrBot (`util/plugin_util.py`):
how the plugin store is scanned for plugin directories (`get_modules`), how the
entry class of a plugin module is chosen (`get_classes`), how `plugin_reload`
imports every discovered plugin, validates the metadata its `info()` returns and
records it in the shared registry `cached_plugins` (keyed by the name the plugin
declares), and how `install_plugin`, `update_plugin`, `uninstall_plugin` and
`remove_dir` manage one plugin.

The outside world is abstract:

- the filesystem is a set of existing paths plus, for every directory, the
  ordered names `os.listdir` returns (`Discovery.FileSystem`);
- Python's import machinery is an oracle (`Loader.Importer`) that gives, for a
  descriptor, either the text of the exception the import raises or a module
  whose classes each say what calling them returns or raises, and whose
  instances say what `info()` returns or raises;
- `shutil.rmtree` is an oracle indexed by the attempt number
  (`Installer.Rmtree`);
- `git clone` / `git pull` and `pip install` are an `Installer.Remote` value:
  the exception the fetch raises (if any), the filesystem after it, and pip's
  exit code;
- which store directory `get_plugin_store_path` and `get_plugin_modules` find
  is an `Option<Path>` input (None: no candidate exists).

Modules (one per concern of the source file):

- `wrappers.dfy` — `Option`, `Result` (an exception is its text) and `Status`
  (an administrative call returns or raises a message).
- `names.dfy` (`PluginNames`) — the entry-class name test and the derivation of
  an install directory name from a repository URL; pure functions and lemmas.
- `discovery.dfy` (`Discovery`) — `get_modules` as a loop, specified by the
  function `Discovered`.
- `loader.dfy` (`Loader`) — `get_classes` as a loop; one load attempt
  (`TryLoad`, `LoadOne`); the batch (`ReloadBatch`), a left fold of one
  pass (`Step`) over the discovered descriptors, and its lemmas, which hold
  for every `Sound` pass and so for the pass of `plugin_reload`
  (`ReloadStep`); the
  registry as the class `CachedPlugins`, updated in place by `PluginReload`.
- `installer.dfy` (`Installer`) — `remove_dir` as a bounded retry loop
  specified by `Retry`; `UninstallPlugin`, `UpdatePlugin`, `InstallPlugin`.

Behaviour worth noting:

- A store that exists but holds no plugin makes `plugin_reload` return
  `(True, None)`; there is no separate "no plugins" failure for it. Only a
  missing store gives `(False, "未找到任何插件模块")`.
- The test at line 85 that decides whether a plugin is (re)loaded compares the
  plugin's MODULE name (`main`, or the directory name) with the registry's
  keys, which are DECLARED names. So, unless some plugin declares the name
  "main", a plugin whose module is `main` is selected by every reload
  (`Loader.MainModuleIsAlwaysSelected`): when the load succeeds, its class is
  instantiated again and the new object replaces the registered one. Its
  code is not refreshed, though: `__import__` hands back the module already
  imported, and `importlib.reload` runs only when the module name is a
  registry key. The importer oracle receives that flag. Likewise
  `update_plugin` passes the declared name as the target, where it is compared
  with the module name. Calling reload twice leaves the registry alone only for
  plugins whose module name is a registry key (`Loader.ReloadBatchUnselectedIsNoOp`).
- `remove_dir` falls off the end of its loop after 50 permission errors and
  returns `None`; the model names this outcome `Exhausted`. `uninstall_plugin`
  tests `not remove_dir(...)`, so `None` and `False` (directory already gone)
  are both reported as a failed deletion; `install_plugin` ignores the result.
- The entry class is the first qualifying name in the order the host
  enumerates a module's classes (`inspect.getmembers`, which sorts by name);
  the model takes that order as given.

## Model

| member | source | states |
|---|---|---|
| `PluginNames.IsEntryClassName` | util/plugin_util.py:23 | a class name qualifies exactly when its last six characters, lower-cased, are "plugin" or the whole name lower-cased is "main" |
| `PluginNames.EntryClassNameIgnoresCase` | util/plugin_util.py:23 | two class names with the same lower-cased form either both qualify as entry classes or both do not |
| `PluginNames.EntryClassNameExamples` | util/plugin_util.py:23 | "WeatherPlugin" and "Main" qualify, "Helper" does not |
| `PluginNames.DropTrailingSlash` | util/plugin_util.py:120-121 | the URL is the result or the result plus "/", and it is the latter exactly when the URL ends in "/": one trailing slash is removed |
| `PluginNames.LastSegment` | util/plugin_util.py:123 | the result holds no slash, is a suffix of the input, and is preceded by a slash whenever it is shorter than the input |
| `PluginNames.ReplaceHyphens` | util/plugin_util.py:125 | same length, no hyphen left, every hyphen becomes an underscore and every other character is kept |
| `PluginNames.InstallDirName` | util/plugin_util.py:120-125 | the directory name derived from a URL is no longer than the URL and holds neither "-" nor "/" |
| `PluginNames.LastSegmentOfJoin` | util/plugin_util.py:123 | the last segment of `base + "/" + seg` is `seg` when `seg` has no slash |
| `PluginNames.InstallDirNameOfRepository` | util/plugin_util.py:120-125 | for `base/seg` and `base/seg/` the directory name is `seg` with hyphens turned into underscores |
| `PluginNames.InstallDirNameOfDoubleSlash` | util/plugin_util.py:120-125 | only one slash is dropped: a URL ending in "//" yields the empty directory name |
| `Discovery.GetModules` | util/plugin_util.py:30-50 | the descriptors returned are exactly `Discovered` over the store's listing, in listing order |
| `Discovery.ModuleOf` | util/plugin_util.py:37-44 | a child yields a module iff it is a directory holding `main.py` or `<d>.py`; the module is "main" whenever `main.py` exists, otherwise the directory name |
| `Discovery.Discovered` | util/plugin_util.py:36-49 | at most one descriptor per listed child, and every descriptor names the module `get_modules` picks for its directory |
| `Discovery.DiscoveredMember` | util/plugin_util.py:36-49 | a listed child yields a descriptor iff it is a directory holding `main.py` or `<d>.py`; its module is "main" whenever `main.py` exists, otherwise the directory name |
| `Discovery.DiscoveredAppend` | util/plugin_util.py:36-49 | output order follows listing order: the descriptors of a concatenated listing are those of each part, concatenated |
| `Discovery.DiscoverExample` | util/plugin_util.py:30-50 | with A/main.py, B/B.py, a directory C with neither and a plain file D, only A (module main) and B (module B) are found, in that order |
| `Loader.FirstEntryIndex` | util/plugin_util.py:22-25 | the index found qualifies as an entry class and no earlier name does; it is the length when no name qualifies |
| `Loader.GetClasses` | util/plugin_util.py:19-27 | returns at most one name; empty iff no name qualifies; otherwise a qualifying name with no qualifying name before it |
| `Loader.Construct` | util/plugin_util.py:90 | instantiating by name gives what the first class of that name gives on construction, and an attribute error when no class has that name |
| `Loader.TryLoad` | util/plugin_util.py:86-101 | a success comes from the imported module's first entry class and carries dict metadata with all four required keys; an import fault or a module without an entry class gives one load-failure line; every failure is one diagnostic line |
| `Loader.TryLoadOfEntryClass` | util/plugin_util.py:89-101 | once the module imports and has an entry class: a constructor fault gives the load-failure line; an `info()` fault or a non-container gives the `info` failure line; a container missing a key gives the incomplete-metadata line, a non-dict one holding all keys the bad-format line; a dict holding name, desc, version and author gives success with that module, instance and dict, and only it does |
| `Loader.LoadPlugin` | util/plugin_util.py:86-101 | the import / instantiate / `info()` / validation steps of one plugin produce what `TryLoad` specifies |
| `Loader.LoadOne` | util/plugin_util.py:83-108 | a descriptor is skipped iff its module is a registry key, not the target, and `all` is false; a selected one fails exactly when the load attempt fails, with that attempt's diagnostic line; a load records the metadata's name, the directory name and complete metadata |
| `Loader.LoadOneRecordsValidPlugin` | util/plugin_util.py:85-108 | a selected plugin that imports, has an entry class that constructs, and whose `info()` is a dict holding the four keys is recorded under its declared name with its module, instance, metadata and directory name |
| `Loader.Apply` | util/plugin_util.py:102-108 | a load adds or replaces exactly the declared name; no other key changes; a skip or failure changes nothing |
| `Loader.MainModuleIsAlwaysSelected` | util/plugin_util.py:85 | while no plugin declares the name "main", a descriptor whose module is "main" is always selected for (re)loading, never skipped, whatever the target and flag; the load itself may still fail |
| `Loader.ReloadOne` | util/plugin_util.py:83-108 | one pass of the loop updates the registry as `Apply` of `LoadOne` says and returns that descriptor's diagnostic line |
| `Loader.ReloadStepSound` | util/plugin_util.py:86-108 | the pass of `plugin_reload` reports each failure as one diagnostic line and records only complete metadata under its declared name |
| `Loader.ReloadBatch` | util/plugin_util.py:81-111 | the loop over the descriptors as a left fold of one pass; one outcome per descriptor |
| `Loader.ReloadBatchFailRecShape` | util/plugin_util.py:81-111 | the accumulated `fail_rec` is empty or a sequence of complete lines |
| `Loader.ReloadBatchSucceedsIff` | util/plugin_util.py:80-115 | the accumulated diagnostics are empty iff no descriptor of the batch failed |
| `Loader.ReloadBatchFrame` | util/plugin_util.py:81-111 | a batch never removes a record, and any record it changes or adds was loaded by one of its descriptors |
| `Loader.ReloadBatchRecordsLoaded` | util/plugin_util.py:81-111 | every plugin a batch loads has a record under its declared name after the batch |
| `Loader.ReloadBatchKeepsWellFormed` | util/plugin_util.py:91-108 | if every record sits under its declared name with complete metadata before a batch, the same holds after it |
| `Loader.ReloadBatchAllSkipped` | util/plugin_util.py:81-111 | a batch in which every descriptor is skipped leaves the registry unchanged and reports nothing |
| `Loader.ReloadBatchUnselectedIsNoOp` | util/plugin_util.py:85 | without `all` and without a matching target, a batch whose modules are all registry keys changes nothing and reports nothing |
| `Loader.ReloadEach` | util/plugin_util.py:81-111 | the loop leaves the registry and `fail_rec` that the batch function gives for the discovered descriptors |
| `Loader.ReloadResultOutcome` | util/plugin_util.py:76-115 | the "no plugin modules" message is returned iff no store is found, and then nothing changes; otherwise success (with no message) iff no plugin failed, in particular for an empty store |
| `Loader.ReloadResult` | util/plugin_util.py:76-115 | success exactly when no message is returned; a missing store leaves the registry alone and returns "未找到任何插件模块" |
| `Loader.PluginReload` | util/plugin_util.py:76-115 | the registry and the returned pair are those of `ReloadResult` applied to the registry before the call |
| `Installer.RetryCharacterised` | util/plugin_util.py:162-174 | the retry loop makes at most its budget of `rmtree` calls; all but the last were permission errors that left the path; the result is absent, deleted, raised or exhausted exactly as the last call (or the absence of the path) decides |
| `Installer.Retry` | util/plugin_util.py:162-174 | the retry loop from attempt `k` with `tryCnt` tries left makes at most `tryCnt` further `rmtree` calls |
| `Installer.RemoveDir` | util/plugin_util.py:162-174 | returns what `Retry` gives from 50 tries; at most 50 `rmtree` calls; a missing path gives False with no call |
| `Installer.RemoveDirBounds` | util/plugin_util.py:162-174 | None (exhausted) is returned iff 50 calls were made and all of them failed with a permission error |
| `Installer.UninstallStatus` | util/plugin_util.py:144-145 | uninstall reports success iff the directory was deleted |
| `Installer.UninstallPlugin` | util/plugin_util.py:138-145 | an absent name raises "插件不存在。" and changes nothing; a missing store raises before any change; otherwise the name is removed from the registry first and stays removed whatever the deletion does |
| `Installer.ReloadStatus` | util/plugin_util.py:135-136 | install and update succeed iff their final reload succeeded |
| `Installer.UpdatePlugin` | util/plugin_util.py:147-160 | an absent name raises "插件不存在。" and changes nothing; a failed pull or dependency install changes nothing; otherwise the registry is that of a reload targeted at the name |
| `Installer.InstallPlugin` | util/plugin_util.py:117-136 | a leftover directory with the derived name goes through `remove_dir` before the clone, and only an exception from it stops the install; a failed clone or dependency install changes nothing; otherwise the registry is that of a reload targeted at the derived name |

## Left out

- `astrbot/bootstrap.py` is not part of this model: it is asyncio task supervision (`asyncio.gather`, cancellation) plus configuration, environment-variable, proxy and logging setup, none of which is plugin bookkeeping.
- `get_plugin_store_path` and `get_plugin_modules` (filesystem existence probes over three and two candidate paths): their results are inputs (`store`, `moduleStore`).
- Python's import machinery and reflection (`__import__`, `importlib.reload`, `inspect.getmembers`, `getattr`): replaced by the `Importer` oracle and the module's class list.
- `git clone`, `git pull` and `pip install`: foreign process and network calls, reduced to a `Remote` value (a fault, the resulting filesystem, an exit code).
- Discovery.GetModules: requires the store to be a directory; `os.listdir` raising on a store path that is a plain file is not modelled.
- Installer.RemoveDir: parsing the offending path out of the `PermissionError` message and the `chmod` call are part of the abstract `rmtree` step; a message without a quoted path makes that parsing raise, which the oracle expresses as an `OtherError` attempt.
- Paths are lists of components, so `os.path.join(store, d)` for the install names "" (a URL ending in "//"), "." (ending in "/.") and ".." (ending in "/..") is a separate child path here, while on disk it is the store itself, or for ".." the store's parent; the model therefore does not capture that `install_plugin` then runs `remove_dir` over the whole store or its parent.
- Object identity: constructing a plugin class is modelled by a fixed `Instance` value, so two instantiations of the same class give equal values. The model does not capture that each `getattr(module, cls[0])()` creates a fresh object with reset state, so a reload that re-registers a plugin replaces its object in the source but may leave an equal value in the model.
- `str.lower` is modelled on ASCII letters only; Unicode case mapping is not.
- Metadata values are strings; other value types are not modelled.
- `print` and `traceback.print_exc` diagnostics are not modelled.
