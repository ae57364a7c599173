/** `remove_dir`, `uninstall_plugin`, `update_plugin` and `install_plugin`:
    the administrative operations on one plugin. */
module Installer {
  import opened Wrappers
  import opened PluginNames
  import opened Discovery
  import opened Loader

  // ---------------------------------------------------------------------
  // remove_dir

  /** What one `shutil.rmtree` call does: it removes the tree, fails with a
      `PermissionError` (after which the path may or may not still exist),
      or raises another error with the given text. */
  datatype Rmtree = Removed | PermissionDenied(stillExists: bool) | OtherError(message: string)

  /** What `remove_dir` returns: False (the path does not exist), True (it
      was removed), None (the retry budget ran out), or the exception it lets
      through. */
  datatype Removal = Absent | Deleted | Exhausted | RemoveRaised(message: string)

  /** The retry budget of `remove_dir`. */
  const MaxTries: nat := 50

  /** The loop of `remove_dir` from attempt number `k` with `tryCnt` tries
      left, where `present` is what `os.path.exists` reports before the next
      attempt and `rmtree(j)` is what attempt `j` does. Gives the result and
      the number of `rmtree` calls made in all. */
  function Retry(present: bool, rmtree: nat -> Rmtree, k: nat, tryCnt: nat): (r: (Removal, nat))
    ensures k <= r.1 <= k + tryCnt
    decreases tryCnt
  {
    if tryCnt == 0 then (Exhausted, k)
    else if !present then (Absent, k)
    else
      match rmtree(k)
      case Removed => (Deleted, k + 1)
      case OtherError(m) => (RemoveRaised(m), k + 1)
      case PermissionDenied(still) => Retry(still, rmtree, k + 1, tryCnt - 1)
  }

  /** The retry loop makes at most `tryCnt` calls; every call but the last
      failed with a permission error and left the path in place; the result
      is decided by the last call (or by the path being absent before any). */
  lemma {:induction false} RetryCharacterised(present: bool, rmtree: nat -> Rmtree, k: nat, tryCnt: nat)
    requires tryCnt > 0
    ensures var (r, n) := Retry(present, rmtree, k, tryCnt);
      && k <= n <= k + tryCnt
      && (forall j :: k <= j < n - 1 ==> rmtree(j) == PermissionDenied(true))
      && (n == k <==> !present)
      && (r == Deleted <==> n > k && rmtree(n - 1) == Removed)
      && (r.RemoveRaised? <==> n > k && rmtree(n - 1).OtherError?)
      && (r.RemoveRaised? ==> r.message == rmtree(n - 1).message)
      && (r == Exhausted <==> n == k + tryCnt && rmtree(n - 1).PermissionDenied?)
      && (r == Absent <==> n == k || (n < k + tryCnt && rmtree(n - 1) == PermissionDenied(false)))
    decreases tryCnt
  {
    if present && rmtree(k).PermissionDenied? && tryCnt > 1 {
      RetryCharacterised(rmtree(k).stillExists, rmtree, k + 1, tryCnt - 1);
    }
  }

  /** `remove_dir(path)`, where `pathExists` says whether the path exists when it
      is called. Also returns how many times `rmtree` was called. */
  method RemoveDir(pathExists: bool, rmtree: nat -> Rmtree) returns (r: Removal, attempts: nat)
    ensures (r, attempts) == Retry(pathExists, rmtree, 0, MaxTries)
    ensures attempts <= MaxTries
    ensures !pathExists ==> r == Absent && attempts == 0
  {
    var tryCnt := MaxTries;
    var present := pathExists;
    attempts := 0;
    while tryCnt > 0
      invariant attempts + tryCnt == MaxTries
      invariant Retry(present, rmtree, attempts, tryCnt) == Retry(pathExists, rmtree, 0, MaxTries)
    {
      if !present {
        return Absent, attempts;
      }
      var outcome := rmtree(attempts);
      attempts := attempts + 1;
      match outcome
      case Removed =>
        return Deleted, attempts;
      case OtherError(m) =>
        return RemoveRaised(m), attempts;
      case PermissionDenied(still) =>
        // the read-only file is made writable and the deletion retried
        present := still;
        tryCnt := tryCnt - 1;
    }
    // the budget is spent: the function falls off its end and returns None
    return Exhausted, attempts;
  }

  /** A path that does not exist is reported as absent without any call to
      `rmtree`; otherwise at most 50 calls are made, and None is returned
      only after 50 permission errors in a row. */
  lemma RemoveDirBounds(pathExists: bool, rmtree: nat -> Rmtree)
    ensures var (r, n) := Retry(pathExists, rmtree, 0, MaxTries);
      && n <= MaxTries
      && (!pathExists ==> r == Absent && n == 0)
      && (r == Exhausted <==> n == MaxTries && forall j :: 0 <= j < MaxTries ==> rmtree(j).PermissionDenied?)
  {
    RetryCharacterised(pathExists, rmtree, 0, MaxTries);
  }

  // ---------------------------------------------------------------------
  // uninstall_plugin, update_plugin, install_plugin

  const NotFoundText := "插件不存在。"
  const StoreMissingText := "插件文件夹不存在。"
  const OrphanedDirText := "移除插件成功，但是删除插件文件夹失败。您可以手动删除该文件夹，位于 addons/plugins/ 下。"
  const InstallPipText := "插件的依赖安装失败, 需要您手动 pip 安装对应插件的依赖。"
  const UpdatePipText := "插件依赖安装失败, 需要您手动pip安装对应插件的依赖。"

  /** What `uninstall_plugin` reports once the record is gone, given what
      `remove_dir` returned: success only when the directory was deleted. */
  function UninstallStatus(removal: Removal): (s: Status)
    ensures s == Done <==> removal == Deleted
  {
    match removal
    case Deleted => Done
    case RemoveRaised(m) => Raised(m)
    case _ => Raised(OrphanedDirText)
  }

  /** `uninstall_plugin(name, cached)`. `store` is what
      `get_plugin_store_path` finds (None: it raises); `rmtree` stands for
      the deletions of the plugin's directory. */
  method UninstallPlugin(name: string, cached: CachedPlugins, fs: FileSystem, store: Option<Path>,
                         rmtree: nat -> Rmtree) returns (s: Status)
    modifies cached
    ensures name !in old(cached.entries) ==> s == Raised(NotFoundText) && cached.entries == old(cached.entries)
    ensures name in old(cached.entries) && store.None? ==>
      s == Raised(StoreMissingText) && cached.entries == old(cached.entries)
    ensures name in old(cached.entries) && store.Some? ==>
      && cached.entries == old(cached.entries) - {name}
      && var path := store.value + [old(cached.entries)[name].rootDirName];
         s == UninstallStatus(Retry(fs.Exists(path), rmtree, 0, MaxTries).0)
  {
    if name !in cached.entries {
      return Raised(NotFoundText);
    }
    var rootDirName := cached.entries[name].rootDirName;
    if store.None? {
      return Raised(StoreMissingText);
    }
    var ppath := store.value;
    // the record goes first; the directory may survive it
    cached.entries := cached.entries - {name};
    var removal, _ := RemoveDir(fs.Exists(ppath + [rootDirName]), rmtree);
    return UninstallStatus(removal);
  }

  /** What a `git clone` or `git pull` does, and what the dependency
      installation then returns: `fault` is the text of the exception the
      fetch raises, `fetched` the filesystem afterwards, `pipExit` the exit
      code of `pip install -r requirements.txt`. */
  datatype Remote = Remote(fault: Option<string>, fetched: FileSystem, pipExit: int)

  /** The status of the final `plugin_reload` call of install and update. */
  function ReloadStatus(r: Reloaded): (s: Status)
    ensures s == Done <==> r.ok
  {
    // the "None" text is never used: a reload that fails always carries a message
    if r.ok then Done else Raised(if r.err.Some? then r.err.value else "None")
  }

  /** `update_plugin(name, cached)`. `store` is what `get_plugin_store_path`
      finds, `moduleStore` what `get_plugin_modules` finds after the pull. */
  method UpdatePlugin(name: string, cached: CachedPlugins, store: Option<Path>, moduleStore: Option<Path>,
                      pull: Remote, importer: Importer) returns (s: Status)
    requires moduleStore.Some? ==> pull.fetched.IsDir(moduleStore.value)
    modifies cached
    ensures name !in old(cached.entries) ==> s == Raised(NotFoundText) && cached.entries == old(cached.entries)
    ensures name in old(cached.entries) && store.None? ==>
      s == Raised(StoreMissingText) && cached.entries == old(cached.entries)
    ensures name in old(cached.entries) && store.Some? ==>
      var path := store.value + [old(cached.entries)[name].rootDirName];
      if pull.fault.Some? then s == Raised(pull.fault.value) && cached.entries == old(cached.entries)
      else if pull.fetched.Exists(path + ["requirements.txt"]) && pull.pipExit != 0 then
        s == Raised(UpdatePipText) && cached.entries == old(cached.entries)
      else
        var r := ReloadResult(old(cached.entries), pull.fetched, moduleStore, Some(name), false, importer);
        cached.entries == r.cached && s == ReloadStatus(r)
  {
    if name !in cached.entries {
      return Raised(NotFoundText);
    }
    if store.None? {
      return Raised(StoreMissingText);
    }
    var pluginPath := store.value + [cached.entries[name].rootDirName];
    if pull.fault.Some? {
      return Raised(pull.fault.value);
    }
    if pull.fetched.Exists(pluginPath + ["requirements.txt"]) {
      if pull.pipExit != 0 {
        return Raised(UpdatePipText);
      }
    }
    var ok, err := PluginReload(cached, pull.fetched, moduleStore, Some(name), false, importer);
    s := ReloadStatus(Reloaded(cached.entries, ok, err));
  }

  /** `install_plugin(url, cached)`. `fs` is the filesystem before the
      clone, `store` what `get_plugin_store_path` finds, `rmtree` the
      deletions of a leftover directory of the same name, `clone` the clone
      and the dependency installation, `moduleStore` what
      `get_plugin_modules` finds after the clone. */
  method InstallPlugin(url: string, cached: CachedPlugins, fs: FileSystem, store: Option<Path>,
                       rmtree: nat -> Rmtree, clone: Remote, moduleStore: Option<Path>, importer: Importer)
    returns (s: Status)
    requires moduleStore.Some? ==> clone.fetched.IsDir(moduleStore.value)
    modifies cached
    ensures store.None? ==> s == Raised(StoreMissingText) && cached.entries == old(cached.entries)
    ensures store.Some? ==>
      var d := InstallDirName(url);
      var path := store.value + [d];
      var removal := if fs.Exists(path) then Retry(true, rmtree, 0, MaxTries).0 else Absent;
      if removal.RemoveRaised? then s == Raised(removal.message) && cached.entries == old(cached.entries)
      else if clone.fault.Some? then s == Raised(clone.fault.value) && cached.entries == old(cached.entries)
      else if clone.fetched.Exists(path + ["requirements.txt"]) && clone.pipExit != 0 then
        s == Raised(InstallPipText) && cached.entries == old(cached.entries)
      else
        var r := ReloadResult(old(cached.entries), clone.fetched, moduleStore, Some(d), false, importer);
        cached.entries == r.cached && s == ReloadStatus(r)
  {
    if store.None? {
      return Raised(StoreMissingText);
    }
    var ppath := store.value;
    var d := InstallDirName(url);
    var pluginPath := ppath + [d];
    if fs.Exists(pluginPath) {
      // a leftover directory of the same name is deleted first; only an
      // exception stops the install, the returned value is ignored
      var removal, _ := RemoveDir(true, rmtree);
      if removal.RemoveRaised? {
        return Raised(removal.message);
      }
    }
    if clone.fault.Some? {
      return Raised(clone.fault.value);
    }
    if clone.fetched.Exists(pluginPath + ["requirements.txt"]) {
      if clone.pipExit != 0 {
        return Raised(InstallPipText);
      }
    }
    var ok, err := PluginReload(cached, clone.fetched, moduleStore, Some(d), false, importer);
    s := ReloadStatus(Reloaded(cached.entries, ok, err));
  }
}
