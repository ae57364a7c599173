/** `get_modules`: the scan of the plugin store for plugin directories. */
module Discovery {
  import opened Wrappers

  /** A path as its list of components; `os.path.join(p, d)` is `p + [d]`. */
  type Path = seq<string>

  /** An abstract filesystem: the set of paths that exist and, for every
      directory, the names `os.listdir` returns for it, in that order. A path
      is a directory exactly when it has a listing. */
  datatype FileSystem = FileSystem(paths: set<Path>, listing: map<Path, seq<string>>)
  {
    /** `os.path.exists` */
    predicate Exists(p: Path) { p in paths || p in listing }

    /** `os.path.isdir` */
    predicate IsDir(p: Path) { p in listing }
  }

  /** One candidate plugin: the directory name `pname` and the name of the
      module to import from it. */
  datatype Descriptor = Descriptor(pname: string, moduleName: string)

  /** The module `get_modules` picks for the child `d` of `root`: "main" when
      `main.py` exists, else `d` when `<d>.py` exists; none for a child that
      is not a directory or has neither file. */
  function ModuleOf(fs: FileSystem, root: Path, d: string): (r: Option<string>)
    ensures r.Some? <==> fs.IsDir(root + [d]) &&
                         (fs.Exists(root + [d, "main.py"]) || fs.Exists(root + [d, d + ".py"]))
    ensures r.Some? ==> (r.value == "main" || r.value == d)
    ensures r.Some? && fs.Exists(root + [d, "main.py"]) ==> r.value == "main"
    ensures r.Some? && !fs.Exists(root + [d, "main.py"]) ==> r.value == d
  {
    if !fs.IsDir(root + [d]) then None
    else if fs.Exists(root + [d, "main.py"]) then Some("main")
    else if fs.Exists(root + [d, d + ".py"]) then Some(d)
    else None
  }

  /** The descriptors `get_modules` yields for the children `names`, in the
      order of `names`. */
  function Discovered(fs: FileSystem, root: Path, names: seq<string>): (r: seq<Descriptor>)
    ensures |r| <= |names|
    ensures forall i :: 0 <= i < |r| ==> ModuleOf(fs, root, r[i].pname) == Some(r[i].moduleName)
  {
    if names == [] then []
    else
      var d := names[|names| - 1];
      Discovered(fs, root, names[..|names| - 1]) +
        match ModuleOf(fs, root, d)
        case Some(m) => [Descriptor(d, m)]
        case None => []
  }

  /** `get_modules(path)`: one descriptor per subdirectory that holds
      `main.py` or `<d>.py`, in listing order. */
  method GetModules(fs: FileSystem, root: Path) returns (modules: seq<Descriptor>)
    requires fs.IsDir(root)
    ensures modules == Discovered(fs, root, fs.listing[root])
  {
    modules := [];
    var dirs := fs.listing[root];
    for i := 0 to |dirs|
      invariant modules == Discovered(fs, root, dirs[..i])
    {
      var d := dirs[i];
      assert dirs[..i + 1][..i] == dirs[..i];
      if fs.IsDir(root + [d]) {
        var moduleStr;
        if fs.Exists(root + [d, "main.py"]) {
          moduleStr := "main";
        } else if fs.Exists(root + [d, d + ".py"]) {
          moduleStr := d;
        } else {
          // the directory is skipped with a console message
          continue;
        }
        // a second existence test, always true at this point
        if fs.Exists(root + [d, "main.py"]) || fs.Exists(root + [d, d + ".py"]) {
          modules := modules + [Descriptor(d, moduleStr)];
        }
      }
    }
    assert dirs[..|dirs|] == dirs;
  }

  /** Discovery follows the listing: the descriptors of a concatenated listing
      are those of each part, in order. */
  lemma {:induction false} DiscoveredAppend(fs: FileSystem, root: Path, a: seq<string>, b: seq<string>)
    ensures Discovered(fs, root, a + b) == Discovered(fs, root, a) + Discovered(fs, root, b)
    decreases |b|
  {
    if b == [] {
      assert a + b == a;
    } else {
      var b' := b[..|b| - 1];
      assert (a + b)[..|a + b| - 1] == a + b';
      assert (a + b)[|a + b| - 1] == b[|b| - 1];
      DiscoveredAppend(fs, root, a, b');
    }
  }

  /** A listed child `d` yields a descriptor exactly when it is a directory
      holding `main.py` or `<d>.py`, and its module is then "main" whenever
      `main.py` exists (even beside `<d>.py`), otherwise `d`. */
  lemma {:induction false} DiscoveredMember(fs: FileSystem, root: Path, names: seq<string>, desc: Descriptor)
    ensures desc in Discovered(fs, root, names) <==>
      && desc.pname in names
      && fs.IsDir(root + [desc.pname])
      && (fs.Exists(root + [desc.pname, "main.py"]) || fs.Exists(root + [desc.pname, desc.pname + ".py"]))
      && desc.moduleName == (if fs.Exists(root + [desc.pname, "main.py"]) then "main" else desc.pname)
  {
    if names != [] {
      var init := names[..|names| - 1];
      DiscoveredMember(fs, root, init, desc);
      assert names == init + [names[|names| - 1]];
    }
  }

  /** A store with `A/main.py`, `B/B.py` and a directory `C` with neither, plus
      a plain file `D`: only A and B are discovered, in listing order. */
  lemma DiscoverExample()
    ensures
      var fs := FileSystem(
        {["store", "A", "main.py"], ["store", "B", "B.py"], ["store", "C", "notes.txt"], ["store", "D"]},
        map[["store"] := ["A", "B", "C", "D"], ["store", "A"] := ["main.py"],
            ["store", "B"] := ["B.py"], ["store", "C"] := ["notes.txt"]]);
      Discovered(fs, ["store"], fs.listing[["store"]]) == [Descriptor("A", "main"), Descriptor("B", "B")]
  {
    var root: Path := ["store"];
    var fs := FileSystem(
        {["store", "A", "main.py"], ["store", "B", "B.py"], ["store", "C", "notes.txt"], ["store", "D"]},
        map[["store"] := ["A", "B", "C", "D"], ["store", "A"] := ["main.py"],
            ["store", "B"] := ["B.py"], ["store", "C"] := ["notes.txt"]]);
    assert ["A", "B", "C", "D"][..3] == ["A", "B", "C"];
    assert ["A", "B", "C"][..2] == ["A", "B"];
    assert ["A", "B"][..1] == ["A"];
    assert root + ["D"] == ["store", "D"];
    assert root + ["C"] == ["store", "C"];
    assert root + ["C", "main.py"] == ["store", "C", "main.py"];
    assert "C" + ".py" == "C.py";
    assert root + ["C", "C" + ".py"] == ["store", "C", "C.py"];
    assert root + ["B"] == ["store", "B"];
    assert root + ["B", "main.py"] == ["store", "B", "main.py"];
    assert "B" + ".py" == "B.py";
    assert root + ["B", "B" + ".py"] == ["store", "B", "B.py"];
    assert root + ["A"] == ["store", "A"];
    assert root + ["A", "main.py"] == ["store", "A", "main.py"];
    assert ModuleOf(fs, root, "D") == None;
    assert ModuleOf(fs, root, "C") == None;
    assert ModuleOf(fs, root, "B") == Some("B");
    assert ModuleOf(fs, root, "A") == Some("main");
  }
}
