/** `get_classes` and `plugin_reload`: importing each discovered plugin,
    validating its metadata and recording it in the shared registry
    (`cached_plugins`, keyed by the name the plugin declares). */
module Loader {
  import opened Wrappers
  import opened PluginNames
  import opened Discovery

  /** What `info()` returned: a dict (its keys and string values), another
      object that supports `in` (a list, a tuple, a string: `members` are the
      keys for which `key in info` is true), or an object for which `in`
      raises a `TypeError` with the given text. */
  datatype InfoValue =
    | Mapping(fields: map<string, string>)
    | Container(members: set<string>)
    | NotContainer(typeError: string)

  /** An instance of a plugin class; `info` is what calling `info()` on it
      returns or raises. */
  datatype Instance = Instance(id: nat, info: Result<InfoValue>)

  /** A class a plugin module exports; `construct` is what calling it with no
      arguments returns or raises. */
  datatype ClassDef = ClassDef(name: string, construct: Result<Instance>)

  /** An imported plugin module and its classes in the order the host
      enumerates them. */
  datatype Module = Module(id: nat, classes: seq<ClassDef>)

  /** The import machinery: the module of a descriptor, or the text of the
      exception importing it raises; the flag says whether the module is
      re-imported (`importlib.reload`) rather than imported. */
  type Importer = (Descriptor, bool) -> Result<Module>

  /** A registry record: the module, the instance, its metadata, the
      declared name and the storage directory. */
  datatype Entry = Entry(handle: Module, instance: Instance, info: map<string, string>,
                         name: string, rootDirName: string)

  /** The metadata keys every plugin must declare. */
  const RequiredKeys: set<string> := {"name", "desc", "version", "author"}

  /** The text of the `IndexError` raised by `cls[0]` on an empty list. */
  const IndexErrorText := "list index out of range"

  /** The text of the `AttributeError` raised by `getattr` for a missing name.
      The entry class's name is taken from the module's own classes, so the
      lookup always finds it and this text never reaches a diagnostic. */
  const AttributeErrorText := "module has no such attribute"

  /** The message returned when no plugin store is found. */
  const NoPluginsText := "未找到任何插件模块"

  function IncompleteLine(p: string): string { "载入插件" + p + "失败，原因: 插件信息不完整\n" }

  function BadFormatLine(p: string): string { "载入插件" + p + "失败，原因: 插件信息格式不正确\n" }

  function InfoFaultLine(p: string, e: string): string { "调用插件" + p + " info失败, 原因: " + e + "\n" }

  function LoadFaultLine(p: string, e: string): string { "加载" + p + "插件出现问题，原因 " + e + "\n" }

  /** A diagnostic line: non-empty and ending in a newline. */
  predicate IsLine(s: string) { |s| > 0 && s[|s| - 1] == '\n' }

  /** Every registry record carries complete metadata and sits under the
      name it declares. */
  ghost predicate WellFormed(cached: map<string, Entry>)
  {
    forall k :: k in cached ==>
      && RequiredKeys <= cached[k].info.Keys
      && cached[k].info["name"] == k
      && cached[k].name == k
  }

  // ---------------------------------------------------------------------
  // get_classes

  /** The index of the first entry-class name in `names`, or `|names|` when
      none qualifies. */
  function FirstEntryIndex(names: seq<string>): (k: nat)
    ensures k <= |names|
    ensures k < |names| ==> IsEntryClassName(names[k])
    ensures forall j :: 0 <= j < k ==> !IsEntryClassName(names[j])
  {
    if names == [] then 0
    else if IsEntryClassName(names[0]) then 0
    else 1 + FirstEntryIndex(names[1..])
  }

  /** `get_classes`: at most one name, the first that qualifies as an entry
      class; none when no name qualifies. */
  method GetClasses(names: seq<string>) returns (classes: seq<string>)
    ensures |classes| <= 1
    ensures classes == [] <==> forall i :: 0 <= i < |names| ==> !IsEntryClassName(names[i])
    ensures classes != [] ==>
      exists i :: 0 <= i < |names| && names[i] == classes[0] && IsEntryClassName(names[i]) &&
        forall j :: 0 <= j < i ==> !IsEntryClassName(names[j])
    ensures var k := FirstEntryIndex(names); classes == if k < |names| then [names[k]] else []
  {
    classes := [];
    var i := 0;
    while i < |names|
      invariant 0 <= i <= |names|
      invariant forall j :: 0 <= j < i ==> !IsEntryClassName(names[j])
    {
      if IsEntryClassName(names[i]) {
        classes := classes + [names[i]];
        return;
      }
      i := i + 1;
    }
  }

  // ---------------------------------------------------------------------
  // Loading one descriptor

  function ClassNames(m: Module): (names: seq<string>)
    ensures |names| == |m.classes|
    ensures forall i :: 0 <= i < |names| ==> names[i] == m.classes[i].name
  {
    seq(|m.classes|, i requires 0 <= i < |m.classes| => m.classes[i].name)
  }

  /** `getattr(module, name)()`: instantiate the first class called `name`. */
  function Construct(classes: seq<ClassDef>, name: string): (r: Result<Instance>)
    ensures (forall i :: 0 <= i < |classes| ==> classes[i].name != name) ==> r == Err(AttributeErrorText)
    ensures forall i ::
      (0 <= i < |classes| && classes[i].name == name && forall j :: 0 <= j < i ==> classes[j].name != name) ==>
        r == classes[i].construct
  {
    if classes == [] then Err(AttributeErrorText)
    else if classes[0].name == name then classes[0].construct
    else Construct(classes[1..], name)
  }

  /** What a successful load produces. */
  datatype Attempt = Attempt(handle: Module, instance: Instance, info: map<string, string>)

  /** Import, pick the entry class, instantiate it, call `info()` and check
      the result, as the body of the `try` in `plugin_reload` does; a failure
      is the one diagnostic line appended for it. */
  function TryLoad(d: Descriptor, reloading: bool, importer: Importer): (r: Result<Attempt>)
    ensures r.Err? ==> IsLine(r.error)
    ensures r.Ok? ==>
      && importer(d, reloading) == Ok(r.value.handle)
      && r.value.instance.info == Ok(Mapping(r.value.info))
      && RequiredKeys <= r.value.info.Keys
    ensures r.Ok? ==>
      var names := ClassNames(r.value.handle);
      var k := FirstEntryIndex(names);
      k < |names| && Construct(r.value.handle.classes, names[k]) == Ok(r.value.instance)
    ensures importer(d, reloading).Err? ==>
      r == Err(LoadFaultLine(d.moduleName, importer(d, reloading).error))
    ensures importer(d, reloading).Ok? &&
            (forall i :: 0 <= i < |importer(d, reloading).value.classes| ==>
               !IsEntryClassName(importer(d, reloading).value.classes[i].name)) ==>
      r == Err(LoadFaultLine(d.moduleName, IndexErrorText))
  {
    var p := d.moduleName;
    match importer(d, reloading)
    case Err(e) => Err(LoadFaultLine(p, e))
    case Ok(m) =>
      var names := ClassNames(m);
      var k := FirstEntryIndex(names);
      if k == |names| then Err(LoadFaultLine(p, IndexErrorText))
      else
        match Construct(m.classes, names[k])
        case Err(e) => Err(LoadFaultLine(p, e))
        case Ok(obj) =>
          match obj.info
          case Err(e) => Err(InfoFaultLine(p, e))
          case Ok(NotContainer(e)) => Err(InfoFaultLine(p, e))
          case Ok(Container(ks)) => Err(if RequiredKeys <= ks then BadFormatLine(p) else IncompleteLine(p))
          case Ok(Mapping(f)) =>
            if RequiredKeys <= f.Keys then Ok(Attempt(m, obj, f)) else Err(IncompleteLine(p))
  }

  /** Once the module imports and exports an entry class, the outcome is
      decided by instantiating that class and by what its `info()` gives:
      the load succeeds exactly when `info()` returns a dict holding name,
      desc, version and author, and then carries that module, instance and
      dict; every other case is the diagnostic line of its own kind. */
  lemma {:induction false} TryLoadOfEntryClass(d: Descriptor, reloading: bool, importer: Importer)
    ensures importer(d, reloading).Ok? ==>
      var m := importer(d, reloading).value;
      var k := FirstEntryIndex(ClassNames(m));
      var p := d.moduleName;
      var r := TryLoad(d, reloading, importer);
      k < |m.classes| ==>
        var c := Construct(m.classes, m.classes[k].name);
        && (c.Err? ==> r == Err(LoadFaultLine(p, c.error)))
        && (c.Ok? && c.value.info.Err? ==> r == Err(InfoFaultLine(p, c.value.info.error)))
        && (c.Ok? && c.value.info.Ok? ==>
              var info := c.value.info.value;
              && (info.NotContainer? ==> r == Err(InfoFaultLine(p, info.typeError)))
              && (info.Container? ==>
                    r == Err(if RequiredKeys <= info.members then BadFormatLine(p) else IncompleteLine(p)))
              && (info.Mapping? && !(RequiredKeys <= info.fields.Keys) ==> r == Err(IncompleteLine(p)))
              && (info.Mapping? && RequiredKeys <= info.fields.Keys ==>
                    r == Ok(Attempt(m, c.value, info.fields))))
        && (r.Ok? <==> c.Ok? && c.value.info.Ok? && c.value.info.value.Mapping? &&
                       RequiredKeys <= c.value.info.value.fields.Keys)
  {
    if importer(d, reloading).Ok? {
      var m := importer(d, reloading).value;
      var k := FirstEntryIndex(ClassNames(m));
      if k < |m.classes| {
        assert ClassNames(m)[k] == m.classes[k].name;
      }
    }
  }

  /** What one descriptor does to the registry. */
  datatype Outcome = Skipped | Loaded(entry: Entry) | Failed(line: string)

  /** Whether `plugin_reload` (re)loads a descriptor: its module is not a
      registry key, or it is the target, or everything is reloaded. */
  predicate Selected(cached: map<string, Entry>, d: Descriptor, target: Option<string>, all: bool)
  {
    d.moduleName !in cached || target == Some(d.moduleName) || all
  }

  /** One iteration of the loop in `plugin_reload`. */
  function LoadOne(cached: map<string, Entry>, d: Descriptor, target: Option<string>, all: bool,
                   importer: Importer): (o: Outcome)
    ensures o.Skipped? <==> !Selected(cached, d, target, all)
    ensures o.Failed? ==> IsLine(o.line)
    ensures Selected(cached, d, target, all) ==>
      (o.Failed? <==> TryLoad(d, d.moduleName in cached, importer).Err?)
    ensures o.Failed? ==> o.line == TryLoad(d, d.moduleName in cached, importer).error
    ensures o.Loaded? ==>
      && RequiredKeys <= o.entry.info.Keys
      && o.entry.name == o.entry.info["name"]
      && o.entry.rootDirName == d.pname
      && o.entry.instance.info == Ok(Mapping(o.entry.info))
  {
    if !Selected(cached, d, target, all) then Skipped
    else
      match TryLoad(d, d.moduleName in cached, importer)
      case Ok(a) => Loaded(Entry(a.handle, a.instance, a.info, a.info["name"], d.pname))
      case Err(line) => Failed(line)
  }

  /** A selected plugin that imports, exports an entry class whose
      instance is created, and whose `info()` returns a dict holding name,
      desc, version and author is recorded under the name it declares, with
      its module, instance, metadata and directory name. */
  lemma LoadOneRecordsValidPlugin(cached: map<string, Entry>, d: Descriptor, target: Option<string>,
                                  all: bool, importer: Importer, m: Module, k: nat, obj: Instance,
                                  f: map<string, string>)
    requires Selected(cached, d, target, all)
    requires importer(d, d.moduleName in cached) == Ok(m)
    requires k == FirstEntryIndex(ClassNames(m)) && k < |m.classes|
    requires Construct(m.classes, m.classes[k].name) == Ok(obj)
    requires obj.info == Ok(Mapping(f)) && RequiredKeys <= f.Keys
    ensures var r := Apply(cached, LoadOne(cached, d, target, all, importer));
      "name" in f && f["name"] in r && r[f["name"]] == Entry(m, obj, f, f["name"], d.pname)
  {
    TryLoadOfEntryClass(d, d.moduleName in cached, importer);
  }

  /** The registry after one outcome: a load adds or replaces exactly the
      declared name; nothing else changes. */
  function Apply(cached: map<string, Entry>, o: Outcome): (r: map<string, Entry>)
    ensures o.Loaded? ==> r.Keys == cached.Keys + {o.entry.name} && r[o.entry.name] == o.entry
    ensures !o.Loaded? ==> r == cached
    ensures forall k :: k in cached && !(o.Loaded? && k == o.entry.name) ==> k in r && r[k] == cached[k]
  {
    if o.Loaded? then cached[o.entry.name := o.entry] else cached
  }

  function LineOf(o: Outcome): string
  {
    if o.Failed? then o.line else ""
  }

  /** One pass of the loop of `plugin_reload`, as a function of the
      registry it sees and the descriptor it handles. */
  type Step = (map<string, Entry>, Descriptor) -> Outcome

  /** The pass of `plugin_reload` for a given target, flag and importer. */
  function ReloadStep(target: Option<string>, all: bool, importer: Importer): Step
  {
    (cached, d) => LoadOne(cached, d, target, all, importer)
  }

  /** A step reports each failure as one diagnostic line and records only
      complete metadata, under the name it declares. */
  ghost predicate Sound(step: Step)
  {
    forall cached, d ::
      && (step(cached, d).Failed? ==> IsLine(step(cached, d).line))
      && (step(cached, d).Loaded? ==>
            RequiredKeys <= step(cached, d).entry.info.Keys &&
            step(cached, d).entry.name == step(cached, d).entry.info["name"])
  }

  lemma ReloadStepSound(target: Option<string>, all: bool, importer: Importer)
    ensures Sound(ReloadStep(target, all, importer))
  {
    forall cached, d ensures
      var o := ReloadStep(target, all, importer)(cached, d);
      && (o.Failed? ==> IsLine(o.line))
      && (o.Loaded? ==> RequiredKeys <= o.entry.info.Keys && o.entry.name == o.entry.info["name"])
    {
      assert ReloadStep(target, all, importer)(cached, d) == LoadOne(cached, d, target, all, importer);
    }
  }

  /** The state of the loop in `plugin_reload`: the registry, the
      accumulated diagnostics `fail_rec`, and (for the proofs) the outcome
      of every descriptor so far. */
  datatype Batch = Batch(cached: map<string, Entry>, failRec: string, outcomes: seq<Outcome>)

  /** The loop of `plugin_reload` over the descriptors `ds`, from left to
      right. */
  function ReloadBatch(cached: map<string, Entry>, ds: seq<Descriptor>, step: Step): (b: Batch)
    ensures |b.outcomes| == |ds|
    decreases |ds|
  {
    if ds == [] then Batch(cached, "", [])
    else
      var b := ReloadBatch(cached, ds[..|ds| - 1], step);
      var o := step(b.cached, ds[|ds| - 1]);
      Batch(Apply(b.cached, o), b.failRec + LineOf(o), b.outcomes + [o])
  }

  /** One more descriptor: the batch over a longer prefix grows by that
      descriptor's outcome. */
  lemma ReloadBatchNext(cached: map<string, Entry>, ds: seq<Descriptor>, i: nat, step: Step)
    requires i < |ds|
    ensures var b := ReloadBatch(cached, ds[..i], step);
      var o := step(b.cached, ds[i]);
      ReloadBatch(cached, ds[..i + 1], step) == Batch(Apply(b.cached, o), b.failRec + LineOf(o), b.outcomes + [o])
  {
    assert ds[..i + 1][..i] == ds[..i];
  }

  /** No descriptor of the batch failed. */
  predicate NoFailures(outcomes: seq<Outcome>)
  {
    forall i :: 0 <= i < |outcomes| ==> !outcomes[i].Failed?
  }

  /** The accumulated diagnostics of a batch are empty or end a line. */
  lemma {:induction false} ReloadBatchFailRecShape(cached: map<string, Entry>, ds: seq<Descriptor>, step: Step)
    requires Sound(step)
    ensures var f := ReloadBatch(cached, ds, step).failRec; f == "" || IsLine(f)
  {
    if ds != [] {
      var b := ReloadBatch(cached, ds[..|ds| - 1], step);
      ReloadBatchFailRecShape(cached, ds[..|ds| - 1], step);
      var o := step(b.cached, ds[|ds| - 1]);
      if o.Failed? {
        assert IsLine(o.line);
      }
    }
  }

  /** The batch succeeds (no diagnostics) exactly when no descriptor failed. */
  lemma {:induction false} ReloadBatchSucceedsIff(cached: map<string, Entry>, ds: seq<Descriptor>, step: Step)
    requires Sound(step)
    ensures var b := ReloadBatch(cached, ds, step); b.failRec == "" <==> NoFailures(b.outcomes)
  {
    if ds != [] {
      var b := ReloadBatch(cached, ds[..|ds| - 1], step);
      ReloadBatchSucceedsIff(cached, ds[..|ds| - 1], step);
      var o := step(b.cached, ds[|ds| - 1]);
      var b' := ReloadBatch(cached, ds, step);
      assert b'.outcomes == b.outcomes + [o] && b'.failRec == b.failRec + LineOf(o);
      if o.Failed? {
        assert IsLine(o.line);
        assert b'.outcomes[|ds| - 1].Failed?;
      } else {
        assert forall i :: 0 <= i < |b.outcomes| ==> b'.outcomes[i] == b.outcomes[i];
        assert b'.outcomes[|ds| - 1] == o;
      }
    }
  }

  /** A batch never removes a record, and a record it changes or adds is one
      that some descriptor of the batch loaded. */
  lemma {:induction false} ReloadBatchFrame(cached: map<string, Entry>, ds: seq<Descriptor>, step: Step)
    ensures var b := ReloadBatch(cached, ds, step);
      && cached.Keys <= b.cached.Keys
      && forall k :: k in b.cached ==>
           (k in cached && b.cached[k] == cached[k]) || Loaded(b.cached[k]) in b.outcomes
  {
    if ds != [] {
      ReloadBatchFrame(cached, ds[..|ds| - 1], step);
    }
  }

  /** Every plugin loaded among `outcomes` has a record in `cached`. */
  predicate AllRegistered(outcomes: seq<Outcome>, cached: map<string, Entry>)
  {
    forall i :: 0 <= i < |outcomes| && outcomes[i].Loaded? ==> outcomes[i].entry.name in cached
  }

  /** Every plugin a batch loads is registered after the batch, under the
      name it declares (a later plugin declaring the same name may have
      replaced its record). */
  lemma {:induction false} ReloadBatchRecordsLoaded(cached: map<string, Entry>, ds: seq<Descriptor>, step: Step)
    ensures var b := ReloadBatch(cached, ds, step); AllRegistered(b.outcomes, b.cached)
  {
    if ds != [] {
      var b := ReloadBatch(cached, ds[..|ds| - 1], step);
      ReloadBatchRecordsLoaded(cached, ds[..|ds| - 1], step);
      assert AllRegistered(b.outcomes, b.cached);
      var o := step(b.cached, ds[|ds| - 1]);
      var b' := ReloadBatch(cached, ds, step);
      assert b'.outcomes == b.outcomes + [o] && b'.cached == Apply(b.cached, o);
      assert b.cached.Keys <= b'.cached.Keys;
      forall i | 0 <= i < |b'.outcomes| && b'.outcomes[i].Loaded?
        ensures b'.outcomes[i].entry.name in b'.cached
      {
        if i < |b.outcomes| {
          assert b'.outcomes[i] == b.outcomes[i];
          assert b.outcomes[i].entry.name in b.cached;
        } else {
          assert b'.outcomes[i] == o;
        }
      }
    }
  }

  /** A batch keeps the registry well formed: only validated metadata gets
      in, under the name it declares. */
  lemma {:induction false} ReloadBatchKeepsWellFormed(cached: map<string, Entry>, ds: seq<Descriptor>, step: Step)
    requires Sound(step) && WellFormed(cached)
    ensures WellFormed(ReloadBatch(cached, ds, step).cached)
  {
    if ds != [] {
      ReloadBatchKeepsWellFormed(cached, ds[..|ds| - 1], step);
    }
  }

  /** A batch in which every descriptor is skipped changes nothing and
      reports nothing. */
  lemma {:induction false} ReloadBatchAllSkipped(cached: map<string, Entry>, ds: seq<Descriptor>, step: Step)
    requires forall i :: 0 <= i < |ds| ==> step(cached, ds[i]) == Skipped
    ensures var b := ReloadBatch(cached, ds, step);
      b.cached == cached && b.failRec == "" && forall i :: 0 <= i < |ds| ==> b.outcomes[i] == Skipped
  {
    if ds != [] {
      var init := ds[..|ds| - 1];
      assert forall i :: 0 <= i < |init| ==> init[i] == ds[i];
      ReloadBatchAllSkipped(cached, init, step);
      assert step(cached, ds[|ds| - 1]) == Skipped;
    }
  }

  /** Without a matching target and without `all`, a reload whose modules
      are all registry keys changes nothing and reports nothing. */
  lemma ReloadBatchUnselectedIsNoOp(cached: map<string, Entry>, ds: seq<Descriptor>,
                                    target: Option<string>, importer: Importer)
    requires forall i :: 0 <= i < |ds| ==> ds[i].moduleName in cached && target != Some(ds[i].moduleName)
    ensures var b := ReloadBatch(cached, ds, ReloadStep(target, false, importer));
      b.cached == cached && b.failRec == ""
  {
    var step := ReloadStep(target, false, importer);
    forall i | 0 <= i < |ds| ensures step(cached, ds[i]) == Skipped {
      assert !Selected(cached, ds[i], target, false);
    }
    ReloadBatchAllSkipped(cached, ds, step);
  }

  /** The test that decides whether to reload compares the MODULE name with
      the registry's keys, which are DECLARED names: a plugin whose module is
      "main" is therefore reloaded by every batch (unless some plugin
      declares the name "main"), whatever the target and the flag say. */
  lemma MainModuleIsAlwaysSelected(cached: map<string, Entry>, d: Descriptor, target: Option<string>,
                                   all: bool, importer: Importer)
    requires d.moduleName == "main" && "main" !in cached
    ensures LoadOne(cached, d, target, all, importer) != Skipped
  {
  }

  // ---------------------------------------------------------------------
  // plugin_reload

  /** The registry `cached_plugins`, a dict the caller owns and the
      operations update in place. */
  class CachedPlugins {
    var entries: map<string, Entry>

    constructor ()
      ensures entries == map[]
    {
      entries := map[];
    }
  }

  /** The body of the `try` in `plugin_reload` for one selected descriptor:
      import, pick the entry class, instantiate it, call `info()` and check
      its result; a failure is the diagnostic line it appends. */
  method LoadPlugin(plugin: Descriptor, reloading: bool, importer: Importer) returns (r: Result<Attempt>)
    ensures r == TryLoad(plugin, reloading, importer)
  {
    var p := plugin.moduleName;
    var imported := importer(plugin, reloading);
    if imported.Err? {
      return Err(LoadFaultLine(p, imported.error));
    }
    var handle := imported.value;
    var cls := GetClasses(ClassNames(handle));
    if |cls| == 0 {
      // `cls[0]` raises IndexError, caught by the outer handler
      return Err(LoadFaultLine(p, IndexErrorText));
    }
    var obj := Construct(handle.classes, cls[0]);
    if obj.Err? {
      return Err(LoadFaultLine(p, obj.error));
    }
    var info := obj.value.info;
    if info.Err? {
      return Err(InfoFaultLine(p, info.error));
    }
    match info.value
    case NotContainer(e) =>
      // the `in` test raises TypeError, caught by the inner handler
      return Err(InfoFaultLine(p, e));
    case Container(ks) =>
      if !(RequiredKeys <= ks) {
        return Err(IncompleteLine(p));
      }
      // all four keys answer `in`, but the value is not a dict
      return Err(BadFormatLine(p));
    case Mapping(f) =>
      if !(RequiredKeys <= f.Keys) {
        return Err(IncompleteLine(p));
      }
      return Ok(Attempt(handle, obj.value, f));
  }

  /** One pass of the loop of `plugin_reload`: (re)load the descriptor if
      it is selected and record it on success; returns the diagnostic line
      appended to `fail_rec` ("" when none). */
  method ReloadOne(cached: CachedPlugins, plugin: Descriptor, target: Option<string>, all: bool,
                   importer: Importer) returns (line: string)
    modifies cached
    ensures var o := LoadOne(old(cached.entries), plugin, target, all, importer);
      cached.entries == Apply(old(cached.entries), o) && line == LineOf(o)
  {
    ghost var o := LoadOne(cached.entries, plugin, target, all, importer);
    var p := plugin.moduleName;
    var rootDirName := plugin.pname;
    line := "";
    if p !in cached.entries || target == Some(p) || all {
      var loaded := LoadPlugin(plugin, p in cached.entries, importer);
      match loaded
      case Err(l) =>
        line := l;
      case Ok(a) =>
        cached.entries := cached.entries[a.info["name"] := Entry(a.handle, a.instance, a.info, a.info["name"], rootDirName)];
    }
  }

  /** The loop of `plugin_reload` over the discovered descriptors; returns
      the accumulated diagnostics `fail_rec`. */
  method ReloadEach(cached: CachedPlugins, plugins: seq<Descriptor>, target: Option<string>, all: bool,
                    importer: Importer) returns (failRec: string)
    modifies cached
    ensures var b := ReloadBatch(old(cached.entries), plugins, ReloadStep(target, all, importer));
      cached.entries == b.cached && failRec == b.failRec
  {
    ghost var start := cached.entries;
    failRec := "";
    for i := 0 to |plugins|
      invariant cached.entries == ReloadBatch(start, plugins[..i], ReloadStep(target, all, importer)).cached
      invariant failRec == ReloadBatch(start, plugins[..i], ReloadStep(target, all, importer)).failRec
    {
      ReloadBatchNext(start, plugins, i, ReloadStep(target, all, importer));
      var line := ReloadOne(cached, plugins[i], target, all, importer);
      failRec := failRec + line;
    }
    assert plugins[..|plugins|] == plugins;
  }

  /** What `plugin_reload` leaves behind: the registry and the returned pair. */
  datatype Reloaded = Reloaded(cached: map<string, Entry>, ok: bool, err: Option<string>)

  /** `plugin_reload` as a function of the registry it starts from. */
  function ReloadResult(cached: map<string, Entry>, fs: FileSystem, store: Option<Path>,
                        target: Option<string>, all: bool, importer: Importer): (r: Reloaded)
    requires store.Some? ==> fs.IsDir(store.value)
    ensures r.ok <==> r.err.None?
    ensures store.None? ==> r.cached == cached && r.err == Some(NoPluginsText)
  {
    if store.None? then Reloaded(cached, false, Some(NoPluginsText))
    else
      var b := ReloadBatch(cached, Discovered(fs, store.value, fs.listing[store.value]),
                           ReloadStep(target, all, importer));
      Reloaded(b.cached, b.failRec == "", if b.failRec == "" then None else Some(b.failRec))
  }

  /** `plugin_reload` fails with the "no plugin modules" message exactly when
      no store is found; otherwise it succeeds, with no message, exactly when
      no discovered plugin failed to load (so an empty store succeeds), and
      on failure the message is the diagnostics, one line per failure. */
  lemma ReloadResultOutcome(cached: map<string, Entry>, fs: FileSystem, store: Option<Path>,
                            target: Option<string>, all: bool, importer: Importer)
    requires store.Some? ==> fs.IsDir(store.value)
    ensures var r := ReloadResult(cached, fs, store, target, all, importer);
      && (store.None? ==> r.err == Some(NoPluginsText) && r.cached == cached && !r.ok)
      && (r.err == Some(NoPluginsText) <==> store.None?)
      && (r.ok <==> r.err.None?)
      && (store.Some? ==>
            var ds := Discovered(fs, store.value, fs.listing[store.value]);
            var b := ReloadBatch(cached, ds, ReloadStep(target, all, importer));
            && (r.ok <==> NoFailures(b.outcomes))
            && (ds == [] ==> r.ok && r.cached == cached))
  {
    if store.Some? {
      var ds := Discovered(fs, store.value, fs.listing[store.value]);
      var b := ReloadBatch(cached, ds, ReloadStep(target, all, importer));
      ReloadStepSound(target, all, importer);
      ReloadBatchSucceedsIff(cached, ds, ReloadStep(target, all, importer));
      ReloadBatchFailRecShape(cached, ds, ReloadStep(target, all, importer));
      assert NoPluginsText[|NoPluginsText| - 1] != '\n';
      var r := ReloadResult(cached, fs, store, target, all, importer);
      assert r == Reloaded(b.cached, b.failRec == "", if b.failRec == "" then None else Some(b.failRec));

    }
  }

  /** `plugin_reload`. `store` is the plugin store `get_plugin_modules`
      finds (None when neither candidate path exists). */
  method PluginReload(cached: CachedPlugins, fs: FileSystem, store: Option<Path>,
                      target: Option<string>, all: bool, importer: Importer)
    returns (ok: bool, err: Option<string>)
    requires store.Some? ==> fs.IsDir(store.value)
    modifies cached
    ensures Reloaded(cached.entries, ok, err) == ReloadResult(old(cached.entries), fs, store, target, all, importer)
  {
    if store.None? {
      return false, Some(NoPluginsText);
    }
    var plugins := GetModules(fs, store.value);
    ghost var start := cached.entries;
    var failRec := ReloadEach(cached, plugins, target, all, importer);
    ghost var b := ReloadBatch(start, plugins, ReloadStep(target, all, importer));
    assert ReloadResult(start, fs, store, target, all, importer)
        == Reloaded(b.cached, b.failRec == "", if b.failRec == "" then None else Some(b.failRec));
    if failRec == "" {
      return true, None;
    } else {
      return false, Some(failRec);
    }
  }
}
