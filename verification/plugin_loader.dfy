/**
 * The plugin registry: an insertion-ordered map from plugin name to plugin
 * instance, the filtered views that fix the order in which plugins run, and
 * the search-path rule that decides where a plugin is loaded from. Importing
 * the module and finding its plugin class are abstracted as a partial
 * function from (directory, name) to a plugin instance.
 */
module PluginRegistry {
  import opened Common
  import opened Plugins

  type Path = string

  /** The file system as the loader sees it: whether a path exists, and the
      stems of the `*.py` entries of a directory in listing order. */
  datatype FileSystem = FileSystem(present: Path -> bool, pyStems: Path -> seq<string>)

  /** `<dir>/<name>.py` exists. */
  predicate HasPluginFile(fs: FileSystem, dir: Path, name: string)
  {
    fs.present(dir) && name in fs.pyStems(dir)
  }

  predicate StartsWithUnderscore(name: string)
  {
    |name| > 0 && name[0] == '_'
  }

  /** `discover_plugins`: the stems not starting with `_` of every search path
      that exists, path by path. */
  function DiscoverPlugins(fs: FileSystem, searchPaths: seq<Path>): (names: seq<string>)
    ensures forall n :: n in names ==> !StartsWithUnderscore(n)
    ensures forall n :: n in names ==> exists dir :: dir in searchPaths && HasPluginFile(fs, dir, n)
    ensures forall dir, n :: dir in searchPaths && HasPluginFile(fs, dir, n) && !StartsWithUnderscore(n) ==> n in names
  {
    if searchPaths == [] then []
    else
      var dir := searchPaths[0];
      var rest := DiscoverPlugins(fs, searchPaths[1..]);
      var here := if fs.present(dir) then Visible(fs.pyStems(dir)) else [];
      assert forall n :: n in rest ==> exists d :: d in searchPaths && HasPluginFile(fs, d, n) by {
        forall n | n in rest
          ensures exists d :: d in searchPaths && HasPluginFile(fs, d, n)
        {
          var d :| d in searchPaths[1..] && HasPluginFile(fs, d, n);
          assert d in searchPaths;
        }
      }
      assert forall n :: n in here ==> HasPluginFile(fs, dir, n);
      here + rest
  }

  /** The stems that do not start with `_`, in order. */
  function Visible(stems: seq<string>): (names: seq<string>)
    ensures forall n :: n in names <==> n in stems && !StartsWithUnderscore(n)
  {
    if stems == [] then []
    else (if StartsWithUnderscore(stems[0]) then [] else [stems[0]]) + Visible(stems[1..])
  }

  /** The position of the first search path holding `<name>.py`, if any. */
  function FirstPathWith(fs: FileSystem, searchPaths: seq<Path>, name: string): (r: Option<nat>)
    ensures r.Some? ==> r.value < |searchPaths|
  {
    if searchPaths == [] then None
    else if HasPluginFile(fs, searchPaths[0], name) then Some(0)
    else match FirstPathWith(fs, searchPaths[1..], name)
      case None => None
      case Some(k) => Some(k + 1)
  }

  /** `FirstPathWith` picks the earliest path that has the file, and reports
      none exactly when no path has it. */
  lemma {:induction false} FirstPathWithIsFirst(fs: FileSystem, searchPaths: seq<Path>, name: string, k: nat)
    ensures FirstPathWith(fs, searchPaths, name) == Some(k) <==>
              k < |searchPaths| && HasPluginFile(fs, searchPaths[k], name) &&
              forall j :: 0 <= j < k ==> !HasPluginFile(fs, searchPaths[j], name)
    ensures FirstPathWith(fs, searchPaths, name).None? <==>
              forall j :: 0 <= j < |searchPaths| ==> !HasPluginFile(fs, searchPaths[j], name)
    decreases |searchPaths|
  {
    if searchPaths != [] {
      FirstPathWithIsFirst(fs, searchPaths[1..], name, if k > 0 then k - 1 else 0);
      assert forall j :: 1 <= j < |searchPaths| ==> searchPaths[1..][j - 1] == searchPaths[j];
      if FirstPathWith(fs, searchPaths, name).None? {
        forall j | 0 <= j < |searchPaths|
          ensures !HasPluginFile(fs, searchPaths[j], name)
        {
          if j > 0 { assert searchPaths[1..][j - 1] == searchPaths[j]; }
        }
      }
    }
  }

  /** One registry entry: the name a plugin was loaded under and its instance. */
  datatype Entry = Entry(name: string, plugin: Plugin)

  function Names(entries: seq<Entry>): seq<string>
  {
    seq(|entries|, i requires 0 <= i < |entries| => entries[i].name)
  }

  /** A dictionary holds each key once. */
  ghost predicate UniqueNames(entries: seq<Entry>)
  {
    forall i, j :: 0 <= i < j < |entries| ==> entries[i].name != entries[j].name
  }

  /** `loaded_plugins.get(name)`. */
  function Lookup(entries: seq<Entry>, name: string): Option<Plugin>
  {
    if entries == [] then None
    else if entries[0].name == name then Some(entries[0].plugin)
    else Lookup(entries[1..], name)
  }

  /** `loaded_plugins[name] = plugin`: a known key keeps its position and gets
      the new value, a new key goes last. */
  function Put(entries: seq<Entry>, name: string, plugin: Plugin): seq<Entry>
  {
    if entries == [] then [Entry(name, plugin)]
    else if entries[0].name == name then [Entry(name, plugin)] + entries[1..]
    else [entries[0]] + Put(entries[1..], name, plugin)
  }

  /** `del loaded_plugins[name]`. */
  function Delete(entries: seq<Entry>, name: string): seq<Entry>
  {
    if entries == [] then []
    else if entries[0].name == name then entries[1..]
    else [entries[0]] + Delete(entries[1..], name)
  }

  /** After `Put`, the key maps to the new plugin and every other key is untouched. */
  lemma {:induction false} PutLookup(entries: seq<Entry>, name: string, plugin: Plugin, other: string)
    ensures Lookup(Put(entries, name, plugin), other) == if other == name then Some(plugin) else Lookup(entries, other)
  {
    if entries != [] && entries[0].name != name {
      PutLookup(entries[1..], name, plugin, other);
    }
  }

  /** `Put` keeps the insertion order: a known key stays where it was, a new
      key is appended. */
  lemma {:induction false} PutNames(entries: seq<Entry>, name: string, plugin: Plugin)
    ensures Names(Put(entries, name, plugin)) == if name in Names(entries) then Names(entries) else Names(entries) + [name]
  {
    if entries != [] {
      assert Names(entries) == [entries[0].name] + Names(entries[1..]);
      if entries[0].name != name {
        PutNames(entries[1..], name, plugin);
        assert Names(Put(entries, name, plugin)) == [entries[0].name] + Names(Put(entries[1..], name, plugin));
      } else {
        assert Names(Put(entries, name, plugin)) == [name] + Names(entries[1..]);
      }
    }
  }

  /** `Put` keeps every key unique. */
  lemma PutKeepsUnique(entries: seq<Entry>, name: string, plugin: Plugin)
    requires UniqueNames(entries)
    ensures UniqueNames(Put(entries, name, plugin))
  {
    PutNames(entries, name, plugin);
    var after := Put(entries, name, plugin);
    forall i, j | 0 <= i < j < |after|
      ensures after[i].name != after[j].name
    {
      assert after[i].name == Names(after)[i] && after[j].name == Names(after)[j];
      if j < |entries| {
        assert Names(entries)[i] == entries[i].name && Names(entries)[j] == entries[j].name;
      } else {
        assert Names(entries)[i] == entries[i].name;
      }
    }
  }

  /** After `Delete`, the key is gone and every other key is untouched. */
  lemma {:induction false} DeleteLookup(entries: seq<Entry>, name: string, other: string)
    requires UniqueNames(entries)
    ensures Lookup(Delete(entries, name), other) == if other == name then None else Lookup(entries, other)
  {
    if entries != [] {
      if entries[0].name == name {
        if other == name {
          LookupAbsent(entries[1..], name);
        }
      } else {
        DeleteLookup(entries[1..], name, other);
      }
    }
  }

  lemma {:induction false} LookupAbsent(entries: seq<Entry>, name: string)
    requires forall i :: 0 <= i < |entries| ==> entries[i].name != name
    ensures Lookup(entries, name) == None
  {
    if entries != [] {
      LookupAbsent(entries[1..], name);
    }
  }

  /** What one entry contributes to the text-processor view. */
  function TextProcessorOf(e: Entry): seq<TextProcessorPlugin>
  {
    if e.plugin.processor.Some? then [e.plugin.processor.value] else []
  }

  /** What one entry contributes to the command view. */
  function CommandOf(e: Entry): seq<CommandPlugin>
  {
    if e.plugin.command.Some? then [e.plugin.command.value] else []
  }

  /** `get_text_processors`: the text processors among the loaded plugins, in registry order. */
  function TextProcessors(entries: seq<Entry>): seq<TextProcessorPlugin>
  {
    if entries == [] then [] else TextProcessorOf(entries[0]) + TextProcessors(entries[1..])
  }

  /** `get_command_plugins`: the command plugins among the loaded plugins, in registry order. */
  function CommandPlugins(entries: seq<Entry>): seq<CommandPlugin>
  {
    if entries == [] then [] else CommandOf(entries[0]) + CommandPlugins(entries[1..])
  }

  /** The text-processor view follows registry order: the view of a
      concatenation is the concatenation of the views, so the view is every
      entry's contribution (its processor when it has one, nothing otherwise)
      in order. */
  lemma {:induction false} TextProcessorsAppend(first: seq<Entry>, second: seq<Entry>)
    ensures TextProcessors(first + second) == TextProcessors(first) + TextProcessors(second)
    decreases |first|
  {
    if first == [] {
      assert first + second == second;
    } else {
      assert (first + second)[0] == first[0];
      assert (first + second)[1..] == first[1..] + second;
      TextProcessorsAppend(first[1..], second);
    }
  }

  /** The command view follows registry order in the same way. */
  lemma {:induction false} CommandPluginsAppend(first: seq<Entry>, second: seq<Entry>)
    ensures CommandPlugins(first + second) == CommandPlugins(first) + CommandPlugins(second)
    decreases |first|
  {
    if first == [] {
      assert first + second == second;
    } else {
      assert (first + second)[0] == first[0];
      assert (first + second)[1..] == first[1..] + second;
      CommandPluginsAppend(first[1..], second);
    }
  }

  /** Loading a plugin under a new name makes it run after every plugin loaded
      before it, in each view whose interface it implements: a plugin with both
      is last in both, and a plugin with neither appears in no view. */
  lemma LoadedLastRunsLast(entries: seq<Entry>, name: string, plugin: Plugin)
    requires name !in Names(entries)
    ensures TextProcessors(Put(entries, name, plugin)) ==
              TextProcessors(entries) + (if plugin.processor.Some? then [plugin.processor.value] else [])
    ensures CommandPlugins(Put(entries, name, plugin)) ==
              CommandPlugins(entries) + (if plugin.command.Some? then [plugin.command.value] else [])
    ensures plugin.processor.None? && plugin.command.None? ==>
              TextProcessors(Put(entries, name, plugin)) == TextProcessors(entries) &&
              CommandPlugins(Put(entries, name, plugin)) == CommandPlugins(entries)
  {
    PutAbsent(entries, name, plugin);
    TextProcessorsAppend(entries, [Entry(name, plugin)]);
    CommandPluginsAppend(entries, [Entry(name, plugin)]);
    assert [Entry(name, plugin)][1..] == [];
  }

  /** A plugin implementing both interfaces is in both views: its command is
      offered the transcript first, and when it does not handle it, its
      processor rewrites it. */
  lemma BothInterfacesPipeline(name: string, plugin: Plugin, text: string)
    requires plugin.processor.Some? && plugin.command.Some?
    ensures ProcessThroughPlugins(CommandPlugins(Put([], name, plugin)), TextProcessors(Put([], name, plugin)), text) ==
              if Handles(plugin.command.value, text) then "" else plugin.processor.value.process(text)
  {
    LoadedLastRunsLast([], name, plugin);
    var commands, processors := [plugin.command.value], [plugin.processor.value];
    assert CommandPlugins(Put([], name, plugin)) == commands;
    assert TextProcessors(Put([], name, plugin)) == processors;
    assert commands[1..] == [] && processors[1..] == [];
    assert FirstHandler(commands[1..], text) == None;
    assert FirstHandler(commands, text).Some? <==> Handles(plugin.command.value, text);
    assert ApplyProcessors(processors, text) == plugin.processor.value.process(text);
  }

  lemma {:induction false} PutAbsent(entries: seq<Entry>, name: string, plugin: Plugin)
    requires name !in Names(entries)
    ensures Put(entries, name, plugin) == entries + [Entry(name, plugin)]
  {
    if entries != [] {
      assert entries[0].name == Names(entries)[0];
      assert Names(entries[1..]) == Names(entries)[1..];
      PutAbsent(entries[1..], name, plugin);
      assert entries == [entries[0]] + entries[1..];
    }
  }

  /** What went wrong in a load or an unload. */
  datatype LoadError = PluginNotFound | ImportFailed | NoPluginClass | InitializeFailed

  /** What `importlib.import_module` makes of a plugin file: the import raises,
      or the module loads and its first plugin class, if any, is instantiated. */
  datatype ModuleImport = ImportRaises | Imported(pluginClass: Option<Plugin>)
  datatype UnloadError = ShutdownFailed(name: string)

  /** The index of the first entry whose `shutdown` raises, or the length when none does. */
  function FirstRaising(entries: seq<Entry>): (k: nat)
    ensures k <= |entries|
    ensures forall j :: 0 <= j < k ==> !entries[j].plugin.shutdownRaises
    ensures k < |entries| ==> entries[k].plugin.shutdownRaises
  {
    if entries == [] then 0
    else if entries[0].plugin.shutdownRaises then 0
    else FirstRaising(entries[1..]) + 1
  }

  class PluginLoader {
    /** The directories searched, in order. */
    const searchPaths: seq<Path>
    /** `loaded_plugins`, in insertion order. */
    var loaded: seq<Entry>
    /** The names whose plugin's `shutdown` was called, in call order. */
    var shutdownCalls: seq<string>

    ghost predicate Valid()
      reads this
    {
      UniqueNames(loaded)
    }

    constructor (searchPaths: seq<Path>)
      ensures Valid() && this.searchPaths == searchPaths && loaded == [] && shutdownCalls == []
    {
      this.searchPaths := searchPaths;
      loaded := [];
      shutdownCalls := [];
    }

    /** Loads `name` from the first search path holding `<name>.py`; the
        registry changes only when the class is found and initialises. */
    method LoadPlugin(name: string, fs: FileSystem, importModule: (Path, string) -> ModuleImport) returns (res: Outcome<LoadError>)
      requires Valid()
      modifies this
      ensures Valid() && shutdownCalls == old(shutdownCalls)
      ensures FirstPathWith(fs, searchPaths, name).None? ==> res == Fail(PluginNotFound) && loaded == old(loaded)
      ensures FirstPathWith(fs, searchPaths, name).Some? ==>
                var dir := searchPaths[FirstPathWith(fs, searchPaths, name).value];
                match importModule(dir, name)
                case ImportRaises => res == Fail(ImportFailed) && loaded == old(loaded)
                case Imported(None) => res == Fail(NoPluginClass) && loaded == old(loaded)
                case Imported(Some(p)) =>
                  if p.initializeRaises then res == Fail(InitializeFailed) && loaded == old(loaded)
                  else res == Pass && loaded == Put(old(loaded), name, p)
    {
      var k := 0;
      while k < |searchPaths| && !HasPluginFile(fs, searchPaths[k], name)
        invariant 0 <= k <= |searchPaths|
        invariant forall j :: 0 <= j < k ==> !HasPluginFile(fs, searchPaths[j], name)
      {
        k := k + 1;
      }
      FirstPathWithIsFirst(fs, searchPaths, name, k);
      if k == |searchPaths| {
        return Fail(PluginNotFound);
      }
      var imported := importModule(searchPaths[k], name);
      if imported.ImportRaises? {
        return Fail(ImportFailed);
      }
      var pluginClass := imported.pluginClass;
      if pluginClass.None? {
        return Fail(NoPluginClass);
      }
      var plugin := pluginClass.value;
      if plugin.initializeRaises {
        return Fail(InitializeFailed);
      }
      PutKeepsUnique(loaded, name, plugin);
      loaded := Put(loaded, name, plugin);
      res := Pass;
    }

    /** Unloads `name`: nothing when it is unknown; otherwise its `shutdown`
        is called once and, unless that raises, only its entry goes. */
    method UnloadPlugin(name: string) returns (res: Outcome<UnloadError>)
      requires Valid()
      modifies this
      ensures Valid()
      ensures Lookup(old(loaded), name).None? ==>
                res == Pass && loaded == old(loaded) && shutdownCalls == old(shutdownCalls)
      ensures Lookup(old(loaded), name).Some? ==>
                shutdownCalls == old(shutdownCalls) + [name] &&
                if Lookup(old(loaded), name).value.shutdownRaises
                then res == Fail(ShutdownFailed(name)) && loaded == old(loaded)
                else res == Pass && loaded == Delete(old(loaded), name)
    {
      var found := Lookup(loaded, name);
      if found.None? {
        return Pass;
      }
      shutdownCalls := shutdownCalls + [name];
      if found.value.shutdownRaises {
        return Fail(ShutdownFailed(name));
      }
      DeleteKeepsUnique(loaded, name);
      loaded := Delete(loaded, name);
      res := Pass;
    }

    /** Unloads every plugin in registry order; the first `shutdown` that
        raises stops the sweep with that plugin and the later ones still loaded. */
    method UnloadAll() returns (res: Outcome<UnloadError>)
      requires Valid()
      modifies this
      ensures Valid()
      ensures var k := FirstRaising(old(loaded));
              loaded == old(loaded)[k..] &&
              shutdownCalls == old(shutdownCalls) + Names(old(loaded))[..if k < |old(loaded)| then k + 1 else k] &&
              (res == Pass <==> k == |old(loaded)|)
    {
      var names := Names(loaded);
      ghost var all := loaded;
      var i := 0;
      while i < |names|
        invariant 0 <= i <= |names| == |all|
        invariant i <= FirstRaising(all)
        invariant loaded == all[i..] && Valid()
        invariant shutdownCalls == old(shutdownCalls) + names[..i]
      {
        assert loaded[0].name == names[i];
        res := UnloadPlugin(names[i]);
        if res.Fail? {
          assert names[..i + 1] == names[..i] + [names[i]];
          return;
        }
        DeleteFront(all[i..]);
        assert all[i..][1..] == all[i + 1..];
        assert names[..i + 1] == names[..i] + [names[i]];
        i := i + 1;
      }
      res := Pass;
    }
  }

  lemma {:induction false} DeleteKeepsUnique(entries: seq<Entry>, name: string)
    requires UniqueNames(entries)
    ensures UniqueNames(Delete(entries, name))
    ensures forall i :: 0 <= i < |Delete(entries, name)| ==> Delete(entries, name)[i] in entries
  {
    if entries != [] && entries[0].name != name {
      DeleteKeepsUnique(entries[1..], name);
      var rest := Delete(entries[1..], name);
      forall i | 0 <= i < |rest|
        ensures rest[i].name != entries[0].name
      {
        var j :| 0 <= j < |entries[1..]| && entries[1..][j] == rest[i];
        assert entries[j + 1] == rest[i];
      }
    }
  }

  /** Deleting the first key of a dictionary leaves the rest in order. */
  lemma DeleteFront(entries: seq<Entry>)
    requires entries != [] && UniqueNames(entries)
    ensures Delete(entries, entries[0].name) == entries[1..]
    ensures Lookup(entries, entries[0].name) == Some(entries[0].plugin)
  {
  }
}
