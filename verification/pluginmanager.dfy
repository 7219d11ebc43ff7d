/**
 The plugin manager: a registry of plugin factories by name, the selection of
 which plugins to instantiate, and the caches of what was loaded. Reading
 plugin directories and configuration files is outside the model; a factory
 is represented by what calling it yields.
 */
module PluginManager {
  import opened Options
  import OrderedMap

  type PluginName = string

  /** A handle on a constructed plugin object. */
  type InstanceRef = nat

  /** A plugin's parsed configuration, kept opaque. */
  type Config = string

  /**
   The arguments a factory passes to its callback: an error, the new instance
   (absent when the plugin's module or class could not be found), the plugin's
   configuration and the path of its configuration file.
   */
  datatype FactoryResult = FactoryResult(error: Option<string>, instance: Option<InstanceRef>, config: Config, filepath: string)

  /** One successfully instantiated plugin. */
  datatype LoadedPlugin = LoadedPlugin(instance: Option<InstanceRef>, name: PluginName, config: Config, filepath: string)

  datatype Manager = Manager(
    plugins: OrderedMap.OrderedMap<PluginName, FactoryResult>,
    cachedInstances: OrderedMap.OrderedMap<PluginName, Option<InstanceRef>>,
    cachedConfigs: OrderedMap.OrderedMap<PluginName, Config>,
    cachedConfigFilepaths: OrderedMap.OrderedMap<PluginName, string>)

  /** `Name`: one plugin name or several. */
  datatype NameOption = OneName(name: string) | ManyNames(names: seq<string>)

  /**
   `PluginLoadOptions`; the two callbacks are represented by whether they are
   given, and their calls are reported as `Callback` values. An absent options
   object is `LoadOptions(None, None, false, false)`.
   */
  datatype LoadOptions = LoadOptions(name: Option<NameOption>, multi: Option<bool>, hasOnError: bool, hasOnComplete: bool)

  /** A call of `OnError` or `OnComplete`, in the order they happen. */
  datatype Callback =
    | OnError(message: string, plugin: Option<PluginName>)
    | OnComplete(instances: seq<Option<InstanceRef>>, configs: seq<Config>, names: seq<PluginName>)

  const NoPluginsLoadedText: string := "No plugins were loaded."

  function NewManager(): (m: Manager)
    ensures m.plugins == [] && m.cachedInstances == [] && m.cachedConfigs == [] && m.cachedConfigFilepaths == []
    ensures WellFormed(m)
  {
    Manager([], [], [], [])
  }

  /** `RegisterPlugin`: a new name is appended; an existing name gets the new factory in place. */
  function RegisterPlugin(m: Manager, name: PluginName, factory: FactoryResult): (r: Manager)
    ensures r == m.(plugins := OrderedMap.Set(m.plugins, name, factory))
    ensures OrderedMap.Get(r.plugins, name) == Some(factory)
  {
    OrderedMap.GetAfterSet(m.plugins, name, factory, name);
    m.(plugins := OrderedMap.Set(m.plugins, name, factory))
  }

  /** `Multi` defaults to true. */
  function Multi(options: LoadOptions): (b: bool)
    ensures options.multi.None? ==> b
    ensures options.multi.Some? ==> b == options.multi.value
  {
    options.multi.GetOr(true)
  }

  /**
   The names to try: the requested ones when `Name` is truthy (a non-empty
   string, or any array, even an empty one), otherwise every registered name
   in registration order.
   */
  function RequestedNames(m: Manager, options: LoadOptions): (names: seq<PluginName>)
    ensures options.name.Some? && options.name.value.OneName? && options.name.value.name != "" ==> names == [options.name.value.name]
    ensures options.name.Some? && options.name.value.ManyNames? ==> names == options.name.value.names
    ensures options.name.None? || options.name == Some(OneName("")) ==> names == OrderedMap.Keys(m.plugins)
  {
    match options.name
    case Some(OneName(n)) => if n != "" then [n] else OrderedMap.Keys(m.plugins)
    case Some(ManyNames(ns)) => ns
    case None => OrderedMap.Keys(m.plugins)
  }

  /** `InstantiatePlugin`: the loaded plugin, or nothing, and the `OnError` calls it made. */
  function InstantiatePlugin(m: Manager, name: PluginName, hasOnError: bool): (r: (Option<LoadedPlugin>, seq<Callback>))
    ensures !OrderedMap.Has(m.plugins, name) ==> r == (None, [])
    ensures OrderedMap.Has(m.plugins, name) ==>
      var f := OrderedMap.Get(m.plugins, name).value;
      if f.error.Some? && hasOnError then r == (None, [OnError(f.error.value, Some(name))])
      else r == (Some(LoadedPlugin(f.instance, name, f.config, f.filepath)), [])
  {
    match OrderedMap.Get(m.plugins, name)
    case None => (None, [])
    case Some(f) =>
      if f.error.Some? && hasOnError then (None, [OnError(f.error.value, Some(name))])
      else (Some(LoadedPlugin(f.instance, name, f.config, f.filepath)), [])
  }

  /** A name that `InstantiatePlugin` turns into a loaded plugin. */
  predicate Loadable(m: Manager, name: PluginName, hasOnError: bool) {
    OrderedMap.Has(m.plugins, name) && !(OrderedMap.Get(m.plugins, name).value.error.Some? && hasOnError)
  }

  /** The loadable names among `names`, in order. */
  function LoadableNames(m: Manager, names: seq<PluginName>, hasOnError: bool): seq<PluginName>
  {
    if |names| == 0 then []
    else (if Loadable(m, names[0], hasOnError) then [names[0]] else []) + LoadableNames(m, names[1..], hasOnError)
  }

  function NamesOf(loaded: seq<LoadedPlugin>): (r: seq<PluginName>)
    ensures |r| == |loaded| && forall i :: 0 <= i < |loaded| ==> r[i] == loaded[i].name
  {
    seq(|loaded|, i requires 0 <= i < |loaded| => loaded[i].name)
  }

  /**
   `InstantiateMultiplePlugins`: try the names in order, keep what loads, and
   with `multi` false stop after the first plugin that loads.
   */
  function InstantiateMultiplePlugins(m: Manager, names: seq<PluginName>, multi: bool, hasOnError: bool): (r: (seq<LoadedPlugin>, seq<Callback>))
  {
    if |names| == 0 then ([], [])
    else
      var (first, errors) := InstantiatePlugin(m, names[0], hasOnError);
      if first.Some? && !multi then ([first.value], errors)
      else
        var (rest, moreErrors) := InstantiateMultiplePlugins(m, names[1..], multi, hasOnError);
        ((if first.Some? then [first.value] else []) + rest, errors + moreErrors)
  }

  /** One step of `InstantiateMultiplePlugins`: a loadable first name comes first, and only `multi` goes on. */
  lemma InstantiateStep(m: Manager, names: seq<PluginName>, multi: bool, hasOnError: bool)
    requires |names| > 0
    ensures var loaded := InstantiateMultiplePlugins(m, names, multi, hasOnError).0;
      var rest := InstantiateMultiplePlugins(m, names[1..], multi, hasOnError).0;
      if Loadable(m, names[0], hasOnError)
      then |loaded| > 0 && loaded[0].name == names[0] && loaded[1..] == (if multi then rest else [])
      else loaded == rest
  {
  }

  lemma NamesOfCons(loaded: seq<LoadedPlugin>)
    requires |loaded| > 0
    ensures NamesOf(loaded) == [loaded[0].name] + NamesOf(loaded[1..])
  {
  }

  /**
   Which plugins get loaded: with `multi`, exactly the loadable names in the
   order requested; without it, only the first of them.
   */
  lemma {:induction false} InstantiateSelectsLoadable(m: Manager, names: seq<PluginName>, multi: bool, hasOnError: bool)
    ensures var loaded := InstantiateMultiplePlugins(m, names, multi, hasOnError).0;
      var expected := LoadableNames(m, names, hasOnError);
      NamesOf(loaded) == if multi || |expected| == 0 then expected else expected[..1]
    decreases |names|
  {
    if |names| > 0 {
      var loaded := InstantiateMultiplePlugins(m, names, multi, hasOnError).0;
      var rest := InstantiateMultiplePlugins(m, names[1..], multi, hasOnError).0;
      var expected := LoadableNames(m, names, hasOnError);
      var expectedRest := LoadableNames(m, names[1..], hasOnError);
      InstantiateSelectsLoadable(m, names[1..], multi, hasOnError);
      InstantiateStep(m, names, multi, hasOnError);
      if Loadable(m, names[0], hasOnError) {
        assert expected == [names[0]] + expectedRest;
        NamesOfCons(loaded);
        if multi {
          assert NamesOf(loaded) == [names[0]] + NamesOf(rest);
        } else {
          assert NamesOf(loaded) == [names[0]];
          assert expected[..1] == [names[0]];
        }
      } else {
        assert expected == expectedRest;
      }
    }
  }

  /** Every loaded plugin is one of the names tried, is registered, and carries its factory's results. */
  lemma {:induction false} LoadedComeFromFactories(m: Manager, names: seq<PluginName>, multi: bool, hasOnError: bool)
    ensures forall p :: p in InstantiateMultiplePlugins(m, names, multi, hasOnError).0 ==>
      && p.name in names
      && OrderedMap.Has(m.plugins, p.name)
      && var f := OrderedMap.Get(m.plugins, p.name).value;
         p == LoadedPlugin(f.instance, p.name, f.config, f.filepath)
    ensures !multi ==> |InstantiateMultiplePlugins(m, names, multi, hasOnError).0| <= 1
    decreases |names|
  {
    if |names| > 0 {
      LoadedComeFromFactories(m, names[1..], multi, hasOnError);
    }
  }

  /** The last loaded plugin with a given name, if any. */
  function LastNamed(loaded: seq<LoadedPlugin>, name: PluginName): (r: Option<LoadedPlugin>)
    ensures r.Some? ==> r.value in loaded && r.value.name == name
    ensures r.None? <==> forall i :: 0 <= i < |loaded| ==> loaded[i].name != name
  {
    if |loaded| == 0 then None
    else match LastNamed(loaded[1..], name)
      case Some(p) => Some(p)
      case None => if loaded[0].name == name then Some(loaded[0]) else None
  }

  /** Write each loaded plugin's `field` into `cache` under its name, in load order. */
  function CacheAll<V>(cache: OrderedMap.OrderedMap<PluginName, V>, loaded: seq<LoadedPlugin>, field: LoadedPlugin -> V): OrderedMap.OrderedMap<PluginName, V>
    decreases |loaded|
  {
    if |loaded| == 0 then cache
    else CacheAll(OrderedMap.Set(cache, loaded[0].name, field(loaded[0])), loaded[1..], field)
  }

  /** Caching never duplicates a name. */
  lemma {:induction false} CacheAllKeepsKeysDistinct<V>(cache: OrderedMap.OrderedMap<PluginName, V>, loaded: seq<LoadedPlugin>, field: LoadedPlugin -> V)
    requires OrderedMap.DistinctKeys(cache)
    ensures OrderedMap.DistinctKeys(CacheAll(cache, loaded, field))
    decreases |loaded|
  {
    if |loaded| > 0 {
      OrderedMap.SetKeepsKeysDistinct(cache, loaded[0].name, field(loaded[0]));
      CacheAllKeepsKeysDistinct(OrderedMap.Set(cache, loaded[0].name, field(loaded[0])), loaded[1..], field);
    }
  }

  /** After caching, a name reads as its last loaded plugin, and names not loaded read as before. */
  lemma {:induction false} CacheAllGet<V>(cache: OrderedMap.OrderedMap<PluginName, V>, loaded: seq<LoadedPlugin>, field: LoadedPlugin -> V, name: PluginName)
    ensures OrderedMap.Get(CacheAll(cache, loaded, field), name) ==
      match LastNamed(loaded, name)
      case Some(p) => Some(field(p))
      case None => OrderedMap.Get(cache, name)
    decreases |loaded|
  {
    if |loaded| > 0 {
      var next := OrderedMap.Set(cache, loaded[0].name, field(loaded[0]));
      CacheAllGet(next, loaded[1..], field, name);
      OrderedMap.GetAfterSet(cache, loaded[0].name, field(loaded[0]), name);
    }
  }

  lemma CacheAllGetEverywhere<V>(cache: OrderedMap.OrderedMap<PluginName, V>, loaded: seq<LoadedPlugin>, field: LoadedPlugin -> V)
    ensures forall name :: (OrderedMap.Get(CacheAll(cache, loaded, field), name) ==
      match LastNamed(loaded, name)
      case Some(p) => Some(field(p))
      case None => OrderedMap.Get(cache, name))
  {
    forall name ensures OrderedMap.Get(CacheAll(cache, loaded, field), name) ==
      match LastNamed(loaded, name)
      case Some(p) => Some(field(p))
      case None => OrderedMap.Get(cache, name)
    {
      CacheAllGet(cache, loaded, field, name);
    }
  }

  function InstanceOf(p: LoadedPlugin): Option<InstanceRef> { p.instance }
  function ConfigOf(p: LoadedPlugin): Config { p.config }
  function FilepathOf(p: LoadedPlugin): string { p.filepath }

  /** The `OnComplete` call: parallel instance, config and name lists in load order. */
  function CompletionCall(loaded: seq<LoadedPlugin>): (c: Callback)
    ensures c.OnComplete?
    ensures |c.instances| == |c.configs| == |c.names| == |loaded|
    ensures c.names == NamesOf(loaded)
    ensures forall i :: 0 <= i < |loaded| ==> c.instances[i] == loaded[i].instance && c.configs[i] == loaded[i].config
  {
    OnComplete(seq(|loaded|, i requires 0 <= i < |loaded| => loaded[i].instance),
               seq(|loaded|, i requires 0 <= i < |loaded| => loaded[i].config),
               NamesOf(loaded))
  }

  /** The callbacks of the `complete` step: "No plugins were loaded." when nothing loaded, then completion. */
  function Completion(loaded: seq<LoadedPlugin>, options: LoadOptions): (r: seq<Callback>)
    ensures OnError(NoPluginsLoadedText, None) in r <==> options.hasOnError && loaded == []
    ensures forall c :: c in r && c.OnError? ==> c.plugin.None?
    ensures options.hasOnComplete ==> |r| > 0 && r[|r| - 1] == CompletionCall(loaded)
    ensures !options.hasOnComplete ==> forall c :: c in r ==> c.OnError?
  {
    var error := if |loaded| == 0 && options.hasOnError then [OnError(NoPluginsLoadedText, None)] else [];
    var done := if options.hasOnComplete then [CompletionCall(loaded)] else [];
    error + done
  }

  /** The `complete` step: cache every loaded plugin by name, then make the completion callbacks. */
  function Complete(m: Manager, loaded: seq<LoadedPlugin>, options: LoadOptions): (r: (Manager, seq<Callback>))
    ensures r.0.plugins == m.plugins
    ensures r.0.cachedInstances == CacheAll(m.cachedInstances, loaded, InstanceOf)
    ensures r.0.cachedConfigs == CacheAll(m.cachedConfigs, loaded, ConfigOf)
    ensures r.0.cachedConfigFilepaths == CacheAll(m.cachedConfigFilepaths, loaded, FilepathOf)
    ensures r.1 == Completion(loaded, options)
  {
    var cached := Manager(
      m.plugins,
      CacheAll(m.cachedInstances, loaded, InstanceOf),
      CacheAll(m.cachedConfigs, loaded, ConfigOf),
      CacheAll(m.cachedConfigFilepaths, loaded, FilepathOf));
    (cached, Completion(loaded, options))
  }

  /** What `LoadPlugins` did: the manager afterwards, the plugins loaded in order, and the callbacks made in order. */
  datatype LoadReport = LoadReport(manager: Manager, loaded: seq<LoadedPlugin>, callbacks: seq<Callback>)

  /** `LoadPlugins`: with nothing registered nothing loads and nothing changes; without `Multi` at most one plugin loads. */
  function LoadPlugins(m: Manager, options: LoadOptions): (r: LoadReport)
    ensures r.manager.plugins == m.plugins
    ensures |m.plugins| == 0 ==> r.loaded == [] && r.manager == m
    ensures !Multi(options) ==> |r.loaded| <= 1
  {
    var multi := Multi(options);
    var names := RequestedNames(m, options);
    LoadedComeFromFactories(m, names, multi, options.hasOnError);
    var (loaded, errors) :=
      if |m.plugins| == 0 then ([], [])
      else InstantiateMultiplePlugins(m, names, multi, options.hasOnError);
    var (cached, completion) := Complete(m, loaded, options);
    LoadReport(cached, loaded, errors + completion)
  }

  /** With plugins registered, the ones loaded are the loadable requested names: all of them with `Multi`, else the first. */
  lemma LoadPluginsSelects(m: Manager, options: LoadOptions)
    requires |m.plugins| > 0
    ensures var expected := LoadableNames(m, RequestedNames(m, options), options.hasOnError);
      NamesOf(LoadPlugins(m, options).loaded) == if Multi(options) || |expected| == 0 then expected else expected[..1]
  {
    InstantiateSelectsLoadable(m, RequestedNames(m, options), Multi(options), options.hasOnError);
  }

  /**
   The callbacks of a load: "No plugins were loaded." exactly when nothing
   loaded and an error handler exists; `OnComplete` last, with parallel lists
   in load order; only errors when there is no completion handler.
   */
  lemma LoadPluginsCallbacks(m: Manager, options: LoadOptions)
    ensures var r := LoadPlugins(m, options);
      OnError(NoPluginsLoadedText, None) in r.callbacks <==> options.hasOnError && r.loaded == []
    ensures var r := LoadPlugins(m, options);
      options.hasOnComplete ==> (|r.callbacks| > 0 &&
      var last := r.callbacks[|r.callbacks| - 1];
      && last.OnComplete?
      && |last.instances| == |last.configs| == |last.names| == |r.loaded|
      && last.names == NamesOf(r.loaded)
      && forall i :: 0 <= i < |r.loaded| ==> last.instances[i] == r.loaded[i].instance && last.configs[i] == r.loaded[i].config)
    ensures var r := LoadPlugins(m, options);
      !options.hasOnComplete ==> forall c :: c in r.callbacks ==> c.OnError?
  {
    var multi := Multi(options);
    var names := RequestedNames(m, options);
    InstantiateErrorsNamePlugins(m, names, multi, options.hasOnError);
    var (loaded, errors) :=
      if |m.plugins| == 0 then ([], [])
      else InstantiateMultiplePlugins(m, names, multi, options.hasOnError);
    var (cached, completion) := Complete(m, loaded, options);
    assert LoadPlugins(m, options) == LoadReport(cached, loaded, errors + completion);
    assert forall c :: c in errors ==> c.plugin.Some?;
  }

  /** After a load, each name's cached instance is that of its last loaded plugin, and other names read as before. */
  lemma LoadPluginsCaches(m: Manager, options: LoadOptions)
    ensures var r := LoadPlugins(m, options);
      forall name :: (OrderedMap.Get(r.manager.cachedInstances, name) ==
      match LastNamed(r.loaded, name)
      case Some(p) => Some(p.instance)
      case None => OrderedMap.Get(m.cachedInstances, name))
  {
    CacheAllGetEverywhere(m.cachedInstances, LoadPlugins(m, options).loaded, InstanceOf);
  }

  /** Every `OnError` raised while instantiating names the plugin whose factory failed. */
  lemma {:induction false} InstantiateErrorsNamePlugins(m: Manager, names: seq<PluginName>, multi: bool, hasOnError: bool)
    ensures forall c :: c in InstantiateMultiplePlugins(m, names, multi, hasOnError).1 ==> c.OnError? && c.plugin.Some?
    decreases |names|
  {
    if |names| > 0 {
      InstantiateErrorsNamePlugins(m, names[1..], multi, hasOnError);
    }
  }

  /** `GetPlugin`: the cached instance of a name (absent, or a plugin whose class was not found, read as nothing). */
  function GetPlugin(m: Manager, name: PluginName): (r: Option<InstanceRef>)
    ensures r.Some? ==> OrderedMap.Get(m.cachedInstances, name) == Some(r)
    ensures var cached := OrderedMap.Get(m.cachedInstances, name);
      cached.Some? && cached.value.Some? ==> r == cached.value
    ensures !OrderedMap.Has(m.cachedInstances, name) ==> r.None?
  {
    match OrderedMap.Get(m.cachedInstances, name)
    case Some(instance) => instance
    case None => None
  }

  /** `GetPlugins`: every cached instance in first-cached order. */
  function GetPlugins(m: Manager): (r: seq<Option<InstanceRef>>)
    ensures |r| == |m.cachedInstances|
    ensures forall i :: 0 <= i < |r| ==> r[i] == m.cachedInstances[i].1
    ensures forall name :: OrderedMap.Has(m.cachedInstances, name) ==> GetPlugin(m, name) in r
  {
    OrderedMap.Values(m.cachedInstances)
  }

  /** `GetPluginConfig`: the config cached under a name, or nothing. */
  function GetPluginConfig(m: Manager, name: PluginName): (r: Option<Config>)
    ensures r.None? <==> !OrderedMap.Has(m.cachedConfigs, name)
    ensures r.Some? ==> exists i :: OrderedMap.FirstKeyAt(m.cachedConfigs, name, i) && m.cachedConfigs[i].1 == r.value
  {
    OrderedMap.Get(m.cachedConfigs, name)
  }

  /** `GetPluginConfigs`: every cached config in first-cached order. */
  function GetPluginConfigs(m: Manager): (r: seq<Config>)
    ensures |r| == |m.cachedConfigs|
    ensures forall i :: 0 <= i < |r| ==> r[i] == m.cachedConfigs[i].1
    ensures forall name :: GetPluginConfig(m, name).Some? ==> GetPluginConfig(m, name).value in r
  {
    OrderedMap.Values(m.cachedConfigs)
  }

  /**
   After a load, `getPlugin` returns the instance of the last plugin loaded
   under a name, and what was cached before for every other name.
   */
  lemma GetPluginAfterLoad(m: Manager, options: LoadOptions, name: PluginName)
    ensures var r := LoadPlugins(m, options);
      match LastNamed(r.loaded, name)
      case Some(p) => GetPlugin(r.manager, name) == p.instance
      case None => GetPlugin(r.manager, name) == GetPlugin(m, name)
  {
    LoadPluginsCaches(m, options);
  }

  /** A manager's maps hold each name at most once. */
  predicate WellFormed(m: Manager) {
    && OrderedMap.DistinctKeys(m.plugins)
    && OrderedMap.DistinctKeys(m.cachedInstances)
    && OrderedMap.DistinctKeys(m.cachedConfigs)
    && OrderedMap.DistinctKeys(m.cachedConfigFilepaths)
  }

  /** Registering keeps every name unique, so `GetPlugins` gives one entry per cached name. */
  lemma RegisterPluginKeepsWellFormed(m: Manager, name: PluginName, factory: FactoryResult)
    requires WellFormed(m)
    ensures WellFormed(RegisterPlugin(m, name, factory))
  {
    OrderedMap.SetKeepsKeysDistinct(m.plugins, name, factory);
  }

  /** Loading keeps every name unique in all three caches. */
  lemma LoadPluginsKeepsWellFormed(m: Manager, options: LoadOptions)
    requires WellFormed(m)
    ensures WellFormed(LoadPlugins(m, options).manager)
  {
    var loaded := LoadPlugins(m, options).loaded;
    CacheAllKeepsKeysDistinct(m.cachedInstances, loaded, InstanceOf);
    CacheAllKeepsKeysDistinct(m.cachedConfigs, loaded, ConfigOf);
    CacheAllKeepsKeysDistinct(m.cachedConfigFilepaths, loaded, FilepathOf);
  }

  /** Loading a plugin twice keeps the second instance under its name. */
  lemma ReloadOverwritesCache(m: Manager, name: PluginName, first: LoadedPlugin, second: LoadedPlugin)
    requires first.name == name && second.name == name
    ensures OrderedMap.Get(CacheAll(m.cachedInstances, [first, second], InstanceOf), name) == Some(second.instance)
  {
    CacheAllGet(m.cachedInstances, [first, second], InstanceOf, name);
  }
}
