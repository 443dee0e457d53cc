/** The bundle's dependency-injection extension: `load` turns the processed
    configuration into container definitions step by step, as the PHP code does,
    and each step is proved to produce what the Resolution functions describe. */
module Extension {
  import opened Wrappers
  import opened DependencyInjection
  import opened Ids
  import opened Registry
  import opened Resolution

  class OneupFlysystemExtension {
    /** The memoised registries: None until first computed. */
    var adapterFactories: Option<map<string, Factory>>
    var cacheFactories: Option<map<string, Factory>>

    constructor ()
      ensures adapterFactories == None && cacheFactories == None
    {
      adapterFactories := None;
      cacheFactories := None;
    }

    /** getAdapterFactories: built once from the tagged factory services, then returned
        from the field whatever services are passed later. */
    method GetAdapterFactories(tagged: seq<Factory>) returns (factories: map<string, Factory>)
      modifies this`adapterFactories
      ensures factories == if old(adapterFactories).Some? then old(adapterFactories).value else Register(tagged, map[])
      ensures adapterFactories == Some(factories)
    {
      if adapterFactories.Some? {
        return adapterFactories.value;
      }
      factories := BuildRegistry(tagged);
      adapterFactories := Some(factories);
    }

    /** getCacheFactories: as getAdapterFactories, for the cache factory services. */
    method GetCacheFactories(tagged: seq<Factory>) returns (factories: map<string, Factory>)
      modifies this`cacheFactories
      ensures factories == if old(cacheFactories).Some? then old(cacheFactories).value else Register(tagged, map[])
      ensures cacheFactories == Some(factories)
    {
      if cacheFactories.Some? {
        return cacheFactories.value;
      }
      factories := BuildRegistry(tagged);
      cacheFactories := Some(factories);
    }

    /** load, after the XML service files are loaded and the configuration is processed.
        `taggedAdapterFactories` and `taggedCacheFactories` are the factory services the
        container finds by tag. */
    method Load(config: BundleConfig, taggedAdapterFactories: seq<Factory>, taggedCacheFactories: seq<Factory>,
                env: Environment, container: ContainerBuilder) returns (outcome: Outcome<LoadError>)
      modifies this, container
      ensures adapterFactories ==
              Some(if old(adapterFactories).Some? then old(adapterFactories).value else Register(taggedAdapterFactories, map[]))
      ensures cacheFactories ==
              Some(if old(cacheFactories).Some? then old(cacheFactories).value else Register(taggedCacheFactories, map[]))
      ensures var r := Resolve(config, adapterFactories.value, cacheFactories.value, env, old(container.View()));
              && (r.Ok? ==> outcome == Pass && container.View() == r.value)
              && (r.Err? ==> outcome == Fail(r.error))
    {
      var adapterRegistry := GetAdapterFactories(taggedAdapterFactories);
      var cacheRegistry := GetCacheFactories(taggedCacheFactories);

      var adapters := CreateServices(AdapterKind, config.adapters, adapterRegistry, container);
      if adapters.Err? {
        return Fail(adapters.error);
      }
      var caches := CreateServices(CacheKind, config.caches, cacheRegistry, container);
      if caches.Err? {
        return Fail(caches.error);
      }
      var filesystems := CreateFilesystems(config.filesystems, adapters.value, caches.value, env.argumentAliases, container);
      if filesystems.Err? {
        return Fail(filesystems.error);
      }
      outcome := LoadStreamWrappers(config.filesystems, filesystems.value, env.streamWrapperInstalled, container);
    }

    /** The first two foreach loops of load: every adapter (or cache) in configuration
        order, stopping at the first that fails; the result maps names to ids. */
    method CreateServices(kind: ServiceKind, entries: Entries<KindConfig>, factories: map<string, Factory>,
                          container: ContainerBuilder) returns (ids: Result<map<string, string>, LoadError>)
      modifies container
      ensures var r := ResolveServices(kind, entries, factories, map[], old(container.View()));
              && (r.Ok? ==> ids == Ok(r.value.0) && container.View() == r.value.1)
              && (r.Err? ==> ids == Err(r.error))
    {
      ghost var start := container.View();
      var resolved: map<string, string> := map[];
      var i := 0;
      while i < |entries|
        invariant 0 <= i <= |entries|
        invariant ResolveServices(kind, entries[i..], factories, resolved, container.View()) ==
                  ResolveServices(kind, entries, factories, map[], start)
      {
        var name, config := entries[i].0, entries[i].1;
        assert entries[i..][1..] == entries[i + 1..];
        ghost var step := DefineService(kind, name, config, factories, container.View());
        if IsIntegerKey(name) {
          // PHP holds this name as an int: the call is refused under strict_types.
          return Err(NameNotString(CreateMethod(kind), name));
        }
        var id := CreateService(kind, name, config, container, factories);
        if id.Err? {
          return Err(id.error);
        }
        assert step == Ok((id.value, container.View()));
        resolved := resolved[name := id.value];
        i := i + 1;
      }
      assert entries[i..] == [];
      return Ok(resolved);
    }

    /** The third foreach loop of load: every filesystem in configuration order, stopping
        at the first that fails; the result maps names to filesystem ids. */
    method CreateFilesystems(entries: Entries<FilesystemConfig>, adapters: map<string, string>, caches: map<string, string>,
                             argumentAliases: bool, container: ContainerBuilder)
      returns (refs: Result<map<string, string>, LoadError>)
      modifies container
      ensures var r := ResolveFilesystems(entries, adapters, caches, argumentAliases, map[], old(container.View()));
              && (r.Ok? ==> refs == Ok(r.value.0) && container.View() == r.value.1)
              && (r.Err? ==> refs == Err(r.error))
      ensures refs.Ok? ==> forall i | 0 <= i < |entries| :: entries[i].0 in refs.value
    {
      ghost var start := container.View();
      var filesystems: map<string, string> := map[];
      var i := 0;
      while i < |entries|
        invariant 0 <= i <= |entries|
        invariant ResolveFilesystems(entries[i..], adapters, caches, argumentAliases, filesystems, container.View()) ==
                  ResolveFilesystems(entries, adapters, caches, argumentAliases, map[], start)
      {
        var name, filesystem := entries[i].0, entries[i].1;
        assert entries[i..][1..] == entries[i + 1..];
        ghost var step := DefineFilesystem(name, filesystem, adapters, caches, argumentAliases, container.View());
        if IsIntegerKey(name) {
          // PHP holds this name as an int: the call is refused under strict_types.
          return Err(NameNotString("createFilesystem", name));
        }
        var reference := CreateFilesystem(name, filesystem, container, adapters, caches, argumentAliases);
        if reference.Err? {
          return Err(reference.error);
        }
        assert step == Ok(container.View());
        filesystems := filesystems[name := reference.value];
        i := i + 1;
      }
      assert entries[i..] == [];
      ResolveFilesystemsRefs(entries, adapters, caches, argumentAliases, map[], start);
      assert forall j | 0 <= j < |entries| :: entries[j].0 in Names(entries);
      return Ok(filesystems);
    }

    /** createAdapter and createCache, which differ only in the kind of id they define
        and the kind named in their error: the first key, in configuration order, that
        has a factory decides, and only that factory creates. `name` is declared
        `string`, so a name PHP holds as an int never gets here. */
    method CreateService(kind: ServiceKind, name: string, config: KindConfig, container: ContainerBuilder,
                         factories: map<string, Factory>) returns (id: Result<string, LoadError>)
      requires !IsIntegerKey(name)
      modifies container
      ensures var d := DefineService(kind, name, config, factories, old(container.View()));
              && (d.Err? ==> id == Err(d.error) && container.View() == old(container.View()))
              && (d.Ok? ==> id == Ok(d.value.0) && container.View() == d.value.1)
    {
      var i := 0;
      while i < |config|
        invariant 0 <= i <= |config|
        invariant forall j | 0 <= j < i :: config[j].0 !in factories
        invariant container.View() == old(container.View())
      {
        var key, options := config[i].0, config[i].1;
        if key in factories {
          var serviceId := ServiceId(kind, name);
          container.SetDefinition(serviceId, FactoryDefinition(factories[key], options));
          return Ok(serviceId);
        }
        i := i + 1;
      }
      return Err(NotConfigured(kind, name));
    }

    /** createFilesystem: returns the id of `oneup_flysystem.<name>_filesystem`, the id
        `load` keeps a reference to. `name` is declared `string`, so a name PHP holds
        as an int never gets here. */
    method CreateFilesystem(name: string, fs: FilesystemConfig, container: ContainerBuilder,
                            adapters: map<string, string>, caches: map<string, string>, argumentAliases: bool)
      returns (reference: Result<string, LoadError>)
      requires !IsIntegerKey(name)
      modifies container
      ensures var d := DefineFilesystem(name, fs, adapters, caches, argumentAliases, old(container.View()));
              && (d.Err? ==> reference == Err(d.error) && container.View() == old(container.View()))
              && (d.Ok? ==> reference == Ok(FilesystemId(name)) && container.View() == d.value)
    {
      if fs.adapter !in adapters {
        return Err(AdapterNotDefined(fs.adapter));
      }
      var adapter := adapters[fs.adapter];
      var id := FilesystemId(name);

      var cache: Option<string> := None;
      if CacheKey(fs.cache) in caches {
        cache := Some(caches[CacheKey(fs.cache)]);
        DefineDecorator(adapter, cache.value, container);
      }
      var backend := if cache.Some? then DecoratorId(adapter) else adapter;
      ConfigureFilesystem(id, name, fs, backend, argumentAliases, container);
      return Ok(id);
    }

    /** The rest of createFilesystem once the backend is known: the definition, the
        alias, the plugins and the argument alias. */
    method ConfigureFilesystem(id: string, name: string, fs: FilesystemConfig, backend: string, argumentAliases: bool,
                               container: ContainerBuilder)
      modifies container
      ensures container.definitions == old(container.definitions)[id := FilesystemDefinition(name, fs, backend)]
      ensures var aliased := if HasAlias(fs) then InsertOrGetPublic(old(container.aliases), fs.alias.value, id)
                             else old(container.aliases);
              container.aliases ==
              if argumentAliases then aliased[ArgumentAliasKey(FilesystemInterface, ArgumentAliasName(name)) := Alias(id, false)]
              else aliased
    {
      ghost var before := container.View();
      ghost var defined := FilesystemDefinition(name, fs, backend);
      DefineFilesystemService(id, name, fs, backend, container);
      if HasAlias(fs) {
        PublishAlias(id, fs.alias.value, container);
      }
      ghost var aliased := if HasAlias(fs) then InsertOrGetPublic(before.aliases, fs.alias.value, id) else before.aliases;
      assert container.aliases == aliased;
      assert container.definitions == before.definitions[id := defined.(calls := [])];
      if fs.plugins.Some? {
        AttachPlugins(id, fs.plugins.value, container);
      }
      assert container.definitions == before.definitions[id := defined] by {
        assert defined.(calls := []).calls + PluginCalls(fs.plugins) == defined.calls;
      }

      if argumentAliases {
        container.RegisterAliasForArgument(id, FilesystemInterface, ArgumentAliasName(name));
      }
    }

    /** The cache decorator `<adapter>_cached`, a child of the cached-adapter definition
        over the adapter and the cache. */
    method DefineDecorator(adapter: string, cache: string, container: ContainerBuilder)
      modifies container
      ensures container.definitions == old(container.definitions)[DecoratorId(adapter) := DecoratorDefinition(adapter, cache)]
      ensures container.aliases == old(container.aliases)
    {
      var decorator := ChildDefinition(CachedAdapterTemplate)
        .ReplaceArgument(0, Ref(adapter))
        .ReplaceArgument(1, Ref(cache));
      assert decorator.args == map[0 := Ref(adapter), 1 := Ref(cache)];
      container.SetDefinition(DecoratorId(adapter), decorator);
    }

    /** The filesystem definition over `backend`, tagged, with its options, public until
        an alias is published for it, and with no plugin calls yet. */
    method DefineFilesystemService(id: string, name: string, fs: FilesystemConfig, backend: string, container: ContainerBuilder)
      modifies container
      ensures container.definitions ==
              old(container.definitions)[id := FilesystemDefinition(name, fs, backend).(public := Some(true), calls := [])]
      ensures container.aliases == old(container.aliases)
    {
      var tagParams := map["key" := name];
      if Truthy(fs.mount) {
        tagParams := tagParams["mount" := fs.mount.value];
      }

      var options: map<string, Param> := map[];
      if fs.visibility.Some? {
        options := options["visibility" := fs.visibility.value];
      }
      if fs.disableAsserts.Some? {
        options := options["disable_asserts" := fs.disableAsserts.value];
      }

      var filesystem := ChildDefinition(FilesystemTemplate)
        .ReplaceArgument(0, Ref(backend))
        .ReplaceArgument(1, Options(options))
        .AddTag(Tag(FilesystemTag, tagParams))
        .SetPublic(true);
      assert filesystem.args == map[0 := Ref(backend), 1 := Options(FilesystemOptions(fs))];
      assert filesystem.tags == [Tag(FilesystemTag, TagAttributes(name, fs.mount))];
      container.SetDefinition(id, filesystem);
    }

    /** The `alias` option: the filesystem turns private and the alias, new or already
        registered, turns public. */
    method PublishAlias(id: string, alias: string, container: ContainerBuilder)
      requires id in container.definitions
      modifies container
      ensures container.definitions == old(container.definitions)[id := old(container.definitions)[id].(public := Some(false))]
      ensures container.aliases == InsertOrGetPublic(old(container.aliases), alias, id)
    {
      container.SetPublic(id, false);
      var created := container.TrySetAlias(alias, id);
      // when the alias was already registered it is reused as it is, target included
      container.SetAliasPublic(alias, true);
      if created {
        assert container.aliases == old(container.aliases)[alias := Alias(id, true)];
      }
    }

    /** One `addPlugin` call per plugin service, in order. */
    method AttachPlugins(id: string, plugins: seq<string>, container: ContainerBuilder)
      requires id in container.definitions
      modifies container
      ensures container.definitions ==
              old(container.definitions)[id := old(container.definitions)[id].(calls := old(container.definitions)[id].calls + PluginCalls(Some(plugins)))]
      ensures container.aliases == old(container.aliases)
    {
      ghost var before := container.definitions;
      ghost var original := before[id];
      var k := 0;
      assert PluginCalls(Some(plugins[..k])) == [];
      assert original.(calls := original.calls + PluginCalls(Some(plugins[..k]))) == original;
      while k < |plugins|
        invariant 0 <= k <= |plugins|
        invariant container.definitions ==
                  before[id := original.(calls := original.calls + PluginCalls(Some(plugins[..k])))]
        invariant container.aliases == old(container.aliases)
      {
        ghost var done := PluginCalls(Some(plugins[..k]));
        container.AddMethodCall(id, AddPlugin(plugins[k]));
        assert PluginCalls(Some(plugins[..k + 1])) == done + [AddPlugin(plugins[k])];
        assert original.calls + done + [AddPlugin(plugins[k])] == original.calls + (done + [AddPlugin(plugins[k])]);
        k := k + 1;
      }
      assert plugins[..k] == plugins;
    }

    /** loadStreamWrappers: nothing unless some filesystem sets `stream_wrapper`; then the
        library must be installed, and each such filesystem gets its configuration
        definition and an entry in the manager's table. */
    method LoadStreamWrappers(configs: Entries<FilesystemConfig>, filesystems: map<string, string>,
                              installed: bool, container: ContainerBuilder) returns (outcome: Outcome<LoadError>)
      requires forall i | 0 <= i < |configs| :: configs[i].0 in filesystems
      modifies container
      ensures var r := RegisterStreamWrappers(configs, filesystems, installed, old(container.View()));
              && (r.Ok? ==> outcome == Pass && container.View() == r.value)
              && (r.Err? ==> outcome == Fail(r.error) && container.View() == old(container.View()))
    {
      var declared := HasStreamWrapperConfiguration(configs);
      if !declared {
        return Pass;
      }
      if !installed {
        return Fail(StreamWrapperNotInstalled);
      }

      // stream_wrappers.xml declares the manager
      container.SetDefinition(StreamWrapperManagerId, ManagerDeclaration);
      ghost var d0 := container.definitions;

      var configurations: map<string, string> := map[];
      var i := 0;
      while i < |configs|
        invariant 0 <= i <= |configs|
        invariant ConfigureStreamWrappers(configs[i..], filesystems, configurations, container.definitions) ==
                  ConfigureStreamWrappers(configs, filesystems, map[], d0)
        invariant StreamWrapperManagerId in container.definitions
        invariant container.definitions[StreamWrapperManagerId] == ManagerDeclaration
        invariant container.aliases == old(container.aliases)
      {
        var name, fs := configs[i].0, configs[i].1;
        assert configs[i..][1..] == configs[i + 1..];
        if fs.streamWrapper.Some? {
          var streamWrapper := fs.streamWrapper.value;
          var configuration := ChildDefinition(StreamWrapperConfigurationTemplate)
            .ReplaceArgument(0, Value(Str(streamWrapper.protocol)))
            .ReplaceArgument(1, Ref(filesystems[name]))
            .ReplaceArgument(2, Value(streamWrapper.configuration.GetOr(Null)))
            .SetPublic(false);
          ConfigurationIsNotManager(name);
          container.SetDefinition(StreamWrapperConfigurationId(name), configuration);
          configurations := configurations[name := StreamWrapperConfigurationId(name)];
        }
        i := i + 1;
      }

      container.ReplaceArgument(StreamWrapperManagerId, 0, References(configurations));
      return Pass;
    }

    /** hasStreamWrapperConfiguration: a read-only search for a `stream_wrapper` key. */
    method HasStreamWrapperConfiguration(configs: Entries<FilesystemConfig>) returns (declared: bool)
      ensures declared <==> exists i | 0 <= i < |configs| :: configs[i].1.streamWrapper.Some?
    {
      for i := 0 to |configs|
        invariant forall j | 0 <= j < i :: configs[j].1.streamWrapper.None?
      {
        if configs[i].1.streamWrapper.Some? {
          return true;
        }
      }
      return false;
    }
  }
}
